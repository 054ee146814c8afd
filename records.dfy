/**
 * Shared vocabulary of the three record managers: every manager keeps one flat
 * list of records, identifies a record by its integer `id`, looks records up
 * by the FIRST one whose id matches, and deletes by filtering out EVERY record
 * whose id matches. Ids are assigned as "length of the list + 1", so they are
 * not unique after a deletion; nothing here assumes they are.
 */
module Records {

  datatype Option<T> = None | Some(value: T)

  /** What an operation reports (the source prints one status line per outcome). */
  datatype Status = Ok | NotFound | NoRooms | NoReservation

  /** A lookup either finds a record or reports the id it could not find. */
  datatype Lookup<T> = Found(record: T) | Missing(id: int)

  /** The status of a mutating operation together with the list it leaves behind. */
  datatype Outcome<T> = Outcome(status: Status, datos: seq<T>)

  /** Python truthiness of an optional text argument: present and not "". */
  predicate TruthyText(s: Option<string>) {
    s.Some? && s.value != ""
  }

  /** Python truthiness of an optional integer argument: present and not 0. */
  predicate TruthyInt(n: Option<int>) {
    n.Some? && n.value != 0
  }

  /** The id a new record receives: the current length of the list plus one. */
  function NextId<T>(datos: seq<T>): (id: int)
    ensures id >= 1
  {
    |datos| + 1
  }

  /** Index of the first record whose id is `id`, as a `for ... if ... return` scan finds it. */
  function FirstIndex<T>(s: seq<T>, idOf: T -> int, id: int): (r: Option<nat>)
    ensures r.Some? ==> r.value < |s| && idOf(s[r.value]) == id
    ensures r.Some? ==> forall j :: 0 <= j < r.value ==> idOf(s[j]) != id
    ensures r.None? ==> forall j :: 0 <= j < |s| ==> idOf(s[j]) != id
  {
    if s == [] then None
    else if idOf(s[0]) == id then Some(0)
    else match FirstIndex(s[1..], idOf, id)
      case None => None
      case Some(k) => Some(k + 1)
  }

  /** The contract of FirstIndex determines it: a scan that stops at `i` found the first match. */
  lemma FirstIndexAt<T>(s: seq<T>, idOf: T -> int, id: int, i: nat)
    requires i < |s| && idOf(s[i]) == id
    requires forall j :: 0 <= j < i ==> idOf(s[j]) != id
    ensures FirstIndex(s, idOf, id) == Some(i)
  {
  }

  /** Appending a record never changes an existing first match; otherwise the new record may become it. */
  lemma {:induction false} FirstIndexAppend<T>(s: seq<T>, x: T, idOf: T -> int, id: int)
    ensures FirstIndex(s + [x], idOf, id) ==
      (if FirstIndex(s, idOf, id).Some? then FirstIndex(s, idOf, id)
       else if idOf(x) == id then Some(|s|)
       else None)
  {
    if s == [] {
      assert s + [x] == [x];
    } else {
      assert (s + [x])[1..] == s[1..] + [x];
      FirstIndexAppend(s[1..], x, idOf, id);
    }
  }

  /** First-match lookup, as `mostrar_*` does it: the record itself, or the id that was missing. */
  function FindById<T>(s: seq<T>, idOf: T -> int, id: int): (r: Lookup<T>)
    ensures r.Found? <==> exists j :: 0 <= j < |s| && idOf(s[j]) == id
    ensures r.Found? ==> r.record == s[FirstIndex(s, idOf, id).value] && idOf(r.record) == id
    ensures r.Missing? ==> r.id == id
  {
    match FirstIndex(s, idOf, id)
    case Some(k) => Found(s[k])
    case None => Missing(id)
  }

  /** The list comprehension `[x for x in s if x["id"] != id]`. */
  function Without<T(!new)>(s: seq<T>, idOf: T -> int, id: int): (r: seq<T>)
    ensures |r| <= |s|
    ensures forall x :: x in r <==> x in s && idOf(x) != id
    ensures forall x :: multiset(r)[x] == if idOf(x) == id then 0 else multiset(s)[x]
  {
    if s == [] then []
    else
      assert s == [s[0]] + s[1..];
      if idOf(s[0]) == id then Without(s[1..], idOf, id)
      else [s[0]] + Without(s[1..], idOf, id)
  }

  /** The filter keeps the original order: it distributes over concatenation. */
  lemma {:induction false} WithoutConcat<T(!new)>(a: seq<T>, b: seq<T>, idOf: T -> int, id: int)
    ensures Without(a + b, idOf, id) == Without(a, idOf, id) + Without(b, idOf, id)
  {
    if a == [] {
      assert a + b == b;
    } else {
      assert (a + b)[1..] == a[1..] + b;
      WithoutConcat(a[1..], b, idOf, id);
    }
  }

  /** Deleting an id that no record carries leaves the list exactly as it was. */
  lemma {:induction false} WithoutMissing<T(!new)>(s: seq<T>, idOf: T -> int, id: int)
    requires forall j :: 0 <= j < |s| ==> idOf(s[j]) != id
    ensures Without(s, idOf, id) == s
  {
    if s != [] {
      WithoutMissing(s[1..], idOf, id);
      assert [s[0]] + s[1..] == s;
    }
  }

  /** Deleting the same id twice is the same as deleting it once. */
  lemma WithoutIdempotent<T(!new)>(s: seq<T>, idOf: T -> int, id: int)
    ensures Without(Without(s, idOf, id), idOf, id) == Without(s, idOf, id)
  {
    var r := Without(s, idOf, id);
    forall j | 0 <= j < |r| ensures idOf(r[j]) != id {
      assert r[j] in r;
    }
    WithoutMissing(r, idOf, id);
  }

  /** After a delete, a lookup of the deleted id reports it missing. */
  lemma WithoutThenFind<T(!new)>(s: seq<T>, idOf: T -> int, id: int)
    ensures FindById(Without(s, idOf, id), idOf, id) == Missing(id)
  {
  }
}
