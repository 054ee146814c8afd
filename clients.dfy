/**
 * The customer manager: a list of customer records with the same add, edit,
 * delete and lookup pattern as the hotel manager, and no booking logic.
 * The persisted JSON list is the field `datos` of class `Cliente`.
 */
module Clients {
  import opened Records

  /** A customer record: `{"id", "nombre", "edad"}`. */
  datatype ClienteEntry = ClienteEntry(id: int, nombre: string, edad: int)

  function ClienteId(c: ClienteEntry): int { c.id }

  /** The record `agregar` appends. */
  function NewCliente(datos: seq<ClienteEntry>, nombre: string, edad: int): (c: ClienteEntry)
    ensures c.id == |datos| + 1 && c.nombre == nombre && c.edad == edad
  {
    ClienteEntry(NextId(datos), nombre, edad)
  }

  /** The truthy-only partial update of one customer record. */
  function Patch(c: ClienteEntry, nombre: Option<string>, edad: Option<int>): ClienteEntry {
    c.(nombre := if TruthyText(nombre) then nombre.value else c.nombre,
       edad := if TruthyInt(edad) then edad.value else c.edad)
  }

  /** Editing: only the first customer with the id changes, and only in the fields given a truthy value. */
  function Edit(datos: seq<ClienteEntry>, id: int, nombre: Option<string>, edad: Option<int>): (r: Outcome<ClienteEntry>)
    ensures |r.datos| == |datos|
    ensures r.status == Ok <==> FirstIndex(datos, ClienteId, id).Some?
    ensures r.status != Ok ==> r.status == NotFound && r.datos == datos
    ensures r.status == Ok ==>
      (var k := FirstIndex(datos, ClienteId, id).value;
       && r.datos[k].id == datos[k].id
       && r.datos[k].nombre == (if TruthyText(nombre) then nombre.value else datos[k].nombre)
       && r.datos[k].edad == (if TruthyInt(edad) then edad.value else datos[k].edad)
       && forall j :: 0 <= j < |datos| && j != k ==> r.datos[j] == datos[j])
  {
    match FirstIndex(datos, ClienteId, id)
    case None => Outcome(NotFound, datos)
    case Some(k) => Outcome(Ok, datos[k := Patch(datos[k], nombre, edad)])
  }

  /** An edit whose arguments are all falsy (absent, "" or 0) changes nothing, though it reports success. */
  lemma FalsyEditIsNoOp(datos: seq<ClienteEntry>, id: int, nombre: Option<string>, edad: Option<int>)
    requires !TruthyText(nombre) && !TruthyInt(edad)
    ensures Edit(datos, id, nombre, edad).datos == datos
  {
  }

  /** Editing the same customer twice with the same arguments is the same as editing it once. */
  lemma EditIdempotent(datos: seq<ClienteEntry>, id: int, nombre: Option<string>, edad: Option<int>)
    ensures Edit(Edit(datos, id, nombre, edad).datos, id, nombre, edad) == Edit(datos, id, nombre, edad)
  {
  }

  class Cliente {
    /** The customer list as the JSON file holds it. */
    var datos: seq<ClienteEntry>

    /** `guardado` is what the file holds, or None when it does not exist yet and is started as `[]`. */
    constructor (guardado: Option<seq<ClienteEntry>>)
      ensures datos == if guardado.Some? then guardado.value else []
    {
      datos := if guardado.Some? then guardado.value else [];
    }

    /** `agregar`: append a customer whose id is the old length plus one. */
    method Agregar(nombre: string, edad: int)
      modifies this
      ensures datos == old(datos) + [NewCliente(old(datos), nombre, edad)]
    {
      var nuevo := ClienteEntry(|datos| + 1, nombre, edad);
      datos := datos + [nuevo];
    }

    /** `editar`: truthy-only update of the first customer with the id. */
    method Editar(id_c: int, nombre: Option<string>, edad: Option<int>) returns (status: Status)
      modifies this
      ensures Outcome(status, datos) == Edit(old(datos), id_c, nombre, edad)
    {
      var i := 0;
      while i < |datos|
        invariant 0 <= i <= |datos| && datos == old(datos)
        invariant forall j :: 0 <= j < i ==> datos[j].id != id_c
      {
        if datos[i].id == id_c {
          FirstIndexAt(datos, ClienteId, id_c, i);
          var cliente := datos[i];
          if TruthyText(nombre) {
            cliente := cliente.(nombre := nombre.value);
          }
          if TruthyInt(edad) {
            cliente := cliente.(edad := edad.value);
          }
          datos := datos[i := cliente];
          return Ok;
        }
        i := i + 1;
      }
      return NotFound;
    }

    /** `eliminar`: keep only the customers whose id differs, silently when none matches. */
    method Eliminar(id_e: int)
      modifies this
      ensures datos == Without(old(datos), ClienteId, id_e)
    {
      datos := Without(datos, ClienteId, id_e);
    }

    /** `mostrar_cliente`: the first customer with the id, or the id reported missing. */
    method MostrarCliente(id_mc: int) returns (r: Lookup<ClienteEntry>)
      ensures r == FindById(datos, ClienteId, id_mc)
    {
      var i := 0;
      while i < |datos|
        invariant 0 <= i <= |datos|
        invariant forall j :: 0 <= j < i ==> datos[j].id != id_mc
      {
        if datos[i].id == id_mc {
          FirstIndexAt(datos, ClienteId, id_mc, i);
          return Found(datos[i]);
        }
        i := i + 1;
      }
      return Missing(id_mc);
    }
  }
}
