/**
 * The hotel manager: a list of hotel records, each with an embedded list of
 * reservation stubs, and the booking rule "book only while rooms minus
 * reservations held is positive". The persisted JSON list is the field
 * `datos` of class `Hotel`; every operation works on it the way the source
 * works on the list it loads, and leaves behind the list the source saves.
 *
 * Each mutating operation has a specification function on values (Book,
 * Cancel, Modify) whose contract states what the operation promises; the
 * class method does the scan the source does and is proved equal to it.
 */
module Hotels {
  import opened Records

  /** A reservation stub embedded in a hotel record: `{"id_cliente": ...}`. */
  datatype Reserva = Reserva(id_cliente: int)

  /** A hotel record: `{"id", "nombre", "habitaciones", "reservas"}`. */
  datatype HotelEntry = HotelEntry(id: int, nombre: string, habitaciones: int, reservas: seq<Reserva>)

  function HotelId(h: HotelEntry): int { h.id }

  function StubCliente(r: Reserva): int { r.id_cliente }

  /** Rooms still free (`hab_disp`); negative once an edit has lowered the rooms below the reservations. */
  function Disponibles(h: HotelEntry): int { h.habitaciones - |h.reservas| }

  /** The hotel holds no more reservations than it has rooms. */
  predicate WithinRooms(h: HotelEntry) {
    |h.reservas| <= h.habitaciones
  }

  /** No hotel holds more reservations than it has rooms. */
  ghost predicate WithinCapacity(datos: seq<HotelEntry>) {
    forall j :: 0 <= j < |datos| ==> WithinRooms(datos[j])
  }

  /** The customer already holds a stub in the first hotel with this id. */
  ghost predicate HoldsStub(datos: seq<HotelEntry>, id_hotel: int, id_cliente: int) {
    match FirstIndex(datos, HotelId, id_hotel)
    case None => false
    case Some(k) => FirstIndex(datos[k].reservas, StubCliente, id_cliente).Some?
  }

  /** The record `crear_hotel` appends. */
  function NewHotel(datos: seq<HotelEntry>, nombre: string, habitaciones: int): (h: HotelEntry)
    ensures h.id == |datos| + 1 && h.reservas == []
    ensures h.nombre == nombre && h.habitaciones == habitaciones
  {
    HotelEntry(NextId(datos), nombre, habitaciones, [])
  }

  /** Booking a room: a stub is appended to the first hotel with the id, only while a room is free. */
  function Book(datos: seq<HotelEntry>, id_hotel: int, id_cliente: int): (r: Outcome<HotelEntry>)
    ensures |r.datos| == |datos|
    ensures r.status == NotFound <==> FirstIndex(datos, HotelId, id_hotel).None?
    ensures r.status == Ok <==>
      FirstIndex(datos, HotelId, id_hotel).Some? && Disponibles(datos[FirstIndex(datos, HotelId, id_hotel).value]) > 0
    ensures r.status == Ok || r.status == NotFound || r.status == NoRooms
    ensures r.status != Ok ==> r.datos == datos
    ensures r.status == Ok ==>
      (var k := FirstIndex(datos, HotelId, id_hotel).value;
       && r.datos[k] == datos[k].(reservas := datos[k].reservas + [Reserva(id_cliente)])
       && |r.datos[k].reservas| <= r.datos[k].habitaciones
       && forall j :: 0 <= j < |datos| && j != k ==> r.datos[j] == datos[j])
  {
    match FirstIndex(datos, HotelId, id_hotel)
    case None => Outcome(NotFound, datos)
    case Some(k) =>
      var hotel := datos[k];
      if Disponibles(hotel) > 0 then
        Outcome(Ok, datos[k := hotel.(reservas := hotel.reservas + [Reserva(id_cliente)])])
      else
        Outcome(NoRooms, datos)
  }

  /** Cancelling: the first stub of the customer is removed from the first hotel with the id. */
  function Cancel(datos: seq<HotelEntry>, id_hotel: int, id_cliente: int): (r: Outcome<HotelEntry>)
    ensures |r.datos| == |datos|
    ensures r.status == NotFound <==> FirstIndex(datos, HotelId, id_hotel).None?
    ensures r.status == Ok <==> HoldsStub(datos, id_hotel, id_cliente)
    ensures r.status == Ok || r.status == NotFound || r.status == NoReservation
    ensures r.status != Ok ==> r.datos == datos
    ensures r.status == Ok ==>
      (var k := FirstIndex(datos, HotelId, id_hotel).value;
       var rs := datos[k].reservas;
       var m := FirstIndex(rs, StubCliente, id_cliente).value;
       && r.datos[k] == datos[k].(reservas := rs[..m] + rs[m + 1..])
       && Disponibles(r.datos[k]) == Disponibles(datos[k]) + 1
       && forall j :: 0 <= j < |datos| && j != k ==> r.datos[j] == datos[j])
  {
    match FirstIndex(datos, HotelId, id_hotel)
    case None => Outcome(NotFound, datos)
    case Some(k) =>
      var rs := datos[k].reservas;
      match FirstIndex(rs, StubCliente, id_cliente)
      case None => Outcome(NoReservation, datos)
      case Some(m) => Outcome(Ok, datos[k := datos[k].(reservas := rs[..m] + rs[m + 1..])])
  }

  /** The truthy-only partial update of one hotel record. */
  function Patch(h: HotelEntry, nombre: Option<string>, habitaciones: Option<int>): HotelEntry {
    h.(nombre := if TruthyText(nombre) then nombre.value else h.nombre,
       habitaciones := if TruthyInt(habitaciones) then habitaciones.value else h.habitaciones)
  }

  /** Editing: only the first hotel with the id changes, and only in the fields given a truthy value. */
  function Modify(datos: seq<HotelEntry>, id: int, nombre: Option<string>, habitaciones: Option<int>): (r: Outcome<HotelEntry>)
    ensures |r.datos| == |datos|
    ensures r.status == Ok <==> FirstIndex(datos, HotelId, id).Some?
    ensures r.status != Ok ==> r.status == NotFound && r.datos == datos
    ensures r.status == Ok ==>
      (var k := FirstIndex(datos, HotelId, id).value;
       && r.datos[k].id == datos[k].id
       && r.datos[k].reservas == datos[k].reservas
       && r.datos[k].nombre == (if TruthyText(nombre) then nombre.value else datos[k].nombre)
       && r.datos[k].habitaciones == (if TruthyInt(habitaciones) then habitaciones.value else datos[k].habitaciones)
       && forall j :: 0 <= j < |datos| && j != k ==> r.datos[j] == datos[j])
  {
    match FirstIndex(datos, HotelId, id)
    case None => Outcome(NotFound, datos)
    case Some(k) => Outcome(Ok, datos[k := Patch(datos[k], nombre, habitaciones)])
  }

  /** Booking and then cancelling for a customer with no earlier stub there restores the list exactly. */
  lemma BookThenCancel(datos: seq<HotelEntry>, id_hotel: int, id_cliente: int)
    requires Book(datos, id_hotel, id_cliente).status == Ok
    requires !HoldsStub(datos, id_hotel, id_cliente)
    ensures Cancel(Book(datos, id_hotel, id_cliente).datos, id_hotel, id_cliente) == Outcome(Ok, datos)
  {
    var booked := Book(datos, id_hotel, id_cliente).datos;
    var k := FirstIndex(datos, HotelId, id_hotel).value;
    var rs := datos[k].reservas;
    FirstIndexAt(booked, HotelId, id_hotel, k);
    var grown := rs + [Reserva(id_cliente)];
    assert booked[k].reservas == grown;
    assert FirstIndex(rs, StubCliente, id_cliente).None?;
    FirstIndexAppend(rs, Reserva(id_cliente), StubCliente, id_cliente);
    assert FirstIndex(grown, StubCliente, id_cliente) == Some(|rs|);
    assert grown[..|rs|] + grown[|rs| + 1..] == rs;
    assert booked[k := booked[k].(reservas := rs)] == datos;
  }

  /** When the customer already holds a stub there, the round trip removes that EARLIER stub and keeps the new one at the end. */
  lemma BookThenCancelMovesStub(datos: seq<HotelEntry>, id_hotel: int, id_cliente: int)
    requires Book(datos, id_hotel, id_cliente).status == Ok
    requires HoldsStub(datos, id_hotel, id_cliente)
    ensures
      var k := FirstIndex(datos, HotelId, id_hotel).value;
      var rs := datos[k].reservas;
      var m := FirstIndex(rs, StubCliente, id_cliente).value;
      Cancel(Book(datos, id_hotel, id_cliente).datos, id_hotel, id_cliente)
        == Outcome(Ok, datos[k := datos[k].(reservas := rs[..m] + rs[m + 1..] + [Reserva(id_cliente)])])
  {
    var booked := Book(datos, id_hotel, id_cliente).datos;
    var k := FirstIndex(datos, HotelId, id_hotel).value;
    var rs := datos[k].reservas;
    var m := FirstIndex(rs, StubCliente, id_cliente).value;
    FirstIndexAt(booked, HotelId, id_hotel, k);
    var grown := rs + [Reserva(id_cliente)];
    assert booked[k].reservas == grown;
    FirstIndexAppend(rs, Reserva(id_cliente), StubCliente, id_cliente);
    assert grown[..m] + grown[m + 1..] == rs[..m] + rs[m + 1..] + [Reserva(id_cliente)];
  }

  /** An example of the above, on a concrete list: the customer's earlier stub goes and the new one stays at the end. */
  lemma BookThenCancelReorders()
    ensures var datos := [HotelEntry(1, "Grand Hotel Budapest", 200, [Reserva(5), Reserva(6)])];
      Cancel(Book(datos, 1, 5).datos, 1, 5) ==
        Outcome(Ok, [HotelEntry(1, "Grand Hotel Budapest", 200, [Reserva(6), Reserva(5)])])
  {
    var datos := [HotelEntry(1, "Grand Hotel Budapest", 200, [Reserva(5), Reserva(6)])];
    var booked := [HotelEntry(1, "Grand Hotel Budapest", 200, [Reserva(5), Reserva(6), Reserva(5)])];
    FirstIndexAt(datos, HotelId, 1, 0);
    assert Disponibles(datos[0]) == 198;
    assert [Reserva(5), Reserva(6)] + [Reserva(5)] == booked[0].reservas;
    assert Book(datos, 1, 5).datos == booked;
    FirstIndexAt(booked, HotelId, 1, 0);
    FirstIndexAt(booked[0].reservas, StubCliente, 5, 0);
    assert booked[0].reservas[..0] + booked[0].reservas[1..] == [Reserva(6), Reserva(5)];
  }

  /** A booking never pushes any single hotel over its rooms, whatever the state of the other hotels. */
  lemma BookPreservesCapacity(datos: seq<HotelEntry>, id_hotel: int, id_cliente: int, j: nat)
    requires j < |datos| && WithinRooms(datos[j])
    ensures WithinRooms(Book(datos, id_hotel, id_cliente).datos[j])
  {
  }

  /** A cancellation never pushes any single hotel over its rooms, whatever the state of the other hotels. */
  lemma CancelPreservesCapacity(datos: seq<HotelEntry>, id_hotel: int, id_cliente: int, j: nat)
    requires j < |datos| && WithinRooms(datos[j])
    ensures WithinRooms(Cancel(datos, id_hotel, id_cliente).datos[j])
  {
  }

  /** Creating keeps the bound only when the room count given is not negative. */
  lemma CreatePreservesCapacity(datos: seq<HotelEntry>, nombre: string, habitaciones: int)
    requires WithinCapacity(datos)
    ensures WithinCapacity(datos + [NewHotel(datos, nombre, habitaciones)]) <==> habitaciones >= 0
  {
    var d := datos + [NewHotel(datos, nombre, habitaciones)];
    if habitaciones < 0 {
      assert !WithinRooms(d[|datos|]);
    }
  }

  /** After a delete every remaining hotel is within its rooms when every hotel with another id was; the deleted ones need not have been. */
  lemma DeletePreservesCapacity(datos: seq<HotelEntry>, id: int)
    requires forall j :: 0 <= j < |datos| && datos[j].id != id ==> WithinRooms(datos[j])
    ensures WithinCapacity(Without(datos, HotelId, id))
  {
    var r := Without(datos, HotelId, id);
    forall j | 0 <= j < |r| ensures WithinRooms(r[j]) {
      assert r[j] in r;
      var i :| 0 <= i < |datos| && datos[i] == r[j];
    }
  }

  /** Any edit that sets the room count (non-zero) below the reservations held puts that hotel over capacity. */
  lemma ModifyBelowReservationsBreaksCapacity(datos: seq<HotelEntry>, id: int, nombre: Option<string>, n: int)
    requires FirstIndex(datos, HotelId, id).Some?
    requires n != 0 && n < |datos[FirstIndex(datos, HotelId, id).value].reservas|
    ensures Modify(datos, id, nombre, Some(n)).status == Ok
    ensures !WithinRooms(Modify(datos, id, nombre, Some(n)).datos[FirstIndex(datos, HotelId, id).value])
    ensures !WithinCapacity(Modify(datos, id, nombre, Some(n)).datos)
  {
    var k := FirstIndex(datos, HotelId, id).value;
    assert !WithinRooms(Modify(datos, id, nombre, Some(n)).datos[k]);
  }

  /** An example of the above: a list within capacity that one edit takes out of it. */
  lemma ModifyCanBreakCapacity()
    ensures var datos := [HotelEntry(1, "Grand Hotel Budapest", 2, [Reserva(1), Reserva(2)])];
      WithinCapacity(datos) && !WithinCapacity(Modify(datos, 1, None, Some(1)).datos)
  {
  }

  /** An edit whose arguments are all falsy (absent, "" or 0) changes nothing, though it reports success. */
  lemma FalsyModifyIsNoOp(datos: seq<HotelEntry>, id: int, nombre: Option<string>, habitaciones: Option<int>)
    requires !TruthyText(nombre) && !TruthyInt(habitaciones)
    ensures Modify(datos, id, nombre, habitaciones).datos == datos
  {
  }

  class Hotel {
    /** The hotel list as the JSON file holds it. */
    var datos: seq<HotelEntry>

    /** `guardado` is what the file holds, or None when it does not exist yet and is started as `[]`. */
    constructor (guardado: Option<seq<HotelEntry>>)
      ensures datos == if guardado.Some? then guardado.value else []
    {
      datos := if guardado.Some? then guardado.value else [];
    }

    /** `crear_hotel`: append a hotel whose id is the old length plus one, with no reservations. */
    method CrearHotel(nombre: string, habitaciones: int)
      modifies this
      ensures datos == old(datos) + [NewHotel(old(datos), nombre, habitaciones)]
    {
      var nuevo := HotelEntry(|datos| + 1, nombre, habitaciones, []);
      datos := datos + [nuevo];
    }

    /** `eliminar_hotel`: keep only the hotels whose id differs, silently when none matches. */
    method EliminarHotel(id_h: int)
      modifies this
      ensures datos == Without(old(datos), HotelId, id_h)
    {
      datos := Without(datos, HotelId, id_h);
    }

    /** `mostrar_hotel`: the first hotel with the id, or the id reported missing. */
    method MostrarHotel(id_mh: int) returns (r: Lookup<HotelEntry>)
      ensures r == FindById(datos, HotelId, id_mh)
    {
      var i := 0;
      while i < |datos|
        invariant 0 <= i <= |datos|
        invariant forall j :: 0 <= j < i ==> datos[j].id != id_mh
      {
        if datos[i].id == id_mh {
          FirstIndexAt(datos, HotelId, id_mh, i);
          return Found(datos[i]);
        }
        i := i + 1;
      }
      return Missing(id_mh);
    }

    /** `modificar_hotel`: truthy-only update of the first hotel with the id. */
    method ModificarHotel(id_moh: int, nombre: Option<string>, habitaciones: Option<int>) returns (status: Status)
      modifies this
      ensures Outcome(status, datos) == Modify(old(datos), id_moh, nombre, habitaciones)
    {
      var i := 0;
      while i < |datos|
        invariant 0 <= i <= |datos| && datos == old(datos)
        invariant forall j :: 0 <= j < i ==> datos[j].id != id_moh
      {
        if datos[i].id == id_moh {
          FirstIndexAt(datos, HotelId, id_moh, i);
          var hotel := datos[i];
          if TruthyText(nombre) {
            hotel := hotel.(nombre := nombre.value);
          }
          if TruthyInt(habitaciones) {
            hotel := hotel.(habitaciones := habitaciones.value);
          }
          datos := datos[i := hotel];
          return Ok;
        }
        i := i + 1;
      }
      return NotFound;
    }

    /** `reservar_habitacion`: book in the first hotel with the id while a room is free. */
    method ReservarHabitacion(id_hotel: int, id_cliente: int) returns (status: Status)
      modifies this
      ensures Outcome(status, datos) == Book(old(datos), id_hotel, id_cliente)
    {
      var i := 0;
      while i < |datos|
        invariant 0 <= i <= |datos| && datos == old(datos)
        invariant forall j :: 0 <= j < i ==> datos[j].id != id_hotel
      {
        if datos[i].id == id_hotel {
          FirstIndexAt(datos, HotelId, id_hotel, i);
          var hotel := datos[i];
          var hab_disp := hotel.habitaciones - |hotel.reservas|;
          if hab_disp > 0 {
            datos := datos[i := hotel.(reservas := hotel.reservas + [Reserva(id_cliente)])];
            return Ok;
          }
          return NoRooms;
        }
        i := i + 1;
      }
      return NotFound;
    }

    /** `cancelar_reserva`: drop the customer's first stub in the first hotel with the id. */
    method CancelarReserva(id_hotel: int, id_cliente: int) returns (status: Status)
      modifies this
      ensures Outcome(status, datos) == Cancel(old(datos), id_hotel, id_cliente)
    {
      var i := 0;
      while i < |datos|
        invariant 0 <= i <= |datos| && datos == old(datos)
        invariant forall j :: 0 <= j < i ==> datos[j].id != id_hotel
      {
        if datos[i].id == id_hotel {
          FirstIndexAt(datos, HotelId, id_hotel, i);
          var reservas := datos[i].reservas;
          var m := 0;
          while m < |reservas|
            invariant 0 <= m <= |reservas| && datos == old(datos)
            invariant forall j :: 0 <= j < m ==> reservas[j].id_cliente != id_cliente
          {
            if reservas[m].id_cliente == id_cliente {
              FirstIndexAt(reservas, StubCliente, id_cliente, m);
              datos := datos[i := datos[i].(reservas := reservas[..m] + reservas[m + 1..])];
              return Ok;
            }
            m := m + 1;
          }
          return NoReservation;
        }
        i := i + 1;
      }
      return NotFound;
    }
  }

  /** Two creations, deleting hotel 1 and one more creation leave two hotels that both carry id 2. */
  method DuplicateIdAfterDelete() returns (ids: seq<int>)
    ensures ids == [2, 2]
  {
    var hoteles := new Hotel(None);
    hoteles.CrearHotel("Grand Hotel Budapest", 200);
    hoteles.CrearHotel("Hotel California", 250);
    hoteles.EliminarHotel(1);
    assert hoteles.datos == [HotelEntry(2, "Hotel California", 250, [])];
    hoteles.CrearHotel("Hotel Transilvania", 100);
    ids := [hoteles.datos[0].id, hoteles.datos[1].id];
  }
}
