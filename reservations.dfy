/**
 * The standalone reservation manager: a list of `{id, id_cliente, id_hotel}`
 * records that can only be added and deleted. It is a ledger of its own:
 * adding here neither checks that the customer or the hotel exist nor
 * touches the stubs the hotel manager keeps.
 */
module Reservations {
  import opened Records

  /** A reservation record: `{"id", "id_cliente", "id_hotel"}`. */
  datatype ReservacionEntry = ReservacionEntry(id: int, id_cliente: int, id_hotel: int)

  function ReservacionId(r: ReservacionEntry): int { r.id }

  /** The record `agregar` appends. */
  function NewReservacion(datos: seq<ReservacionEntry>, id_cliente: int, id_hotel: int): (r: ReservacionEntry)
    ensures r.id == |datos| + 1 && r.id_cliente == id_cliente && r.id_hotel == id_hotel
  {
    ReservacionEntry(NextId(datos), id_cliente, id_hotel)
  }

  /** Adding and then deleting by the new id restores the list when that id was not already in use. */
  lemma AddThenDelete(datos: seq<ReservacionEntry>, id_cliente: int, id_hotel: int)
    requires forall j :: 0 <= j < |datos| ==> datos[j].id != |datos| + 1
    ensures Without(datos + [NewReservacion(datos, id_cliente, id_hotel)], ReservacionId, |datos| + 1) == datos
  {
    var nueva := NewReservacion(datos, id_cliente, id_hotel);
    WithoutConcat(datos, [nueva], ReservacionId, |datos| + 1);
    WithoutMissing(datos, ReservacionId, |datos| + 1);
    assert Without([nueva], ReservacionId, |datos| + 1) == [];
  }

  class Reservacion {
    /** The reservation list as the JSON file holds it. */
    var datos: seq<ReservacionEntry>

    /** `guardado` is what the file holds, or None when it does not exist yet and is started as `[]`. */
    constructor (guardado: Option<seq<ReservacionEntry>>)
      ensures datos == if guardado.Some? then guardado.value else []
    {
      datos := if guardado.Some? then guardado.value else [];
    }

    /** `agregar`: append a reservation whose id is the old length plus one. */
    method Agregar(id_cliente: int, id_hotel: int)
      modifies this
      ensures datos == old(datos) + [NewReservacion(old(datos), id_cliente, id_hotel)]
    {
      var nueva := ReservacionEntry(|datos| + 1, id_cliente, id_hotel);
      datos := datos + [nueva];
    }

    /** `eliminar`: keep only the reservations whose id differs, silently when none matches. */
    method Eliminar(id_r: int)
      modifies this
      ensures datos == Without(old(datos), ReservacionId, id_r)
    {
      datos := Without(datos, ReservacionId, id_r);
    }
  }
}
