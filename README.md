# Hotel reservations: a verified model of the three record managers

This project models the record bookkeeping of `reservaciones_hotel.py`. The file has three
managers: `Hotel`, `Cliente` and `Reservacion`. Each manager keeps one flat list of records in a
JSON file. Every operation loads that list, changes it in memory and saves it back.

In the model each manager is a Dafny class. The list it persists is the field `datos`, a `seq` of
records. The records are datatypes that keep the source's JSON field names:

- `HotelEntry(id, nombre, habitaciones, reservas)`, where each stub is `Reserva(id_cliente)`;
- `ClienteEntry(id, nombre, edad)`;
- `ReservacionEntry(id, id_cliente, id_hotel)`.

Files:

- `records.dfy` (module `Records`) holds what the three managers share:
  - the status an operation reports (`Ok`, `NotFound`, `NoRooms`, `NoReservation`);
  - Python truthiness of optional arguments;
  - the first-match scan (`FirstIndex`, `FindById`);
  - the delete filter (`Without`) with its lemmas.
- `hotels.dfy` (module `Hotels`) holds class `Hotel`. It has the booking rule: book only while
  `habitaciones - |reservas| > 0`. A cancel removes the customer's first stub.
- `clients.dfy` (module `Clients`) holds class `Cliente`.
- `reservations.dfy` (module `Reservations`) holds class `Reservacion`.

Each mutating operation that decides something (book, cancel, edit) has a specification function
on values (`Book`, `Cancel`, `Modify`, `Edit`). That function's contract states what the
operation promises. The class method scans the list with a loop, as the source does, and is proved
to leave exactly the list and status that the function describes. The lemmas relate several
operations: round trips, idempotence, and preservation of the capacity bound.

Behaviour the model keeps, as the code has it:

- Ids are "length + 1" and are not unique. After two creations and one deletion, the next creation
  repeats an id (`Hotels.DuplicateIdAfterDelete`). So lookups, edits, bookings and cancellations
  act on the FIRST record with the id, and deletes remove EVERY record with it.
- Reservations ≤ rooms is not an invariant of the list. `modificar_hotel` can lower
  `habitaciones` below the reservations held (`Hotels.ModifyBelowReservationsBreaksCapacity`).
  `crear_hotel` accepts a negative room count (`Hotels.CreatePreservesCapacity`). Booking and
  cancelling keep each hotel's bound where it held; deleting keeps it for the hotels that remain.
  One might expect the bound to hold at all times; the code does not keep it, and the model
  follows the code.
- Partial updates overwrite a field only when the argument is truthy. A name must be present and
  not `""`; a room count or an age must be present and not `0`. When the id exists, an edit with
  only falsy arguments changes nothing and still reports success; when it does not, the edit
  reports not found.
- Deleting a missing id changes nothing and still reports success. The model returns no status
  for deletes.

## Model

| member | source | states |
|---|---|---|
| `Records.FirstIndex` | reservaciones_hotel.py:64-67 | the first index whose record carries the id, or none when no record does |
| `Records.FindById` | reservaciones_hotel.py:61-67 | a lookup finds a record exactly when some record has the id, and then it is the first such record; otherwise it reports the requested id missing |
| `Records.Without` | reservaciones_hotel.py:57 | the delete filter keeps exactly the records whose id differs, with their multiplicities, and never grows the list |
| `Records.WithoutConcat` | reservaciones_hotel.py:57 | the filter distributes over concatenation, so it keeps the original order |
| `Records.WithoutMissing` | reservaciones_hotel.py:54-58 | deleting an id no record carries leaves the list unchanged |
| `Records.WithoutIdempotent` | reservaciones_hotel.py:54-58 | deleting the same id twice is the same as deleting it once |
| `Records.WithoutThenFind` | reservaciones_hotel.py:54-67 | after a delete, a lookup of that id reports it missing, even when the id was duplicated |
| `Hotels.NewHotel` | reservaciones_hotel.py:44-49 | a new hotel has id = old length + 1, the given name and room count, and no reservations |
| `Hotels.Book` | reservaciones_hotel.py:83-101 | booking succeeds exactly when a hotel with the id exists and its first match has a free room; it then appends the stub to that hotel only, leaving reservations ≤ rooms; it reports not found or no rooms otherwise and changes nothing |
| `Hotels.Cancel` | reservaciones_hotel.py:103-117 | cancelling succeeds exactly when the first hotel with the id holds a stub of the customer; it removes only the first such stub, keeps the order of the others, frees one room and touches no other hotel; otherwise nothing changes |
| `Hotels.Modify` | reservaciones_hotel.py:69-81 | only the first hotel with the id changes; the name and room count are overwritten only by truthy arguments; id and reservations are kept; a missing id reports not found and changes nothing |
| `Hotels.BookThenCancel` | reservaciones_hotel.py:89-111 | booking and then cancelling for a customer without an earlier stub in that hotel restores the whole list |
| `Hotels.BookThenCancelMovesStub` | reservaciones_hotel.py:89-111 | when the customer already holds a stub in that hotel, booking then cancelling succeeds and leaves that hotel's stubs with the customer's earlier stub removed and the new one at the end; nothing else changes |
| `Hotels.BookThenCancelReorders` | reservaciones_hotel.py:109-111 | on an example list, booking then cancelling for a customer who already had a stub moves that customer's stub to the end |
| `Hotels.BookPreservesCapacity` | reservaciones_hotel.py:89-93 | a booking keeps reservations ≤ rooms in each single hotel where it held before, whatever the other hotels hold |
| `Hotels.CancelPreservesCapacity` | reservaciones_hotel.py:108-111 | a cancellation keeps reservations ≤ rooms in each single hotel where it held before, whatever the other hotels hold |
| `Hotels.CreatePreservesCapacity` | reservaciones_hotel.py:41-51 | creating a hotel keeps the capacity bound exactly when the room count given is not negative |
| `Hotels.DeletePreservesCapacity` | reservaciones_hotel.py:54-58 | after a delete every remaining hotel is within its rooms when every hotel with another id was; the deleted hotels need not have been |
| `Hotels.ModifyBelowReservationsBreaksCapacity` | reservaciones_hotel.py:69-81 | any edit of an existing hotel that sets a non-zero room count below its reservations succeeds and puts that hotel, and so the list, over capacity |
| `Hotels.ModifyCanBreakCapacity` | reservaciones_hotel.py:76-77 | on an example list, one edit takes a list within capacity out of it |
| `Hotels.FalsyModifyIsNoOp` | reservaciones_hotel.py:74-77 | an edit whose name is absent or "" and whose room count is absent or 0 leaves the list unchanged |
| `Hotels.Hotel.constructor` | reservaciones_hotel.py:24-29 | the manager starts from the stored list, or from an empty list when nothing is stored yet |
| `Hotels.Hotel.CrearHotel` | reservaciones_hotel.py:41-51 | the list grows by exactly the new hotel at the end; earlier records are unchanged |
| `Hotels.Hotel.EliminarHotel` | reservaciones_hotel.py:54-58 | the new list is the delete filter of the old one |
| `Hotels.Hotel.MostrarHotel` | reservaciones_hotel.py:61-67 | the scan returns the first hotel with the id or the missing id, without changing anything |
| `Hotels.Hotel.ModificarHotel` | reservaciones_hotel.py:69-81 | the scan-and-assign leaves exactly the list and status of `Modify` |
| `Hotels.Hotel.ReservarHabitacion` | reservaciones_hotel.py:83-101 | the scan, capacity check and append leave exactly the list and status of `Book` |
| `Hotels.Hotel.CancelarReserva` | reservaciones_hotel.py:103-117 | the two nested scans and the removal leave exactly the list and status of `Cancel` |
| `Hotels.DuplicateIdAfterDelete` | reservaciones_hotel.py:45 | two creations, deleting id 1 and another creation leave two hotels that both have id 2 |
| `Clients.NewCliente` | reservaciones_hotel.py:141-145 | a new customer has id = old length + 1 and the given name and age |
| `Clients.Edit` | reservaciones_hotel.py:150-162 | only the first customer with the id changes; name and age are overwritten only by truthy arguments; the id is kept; a missing id reports not found and changes nothing |
| `Clients.FalsyEditIsNoOp` | reservaciones_hotel.py:155-158 | an edit whose name is absent or "" and whose age is absent or 0 leaves the list unchanged |
| `Clients.EditIdempotent` | reservaciones_hotel.py:150-162 | repeating the same edit changes nothing more |
| `Clients.Cliente.constructor` | reservaciones_hotel.py:122-126 | the manager starts from the stored list, or from an empty list when nothing is stored yet |
| `Clients.Cliente.Agregar` | reservaciones_hotel.py:138-148 | the list grows by exactly the new customer at the end |
| `Clients.Cliente.Editar` | reservaciones_hotel.py:150-162 | the scan-and-assign leaves exactly the list and status of `Edit` |
| `Clients.Cliente.Eliminar` | reservaciones_hotel.py:164-169 | the new list is the delete filter of the old one |
| `Clients.Cliente.MostrarCliente` | reservaciones_hotel.py:171-177 | the scan returns the first customer with the id or the missing id, without changing anything |
| `Reservations.NewReservacion` | reservaciones_hotel.py:201-205 | a new reservation has id = old length + 1 and the given customer and hotel ids |
| `Reservations.AddThenDelete` | reservaciones_hotel.py:198-217 | adding and then deleting by the new id restores the list when no record already had that id |
| `Reservations.Reservacion.constructor` | reservaciones_hotel.py:182-186 | the manager starts from the stored list, or from an empty list when nothing is stored yet |
| `Reservations.Reservacion.Agregar` | reservaciones_hotel.py:198-208 | the list grows by exactly the new reservation at the end |
| `Reservations.Reservacion.Eliminar` | reservaciones_hotel.py:210-217 | the new list is the delete filter of the old one |

## Left out

- Reading and writing the JSON files (`cargar_datos`, `guardar_datos`, the file bootstrap) is file I/O. It is replaced by the field `datos`. The constructor takes what the file holds, or nothing when the file does not exist. Storage errors are not modelled.
- The printed status messages are modelled only as the returned `Status`. The operations that always succeed (create, add, delete) return nothing. The message of `mostrar_cliente` says "hotel" for a missing customer; the model keeps only the missing id.
- JSON values of other types are not modelled. Ids, room counts and ages are integers, names are strings, and a stub has only `id_cliente`. Under that assumption, `reservas.remove(reserva)` removes the first stub equal to the matched one, which is the matched stub itself.
- Nothing links the hotel stubs to the standalone reservation list. The source never links them, so the model keeps them independent.
- Concurrent or interleaved load-and-save by several processes is not modelled. Each operation is one atomic step on `datos`.
- Python's in-place mutation of the loaded dictionaries is modelled as replacing the record at the matched index. The loaded list is private to each call, so no aliasing is lost.
