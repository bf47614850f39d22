# Sales-order screen (GestionOrdenesVenta) in Dafny

This project models the logic of the React component `GestionOrdenesVenta`,
the sales-order management screen of the inventory client. The component
holds three pieces of state:

- the form draft (`formData`): start date, end date, status, customer id and
  the update target `ide`, plus `id_orden_venta` once a row has been spread
  into it;
- the mode flag (`editar`): Create or Editing;
- the order list (`ordenesList`).

Its handlers move that state between the two modes and talk to the backend.
The model treats every backend or dialog outcome as an input: `Outcome`
(`Ok`/`Failed`) for POST, PUT and DELETE, `Listing` (`Rows(rows)` or
`Unavailable`) for the GET of the list, and a `confirmed` flag for the delete
prompt. What the outside world sees is an output log of `Event`s:
`Send(request)`, `Show(notice)` (a toast) and `Ask(id)` (the delete prompt).

Files:

- `order_types.dfy` (module `OrderTypes`): the row, the draft, the four form
  fields, the inputs and the events.
- `order_machine.dfy` (module `OrderMachine`): the screen as a state machine
  over values. There is one step function per handler, the mode-dependent
  footer, and runs of user actions. Lemmas relate whole runs to the
  invariant, to the PUT target and to the missing-id error.
- `sales_order_screen.dfy` (module `SalesOrderScreen`): the component as a
  class. It has fields `draft`, `editing`, `list` and `log`, and one method
  per handler, which updates the fields in place. Each method is proved to
  leave exactly the state and log that the matching step function gives.
  A ghost field `chosen` records the row last chosen for editing. The class
  invariant `Valid()` says that in Create mode there is no target and in
  Editing mode the target is that row's id.

Details the model takes from the component:

- The status select offers the strings `"pendiente"`, `"completada"` and
  `"cancelada"`; the draft starts at `"pendiente"`.
- `add` posts the whole `formData`, including `ide` (null in Create mode).
- `update` puts the whole `formData`: the fields, `ide`, and the
  `id_orden_venta` that spreading the edited row brought in.
- A failed `add` is only logged to the console: no toast is shown, unlike a
  failed `update` or `deleteOrden`.

## Model

| member | source | states |
|---|---|---|
| `OrderMachine.RefetchStep` | clientes/src/components/GestionOrdenesVenta.js:17-21 | one GET; the list becomes the fetched rows on success and is unchanged on failure; draft and mode untouched |
| `OrderMachine.ClearStep` | clientes/src/components/GestionOrdenesVenta.js:76-79 | from any state: the draft becomes exactly the defaults (`""`, `""`, `"pendiente"`, `""`, no `ide`, no row id), mode becomes Create, list kept, nothing sent; the invariant holds after |
| `OrderMachine.EditStep` | clientes/src/components/GestionOrdenesVenta.js:81-84 | mode becomes Editing; every form field equals the row's column; `ide` and the row id both equal the row's id; list kept, nothing sent |
| `OrderMachine.Assign` | clientes/src/components/GestionOrdenesVenta.js:94-130 | the chosen field takes the new value; every other field, `ide` and the row id keep theirs |
| `OrderMachine.ChangeStep` | clientes/src/components/GestionOrdenesVenta.js:94-130 | an input's change replaces exactly that field of the draft; mode, `ide`, row id and list unchanged; nothing sent; preserves the invariant |
| `OrderMachine.UpdateStep` | clientes/src/components/GestionOrdenesVenta.js:27-41 | null `ide`: zero requests, state unchanged, missing-id error. Otherwise exactly one PUT of the current draft comes first. On success: one GET, draft reset, Create mode, success toast. On failure: state unchanged, error toast. Preserves the invariant |
| `OrderMachine.AddStep` | clientes/src/components/GestionOrdenesVenta.js:43-51 | exactly one POST of the current draft comes first. On success: one GET, draft reset, Create mode, success toast. On failure: state unchanged and no toast. Preserves the invariant |
| `OrderMachine.DeleteStep` | clientes/src/components/GestionOrdenesVenta.js:53-74 | always asks first, naming the id. Declined: zero requests, state unchanged. Confirmed: one DELETE of that id. Then on success one GET and a toast naming the id; on failure state unchanged and an error toast. The draft and mode are never touched |
| `OrderMachine.Footer` | clientes/src/components/GestionOrdenesVenta.js:134-141 | exactly one submit button: update and cancel (two buttons) in Editing mode, register alone in Create mode |
| `OrderMachine.Offered` | clientes/src/components/GestionOrdenesVenta.js:134-171 | the inputs are always there; "Registrar" is offered exactly in Create mode, "Actualizar" and "Cancelar" exactly in Editing mode; a row's "Editar" and "Eliminar" exactly for rows in the list |
| `OrderMachine.Apply` | clientes/src/components/GestionOrdenesVenta.js:134-171 | every handler preserves the invariant; every PUT it sends targets the id of the row in the draft; an offered action never shows the missing-id error |
| `OrderMachine.RunKeepsInv` | clientes/src/components/GestionOrdenesVenta.js:7-14 | after any sequence of actions, Create mode has no `ide` and Editing mode has `ide` equal to the row id spread into the draft |
| `OrderMachine.RunPutsTargeted` | clientes/src/components/GestionOrdenesVenta.js:28-30 | in any run from a state satisfying the invariant, every PUT body has a non-null `ide` equal to its `id_orden_venta` |
| `OrderMachine.PlayableNeverMissesId` | clientes/src/components/GestionOrdenesVenta.js:38-40 | through the buttons the screen offers, the missing-id error is never shown: update is offered only in Editing mode, where `ide` is set |
| `OrderMachine.LocalRunSendsNothing` | clientes/src/components/GestionOrdenesVenta.js:53-126 | a run of only field changes, cancels, row edits and declined deletes sends no request and leaves the list unchanged |
| `OrderMachine.Session` | clientes/src/components/GestionOrdenesVenta.js:23-25 | the mount-time fetch runs first: the session's first event is a GET, and before any action the form is the default one in Create mode with the list that GET returned (empty if it failed) |
| `OrderMachine.SessionIsSound` | clientes/src/components/GestionOrdenesVenta.js:23-25 | from mount (one fetch) through offered actions: the invariant holds at the end, every PUT is targeted, and the missing-id error never shows |
| `OrderMachine.EditThenCancel` | clientes/src/components/GestionOrdenesVenta.js:76-84 | "Editar" then "Cancelar" restores the default draft in Create mode, keeps the list and sends nothing |
| `OrderMachine.EditStatusAndSave` | clientes/src/components/GestionOrdenesVenta.js:27-84 | list order 1, edit it, set status `"completada"`, save: one PUT with that status and target 1, one GET, a success toast, defaults in Create mode |
| `SalesOrderScreen.GestionOrdenesVenta.constructor` | clientes/src/components/GestionOrdenesVenta.js:5-25 | the default state then the mount-time fetch; the class invariant holds |
| `SalesOrderScreen.GestionOrdenesVenta.Fetch` | clientes/src/components/GestionOrdenesVenta.js:17-21 | new state and log are those of `RefetchStep` |
| `SalesOrderScreen.GestionOrdenesVenta.Clear` | clientes/src/components/GestionOrdenesVenta.js:76-79 | new state is that of `ClearStep`; no row chosen; log unchanged |
| `SalesOrderScreen.GestionOrdenesVenta.Edit` | clientes/src/components/GestionOrdenesVenta.js:81-84 | new state is that of `EditStep`; the chosen row is `val`, so `ide` is its id |
| `SalesOrderScreen.GestionOrdenesVenta.SetStartDate` | clientes/src/components/GestionOrdenesVenta.js:96 | new state is that of `ChangeStep` on the start date; chosen row and log unchanged |
| `SalesOrderScreen.GestionOrdenesVenta.SetEndDate` | clientes/src/components/GestionOrdenesVenta.js:105 | new state is that of `ChangeStep` on the end date; chosen row and log unchanged |
| `SalesOrderScreen.GestionOrdenesVenta.SetStatus` | clientes/src/components/GestionOrdenesVenta.js:113 | new state is that of `ChangeStep` on the status; chosen row and log unchanged |
| `SalesOrderScreen.GestionOrdenesVenta.SetCustomer` | clientes/src/components/GestionOrdenesVenta.js:126 | new state is that of `ChangeStep` on the customer id; chosen row and log unchanged |
| `SalesOrderScreen.GestionOrdenesVenta.Update` | clientes/src/components/GestionOrdenesVenta.js:27-41 | new state and appended events are those of `UpdateStep`; the class invariant is kept |
| `SalesOrderScreen.GestionOrdenesVenta.Add` | clientes/src/components/GestionOrdenesVenta.js:43-51 | new state and appended events are those of `AddStep`; the class invariant is kept |
| `SalesOrderScreen.GestionOrdenesVenta.DeleteOrder` | clientes/src/components/GestionOrdenesVenta.js:53-74 | new state and appended events are those of `DeleteStep`; chosen row unchanged |

## Left out

- HTTP transport and URLs: each call is a request event, and its outcome is an input.
- Toast and dialog texts, titles and icons: a toast is a tag, and the prompt is `Ask(id)` with a yes/no input.
- `console.error` diagnostics: failures that are only logged leave no event.
- Asynchrony: every handler, and the refetch it starts, runs to completion in program order. In the component the refetch is not awaited, so overlapping refetches may finish in either order and the last one to finish wins.
- Rendering: the inputs, table markup and CSS are left out. Only the footer's mode-dependent buttons (`Footer`) and the per-row edit and delete actions (`Offered`) are kept.
- Extra backend columns: spreading a row into the draft copies every column the backend returns. The model carries only the five it knows.
- Values: dates and `id_cliente` are opaque strings, as the component never parses or checks them. The backend may send `id_cliente` as a number and the input sends text; the model does not tell them apart.
- Double submission: nothing stops a user from pressing a button twice, and the model treats each press as a separate action.
