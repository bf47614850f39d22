/** Values exchanged by the sales-order screen: the rows the backend lists,
    the form draft, the outcomes of the calls it makes, and the events it
    produces (requests sent and notifications shown). */
module OrderTypes {

  datatype Option<T> = None | Some(value: T)

  /** A sales order as the backend lists it. Wire keys: `id_orden_venta`,
      `fecha_inicio`, `fecha_final`, `estado`, `id_cliente`. The screen never
      parses the dates or the customer id, so they stay opaque strings. */
  datatype Order = Order(id: int, startDate: string, endDate: string, status: string, customer: string)

  /** The form data (`formData`). `ide` is the update target (`null` in the
      source is `None`); `rowId` is the `id_orden_venta` key that spreading a
      row into the draft brings along, absent from the default draft. */
  datatype Draft = Draft(startDate: string, endDate: string, status: string, customer: string,
                         ide: Option<int>, rowId: Option<int>)

  /** The four form inputs, each bound to one draft field. */
  datatype Field = StartDate | EndDate | Status | Customer

  /** The text a form input shows for field `f` of the draft. */
  function Value(d: Draft, f: Field): string
  {
    match f
    case StartDate => d.startDate
    case EndDate => d.endDate
    case Status => d.status
    case Customer => d.customer
  }

  /** The column of a listed row that fills field `f` when the row is edited. */
  function Column(o: Order, f: Field): string
  {
    match f
    case StartDate => o.startDate
    case EndDate => o.endDate
    case Status => o.status
    case Customer => o.customer
  }

  /** Outcome of a POST, PUT or DELETE; its response body is never read. */
  datatype Outcome = Ok | Failed

  /** Outcome of the GET that lists the orders. */
  datatype Listing = Rows(rows: seq<Order>) | Unavailable

  /** The four calls to the backend. Bodies are the whole draft, as sent. */
  datatype Request = Get | Post(body: Draft) | Put(body: Draft) | Delete(id: int)

  /** Toasts shown to the user. */
  datatype Notice =
    | Updated            // update succeeded
    | UpdateFailed       // the PUT failed
    | MissingId          // update attempted with a null `ide`
    | Registered         // create succeeded
    | Deleted(id: int)   // delete succeeded, naming the id
    | DeleteFailed       // the DELETE failed

  /** What the screen does that the outside world sees: a request sent, a
      toast shown, or the blocking yes/no prompt naming the order to delete. */
  datatype Event = Send(request: Request) | Show(notice: Notice) | Ask(id: int)
}
