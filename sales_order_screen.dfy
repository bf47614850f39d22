/** The sales-order screen component: its three pieces of state updated in
    place by its handlers, with an output log of the requests it sends and
    the toasts and prompts it shows. Every handler is proved to do exactly
    what the matching step function of OrderMachine describes. */
module SalesOrderScreen {
  import opened OrderTypes
  import opened OrderMachine

  class GestionOrdenesVenta {
    var draft: Draft         // formData
    var editing: bool        // editar
    var list: seq<Order>     // ordenesList
    var log: seq<Event>      // requests sent and toasts and prompts shown, oldest first

    /** The row last chosen for editing, while the screen is in Editing mode. */
    ghost var chosen: Option<Order>

    /** The state as the step functions see it. */
    function Current(): State
      reads this
    {
      State(draft, editing, list)
    }

    /** The mode flag is tied to the update target: none in Create mode, the
        id of the row last chosen for editing in Editing mode. */
    ghost predicate Valid()
      reads this
    {
      Inv(Current()) &&
      (editing <==> chosen.Some?) &&
      (editing ==> draft.ide == Some(chosen.value.id))
    }

    /** Mounting: the default state, then the fetch of the `useEffect`. */
    constructor (f: Listing)
      ensures Valid() && chosen == None
      ensures Current() == RefetchStep(Initial, f).next
      ensures log == RefetchStep(Initial, f).out
    {
      draft, editing, list, log := Blank, false, [], [];
      chosen := None;
      new;
      Fetch(f);
    }

    /** `obtenerOrdenes` */
    method Fetch(f: Listing)
      requires Valid()
      modifies this
      ensures Valid() && chosen == old(chosen)
      ensures Current() == RefetchStep(old(Current()), f).next
      ensures log == old(log) + RefetchStep(old(Current()), f).out
    {
      log := log + [Send(Get)];
      match f {
        case Rows(rows) => list := rows;
        case Unavailable =>
      }
    }

    /** `limpiarCampos` */
    method Clear()
      requires Valid()
      modifies this
      ensures Valid() && chosen == None
      ensures Current() == ClearStep(old(Current())).next
      ensures log == old(log)
    {
      draft := Blank;
      editing := false;
      chosen := None;
    }

    /** `editarOrden(val)` */
    method Edit(val: Order)
      requires Valid()
      modifies this
      ensures Valid() && chosen == Some(val)
      ensures Current() == EditStep(old(Current()), val).next
      ensures log == old(log)
    {
      editing := true;
      draft := Draft(val.startDate, val.endDate, val.status, val.customer, Some(val.id), Some(val.id));
      chosen := Some(val);
    }

    /** The "Fecha Inicio" input's `onChange`. */
    method SetStartDate(v: string)
      requires Valid()
      modifies this
      ensures Valid() && chosen == old(chosen)
      ensures Current() == ChangeStep(old(Current()), StartDate, v).next
      ensures log == old(log)
    {
      draft := draft.(startDate := v);
    }

    /** The "Fecha Final" input's `onChange`. */
    method SetEndDate(v: string)
      requires Valid()
      modifies this
      ensures Valid() && chosen == old(chosen)
      ensures Current() == ChangeStep(old(Current()), EndDate, v).next
      ensures log == old(log)
    {
      draft := draft.(endDate := v);
    }

    /** The "Estado" select's `onChange`. */
    method SetStatus(v: string)
      requires Valid()
      modifies this
      ensures Valid() && chosen == old(chosen)
      ensures Current() == ChangeStep(old(Current()), Status, v).next
      ensures log == old(log)
    {
      draft := draft.(status := v);
    }

    /** The "ID Cliente" input's `onChange`. */
    method SetCustomer(v: string)
      requires Valid()
      modifies this
      ensures Valid() && chosen == old(chosen)
      ensures Current() == ChangeStep(old(Current()), Customer, v).next
      ensures log == old(log)
    {
      draft := draft.(customer := v);
    }

    /** `update`: the PUT's outcome and the refetch's outcome are inputs. */
    method Update(put: Outcome, f: Listing)
      requires Valid()
      modifies this
      ensures Valid()
      ensures Current() == UpdateStep(old(Current()), put, f).next
      ensures log == old(log) + UpdateStep(old(Current()), put, f).out
    {
      if draft.ide != None {
        log := log + [Send(Put(draft))];
        match put {
          case Ok =>
            Fetch(f);
            Clear();
            log := log + [Show(Updated)];
          case Failed =>
            log := log + [Show(UpdateFailed)];
        }
      } else {
        log := log + [Show(MissingId)];
      }
    }

    /** `add`: the POST's outcome and the refetch's outcome are inputs. */
    method Add(post: Outcome, f: Listing)
      requires Valid()
      modifies this
      ensures Valid()
      ensures Current() == AddStep(old(Current()), post, f).next
      ensures log == old(log) + AddStep(old(Current()), post, f).out
    {
      log := log + [Send(Post(draft))];
      match post {
        case Ok =>
          Fetch(f);
          Clear();
          log := log + [Show(Registered)];
        case Failed =>
      }
    }

    /** `deleteOrden(orden)`: the user's answer to the prompt, the DELETE's
        outcome and the refetch's outcome are inputs. */
    method DeleteOrder(orden: Order, confirmed: bool, del: Outcome, f: Listing)
      requires Valid()
      modifies this
      ensures Valid() && chosen == old(chosen)
      ensures Current() == DeleteStep(old(Current()), orden, confirmed, del, f).next
      ensures log == old(log) + DeleteStep(old(Current()), orden, confirmed, del, f).out
    {
      log := log + [Ask(orden.id)];
      if confirmed {
        log := log + [Send(Delete(orden.id))];
        match del {
          case Ok =>
            Fetch(f);
            log := log + [Show(Deleted(orden.id))];
          case Failed =>
            log := log + [Show(DeleteFailed)];
        }
      }
    }
  }
}
