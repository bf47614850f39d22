/** The sales-order screen as a state machine over values: one step function
    per handler, the footer's mode-dependent buttons, and runs of user
    actions. Network and dialog outcomes are inputs; requests and toasts are
    the step's output events. The class in SalesOrderScreen is proved
    against these functions. */
module OrderMachine {
  import opened OrderTypes

  /** The default draft: the initial `formData` and what `limpiarCampos` sets. */
  const Blank: Draft := Draft("", "", "pendiente", "", None, None)

  /** The component state: `formData`, the mode flag `editar`, `ordenesList`. */
  datatype State = State(draft: Draft, editing: bool, list: seq<Order>)

  /** What one handler does: the state it leaves and its events, in order. */
  datatype Step = Step(next: State, out: seq<Event>)

  /** The state before the mount-time fetch. */
  const Initial: State := State(Blank, false, [])

  /** The mode flag and the update target agree: Create mode has no target and
      no row id in the draft; Editing mode targets the id of the row that was
      spread into the draft. */
  predicate Inv(s: State)
  {
    if s.editing then s.draft.ide.Some? && s.draft.rowId == s.draft.ide
    else s.draft.ide == None && s.draft.rowId == None
  }

  /** The number of requests sent among the events `out`. */
  function Requests(out: seq<Event>): (n: nat)
    ensures n <= |out|
    ensures n == 0 <==> forall e :: e in out ==> !e.Send?
  {
    if out == [] then 0
    else
      assert forall e :: e in out ==> e == out[0] || e in out[1..];
      (if out[0].Send? then 1 else 0) + Requests(out[1..])
  }

  lemma {:induction false} RequestsAppend(a: seq<Event>, b: seq<Event>)
    ensures Requests(a + b) == Requests(a) + Requests(b)
  {
    if a != [] {
      assert (a + b)[0] == a[0];
      assert (a + b)[1..] == a[1..] + b;
      RequestsAppend(a[1..], b);
    } else {
      assert a + b == b;
    }
  }

  /** The list after a fetch: the fetched rows on success, the old list otherwise. */
  function Listed(f: Listing, current: seq<Order>): seq<Order>
  {
    match f
    case Rows(rows) => rows
    case Unavailable => current
  }

  /** `obtenerOrdenes`: one GET; the list is replaced wholesale on success and
      left alone on failure (the error is only logged); the form is untouched. */
  function RefetchStep(s: State, f: Listing): (r: Step)
    ensures r.out == [Send(Get)] && Requests(r.out) == 1
    ensures r.next.draft == s.draft && r.next.editing == s.editing
    ensures f.Rows? ==> r.next.list == f.rows
    ensures f.Unavailable? ==> r.next.list == s.list
  {
    Step(s.(list := Listed(f, s.list)), [Send(Get)])
  }

  /** `limpiarCampos`: the default draft in Create mode, whatever the state was. */
  function ClearStep(s: State): (r: Step)
    ensures r.next.draft == Blank && !r.next.editing
    ensures r.next.list == s.list && r.out == []
    ensures Inv(r.next)
  {
    Step(s.(draft := Blank, editing := false), [])
  }

  /** `editarOrden(val)`: Editing mode, every field taken from the row, and the
      update target bound to the row's id. */
  function EditStep(s: State, row: Order): (r: Step)
    ensures r.next.editing && r.next.list == s.list && r.out == []
    ensures forall f :: Value(r.next.draft, f) == Column(row, f)
    ensures r.next.draft.ide == Some(row.id) && r.next.draft.rowId == Some(row.id)
    ensures Inv(r.next)
  {
    var d := Draft(row.startDate, row.endDate, row.status, row.customer, Some(row.id), Some(row.id));
    Step(State(d, true, s.list), [])
  }

  /** `{ ...formData, <field>: value }`: exactly one field replaced. */
  function Assign(d: Draft, f: Field, v: string): (r: Draft)
    ensures Value(r, f) == v
    ensures forall g :: g != f ==> Value(r, g) == Value(d, g)
    ensures r.ide == d.ide && r.rowId == d.rowId
  {
    match f
    case StartDate => d.(startDate := v)
    case EndDate => d.(endDate := v)
    case Status => d.(status := v)
    case Customer => d.(customer := v)
  }

  /** An input's `onChange`: the draft changes in field `f` only; the mode, the
      update target and the list stay, and nothing is sent. */
  function ChangeStep(s: State, f: Field, v: string): (r: Step)
    ensures r.next.editing == s.editing && r.next.list == s.list && r.out == []
    ensures Value(r.next.draft, f) == v
    ensures forall g :: g != f ==> Value(r.next.draft, g) == Value(s.draft, g)
    ensures r.next.draft.ide == s.draft.ide && r.next.draft.rowId == s.draft.rowId
    ensures Inv(s) ==> Inv(r.next)
  {
    Step(s.(draft := Assign(s.draft, f, v)), [])
  }

  /** `update`. With no target it sends nothing, changes nothing and shows an
      error. Otherwise it sends one PUT of the current draft; on success it
      refetches, resets the form and shows success; on failure the state stays
      and an error is shown. */
  function UpdateStep(s: State, put: Outcome, f: Listing): (r: Step)
    ensures s.draft.ide == None ==> r.next == s && r.out == [Show(MissingId)] && Requests(r.out) == 0
    ensures s.draft.ide != None ==>
      |r.out| > 0 && r.out[0] == Send(Put(s.draft)) && Requests(r.out) == (if put == Ok then 2 else 1)
    ensures s.draft.ide != None && put == Ok ==>
      r.out == [Send(Put(s.draft)), Send(Get), Show(Updated)] &&
      r.next == State(Blank, false, Listed(f, s.list))
    ensures s.draft.ide != None && put == Failed ==>
      r.next == s && r.out == [Send(Put(s.draft)), Show(UpdateFailed)]
    ensures Inv(s) ==> Inv(r.next)
  {
    if s.draft.ide == None then Step(s, [Show(MissingId)])
    else
      match put
      case Ok =>
        var fetched := RefetchStep(s, f);
        var cleared := ClearStep(fetched.next);
        Step(cleared.next, [Send(Put(s.draft))] + fetched.out + cleared.out + [Show(Updated)])
      case Failed =>
        Step(s, [Send(Put(s.draft)), Show(UpdateFailed)])
  }

  /** `add`: one POST of the current draft; on success it refetches, resets the
      form and shows success; on failure it only logs, so the state stays and
      no toast is shown. */
  function AddStep(s: State, post: Outcome, f: Listing): (r: Step)
    ensures |r.out| > 0 && r.out[0] == Send(Post(s.draft))
    ensures Requests(r.out) == (if post == Ok then 2 else 1)
    ensures post == Ok ==>
      r.out == [Send(Post(s.draft)), Send(Get), Show(Registered)] &&
      r.next == State(Blank, false, Listed(f, s.list))
    ensures post == Failed ==> r.next == s && r.out == [Send(Post(s.draft))]
    ensures Inv(s) ==> Inv(r.next)
  {
    match post
    case Ok =>
      var fetched := RefetchStep(s, f);
      var cleared := ClearStep(fetched.next);
      Step(cleared.next, [Send(Post(s.draft))] + fetched.out + cleared.out + [Show(Registered)])
    case Failed =>
      Step(s, [Send(Post(s.draft))])
  }

  /** `deleteOrden(orden)`: always asks first, naming the id. Declined: no
      request and no change. Confirmed: one DELETE of that id; on success a
      refetch and a toast naming the id, on failure an error toast. The form is
      never touched, even when the deleted row is the one being edited. */
  function DeleteStep(s: State, row: Order, confirmed: bool, del: Outcome, f: Listing): (r: Step)
    ensures |r.out| > 0 && r.out[0] == Ask(row.id)
    ensures r.next.draft == s.draft && r.next.editing == s.editing
    ensures !confirmed ==> r.next == s && r.out == [Ask(row.id)] && Requests(r.out) == 0
    ensures confirmed ==>
      |r.out| > 1 && r.out[1] == Send(Delete(row.id)) && Requests(r.out) == (if del == Ok then 2 else 1)
    ensures confirmed && del == Ok ==>
      r.out == [Ask(row.id), Send(Delete(row.id)), Send(Get), Show(Deleted(row.id))] &&
      r.next.list == Listed(f, s.list)
    ensures confirmed && del == Failed ==>
      r.next == s && r.out == [Ask(row.id), Send(Delete(row.id)), Show(DeleteFailed)]
    ensures Inv(s) ==> Inv(r.next)
  {
    if !confirmed then Step(s, [Ask(row.id)])
    else
      match del
      case Ok =>
        var fetched := RefetchStep(s, f);
        var out := [Ask(row.id), Send(Delete(row.id))] + fetched.out + [Show(Deleted(row.id))];
        assert out == [Ask(row.id), Send(Delete(row.id)), Send(Get), Show(Deleted(row.id))];
        assert Requests(out[2..]) == 1;
        assert Requests(out[1..]) == 2;
        Step(fetched.next, out)
      case Failed =>
        Step(s, [Ask(row.id), Send(Delete(row.id)), Show(DeleteFailed)])
  }

  /** The footer buttons: "Registrar", or "Actualizar" and "Cancelar". */
  datatype Button = RegisterButton | UpdateButton | CancelButton

  /** The footer chosen by the mode flag: exactly one submit button, the update
      one (with cancel) in Editing mode and the register one in Create mode. */
  function Footer(editing: bool): (r: seq<Button>)
    ensures |r| == (if editing then 2 else 1)
    ensures (RegisterButton in r) != (UpdateButton in r)
    ensures UpdateButton in r <==> editing
    ensures CancelButton in r <==> editing
  {
    if editing then [UpdateButton, CancelButton] else [RegisterButton]
  }

  /** A user action on the screen, with the outcomes it meets as inputs. */
  datatype Action =
    | Type(field: Field, text: string)                                  // an input's onChange
    | Register(post: Outcome, fetched: Listing)                         // "Registrar": add
    | Save(put: Outcome, fetched: Listing)                              // "Actualizar": update
    | Cancel                                                            // "Cancelar": limpiarCampos
    | EditRow(row: Order)                                               // a row's "Editar"
    | DeleteRow(row: Order, confirmed: bool, del: Outcome, fetched: Listing)  // a row's "Eliminar"

  /** Whether the screen offers action `a` in state `s`: footer buttons follow
      the mode, row buttons exist only for listed rows, inputs are always there. */
  predicate Offered(s: State, a: Action)
    ensures a.Type? ==> Offered(s, a)
    ensures a.Register? ==> (Offered(s, a) <==> !s.editing)
    ensures (a.Save? || a.Cancel?) ==> (Offered(s, a) <==> s.editing)
    ensures (a.EditRow? || a.DeleteRow?) ==> (Offered(s, a) <==> a.row in s.list)
  {
    match a
    case Type(_, _) => true
    case Register(_, _) => RegisterButton in Footer(s.editing)
    case Save(_, _) => UpdateButton in Footer(s.editing)
    case Cancel => CancelButton in Footer(s.editing)
    case EditRow(row) => row in s.list
    case DeleteRow(row, _, _, _) => row in s.list
  }

  /** Every PUT sent names a target, and that target is the id of the row
      spread into the draft. */
  predicate Targeted(e: Event)
  {
    e.Send? && e.request.Put? ==>
      e.request.body.ide.Some? && e.request.body.rowId == e.request.body.ide
  }

  /** The handler an action runs. */
  function Apply(s: State, a: Action): (r: Step)
    ensures Inv(s) ==> Inv(r.next)
    ensures Inv(s) ==> forall e :: e in r.out ==> Targeted(e)
    ensures Inv(s) && Offered(s, a) ==> Show(MissingId) !in r.out
  {
    match a
    case Type(f, v) => ChangeStep(s, f, v)
    case Register(post, f) => AddStep(s, post, f)
    case Save(put, f) => UpdateStep(s, put, f)
    case Cancel => ClearStep(s)
    case EditRow(row) => EditStep(s, row)
    case DeleteRow(row, confirmed, del, f) => DeleteStep(s, row, confirmed, del, f)
  }

  /** Actions run one after the other, each to completion. */
  function Run(s: State, acts: seq<Action>): Step
    decreases |acts|
  {
    if acts == [] then Step(s, [])
    else
      var first := Apply(s, acts[0]);
      var rest := Run(first.next, acts[1..]);
      Step(rest.next, first.out + rest.out)
  }

  /** Every action of `acts` is offered when its turn comes. */
  predicate Playable(s: State, acts: seq<Action>)
    decreases |acts|
  {
    acts == [] || (Offered(s, acts[0]) && Playable(Apply(s, acts[0]).next, acts[1..]))
  }

  /** The screen from mount: one fetch, then the user's actions. The GET of
      the mount comes first, and with no action yet the form is the default
      one in Create mode and the list is whatever that GET returned. */
  function Session(f: Listing, acts: seq<Action>): (r: Step)
    ensures |r.out| > 0 && r.out[0] == Send(Get)
    ensures acts == [] ==> r == Step(State(Blank, false, Listed(f, [])), [Send(Get)])
  {
    var mounted := RefetchStep(Initial, f);
    var rest := Run(mounted.next, acts);
    Step(rest.next, mounted.out + rest.out)
  }

  /** The invariant holds after any sequence of actions, offered or not. */
  lemma {:induction false} RunKeepsInv(s: State, acts: seq<Action>)
    requires Inv(s)
    ensures Inv(Run(s, acts).next)
    decreases |acts|
  {
    if acts != [] {
      RunKeepsInv(Apply(s, acts[0]).next, acts[1..]);
    }
  }

  /** Every PUT of any run targets the id of the row being edited. */
  lemma {:induction false} RunPutsTargeted(s: State, acts: seq<Action>)
    requires Inv(s)
    ensures forall e :: e in Run(s, acts).out ==> Targeted(e)
    decreases |acts|
  {
    if acts != [] {
      var first := Apply(s, acts[0]);
      RunPutsTargeted(first.next, acts[1..]);
    }
  }

  /** Through the buttons the screen offers, `update` is never refused: the
      footer shows it only in Editing mode, where the target is set. */
  lemma {:induction false} PlayableNeverMissesId(s: State, acts: seq<Action>)
    requires Inv(s) && Playable(s, acts)
    ensures Show(MissingId) !in Run(s, acts).out
    decreases |acts|
  {
    if acts != [] {
      var first := Apply(s, acts[0]);
      PlayableNeverMissesId(first.next, acts[1..]);
    }
  }

  /** An action that only touches the form: typing, cancelling, choosing a
      row to edit, or a delete the user declines. */
  predicate Local(a: Action)
  {
    a.Type? || a.Cancel? || a.EditRow? || (a.DeleteRow? && !a.confirmed)
  }

  /** Actions that only touch the form never reach the backend: such a run
      sends no request and leaves the list as it was. */
  lemma {:induction false} LocalRunSendsNothing(s: State, acts: seq<Action>)
    requires forall i :: 0 <= i < |acts| ==> Local(acts[i])
    ensures Requests(Run(s, acts).out) == 0
    ensures Run(s, acts).next.list == s.list
    decreases |acts|
  {
    if acts != [] {
      var first := Apply(s, acts[0]);
      assert Local(acts[0]);
      assert first.out == [] || first.out == [Ask(acts[0].row.id)];
      assert Requests(first.out) == 0 && first.next.list == s.list;
      LocalRunSendsNothing(first.next, acts[1..]);
      RequestsAppend(first.out, Run(first.next, acts[1..]).out);
    }
  }

  /** From mount, through offered actions: the invariant holds at the end,
      every PUT targets the edited row, and the missing-id error never shows. */
  lemma SessionIsSound(f: Listing, acts: seq<Action>)
    requires Playable(RefetchStep(Initial, f).next, acts)
    ensures Inv(Session(f, acts).next)
    ensures forall e :: e in Session(f, acts).out ==> Targeted(e)
    ensures Show(MissingId) !in Session(f, acts).out
  {
    var mounted := RefetchStep(Initial, f);
    RunKeepsInv(mounted.next, acts);
    RunPutsTargeted(mounted.next, acts);
    PlayableNeverMissesId(mounted.next, acts);
  }

  /** Choosing "Editar" and then "Cancelar" restores the default draft in
      Create mode and sends nothing. */
  lemma EditThenCancel(s: State, row: Order)
    requires row in s.list
    ensures Playable(s, [EditRow(row), Cancel])
    ensures Run(s, [EditRow(row), Cancel]) == Step(State(Blank, false, s.list), [])
  {
    var edited := Apply(s, EditRow(row)).next;
    assert [EditRow(row), Cancel][1..] == [Cancel];
    assert Run(edited, [Cancel]) == Step(State(Blank, false, s.list), []);
  }

  /** A whole session: order 1 listed, edited, its status changed to
      "completada" and saved: one PUT with that status and target 1, one GET,
      a success toast, and the form back to the defaults in Create mode. */
  lemma EditStatusAndSave()
    ensures
      var row := Order(1, "2024-01-01", "2024-01-10", "pendiente", "5");
      var refreshed := [row.(status := "completada")];
      var acts := [EditRow(row), Type(Status, "completada"), Save(Ok, Rows(refreshed))];
      var s := Session(Rows([row]), acts);
      Playable(RefetchStep(Initial, Rows([row])).next, acts) &&
      s.out == [Send(Get), Send(Put(Draft("2024-01-01", "2024-01-10", "completada", "5", Some(1), Some(1)))),
                Send(Get), Show(Updated)] &&
      s.next == State(Blank, false, refreshed)
  {
    var row := Order(1, "2024-01-01", "2024-01-10", "pendiente", "5");
    var refreshed := [row.(status := "completada")];
    var acts := [EditRow(row), Type(Status, "completada"), Save(Ok, Rows(refreshed))];
    var s0 := RefetchStep(Initial, Rows([row])).next;
    var s1 := Apply(s0, acts[0]).next;
    var s2 := Apply(s1, acts[1]).next;
    assert acts[1..] == [acts[1], acts[2]] && acts[1..][1..] == [acts[2]];
    assert s1 == State(Draft("2024-01-01", "2024-01-10", "pendiente", "5", Some(1), Some(1)), true, [row]);
    assert s2 == State(Draft("2024-01-01", "2024-01-10", "completada", "5", Some(1), Some(1)), true, [row]);
    var last := Apply(s2, acts[2]);
    assert Run(s2, acts[1..][1..]) == Step(last.next, last.out + []);
    assert Run(s1, acts[1..]) == Step(last.next, [] + last.out);
    assert Run(s0, acts) == Step(last.next, [] + last.out);
    assert Playable(s2, acts[1..][1..]);
  }
}
