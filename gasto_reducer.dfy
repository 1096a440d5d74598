/** The application state reducer: the budget (`gasto`) and the visibility
    of the expense modal, and the three actions that change them. The
    reducer is a pure function with no precondition, so every state and
    action yield a next state. */
module GastoReducer {

  /** The global state: the budget and whether the modal is shown. */
  datatype GastoState = GastoState(gasto: real, modal: bool)

  /** The `type` strings the reducer switches on. */
  const AgregarGastoType: string := "AGREGAR_GASTO"
  const ShowModalType: string := "show-modal"
  const CloseModalType: string := "close-modal"

  /** Any other `type` string: it reaches the reducer's default case. */
  type UnknownType = t: string
    | t != AgregarGastoType && t != ShowModalType && t != CloseModalType
    witness ""

  /** The dispatched actions. `Unknown` stands for an action object whose
      type the reducer does not handle. */
  datatype GastoAction =
    | AgregarGasto(gasto: real)
    | ShowModal
    | CloseModal
    | Unknown(kind: UnknownType)
  {
    /** The action's `type` field. */
    function Type(): string
    {
      match this
      case AgregarGasto(_) => AgregarGastoType
      case ShowModal => ShowModalType
      case CloseModal => CloseModalType
      case Unknown(k) => k
    }
  }

  /** The state the application starts in. */
  function InitialState(): (s: GastoState)
    ensures s.gasto == 0.0 && !s.modal
  {
    GastoState(0.0, false)
  }

  /** One transition. Only `AGREGAR_GASTO` touches the budget and only the
      two modal actions touch the flag. */
  function Reduce(state: GastoState, action: GastoAction): (r: GastoState)
    ensures r.gasto != state.gasto ==> action.AgregarGasto?
    ensures r.modal != state.modal ==> action.ShowModal? || action.CloseModal?
  {
    match action
    case AgregarGasto(amount) => state.(gasto := state.gasto + amount)
    case ShowModal => state.(modal := true)
    case CloseModal => state.(modal := false)
    case Unknown(_) => state
  }

  /** Actions are told apart by their type string alone. */
  lemma TypeDeterminesAction(a: GastoAction, b: GastoAction)
    requires a.Type() == b.Type()
    ensures a.AgregarGasto? <==> b.AgregarGasto?
    ensures a.ShowModal? <==> b.ShowModal?
    ensures a.CloseModal? <==> b.CloseModal?
    ensures a.Unknown? ==> b == a
  {
  }

  /** `AGREGAR_GASTO` adds its payload to the budget and leaves the modal
      flag alone. */
  lemma AgregarGastoAdds(s: GastoState, amount: real)
    ensures Reduce(s, AgregarGasto(amount)).gasto == s.gasto + amount
    ensures Reduce(s, AgregarGasto(amount)).modal == s.modal
  {
  }

  /** `show-modal` opens the modal, keeps the budget, and is idempotent. */
  lemma ShowModalOpens(s: GastoState)
    ensures Reduce(s, ShowModal).modal
    ensures Reduce(s, ShowModal).gasto == s.gasto
    ensures Reduce(Reduce(s, ShowModal), ShowModal) == Reduce(s, ShowModal)
  {
  }

  /** `close-modal` closes the modal, keeps the budget, is idempotent, and
      undoes a `show-modal`. */
  lemma CloseModalCloses(s: GastoState)
    ensures !Reduce(s, CloseModal).modal
    ensures Reduce(s, CloseModal).gasto == s.gasto
    ensures Reduce(Reduce(s, CloseModal), CloseModal) == Reduce(s, CloseModal)
    ensures Reduce(Reduce(s, ShowModal), CloseModal) == s.(modal := false)
  {
  }

  /** The default case is the identity. */
  lemma UnknownIsIdentity(s: GastoState, kind: UnknownType)
    ensures Reduce(s, Unknown(kind)) == s
  {
  }

  /** The state after dispatching `actions` in order, starting from
      `state`. */
  function ReduceAll(state: GastoState, actions: seq<GastoAction>): (r: GastoState)
    ensures (forall i :: 0 <= i < |actions| ==> !actions[i].AgregarGasto?) ==> r.gasto == state.gasto
    ensures (forall i :: 0 <= i < |actions| ==> !actions[i].ShowModal? && !actions[i].CloseModal?) ==>
      r.modal == state.modal
    decreases |actions|
  {
    if actions == [] then state
    else
      assert forall i :: 0 <= i < |actions| - 1 ==> actions[1..][i] == actions[i + 1];
      ReduceAll(Reduce(state, actions[0]), actions[1..])
  }

  /** Running two batches one after the other is running their
      concatenation. */
  lemma {:induction false} ReduceAllAppend(s: GastoState, xs: seq<GastoAction>, ys: seq<GastoAction>)
    ensures ReduceAll(s, xs + ys) == ReduceAll(ReduceAll(s, xs), ys)
    decreases |xs|
  {
    if xs == [] {
      assert xs + ys == ys;
    } else {
      assert (xs + ys)[1..] == xs[1..] + ys;
      ReduceAllAppend(Reduce(s, xs[0]), xs[1..], ys);
    }
  }

  /** The sum of a sequence of amounts. */
  function Sum(xs: seq<real>): real
  {
    if xs == [] then 0.0 else xs[0] + Sum(xs[1..])
  }

  /** The total added to the budget by the `AGREGAR_GASTO` actions of a
      run. */
  function AddedBy(actions: seq<GastoAction>): real
  {
    if actions == [] then 0.0
    else (if actions[0].AgregarGasto? then actions[0].gasto else 0.0) + AddedBy(actions[1..])
  }

  /** The modal flag a run leaves, read from its end: the setting of the
      last `show-modal` or `close-modal`, or `initial` when there is none. */
  function ModalAfter(initial: bool, actions: seq<GastoAction>): bool
  {
    if actions == [] then initial
    else
      var last := actions[|actions| - 1];
      if last.ShowModal? then true
      else if last.CloseModal? then false
      else ModalAfter(initial, actions[..|actions| - 1])
  }

  /** Reading the modal flag from the end agrees with stepping the first
      action. */
  lemma {:induction false} ModalAfterFirst(s: GastoState, actions: seq<GastoAction>)
    requires actions != []
    ensures ModalAfter(s.modal, actions) == ModalAfter(Reduce(s, actions[0]).modal, actions[1..])
    decreases |actions|
  {
    var n := |actions|;
    if n > 1 {
      var init := actions[..n - 1];
      assert init[0] == actions[0];
      assert init[1..] == actions[1..][..n - 2];
      ModalAfterFirst(s, init);
    }
  }

  /** Every run is characterised without stepping: the budget grows by the
      sum of its `AGREGAR_GASTO` payloads and the modal flag is that of its
      last modal action. */
  lemma {:induction false} ReduceAllCharacterised(s: GastoState, actions: seq<GastoAction>)
    ensures ReduceAll(s, actions) == GastoState(s.gasto + AddedBy(actions), ModalAfter(s.modal, actions))
    decreases |actions|
  {
    if actions != [] {
      var next := Reduce(s, actions[0]);
      ReduceAllCharacterised(next, actions[1..]);
      ModalAfterFirst(s, actions);
    }
  }

  /** One `AGREGAR_GASTO` action per amount, in order. */
  function AgregarGastoActions(amounts: seq<real>): (r: seq<GastoAction>)
    ensures |r| == |amounts|
    ensures forall i :: 0 <= i < |r| ==> r[i] == AgregarGasto(amounts[i])
  {
    if amounts == [] then [] else [AgregarGasto(amounts[0])] + AgregarGastoActions(amounts[1..])
  }

  /** A run of `AGREGAR_GASTO` actions accumulates: the budget grows by the
      sum of the payloads and the modal flag is untouched. */
  lemma {:induction false} AgregarGastoAccumulates(s: GastoState, amounts: seq<real>)
    ensures ReduceAll(s, AgregarGastoActions(amounts)) == GastoState(s.gasto + Sum(amounts), s.modal)
    decreases |amounts|
  {
    if amounts != [] {
      var acts := AgregarGastoActions(amounts);
      assert acts[1..] == AgregarGastoActions(amounts[1..]);
      AgregarGastoAccumulates(Reduce(s, acts[0]), amounts[1..]);
    }
  }

  /** The sum of a concatenation. */
  lemma {:induction false} SumAppend(xs: seq<real>, ys: seq<real>)
    ensures Sum(xs + ys) == Sum(xs) + Sum(ys)
    decreases |xs|
  {
    if xs == [] {
      assert xs + ys == ys;
    } else {
      assert (xs + ys)[1..] == xs[1..] + ys;
      SumAppend(xs[1..], ys);
    }
  }

  /** Taking one amount out of a sequence takes it out of the sum. */
  lemma SumRemove(ys: seq<real>, i: nat)
    requires i < |ys|
    ensures Sum(ys) == ys[i] + Sum(ys[..i] + ys[i + 1..])
  {
    assert ys == ys[..i] + ([ys[i]] + ys[i + 1..]);
    SumAppend(ys[..i], [ys[i]] + ys[i + 1..]);
    SumAppend([ys[i]], ys[i + 1..]);
    SumAppend(ys[..i], ys[i + 1..]);
  }

  /** Taking one element out of a sequence takes it out of its multiset. */
  lemma MultisetRemove<T>(ys: seq<T>, i: nat)
    requires i < |ys|
    ensures multiset(ys[..i] + ys[i + 1..]) == multiset(ys) - multiset{ys[i]}
  {
    assert ys == ys[..i] + [ys[i]] + ys[i + 1..];
  }

  /** Reordering amounts does not change their sum. */
  lemma {:induction false} SumPermutation(xs: seq<real>, ys: seq<real>)
    requires multiset(xs) == multiset(ys)
    ensures Sum(xs) == Sum(ys)
    decreases |xs|
  {
    if xs == [] {
      assert |ys| == |multiset(ys)| == 0;
    } else {
      assert xs[0] in multiset(ys);
      var i :| 0 <= i < |ys| && ys[i] == xs[0];
      var rest := ys[..i] + ys[i + 1..];
      MultisetRemove(ys, i);
      MultisetRemove(xs, 0);
      assert xs[..0] + xs[1..] == xs[1..];
      SumPermutation(xs[1..], rest);
      SumRemove(ys, i);
    }
  }

  /** The order of the `AGREGAR_GASTO` actions does not matter: any
      reordering of the payloads reaches the same state. */
  lemma AgregarGastoOrderIrrelevant(s: GastoState, xs: seq<real>, ys: seq<real>)
    requires multiset(xs) == multiset(ys)
    ensures ReduceAll(s, AgregarGastoActions(xs)) == ReduceAll(s, AgregarGastoActions(ys))
  {
    AgregarGastoAccumulates(s, xs);
    AgregarGastoAccumulates(s, ys);
    SumPermutation(xs, ys);
  }
}
