/**
 * One-shot promises (`Promise<T>` and `Promise<void>`).
 *
 * A promise is fulfilled at most once. Fulfilling it stores the result,
 * runs its callbacks in registration order, fulfils its forward targets
 * with the same argument, and then empties both lists. `then` on a
 * pending promise registers a callback and returns a fresh derived
 * promise; on a fulfilled promise it runs the callback at once.
 *
 * The promises of one program form a registry: a map from promise ids to
 * cells, all copies of a promise sharing one cell. What happens is recorded
 * in a trace of events. A user callback is opaque and stands for a
 * token; the closure that `then` wraps around it is modelled explicitly:
 *  - `Settle(cb, derived)`: a callback returning nothing; afterwards the
 *    derived promise is fulfilled (with no argument);
 *  - `Chain(cb, returned, derived)`: a callback returning a promise; that
 *    promise (`returned`, fixed when the callback is registered) is told to
 *    forward to the derived promise.
 *
 * A fulfilment cascades through derived and forwarded promises. The
 * cascade is finite because each step fulfils a pending promise, and a
 * fulfilled promise is never fulfilled again.
 */
module Promise {
  import opened Signals
  import opened Wrappers

  type PromiseId = nat

  datatype Callback =
    | Settle(cb: CallbackId, derived: PromiseId)
    | Chain(cb: CallbackId, returned: PromiseId, derived: PromiseId)

  datatype Cell<T> = Cell(result: Option<Payload<T>>, callbacks: seq<Callback>, forwards: seq<PromiseId>)

  datatype Event<T> =
    | Fulfilled(promise: PromiseId, arg: Payload<T>)   // a promise stored its result
    | Invoked(cb: CallbackId, arg: Payload<T>)         // a user callback ran

  /** All promises, the trace so far and the next fresh id. */
  datatype Net<T> = Net(cells: map<PromiseId, Cell<T>>, trace: seq<Event<T>>, next: PromiseId)

  /** The promises not yet fulfilled. */
  ghost function Pending<T>(cells: map<PromiseId, Cell<T>>): set<PromiseId>
  {
    set p | p in cells && cells[p].result.None?
  }

  ghost predicate CallbackOk<T>(cells: map<PromiseId, Cell<T>>, cb: Callback)
  {
    match cb
    case Settle(_, d) => d in cells
    case Chain(_, r, d) => r in cells && d in cells
  }

  /** Promise `p` exists, its id was handed out, and everything it refers to exists. */
  ghost predicate CellOk<T>(n: Net<T>, p: PromiseId)
  {
    p in n.cells && p < n.next &&
    (forall f :: f in n.cells[p].forwards ==> f in n.cells) &&
    (forall cb :: cb in n.cells[p].callbacks ==> CallbackOk(n.cells, cb))
  }

  // The trigger keeps the per-promise facts from being unfolded for every
  // id in scope; a proof asks for the promise it needs by naming CellOk.
  ghost predicate WellFormed<T>(n: Net<T>)
  {
    forall p {:trigger CellOk(n, p)} :: p in n.cells ==> CellOk(n, p)
  }

  /**
   * A fulfilled promise keeps its result, and a forward list only grows,
   * except when its promise is fulfilled and the list is emptied.
   */
  ghost predicate CellGrows<T>(n: Net<T>, m: Net<T>, p: PromiseId)
  {
    p in n.cells && p in m.cells &&
    (n.cells[p].result.Some? ==> m.cells[p].result == n.cells[p].result) &&
    (n.cells[p].result.Some? || m.cells[p].result.None? ==> n.cells[p].forwards <= m.cells[p].forwards)
  }

  /**
   * What a fulfilment may change: the same promises, fulfilled ones
   * unchanged in result, the trace only extended.
   */
  ghost predicate Grows<T>(n: Net<T>, m: Net<T>)
  {
    m.next == n.next && m.cells.Keys == n.cells.Keys && n.trace <= m.trace &&
    forall p {:trigger CellGrows(n, m, p)} :: p in n.cells ==> CellGrows(n, m, p)
  }

  lemma GrowsTrans<T>(a: Net<T>, b: Net<T>, c: Net<T>)
    requires Grows(a, b) && Grows(b, c)
    ensures Grows(a, c)
  {
    forall p | p in a.cells
      ensures CellGrows(a, c, p)
    {
      assert CellGrows(a, b, p) && CellGrows(b, c, p);
    }
  }

  lemma PendingShrinks<T>(n: Net<T>, m: Net<T>)
    requires Grows(n, m)
    ensures Pending(m.cells) <= Pending(n.cells)
  {
    forall p | p in Pending(m.cells)
      ensures p in Pending(n.cells)
    {
      assert CellGrows(n, m, p);
    }
  }

  lemma SettledKept<T>(n: Net<T>, m: Net<T>, p: PromiseId)
    requires Grows(n, m) && p in n.cells && n.cells[p].result.Some?
    ensures m.cells[p].result == n.cells[p].result
  {
    assert CellGrows(n, m, p);
  }

  lemma CallbackOkGrows<T>(n: Net<T>, m: Net<T>, cb: Callback)
    requires Grows(n, m) && CallbackOk(n.cells, cb)
    ensures CallbackOk(m.cells, cb)
  {
  }

  /** Appending to the trace keeps a registry well formed. */
  lemma TraceStep<T>(n: Net<T>, e: Event<T>)
    requires WellFormed(n)
    ensures var m := n.(trace := n.trace + [e]); WellFormed(m) && Grows(n, m)
  {
    var m := n.(trace := n.trace + [e]);
    forall p | p in m.cells
      ensures CellOk(m, p) && CellGrows(n, m, p)
    {
      assert CellOk(n, p);
    }
  }

  /** Storing the result of a pending promise: one promise fewer is pending. */
  lemma StoreStep<T>(n: Net<T>, p: PromiseId, v: Payload<T>)
    requires WellFormed(n) && p in n.cells && n.cells[p].result.None?
    ensures var m := Net(n.cells[p := n.cells[p].(result := Some(v))], n.trace + [Fulfilled(p, v)], n.next);
      WellFormed(m) && Grows(n, m) && Pending(m.cells) < Pending(n.cells)
  {
    var m := Net(n.cells[p := n.cells[p].(result := Some(v))], n.trace + [Fulfilled(p, v)], n.next);
    forall q | q in m.cells
      ensures CellOk(m, q) && CellGrows(n, m, q)
    {
      assert CellOk(n, q);
    }
    PendingShrinks(n, m);
    assert p in Pending(n.cells) && p !in Pending(m.cells);
  }

  /** The effect of a promise-returning callback: `returned` now forwards to `derived`. */
  lemma ChainStep<T>(n: Net<T>, r: PromiseId, d: PromiseId)
    requires WellFormed(n) && r in n.cells && d in n.cells
    ensures var m := n.(cells := n.cells[r := n.cells[r].(forwards := n.cells[r].forwards + [d])]);
      WellFormed(m) && Grows(n, m)
  {
    var m := n.(cells := n.cells[r := n.cells[r].(forwards := n.cells[r].forwards + [d])]);
    forall q | q in m.cells
      ensures CellOk(m, q) && CellGrows(n, m, q)
    {
      assert CellOk(n, q);
      forall cb | cb in m.cells[q].callbacks
        ensures CallbackOk(m.cells, cb)
      {
        assert CallbackOk(n.cells, cb);
      }
    }
  }

  /** Emptying both lists of `p`, which was pending in `n` and is fulfilled in `b`. */
  lemma ClearStep<T>(n: Net<T>, b: Net<T>, p: PromiseId)
    requires WellFormed(b) && Grows(n, b) && p in n.cells && n.cells[p].result.None? && b.cells[p].result.Some?
    ensures var m := b.(cells := b.cells[p := b.cells[p].(callbacks := [], forwards := [])]);
      WellFormed(m) && Grows(n, m)
  {
    var m := b.(cells := b.cells[p := b.cells[p].(callbacks := [], forwards := [])]);
    forall q | q in m.cells
      ensures CellOk(m, q) && CellGrows(n, m, q)
    {
      assert CellOk(b, q) && CellGrows(n, b, q);
      forall cb | cb in m.cells[q].callbacks
        ensures CallbackOk(m.cells, cb)
      {
        assert CallbackOk(b.cells, cb);
      }
    }
  }

  /**
   * The registry after `fulfill(v)` on promise `p`, and what `fulfill`
   * returns: false, with nothing changed, when `p` already holds a result;
   * otherwise the result is stored, the callbacks run, the forward targets
   * are fulfilled with the same argument, both lists are emptied, and the
   * answer is true.
   */
  ghost function AfterFulfil<T>(n: Net<T>, p: PromiseId, v: Payload<T>): (r: (Net<T>, bool))
    requires WellFormed(n) && p in n.cells
    ensures WellFormed(r.0) && Grows(n, r.0) && Pending(r.0.cells) <= Pending(n.cells)
    ensures r.1 <==> n.cells[p].result.None?
    ensures r.0.cells[p].result.Some?
    ensures r.1 ==> r.0.cells[p] == Cell(Some(v), [], [])
    ensures !r.1 ==> r.0 == n
    decreases Pending(n.cells), 1
  {
    if n.cells[p].result.Some? then (n, false)
    else
      var a := AfterCallbacks(n, p, v);
      assert CellOk(a, p);
      var b := AfterForwards(a, a.cells[p].forwards, v);
      GrowsTrans(n, a, b);
      SettledKept(a, b, p);
      ClearStep(n, b, p);
      var m := b.(cells := b.cells[p := b.cells[p].(callbacks := [], forwards := [])]);
      PendingShrinks(n, m);
      (m, true)
  }

  /** A pending promise once its result is stored and the callback loop of `fulfill` has run. */
  ghost function AfterCallbacks<T>(n: Net<T>, p: PromiseId, v: Payload<T>): (m: Net<T>)
    requires WellFormed(n) && p in n.cells && n.cells[p].result.None?
    ensures WellFormed(m) && Grows(n, m) && Pending(m.cells) < Pending(n.cells)
    ensures m.cells[p].result == Some(v)
    ensures n.trace + [Fulfilled(p, v)] <= m.trace
    decreases Pending(n.cells), 0
  {
    var n1 := Net(n.cells[p := n.cells[p].(result := Some(v))], n.trace + [Fulfilled(p, v)], n.next);
    StoreStep(n, p, v);
    assert CellOk(n, p);
    var m := AfterDeliveries(n1, n.cells[p].callbacks, v);
    GrowsTrans(n, n1, m);
    SettledKept(n1, m, p);
    m
  }

  /** Delivering `v` to each of `cbs` in turn. */
  ghost function AfterDeliveries<T>(n: Net<T>, cbs: seq<Callback>, v: Payload<T>): (m: Net<T>)
    requires WellFormed(n)
    requires forall cb :: cb in cbs ==> CallbackOk(n.cells, cb)
    ensures WellFormed(m) && Grows(n, m) && Pending(m.cells) <= Pending(n.cells)
    decreases Pending(n.cells), 3, |cbs|
  {
    if cbs == [] then n
    else
      var n' := AfterDeliveries(n, cbs[..|cbs| - 1], v);
      CallbackOkGrows(n, n', cbs[|cbs| - 1]);
      var m := AfterDelivery(n', cbs[|cbs| - 1], v);
      GrowsTrans(n, n', m);
      m
  }

  /** One run of the closure that `then` registered. */
  ghost function AfterDelivery<T>(n: Net<T>, cb: Callback, v: Payload<T>): (m: Net<T>)
    requires WellFormed(n) && CallbackOk(n.cells, cb)
    ensures WellFormed(m) && Grows(n, m) && Pending(m.cells) <= Pending(n.cells)
    ensures n.trace + [Invoked(cb.cb, v)] <= m.trace
    decreases Pending(n.cells), 2
  {
    var n1 := n.(trace := n.trace + [Invoked(cb.cb, v)]);
    TraceStep(n, Invoked(cb.cb, v));
    match cb
    case Settle(_, d) =>
      var m := AfterFulfil(n1, d, Unit).0;
      GrowsTrans(n, n1, m);
      m
    case Chain(_, r, d) =>
      ChainStep(n1, r, d);
      var m := n1.(cells := n1.cells[r := n1.cells[r].(forwards := n1.cells[r].forwards + [d])]);
      GrowsTrans(n, n1, m);
      PendingShrinks(n, m);
      m
  }

  /** Fulfilling each of `fws` in turn with `v`. */
  ghost function AfterForwards<T>(n: Net<T>, fws: seq<PromiseId>, v: Payload<T>): (m: Net<T>)
    requires WellFormed(n)
    requires forall f :: f in fws ==> f in n.cells
    ensures WellFormed(m) && Grows(n, m) && Pending(m.cells) <= Pending(n.cells)
    decreases Pending(n.cells), 3, |fws|
  {
    if fws == [] then n
    else
      var n' := AfterForwards(n, fws[..|fws| - 1], v);
      var m := AfterFulfil(n', fws[|fws| - 1], v).0;
      GrowsTrans(n, n', m);
      m
  }

  /** How the trace of one delivery to `cb` begins. */
  function Opening<T>(cb: Callback, v: Payload<T>): seq<Event<T>>
  {
    [Invoked(cb.cb, v)]
  }

  function Openings<T>(cbs: seq<Callback>, v: Payload<T>): (hs: seq<seq<Event<T>>>)
    ensures |hs| == |cbs|
  {
    if cbs == [] then [] else Openings(cbs[..|cbs| - 1], v) + [Opening(cbs[|cbs| - 1], v)]
  }

  /**
   * The `i`-th target of `fws` is still pending when the forward loop
   * reaches it, so that its `fulfill` is the one that succeeds.
   */
  ghost predicate PendingAtTurn<T>(n: Net<T>, fws: seq<PromiseId>, v: Payload<T>, i: nat)
  {
    WellFormed(n) && i < |fws| && (forall f :: f in fws[..i] ==> f in n.cells) && fws[i] in n.cells &&
    AfterForwards(n, fws[..i], v).cells[fws[i]].result.None?
  }

  /**
   * How the trace of fulfilling each of `fws` in turn begins: with the
   * fulfilment of each target still pending at its turn, and with nothing
   * for one that already holds a result.
   */
  ghost function ForwardHeads<T>(n: Net<T>, fws: seq<PromiseId>, v: Payload<T>): (hs: seq<seq<Event<T>>>)
    ensures |hs| == |fws|
    decreases |fws|
  {
    if fws == [] then []
    else
      var k := |fws| - 1;
      ForwardHeads(n, fws[..k], v) + [if PendingAtTurn(n, fws, v, k) then [Fulfilled(fws[k], v)] else []]
  }

  lemma PendingAtTurnPrefix<T>(n: Net<T>, fws: seq<PromiseId>, j: nat, v: Payload<T>, i: nat)
    requires i < j <= |fws|
    ensures PendingAtTurn(n, fws[..j], v, i) == PendingAtTurn(n, fws, v, i)
  {
    assert fws[..j][..i] == fws[..i];
  }

  /** The `i`-th head is the fulfilment of the `i`-th target exactly when that target is pending at its turn. */
  lemma {:induction false} ForwardHeadsAt<T>(n: Net<T>, fws: seq<PromiseId>, v: Payload<T>, i: nat)
    requires i < |fws|
    ensures ForwardHeads(n, fws, v)[i] == if PendingAtTurn(n, fws, v, i) then [Fulfilled(fws[i], v)] else []
    decreases |fws|
  {
    var k := |fws| - 1;
    if i < k {
      ForwardHeadsAt(n, fws[..k], v, i);
      PendingAtTurnPrefix(n, fws, k, v, i);
    }
  }

  /** A successful `fulfill` records the fulfilment before anything else. */
  lemma FulfilOpens<T>(n: Net<T>, p: PromiseId, v: Payload<T>)
    requires WellFormed(n) && p in n.cells && n.cells[p].result.None?
    ensures n.trace + [Fulfilled(p, v)] <= AfterFulfil(n, p, v).0.trace
  {
    var a := AfterCallbacks(n, p, v);
    assert CellOk(a, p);
    var b := AfterForwards(a, a.cells[p].forwards, v);
    assert AfterFulfil(n, p, v).0.trace == b.trace;
  }

  /** A promise is fulfilled at most once: a second `fulfill` answers false and changes nothing. */
  lemma FulfilAtMostOnce<T>(n: Net<T>, p: PromiseId, v: Payload<T>, w: Payload<T>)
    requires WellFormed(n) && p in n.cells
    ensures var (m, ok) := AfterFulfil(n, p, v);
      AfterFulfil(m, p, w) == (m, false) &&
      m.cells[p].result == (if ok then Some(v) else n.cells[p].result)
  {
  }

  /** One more delivery: what the loop over the callbacks needs for its i-th step. */
  lemma DeliveriesStep<T>(n: Net<T>, cbs: seq<Callback>, i: nat, v: Payload<T>)
    requires WellFormed(n) && i < |cbs|
    requires forall cb :: cb in cbs ==> CallbackOk(n.cells, cb)
    ensures forall cb :: cb in cbs[..i] ==> CallbackOk(n.cells, cb)
    ensures forall cb :: cb in cbs[..i + 1] ==> CallbackOk(n.cells, cb)
    ensures var n' := AfterDeliveries(n, cbs[..i], v);
      CallbackOk(n'.cells, cbs[i]) && Pending(n'.cells) <= Pending(n.cells) &&
      AfterDeliveries(n, cbs[..i + 1], v) == AfterDelivery(n', cbs[i], v)
  {
    var n' := AfterDeliveries(n, cbs[..i], v);
    assert cbs[..i + 1][..i] == cbs[..i];
    CallbackOkGrows(n, n', cbs[i]);
  }

  /** One more forward: what the loop over the forward targets needs for its i-th step. */
  lemma ForwardsStep<T>(n: Net<T>, fws: seq<PromiseId>, i: nat, v: Payload<T>)
    requires WellFormed(n) && i < |fws|
    requires forall f :: f in fws ==> f in n.cells
    ensures forall f :: f in fws[..i] ==> f in n.cells
    ensures forall f :: f in fws[..i + 1] ==> f in n.cells
    ensures var n' := AfterForwards(n, fws[..i], v);
      fws[i] in n'.cells && Pending(n'.cells) <= Pending(n.cells) &&
      AfterForwards(n, fws[..i + 1], v) == AfterFulfil(n', fws[i], v).0
  {
    assert fws[..i + 1][..i] == fws[..i];
  }

  /** Every callback runs once, in registration order, with the fulfilment's argument. */
  lemma {:induction false} DeliveriesInOrder<T>(n: Net<T>, cbs: seq<Callback>, v: Payload<T>)
    requires WellFormed(n)
    requires forall cb :: cb in cbs ==> CallbackOk(n.cells, cb)
    ensures Segmented(AfterDeliveries(n, cbs, v).trace[|n.trace|..], Openings(cbs, v))
    decreases |cbs|
  {
    var m := AfterDeliveries(n, cbs, v);
    if cbs == [] {
      assert m.trace[|n.trace|..] == [];
    } else {
      var n' := AfterDeliveries(n, cbs[..|cbs| - 1], v);
      DeliveriesInOrder(n, cbs[..|cbs| - 1], v);
      CallbackOkGrows(n, n', cbs[|cbs| - 1]);
      PrefixTail(n'.trace, [Invoked(cbs[|cbs| - 1].cb, v)], m.trace);
      SegmentedGrow(n.trace, n'.trace, m.trace, Openings(cbs[..|cbs| - 1], v), Opening(cbs[|cbs| - 1], v));
    }
  }

  /** Once the callbacks have run, the derived promise of every `Settle` callback is fulfilled. */
  lemma {:induction false} DeliveriesSettle<T>(n: Net<T>, cbs: seq<Callback>, v: Payload<T>)
    requires WellFormed(n)
    requires forall cb :: cb in cbs ==> CallbackOk(n.cells, cb)
    ensures var m := AfterDeliveries(n, cbs, v);
      forall cb :: cb in cbs && cb.Settle? ==> cb.derived in m.cells && m.cells[cb.derived].result.Some?
    decreases |cbs|
  {
    if cbs != [] {
      var k := |cbs| - 1;
      var n' := AfterDeliveries(n, cbs[..k], v);
      var m := AfterDeliveries(n, cbs, v);
      DeliveriesSettle(n, cbs[..k], v);
      CallbackOkGrows(n, n', cbs[k]);
      assert m == AfterDelivery(n', cbs[k], v);
      assert cbs == cbs[..k] + [cbs[k]];
      forall cb | cb in cbs && cb.Settle?
        ensures cb.derived in m.cells && m.cells[cb.derived].result.Some?
      {
        if cb in cbs[..k] {
          SettledKept(n', m, cb.derived);
        }
      }
    }
  }

  /** The deliveries to a prefix of `cbs` leave a registry that the remaining ones only grow. */
  lemma {:induction false} DeliveriesPrefixGrows<T>(n: Net<T>, cbs: seq<Callback>, j: nat, v: Payload<T>)
    requires WellFormed(n) && j <= |cbs|
    requires forall cb :: cb in cbs ==> CallbackOk(n.cells, cb)
    ensures forall cb :: cb in cbs[..j] ==> CallbackOk(n.cells, cb)
    ensures Grows(AfterDeliveries(n, cbs[..j], v), AfterDeliveries(n, cbs, v))
    decreases |cbs| - j
  {
    var x := AfterDeliveries(n, cbs[..j], v);
    if j == |cbs| {
      assert cbs[..j] == cbs;
      forall q | q in x.cells
        ensures CellGrows(x, x, q)
      {
      }
    } else {
      DeliveriesStep(n, cbs, j, v);
      DeliveriesPrefixGrows(n, cbs, j + 1, v);
      GrowsTrans(x, AfterDeliveries(n, cbs[..j + 1], v), AfterDeliveries(n, cbs, v));
    }
  }

  /** The fulfilments of a prefix of `fws` leave a registry that the remaining ones only grow. */
  lemma {:induction false} ForwardsPrefixGrows<T>(n: Net<T>, fws: seq<PromiseId>, j: nat, v: Payload<T>)
    requires WellFormed(n) && j <= |fws|
    requires forall f :: f in fws ==> f in n.cells
    ensures forall f :: f in fws[..j] ==> f in n.cells
    ensures Grows(AfterForwards(n, fws[..j], v), AfterForwards(n, fws, v))
    decreases |fws| - j
  {
    var x := AfterForwards(n, fws[..j], v);
    if j == |fws| {
      assert fws[..j] == fws;
      forall q | q in x.cells
        ensures CellGrows(x, x, q)
      {
      }
    } else {
      ForwardsStep(n, fws, j, v);
      ForwardsPrefixGrows(n, fws, j + 1, v);
      GrowsTrans(x, AfterForwards(n, fws[..j + 1], v), AfterForwards(n, fws, v));
    }
  }

  /** The `i`-th target, still pending when the forward loop reaches it, ends up holding the argument passed on. */
  lemma PassValueAt<T>(n: Net<T>, fws: seq<PromiseId>, v: Payload<T>, i: nat)
    requires PendingAtTurn(n, fws, v, i) && forall f :: f in fws ==> f in n.cells
    ensures fws[i] in AfterForwards(n, fws, v).cells && AfterForwards(n, fws, v).cells[fws[i]].result == Some(v)
  {
    ForwardsStep(n, fws, i, v);
    var y := AfterForwards(n, fws[..i + 1], v);
    assert y.cells[fws[i]].result == Some(v);
    ForwardsPrefixGrows(n, fws, i + 1, v);
    SettledKept(y, AfterForwards(n, fws, v), fws[i]);
  }

  /** Every target still pending when the forward loop reaches it ends up holding the argument passed on. */
  lemma ForwardsPassValue<T>(n: Net<T>, fws: seq<PromiseId>, v: Payload<T>)
    requires WellFormed(n)
    requires forall f :: f in fws ==> f in n.cells
    ensures var m := AfterForwards(n, fws, v);
      forall i :: 0 <= i < |fws| && PendingAtTurn(n, fws, v, i) ==>
        fws[i] in m.cells && m.cells[fws[i]].result == Some(v)
  {
    forall i | 0 <= i < |fws| && PendingAtTurn(n, fws, v, i)
      ensures fws[i] in AfterForwards(n, fws, v).cells && AfterForwards(n, fws, v).cells[fws[i]].result == Some(v)
    {
      PassValueAt(n, fws, v, i);
    }
  }

  /**
   * Once the forward loop has run, every target in it holds a result, and
   * every target still pending at its turn holds the argument passed on.
   */
  lemma {:induction false} ForwardsSettle<T>(n: Net<T>, fws: seq<PromiseId>, v: Payload<T>)
    requires WellFormed(n)
    requires forall f :: f in fws ==> f in n.cells
    ensures var m := AfterForwards(n, fws, v);
      (forall f :: f in fws ==> f in m.cells && m.cells[f].result.Some?) &&
      (forall i :: 0 <= i < |fws| && PendingAtTurn(n, fws, v, i) ==>
        fws[i] in m.cells && m.cells[fws[i]].result == Some(v))
    decreases |fws|
  {
    ForwardsPassValue(n, fws, v);
    if fws != [] {
      var k := |fws| - 1;
      var n' := AfterForwards(n, fws[..k], v);
      var m := AfterForwards(n, fws, v);
      ForwardsSettle(n, fws[..k], v);
      assert fws == fws[..k] + [fws[k]];
      forall f | f in fws
        ensures f in m.cells && m.cells[f].result.Some?
      {
        if f in fws[..k] {
          SettledKept(n', m, f);
        }
      }
    }
  }

  /**
   * The forward loop fulfils its targets in list order: each target still
   * pending at its turn records its fulfilment with the same argument.
   */
  lemma {:induction false} ForwardsInOrder<T>(n: Net<T>, fws: seq<PromiseId>, v: Payload<T>)
    requires WellFormed(n)
    requires forall f :: f in fws ==> f in n.cells
    ensures Segmented(AfterForwards(n, fws, v).trace[|n.trace|..], ForwardHeads(n, fws, v))
    decreases |fws|
  {
    var m := AfterForwards(n, fws, v);
    if fws == [] {
      assert m.trace[|n.trace|..] == [];
    } else {
      var k := |fws| - 1;
      ForwardsStep(n, fws, k, v);
      var n' := AfterForwards(n, fws[..k], v);
      ForwardsInOrder(n, fws[..k], v);
      var h: seq<Event<T>> := if PendingAtTurn(n, fws, v, k) then [Fulfilled(fws[k], v)] else [];
      if PendingAtTurn(n, fws, v, k) {
        FulfilOpens(n', fws[k], v);
        PrefixTail(n'.trace, h, m.trace);
      }
      SegmentedGrow(n.trace, n'.trace, m.trace, ForwardHeads(n, fws[..k], v), h);
    }
  }

  /** The callback loop of `fulfill` only appends to the promise's own forwards. */
  lemma CallbacksKeepForwards<T>(n: Net<T>, p: PromiseId, v: Payload<T>)
    requires WellFormed(n) && p in n.cells && n.cells[p].result.None?
    ensures n.cells[p].forwards <= AfterCallbacks(n, p, v).cells[p].forwards
  {
    var n1 := Net(n.cells[p := n.cells[p].(result := Some(v))], n.trace + [Fulfilled(p, v)], n.next);
    StoreStep(n, p, v);
    assert CellOk(n, p);
    assert CellGrows(n1, AfterCallbacks(n, p, v), p);
  }

  /**
   * The order of a successful `fulfill`: the result is stored; then every
   * callback runs once, in registration order; then come the forward
   * targets, the list as the callbacks left it, which begins with the list
   * as it was: one stretch of trace per target, in list order, and a
   * target still pending at its turn opens its stretch with its own
   * fulfilment by the same argument.
   */
  lemma FulfilInOrder<T>(n: Net<T>, p: PromiseId, v: Payload<T>)
    requires WellFormed(n) && p in n.cells && n.cells[p].result.None?
    ensures var a := AfterCallbacks(n, p, v); var m := AfterFulfil(n, p, v).0;
      n.trace + [Fulfilled(p, v)] <= a.trace <= m.trace &&
      Segmented(a.trace[|n.trace| + 1..], Openings(n.cells[p].callbacks, v)) &&
      n.cells[p].forwards <= a.cells[p].forwards &&
      Segmented(m.trace[|a.trace|..], ForwardHeads(a, a.cells[p].forwards, v))
  {
    var n1 := Net(n.cells[p := n.cells[p].(result := Some(v))], n.trace + [Fulfilled(p, v)], n.next);
    StoreStep(n, p, v);
    assert CellOk(n, p);
    DeliveriesInOrder(n1, n.cells[p].callbacks, v);
    var a := AfterCallbacks(n, p, v);
    assert CellGrows(n1, a, p);
    assert CellOk(a, p);
    ForwardsInOrder(a, a.cells[p].forwards, v);
  }

  /**
   * What a successful `fulfill` settles: the derived promise of every
   * `Settle` callback and every forward target holds a result afterwards,
   * and every target still pending at its turn holds the argument passed on.
   */
  lemma FulfilSettles<T>(n: Net<T>, p: PromiseId, v: Payload<T>)
    requires WellFormed(n) && p in n.cells && n.cells[p].result.None?
    ensures var a := AfterCallbacks(n, p, v); var m := AfterFulfil(n, p, v).0;
      (forall cb :: cb in n.cells[p].callbacks && cb.Settle? ==>
        cb.derived in m.cells && m.cells[cb.derived].result.Some?) &&
      (forall f :: f in a.cells[p].forwards ==> f in m.cells && m.cells[f].result.Some?) &&
      (forall i :: 0 <= i < |a.cells[p].forwards| && PendingAtTurn(a, a.cells[p].forwards, v, i) ==>
        a.cells[p].forwards[i] in m.cells && m.cells[a.cells[p].forwards[i]].result == Some(v))
  {
    CallbacksSettle(n, p, v);
    ForwardTargetsSettle(n, p, v);
  }

  /** The callback half of `FulfilSettles`. */
  lemma CallbacksSettle<T>(n: Net<T>, p: PromiseId, v: Payload<T>)
    requires WellFormed(n) && p in n.cells && n.cells[p].result.None?
    ensures var m := AfterFulfil(n, p, v).0;
      forall cb :: cb in n.cells[p].callbacks && cb.Settle? ==>
        cb.derived in m.cells && m.cells[cb.derived].result.Some?
  {
    var n1 := Net(n.cells[p := n.cells[p].(result := Some(v))], n.trace + [Fulfilled(p, v)], n.next);
    StoreStep(n, p, v);
    assert CellOk(n, p);
    DeliveriesSettle(n1, n.cells[p].callbacks, v);
    var a := AfterCallbacks(n, p, v);
    assert CellOk(a, p);
    var b := AfterForwards(a, a.cells[p].forwards, v);
    var m := AfterFulfil(n, p, v).0;
    assert m == b.(cells := b.cells[p := b.cells[p].(callbacks := [], forwards := [])]);
    forall cb | cb in n.cells[p].callbacks && cb.Settle?
      ensures cb.derived in m.cells && m.cells[cb.derived].result.Some?
    {
      SettledKept(a, b, cb.derived);
    }
  }

  /** The forward half of `FulfilSettles`. */
  lemma ForwardTargetsSettle<T>(n: Net<T>, p: PromiseId, v: Payload<T>)
    requires WellFormed(n) && p in n.cells && n.cells[p].result.None?
    ensures var a := AfterCallbacks(n, p, v); var m := AfterFulfil(n, p, v).0;
      (forall f :: f in a.cells[p].forwards ==> f in m.cells && m.cells[f].result.Some?) &&
      (forall i :: 0 <= i < |a.cells[p].forwards| && PendingAtTurn(a, a.cells[p].forwards, v, i) ==>
        a.cells[p].forwards[i] in m.cells && m.cells[a.cells[p].forwards[i]].result == Some(v))
  {
    var a := AfterCallbacks(n, p, v);
    assert CellOk(a, p);
    var b := AfterForwards(a, a.cells[p].forwards, v);
    ForwardsSettle(a, a.cells[p].forwards, v);
    var m := AfterFulfil(n, p, v).0;
    assert m == b.(cells := b.cells[p := b.cells[p].(callbacks := [], forwards := [])]);
  }

  /** A promise whose only dependent is one pending forward target passes its value on. */
  lemma SoleForward<T>(n: Net<T>, p: PromiseId, f: PromiseId, v: Payload<T>)
    requires WellFormed(n) && p in n.cells && f in n.cells && p != f
    requires n.cells[p] == Cell(None, [], [f]) && n.cells[f].result.None?
    ensures AfterFulfil(n, p, v).0.cells[f].result == Some(v)
  {
    var n1 := Net(n.cells[p := n.cells[p].(result := Some(v))], n.trace + [Fulfilled(p, v)], n.next);
    StoreStep(n, p, v);
    assert AfterDeliveries(n1, [], v) == n1;
    var a := AfterCallbacks(n, p, v);
    assert a == n1;
    assert [f][..0] == [];
    assert AfterForwards(a, [], v) == a;
    var b := AfterForwards(a, [f], v);
    assert b == AfterFulfil(a, f, v).0;
  }

  // Building a registry: a new promise, a forward, a callback.

  /** `Promise<T> q;`: a fresh pending promise with no callbacks and no forwards. */
  ghost function WithPromise<T>(n: Net<T>): (m: Net<T>)
    requires WellFormed(n)
    ensures WellFormed(m) && n.next !in n.cells && m.next == n.next + 1 && m.trace == n.trace
    ensures m.cells == n.cells[n.next := Cell(None, [], [])]
  {
    WithPromiseOk(n);
    Net(n.cells[n.next := Cell(None, [], [])], n.trace, n.next + 1)
  }

  lemma WithPromiseOk<T>(n: Net<T>)
    requires WellFormed(n)
    ensures n.next !in n.cells
    ensures var m := Net(n.cells[n.next := Cell(None, [], [])], n.trace, n.next + 1);
      WellFormed(m) && m.cells.Keys == n.cells.Keys + {n.next}
  {
    var m := Net(n.cells[n.next := Cell(None, [], [])], n.trace, n.next + 1);
    forall q | q in n.cells
      ensures q < n.next
    {
      assert CellOk(n, q);
    }
    forall q | q in m.cells
      ensures CellOk(m, q)
    {
      if q != n.next {
        assert CellOk(n, q);
        forall cb | cb in m.cells[q].callbacks
          ensures CallbackOk(m.cells, cb)
        {
          assert CallbackOk(n.cells, cb);
        }
      }
    }
  }

  /** `forward`: appends one target to the forward list of `p`; nothing else changes. */
  ghost function WithForward<T>(n: Net<T>, p: PromiseId, f: PromiseId): (m: Net<T>)
    requires WellFormed(n) && p in n.cells && f in n.cells
    ensures WellFormed(m) && m.trace == n.trace && m.next == n.next
    ensures m.cells == n.cells[p := n.cells[p].(forwards := n.cells[p].forwards + [f])]
  {
    ChainStep(n, p, f);
    n.(cells := n.cells[p := n.cells[p].(forwards := n.cells[p].forwards + [f])])
  }

  /** Registering a callback: appends it to `p`; no callback is removed and nothing else changes. */
  ghost function WithCallback<T>(n: Net<T>, p: PromiseId, cb: Callback): (m: Net<T>)
    requires WellFormed(n) && p in n.cells && CallbackOk(n.cells, cb)
    ensures WellFormed(m) && m.trace == n.trace && m.next == n.next
    ensures m.cells == n.cells[p := n.cells[p].(callbacks := n.cells[p].callbacks + [cb])]
  {
    WithCallbackOk(n, p, cb);
    n.(cells := n.cells[p := n.cells[p].(callbacks := n.cells[p].callbacks + [cb])])
  }

  lemma WithCallbackOk<T>(n: Net<T>, p: PromiseId, cb: Callback)
    requires WellFormed(n) && p in n.cells && CallbackOk(n.cells, cb)
    ensures WellFormed(n.(cells := n.cells[p := n.cells[p].(callbacks := n.cells[p].callbacks + [cb])]))
  {
    var m := n.(cells := n.cells[p := n.cells[p].(callbacks := n.cells[p].callbacks + [cb])]);
    forall q | q in m.cells
      ensures CellOk(m, q)
    {
      assert CellOk(n, q);
      forall c | c in m.cells[q].callbacks
        ensures CallbackOk(m.cells, c)
      {
        if c != cb || q != p {
          assert CallbackOk(n.cells, c);
        }
      }
    }
  }

  /** A forward added to a promise that already holds a result never fires. */
  lemma LateForwardNeverFires<T>(n: Net<T>, p: PromiseId, f: PromiseId, v: Payload<T>)
    requires WellFormed(n) && p in n.cells && f in n.cells && n.cells[p].result.Some?
    ensures var n' := WithForward(n, p, f);
      AfterFulfil(n', p, v) == (n', false) && f in n'.cells[p].forwards
  {
  }

  /**
   * `then` with a callback returning nothing. On a fulfilled promise the
   * callback runs at once with the stored result and the returned promise
   * is fulfilled right after; on a pending promise the callback is
   * registered and the returned promise is fresh and pending.
   */
  ghost function AfterThenSettle<T>(n: Net<T>, p: PromiseId, c: CallbackId): (r: (Net<T>, PromiseId))
    requires WellFormed(n) && p in n.cells
    ensures WellFormed(r.0) && r.1 == n.next && n.next !in n.cells && r.0.next == n.next + 1
    ensures r.1 in r.0.cells && r.0.cells.Keys == n.cells.Keys + {r.1}
    ensures n.cells[p].result.Some? ==>
      r.0.cells == n.cells[r.1 := Cell(Some(Unit), [], [])] &&
      r.0.trace == n.trace + [Invoked(c, n.cells[p].result.value), Fulfilled(r.1, Unit)]
    ensures n.cells[p].result.None? ==>
      r.0.cells == n.cells[r.1 := Cell(None, [], [])][p := n.cells[p].(callbacks := n.cells[p].callbacks + [Settle(c, r.1)])] &&
      r.0.trace == n.trace
  {
    var n1 := WithPromise(n);
    var d := n.next;
    match n.cells[p].result
    case Some(w) =>
      var n2 := n1.(trace := n1.trace + [Invoked(c, w)]);
      TraceStep(n1, Invoked(c, w));
      var n3 := Net(n2.cells[d := n2.cells[d].(result := Some(Unit))], n2.trace + [Fulfilled(d, Unit)], n2.next);
      StoreStep(n2, d, Unit);
      assert AfterCallbacks(n2, d, Unit) == n3;
      assert AfterForwards(n3, [], Unit) == n3;
      var m := AfterFulfil(n2, d, Unit).0;
      assert m.cells == n3.cells;
      (m, d)
    case None =>
      (WithCallback(n1, p, Settle(c, d)), d)
  }

  /**
   * `then` with a callback returning a promise, which is `r` on every
   * call. On a fulfilled promise the callback runs at once and its promise
   * is what `then` returns; on a pending promise the callback is registered
   * and a fresh pending promise is returned, which `r` will forward to once
   * the callback has run.
   */
  ghost function AfterThenChain<T>(n: Net<T>, p: PromiseId, c: CallbackId, r: PromiseId): (res: (Net<T>, PromiseId))
    requires WellFormed(n) && p in n.cells && r in n.cells
    ensures WellFormed(res.0) && res.1 in res.0.cells
    ensures n.cells[p].result.Some? ==>
      res.1 == r && res.0 == n.(trace := n.trace + [Invoked(c, n.cells[p].result.value)])
    ensures n.cells[p].result.None? ==>
      res.1 == n.next && n.next !in n.cells && res.0.next == n.next + 1 &&
      res.0.cells == n.cells[res.1 := Cell(None, [], [])][p := n.cells[p].(callbacks := n.cells[p].callbacks + [Chain(c, r, res.1)])] &&
      res.0.trace == n.trace
  {
    match n.cells[p].result
    case Some(w) =>
      TraceStep(n, Invoked(c, w));
      (n.(trace := n.trace + [Invoked(c, w)]), r)
    case None =>
      var n1 := WithPromise(n);
      (WithCallback(n1, p, Chain(c, r, n.next)), n.next)
  }

  /** The promise `then` returns for a pending promise is fulfilled when that promise is. */
  lemma ThenSettleFollows<T>(n: Net<T>, p: PromiseId, c: CallbackId, v: Payload<T>)
    requires WellFormed(n) && p in n.cells && n.cells[p].result.None?
    ensures var (n', d) := AfterThenSettle(n, p, c);
      n'.cells[d].result.None? && AfterFulfil(n', p, v).0.cells[d].result.Some?
  {
    var (n', d) := AfterThenSettle(n, p, c);
    FulfilSettles(n', p, v);
    assert Settle(c, d) in n'.cells[p].callbacks;
  }

  /**
   * Once its source is fulfilled, the promise `then` returned counts as
   * fulfilled too: a later `then` on it runs its callback at once, and a
   * second `fulfill` of it is refused.
   */
  lemma ThenOnDerivedRuns<T>(n: Net<T>, p: PromiseId, f: CallbackId, g: CallbackId, v: Payload<T>, w: Payload<T>)
    requires WellFormed(n) && p in n.cells && n.cells[p].result.None?
    ensures var (n1, q) := AfterThenSettle(n, p, f); var m := AfterFulfil(n1, p, v).0;
      q in m.cells && m.cells[q].result.Some? &&
      AfterThenSettle(m, q, g).0.trace[..|m.trace| + 1] == m.trace + [Invoked(g, m.cells[q].result.value)] &&
      AfterFulfil(m, q, w) == (m, false)
  {
    ThenSettleFollows(n, p, f, v);
  }

  /**
   * With a promise-returning callback, the promise `then` returns takes the
   * value of the promise the callback returned: fulfilling the source makes
   * `r` forward to it, and fulfilling `r` then fulfils it with `r`'s value.
   */
  lemma ThenChainFollows<T>(n: Net<T>, p: PromiseId, c: CallbackId, r: PromiseId, v: Payload<T>, w: Payload<T>)
    requires WellFormed(n) && p in n.cells && r in n.cells && p != r
    requires n.cells[p] == Cell(None, [], []) && n.cells[r] == Cell(None, [], [])
    ensures var (n1, d) := AfterThenChain(n, p, c, r); var m1 := AfterFulfil(n1, p, v).0;
      m1.cells[d].result.None? && m1.cells[r] == Cell(None, [], [d]) &&
      AfterFulfil(m1, r, w).0.cells[d].result == Some(w)
  {
    var (n1, d) := AfterThenChain(n, p, c, r);
    var cb := Chain(c, r, d);
    assert n1.cells[p] == Cell(None, [cb], []);
    var s1 := Net(n1.cells[p := n1.cells[p].(result := Some(v))], n1.trace + [Fulfilled(p, v)], n1.next);
    StoreStep(n1, p, v);
    assert [cb][..0] == [];
    var t1 := s1.(trace := s1.trace + [Invoked(c, v)]);
    var a := t1.(cells := t1.cells[r := t1.cells[r].(forwards := t1.cells[r].forwards + [d])]);
    assert AfterDelivery(s1, cb, v) == a;
    assert AfterDeliveries(s1, [cb], v) == a;
    assert AfterCallbacks(n1, p, v) == a;
    assert a.cells[p].forwards == [];
    assert AfterForwards(a, [], v) == a;
    var m1 := AfterFulfil(n1, p, v).0;
    assert m1.cells[r] == Cell(None, [], [d]) && m1.cells[d] == Cell(None, [], []);
    assert CellOk(m1, d);
    SoleForward(m1, r, d, w);
  }

  /**
   * When the callback returns a promise that already holds a result, the
   * promise `then` returned is parked in that promise's forwards, which
   * no later `fulfill` runs: it stays pending.
   */
  lemma ThenChainOnSettledStalls<T>(n: Net<T>, p: PromiseId, c: CallbackId, r: PromiseId, v: Payload<T>, w: Payload<T>)
    requires WellFormed(n) && p in n.cells && r in n.cells
    requires n.cells[p] == Cell(None, [], []) && n.cells[r].result.Some?
    ensures var (n1, d) := AfterThenChain(n, p, c, r); var m1 := AfterFulfil(n1, p, v).0;
      m1.cells[d].result.None? && d in m1.cells[r].forwards && AfterFulfil(m1, r, w) == (m1, false)
  {
    var (n1, d) := AfterThenChain(n, p, c, r);
    var cb := Chain(c, r, d);
    assert n1.cells[p] == Cell(None, [cb], []);
    var s1 := Net(n1.cells[p := n1.cells[p].(result := Some(v))], n1.trace + [Fulfilled(p, v)], n1.next);
    StoreStep(n1, p, v);
    assert [cb][..0] == [];
    var t1 := s1.(trace := s1.trace + [Invoked(c, v)]);
    var a := t1.(cells := t1.cells[r := t1.cells[r].(forwards := t1.cells[r].forwards + [d])]);
    assert AfterDelivery(s1, cb, v) == a;
    assert AfterDeliveries(s1, [cb], v) == a;
    assert AfterCallbacks(n1, p, v) == a;
    assert a.cells[p].forwards == [];
    assert AfterForwards(a, [], v) == a;
    var m1 := AfterFulfil(n1, p, v).0;
    assert m1.cells[r] == a.cells[r] && m1.cells[d] == Cell(None, [], []);
  }

  /** Running a `Chain(c, r, d)` closure appends `d` to the forwards of `r`. */
  lemma ChainDeliveryAppends<T>(n: Net<T>, c: CallbackId, r: PromiseId, d: PromiseId, v: Payload<T>)
    requires WellFormed(n) && CallbackOk(n.cells, Chain(c, r, d))
    ensures r in n.cells && AfterDelivery(n, Chain(c, r, d), v).cells[r].forwards == n.cells[r].forwards + [d]
  {
  }

  /** After a list of deliveries holding `Chain(c, r, d)`, `d` is a forward of `r` while `r` is pending. */
  lemma ChainInDeliveries<T>(n: Net<T>, cbs: seq<Callback>, c: CallbackId, r: PromiseId, d: PromiseId, v: Payload<T>)
    requires WellFormed(n) && Chain(c, r, d) in cbs
    requires forall cb :: cb in cbs ==> CallbackOk(n.cells, cb)
    ensures var a := AfterDeliveries(n, cbs, v);
      r in a.cells && (a.cells[r].result.None? ==> d in a.cells[r].forwards)
  {
    var i :| 0 <= i < |cbs| && cbs[i] == Chain(c, r, d);
    DeliveriesStep(n, cbs, i, v);
    var x' := AfterDeliveries(n, cbs[..i], v);
    ChainDeliveryAppends(x', c, r, d, v);
    var x := AfterDeliveries(n, cbs[..i + 1], v);
    assert x.cells[r].forwards[|x'.cells[r].forwards|] == d;
    DeliveriesPrefixGrows(n, cbs, i + 1, v);
    var a := AfterDeliveries(n, cbs, v);
    assert CellGrows(x, a, r);
    if a.cells[r].result.None? {
      assert x.cells[r].forwards <= a.cells[r].forwards;
      assert a.cells[r].forwards[|x'.cells[r].forwards|] == d;
    }
  }

  /**
   * A `Chain(c, r, d)` callback of `p` has, once the callback loop of
   * `fulfill` has run, appended `d` to the forwards of `r`, where it stays
   * while `r` is pending.
   */
  lemma ChainDelivered<T>(n: Net<T>, p: PromiseId, c: CallbackId, r: PromiseId, d: PromiseId, v: Payload<T>)
    requires WellFormed(n) && p in n.cells && n.cells[p].result.None?
    requires Chain(c, r, d) in n.cells[p].callbacks
    ensures var a := AfterCallbacks(n, p, v);
      r in a.cells && (a.cells[r].result.None? ==> d in a.cells[r].forwards)
  {
    var n1 := Net(n.cells[p := n.cells[p].(result := Some(v))], n.trace + [Fulfilled(p, v)], n.next);
    StoreStep(n, p, v);
    assert CellOk(n, p);
    ChainInDeliveries(n1, n.cells[p].callbacks, c, r, d, v);
  }

  /**
   * A `Chain(c, r, d)` callback of `p` leaves `d` among the forwards of
   * `r` once `p` is fulfilled, unless `r` holds a result by then.
   */
  lemma ChainReachesForwardList<T>(n: Net<T>, p: PromiseId, c: CallbackId, r: PromiseId, d: PromiseId, v: Payload<T>)
    requires WellFormed(n) && p in n.cells && n.cells[p].result.None?
    requires Chain(c, r, d) in n.cells[p].callbacks
    ensures var m := AfterFulfil(n, p, v).0;
      r in m.cells && (m.cells[r].result.None? ==> d in m.cells[r].forwards)
  {
    ChainDelivered(n, p, c, r, d, v);
    var a := AfterCallbacks(n, p, v);
    assert CellOk(a, p);
    var b := AfterForwards(a, a.cells[p].forwards, v);
    assert CellGrows(a, b, r);
    var m := AfterFulfil(n, p, v).0;
    assert m == b.(cells := b.cells[p := b.cells[p].(callbacks := [], forwards := [])]);
  }

  /**
   * `then` with a promise-returning callback on a pending promise: once
   * the source is fulfilled, the returned promise is a forward target of
   * `r` whenever `r` is still pending, and fulfilling `r` settles it.
   */
  lemma ThenChainReaches<T>(n: Net<T>, p: PromiseId, c: CallbackId, r: PromiseId, v: Payload<T>, w: Payload<T>)
    requires WellFormed(n) && p in n.cells && r in n.cells && n.cells[p].result.None?
    ensures var (n1, d) := AfterThenChain(n, p, c, r); var m1 := AfterFulfil(n1, p, v).0;
      r in m1.cells && d in m1.cells &&
      (m1.cells[r].result.None? ==>
        d in m1.cells[r].forwards && AfterFulfil(m1, r, w).0.cells[d].result.Some?)
  {
    var (n1, d) := AfterThenChain(n, p, c, r);
    assert Chain(c, r, d) in n1.cells[p].callbacks;
    ChainReachesForwardList(n1, p, c, r, d, v);
    var m1 := AfterFulfil(n1, p, v).0;
    assert CellGrows(n1, m1, d);
    if m1.cells[r].result.None? {
      CallbacksKeepForwards(m1, r, w);
      ForwardTargetsSettle(m1, r, w);
    }
  }

  /**
   * The promises of a program. Every copy of a promise is an id into
   * `cells`, so all copies share one result and one pair of lists.
   */
  class Promises<T> {
    var cells: map<PromiseId, Cell<T>>
    var trace: seq<Event<T>>
    var next: PromiseId

    function State(): Net<T>
      reads this
    {
      Net(cells, trace, next)
    }

    ghost predicate Valid()
      reads this
    {
      WellFormed(State())
    }

    constructor ()
      ensures Valid() && cells == map[] && trace == []
    {
      cells := map[];
      trace := [];
      next := 0;
    }

    /** `Promise<T> q;`: a fresh pending promise. */
    method NewPromise() returns (q: PromiseId)
      requires Valid()
      modifies this
      ensures Valid() && q == old(next) && q !in old(cells)
      ensures State() == WithPromise(old(State()))
    {
      WithPromiseOk(State());
      q := next;
      cells := cells[q := Cell(None, [], [])];
      next := next + 1;
    }

    method Forward(p: PromiseId, f: PromiseId)
      requires Valid() && p in cells && f in cells
      modifies this
      ensures Valid() && State() == WithForward(old(State()), p, f)
    {
      ChainStep(State(), p, f);
      cells := cells[p := cells[p].(forwards := cells[p].forwards + [f])];
    }

    /** `fulfill`: false when a result is already stored; otherwise the whole cascade, then true. */
    method Fulfill(p: PromiseId, v: Payload<T>) returns (ok: bool)
      requires Valid() && p in cells
      modifies this
      ensures Valid() && State() == AfterFulfil(old(State()), p, v).0
      ensures ok == AfterFulfil(old(State()), p, v).1
      decreases Pending(cells), 1
    {
      if cells[p].result.Some? {
        return false;
      }
      ghost var n := State();
      RunCallbacks(p, v);
      ghost var a := State();
      assert CellOk(a, p);
      FulfilForwards(cells[p].forwards, v);
      ghost var b := State();
      GrowsTrans(n, a, b);
      SettledKept(a, b, p);
      ClearStep(n, b, p);
      cells := cells[p := cells[p].(callbacks := [], forwards := [])];
      ok := true;
    }

    /** The first half of `fulfill`: the result is stored and every callback runs, in order. */
    method RunCallbacks(p: PromiseId, v: Payload<T>)
      requires Valid() && p in cells && cells[p].result.None?
      modifies this
      ensures Valid() && State() == AfterCallbacks(old(State()), p, v)
      decreases Pending(cells), 0
    {
      ghost var n := State();
      assert CellOk(n, p);
      var cbs := cells[p].callbacks;
      StoreStep(n, p, v);
      cells := cells[p := cells[p].(result := Some(v))];
      trace := trace + [Fulfilled(p, v)];
      ghost var n1 := State();
      forall cb | cb in cbs
        ensures CallbackOk(n1.cells, cb)
      {
        assert CallbackOk(n.cells, cb);
      }
      var i := 0;
      while i < |cbs|
        invariant 0 <= i <= |cbs|
        invariant State() == AfterDeliveries(n1, cbs[..i], v)
      {
        DeliveriesStep(n1, cbs, i, v);
        Deliver(cbs[i], v);
        i := i + 1;
      }
      assert cbs[..|cbs|] == cbs;
    }

    /**
     * The closure that `then` registered: the user callback, then either
     * the fulfilment of the derived promise or the forward from the
     * promise the callback returned.
     */
    method Deliver(cb: Callback, v: Payload<T>)
      requires Valid() && CallbackOk(cells, cb)
      modifies this
      ensures Valid() && State() == AfterDelivery(old(State()), cb, v)
      decreases Pending(cells), 2
    {
      TraceStep(State(), Invoked(cb.cb, v));
      trace := trace + [Invoked(cb.cb, v)];
      match cb {
        case Settle(_, d) =>
          var _ := Fulfill(d, Unit);
        case Chain(_, r, d) =>
          ChainStep(State(), r, d);
          cells := cells[r := cells[r].(forwards := cells[r].forwards + [d])];
      }
    }

    /** The second half of `fulfill`: every forward target, in list order. */
    method FulfilForwards(fws: seq<PromiseId>, v: Payload<T>)
      requires Valid() && forall f :: f in fws ==> f in cells
      modifies this
      ensures Valid() && State() == AfterForwards(old(State()), fws, v)
      decreases Pending(cells), 3
    {
      ghost var a := State();
      var i := 0;
      while i < |fws|
        invariant 0 <= i <= |fws|
        invariant State() == AfterForwards(a, fws[..i], v)
        invariant Pending(cells) <= Pending(a.cells)
      {
        FulfilTurn(a, fws, i, v);
        i := i + 1;
      }
      assert fws[..|fws|] == fws;
    }

    /** One turn of the forward loop: `fws[i].fulfill(v)`. */
    method FulfilTurn(ghost a: Net<T>, fws: seq<PromiseId>, i: nat, v: Payload<T>)
      requires WellFormed(a) && i < |fws| && forall f :: f in fws ==> f in a.cells
      requires forall f :: f in fws[..i] ==> f in a.cells
      requires Valid() && State() == AfterForwards(a, fws[..i], v) && Pending(cells) <= Pending(a.cells)
      modifies this
      ensures forall f :: f in fws[..i + 1] ==> f in a.cells
      ensures Valid() && State() == AfterForwards(a, fws[..i + 1], v) && Pending(cells) <= Pending(a.cells)
      decreases Pending(cells), 2
    {
      ForwardsStep(a, fws, i, v);
      var _ := Fulfill(fws[i], v);
    }

    /** `then` with a callback returning nothing. */
    method ThenSettle(p: PromiseId, c: CallbackId) returns (d: PromiseId)
      requires Valid() && p in cells
      modifies this
      ensures Valid() && (State(), d) == AfterThenSettle(old(State()), p, c)
    {
      d := NewPromise();
      if cells[p].result.Some? {
        TraceStep(State(), Invoked(c, cells[p].result.value));
        trace := trace + [Invoked(c, cells[p].result.value)];
        var _ := Fulfill(d, Unit);
      } else {
        WithCallbackOk(State(), p, Settle(c, d));
        cells := cells[p := cells[p].(callbacks := cells[p].callbacks + [Settle(c, d)])];
      }
    }

    /** `then` with a callback returning a promise, which is `r` on every call. */
    method ThenChain(p: PromiseId, c: CallbackId, r: PromiseId) returns (d: PromiseId)
      requires Valid() && p in cells && r in cells
      modifies this
      ensures Valid() && (State(), d) == AfterThenChain(old(State()), p, c, r)
    {
      if cells[p].result.Some? {
        TraceStep(State(), Invoked(c, cells[p].result.value));
        trace := trace + [Invoked(c, cells[p].result.value)];
        d := r;
      } else {
        d := NewPromise();
        WithCallbackOk(State(), p, Chain(c, r, d));
        cells := cells[p := cells[p].(callbacks := cells[p].callbacks + [Chain(c, r, d)])];
      }
    }
  }
}
