/**
 * Push-based event streams (`Stream<T>` and `Stream<void>`).
 *
 * Every stream owns a list of callbacks and a list of forward targets.
 * `push` runs all callbacks, in registration order, and then pushes the
 * same argument to every forward target. `on` registers a callback and
 * returns a fresh derived stream that the callback feeds.
 *
 * The streams of one program form a registry: a map from stream ids to
 * cells. A push is recorded in a trace of events, so the order of what
 * happens can be stated. A user callback is opaque; it stands for a
 * token, and what the wrapping closure built by `on` does after it is
 * modelled explicitly:
 *  - `Notify(cb, derived)`: `on` with a callback returning nothing; after
 *    the callback the derived stream is pushed (with no argument);
 *  - `Chain(cb, returned, derived)`: `on` with a callback returning a
 *    stream; that stream (`returned`, fixed when the callback is
 *    registered) is told to forward to the derived stream.
 *
 * Push cascades through derived and forwarded streams. To make the cascade
 * finite, each stream carries an integer rank, and every stream that a push
 * can reach directly has a lower rank than its source.
 */
module Stream {
  import opened Signals

  type StreamId = nat

  datatype Callback =
    | Notify(cb: CallbackId, derived: StreamId)
    | Chain(cb: CallbackId, returned: StreamId, derived: StreamId)

  datatype Cell = Cell(callbacks: seq<Callback>, forwards: seq<StreamId>, rank: int)

  datatype Event<T> =
    | Received(stream: StreamId, arg: Payload<T>)   // a push reached this stream
    | Invoked(cb: CallbackId, arg: Payload<T>)      // a user callback ran

  /** All streams, the trace so far, a lower bound on ranks and the next fresh id. */
  datatype Net<T> = Net(cells: map<StreamId, Cell>, trace: seq<Event<T>>, floor: int, next: StreamId)

  /** What a push to a stream of rank `bound` may do through `cb`. */
  ghost predicate CallbackOk(cells: map<StreamId, Cell>, cb: Callback, bound: int)
  {
    match cb
    case Notify(_, d) => d in cells && cells[d].rank < bound
    case Chain(_, r, d) => r in cells && d in cells && cells[d].rank < cells[r].rank
  }

  /**
   * Stream `s` exists, its id was handed out, its rank is at least the
   * floor, and everything a push to it reaches directly has a lower rank.
   */
  ghost predicate CellOk<T>(n: Net<T>, s: StreamId)
  {
    s in n.cells && s < n.next && n.floor <= n.cells[s].rank &&
    (forall f :: f in n.cells[s].forwards ==> f in n.cells && n.cells[f].rank < n.cells[s].rank) &&
    (forall cb :: cb in n.cells[s].callbacks ==> CallbackOk(n.cells, cb, n.cells[s].rank))
  }

  // The trigger keeps the per-stream facts from being unfolded for every
  // id in scope; a proof asks for the stream it needs by naming CellOk.
  ghost predicate WellFormed<T>(n: Net<T>)
  {
    forall s {:trigger CellOk(n, s)} :: s in n.cells ==> CellOk(n, s)
  }

  /** Stream `s` kept its rank and callbacks, and its forward list was only extended. */
  ghost predicate CellGrows<T>(n: Net<T>, m: Net<T>, s: StreamId)
  {
    s in n.cells && s in m.cells &&
    m.cells[s].rank == n.cells[s].rank && m.cells[s].callbacks == n.cells[s].callbacks &&
    n.cells[s].forwards <= m.cells[s].forwards
  }

  /**
   * What a push may change: the same streams with the same ranks and
   * callbacks, forward lists only extended, the trace only extended.
   */
  ghost predicate Grows<T>(n: Net<T>, m: Net<T>)
  {
    m.floor == n.floor && m.next == n.next && m.cells.Keys == n.cells.Keys && n.trace <= m.trace &&
    forall s {:trigger CellGrows(n, m, s)} :: s in n.cells ==> CellGrows(n, m, s)
  }

  /** No stream-returning callback is registered anywhere. */
  ghost predicate NoChains(cells: map<StreamId, Cell>)
  {
    forall s, cb :: s in cells && cb in cells[s].callbacks ==> cb.Notify?
  }

  lemma GrowsTrans<T>(a: Net<T>, b: Net<T>, c: Net<T>)
    requires Grows(a, b) && Grows(b, c)
    ensures Grows(a, c)
  {
    forall s | s in a.cells
      ensures CellGrows(a, c, s)
    {
      assert CellGrows(a, b, s) && CellGrows(b, c, s);
    }
  }

  /** Appending to the trace keeps a registry well formed. */
  lemma TraceStep<T>(n: Net<T>, e: Event<T>)
    requires WellFormed(n)
    ensures var m := n.(trace := n.trace + [e]); WellFormed(m) && Grows(n, m)
  {
    var m := n.(trace := n.trace + [e]);
    forall s | s in m.cells
      ensures CellOk(m, s) && CellGrows(n, m, s)
    {
      assert CellOk(n, s);
    }
  }

  /** The effect of a stream-returning callback: `returned` now forwards to `derived`. */
  lemma ChainStep<T>(n: Net<T>, r: StreamId, d: StreamId)
    requires WellFormed(n) && r in n.cells && d in n.cells && n.cells[d].rank < n.cells[r].rank
    ensures var m := n.(cells := n.cells[r := n.cells[r].(forwards := n.cells[r].forwards + [d])]);
      WellFormed(m) && Grows(n, m)
  {
    var m := n.(cells := n.cells[r := n.cells[r].(forwards := n.cells[r].forwards + [d])]);
    forall s | s in m.cells
      ensures CellOk(m, s) && CellGrows(n, m, s)
    {
      assert CellOk(n, s);
      forall cb | cb in m.cells[s].callbacks
        ensures CallbackOk(m.cells, cb, m.cells[s].rank)
      {
        assert CallbackOk(n.cells, cb, n.cells[s].rank);
      }
    }
  }

  lemma CallbackOkGrows<T>(n: Net<T>, m: Net<T>, cb: Callback, bound: int)
    requires Grows(n, m) && CallbackOk(n.cells, cb, bound)
    ensures CallbackOk(m.cells, cb, bound)
  {
    match cb
    case Notify(_, d) =>
      assert CellGrows(n, m, d);
    case Chain(_, r, d) =>
      assert CellGrows(n, m, d) && CellGrows(n, m, r);
  }

  /** How the trace of one delivery to `cb` begins. */
  function Opening<T>(cb: Callback, v: Payload<T>): seq<Event<T>>
  {
    match cb
    case Notify(c, d) => [Invoked(c, v), Received(d, Unit)]
    case Chain(c, _, _) => [Invoked(c, v)]
  }

  // The same shape as the promise registry's `Openings`, over this module's own
  // `Callback` and `Opening`.
  function Openings<T>(cbs: seq<Callback>, v: Payload<T>): (hs: seq<seq<Event<T>>>)
    ensures |hs| == |cbs|
  {
    if cbs == [] then [] else Openings(cbs[..|cbs| - 1], v) + [Opening(cbs[|cbs| - 1], v)]
  }

  /** How the trace of pushing `v` to each of `fws` in turn begins. */
  function Arrivals<T>(fws: seq<StreamId>, v: Payload<T>): (hs: seq<seq<Event<T>>>)
    ensures |hs| == |fws|
  {
    if fws == [] then [] else Arrivals(fws[..|fws| - 1], v) + [[Received(fws[|fws| - 1], v)]]
  }

  lemma ArrivalAt<T>(fws: seq<StreamId>, v: Payload<T>, i: nat)
    requires i < |fws|
    ensures Arrivals(fws, v)[i] == [Received(fws[i], v)]
  {
    if i < |fws| - 1 {
      ArrivalAt(fws[..|fws| - 1], v, i);
    }
  }

  /** The registry after `push(v)` on stream `s`: callbacks first, then forwards. */
  ghost function AfterPush<T>(n: Net<T>, s: StreamId, v: Payload<T>): (m: Net<T>)
    requires WellFormed(n) && s in n.cells
    ensures WellFormed(m) && Grows(n, m)
    ensures NoChains(n.cells) ==> m.cells == n.cells
    ensures n.trace + [Received(s, v)] <= m.trace
    decreases n.cells[s].rank - n.floor, 3
  {
    var a := AfterCallbacks(n, s, v);
    assert CellOk(a, s) && CellGrows(n, a, s);
    var m := AfterForwards(a, a.cells[s].forwards, v, n.cells[s].rank);
    GrowsTrans(n, a, m);
    m
  }

  /** The registry once the callback loop of `push` has run every callback of `s`. */
  ghost function AfterCallbacks<T>(n: Net<T>, s: StreamId, v: Payload<T>): (m: Net<T>)
    requires WellFormed(n) && s in n.cells
    ensures WellFormed(m) && Grows(n, m)
    ensures NoChains(n.cells) ==> m.cells == n.cells
    ensures n.trace + [Received(s, v)] <= m.trace
    decreases n.cells[s].rank - n.floor, 2
  {
    var n1 := n.(trace := n.trace + [Received(s, v)]);
    TraceStep(n, Received(s, v));
    assert CellOk(n, s);
    var m := AfterDeliveries(n1, n.cells[s].callbacks, v, n.cells[s].rank);
    GrowsTrans(n, n1, m);
    m
  }

  /** Delivering `v` to each of `cbs` in turn, on behalf of a stream of rank `bound`. */
  ghost function AfterDeliveries<T>(n: Net<T>, cbs: seq<Callback>, v: Payload<T>, bound: int): (m: Net<T>)
    requires WellFormed(n)
    requires forall cb :: cb in cbs ==> CallbackOk(n.cells, cb, bound)
    ensures WellFormed(m) && Grows(n, m)
    ensures NoChains(n.cells) && (forall cb :: cb in cbs ==> cb.Notify?) ==> m.cells == n.cells
    decreases bound - n.floor, 1, |cbs|
  {
    if cbs == [] then n
    else
      var n' := AfterDeliveries(n, cbs[..|cbs| - 1], v, bound);
      CallbackOkGrows(n, n', cbs[|cbs| - 1], bound);
      var m := AfterDelivery(n', cbs[|cbs| - 1], v, bound);
      GrowsTrans(n, n', m);
      m
  }

  /** One run of the closure that `on` registered. */
  ghost function AfterDelivery<T>(n: Net<T>, cb: Callback, v: Payload<T>, bound: int): (m: Net<T>)
    requires WellFormed(n) && CallbackOk(n.cells, cb, bound)
    ensures WellFormed(m) && Grows(n, m)
    ensures NoChains(n.cells) && cb.Notify? ==> m.cells == n.cells
    decreases bound - n.floor, 0
  {
    var n1 := n.(trace := n.trace + [Invoked(cb.cb, v)]);
    TraceStep(n, Invoked(cb.cb, v));
    match cb
    case Notify(_, d) =>
      assert CellOk(n1, d);
      var m := AfterPush(n1, d, Unit);
      GrowsTrans(n, n1, m);
      m
    case Chain(_, r, d) =>
      ChainStep(n1, r, d);
      var m := n1.(cells := n1.cells[r := n1.cells[r].(forwards := n1.cells[r].forwards + [d])]);
      GrowsTrans(n, n1, m);
      m
  }

  /** Pushing `v` to each of `fws` in turn, on behalf of a stream of rank `bound`. */
  ghost function AfterForwards<T>(n: Net<T>, fws: seq<StreamId>, v: Payload<T>, bound: int): (m: Net<T>)
    requires WellFormed(n)
    requires forall f :: f in fws ==> f in n.cells && n.cells[f].rank < bound
    ensures WellFormed(m) && Grows(n, m)
    ensures NoChains(n.cells) ==> m.cells == n.cells
    decreases bound - n.floor, 1, |fws|
  {
    if fws == [] then n
    else
      var n' := AfterForwards(n, fws[..|fws| - 1], v, bound);
      assert CellOk(n', fws[|fws| - 1]) && CellGrows(n, n', fws[|fws| - 1]);
      var m := AfterPush(n', fws[|fws| - 1], v);
      GrowsTrans(n, n', m);
      m
  }

  /** One delivery starts with the callback, and for `Notify` continues with the derived push. */
  lemma DeliveryOpens<T>(n: Net<T>, cb: Callback, v: Payload<T>, bound: int)
    requires WellFormed(n) && CallbackOk(n.cells, cb, bound)
    ensures var m := AfterDelivery(n, cb, v, bound);
      n.trace <= m.trace && Opening(cb, v) <= m.trace[|n.trace|..]
  {
    var m := AfterDelivery(n, cb, v, bound);
    var n1 := n.(trace := n.trace + [Invoked(cb.cb, v)]);
    match cb
    case Notify(c, d) =>
      assert n1.trace + [Received(d, Unit)] <= m.trace;
      assert n.trace + Opening(cb, v) == n1.trace + [Received(d, Unit)];
      PrefixTail(n.trace, Opening(cb, v), m.trace);
    case Chain(c, r, d) =>
      assert m.trace == n.trace + Opening(cb, v);
      PrefixTail(n.trace, Opening(cb, v), m.trace);
  }

  /** One more delivery: what the loop over the callbacks needs for its i-th step. */
  lemma DeliveriesStep<T>(n: Net<T>, cbs: seq<Callback>, i: nat, v: Payload<T>, bound: int)
    requires WellFormed(n) && i < |cbs|
    requires forall cb :: cb in cbs ==> CallbackOk(n.cells, cb, bound)
    ensures forall cb :: cb in cbs[..i] ==> CallbackOk(n.cells, cb, bound)
    ensures forall cb :: cb in cbs[..i + 1] ==> CallbackOk(n.cells, cb, bound)
    ensures var n' := AfterDeliveries(n, cbs[..i], v, bound);
      CallbackOk(n'.cells, cbs[i], bound) && n'.floor == n.floor &&
      (cbs[i].Notify? ==> n'.floor <= n'.cells[cbs[i].derived].rank) &&
      AfterDeliveries(n, cbs[..i + 1], v, bound) == AfterDelivery(n', cbs[i], v, bound)
  {
    var n' := AfterDeliveries(n, cbs[..i], v, bound);
    assert cbs[..i + 1][..i] == cbs[..i];
    CallbackOkGrows(n, n', cbs[i], bound);
    if cbs[i].Notify? {
      assert CellOk(n', cbs[i].derived);
    }
  }

  /** One more forward: what the loop over the forward targets needs for its i-th step. */
  lemma ForwardsStep<T>(n: Net<T>, fws: seq<StreamId>, i: nat, v: Payload<T>, bound: int)
    requires WellFormed(n) && i < |fws|
    requires forall f :: f in fws ==> f in n.cells && n.cells[f].rank < bound
    ensures forall f :: f in fws[..i] ==> f in n.cells && n.cells[f].rank < bound
    ensures forall f :: f in fws[..i + 1] ==> f in n.cells && n.cells[f].rank < bound
    ensures var n' := AfterForwards(n, fws[..i], v, bound);
      fws[i] in n'.cells && n'.cells[fws[i]].rank < bound && n'.floor == n.floor &&
      n'.floor <= n'.cells[fws[i]].rank &&
      AfterForwards(n, fws[..i + 1], v, bound) == AfterPush(n', fws[i], v)
  {
    var n' := AfterForwards(n, fws[..i], v, bound);
    assert fws[..i + 1][..i] == fws[..i];
    assert CellOk(n', fws[i]) && CellGrows(n, n', fws[i]);
  }

  /** Every callback runs once per delivery loop, in registration order. */
  lemma {:induction false} DeliveriesInOrder<T>(n: Net<T>, cbs: seq<Callback>, v: Payload<T>, bound: int)
    requires WellFormed(n)
    requires forall cb :: cb in cbs ==> CallbackOk(n.cells, cb, bound)
    ensures Segmented(AfterDeliveries(n, cbs, v, bound).trace[|n.trace|..], Openings(cbs, v))
    decreases |cbs|
  {
    var m := AfterDeliveries(n, cbs, v, bound);
    if cbs == [] {
      assert m.trace[|n.trace|..] == [];
    } else {
      var n' := AfterDeliveries(n, cbs[..|cbs| - 1], v, bound);
      DeliveriesInOrder(n, cbs[..|cbs| - 1], v, bound);
      CallbackOkGrows(n, n', cbs[|cbs| - 1], bound);
      DeliveryOpens(n', cbs[|cbs| - 1], v, bound);
      SegmentedGrow(n.trace, n'.trace, m.trace, Openings(cbs[..|cbs| - 1], v), Opening(cbs[|cbs| - 1], v));
    }
  }

  /** Every forward target receives the push once, in list order. */
  lemma {:induction false} ForwardsInOrder<T>(n: Net<T>, fws: seq<StreamId>, v: Payload<T>, bound: int)
    requires WellFormed(n)
    requires forall f :: f in fws ==> f in n.cells && n.cells[f].rank < bound
    ensures Segmented(AfterForwards(n, fws, v, bound).trace[|n.trace|..], Arrivals(fws, v))
    decreases |fws|
  {
    var m := AfterForwards(n, fws, v, bound);
    if fws == [] {
      assert m.trace[|n.trace|..] == [];
    } else {
      var n' := AfterForwards(n, fws[..|fws| - 1], v, bound);
      ForwardsInOrder(n, fws[..|fws| - 1], v, bound);
      PrefixTail(n'.trace, [Received(fws[|fws| - 1], v)], m.trace);
      SegmentedGrow(n.trace, n'.trace, m.trace, Arrivals(fws[..|fws| - 1], v), [Received(fws[|fws| - 1], v)]);
    }
  }

  lemma OpeningAt<T>(cbs: seq<Callback>, v: Payload<T>, i: nat)
    requires i < |cbs|
    ensures Openings(cbs, v)[i] == Opening(cbs[i], v)
  {
    if i < |cbs| - 1 {
      OpeningAt(cbs[..|cbs| - 1], v, i);
    }
  }

  /**
   * The order of one push: the stream records it; then every callback
   * runs once, in registration order; then every forward target receives
   * the same argument, in list order. The forward list walked is the one
   * the callbacks left behind, which begins with the list as it was.
   */
  lemma PushInOrder<T>(n: Net<T>, s: StreamId, v: Payload<T>)
    requires WellFormed(n) && s in n.cells
    ensures var a := AfterCallbacks(n, s, v); var m := AfterPush(n, s, v);
      n.trace + [Received(s, v)] <= a.trace <= m.trace &&
      Segmented(a.trace[|n.trace| + 1..], Openings(n.cells[s].callbacks, v)) &&
      n.cells[s].forwards <= a.cells[s].forwards &&
      Segmented(m.trace[|a.trace|..], Arrivals(a.cells[s].forwards, v))
  {
    var n1 := n.(trace := n.trace + [Received(s, v)]);
    TraceStep(n, Received(s, v));
    assert CellOk(n, s);
    DeliveriesInOrder(n1, n.cells[s].callbacks, v, n.cells[s].rank);
    var a := AfterCallbacks(n, s, v);
    assert CellOk(a, s) && CellGrows(n, a, s);
    ForwardsInOrder(a, a.cells[s].forwards, v, n.cells[s].rank);
  }

  // Building a registry: a new stream, a forward, a callback.

  /** `Stream<T> s;`: a fresh stream with no callbacks and no forwards. */
  ghost function WithStream<T>(n: Net<T>, rank: int): (m: Net<T>)
    requires WellFormed(n)
    ensures WellFormed(m) && n.next !in n.cells && m.next == n.next + 1 && m.trace == n.trace
    ensures m.cells == n.cells[n.next := Cell([], [], rank)]
  {
    WithStreamOk(n, rank);
    Net(n.cells[n.next := Cell([], [], rank)], n.trace, if rank < n.floor then rank else n.floor, n.next + 1)
  }

  lemma WithStreamOk<T>(n: Net<T>, rank: int)
    requires WellFormed(n)
    ensures n.next !in n.cells
    ensures WellFormed(Net(n.cells[n.next := Cell([], [], rank)], n.trace, if rank < n.floor then rank else n.floor, n.next + 1))
  {
    var m := Net(n.cells[n.next := Cell([], [], rank)], n.trace, if rank < n.floor then rank else n.floor, n.next + 1);
    forall t | t in n.cells
      ensures t < n.next
    {
      assert CellOk(n, t);
    }
    forall t | t in m.cells
      ensures CellOk(m, t)
    {
      if t != n.next {
        assert CellOk(n, t);
        forall cb | cb in m.cells[t].callbacks
          ensures CallbackOk(m.cells, cb, m.cells[t].rank)
        {
          assert CallbackOk(n.cells, cb, n.cells[t].rank);
        }
      }
    }
  }

  /** `forward`: appends one target to the forward list of `s`; nothing else changes. */
  ghost function WithForward<T>(n: Net<T>, s: StreamId, f: StreamId): (m: Net<T>)
    requires WellFormed(n) && s in n.cells && f in n.cells && n.cells[f].rank < n.cells[s].rank
    ensures WellFormed(m) && Grows(n, m) && m.trace == n.trace
    ensures m.cells == n.cells[s := n.cells[s].(forwards := n.cells[s].forwards + [f])]
  {
    ChainStep(n, s, f);
    n.(cells := n.cells[s := n.cells[s].(forwards := n.cells[s].forwards + [f])])
  }

  /** `on`: appends one callback to `s`; no callback is removed and nothing else changes. */
  ghost function WithCallback<T>(n: Net<T>, s: StreamId, cb: Callback): (m: Net<T>)
    requires WellFormed(n) && s in n.cells && CallbackOk(n.cells, cb, n.cells[s].rank)
    ensures WellFormed(m) && m.trace == n.trace && m.next == n.next
    ensures m.cells == n.cells[s := n.cells[s].(callbacks := n.cells[s].callbacks + [cb])]
  {
    WithCallbackOk(n, s, cb);
    n.(cells := n.cells[s := n.cells[s].(callbacks := n.cells[s].callbacks + [cb])])
  }

  lemma WithCallbackOk<T>(n: Net<T>, s: StreamId, cb: Callback)
    requires WellFormed(n) && s in n.cells && CallbackOk(n.cells, cb, n.cells[s].rank)
    ensures WellFormed(n.(cells := n.cells[s := n.cells[s].(callbacks := n.cells[s].callbacks + [cb])]))
  {
    var m := n.(cells := n.cells[s := n.cells[s].(callbacks := n.cells[s].callbacks + [cb])]);
    forall t | t in m.cells
      ensures CellOk(m, t)
    {
      assert CellOk(n, t);
      forall c | c in m.cells[t].callbacks
        ensures CallbackOk(m.cells, c, m.cells[t].rank)
      {
        if c != cb || t != s {
          assert CallbackOk(n.cells, c, n.cells[t].rank);
        }
      }
    }
  }

  /** Every stream on the forward list of `s` receives a push of `s`, after all the callbacks have run. */
  lemma ListedForwardReceives<T>(n: Net<T>, s: StreamId, f: StreamId, v: Payload<T>)
    requires WellFormed(n) && s in n.cells && f in n.cells[s].forwards
    ensures var a := AfterCallbacks(n, s, v); var m := AfterPush(n, s, v);
      exists k :: |a.trace| <= k <= |m.trace| && [Received(f, v)] <= m.trace[k..]
  {
    var a := AfterCallbacks(n, s, v);
    var m := AfterPush(n, s, v);
    PushInOrder(n, s, v);
    var i :| 0 <= i < |n.cells[s].forwards| && n.cells[s].forwards[i] == f;
    assert a.cells[s].forwards[i] == f;
    ArrivalAt(a.cells[s].forwards, v, i);
    HeadOccurs(m.trace, m.trace, |a.trace|, Arrivals(a.cells[s].forwards, v), i);
  }

  /** A forward registered before a push receives it, after all the callbacks have run. */
  lemma ForwardReceives<T>(n: Net<T>, s: StreamId, f: StreamId, v: Payload<T>)
    requires WellFormed(n) && s in n.cells && f in n.cells && n.cells[f].rank < n.cells[s].rank
    ensures var n' := WithForward(n, s, f); var a := AfterCallbacks(n', s, v); var m := AfterPush(n', s, v);
      exists k :: |a.trace| <= k <= |m.trace| && [Received(f, v)] <= m.trace[k..]
  {
    ListedForwardReceives(WithForward(n, s, f), s, f, v);
  }

  /** The deliveries to a prefix of `cbs` leave a registry that the remaining ones only grow. */
  lemma {:induction false} DeliveriesPrefixGrows<T>(n: Net<T>, cbs: seq<Callback>, j: nat, v: Payload<T>, bound: int)
    requires WellFormed(n) && j <= |cbs|
    requires forall cb :: cb in cbs ==> CallbackOk(n.cells, cb, bound)
    ensures forall cb :: cb in cbs[..j] ==> CallbackOk(n.cells, cb, bound)
    ensures Grows(AfterDeliveries(n, cbs[..j], v, bound), AfterDeliveries(n, cbs, v, bound))
    decreases |cbs| - j
  {
    var x := AfterDeliveries(n, cbs[..j], v, bound);
    if j == |cbs| {
      assert cbs[..j] == cbs;
      forall t | t in x.cells
        ensures CellGrows(x, x, t)
      {
      }
    } else {
      DeliveriesStep(n, cbs, j, v, bound);
      DeliveriesPrefixGrows(n, cbs, j + 1, v, bound);
      GrowsTrans(x, AfterDeliveries(n, cbs[..j + 1], v, bound), AfterDeliveries(n, cbs, v, bound));
    }
  }

  /** A run of a `Chain` closure appends the derived stream to the returned stream's forward list. */
  lemma ChainDelivery<T>(n: Net<T>, c: CallbackId, r: StreamId, d: StreamId, v: Payload<T>, bound: int)
    requires WellFormed(n) && CallbackOk(n.cells, Chain(c, r, d), bound)
    ensures AfterDelivery(n, Chain(c, r, d), v, bound).cells[r].forwards == n.cells[r].forwards + [d]
  {
  }

  /** The callback loop of a push of `s` appends `d` to the forward list of `r` for a `Chain(c, r, d)` of `s`. */
  lemma ChainInCallbacks<T>(n: Net<T>, s: StreamId, c: CallbackId, r: StreamId, d: StreamId, v: Payload<T>)
    requires WellFormed(n) && s in n.cells && Chain(c, r, d) in n.cells[s].callbacks
    ensures r in n.cells
    ensures var a := AfterCallbacks(n, s, v);
      n.cells[r].forwards <= a.cells[r].forwards &&
      exists k :: |n.cells[r].forwards| <= k < |a.cells[r].forwards| && a.cells[r].forwards[k] == d
  {
    assert CellOk(n, s);
    var bound := n.cells[s].rank;
    var cbs := n.cells[s].callbacks;
    assert CallbackOk(n.cells, Chain(c, r, d), bound);
    var n1 := n.(trace := n.trace + [Received(s, v)]);
    TraceStep(n, Received(s, v));
    var i :| 0 <= i < |cbs| && cbs[i] == Chain(c, r, d);
    DeliveriesStep(n1, cbs, i, v, bound);
    var x := AfterDeliveries(n1, cbs[..i], v, bound);
    ChainDelivery(x, c, r, d, v, bound);
    var y := AfterDelivery(x, cbs[i], v, bound);
    DeliveriesPrefixGrows(n1, cbs, i + 1, v, bound);
    var a := AfterCallbacks(n, s, v);
    assert a == AfterDeliveries(n1, cbs, v, bound);
    assert CellGrows(n1, x, r) && CellGrows(y, a, r);
    assert a.cells[r].forwards[|x.cells[r].forwards|] == d;
  }

  /**
   * `on` with a stream-returning callback: every push of `s` appends the
   * derived stream to the forward list of the returned stream once more,
   * so a later push of the returned stream reaches the derived one.
   */
  lemma ChainForwards<T>(n: Net<T>, s: StreamId, c: CallbackId, r: StreamId, d: StreamId, v: Payload<T>, w: Payload<T>)
    requires WellFormed(n) && s in n.cells && Chain(c, r, d) in n.cells[s].callbacks
    ensures r in n.cells
    ensures var m := AfterPush(n, s, v);
      n.cells[r].forwards <= m.cells[r].forwards && d in m.cells[r].forwards[|n.cells[r].forwards|..] &&
      exists k :: 0 <= k <= |AfterPush(m, r, w).trace| && [Received(d, w)] <= AfterPush(m, r, w).trace[k..]
  {
    ChainInCallbacks(n, s, c, r, d, v);
    var a := AfterCallbacks(n, s, v);
    assert CellOk(a, s) && CellGrows(n, a, s);
    var m := AfterPush(n, s, v);
    assert m == AfterForwards(a, a.cells[s].forwards, v, n.cells[s].rank);
    assert CellGrows(a, m, r);
    var k :| |n.cells[r].forwards| <= k < |a.cells[r].forwards| && a.cells[r].forwards[k] == d;
    assert m.cells[r].forwards[|n.cells[r].forwards|..][k - |n.cells[r].forwards|] == d;
    ListedForwardReceives(m, r, d, w);
  }

  /**
   * `on` with a callback returning nothing: every later push to `s` runs
   * the callback and pushes the derived stream right after it.
   */
  lemma NotifyThenDerived<T>(n: Net<T>, s: StreamId, c: CallbackId, rank: int, v: Payload<T>)
    requires WellFormed(n) && s in n.cells && rank < n.cells[s].rank
    ensures var n1 := WithStream(n, rank); var d := n.next;
      CallbackOk(n1.cells, Notify(c, d), n1.cells[s].rank) &&
      var n2 := WithCallback(n1, s, Notify(c, d)); var m := AfterPush(n2, s, v);
      exists k :: 0 <= k <= |m.trace| && [Invoked(c, v), Received(d, Unit)] <= m.trace[k..]
  {
    var n1 := WithStream(n, rank);
    var n2 := WithCallback(n1, s, Notify(c, n.next));
    var cbs := n2.cells[s].callbacks;
    PushInOrder(n2, s, v);
    OpeningAt(cbs, v, |cbs| - 1);
    HeadOccurs(AfterCallbacks(n2, s, v).trace, AfterPush(n2, s, v).trace, |n2.trace| + 1, Openings(cbs, v), |cbs| - 1);
  }

  /**
   * The streams of a program. The methods mirror the source's member
   * functions and the `on` helpers; each is proved to leave the registry as
   * the function of the same purpose above describes.
   */
  class Streams<T> {
    var cells: map<StreamId, Cell>
    var trace: seq<Event<T>>
    var floor: int
    var next: StreamId

    function State(): Net<T>
      reads this
    {
      Net(cells, trace, floor, next)
    }

    ghost predicate Valid()
      reads this
    {
      WellFormed(State())
    }

    constructor ()
      ensures Valid() && cells == map[] && trace == []
    {
      cells := map[];
      trace := [];
      floor := 0;
      next := 0;
    }

    /** `Stream<T> s;` with the given rank. */
    method NewStream(rank: int) returns (s: StreamId)
      requires Valid()
      modifies this
      ensures Valid() && s == old(next) && State() == WithStream(old(State()), rank)
    {
      s := next;
      cells := cells[s := Cell([], [], rank)];
      if rank < floor {
        floor := rank;
      }
      next := next + 1;
      assert State() == WithStream(old(State()), rank);
    }

    method Forward(s: StreamId, f: StreamId)
      requires Valid() && s in cells && f in cells && cells[f].rank < cells[s].rank
      modifies this
      ensures Valid() && State() == WithForward(old(State()), s, f)
    {
      cells := cells[s := cells[s].(forwards := cells[s].forwards + [f])];
      assert State() == WithForward(old(State()), s, f);
    }

    /** `on` with a callback returning nothing: the derived stream gets a rank below that of `s`. */
    method OnNotify(s: StreamId, c: CallbackId, rank: int) returns (d: StreamId)
      requires Valid() && s in cells && rank < cells[s].rank
      modifies this
      ensures Valid() && d == old(next) && d !in old(cells)
      ensures State() == WithCallback(WithStream(old(State()), rank), s, Notify(c, d))
    {
      d := NewStream(rank);
      cells := cells[s := cells[s].(callbacks := cells[s].callbacks + [Notify(c, d)])];
      assert State() == WithCallback(WithStream(old(State()), rank), s, Notify(c, d));
    }

    /**
     * `on` with a callback returning a stream, which is `r` on every call:
     * the derived stream gets a rank below that of `r`.
     */
    method OnChain(s: StreamId, c: CallbackId, r: StreamId, rank: int) returns (d: StreamId)
      requires Valid() && s in cells && r in cells && rank < cells[r].rank
      modifies this
      ensures Valid() && d == old(next) && d !in old(cells)
      ensures State() == WithCallback(WithStream(old(State()), rank), s, Chain(c, r, d))
    {
      d := NewStream(rank);
      cells := cells[s := cells[s].(callbacks := cells[s].callbacks + [Chain(c, r, d)])];
      assert State() == WithCallback(WithStream(old(State()), rank), s, Chain(c, r, d));
    }

    /**
     * The closure that `on` registered, run on behalf of a stream of rank
     * `bound`: the user callback, then the push of the derived stream or
     * the forward from the stream the callback returned.
     */
    method Deliver(cb: Callback, v: Payload<T>, ghost bound: int)
      requires Valid() && CallbackOk(cells, cb, bound)
      modifies this
      ensures Valid() && State() == AfterDelivery(old(State()), cb, v, bound)
      decreases bound - floor, 1
    {
      TraceStep(State(), Invoked(cb.cb, v));
      trace := trace + [Invoked(cb.cb, v)];
      match cb {
        case Notify(_, d) =>
          assert CellOk(State(), d);
          var _ := Push(d, Unit);
        case Chain(_, r, d) =>
          ChainStep(State(), r, d);
          cells := cells[r := cells[r].(forwards := cells[r].forwards + [d])];
      }
    }

    /** `push`: runs the callbacks, then pushes to the forward targets; always succeeds. */
    method Push(s: StreamId, v: Payload<T>) returns (ok: bool)
      requires Valid() && s in cells
      modifies this
      ensures Valid() && ok
      ensures State() == AfterPush(old(State()), s, v)
      decreases cells[s].rank - floor, 3
    {
      ghost var n := State();
      var bound := cells[s].rank;
      RunCallbacks(s, v);
      ghost var a := State();
      assert CellOk(a, s) && CellGrows(n, a, s);
      PushForwards(cells[s].forwards, v, bound);
      ok := true;
    }

    /** The first loop of `push`: every callback of `s`, in registration order. */
    method RunCallbacks(s: StreamId, v: Payload<T>)
      requires Valid() && s in cells
      modifies this
      ensures Valid() && State() == AfterCallbacks(old(State()), s, v)
      decreases cells[s].rank - floor, 2
    {
      ghost var n := State();
      assert CellOk(n, s);
      var bound := cells[s].rank;
      var cbs := cells[s].callbacks;
      TraceStep(n, Received(s, v));
      trace := trace + [Received(s, v)];
      ghost var n1 := State();
      var i := 0;
      while i < |cbs|
        invariant 0 <= i <= |cbs|
        invariant State() == AfterDeliveries(n1, cbs[..i], v, bound)
      {
        DeliveriesStep(n1, cbs, i, v, bound);
        Deliver(cbs[i], v, bound);
        i := i + 1;
      }
      assert cbs[..|cbs|] == cbs;
    }

    /** The second loop of `push`: every forward target, in list order. */
    method PushForwards(fws: seq<StreamId>, v: Payload<T>, ghost bound: int)
      requires Valid() && forall f :: f in fws ==> f in cells && cells[f].rank < bound
      modifies this
      ensures Valid() && State() == AfterForwards(old(State()), fws, v, bound)
      decreases bound - floor, 2
    {
      ghost var a := State();
      var i := 0;
      while i < |fws|
        invariant 0 <= i <= |fws|
        invariant State() == AfterForwards(a, fws[..i], v, bound)
      {
        PushTurn(a, fws, i, v, bound);
        i := i + 1;
      }
      assert fws[..|fws|] == fws;
    }

    /** One turn of the forward loop: `fws[i].push(v)`. */
    method PushTurn(ghost a: Net<T>, fws: seq<StreamId>, i: nat, v: Payload<T>, ghost bound: int)
      requires WellFormed(a) && i < |fws| && forall f :: f in fws ==> f in a.cells && a.cells[f].rank < bound
      requires forall f :: f in fws[..i] ==> f in a.cells && a.cells[f].rank < bound
      requires Valid() && State() == AfterForwards(a, fws[..i], v, bound)
      modifies this
      ensures forall f :: f in fws[..i + 1] ==> f in a.cells && a.cells[f].rank < bound
      ensures Valid() && State() == AfterForwards(a, fws[..i + 1], v, bound)
      decreases bound - a.floor, 1
    {
      ForwardsStep(a, fws, i, v, bound);
      var _ := Push(fws[i], v);
    }
  }
}
