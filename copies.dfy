/**
 * `Promise<void>` as its copy constructor and assignment make it: every
 * copy holds its own `_fulfilled` flag, and only the callback list and the
 * forward list are shared between copies. The closure that `then`
 * registers captures its own copy of the promise it returns, so fulfilling
 * that closure's copy leaves the copy that `then` handed back unfulfilled.
 *
 * This module is the behaviour as written, kept small: only `Promise<void>`
 * with callbacks that return nothing, and a cascade cut off after `fuel`
 * nested fulfilments. The registry in module Promise is the corrected
 * behaviour, where all copies share one cell.
 */
module PromiseCopies {
  import opened Signals

  type ListsId = nat

  /** One copy of a promise: its own flag, and the lists all its copies share. */
  datatype Copy = Copy(fulfilled: bool, lists: ListsId)

  /** The closure `then` registers: the user callback and its own copy of the promise `then` returned. */
  datatype Closure = Closure(cb: CallbackId, promise: Copy)

  datatype Shared = Shared(callbacks: seq<Closure>, forwards: seq<Copy>)

  /** All shared lists, the user callbacks run so far, and the next fresh lists id. */
  datatype World = World(lists: map<ListsId, Shared>, trace: seq<CallbackId>, next: ListsId)

  function ListsOf(w: World, c: Copy): Shared
  {
    if c.lists in w.lists then w.lists[c.lists] else Shared([], [])
  }

  /** `Promise<void> q;`: a fresh unfulfilled copy with fresh empty lists. */
  function NewCopy(w: World): (World, Copy)
  {
    (World(w.lists[w.next := Shared([], [])], w.trace, w.next + 1), Copy(false, w.next))
  }

  /**
   * `fulfill()` on copy `c`: false when this copy's own flag is set;
   * otherwise the callbacks and the forwards run and both shared lists are
   * emptied. Returns the world, this copy afterwards, and the answer.
   */
  function Fulfil(w: World, c: Copy, fuel: nat): (r: (World, Copy, bool))
    ensures r.2 <==> !c.fulfilled
    ensures r.1.fulfilled
    decreases fuel, 0
  {
    if c.fulfilled then (w, c, false)
    else if fuel == 0 then (w, c.(fulfilled := true), true)
    else
      var w1 := RunClosures(w, ListsOf(w, c).callbacks, fuel - 1);
      var w2 := FulfilCopies(w1, ListsOf(w1, c).forwards, fuel - 1);
      (w2.(lists := w2.lists[c.lists := Shared([], [])]), c.(fulfilled := true), true)
  }

  /** Each closure in turn: the user callback, then `fulfill()` on the closure's own copy. */
  function RunClosures(w: World, cls: seq<Closure>, fuel: nat): World
    decreases fuel, 1, |cls|
  {
    if cls == [] then w
    else
      var w1 := RunClosures(w, cls[..|cls| - 1], fuel);
      var cl := cls[|cls| - 1];
      Fulfil(w1.(trace := w1.trace + [cl.cb]), cl.promise, fuel).0
  }

  /** `fulfill()` on each stored copy in turn. */
  function FulfilCopies(w: World, fws: seq<Copy>, fuel: nat): World
    decreases fuel, 1, |fws|
  {
    if fws == [] then w
    else Fulfil(FulfilCopies(w, fws[..|fws| - 1], fuel), fws[|fws| - 1], fuel).0
  }

  /**
   * `then` with a callback returning nothing: on a fulfilled copy the
   * callback runs and the new promise is fulfilled; otherwise a closure
   * holding a copy of the new promise joins the shared callback list.
   */
  function Then(w: World, p: Copy, f: CallbackId, fuel: nat): (r: (World, Copy))
    ensures p.fulfilled ==> r.1.fulfilled && w.trace + [f] <= r.0.trace
    ensures !p.fulfilled ==> !r.1.fulfilled && r.0.trace == w.trace
    ensures !p.fulfilled && p.lists != w.next ==>
      r.1.lists == w.next && ListsOf(r.0, r.1) == Shared([], []) &&
      ListsOf(r.0, p).callbacks == ListsOf(w, p).callbacks + [Closure(f, r.1)] &&
      ListsOf(r.0, p).forwards == ListsOf(w, p).forwards
  {
    var (w1, d) := NewCopy(w);
    if p.fulfilled then
      var w2 := w1.(trace := w1.trace + [f]);
      TraceGrows(w2, d, fuel);
      var (w3, d3, _) := Fulfil(w2, d, fuel);
      (w3, d3)
    else
      var sh := ListsOf(w1, p);
      (w1.(lists := w1.lists[p.lists := sh.(callbacks := sh.callbacks + [Closure(f, d)])]), d)
  }

  /** A fulfilment only adds to the trace. */
  lemma {:induction false} TraceGrows(w: World, c: Copy, fuel: nat)
    ensures w.trace <= Fulfil(w, c, fuel).0.trace
    decreases fuel, 0
  {
    if !c.fulfilled && fuel > 0 {
      var w1 := RunClosures(w, ListsOf(w, c).callbacks, fuel - 1);
      ClosuresTraceGrows(w, ListsOf(w, c).callbacks, fuel - 1);
      CopiesTraceGrows(w1, ListsOf(w1, c).forwards, fuel - 1);
    }
  }

  lemma {:induction false} ClosuresTraceGrows(w: World, cls: seq<Closure>, fuel: nat)
    ensures w.trace <= RunClosures(w, cls, fuel).trace
    decreases fuel, 1, |cls|
  {
    if cls != [] {
      var w1 := RunClosures(w, cls[..|cls| - 1], fuel);
      ClosuresTraceGrows(w, cls[..|cls| - 1], fuel);
      var cl := cls[|cls| - 1];
      TraceGrows(w1.(trace := w1.trace + [cl.cb]), cl.promise, fuel);
    }
  }

  lemma {:induction false} CopiesTraceGrows(w: World, fws: seq<Copy>, fuel: nat)
    ensures w.trace <= FulfilCopies(w, fws, fuel).trace
    decreases fuel, 1, |fws|
  {
    if fws != [] {
      CopiesTraceGrows(w, fws[..|fws| - 1], fuel);
      TraceGrows(FulfilCopies(w, fws[..|fws| - 1], fuel), fws[|fws| - 1], fuel);
    }
  }

  /**
   * The copy that `then` returns is never marked fulfilled, so `then` on
   * it after its source was fulfilled parks the callback on a list that
   * has already been emptied: the callback does not run, and the returned
   * promise accepts a second `fulfill()`, which only then runs it.
   */
  lemma ThenOnDerivedIsLost(f: CallbackId, g: CallbackId)
    ensures
      var (w1, p) := NewCopy(World(map[], [], 0));
      var (w2, q) := Then(w1, p, f, 2);
      var (w3, _, ok) := Fulfil(w2, p, 2);
      var (w4, _) := Then(w3, q, g, 2);
      ok && w3.trace == [f] && !q.fulfilled && w4.trace == [f] &&
      Fulfil(w4, q, 2).2 && Fulfil(w4, q, 2).0.trace == [f, g]
  {
    var (w1, p) := NewCopy(World(map[], [], 0));
    var (w2, q) := Then(w1, p, f, 2);
    assert ListsOf(w2, p).callbacks == [Closure(f, q)];
    var w2' := w2.(trace := [f]);
    assert RunClosures(w2, [Closure(f, q)], 1) == Fulfil(w2', q, 1).0;
    assert Fulfil(w2', q, 1).0.trace == [f];
    var (w3, _, ok) := Fulfil(w2, p, 2);
    assert w3.trace == [f];
    var (w4, _) := Then(w3, q, g, 2);
    assert ListsOf(w4, q).callbacks == [Closure(g, Copy(false, 2))];
  }
}
