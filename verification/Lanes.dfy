/** The write queue of one connection: bounded, drop-oldest, with a priority
    lane at the head and an unbounded farewell at the tail.

    `Replay` is the reference account of such a queue.  It does not move frames
    about; it moves the positions of the operations that queued them, so that
    "never reordered", "never duplicated" and "drops take the oldest" are
    statements about numbers. */
module Lanes {

  datatype Op<F> =
    | Push(item: F)      // behind everything waiting, shedding the oldest
    | Jump(item: F)      // ahead of everything waiting, shedding the oldest
    | Farewell(item: F)  // behind everything waiting, past the bound
    | Take               // the writer removes the head

  predicate Ordinary<F>(op: Op<F>) { op.Push? || op.Farewell? }

  /** The queue after shedding from the head until one more item fits. */
  function Shed<T>(q: seq<T>, depth: nat): seq<T>
    requires depth > 0
  {
    if |q| >= depth then q[|q| - depth + 1..] else q
  }

  /** The effect of one operation on the queue itself. */
  function Next<F>(q: seq<F>, depth: nat, op: Op<F>): seq<F>
    requires depth > 0
  {
    match op
    case Push(x) => Shed(q, depth) + [x]
    case Jump(x) => [x] + Shed(q, depth)
    case Farewell(x) => q + [x]
    case Take => if q == [] then [] else q[1..]
  }

  /** The queue that a history of operations builds. */
  function Contents<F>(depth: nat, ops: seq<Op<F>>): seq<F>
    requires depth > 0
  {
    if ops == [] then [] else Next(Contents(depth, ops[..|ops| - 1]), depth, ops[|ops| - 1])
  }

  /** How many items one operation displaces. */
  function Displaces<T, F>(q: seq<T>, depth: nat, op: Op<F>): nat
    requires depth > 0
  {
    if op.Push? || op.Jump? then |q| - |Shed(q, depth)| else 0
  }

  function Displaced<F>(depth: nat, ops: seq<Op<F>>): nat
    requires depth > 0
  {
    if ops == [] then 0
    else
      var front, last := ops[..|ops| - 1], ops[|ops| - 1];
      Displaced(depth, front) + Displaces(Contents(depth, front), depth, last)
  }

  /** The items that the writer has taken, in order. */
  function Taken<F>(depth: nat, ops: seq<Op<F>>): seq<F>
    requires depth > 0
  {
    if ops == [] then []
    else
      var front := ops[..|ops| - 1];
      Taken(depth, front) +
      if ops[|ops| - 1].Take? && Contents(depth, front) != [] then [Contents(depth, front)[0]] else []
  }

  datatype Removal = Removal(index: nat, dropped: bool)

  /** Positions waiting, and positions removed in the order they left. */
  datatype Account = Account(waiting: seq<nat>, removed: seq<Removal>)

  function Pop(a: Account, dropped: bool): Account
    requires a.waiting != []
  {
    Account(a.waiting[1..], a.removed + [Removal(a.waiting[0], dropped)])
  }

  /** Drop the oldest, one at a time, until one more fits. */
  function Evict(a: Account, depth: nat): (b: Account)
    requires depth > 0
    decreases |a.waiting|
  {
    if |a.waiting| >= depth then Evict(Pop(a, true), depth) else a
  }

  function Settle<F>(a: Account, depth: nat, op: Op<F>, at: nat): Account
    requires depth > 0
  {
    match op
    case Push(_) => var b := Evict(a, depth); b.(waiting := b.waiting + [at])
    case Jump(_) => var b := Evict(a, depth); b.(waiting := [at] + b.waiting)
    case Farewell(_) => a.(waiting := a.waiting + [at])
    case Take => if a.waiting == [] then a else Pop(a, false)
  }

  function Replay<F>(depth: nat, ops: seq<Op<F>>): Account
    requires depth > 0
  {
    if ops == [] then Account([], [])
    else Settle(Replay(depth, ops[..|ops| - 1]), depth, ops[|ops| - 1], |ops| - 1)
  }

  /** The positions of the operations that queued an ordinary item, in order. */
  function OrdinaryPositions<F>(ops: seq<Op<F>>): seq<nat> {
    if ops == [] then []
    else
      OrdinaryPositions(ops[..|ops| - 1]) +
      if Ordinary(ops[|ops| - 1]) then [|ops| - 1] else []
  }

  function CountEnqueued<F>(ops: seq<Op<F>>): nat {
    if ops == [] then 0
    else CountEnqueued(ops[..|ops| - 1]) + if !ops[|ops| - 1].Take? then 1 else 0
  }

  function CountFarewells<F>(ops: seq<Op<F>>): nat {
    if ops == [] then 0
    else CountFarewells(ops[..|ops| - 1]) + if ops[|ops| - 1].Farewell? then 1 else 0
  }

  function CountDropped(rs: seq<Removal>): nat {
    if rs == [] then 0
    else CountDropped(rs[..|rs| - 1]) + if rs[|rs| - 1].dropped then 1 else 0
  }

  /** Only the removals of ordinary items, oldest removal first. */
  function OrdinaryOf<F>(ops: seq<Op<F>>, rs: seq<Removal>): seq<nat>
    requires forall r :: r in rs ==> r.index < |ops|
  {
    if rs == [] then []
    else
      OrdinaryOf(ops, rs[..|rs| - 1]) +
      if Ordinary(ops[rs[|rs| - 1].index]) then [rs[|rs| - 1].index] else []
  }

  predicate InRange<F>(ops: seq<Op<F>>, a: Account) {
    && (forall i :: 0 <= i < |a.waiting| ==> a.waiting[i] < |ops| && !ops[a.waiting[i]].Take?)
    && (forall r :: r in a.removed ==> r.index < |ops| && !ops[r.index].Take?)
  }

  /** `k` waiting priority items, then ordinary ones that continue exactly
      where the removed ordinary ones stop. */
  predicate FifoAt<F>(ops: seq<Op<F>>, a: Account, k: nat)
    requires InRange(ops, a)
  {
    && k <= |a.waiting|
    && (forall i :: 0 <= i < k ==> ops[a.waiting[i]].Jump?)
    && OrdinaryOf(ops, a.removed) + a.waiting[k..] == OrdinaryPositions(ops)
  }

  // ---- Positions stay meaningful as the history grows ----

  lemma {:induction false} PositionsAreOrdinary<F>(ops: seq<Op<F>>)
    ensures forall i :: 0 <= i < |OrdinaryPositions(ops)| ==>
      OrdinaryPositions(ops)[i] < |ops| && Ordinary(ops[OrdinaryPositions(ops)[i]])
    ensures forall i, j :: 0 <= i < j < |OrdinaryPositions(ops)| ==>
      OrdinaryPositions(ops)[i] < OrdinaryPositions(ops)[j]
  {
    if ops == [] {
    } else {
      PositionsAreOrdinary(ops[..|ops| - 1]);
    }
  }

  lemma {:induction false} OrdinaryOfGrows<F>(ops: seq<Op<F>>, op: Op<F>, rs: seq<Removal>)
    requires forall r :: r in rs ==> r.index < |ops|
    ensures OrdinaryOf(ops + [op], rs) == OrdinaryOf(ops, rs)
  {
    if rs == [] {
    } else {
      var front := rs[..|rs| - 1];
      assert rs[|rs| - 1] in rs && forall r :: r in front ==> r in rs;
      OrdinaryOfGrows(ops, op, front);
    }
  }

  /** Removing the head keeps the lane in order, whether it was a priority
      item or an ordinary one. */
  lemma PopKeepsOrder<F>(ops: seq<Op<F>>, a: Account, k: nat, dropped: bool)
    requires InRange(ops, a) && FifoAt(ops, a, k) && a.waiting != []
    ensures InRange(ops, Pop(a, dropped))
    ensures FifoAt(ops, Pop(a, dropped), if k == 0 then 0 else k - 1)
  {
    var b := Pop(a, dropped);
    assert b.removed[..|b.removed| - 1] == a.removed;
    if k == 0 {
      PositionsAreOrdinary(ops);
      assert a.waiting[0] == OrdinaryPositions(ops)[|OrdinaryOf(ops, a.removed)|];
      assert [a.waiting[0]] + b.waiting == a.waiting[0..];
    } else {
      assert b.waiting[k - 1..] == a.waiting[k..];
    }
  }

  lemma {:induction false} EvictKeepsOrder<F>(ops: seq<Op<F>>, a: Account, k: nat, depth: nat)
    requires depth > 0 && InRange(ops, a) && FifoAt(ops, a, k)
    ensures InRange(ops, Evict(a, depth))
    ensures exists left: nat :: FifoAt(ops, Evict(a, depth), left)
    decreases |a.waiting|
  {
    if |a.waiting| >= depth {
      PopKeepsOrder(ops, a, k, true);
      EvictKeepsOrder(ops, Pop(a, true), if k == 0 then 0 else k - 1, depth);
    } else {
      assert FifoAt(ops, Evict(a, depth), k);
    }
  }

  /** Queueing behind everything, or ahead of everything, keeps the order. */
  lemma AddKeepsOrder<F>(past: seq<Op<F>>, op: Op<F>, a: Account, k: nat)
    requires InRange(past, a) && FifoAt(past, a, k)
    ensures var ops := past + [op];
      var b := if op.Take? then a
               else if op.Jump? then a.(waiting := [|past|] + a.waiting)
               else a.(waiting := a.waiting + [|past|]);
      InRange(ops, b) && FifoAt(ops, b, if op.Jump? then k + 1 else k)
  {
    var ops := past + [op];
    OrdinaryOfGrows(past, op, a.removed);
    assert ops[..|ops| - 1] == past;
    if op.Jump? {
      assert ([|past|] + a.waiting)[k + 1..] == a.waiting[k..];
    } else {
      assert (a.waiting + [|past|])[k..] == a.waiting[k..] + [|past|];
    }
  }

  /** Queue order over every history: what waits is a run of priority items
      followed by the ordinary items that have not left yet, and those left in
      the order they were queued. */
  lemma {:induction false} QueueOrder<F>(depth: nat, ops: seq<Op<F>>)
    requires depth > 0
    ensures InRange(ops, Replay(depth, ops))
    ensures exists k: nat :: FifoAt(ops, Replay(depth, ops), k)
  {
    if ops == [] {
      assert FifoAt(ops, Replay(depth, ops), 0);
    } else {
      var past, op := ops[..|ops| - 1], ops[|ops| - 1];
      assert past + [op] == ops;
      QueueOrder(depth, past);
      var a := Replay(depth, past);
      var k: nat :| FifoAt(past, a, k);
      if op.Take? && a.waiting != [] {
        PopKeepsOrder(past, a, k, false);
        AddKeepsOrder(past, op, Pop(a, false), if k == 0 then 0 else k - 1);
      } else if op.Take? || op.Farewell? {
        AddKeepsOrder(past, op, a, k);
      } else {
        EvictKeepsOrder(past, a, k, depth);
        var left: nat :| FifoAt(past, Evict(a, depth), left);
        AddKeepsOrder(past, op, Evict(a, depth), left);
      }
    }
  }

  lemma {:induction false} EvictSheds(a: Account, depth: nat)
    requires depth > 0
    ensures Evict(a, depth).waiting == Shed(a.waiting, depth)
    ensures |Evict(a, depth).removed| + |Evict(a, depth).waiting| == |a.removed| + |a.waiting|
    ensures CountDropped(Evict(a, depth).removed) + |Evict(a, depth).waiting|
         == CountDropped(a.removed) + |a.waiting|
    decreases |a.waiting|
  {
    if |a.waiting| >= depth {
      var b := Pop(a, true);
      assert b.removed[..|b.removed| - 1] == a.removed;
      EvictSheds(b, depth);
    }
  }

  /** The bound: never more than the depth plus the farewells ever pushed, and
      never more than the depth right after an ordinary or priority enqueue. */
  lemma {:induction false} QueueBound<F>(depth: nat, ops: seq<Op<F>>)
    requires depth > 0
    ensures |Replay(depth, ops).waiting| <= depth + CountFarewells(ops)
    ensures ops != [] && (ops[|ops| - 1].Push? || ops[|ops| - 1].Jump?) ==>
      |Replay(depth, ops).waiting| <= depth
  {
    if ops == [] {
    } else {
      QueueBound(depth, ops[..|ops| - 1]);
      EvictSheds(Replay(depth, ops[..|ops| - 1]), depth);
    }
  }

  /** The items at given positions. */
  function ItemsAt<F>(ops: seq<Op<F>>, at: seq<nat>): (r: seq<F>)
    requires forall i :: 0 <= i < |at| ==> at[i] < |ops| && !ops[at[i]].Take?
    ensures |r| == |at|
    ensures forall i :: 0 <= i < |at| ==> r[i] == ops[at[i]].item
  {
    seq(|at|, i requires 0 <= i < |at| => ops[at[i]].item)
  }

  lemma ItemsGrow<F>(ops: seq<Op<F>>, op: Op<F>, at: seq<nat>)
    requires forall i :: 0 <= i < |at| ==> at[i] < |ops| && !ops[at[i]].Take?
    ensures ItemsAt(ops + [op], at) == ItemsAt(ops, at)
    ensures !op.Take? ==> ItemsAt(ops + [op], at + [|ops|]) == ItemsAt(ops, at) + [op.item]
    ensures !op.Take? ==> ItemsAt(ops + [op], [|ops|] + at) == [op.item] + ItemsAt(ops, at)
  {
  }

  lemma ItemsDrop<F>(ops: seq<Op<F>>, at: seq<nat>, d: nat)
    requires forall i :: 0 <= i < |at| ==> at[i] < |ops| && !ops[at[i]].Take?
    requires d <= |at|
    ensures ItemsAt(ops, at[d..]) == ItemsAt(ops, at)[d..]
  {
  }

  lemma {:induction false} EvictInRange<F>(ops: seq<Op<F>>, a: Account, depth: nat)
    requires depth > 0 && InRange(ops, a)
    ensures InRange(ops, Evict(a, depth))
    decreases |a.waiting|
  {
    if |a.waiting| >= depth {
      EvictInRange(ops, Pop(a, true), depth);
    }
  }

  lemma SettleInRange<F>(depth: nat, ops: seq<Op<F>>, op: Op<F>, a: Account)
    requires depth > 0 && InRange(ops, a)
    ensures InRange(ops + [op], Settle(a, depth, op, |ops|))
  {
    EvictInRange(ops, a, depth);
  }

  lemma ShedItems<F>(depth: nat, ops: seq<Op<F>>, a: Account)
    requires depth > 0 && InRange(ops, a)
    ensures Evict(a, depth).waiting == Shed(a.waiting, depth)
    ensures forall i :: 0 <= i < |Shed(a.waiting, depth)| ==>
      Shed(a.waiting, depth)[i] < |ops| && !ops[Shed(a.waiting, depth)[i]].Take?
    ensures ItemsAt(ops, Shed(a.waiting, depth)) == Shed(ItemsAt(ops, a.waiting), depth)
  {
    EvictSheds(a, depth);
    ItemsDrop(ops, a.waiting, |a.waiting| - |Shed(a.waiting, depth)|);
  }

  lemma SettleTracksQueue<F>(depth: nat, ops: seq<Op<F>>, op: Op<F>, a: Account)
    requires depth > 0 && InRange(ops, a)
    ensures InRange(ops + [op], Settle(a, depth, op, |ops|))
    ensures ItemsAt(ops + [op], Settle(a, depth, op, |ops|).waiting)
         == Next(ItemsAt(ops, a.waiting), depth, op)
  {
    SettleInRange(depth, ops, op, a);
    if op.Take? {
      if a.waiting != [] {
        ItemsDrop(ops, a.waiting, 1);
        ItemsGrow(ops, op, a.waiting[1..]);
      }
    } else if op.Farewell? {
      ItemsGrow(ops, op, a.waiting);
    } else {
      ShedItems(depth, ops, a);
      ItemsGrow(ops, op, Shed(a.waiting, depth));
    }
  }

  /** The account describes the queue that the operations really build, and
      counts exactly the items that the bound displaced. */
  lemma {:induction false} ReplayExplains<F>(depth: nat, ops: seq<Op<F>>)
    requires depth > 0
    ensures InRange(ops, Replay(depth, ops))
    ensures Contents(depth, ops) == ItemsAt(ops, Replay(depth, ops).waiting)
    ensures Displaced(depth, ops) == CountDropped(Replay(depth, ops).removed)
  {
    if ops == [] {
    } else {
      var front, last := ops[..|ops| - 1], ops[|ops| - 1];
      assert ops == front + [last];
      ReplayExplains(depth, front);
      SettleTracksQueue(depth, front, last, Replay(depth, front));
      SettleCountsDrops(depth, last, |front|, Replay(depth, front));
    }
  }

  lemma SettleCountsDrops<F>(depth: nat, op: Op<F>, at: nat, a: Account)
    requires depth > 0
    ensures CountDropped(Settle(a, depth, op, at).removed)
         == CountDropped(a.removed) + Displaces(a.waiting, depth, op)
  {
    EvictSheds(a, depth);
    if op.Take? && a.waiting != [] {
      assert Pop(a, false).removed[..|a.removed|] == a.removed;
    }
  }
}
