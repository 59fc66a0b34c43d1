/** The order-placement loops of TWAP and grid orders: iterations run one after the other, each
    reading the replies after those of the iterations before it, and an iteration whose remote
    call raised ends the loop (the `try` around the loop catches it). */
module Placement {
  import opened Exchange

  /** Iteration k of a loop whose first remote call receives reply `at`. */
  type Step = (nat, nat) -> Progress

  /** The first i iterations of a loop whose first remote call receives reply `at`. */
  function Run(step: Step, i: nat, at: nat): Progress
  {
    if i == 0 then Progress([], [], false, at)
    else
      var p := Run(step, i - 1, at);
      if p.failed then p
      else
        var s := step(i - 1, p.next);
        Progress(p.events + s.events, p.orders + s.orders, s.failed, s.next)
  }

  /** Each iteration's next call reads the reply after those its own calls received. */
  ghost predicate ReadsInOrder(step: Step)
  {
    forall k: nat, at: nat :: step(k, at).next == at + RequestCount(step(k, at).events)
  }

  /** Each iteration reports the orders its log shows placed, at most one, and none when it failed. */
  ghost predicate PlacesAtMostOne(step: Step)
  {
    forall k: nat, at: nat ::
      && step(k, at).orders == PlacedOrders(step(k, at).events) && |step(k, at).orders| <= 1
      && (step(k, at).failed ==> step(k, at).orders == [])
  }

  /** Every order request any iteration sends satisfies `ok`. */
  ghost predicate RequestsSatisfy(step: Step, ok: OrderRequest -> bool)
  {
    forall k: nat, at: nat, q | q in CreateRequests(step(k, at).events) :: ok(q)
  }

  lemma {:induction false} RunReadsInOrder(step: Step, i: nat, at: nat)
    requires ReadsInOrder(step)
    ensures Run(step, i, at).next == at + RequestCount(Run(step, i, at).events)
  {
    if i == 0 {
      assert RequestCount([]) == 0;
    } else {
      var p := Run(step, i - 1, at);
      RunReadsInOrder(step, i - 1, at);
      if !p.failed {
        CollectAppend(p.events, step(i - 1, p.next).events, RequestedCall);
      }
    }
  }

  lemma {:induction false} RunOrders(step: Step, i: nat, at: nat)
    requires PlacesAtMostOne(step)
    ensures Run(step, i, at).orders == PlacedOrders(Run(step, i, at).events)
    ensures |Run(step, i, at).orders| <= i
  {
    if i == 0 {
      assert PlacedOrders([]) == [];
    } else {
      var p := Run(step, i - 1, at);
      RunOrders(step, i - 1, at);
      if !p.failed {
        CollectAppend(p.events, step(i - 1, p.next).events, PlacedOrder);
      }
    }
  }

  lemma {:induction false} RunRequests(step: Step, ok: OrderRequest -> bool, i: nat, at: nat)
    requires RequestsSatisfy(step, ok)
    ensures forall q | q in CreateRequests(Run(step, i, at).events) :: ok(q)
  {
    if i == 0 {
      assert CreateRequests([]) == [];
    } else {
      var p := Run(step, i - 1, at);
      RunRequests(step, ok, i - 1, at);
      if !p.failed {
        var s := step(i - 1, p.next);
        CollectAppend(p.events, s.events, CreatedRequest);
        forall q | q in CreateRequests(p.events + s.events) ensures ok(q) {
          assert q in CreateRequests(p.events) || q in CreateRequests(s.events);
        }
      }
    }
  }

  /** Once an iteration fails, later iterations change nothing: the loop has been left. */
  lemma {:induction false} FailureIsFinal(step: Step, i: nat, j: nat, at: nat)
    requires i <= j && Run(step, i, at).failed
    ensures Run(step, j, at) == Run(step, i, at)
  {
    if j > i {
      FailureIsFinal(step, i, j - 1, at);
    }
  }

  /** When every one of the first i iterations, reading any of the i replies from `at` on,
      places one order with one call, the loop places i orders with i calls and does not fail. */
  lemma {:induction false} RunAllPlaced(step: Step, i: nat, at: nat)
    requires forall k: nat, a: nat | k < i && at <= a < at + i :: && !step(k, a).failed && step(k, a).next == a + 1
                                                         && |step(k, a).orders| == 1 && |CreateRequests(step(k, a).events)| == 1
    ensures !Run(step, i, at).failed && Run(step, i, at).next == at + i
    ensures |Run(step, i, at).orders| == i && |CreateRequests(Run(step, i, at).events)| == i
  {
    if i == 0 {
      assert CreateRequests([]) == [];
    } else {
      var p := Run(step, i - 1, at);
      RunAllPlaced(step, i - 1, at);
      CollectAppend(p.events, step(i - 1, p.next).events, CreatedRequest);
    }
  }

  lemma PausesOfAppend(a: seq<Event>, b: seq<Event>, d: real)
    requires forall x | x in Pauses(a) :: x == d
    requires forall x | x in Pauses(b) :: x == d
    ensures forall x | x in Pauses(a + b) :: x == d
  {
    CollectAppend(a, b, PauseOf);
    assert Pauses(a + b) == Pauses(a) + Pauses(b);
  }

  /** When every pause of every iteration lasts d, so does every pause of the loop. */
  lemma {:induction false} RunPauseLengths(step: Step, d: real, i: nat, at: nat)
    requires forall k: nat, a: nat, x | x in Pauses(step(k, a).events) :: x == d
    ensures forall x | x in Pauses(Run(step, i, at).events) :: x == d
  {
    if i == 0 {
      assert Pauses([]) == [];
    } else {
      var p := Run(step, i - 1, at);
      RunPauseLengths(step, d, i - 1, at);
      if !p.failed {
        PausesOfAppend(p.events, step(i - 1, p.next).events, d);
      }
    }
  }

  /** When iteration k pauses once exactly when it placed an order and k < n - 1, every order
      is followed by a pause except one placed by iteration n - 1. */
  lemma {:induction false} RunPauseCount(step: Step, n: nat, i: nat, at: nat)
    requires i <= n && PlacesAtMostOne(step)
    requires forall k: nat, a: nat :: |Pauses(step(k, a).events)| == (if step(k, a).orders != [] && k < n - 1 then 1 else 0)
    ensures i < n ==> |Pauses(Run(step, i, at).events)| == |Run(step, i, at).orders|
    ensures 0 < i == n ==> |Pauses(Run(step, i, at).events)| == |Run(step, i - 1, at).orders|
  {
    if i == 0 {
      assert Pauses([]) == [];
    } else {
      var p := Run(step, i - 1, at);
      RunPauseCount(step, n, i - 1, at);
      if !p.failed {
        var s := step(i - 1, p.next);
        CollectAppend(p.events, s.events, PauseOf);
        assert |s.orders| <= 1;
      }
    }
  }

  /** The number of indices k < i with w(k). */
  function CountWhere(w: nat -> bool, i: nat): nat
  {
    if i == 0 then 0 else CountWhere(w, i - 1) + (if w(i - 1) then 1 else 0)
  }

  /** When iteration k sends an order only if w(k), and at most one, the first i iterations send
      at most as many orders as there are k < i with w(k). */
  lemma {:induction false} RunRequestCount(step: Step, w: nat -> bool, i: nat, at: nat)
    requires forall k: nat, a: nat :: |CreateRequests(step(k, a).events)| <= (if w(k) then 1 else 0)
    ensures |CreateRequests(Run(step, i, at).events)| <= CountWhere(w, i)
  {
    if i == 0 {
      assert CreateRequests([]) == [];
    } else {
      var p := Run(step, i - 1, at);
      RunRequestCount(step, w, i - 1, at);
      if !p.failed {
        CollectAppend(p.events, step(i - 1, p.next).events, CreatedRequest);
      }
    }
  }

  /** Every order an iteration sends is placed, except the one whose call raised. */
  ghost predicate FailsOnlyOnOrders(step: Step)
  {
    forall k: nat, a: nat :: |CreateRequests(step(k, a).events)| == |step(k, a).orders| + (if step(k, a).failed then 1 else 0)
  }

  lemma {:induction false} RunSentPlaced(step: Step, i: nat, at: nat)
    requires FailsOnlyOnOrders(step)
    ensures var p := Run(step, i, at);
      |CreateRequests(p.events)| == |p.orders| + (if p.failed then 1 else 0)
  {
    if i == 0 {
      assert CreateRequests([]) == [];
    } else {
      var p := Run(step, i - 1, at);
      RunSentPlaced(step, i - 1, at);
      if !p.failed {
        CollectAppend(p.events, step(i - 1, p.next).events, CreatedRequest);
      }
    }
  }

  /** `ks[j]` is the iteration that sent `requests[j]`: one below n, whose order satisfies `ok`
      for it, and the iterations strictly increase along the requests. */
  ghost predicate IndexedBy(requests: seq<OrderRequest>, ks: seq<nat>, ok: (nat, OrderRequest) -> bool, n: nat)
  {
    && |ks| == |requests|
    && (forall j | 0 <= j < |ks| :: ks[j] < n && ok(ks[j], requests[j]))
    && (forall i, j | 0 <= i < j < |ks| :: ks[i] < ks[j])
  }

  /** Iteration k sends at most one order, and that order satisfies `ok` for k. */
  ghost predicate SendsIndexed(step: Step, ok: (nat, OrderRequest) -> bool)
  {
    forall k: nat, a: nat ::
      && |CreateRequests(step(k, a).events)| <= 1
      && forall q | q in CreateRequests(step(k, a).events) :: ok(k, q)
  }

  /** The orders of the first i iterations go out in the order of the iterations that sent them. */
  lemma {:induction false} RunIndexed(step: Step, ok: (nat, OrderRequest) -> bool, i: nat, at: nat)
    requires SendsIndexed(step, ok)
    ensures exists ks: seq<nat> :: IndexedBy(CreateRequests(Run(step, i, at).events), ks, ok, i)
  {
    if i == 0 {
      assert Run(step, i, at).events == [] && CreateRequests([]) == [];
      assert IndexedBy(CreateRequests(Run(step, i, at).events), [], ok, 0);
    } else {
      var p := Run(step, i - 1, at);
      RunIndexed(step, ok, i - 1, at);
      var ks: seq<nat> :| IndexedBy(CreateRequests(p.events), ks, ok, i - 1);
      if p.failed {
        assert Run(step, i, at) == p;
        IndexedWiden(CreateRequests(p.events), ks, ok, i - 1, i);
        assert IndexedBy(CreateRequests(Run(step, i, at).events), ks, ok, i);
      } else {
        var s := step(i - 1, p.next);
        assert Run(step, i, at).events == p.events + s.events;
        CollectAppend(p.events, s.events, CreatedRequest);
        var r := CreateRequests(p.events) + CreateRequests(s.events);
        assert CreateRequests(Run(step, i, at).events) == r;
        assert |CreateRequests(s.events)| <= 1 && forall q | q in CreateRequests(s.events) :: ok(i - 1, q);
        IndexedStep(CreateRequests(p.events), CreateRequests(s.events), ks, ok, i);
        var ks': seq<nat> :| IndexedBy(r, ks', ok, i);
        assert IndexedBy(CreateRequests(Run(step, i, at).events), ks', ok, i);
      }
    }
  }

  lemma IndexedWiden(requests: seq<OrderRequest>, ks: seq<nat>, ok: (nat, OrderRequest) -> bool, n: nat, m: nat)
    requires n <= m && IndexedBy(requests, ks, ok, n)
    ensures IndexedBy(requests, ks, ok, m)
  {
  }

  /** Appending what iteration i - 1 sent keeps the requests indexed. */
  lemma IndexedStep(requests: seq<OrderRequest>, c: seq<OrderRequest>, ks: seq<nat>, ok: (nat, OrderRequest) -> bool, i: nat)
    requires 0 < i && IndexedBy(requests, ks, ok, i - 1)
    requires |c| <= 1 && forall q | q in c :: ok(i - 1, q)
    ensures exists ks': seq<nat> :: IndexedBy(requests + c, ks', ok, i)
  {
    if c == [] {
      assert requests + c == requests;
      IndexedWiden(requests, ks, ok, i - 1, i);
    } else {
      assert c == [c[0]] && c[0] in c;
      IndexedSnoc(requests, ks, ok, i, c[0]);
    }
  }

  lemma IndexedSnoc(requests: seq<OrderRequest>, ks: seq<nat>, ok: (nat, OrderRequest) -> bool, i: nat, q: OrderRequest)
    requires 0 < i && IndexedBy(requests, ks, ok, i - 1) && ok(i - 1, q)
    ensures IndexedBy(requests + [q], ks + [i - 1], ok, i)
  {
  }
}
