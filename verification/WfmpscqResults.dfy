/** What the two dequeue strategies of Wfmpscq.dfy guarantee in every interleaving. */
module WfmpscqResults {
  import opened Common
  import opened Cyclic
  import opened Wfmpscq
  import opened WfmpscqSafety

  // ----- Each ring is a queue

  /** What the completed dequeues returned from ring w, in order. */
  function GotFrom(results: seq<Result>, w: nat): seq<Entry> {
    if results == [] then []
    else
      var x := results[|results| - 1];
      GotFrom(results[..|results| - 1], w) + if x.Got? && x.w == w then [Entry(x.id, x.msg)] else []
  }

  ghost predicate InOrder(s: State, w: nat)
    requires w < |s.rings|
  {
    s.rings[w].taken <= |s.rings[w].log| && GotFrom(s.results, w) == s.rings[w].log[..s.rings[w].taken]
  }

  lemma WriteInOrder(s: State, v: nat, msg: Msg, w: nat)
    requires Shape(s) && v < |s.rings| && w < |s.rings| && InOrder(s, w)
    ensures InOrder(Write(s, v, msg), w)
  {
    WriteVisible(s, v, msg, w);
    var log, log' := s.rings[w].log, Write(s, v, msg).rings[w].log;
    assert log'[..s.rings[w].taken] == log[..s.rings[w].taken];
  }

  lemma StoreHeadInOrder(s: State, w: nat)
    requires Inv(s) && Shape(s) && s.cons.pc.Take? && s.cons.pc.c >= s.width && w < |s.rings| && InOrder(s, w)
    ensures InOrder(StepStoreHead(s), w)
  {
    Copied(s);
    var s', r := StepStoreHead(s), s.rings[w];
    assert s'.results[..|s.results|] == s.results;
    if s.cons.queue == w {
      assert r.log[..r.taken + 1] == r.log[..r.taken] + [r.log[r.taken]];
    }
  }

  lemma OtherInOrder(s: State, w: nat)
    requires Shape(s) && ConsumerShape(s) && !(s.cons.pc.Take? && s.cons.pc.c >= s.width)
    requires w < |s.rings| && InOrder(s, w)
    ensures w < |Dequeue(s).rings| && InOrder(Dequeue(s), w)
  {
    var s' := Dequeue(s);
    assert s'.rings == s.rings;
    if s'.results != s.results {
      assert s'.results[..|s.results|] == s.results;
    }
  }

  /**
   Nothing is lost, duplicated, torn or reordered within a ring: in every interleaving the dequeues returned
   exactly the first messages that its writer published, in their order.
   */
  lemma {:induction false} RingOrder(states: seq<State>, acts: seq<Act>, i: nat, w: nat)
    requires IsRun(states, acts) && i < |states| && w < |states[i].rings|
    ensures InOrder(states[i], w)
  {
    if i == 0 {
      assert InitialRing(states[0].rings[w], states[0].numSlots, states[0].width);
    } else {
      var s, a := states[i - 1], acts[i - 1];
      assert StepOf(s, a, states[i]);
      RingGrows(s, a, states[i], w);
      RingOrder(states, acts, i - 1, w);
      RunInv(states, acts, i - 1);
      match a
      case ByWriter(v, msg) => WriteInOrder(s, v, msg, w);
      case ByConsumer =>
        if s.cons.pc.Take? && s.cons.pc.c >= s.width { StoreHeadInOrder(s, w); } else { OtherInOrder(s, w); }
    }
  }

  /** A copy in flight by a writer and one by the consumer are never in one slot. */
  lemma CopiesApart(states: seq<State>, acts: seq<Act>, i: nat)
    requires IsRun(states, acts) && i < |states| && states[i].cons.pc.Take?
    ensures var s := states[i];
            && 0 <= s.cons.queue < |s.rings|
            && var r := s.rings[s.cons.queue]; r.pc.StoreData? || r.pc.StoreTail? ==> r.tail != r.head
  {
    RunInv(states, acts, i);
    TailTells(states[i], states[i].cons.queue);
  }

  // ----- What a dequeue returns

  /**
   Both strategies: a dequeue returns the next message of some ring, with its id; and it reports empty only
   if no message was published and not yet taken when its scan began. The merge by id returns an id no
   greater than that of any message that waited then. The merge needs the documented limit on ids.
   */
  lemma DequeueResults(states: seq<State>, acts: seq<Act>, i: nat, x: Result)
    requires IsRun(states, acts) && i < |states| && x in states[i].results
    ensures |x.snap| == |x.base| == |states[i].rings|
    ensures forall w :: 0 <= w < |states[i].rings| ==> x.base[w] <= x.snap[w] <= |states[i].rings[w].log|
    ensures x.Empty? && (states[i].strategy.RoundRobin? || x.inLimit) ==> x.snap == x.base
    ensures x.Got? ==>
              && x.w < |states[i].rings| && x.base[x.w] < |states[i].rings[x.w].log|
              && states[i].rings[x.w].log[x.base[x.w]] == Entry(x.id, x.msg)
    ensures x.Got? && states[i].strategy.IdAbsolute? && x.inLimit ==>
              forall w, k :: 0 <= w < |states[i].rings| && x.base[w] <= k < x.snap[w] ==>
                x.id <= states[i].rings[w].log[k].id
  {
    RunInv(states, acts, i);
    var j :| 0 <= j < |states[i].results| && states[i].results[j] == x;
    assert ResultOk(states[i], x);
  }

  // ----- Round robin

  ghost predicate Waiting(s: State, w: nat, k: nat) {
    w < |s.rings| && s.rings[w].taken <= k < |s.rings[w].log|
  }

  function Gots(results: seq<Result>): nat {
    if results == [] then 0 else Gots(results[..|results| - 1]) + if results[|results| - 1].Got? then 1 else 0
  }

  predicate Pending(s: State) { s.cons.pc.Take? }

  /**
   Looks and completions until message k of ring w is taken: n for each message ahead of it, the distance of
   w from lastqueue, and 1 for a message that is chosen but not taken; a choice of w itself counts as taken.
   */
  function Credit(s: State, w: nat, k: nat): int
    requires w < |s.rings|
  {
    var n := |s.rings|;
    (k - s.rings[w].taken) * n + Distance(s.cons.lastqueue, w, n)
    + if !Pending(s) then 0 else if s.cons.queue == w then 1 - n else 1
  }

  lemma MulStep(a: int, n: int)
    ensures (a - 1) * n == a * n - n
  {
  }

  lemma LookSpends(s: State, w: nat, k: nat)
    requires Inv(s) && Shape(s) && s.cons.pc.Look? && Waiting(s, w, k)
    ensures Credit(StepLook(s), w, k) <= Credit(s, w, k)
    ensures Gots(StepLook(s).results) == Gots(s.results)
  {
    var c, n := s.cons, |s.rings|;
    Next(c.lastqueue, n);
    Small(c.lastqueue, n);
    if c.pc.i < n {
      TailTells(s, w);
      TailTells(s, (c.lastqueue + 1) % n);
    } else {
      LookEnds(s, w, k);
    }
  }

  lemma LookEnds(s: State, w: nat, k: nat)
    requires Shape(s) && s.cons.pc.Look? && s.cons.pc.i >= |s.rings|
    requires w < |s.rings| && 0 <= s.cons.lastqueue < |s.rings|
    ensures Credit(StepLook(s), w, k) == Credit(s, w, k)
    ensures Gots(StepLook(s).results) == Gots(s.results)
  {
    var r := ReturnEmpty(s).results;
    assert r[..|s.results|] == s.results;
  }

  lemma StoreHeadSpends(s: State, w: nat, k: nat)
    requires Inv(s) && Shape(s) && s.cons.pc.Take? && s.cons.pc.c >= s.width && Waiting(s, w, k)
    ensures Credit(StepStoreHead(s), w, k) == Credit(s, w, k) - 1
    ensures Gots(StepStoreHead(s).results) == Gots(s.results) + 1
  {
    var r := StepStoreHead(s).results;
    assert r[..|s.results|] == s.results;
    MulStep(k - s.rings[w].taken, |s.rings|);
  }

  lemma WriteSpends(s: State, v: nat, msg: Msg, w: nat, k: nat)
    requires Shape(s) && v < |s.rings| && w < |s.rings|
    ensures Credit(Write(s, v, msg), w, k) == Credit(s, w, k)
    ensures Write(s, v, msg).results == s.results && |Write(s, v, msg).rings| == |s.rings|
  {
    WriteVisible(s, v, msg, w);
  }

  lemma OtherSpends(s: State, w: nat, k: nat)
    requires Inv(s) && Shape(s) && s.strategy.RoundRobin? && w < |s.rings|
    requires s.cons.pc.CIdle? || (s.cons.pc.Take? && s.cons.pc.c < s.width)
    ensures Credit(Dequeue(s), w, k) == Credit(s, w, k)
    ensures Dequeue(s).results == s.results && Dequeue(s).rings == s.rings
  {
  }

  /** A step spends credit for every completion, and never creates credit. */
  lemma StepSpends(s: State, a: Act, s': State, w: nat, k: nat)
    requires Inv(s) && StepOf(s, a, s') && s.strategy.RoundRobin? && Waiting(s, w, k) && w < |s'.rings|
    ensures Gots(s'.results) - Gots(s.results) <= Credit(s, w, k) - Credit(s', w, k)
  {
    match a
    case ByWriter(v, msg) => WriteSpends(s, v, msg, w, k);
    case ByConsumer =>
      if s.cons.pc.Look? { LookSpends(s, w, k); }
      else if s.cons.pc.Take? && s.cons.pc.c >= s.width { StoreHeadSpends(s, w, k); }
      else { OtherSpends(s, w, k); }
  }

  /** The successful dequeues so far plus the credit that is left are at most total. */
  ghost predicate Within(s: State, w: nat, k: nat, total: int) {
    Waiting(s, w, k) && s.strategy.RoundRobin? && Gots(s.results) + Credit(s, w, k) <= total
  }

  lemma {:induction false} Spent(states: seq<State>, acts: seq<Act>, i: nat, j: nat, w: nat, k: nat, total: int)
    requires IsRun(states, acts) && i <= j < |states| && Within(states[i], w, k, total)
    requires w < |states[j].rings| && states[j].rings[w].taken <= k
    ensures Within(states[j], w, k, total)
    decreases j
  {
    if i < j {
      RingGrew(states, acts, j, w);
      Spent(states, acts, i, j - 1, w, k, total);
      SpentStep(states, acts, j, w, k, total);
    }
  }

  lemma RingGrew(states: seq<State>, acts: seq<Act>, j: nat, w: nat)
    requires IsRun(states, acts) && 0 < j < |states| && w < |states[j].rings|
    ensures w < |states[j - 1].rings| && states[j - 1].rings[w].taken <= states[j].rings[w].taken
  {
    assert StepOf(states[j - 1], acts[j - 1], states[j]);
    RingGrows(states[j - 1], acts[j - 1], states[j], w);
  }

  lemma SpentStep(states: seq<State>, acts: seq<Act>, j: nat, w: nat, k: nat, total: int)
    requires IsRun(states, acts) && 0 < j < |states| && Within(states[j - 1], w, k, total)
    requires w < |states[j].rings| && states[j].rings[w].taken <= k
    ensures Within(states[j], w, k, total)
  {
    RunInv(states, acts, j - 1);
    var s, s' := states[j - 1], states[j];
    assert StepOf(s, acts[j - 1], s');
    RingGrows(s, acts[j - 1], s', w);
    StepSpends(s, acts[j - 1], s', w, k);
  }

  lemma RingGrows(s: State, a: Act, s': State, w: nat)
    requires StepOf(s, a, s') && w < |s'.rings|
    ensures |s'.rings| == |s.rings| && s'.strategy == s.strategy
    ensures s.rings[w].taken <= s'.rings[w].taken && |s.rings[w].log| <= |s'.rings[w].log|
  {
    if a.ByWriter? { WriteVisible(s, a.w, a.msg, w); }
  }

  lemma CreditBounds(s: State, w: nat, k: nat)
    requires Inv(s) && s.strategy.RoundRobin? && Waiting(s, w, k)
    ensures 0 <= Credit(s, w, k) < (k - s.rings[w].taken + 1) * |s.rings|
  {
    var n, d := |s.rings|, k - s.rings[w].taken;
    MulStep(d + 1, n);
    if d > 0 { MulAtLeast(d, n); }
  }

  /** Step m begins a dequeue. */
  ghost predicate Begins(states: seq<State>, acts: seq<Act>, m: nat) {
    m < |acts| && m < |states| && states[m].cons.pc.CIdle? && acts[m].ByConsumer?
  }

  /** From its begin to its result a dequeue remembers what was published and taken when it began. */
  lemma {:induction false} CallSnap(states: seq<State>, acts: seq<Act>, m: nat, j: nat)
    requires IsRun(states, acts) && m < j < |states| && Begins(states, acts, m)
    ensures var n, s := |states[m].results|, states[j];
            if |s.results| > n then s.results[n].snap == Logs(states[m]) && s.results[n].base == Takens(states[m])
            else && |s.results| == n && !s.cons.pc.CIdle?
                 && s.cons.snap == Logs(states[m]) && s.cons.base == Takens(states[m])
  {
    assert StepOf(states[j - 1], acts[j - 1], states[j]);
    if m + 1 < j {
      CallSnap(states, acts, m, j - 1);
    }
  }

  /** In round robin no dequeue that begins while a message waits returns empty. */
  lemma NotEmptyMeanwhile(states: seq<State>, acts: seq<Act>, m: nat, j: nat, w: nat, k: nat)
    requires IsRun(states, acts) && m < j < |states| && states[m].strategy.RoundRobin? && Begins(states, acts, m)
    requires Waiting(states[m], w, k) && |states[j].results| > |states[m].results|
    ensures states[j].results[|states[m].results|].Got?
  {
    var x := states[j].results[|states[m].results|];
    CallSnap(states, acts, m, j);
    SameRings(states, acts, m, j);
    DequeueResults(states, acts, j, x);
    assert Logs(states[m])[w] > Takens(states[m])[w];
  }

  /**
   No starvation. A published message with d messages ahead of it in its ring is taken before
   (d + 1) * numWriter further dequeues have succeeded, whatever the writers do meanwhile; and no dequeue that
   begins while it waits returns empty.
   */
  lemma RoundRobinBound(states: seq<State>, acts: seq<Act>, i: nat, j: nat, w: nat, k: nat)
    requires IsRun(states, acts) && i <= j < |states| && states[i].strategy.RoundRobin?
    requires Waiting(states[i], w, k)
    ensures Gots(states[j].results) - Gots(states[i].results)
            >= (k - states[i].rings[w].taken + 1) * |states[i].rings| ==>
              w < |states[j].rings| && states[j].rings[w].taken > k
    ensures forall m ::
              (i <= m < j && Begins(states, acts, m) && Waiting(states[m], w, k)
               && |states[j].results| > |states[m].results|)
              ==> states[j].results[|states[m].results|].Got?
  {
    forall m | i <= m < j && Begins(states, acts, m) && Waiting(states[m], w, k)
      && |states[j].results| > |states[m].results|
      ensures states[j].results[|states[m].results|].Got?
    {
      SameRings(states, acts, i, m);
      NotEmptyMeanwhile(states, acts, m, j, w, k);
    }
    if Gots(states[j].results) - Gots(states[i].results) >= (k - states[i].rings[w].taken + 1) * |states[i].rings| {
      TakenInTime(states, acts, i, j, w, k);
    }
  }

  lemma TakenInTime(states: seq<State>, acts: seq<Act>, i: nat, j: nat, w: nat, k: nat)
    requires IsRun(states, acts) && i <= j < |states| && states[i].strategy.RoundRobin?
    requires Waiting(states[i], w, k)
    requires Gots(states[j].results) - Gots(states[i].results) >= (k - states[i].rings[w].taken + 1) * |states[i].rings|
    ensures w < |states[j].rings| && states[j].rings[w].taken > k
  {
    SameRings(states, acts, i, j);
    if states[j].rings[w].taken <= k {
      Spent(states, acts, i, j, w, k, Gots(states[i].results) + Credit(states[i], w, k));
      RunInv(states, acts, i);
      RunInv(states, acts, j);
      CreditBounds(states[i], w, k);
      CreditBounds(states[j], w, k);
    }
  }

  lemma {:induction false} SameRings(states: seq<State>, acts: seq<Act>, i: nat, j: nat)
    requires IsRun(states, acts) && i <= j < |states|
    ensures |states[j].rings| == |states[i].rings| && states[j].strategy == states[i].strategy
    decreases j
  {
    if i < j {
      SameRings(states, acts, i, j - 1);
      assert StepOf(states[j - 1], acts[j - 1], states[j]);
    }
  }
}
