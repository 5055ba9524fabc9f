/** The invariant of Wfmpscq.dfy holds in every run, and what it says about the results. */
module WfmpscqSafety {
  import opened Common
  import opened Cyclic
  import opened Wfmpscq

  ghost predicate Initial(s: State) {
    && s.numSlots >= 1 && |s.rings| >= 1 && s.idCnt == 0 && s.issued == 0 && s.results == []
    && s.cons.pc == CIdle && 0 <= s.cons.lastqueue < |s.rings|
    && forall w :: 0 <= w < |s.rings| ==> InitialRing(s.rings[w], s.numSlots, s.width)
  }

  predicate InitialRing(r: Ring, numSlots: nat, width: nat) {
    && |r.slots| == numSlots && r.head == 0 && r.tail == 0 && r.pc == WIdle && r.log == [] && r.taken == 0
    && forall k :: 0 <= k < numSlots ==> |r.slots[k].msg| == width
  }

  lemma InitialInv(s: State)
    requires Initial(s)
    ensures Inv(s)
  {
    Small(0, s.numSlots);
    forall w | 0 <= w < |s.rings| ensures RingOk(s, w) && IdsOk(s, w) {
      assert InitialRing(s.rings[w], s.numSlots, s.width);
    }
  }

  lemma InvShape(s: State)
    requires Inv(s)
    ensures Shape(s) && ConsumerShape(s)
  {
    forall w | 0 <= w < |s.rings| ensures RingShape(s, w) { assert RingOk(s, w); }
  }

  // ----- A writer's step

  lemma EntryStays(r: Ring, r': Ring, n: nat, k: int)
    requires n >= 1 && |r.slots| == n && |r'.slots| == n && 0 <= k < |r.log| && r.log <= r'.log
    requires EntryOk(r, n, k)
    requires || r'.slots == r.slots
             || (&& r.tail == |r.log| % n && 0 <= r.tail < n && |r.log| < k + n
                 && r'.slots == r.slots[r.tail := r'.slots[r.tail]])
    ensures EntryOk(r', n, k)
  {
    if r'.slots != r.slots && k % n == r.tail {
      Apart(k, |r.log|, n);
    }
  }

  lemma WriteRing(s: State, w: nat, msg: Msg)
    requires Inv(s) && Shape(s) && w < |s.rings| && |msg| == s.width
    ensures RingOk(Write(s, w, msg), w)
  {
    var s', n := Write(s, w, msg), s.numSlots;
    var r, r' := s.rings[w], s'.rings[w];
    assert RingOk(s, w);
    Next(|r.log|, n);
    forall k | r.taken <= k < |r'.log| ensures EntryOk(r', n, k) {
      if k < |r.log| { EntryStays(r, r', n, k); } else { Fundamental(k, n); }
    }
    if r.pc.StoreData? && r.pc.c < s.width {
      var d, c := r.slots[r.tail].msg, r.pc.c;
      assert SetWord(d, c, r.msg[c])[..c + 1] == d[..c] + [r.msg[c]] == r.msg[..c + 1];
    } else if r.pc.StoreData? {
      var d := r.slots[r.tail].msg;
      assert d[..s.width] == d && r.msg[..s.width] == r.msg;
    }
    if r.pc.CheckFull? && r'.pc.TakeId? && |r.log| + 1 == r.taken + n {
      Round(r.taken, n);
    }
    Fundamental(|r'.log|, n);
  }

  lemma WriteIds(s: State, w: nat, msg: Msg)
    requires Inv(s) && Shape(s) && w < |s.rings| && InLimit(Write(s, w, msg))
    ensures IdsOk(Write(s, w, msg), w)
  {
    assert IdsOk(s, w);
    if s.rings[w].pc.TakeId? { Small(s.idCnt, TWO_TO_THE_32); }
  }

  lemma WriteOthers(s: State, w: nat, msg: Msg, v: nat)
    requires Inv(s) && Shape(s) && w < |s.rings| && v < |s.rings| && v != w
    ensures RingOk(Write(s, w, msg), v) && (InLimit(Write(s, w, msg)) ==> IdsOk(Write(s, w, msg), v))
  {
    var s' := Write(s, w, msg);
    assert RingOk(s, v) && (InLimit(s) ==> IdsOk(s, v));
    assert s'.rings[v] == s.rings[v] && s'.issued >= s.issued;
    forall k | s.rings[v].taken <= k < |s.rings[v].log| ensures EntryOk(s'.rings[v], s.numSlots, k) {
      assert EntryOk(s.rings[v], s.numSlots, k);
    }
  }

  /** What a writer's step leaves of its ring, as the consumer sees it. */
  lemma WriteVisible(s: State, w: nat, msg: Msg, v: nat)
    requires Shape(s) && w < |s.rings| && v < |s.rings|
    ensures var r, r' := s.rings[v], Write(s, w, msg).rings[v];
            r.log <= r'.log && r'.taken == r.taken && r'.head == r.head
  {
  }

  lemma WriteConsumer(s: State, s': State)
    requires Inv(s) && s'.cons == s.cons && s'.strategy == s.strategy
    requires |s'.rings| == |s.rings| && s'.issued >= s.issued
    requires forall v :: 0 <= v < |s.rings| ==>
      s.rings[v].log <= s'.rings[v].log && s'.rings[v].taken == s.rings[v].taken && s'.rings[v].head == s.rings[v].head
    ensures ConsumerOk(s') && MergeOk(s')
  {
  }

  lemma ResultStays(s: State, s': State, x: Result)
    requires ResultOk(s, x) && |s'.rings| == |s.rings| && s'.strategy == s.strategy
    requires forall w :: 0 <= w < |s.rings| ==> s.rings[w].log <= s'.rings[w].log
    ensures ResultOk(s', x)
  {
  }

  lemma WriteInv(s: State, w: nat, msg: Msg)
    requires Inv(s) && Shape(s) && w < |s.rings| && |msg| == s.width
    ensures Inv(Write(s, w, msg))
  {
    var s' := Write(s, w, msg);
    WriteRing(s, w, msg);
    if InLimit(s') { WriteIds(s, w, msg); }
    forall v | 0 <= v < |s'.rings| ensures RingOk(s', v) && (InLimit(s') ==> IdsOk(s', v)) {
      if v != w { WriteOthers(s, w, msg, v); }
    }
    forall v | 0 <= v < |s.rings|
      ensures s.rings[v].log <= s'.rings[v].log
      ensures s'.rings[v].taken == s.rings[v].taken && s'.rings[v].head == s.rings[v].head
    {
      WriteVisible(s, w, msg, v);
    }
    WriteConsumer(s, s');
    if s.rings[w].pc.TakeId? && InLimit(s') { Small(s.idCnt + 1, TWO_TO_THE_64); }
    forall i | 0 <= i < |s'.results| ensures ResultOk(s', s'.results[i]) {
      assert ResultOk(s, s.results[i]);
      ResultStays(s, s', s.results[i]);
    }
  }

  // ----- A consumer's step

  lemma RingsKept(s: State, s': State)
    requires Inv(s) && s'.numSlots == s.numSlots && s'.width == s.width
    requires s'.rings == s.rings && s'.issued == s.issued && s'.idCnt == s.idCnt
    ensures forall w :: 0 <= w < |s'.rings| ==> RingOk(s', w)
    ensures InLimit(s') ==> forall w :: 0 <= w < |s'.rings| ==> IdsOk(s', w)
  {
    forall w | 0 <= w < |s'.rings| ensures RingOk(s', w) && (InLimit(s') ==> IdsOk(s', w)) {
      assert RingOk(s, w) && (InLimit(s) ==> IdsOk(s, w));
    }
  }

  lemma ResultsKept(s: State, s': State)
    requires Inv(s) && |s'.rings| == |s.rings| && s'.strategy == s.strategy
    requires forall w :: 0 <= w < |s.rings| ==> s.rings[w].log <= s'.rings[w].log
    ensures forall i :: 0 <= i < |s.results| ==> ResultOk(s', s.results[i])
  {
    forall i | 0 <= i < |s.results| ensures ResultOk(s', s.results[i]) {
      assert ResultOk(s, s.results[i]);
      ResultStays(s, s', s.results[i]);
    }
  }

  lemma FrontIsLeast(s: State, w: nat, k: int)
    requires Inv(s) && w < |s.rings| && s.rings[w].taken <= k < |s.rings[w].log|
    ensures InLimit(s) ==> FrontId(s.rings[w]) <= s.rings[w].log[k].id
    ensures RingShape(s, w) && s.rings[w].slots[s.rings[w].head] == s.rings[w].log[s.rings[w].taken]
  {
    assert RingOk(s, w) && (InLimit(s) ==> IdsOk(s, w));
    assert EntryOk(s.rings[w], s.numSlots, s.rings[w].taken);
  }

  lemma BeginInv(s: State)
    requires Inv(s) && s.cons.pc.CIdle?
    ensures Inv(BeginScan(s))
  {
    var s' := BeginScan(s);
    RingsKept(s, s');
    ResultsKept(s, s');
    forall w | 0 <= w < |s.rings|
      ensures s'.cons.base[w] == s.rings[w].taken && s'.cons.base[w] <= s'.cons.snap[w] <= |s.rings[w].log|
    {
      assert RingOk(s, w);
    }
  }

  lemma ScanTailInv(s: State)
    requires Inv(s) && s.cons.pc.ScanTail?
    ensures Inv(StepScanTail(s))
  {
    var s', c := StepScanTail(s), s.cons;
    RingsKept(s, s');
    ResultsKept(s, s');
    if c.pc.i < |s.rings| {
      TailTells(s, c.pc.i);
    } else if c.queue == -1 {
      forall w | 0 <= w < |s.rings| && InLimit(s) ensures c.snap[w] == c.base[w] {
        assert IdsOk(s, w);
      }
    }
  }

  /** A ring is empty exactly if its head and tail are equal. */
  lemma TailTells(s: State, w: nat)
    requires Inv(s) && w < |s.rings|
    ensures s.rings[w].head == s.rings[w].tail <==> s.rings[w].taken == |s.rings[w].log|
  {
    var r := s.rings[w];
    assert RingOk(s, w);
    if r.taken < |r.log| && r.head == r.tail {
      Apart(r.taken, |r.log|, s.numSlots);
    }
  }

  lemma ScanIdInv(s: State)
    requires Inv(s) && Shape(s) && s.cons.pc.ScanId?
    ensures Inv(StepScanId(s))
  {
    var s', c := StepScanId(s), s.cons;
    RingsKept(s, s');
    ResultsKept(s, s');
    var i := c.pc.i;
    assert RingOk(s, i) && (InLimit(s) ==> IdsOk(s, i));
    if c.tail != s.rings[i].head { FrontIsLeast(s, i, s.rings[i].taken); }
  }

  /** A look that finds nothing examines one more ring: the one at distance 0. */
  lemma LookedAt(s: State, w: int)
    requires Inv(s) && Shape(s) && s.cons.pc.Look? && s.cons.pc.i < |s.rings| && 0 <= w < |s.rings|
    requires var q := (s.cons.lastqueue + 1) % |s.rings|; 0 <= q < |s.rings| && s.rings[q].head == s.rings[q].tail
    requires Examined(StepLook(s), w)
    ensures s.cons.base[w] == s.cons.snap[w]
  {
    var c, n := s.cons, |s.rings|;
    var q := (c.lastqueue + 1) % n;
    Next(c.lastqueue, n);
    Small(c.lastqueue, n);
    TailTells(s, q);
  }

  lemma LookMissInv(s: State, q: int)
    requires Inv(s) && Shape(s) && s.cons.pc.Look? && s.cons.pc.i < |s.rings| && q == (s.cons.lastqueue + 1) % |s.rings|
    requires 0 <= q < |s.rings| && s.rings[q].head == s.rings[q].tail
    ensures Inv(StepLook(s))
  {
    var s' := StepLook(s);
    RingsKept(s, s');
    ResultsKept(s, s');
    forall w | 0 <= w < |s.rings| && Examined(s', w) ensures s.cons.base[w] == s.cons.snap[w] { LookedAt(s, w); }
  }

  lemma LookHitInv(s: State, q: int)
    requires Inv(s) && Shape(s) && s.cons.pc.Look? && s.cons.pc.i < |s.rings| && q == (s.cons.lastqueue + 1) % |s.rings|
    requires 0 <= q < |s.rings| && s.rings[q].head != s.rings[q].tail
    ensures Inv(StepLook(s))
  {
    var s' := StepLook(s);
    RingsKept(s, s');
    ResultsKept(s, s');
    TailTells(s, q);
    assert RingOk(s, q);
    FrontIsLeast(s, q, s.rings[q].taken);
  }

  lemma LookInv(s: State)
    requires Inv(s) && Shape(s) && s.cons.pc.Look?
    ensures Inv(StepLook(s))
  {
    var n := |s.rings|;
    if s.cons.pc.i < n {
      var q := (s.cons.lastqueue + 1) % n;
      Fundamental(s.cons.lastqueue + 1, n);
      if s.rings[q].head == s.rings[q].tail { LookMissInv(s, q); } else { LookHitInv(s, q); }
    } else {
      RingsKept(s, StepLook(s));
      ResultsKept(s, StepLook(s));
    }
  }

  lemma TakeInv(s: State)
    requires Inv(s) && Shape(s) && s.cons.pc.Take? && s.cons.pc.c < s.width
    ensures Inv(StepTake(s))
  {
    var s', r, c := StepTake(s), s.rings[s.cons.queue], s.cons.pc.c;
    RingsKept(s, s');
    ResultsKept(s, s');
    assert RingOk(s, s.cons.queue);
    FrontIsLeast(s, s.cons.queue, r.taken);
    var m := r.log[r.taken].msg;
    assert m[..c + 1] == m[..c] + [m[c]];
  }

  /** Past the last word the message is complete. */
  lemma Copied(s: State)
    requires Inv(s) && s.cons.pc.Take? && s.cons.pc.c >= s.width
    ensures var r := s.rings[s.cons.queue];
            s.cons.queue >= 0 && r.taken < |r.log| && r.log[r.taken] == Entry(s.cons.minId, s.cons.out)
  {
    var r := s.rings[s.cons.queue];
    assert RingOk(s, s.cons.queue);
    assert r.log[r.taken].msg[..s.width] == r.log[r.taken].msg;
  }

  lemma StoreHeadRings(s: State, v: nat)
    requires Inv(s) && Shape(s) && s.cons.pc.Take? && s.cons.pc.c >= s.width && v < |s.rings|
    ensures RingOk(StepStoreHead(s), v) && (InLimit(s) ==> IdsOk(StepStoreHead(s), v))
  {
    var s' := StepStoreHead(s);
    assert RingOk(s, v) && (InLimit(s) ==> IdsOk(s, v));
    Next(s.rings[v].taken, s.numSlots);
    forall k | s'.rings[v].taken <= k < |s.rings[v].log| ensures EntryOk(s'.rings[v], s.numSlots, k) {
      assert EntryOk(s.rings[v], s.numSlots, k);
    }
  }

  lemma StoreHeadResult(s: State)
    requires Inv(s) && Shape(s) && s.cons.pc.Take? && s.cons.pc.c >= s.width
    ensures ResultOk(StepStoreHead(s),
                     Got(s.cons.queue, s.cons.minId, s.cons.out, s.cons.snap, s.cons.base, InLimit(s)))
  {
    var c := s.cons;
    Copied(s);
    forall w, k | s.strategy.IdAbsolute? && InLimit(s) && 0 <= w < |s.rings| && c.base[w] <= k < c.snap[w]
      ensures c.minId <= s.rings[w].log[k].id
    {
      FrontIsLeast(s, w, k);
    }
  }

  lemma StoreHeadInv(s: State)
    requires Inv(s) && Shape(s) && s.cons.pc.Take? && s.cons.pc.c >= s.width
    ensures Inv(StepStoreHead(s))
  {
    var s' := StepStoreHead(s);
    forall v | 0 <= v < |s'.rings| ensures RingOk(s', v) && (InLimit(s') ==> IdsOk(s', v)) { StoreHeadRings(s, v); }
    ResultsKept(s, s');
    StoreHeadResult(s);
  }

  lemma DequeueInv(s: State)
    requires Inv(s) && Shape(s)
    ensures Inv(Dequeue(s))
  {
    match s.cons.pc
    case CIdle => BeginInv(s);
    case ScanTail(_) => ScanTailInv(s);
    case ScanId(_) => ScanIdInv(s);
    case Look(_) => LookInv(s);
    case Take(c) => if c < s.width { TakeInv(s); } else { StoreHeadInv(s); }
  }

  // ----- Runs

  datatype Act = ByWriter(w: nat, msg: Msg) | ByConsumer

  /** A writer enqueues messages of the width of the table. */
  predicate ActOk(s: State, a: Act) {
    a.ByWriter? ==> a.w < |s.rings| && |a.msg| == s.width
  }

  ghost function Step(s: State, a: Act): State
    requires Shape(s) && ConsumerShape(s) && ActOk(s, a)
  {
    match a
    case ByWriter(w, msg) => Write(s, w, msg)
    case ByConsumer => Dequeue(s)
  }

  /** states is a run: each state follows from the one before by one step. */
  ghost predicate IsRun(states: seq<State>, acts: seq<Act>) {
    && |states| == |acts| + 1
    && Initial(states[0])
    && forall i :: 0 <= i < |acts| ==> StepOf(states[i], acts[i], states[i + 1])
  }

  ghost predicate StepOf(s: State, a: Act, s': State) {
    && Shape(s) && ConsumerShape(s) && ActOk(s, a)
    && s' == Step(s, a)
  }

  /** s is the last state of a run. */
  ghost predicate Reachable(s: State) {
    exists states, acts :: IsRun(states, acts) && states[|acts|] == s
  }

  /** A run can always go on, with any step of any process. */
  lemma RunGoesOn(s: State, a: Act) returns (s': State)
    requires Reachable(s) && ActOk(s, a)
    ensures StepOf(s, a, s') && Reachable(s') && Inv(s')
  {
    var states, acts :| IsRun(states, acts) && states[|acts|] == s;
    RunInv(states, acts, |acts|);
    InvShape(s);
    s' := Step(s, a);
    var states', acts' := states + [s'], acts + [a];
    forall i | 0 <= i < |acts'| ensures StepOf(states'[i], acts'[i], states'[i + 1]) {
      if i < |acts| { assert StepOf(states[i], acts[i], states[i + 1]); }
    }
    assert IsRun(states', acts') && states'[|acts'|] == s';
    RunInv(states', acts', |acts'|);
  }

  lemma {:induction false} RunInv(states: seq<State>, acts: seq<Act>, i: nat)
    requires IsRun(states, acts) && i < |states|
    ensures Inv(states[i])
  {
    if i == 0 {
      InitialInv(states[0]);
    } else {
      RunInv(states, acts, i - 1);
      var s, a := states[i - 1], acts[i - 1];
      assert StepOf(s, a, states[i]);
      if a.ByWriter? { WriteInv(s, a.w, a.msg); } else { DequeueInv(s); }
    }
  }
}
