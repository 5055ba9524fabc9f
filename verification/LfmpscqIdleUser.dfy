/**
 Whatever happens in the queue of Lfmpscq.dfy can also happen with one more user, at any index, that never
 enqueues: the consumer then reads one more shared index, which names no slot.
 */
module LfmpscqIdleUser {
  import opened Common
  import opened Cyclic
  import opened Lfmpscq

  /** No slot but a real one gets into the retire list. */
  ghost predicate RealSlots(s: State) {
    && s.head != UNDEFINED_NODE
    && (s.cons.pc.ReadHeadNext? || s.cons.pc.CopyOut? ==> s.cons.h != UNDEFINED_NODE)
    && (s.cons.pc.CopyOut? ==> s.cons.hNext != UNDEFINED_NODE)
    && (forall i :: 0 <= i < |s.cons.rlist| ==> s.cons.rlist[i] != UNDEFINED_NODE)
    && (forall i :: 0 <= i < |s.cons.todo| ==> s.cons.todo[i] != UNDEFINED_NODE)
    && (s.cons.pc.Scan? ==> 0 <= s.cons.pc.k)
  }

  lemma RealSlotsStay(s: State)
    requires Shape(s) && RealSlots(s)
    ensures RealSlots(Consume(s))
  {
  }

  lemma RealSlotsProduced(s: State, p: nat, msg: Msg)
    requires Shape(s) && p < |s.procs|
    ensures Produce(s, p, msg).head == s.head && Produce(s, p, msg).cons == s.cons
  {
  }

  // ----- One more user

  /** The index of user p after user c was put in. */
  function Moved(p: nat, c: nat): nat {
    if p < c then p else p + 1
  }

  predicate SameSlot(a: Slot, b: Slot) {
    a.used == b.used && a.next == b.next && a.data == b.data
  }

  /** The scan has read the indexes of the same users, and not that of c just before it is due. */
  function MovedPC(pc: ConsumerPC, c: nat): ConsumerPC {
    if pc.Scan? && pc.k > c then Scan(pc.k + 1) else pc
  }

  /** t is s with an idle user c put in. */
  ghost predicate PutIn(s: State, t: State, c: nat) {
    && Shape(s) && Shape(t) && c <= |s.procs| && |t.procs| == |s.procs| + 1 && |t.slots| == |s.slots|
    && t.width == s.width && t.head == s.head && t.tail == s.tail && t.got == s.got
    && t.cons == s.cons.(pc := MovedPC(s.cons.pc, c))
    && (forall n :: 0 <= n < |s.slots| ==> SameSlot(s.slots[n], t.slots[n]))
    && (forall p: nat :: p < |s.procs| ==> UserMoved(s, t, p, c))
    && t.procs[c].pc.Idle? && t.haz[c] == UNDEFINED_NODE && t.sent[c] == []
  }

  ghost predicate UserMoved(s: State, t: State, p: nat, c: nat)
    requires Shape(s) && Shape(t) && p < |s.procs| && |t.procs| == |s.procs| + 1
  {
    var q := Moved(p, c);
    t.procs[q] == s.procs[p] && t.haz[q] == s.haz[p] && t.sent[q] == s.sent[p]
  }

  lemma InitPutIn(width: nat, numSlots: nat, maxUser: nat, c: nat)
    requires numSlots >= 1 && c <= maxUser
    ensures PutIn(Init(width, numSlots, maxUser), Init(width, numSlots, maxUser + 1), c)
    ensures RealSlots(Init(width, numSlots, maxUser))
  {
  }

  // ----- Producers

  lemma SlotPutIn(s: State, t: State, c: nat, n: int, a: Slot, b: Slot)
    requires PutIn(s, t, c) && SameSlot(a, b)
    ensures PutIn(SetSlot(s, n, a), SetSlot(t, n, b), c)
  {
    var s', t' := SetSlot(s, n, a), SetSlot(t, n, b);
    forall p: nat | p < |s'.procs| ensures UserMoved(s', t', p, c) { assert UserMoved(s, t, p, c); }
  }

  lemma ProcPutIn(s: State, t: State, c: nat, p: nat, r: Producer)
    requires PutIn(s, t, c) && p < |s.procs|
    ensures PutIn(SetProc(s, p, r), SetProc(t, Moved(p, c), r), c)
  {
    var s', t' := SetProc(s, p, r), SetProc(t, Moved(p, c), r);
    forall u: nat | u < |s'.procs| ensures UserMoved(s', t', u, c) { assert UserMoved(s, t, u, c); }
  }

  lemma NextPutIn(s: State, t: State, c: nat, n: int, next: int)
    requires PutIn(s, t, c)
    ensures PutIn(SetNext(s, n, next), SetNext(t, n, next), c)
    ensures NextOf(t, n) == NextOf(s, n)
  {
    if InRange(s, n) { SlotPutIn(s, t, c, n, s.slots[n].(next := next), t.slots[n].(next := next)); }
  }

  lemma StatusPutIn(s: State, t: State, c: nat, n: int, st: Status)
    requires PutIn(s, t, c)
    ensures PutIn(SetStatus(s, n, st), SetStatus(t, n, st), c)
  {
    if InRange(s, n) { SlotPutIn(s, t, c, n, s.slots[n].(st := st), t.slots[n].(st := st)); }
  }

  lemma ClaimPutIn(s: State, t: State, c: nat, p: nat)
    requires PutIn(s, t, c) && p < |s.procs| && s.procs[p].pc.Claim?
    ensures t.procs[Moved(p, c)].pc.Claim? && PutIn(StepClaim(s, p), StepClaim(t, Moved(p, c)), c)
  {
    assert UserMoved(s, t, p, c);
    var r, q := s.procs[p], Moved(p, c);
    if r.pc.cnt >= |s.slots| {
      ProcPutIn(s, t, c, p, r.(pc := Idle));
    } else if InRange(s, r.cursor) && !s.slots[r.cursor].used {
      var a := s.slots[r.cursor].(used := true, st := Claimed(p));
      var b := t.slots[r.cursor].(used := true, st := Claimed(q));
      SlotPutIn(s, t, c, r.cursor, a, b);
      ProcPutIn(SetSlot(s, r.cursor, a), SetSlot(t, r.cursor, b), c, p, r.(node := r.cursor, pc := Fill(0)));
    } else {
      ProcPutIn(s, t, c, p, r.(cursor := (r.cursor + 1) % |s.slots|, pc := Claim(r.pc.cnt + 1)));
    }
  }

  lemma FillPutIn(s: State, t: State, c: nat, p: nat)
    requires PutIn(s, t, c) && p < |s.procs| && s.procs[p].pc.Fill?
    ensures t.procs[Moved(p, c)].pc.Fill? && PutIn(StepFill(s, p), StepFill(t, Moved(p, c)), c)
  {
    assert UserMoved(s, t, p, c);
    var r, k := s.procs[p], s.procs[p].pc.c;
    if k >= s.width {
      NextPutIn(s, t, c, r.node, UNDEFINED_NODE);
      ProcPutIn(SetNext(s, r.node, UNDEFINED_NODE), SetNext(t, r.node, UNDEFINED_NODE), c, p, r.(pc := ReadTail));
    } else if InRange(s, r.node) {
      var d := SetWord(s.slots[r.node].data, k, Word(r.msg, k));
      var a, b := s.slots[r.node].(data := d), t.slots[r.node].(data := d);
      SlotPutIn(s, t, c, r.node, a, b);
      ProcPutIn(SetSlot(s, r.node, a), SetSlot(t, r.node, b), c, p, r.(pc := Fill(k + 1)));
    } else {
      ProcPutIn(s, t, c, p, r.(pc := Fill(k + 1)));
    }
  }

  lemma PublishPutIn(s: State, t: State, c: nat, p: nat)
    requires PutIn(s, t, c) && p < |s.procs|
    ensures PutIn(StepPublishTail(s, p), StepPublishTail(t, Moved(p, c)), c)
  {
    var s', t' := StepPublishTail(s, p), StepPublishTail(t, Moved(p, c));
    assert UserMoved(s, t, p, c);
    forall u: nat | u < |s'.procs| ensures UserMoved(s', t', u, c) { assert UserMoved(s, t, u, c); }
  }

  lemma LinkPutIn(s: State, t: State, c: nat, p: nat)
    requires PutIn(s, t, c) && p < |s.procs|
    ensures PutIn(StepLink(s, p), StepLink(t, Moved(p, c)), c)
  {
    assert UserMoved(s, t, p, c);
    var r, q := s.procs[p], Moved(p, c);
    NextPutIn(s, t, c, r.t, r.node);
    if NextOf(s, r.t) == UNDEFINED_NODE {
      var s1, t1 := SetNext(s, r.t, r.node), SetNext(t, r.t, r.node);
      StatusPutIn(s1, t1, c, r.node, Linked);
      var s2, t2 := SetStatus(s1, r.node, Linked), SetStatus(t1, r.node, Linked);
      ProcPutIn(s2, t2, c, p, r.(pc := SwingTail));
      Auxiliary(SetProc(s2, p, r.(pc := SwingTail)), SetProc(t2, q, r.(pc := SwingTail)), c,
                StepLink(s, p), StepLink(t, q));
    } else {
      ProcPutIn(s, t, c, p, r.(pc := ReadTail));
    }
  }

  /** What no step reads does not matter. */
  lemma Auxiliary(s: State, t: State, c: nat, s': State, t': State)
    requires PutIn(s, t, c) && |s'.valid| == |s.valid| && |t'.valid| == |t.valid|
    requires s' == s.(chain := s'.chain, valid := s'.valid, linked := s'.linked)
    requires t' == t.(chain := t'.chain, valid := t'.valid, linked := t'.linked)
    ensures PutIn(s', t', c)
  {
    forall p: nat | p < |s'.procs| ensures UserMoved(s', t', p, c) { assert UserMoved(s, t, p, c); }
  }

  /** tail moves in both. */
  lemma TailPutIn(s: State, t: State, c: nat, n: int)
    requires PutIn(s, t, c)
    ensures PutIn(s.(tail := n), t.(tail := n), c)
  {
    var s', t' := s.(tail := n), t.(tail := n);
    forall p: nat | p < |s'.procs| ensures UserMoved(s', t', p, c) { assert UserMoved(s, t, p, c); }
  }

  lemma HelpPutIn(s: State, t: State, c: nat, p: nat)
    requires PutIn(s, t, c) && p < |s.procs|
    ensures PutIn(StepHelpTail(s, p), StepHelpTail(t, Moved(p, c)), c)
  {
    assert UserMoved(s, t, p, c);
    var r := s.procs[p];
    if s.tail == r.t {
      TailPutIn(s, t, c, r.tNext);
      ProcPutIn(s.(tail := r.tNext), t.(tail := r.tNext), c, p, r.(pc := ReadTail));
    } else {
      ProcPutIn(s, t, c, p, r.(pc := ReadTail));
    }
  }

  lemma SentPutIn(s: State, t: State, c: nat, p: nat, msg: Msg)
    requires PutIn(s, t, c) && p < |s.procs|
    ensures var q := Moved(p, c);
            PutIn(s.(sent := s.sent[p := s.sent[p] + [msg]]), t.(sent := t.sent[q := t.sent[q] + [msg]]), c)
  {
    var q := Moved(p, c);
    var s', t' := s.(sent := s.sent[p := s.sent[p] + [msg]]), t.(sent := t.sent[q := t.sent[q] + [msg]]);
    assert UserMoved(s, t, p, c);
    forall u: nat | u < |s'.procs| ensures UserMoved(s', t', u, c) { assert UserMoved(s, t, u, c); }
  }

  lemma SwingPutIn(s: State, t: State, c: nat, p: nat)
    requires PutIn(s, t, c) && p < |s.procs|
    ensures PutIn(StepSwingTail(s, p), StepSwingTail(t, Moved(p, c)), c)
  {
    assert UserMoved(s, t, p, c);
    var r := s.procs[p];
    SentPutIn(s, t, c, p, r.msg);
    var q := Moved(p, c);
    var s1, t1 := s.(sent := s.sent[p := s.sent[p] + [r.msg]]), t.(sent := t.sent[q := t.sent[q] + [r.msg]]);
    if s.tail == r.t {
      TailPutIn(s1, t1, c, r.node);
      ProcPutIn(s1.(tail := r.node), t1.(tail := r.node), c, p, r.(pc := Idle));
    } else {
      ProcPutIn(s1, t1, c, p, r.(pc := Idle));
    }
  }

  lemma CheckPutIn(s: State, t: State, c: nat, p: nat)
    requires PutIn(s, t, c) && p < |s.procs|
    ensures PutIn(StepCheckTail(s, p), StepCheckTail(t, Moved(p, c)), c)
  {
    assert UserMoved(s, t, p, c);
    var r, q := s.procs[p], Moved(p, c);
    var r' := r.(pc := if s.tail != r.t then ReadTail else ReadTailNext);
    ProcPutIn(s, t, c, p, r');
    Auxiliary(SetProc(s, p, r'), SetProc(t, q, r'), c, StepCheckTail(s, p), StepCheckTail(t, q));
  }

  lemma ProducePutIn(s: State, t: State, c: nat, p: nat, msg: Msg)
    requires PutIn(s, t, c) && p < |s.procs|
    ensures PutIn(Produce(s, p, msg), Produce(t, Moved(p, c), msg), c)
  {
    assert UserMoved(s, t, p, c);
    var r := s.procs[p];
    match r.pc
    case Idle => ProcPutIn(s, t, c, p, r.(msg := msg, pc := Claim(0)));
    case Claim(_) => ClaimPutIn(s, t, c, p);
    case Fill(_) => FillPutIn(s, t, c, p);
    case ReadTail => ProcPutIn(s, t, c, p, r.(t := s.tail, pc := PublishTail));
    case PublishTail => PublishPutIn(s, t, c, p);
    case CheckTail => CheckPutIn(s, t, c, p);
    case ReadTailNext =>
      NextPutIn(s, t, c, r.t, 0);
      ProcPutIn(s, t, c, p, StepReadTailNext(s, p).procs[p]);
    case HelpTail => HelpPutIn(s, t, c, p);
    case Link => LinkPutIn(s, t, c, p);
    case SwingTail => SwingPutIn(s, t, c, p);
  }

  // ----- The consumer

  /** The consumer's locals change in both. */
  lemma ConsPutIn(s: State, t: State, c: nat, r: Consumer)
    requires PutIn(s, t, c)
    ensures PutIn(s.(cons := r), t.(cons := r.(pc := MovedPC(r.pc, c))), c)
  {
    var s', t' := s.(cons := r), t.(cons := r.(pc := MovedPC(r.pc, c)));
    forall p: nat | p < |s'.procs| ensures UserMoved(s', t', p, c) { assert UserMoved(s, t, p, c); }
  }

  /** The consumer is about to read the index that s does not have. */
  predicate AtNew(s: State, c: nat) {
    s.cons.pc.Scan? && s.cons.pc.k == c && s.cons.todo != []
  }

  lemma HeadPutIn(s: State, t: State, c: nat, n: int, m: Msg)
    requires PutIn(s, t, c)
    ensures PutIn(s.(head := n, got := s.got + [m]), t.(head := n, got := t.got + [m]), c)
  {
    var s', t' := s.(head := n, got := s.got + [m]), t.(head := n, got := t.got + [m]);
    forall p: nat | p < |s'.procs| ensures UserMoved(s', t', p, c) { assert UserMoved(s, t, p, c); }
  }

  lemma CopyPutIn(s: State, t: State, c: nat)
    requires PutIn(s, t, c) && s.cons.pc.CopyOut?
    ensures PutIn(StepCopyOut(s), StepCopyOut(t), c)
  {
    var r := s.cons;
    if r.pc.c < s.width {
      ConsPutIn(s, t, c, StepCopyOut(s).cons);
    } else {
      StatusPutIn(s, t, c, r.h, Retired);
      var s1, t1 := SetStatus(s, r.h, Retired), SetStatus(t, r.h, Retired);
      HeadPutIn(s1, t1, c, r.hNext, r.out);
      var s2, t2 := s1.(head := r.hNext, got := s.got + [r.out]), t1.(head := r.hNext, got := t.got + [r.out]);
      var r' := StepCopyOut(s).cons;
      ConsPutIn(s2, t2, c, r');
      Auxiliary(s2.(cons := r'), t2.(cons := r'), c, StepCopyOut(s), StepCopyOut(t));
    }
  }

  /** Reading an index that both have; the one before c if the scan has not passed c. */
  lemma ReadPutIn(s: State, t: State, c: nat)
    requires PutIn(s, t, c) && s.cons.pc.Scan? && s.cons.todo != [] && 0 <= s.cons.pc.k < |s.haz| && s.cons.pc.k != c
    ensures PutIn(StepScan(s), StepScan(t), c)
  {
    var k := s.cons.pc.k;
    assert UserMoved(s, t, k, c);
    ConsPutIn(s, t, c, StepScan(s).cons);
  }

  lemma ClearPutIn(s: State, t: State, c: nat)
    requires PutIn(s, t, c) && s.cons.pc.Scan? && s.cons.todo != [] && s.cons.pc.k >= |s.haz| && s.cons.pc.k != c
    ensures PutIn(StepScan(s), StepScan(t), c)
  {
    ClearedPutIn(s, t, c);
    ConsPutIn(Cleared(s), Cleared(t), c, StepScan(s).cons);
  }

  /** Line 190 of the scan for the first slot in todo. */
  function Cleared(s: State): State
    requires s.cons.todo != []
  {
    SetStatus(SetNext(s, s.cons.todo[0], UNDEFINED_NODE), s.cons.todo[0], Clearing)
  }

  lemma ClearedPutIn(s: State, t: State, c: nat)
    requires PutIn(s, t, c) && s.cons.todo != []
    ensures PutIn(Cleared(s), Cleared(t), c)
  {
    var n := s.cons.todo[0];
    NextPutIn(s, t, c, n, UNDEFINED_NODE);
    StatusPutIn(SetNext(s, n, UNDEFINED_NODE), SetNext(t, n, UNDEFINED_NODE), c, n, Clearing);
  }

  lemma ReleasePutIn(s: State, t: State, c: nat)
    requires PutIn(s, t, c) && s.cons.pc.Release?
    ensures PutIn(StepRelease(s), StepRelease(t), c)
  {
    var n := s.cons.victim;
    if InRange(s, n) {
      var a, b := s.slots[n].(used := false, st := Free), t.slots[n].(used := false, st := Free);
      SlotPutIn(s, t, c, n, a, b);
      ConsPutIn(SetSlot(s, n, a), SetSlot(t, n, b), c, s.cons.(pc := Scan(0)));
    } else {
      ConsPutIn(s, t, c, s.cons.(pc := Scan(0)));
    }
  }

  lemma ConsumePutIn(s: State, t: State, c: nat)
    requires PutIn(s, t, c) && RealSlots(s) && !AtNew(s, c)
    ensures PutIn(Consume(s), Consume(t), c)
  {
    match s.cons.pc
    case ReadHead => ConsPutIn(s, t, c, s.cons.(h := s.head, pc := ReadHeadNext));
    case ReadHeadNext =>
      NextPutIn(s, t, c, s.cons.h, 0);
      ConsPutIn(s, t, c, StepReadHeadNext(s).cons);
    case CopyOut(_) => CopyPutIn(s, t, c);
    case Scan(k) =>
      if s.cons.todo == [] { ConsPutIn(s, t, c, s.cons.(pc := ReadHead)); }
      else if k < |s.haz| { ReadPutIn(s, t, c); }
      else { ClearPutIn(s, t, c); }
    case Release => ReleasePutIn(s, t, c);
  }

  /** The new index is read and names nothing; then both do the same. */
  lemma ConsumeAtNew(s: State, t: State, c: nat)
    requires PutIn(s, t, c) && RealSlots(s) && AtNew(s, c)
    ensures PutIn(Consume(s), Consume(Consume(t)), c)
  {
    var t1 := Consume(t);
    assert s.cons.todo[0] != UNDEFINED_NODE;
    assert t1 == t.(cons := t.cons.(pc := Scan(c + 1)));
    if c < |s.haz| {
      assert UserMoved(s, t, c, c);
      ConsPutIn(s, t, c, StepScan(s).cons);
    } else {
      ClearedPutIn(s, t, c);
      ConsPutIn(Cleared(s), Cleared(t), c, StepScan(s).cons);
      assert StepScan(t1) == Cleared(t).(cons := StepScan(s).cons);
    }
  }

  // ----- Runs

  /** User c never enqueues. */
  predicate Spares(acts: seq<Act>, c: nat) {
    forall i :: 0 <= i < |acts| && acts[i].ByProducer? ==> acts[i].p != c
  }

  lemma RunMore(s: State, acts: seq<Act>, a: Act)
    requires Shape(s) && ScheduleOk(acts, s.width, |s.procs|) && ActOk(a, s.width, |s.procs|)
    ensures ScheduleOk(acts + [a], s.width, |s.procs|)
    ensures RunFrom(s, acts + [a]) == Step(RunFrom(s, acts), a)
  {
    assert (acts + [a])[..|acts|] == acts;
  }

  /** Every run has its like with one more user, at index c, that never enqueues. */
  lemma {:induction false} WithIdleUser(width: nat, numSlots: nat, maxUser: nat, acts: seq<Act>, c: nat)
    returns (acts': seq<Act>)
    requires numSlots >= 1 && ScheduleOk(acts, width, maxUser) && c <= maxUser
    ensures ScheduleOk(acts', width, maxUser + 1) && Spares(acts', c)
    ensures RealSlots(RunFrom(Init(width, numSlots, maxUser), acts))
    ensures PutIn(RunFrom(Init(width, numSlots, maxUser), acts), RunFrom(Init(width, numSlots, maxUser + 1), acts'), c)
  {
    var s0, t0 := Init(width, numSlots, maxUser), Init(width, numSlots, maxUser + 1);
    InitPutIn(width, numSlots, maxUser, c);
    acts' := [];
    if acts != [] {
      var a, before := acts[|acts| - 1], acts[..|acts| - 1];
      assert ActOk(a, width, maxUser);
      acts' := WithIdleUser(width, numSlots, maxUser, before, c);
      acts' := OneMoreStep(RunFrom(s0, before), a, t0, acts', c);
    }
  }

  lemma OneMoreStep(s: State, a: Act, t0: State, acts: seq<Act>, c: nat) returns (acts': seq<Act>)
    requires Shape(s) && RealSlots(s) && ActOk(a, s.width, |s.procs|)
    requires t0.width == s.width && |t0.procs| == |s.procs| + 1
    requires Shape(t0) && ScheduleOk(acts, t0.width, |t0.procs|) && Spares(acts, c) && PutIn(s, RunFrom(t0, acts), c)
    ensures ScheduleOk(acts', t0.width, |t0.procs|) && Spares(acts', c)
    ensures RealSlots(Step(s, a)) && PutIn(Step(s, a), RunFrom(t0, acts'), c)
  {
    match a
    case ByProducer(p, msg) => acts' := OneMoreByProducer(s, p, msg, t0, acts, c);
    case ByConsumer => acts' := OneMoreByConsumer(s, t0, acts, c);
  }

  lemma OneMoreByProducer(s: State, p: nat, msg: Msg, t0: State, acts: seq<Act>, c: nat) returns (acts': seq<Act>)
    requires Shape(s) && RealSlots(s) && p < |s.procs| && |msg| == s.width
    requires Shape(t0) && t0.width == s.width && |t0.procs| == |s.procs| + 1
    requires ScheduleOk(acts, t0.width, |t0.procs|) && Spares(acts, c) && PutIn(s, RunFrom(t0, acts), c)
    ensures ScheduleOk(acts', t0.width, |t0.procs|) && Spares(acts', c)
    ensures RealSlots(Produce(s, p, msg)) && PutIn(Produce(s, p, msg), RunFrom(t0, acts'), c)
  {
    var b := ByProducer(Moved(p, c), msg);
    RunMore(t0, acts, b);
    ProducePutIn(s, RunFrom(t0, acts), c, p, msg);
    RealSlotsProduced(s, p, msg);
    acts' := acts + [b];
  }

  lemma OneMoreByConsumer(s: State, t0: State, acts: seq<Act>, c: nat) returns (acts': seq<Act>)
    requires Shape(s) && RealSlots(s)
    requires Shape(t0) && t0.width == s.width && |t0.procs| == |s.procs| + 1
    requires ScheduleOk(acts, t0.width, |t0.procs|) && Spares(acts, c) && PutIn(s, RunFrom(t0, acts), c)
    ensures ScheduleOk(acts', t0.width, |t0.procs|) && Spares(acts', c)
    ensures RealSlots(Consume(s)) && PutIn(Consume(s), RunFrom(t0, acts'), c)
  {
    RealSlotsStay(s);
    RunMore(t0, acts, ByConsumer);
    acts' := acts + [ByConsumer];
    if AtNew(s, c) {
      RunMore(t0, acts', ByConsumer);
      ConsumeAtNew(s, RunFrom(t0, acts), c);
      acts' := acts' + [ByConsumer];
    } else {
      ConsumePutIn(s, RunFrom(t0, acts), c);
    }
  }
}
