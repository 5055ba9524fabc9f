/** The consumer of Lfmpscq.dfy receives exactly the linked messages, in link order. */
module LfmpscqDelivery {
  import opened Common
  import opened Lfmpscq
  import opened LfmpscqSafety

  /** The messages on the list, front first: the data of every node but the dummy. */
  function Messages(s: State, chain: seq<int>): seq<Msg> {
    if |chain| <= 1 then [] else Messages(s, chain[..|chain| - 1]) + [DataOf(s, chain[|chain| - 1])]
  }

  function Fifo(s: State): seq<Msg> {
    Messages(s, s.chain)
  }

  function MessagesOf(log: seq<Entry>): seq<Msg> {
    if log == [] then [] else MessagesOf(log[..|log| - 1]) + [log[|log| - 1].msg]
  }

  function SentBy(log: seq<Entry>, p: nat): seq<Msg> {
    if log == [] then []
    else SentBy(log[..|log| - 1], p) + if log[|log| - 1].p == p then [log[|log| - 1].msg] else []
  }

  /**
   What was delivered, followed by what is in the queue, is what was linked; and what a producer linked is
   what its successful calls sent, plus the message of a call that has linked but not returned.
   */
  ghost predicate Delivered(s: State)
    requires Shape(s)
  {
    && s.got + Fifo(s) == MessagesOf(s.linked)
    && forall p :: 0 <= p < |s.procs| ==> SentOk(s, p)
  }

  ghost predicate SentOk(s: State, p: nat)
    requires Shape(s) && p < |s.procs|
  {
    SentBy(s.linked, p) == s.sent[p] + if s.procs[p].pc.SwingTail? then [s.procs[p].msg] else []
  }

  /** Nobody is in a call but a consumer whose last look found the queue empty. */
  ghost predicate Quiet(s: State) {
    && (forall p :: 0 <= p < |s.procs| ==> s.procs[p].pc.Idle?)
    && s.cons.pc.ReadHead? && NextOf(s, s.head) == UNDEFINED_NODE
  }

  lemma {:induction false} MessagesSame(s: State, s': State, c: seq<int>)
    requires forall i :: 1 <= i < |c| ==> DataOf(s', c[i]) == DataOf(s, c[i])
    ensures Messages(s', c) == Messages(s, c)
  {
    if |c| > 1 {
      MessagesSame(s, s', c[..|c| - 1]);
    }
  }

  lemma {:induction false} MessagesFront(s: State, c: seq<int>)
    requires |c| >= 2
    ensures Messages(s, c) == [DataOf(s, c[1])] + Messages(s, c[1..])
  {
    var d := c[..|c| - 1];
    if |c| == 2 {
      assert Messages(s, d) == [];
    } else {
      MessagesFront(s, d);
      assert d[1..] == c[1..][..|c| - 2];
    }
  }

  lemma LinkDelivers(s: State, p: nat)
    requires Inv(s) && Delivered(s) && p < |s.procs| && Links(s, p)
    ensures Delivered(StepLink(s, p))
  {
    var s' := StepLink(s, p);
    LinkFacts(s, p);
    assert ProcOk(s, p);
    assert s'.chain[..|s'.chain| - 1] == s.chain;
    MessagesSame(s, s', s.chain);
    assert s'.linked[..|s.linked|] == s.linked;
    forall q | 0 <= q < |s'.procs| ensures SentOk(s', q) { LinkSent(s, p, q); }
  }

  lemma LinkSent(s: State, p: nat, q: nat)
    requires Shape(s) && p < |s.procs| && Links(s, p) && q < |s.procs| && SentOk(s, q)
    ensures SentOk(StepLink(s, p), q)
  {
    assert StepLink(s, p).linked[..|s.linked|] == s.linked;
  }

  /** Line 216: the message the consumer copied is the front of the queue. */
  lemma MoveHeadDelivers(s: State)
    requires Inv(s) && Delivered(s) && s.cons.pc.CopyOut? && s.cons.pc.c >= s.width
    ensures Delivered(StepCopyOut(s))
  {
    var s' := StepCopyOut(s);
    forall q | 0 <= q < |s'.procs| ensures SentOk(s', q) { assert SentOk(s, q); }
    MessagesFront(s, s.chain);
    MessagesSame(s, s', s.chain[1..]);
    var d := DataOf(s, s.cons.hNext);
    assert d[..s.width] == d;
  }

  /** Line 205: if the consumer reports an empty queue, it is empty when it reads next. */
  lemma ReadsEmpty(s: State)
    requires Inv(s) && s.cons.pc.ReadHeadNext?
    ensures NextOf(s, s.cons.h) == UNDEFINED_NODE <==> Fifo(s) == []
  {
    NextOfHead(s);
    if |s.chain| >= 2 {
      assert InRange(s, s.chain[1]);
      MessagesFront(s, s.chain);
    }
  }

  lemma SwingDelivers(s: State, p: nat)
    requires Shape(s) && Delivered(s) && p < |s.procs| && s.procs[p].pc.SwingTail?
    ensures Delivered(StepSwingTail(s, p))
  {
    var s' := StepSwingTail(s, p);
    forall q | 0 <= q < |s'.procs| ensures SentOk(s', q) { assert SentOk(s, q); }
    MessagesSame(s, s', s.chain);
  }

  lemma ProducerElse(s: State, p: nat, msg: Msg)
    requires Inv(s) && Delivered(s) && p < |s.procs| && !Links(s, p) && !s.procs[p].pc.SwingTail?
    ensures Delivered(Produce(s, p, msg))
  {
    NothingSent(s, p, msg);
    var s' := Produce(s, p, msg);
    FifoStays(s, p, msg);
    forall q | 0 <= q < |s'.procs| ensures SentOk(s', q) { assert SentOk(s, q); }
  }

  lemma NothingSent(s: State, p: nat, msg: Msg)
    requires Shape(s) && p < |s.procs| && !Links(s, p) && !s.procs[p].pc.SwingTail?
    ensures var s' := Produce(s, p, msg);
            && s'.linked == s.linked && s'.sent == s.sent && s'.got == s.got && s'.chain == s.chain
            && !s'.procs[p].pc.SwingTail?
            && forall q :: 0 <= q < |s.procs| && q != p ==> s'.procs[q] == s.procs[q]
  {
  }

  lemma FifoStays(s: State, p: nat, msg: Msg)
    requires Inv(s) && p < |s.procs| && !Links(s, p) && Produce(s, p, msg).chain == s.chain
    ensures Fifo(Produce(s, p, msg)) == Fifo(s)
  {
    var s' := Produce(s, p, msg);
    assert ProcOk(s, p);
    forall i | 1 <= i < |s.chain| ensures DataOf(s', s.chain[i]) == DataOf(s, s.chain[i]) {
      assert InRange(s, s.chain[i]) && s.slots[s.chain[i]].st == Linked;
    }
    MessagesSame(s, s', s.chain);
  }

  lemma ConsumerElse(s: State)
    requires Inv(s) && Delivered(s) && !(s.cons.pc.CopyOut? && s.cons.pc.c >= s.width)
    ensures Delivered(Consume(s))
  {
    var s' := Consume(s);
    NothingGot(s);
    forall q | 0 <= q < |s'.procs| ensures SentOk(s', q) { assert SentOk(s, q); }
    forall i | 1 <= i < |s.chain| ensures DataOf(s', s.chain[i]) == DataOf(s, s.chain[i]) { SameData(s, s.chain[i]); }
    MessagesSame(s, s', s.chain);
  }

  lemma NothingGot(s: State)
    requires Shape(s) && !(s.cons.pc.CopyOut? && s.cons.pc.c >= s.width)
    ensures var s' := Consume(s);
            && s'.linked == s.linked && s'.sent == s.sent && s'.got == s.got && s'.chain == s.chain
            && s'.procs == s.procs
  {
  }

  lemma SameData(s: State, n: int)
    requires Shape(s)
    ensures DataOf(Consume(s), n) == DataOf(s, n)
  {
  }

  lemma ProducerDelivers(s: State, p: nat, msg: Msg)
    requires Inv(s) && Delivered(s) && p < |s.procs|
    ensures Delivered(Produce(s, p, msg))
  {
    if Links(s, p) {
      LinkDelivers(s, p);
    } else if s.procs[p].pc.SwingTail? {
      SwingDelivers(s, p);
    } else {
      ProducerElse(s, p, msg);
    }
  }

  lemma StepDelivers(s: State, a: Act)
    requires Inv(s) && Delivered(s) && ActOk(a, s.width, |s.procs|)
    ensures Delivered(Step(s, a))
  {
    match a
    case ByProducer(p, msg) => ProducerDelivers(s, p, msg);
    case ByConsumer =>
      if s.cons.pc.CopyOut? && s.cons.pc.c >= s.width { MoveHeadDelivers(s); } else { ConsumerElse(s); }
  }

  lemma InitDelivered(width: nat, numSlots: nat, maxUser: nat)
    requires numSlots >= 1
    ensures Delivered(Init(width, numSlots, maxUser))
  {
  }

  /**
   No message is lost, duplicated or reordered in any run without a late check, although every read
   of a shared index is a step of its own.
   */
  lemma {:induction false} NoLossUnlessLate(width: nat, numSlots: nat, maxUser: nat, acts: seq<Act>)
    requires numSlots >= 1 && ScheduleOk(acts, width, maxUser) && NoLateCheck(Init(width, numSlots, maxUser), acts)
    ensures Delivered(RunFrom(Init(width, numSlots, maxUser), acts))
  {
    var s0 := Init(width, numSlots, maxUser);
    InitInv(width, numSlots, maxUser);
    InitDelivered(width, numSlots, maxUser);
    if acts != [] {
      var a, before := acts[|acts| - 1], acts[..|acts| - 1];
      assert ActOk(a, width, maxUser);
      assert forall i :: 0 <= i < |before| ==> before[..i] == acts[..i];
      NoLossUnlessLate(width, numSlots, maxUser, before);
      RunInv(s0, before);
      StepDelivers(RunFrom(s0, before), a);
    }
  }

  lemma {:induction false} FinishScanDelivers(s: State)
    requires Inv(s) && Delivered(s) && s.cons.pc.Scan? && s.cons.todo != []
    ensures Delivered(FinishScan(s))
    decreases |s.haz| - s.cons.pc.k
  {
    if s.cons.pc.k < |s.haz| {
      KeepScanRead(s);
      ConsumerElse(s);
      if s.haz[s.cons.pc.k] != s.cons.todo[0] {
        FinishScanDelivers(StepScan(s));
      }
    }
  }

  /** With the scan for one slot taken as one step, no message is lost, duplicated or reordered in any run. */
  lemma {:induction false} NoLossWithAtomicScan(width: nat, numSlots: nat, maxUser: nat, acts: seq<Act>)
    requires numSlots >= 1 && ScheduleOk(acts, width, maxUser)
    ensures Delivered(AtomicScanRun(width, numSlots, maxUser, acts))
  {
    if acts == [] {
      InitDelivered(width, numSlots, maxUser);
    } else {
      var a, before := acts[|acts| - 1], acts[..|acts| - 1];
      assert ActOk(a, width, maxUser);
      NoLossWithAtomicScan(width, numSlots, maxUser, before);
      AtomicScanRunInv(width, numSlots, maxUser, before);
      var s := AtomicScanRun(width, numSlots, maxUser, before);
      if a.ByConsumer? && s.cons.pc.Scan? && s.cons.todo != [] && s.cons.pc.k < |s.haz| {
        FinishScanDelivers(s);
      } else {
        StepDelivers(s, a);
      }
    }
  }
}
