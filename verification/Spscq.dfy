/**
 The single-producer single-consumer ring of src/spscq.c as a transition system. The two processes
 interleave freely and copy a message one cell per step.
 */
module Spscq {
  import opened Common
  import opened Cyclic

  datatype ProducerPC =
    | PIdle
    | CheckFull     // 59 reads head
    | Fill(c: int)  // 65, cell c; past the last cell, 71 stores next_slot

  datatype ConsumerPC =
    | CIdle
    | CheckEmpty    // 82 reads next_slot
    | Drain(c: int) // 88, cell c; past the last cell, 94 stores head

  /** Auxiliary: accepted, the messages enqueued so far; delivered, the messages dequeued so far. */
  datatype State = State(
    width: nat,
    head: int, next: int,
    slots: seq<Msg>,
    ppc: ProducerPC, msg: Msg,
    cpc: ConsumerPC, out: Msg,
    accepted: seq<Msg>, delivered: seq<Msg>)

  ghost predicate Shape(s: State) { |s.slots| >= 1 && 0 <= s.head < |s.slots| && 0 <= s.next < |s.slots| }

  /** spscq_enqueue; an idle producer begins to enqueue msg. */
  function Produce(s: State, msg: Msg): State
    requires Shape(s)
  {
    match s.ppc
    case PIdle => s.(ppc := CheckFull, msg := msg)
    case CheckFull => s.(ppc := if (s.next + 1) % |s.slots| == s.head then PIdle else Fill(0))
    case Fill(c) =>
      if c < s.width then
        s.(slots := s.slots[s.next := SetWord(s.slots[s.next], c, Word(s.msg, c))], ppc := Fill(c + 1))
      else
        s.(next := (s.next + 1) % |s.slots|, accepted := s.accepted + [s.msg], ppc := PIdle)
  }

  /** spscq_dequeue. */
  function Consume(s: State): State
    requires Shape(s)
  {
    match s.cpc
    case CIdle => s.(cpc := CheckEmpty)
    case CheckEmpty => s.(cpc := if s.head == s.next then CIdle else Drain(0), out := [])
    case Drain(c) =>
      if c < s.width then
        s.(out := s.out + [Word(s.slots[s.head], c)], cpc := Drain(c + 1))
      else
        s.(head := (s.head + 1) % |s.slots|, delivered := s.delivered + [s.out], cpc := CIdle)
  }

  datatype Act = ByProducer(msg: Msg) | ByConsumer

  function Step(s: State, a: Act): (s': State)
    requires Shape(s)
    ensures Shape(s') && s'.width == s.width && |s'.slots| == |s.slots|
  {
    match a
    case ByProducer(msg) => Produce(s, msg)
    case ByConsumer => Consume(s)
  }

  /** After spscq_get: both indexes are 0, the slots hold anything. */
  ghost predicate Initial(s: State) {
    && Shape(s) && s.head == 0 && s.next == 0 && s.ppc == PIdle && s.cpc == CIdle
    && s.accepted == [] && s.delivered == []
    && forall i :: 0 <= i < |s.slots| ==> |s.slots[i]| == s.width
  }

  predicate ScheduleOk(acts: seq<Act>, width: nat) {
    forall i :: 0 <= i < |acts| ==> acts[i].ByProducer? ==> |acts[i].msg| == width
  }

  ghost function Run(s: State, acts: seq<Act>): (s': State)
    requires Shape(s) && ScheduleOk(acts, s.width)
    ensures Shape(s') && s'.width == s.width && |s'.slots| == |s.slots|
  {
    if acts == [] then s else Step(Run(s, acts[..|acts| - 1]), acts[|acts| - 1])
  }

  // ----- The invariant

  /** The k-th accepted message is still in its slot. */
  ghost predicate SlotOk(s: State, k: int)
    requires Shape(s) && 0 <= k < |s.accepted|
  {
    s.slots[k % |s.slots|] == s.accepted[k]
  }

  ghost predicate Inv(s: State) {
    && Shape(s)
    && (var n, rd, wr := |s.slots|, |s.delivered|, |s.accepted|;
        && rd <= wr <= rd + n - 1
        && s.head == rd % n && s.next == wr % n
        && s.delivered == s.accepted[..rd]
        && (forall i :: 0 <= i < n ==> |s.slots[i]| == s.width)
        && (forall k :: 0 <= k < wr ==> |s.accepted[k]| == s.width)
        && (forall k :: rd <= k < wr ==> SlotOk(s, k))
        && (!s.ppc.PIdle? ==> |s.msg| == s.width)
        && (s.ppc.Fill? ==>
              && wr + 1 <= rd + n - 1 && 0 <= s.ppc.c <= s.width
              && s.slots[s.next][..s.ppc.c] == s.msg[..s.ppc.c])
        && (s.cpc.Drain? ==> rd < wr && 0 <= s.cpc.c <= s.width && s.out == s.accepted[rd][..s.cpc.c]))
  }

  lemma InitialInv(s: State)
    requires Initial(s)
    ensures Inv(s)
  {
    Small(0, |s.slots|);
  }

  /** Positions less than a round apart are in different slots. */
  lemma DifferentSlots(a: int, b: int, n: int)
    requires n >= 1 && a < b < a + n
    ensures a % n != b % n
  {
    if a % n == b % n { Apart(a, b, n); }
  }

  /** Line 59 finds the ring full exactly if numSlots - 1 messages are in it at that moment. */
  lemma FullExactly(s: State)
    requires Inv(s)
    ensures (s.next + 1) % |s.slots| == s.head <==> |s.accepted| - |s.delivered| == |s.slots| - 1
  {
    var n, rd, wr := |s.slots|, |s.delivered|, |s.accepted|;
    Next(wr, n);
    if wr + 1 == rd + n { Round(rd, n); } else { DifferentSlots(rd, wr + 1, n); }
  }

  /** Line 82 finds the ring empty exactly if everything accepted was delivered. */
  lemma EmptyExactly(s: State)
    requires Inv(s)
    ensures s.head == s.next <==> s.delivered == s.accepted
  {
    var n, rd, wr := |s.slots|, |s.delivered|, |s.accepted|;
    if rd < wr { DifferentSlots(rd, wr, n); }
  }

  lemma FillInv(s: State, msg: Msg)
    requires Inv(s) && s.ppc.Fill? && s.ppc.c < s.width
    ensures Inv(Produce(s, msg))
  {
    var n, s', c := |s.slots|, Produce(s, msg), s.ppc.c;
    var d := s.slots[s.next];
    assert SetWord(d, c, s.msg[c])[..c + 1] == d[..c] + [s.msg[c]] == s.msg[..c + 1];
    forall k | |s.delivered| <= k < |s.accepted| ensures SlotOk(s', k) {
      assert SlotOk(s, k);
      DifferentSlots(k, |s.accepted|, n);
    }
  }

  lemma AcceptInv(s: State, msg: Msg)
    requires Inv(s) && s.ppc.Fill? && s.ppc.c >= s.width
    ensures Inv(Produce(s, msg))
  {
    var n, s' := |s.slots|, Produce(s, msg);
    Next(|s.accepted|, n);
    assert s.slots[s.next][..s.width] == s.slots[s.next] && s.msg[..s.width] == s.msg;
    forall k | |s.delivered| <= k < |s'.accepted| ensures SlotOk(s', k) {
      assert k < |s.accepted| ==> SlotOk(s, k);
    }
  }

  lemma DrainInv(s: State)
    requires Inv(s) && s.cpc.Drain?
    ensures Inv(Consume(s))
  {
    var n, s', c, rd := |s.slots|, Consume(s), s.cpc.c, |s.delivered|;
    assert SlotOk(s, rd);
    var m := s.accepted[rd];
    if c < s.width {
      assert m[..c + 1] == m[..c] + [m[c]];
    } else {
      assert m[..s.width] == m;
      Next(rd, n);
      assert s.accepted[..rd + 1] == s.accepted[..rd] + [m];
    }
    forall k | |s'.delivered| <= k < |s'.accepted| ensures SlotOk(s', k) { assert SlotOk(s, k); }
  }

  lemma StepInv(s: State, a: Act)
    requires Inv(s) && (a.ByProducer? ==> |a.msg| == s.width)
    ensures Inv(Step(s, a))
  {
    var s' := Step(s, a);
    if a.ByProducer? && s.ppc.Fill? {
      if s.ppc.c < s.width { FillInv(s, a.msg); } else { AcceptInv(s, a.msg); }
    } else if a.ByConsumer? && s.cpc.Drain? {
      DrainInv(s);
    } else {
      FullExactly(s);
      EmptyExactly(s);
      forall k | |s.delivered| <= k < |s.accepted| ensures SlotOk(s', k) { assert SlotOk(s, k); }
    }
  }

  lemma {:induction false} RunInv(s: State, acts: seq<Act>)
    requires Initial(s) && ScheduleOk(acts, s.width)
    ensures Inv(Run(s, acts))
  {
    if acts == [] {
      InitialInv(s);
    } else {
      RunInv(s, acts[..|acts| - 1]);
      StepInv(Run(s, acts[..|acts| - 1]), acts[|acts| - 1]);
    }
  }

  // ----- What the calls return

  /** spscq_enqueue returns -1 exactly if numSlots - 1 messages are in the ring when it reads head. */
  lemma EnqueueReturns(s: State, msg: Msg)
    requires Inv(s) && !s.ppc.PIdle?
    ensures var s', full := Produce(s, msg), |s.accepted| - |s.delivered| == |s.slots| - 1;
            && (s.ppc.CheckFull? ==> (s'.ppc.PIdle? <==> full))
            && (s'.ppc.PIdle? ==> s'.accepted == if full then s.accepted else s.accepted + [s.msg])
            && (!s'.ppc.PIdle? ==> s'.accepted == s.accepted)
  {
    FullExactly(s);
  }

  /** spscq_dequeue returns -1 exactly if the ring is empty when it reads next_slot. */
  lemma DequeueReturns(s: State)
    requires Inv(s) && !s.cpc.CIdle?
    ensures var s', empty := Consume(s), s.delivered == s.accepted;
            && (s.cpc.CheckEmpty? ==> (s'.cpc.CIdle? <==> empty))
            && (s'.cpc.CIdle? ==>
                  s'.delivered == if empty then s.delivered else s.accepted[..|s.delivered| + 1])
            && (!s'.cpc.CIdle? ==> s'.delivered == s.delivered)
  {
    EmptyExactly(s);
    if s.cpc.Drain? && s.cpc.c >= s.width {
      DrainInv(s);
    }
  }

  /** The messages with which the schedule began to enqueue. */
  ghost function Begun(s: State, acts: seq<Act>): seq<Msg>
    requires Shape(s) && ScheduleOk(acts, s.width)
  {
    if acts == [] then []
    else
      var a, before := acts[|acts| - 1], acts[..|acts| - 1];
      Begun(s, before) + if a.ByProducer? && Run(s, before).ppc.PIdle? then [a.msg] else []
  }

  /** For each enqueue that returned, whether its last step put a message into the ring. */
  ghost function Returned(s: State, acts: seq<Act>): seq<bool>
    requires Shape(s) && ScheduleOk(acts, s.width)
  {
    if acts == [] then []
    else
      var before := acts[..|acts| - 1];
      var t, t' := Run(s, before), Run(s, acts);
      Returned(s, before) + if !t.ppc.PIdle? && t'.ppc.PIdle? then [t'.accepted != t.accepted] else []
  }

  ghost predicate CallsOk(t: State, begun: seq<Msg>, ok: seq<bool>) {
    && |begun| == |ok| + (if t.ppc.PIdle? then 0 else 1)
    && (!t.ppc.PIdle? ==> t.msg == begun[|ok|])
    && t.accepted == Successful(begun, ok)
  }

  lemma CallsStep(t: State, a: Act, begun: seq<Msg>, ok: seq<bool>)
    requires Inv(t) && (a.ByProducer? ==> |a.msg| == t.width) && CallsOk(t, begun, ok)
    ensures
      var t' := Step(t, a);
      CallsOk(t', begun + if a.ByProducer? && t.ppc.PIdle? then [a.msg] else [],
              ok + if !t.ppc.PIdle? && t'.ppc.PIdle? then [t'.accepted != t.accepted] else [])
  {
    assert begun + [] == begun && ok + [] == ok;
    if a.ByProducer? {
      if t.ppc.PIdle? {
        SuccessfulSame(begun, begun + [a.msg], ok);
      } else {
        EnqueueReturns(t, a.msg);
        var t' := Step(t, a);
        if t'.ppc.PIdle? {
          SuccessfulNext(begun, ok, t'.accepted != t.accepted);
        }
      }
    }
  }

  /**
   In every interleaving the accepted messages are those with which the schedule began the calls that
   succeeded, in their order; every call that began has returned or is running.
   */
  lemma {:induction false} AcceptedAsBegun(s: State, acts: seq<Act>)
    requires Initial(s) && ScheduleOk(acts, s.width)
    ensures CallsOk(Run(s, acts), Begun(s, acts), Returned(s, acts))
  {
    if acts != [] {
      var before := acts[..|acts| - 1];
      AcceptedAsBegun(s, before);
      RunInv(s, before);
      CallsStep(Run(s, before), acts[|acts| - 1], Begun(s, before), Returned(s, before));
    }
  }

  // ----- How many steps a call takes

  /** The steps that the producer made in its call, or in its last one if it is in none. */
  ghost function ProducerSteps(s: State, acts: seq<Act>): nat
    requires Shape(s) && ScheduleOk(acts, s.width)
  {
    if acts == [] then 0
    else
      var a, before := acts[|acts| - 1], acts[..|acts| - 1];
      if a.ByConsumer? then ProducerSteps(s, before)
      else if Run(s, before).ppc.PIdle? then 1 else ProducerSteps(s, before) + 1
  }

  ghost function ConsumerSteps(s: State, acts: seq<Act>): nat
    requires Shape(s) && ScheduleOk(acts, s.width)
  {
    if acts == [] then 0
    else
      var a, before := acts[|acts| - 1], acts[..|acts| - 1];
      if a.ByProducer? then ConsumerSteps(s, before)
      else if Run(s, before).cpc.CIdle? then 1 else ConsumerSteps(s, before) + 1
  }

  /** The steps that a call still needs. */
  function ProducerRank(s: State): nat {
    match s.ppc
    case PIdle => 0
    case CheckFull => s.width + 2
    case Fill(c) => if c <= s.width then s.width + 1 - c else 0
  }

  function ConsumerRank(s: State): nat {
    match s.cpc
    case CIdle => 0
    case CheckEmpty => s.width + 2
    case Drain(c) => if c <= s.width then s.width + 1 - c else 0
  }

  /** Each step of a call takes it nearer to its return, and the other process cannot set it back. */
  lemma RankDecreases(s: State, a: Act)
    requires Inv(s)
    ensures
      var s' := Step(s, a);
      if a.ByProducer?
      then && ConsumerRank(s') == ConsumerRank(s)
           && if s.ppc.PIdle? then ProducerRank(s') == s.width + 2 else ProducerRank(s') < ProducerRank(s)
      else && ProducerRank(s') == ProducerRank(s)
           && if s.cpc.CIdle? then ConsumerRank(s') == s.width + 2 else ConsumerRank(s') < ConsumerRank(s)
  {
  }

  /** Both calls are wait-free: a call takes at most width + 3 steps, whatever the other process does. */
  lemma {:induction false} WaitFree(s: State, acts: seq<Act>)
    requires Initial(s) && ScheduleOk(acts, s.width)
    ensures ProducerSteps(s, acts) + ProducerRank(Run(s, acts)) <= s.width + 3
    ensures ConsumerSteps(s, acts) + ConsumerRank(Run(s, acts)) <= s.width + 3
    ensures (Run(s, acts).ppc.PIdle? <==> ProducerRank(Run(s, acts)) == 0)
         && (Run(s, acts).cpc.CIdle? <==> ConsumerRank(Run(s, acts)) == 0)
  {
    if acts != [] {
      var before := acts[..|acts| - 1];
      WaitFree(s, before);
      RunInv(s, before);
      RankDecreases(Run(s, before), acts[|acts| - 1]);
    }
    RunInv(s, acts);
  }

  /**
   In every interleaving the delivered messages are a prefix of the accepted ones, at most numSlots - 1
   behind, and a copy in flight by the producer and one by the consumer are never in the same slot.
   */
  lemma RingRefinesFifo(s: State, acts: seq<Act>)
    requires Initial(s) && ScheduleOk(acts, s.width)
    ensures
      var t := Run(s, acts);
      && t.delivered <= t.accepted
      && |t.accepted| - |t.delivered| <= |t.slots| - 1
      && (t.ppc.Fill? && t.cpc.Drain? ==> t.next != t.head)
  {
    RunInv(s, acts);
    var t := Run(s, acts);
    if t.ppc.Fill? && t.cpc.Drain? {
      DifferentSlots(|t.delivered|, |t.accepted|, |t.slots|);
    }
  }
}
