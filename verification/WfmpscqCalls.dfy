/** What the calls of Wfmpscq.dfy return, and how many steps they take. */
module WfmpscqCalls {
  import opened Common
  import C = Cyclic
  import opened Wfmpscq
  import opened WfmpscqSafety

  function MsgsOf(log: seq<Entry>): (msgs: seq<Msg>)
    ensures |msgs| == |log| && forall k :: 0 <= k < |log| ==> msgs[k] == log[k].msg
  {
    seq(|log|, k requires 0 <= k < |log| => log[k].msg)
  }

  /** Ring w holds numSlots - 1 messages. */
  predicate Full(s: State, w: nat)
    requires w < |s.rings|
  {
    |s.rings[w].log| - s.rings[w].taken == s.numSlots - 1
  }

  /** A ring is found full exactly if numSlots - 1 messages are in it. */
  lemma FullTells(s: State, w: nat)
    requires Inv(s) && w < |s.rings|
    ensures (s.rings[w].tail + 1) % s.numSlots == s.rings[w].head <==> Full(s, w)
  {
    var r, n := s.rings[w], s.numSlots;
    assert RingOk(s, w);
    C.Next(|r.log|, n);
    if Full(s, w) {
      C.Round(r.taken, n);
    } else if (r.tail + 1) % n == r.head {
      C.Apart(r.taken, |r.log| + 1, n);
    }
  }

  /**
   wfmpscq_enqueue returns -1 exactly if numSlots - 1 messages are in the ring of its writer when it reads head,
   and then it takes no id; else it ends only with its message published, the last of the ring.
   */
  lemma EnqueueReturns(s: State, w: nat, msg: Msg)
    requires Inv(s) && Shape(s) && w < |s.rings| && !s.rings[w].pc.WIdle?
    ensures var s' := Write(s, w, msg);
            var r, r' := s.rings[w], s'.rings[w];
            && (r.pc.CheckFull? ==> (r'.pc.WIdle? <==> Full(s, w)))
            && (if r'.pc.WIdle? && !Full(s, w)
                then |r'.log| == |r.log| + 1 && r'.log[..|r.log|] == r.log && r'.log[|r.log|] == Entry(r.id, r.msg)
                else r'.log == r.log)
            && (r'.pc.WIdle? && Full(s, w) ==> r.pc.CheckFull? && s'.issued == s.issued && s'.idCnt == s.idCnt)
            && (!r'.pc.WIdle? ==> r'.msg == r.msg)
  {
    FullTells(s, w);
    assert RingOk(s, w);
  }

  /** The counter for ids: an id is the number of ids given before it, as an unsigned int, and is given once. */
  lemma IdStep(s: State, w: nat, msg: Msg)
    requires Shape(s) && w < |s.rings| && s.idCnt == s.issued % TWO_TO_THE_64
    ensures var s' := Write(s, w, msg);
            && s'.idCnt == s'.issued % TWO_TO_THE_64
            && if s.rings[w].pc.TakeId? then s'.issued == s.issued + 1 && s'.rings[w].id == s.issued % TWO_TO_THE_32
               else s'.issued == s.issued && s'.rings[w].id == s.rings[w].id
  {
    if s.rings[w].pc.TakeId? {
      LowBits(s.issued);
      C.Next(s.issued, TWO_TO_THE_64);
    }
  }

  /** In every run, also beyond the limit of the merge, the counter holds the number of ids given so far. */
  lemma {:induction false} IdsAreCounted(states: seq<State>, acts: seq<Act>, i: nat)
    requires IsRun(states, acts) && i < |states|
    ensures states[i].idCnt == states[i].issued % TWO_TO_THE_64
    ensures i > 0 && acts[i - 1].ByWriter? && states[i].issued != states[i - 1].issued ==>
              && acts[i - 1].w < |states[i].rings|
              && states[i].issued == states[i - 1].issued + 1
              && states[i].rings[acts[i - 1].w].id == states[i - 1].issued % TWO_TO_THE_32
  {
    if i == 0 {
      C.Small(0, TWO_TO_THE_64);
    } else {
      IdsAreCounted(states, acts, i - 1);
      assert StepOf(states[i - 1], acts[i - 1], states[i]);
      match acts[i - 1] {
        case ByWriter(w, msg) => IdStep(states[i - 1], w, msg);
        case ByConsumer => ConsumerIds(states[i - 1]);
      }
    }
  }

  lemma ConsumerIds(s: State)
    requires Shape(s) && ConsumerShape(s)
    ensures Dequeue(s).idCnt == s.idCnt && Dequeue(s).issued == s.issued
  {
  }

  // ----- The calls of a writer

  predicate By(a: Act, w: nat) { a.ByWriter? && a.w == w }

  /** The messages with which the first i steps began calls of writer w. */
  ghost function Begun(states: seq<State>, acts: seq<Act>, w: nat, i: nat): seq<Msg>
    requires i <= |acts| < |states|
  {
    if i == 0 then []
    else
      var s, a := states[i - 1], acts[i - 1];
      Begun(states, acts, w, i - 1)
      + if By(a, w) && w < |s.rings| && s.rings[w].pc.WIdle? then [a.msg] else []
  }

  /** For each call of writer w that returned, whether its last step published a message. */
  ghost function Returned(states: seq<State>, w: nat, i: nat): seq<bool>
    requires i < |states|
  {
    if i == 0 then []
    else
      var s, s' := states[i - 1], states[i];
      Returned(states, w, i - 1)
      + if w < |s.rings| && w < |s'.rings| && !s.rings[w].pc.WIdle? && s'.rings[w].pc.WIdle?
        then [s'.rings[w].log != s.rings[w].log] else []
  }

  ghost predicate CallsOk(r: Ring, begun: seq<Msg>, ok: seq<bool>) {
    && |begun| == |ok| + (if r.pc.WIdle? then 0 else 1)
    && (!r.pc.WIdle? ==> r.msg == begun[|ok|])
    && MsgsOf(r.log) == Successful(begun, ok)
  }

  lemma WriterBegins(s: State, w: nat, msg: Msg, begun: seq<Msg>, ok: seq<bool>)
    requires Shape(s) && w < |s.rings| && s.rings[w].pc.WIdle? && CallsOk(s.rings[w], begun, ok)
    ensures CallsOk(Write(s, w, msg).rings[w], begun + [msg], ok)
  {
    SuccessfulSame(begun, begun + [msg], ok);
  }

  lemma WriterGoesOn(s: State, w: nat, msg: Msg, begun: seq<Msg>, ok: seq<bool>)
    requires Inv(s) && Shape(s) && w < |s.rings| && !s.rings[w].pc.WIdle? && CallsOk(s.rings[w], begun, ok)
    ensures var r, r' := s.rings[w], Write(s, w, msg).rings[w];
            CallsOk(r', begun, ok + if r'.pc.WIdle? then [r'.log != r.log] else [])
  {
    EnqueueReturns(s, w, msg);
    var r, r' := s.rings[w], Write(s, w, msg).rings[w];
    assert ok + [] == ok;
    if r'.pc.WIdle? {
      SuccessfulNext(begun, ok, r'.log != r.log);
      assert r'.log == r.log || MsgsOf(r'.log) == MsgsOf(r.log) + [r.msg];
    }
  }

  lemma OtherRing(s: State, a: Act, w: nat)
    requires Shape(s) && ConsumerShape(s) && ActOk(s, a) && w < |s.rings| && !By(a, w)
    ensures w < |Step(s, a).rings|
    ensures var r, r' := s.rings[w], Step(s, a).rings[w]; r'.pc == r.pc && r'.msg == r.msg && r'.log == r.log
  {
  }

  lemma SameCount(s: State, a: Act, s': State)
    requires StepOf(s, a, s')
    ensures |s'.rings| == |s.rings| && s'.width == s.width && s'.strategy == s.strategy
  {
  }

  /**
   In every interleaving the messages published in a ring are those with which the schedule began the calls of
   its writer that succeeded, in their order; every call that began has returned or is running.
   */
  lemma {:induction false} PublishedAsBegun(states: seq<State>, acts: seq<Act>, i: nat, w: nat)
    requires IsRun(states, acts) && i < |states| && w < |states[i].rings|
    ensures CallsOk(states[i].rings[w], Begun(states, acts, w, i), Returned(states, w, i))
  {
    if i == 0 {
      assert InitialRing(states[0].rings[w], states[0].numSlots, states[0].width);
    } else {
      var s, a := states[i - 1], acts[i - 1];
      assert StepOf(s, a, states[i]);
      SameCount(s, a, states[i]);
      PublishedAsBegun(states, acts, i - 1, w);
      RunInv(states, acts, i - 1);
      CallsStep(s, a, w, Begun(states, acts, w, i - 1), Returned(states, w, i - 1));
    }
  }

  lemma CallsStep(s: State, a: Act, w: nat, begun: seq<Msg>, ok: seq<bool>)
    requires Inv(s) && Shape(s) && ConsumerShape(s) && ActOk(s, a) && w < |s.rings| && CallsOk(s.rings[w], begun, ok)
    ensures w < |Step(s, a).rings|
    ensures
      var r, r' := s.rings[w], Step(s, a).rings[w];
      CallsOk(r', begun + if By(a, w) && r.pc.WIdle? then [a.msg] else [],
              ok + if !r.pc.WIdle? && r'.pc.WIdle? then [r'.log != r.log] else [])
  {
    assert begun + [] == begun && ok + [] == ok;
    if !By(a, w) {
      OtherRing(s, a, w);
    } else if s.rings[w].pc.WIdle? {
      WriterBegins(s, w, a.msg, begun, ok);
    } else {
      WriterGoesOn(s, w, a.msg, begun, ok);
    }
  }

  // ----- The calls of the consumer

  /** Every step leaves results as they are, but the one that ends a dequeue, which adds one. */
  lemma DequeueReturns(s: State, a: Act)
    requires Shape(s) && ConsumerShape(s) && ActOk(s, a)
    ensures
      var s' := Step(s, a);
      if !s.cons.pc.CIdle? && s'.cons.pc.CIdle?
      then a.ByConsumer? && |s'.results| == |s.results| + 1 && s'.results[..|s.results|] == s.results
      else && s'.results == s.results
           && (if a.ByConsumer? then !s'.cons.pc.CIdle? else s'.cons == s.cons)
  {
  }

  /** How many dequeues the first i steps began. */
  ghost function DequeuesBegun(states: seq<State>, acts: seq<Act>, i: nat): nat
    requires i <= |acts| < |states|
  {
    if i == 0 then 0
    else
      DequeuesBegun(states, acts, i - 1) + if acts[i - 1].ByConsumer? && states[i - 1].cons.pc.CIdle? then 1 else 0
  }

  /** Every dequeue that began has returned one result or is running. */
  lemma {:induction false} ResultsAsBegun(states: seq<State>, acts: seq<Act>, i: nat)
    requires IsRun(states, acts) && i < |states|
    ensures DequeuesBegun(states, acts, i) == |states[i].results| + if states[i].cons.pc.CIdle? then 0 else 1
  {
    if i > 0 {
      ResultsAsBegun(states, acts, i - 1);
      assert StepOf(states[i - 1], acts[i - 1], states[i]);
      DequeueReturns(states[i - 1], acts[i - 1]);
    }
  }

  // ----- How many steps a call takes

  /** The steps that writer w made in its call, or in its last one if it is in none. */
  ghost function WriterSteps(states: seq<State>, acts: seq<Act>, w: nat, i: nat): nat
    requires i <= |acts| < |states|
  {
    if i == 0 then 0
    else
      var s, a := states[i - 1], acts[i - 1];
      if !By(a, w) then WriterSteps(states, acts, w, i - 1)
      else if w < |s.rings| && s.rings[w].pc.WIdle? then 1
      else WriterSteps(states, acts, w, i - 1) + 1
  }

  ghost function DequeueSteps(states: seq<State>, acts: seq<Act>, i: nat): nat
    requires i <= |acts| < |states|
  {
    if i == 0 then 0
    else if !acts[i - 1].ByConsumer? then DequeueSteps(states, acts, i - 1)
    else if states[i - 1].cons.pc.CIdle? then 1
    else DequeueSteps(states, acts, i - 1) + 1
  }

  /** The steps that a call still needs. */
  function WriterRank(r: Ring, width: nat): nat {
    match r.pc
    case WIdle => 0
    case CheckFull => width + 4
    case TakeId => width + 3
    case StoreData(c) => if c <= width then width + 2 - c else 0
    case StoreTail => 1
  }

  function Looks(s: State): nat {
    if s.strategy.IdAbsolute? then 2 * |s.rings| else |s.rings|
  }

  function DequeueRank(s: State): nat {
    var n := |s.rings|;
    match s.cons.pc
    case CIdle => 0
    case ScanTail(i) => if i <= n then 2 * (n - i) + s.width + 2 else 0
    case ScanId(i) => if i < n then 2 * (n - i) + s.width + 1 else 0
    case Look(i) => if i <= n then n - i + s.width + 2 else 0
    case Take(c) => if c <= s.width then s.width + 1 - c else 0
  }

  lemma WriterRankStep(s: State, w: nat, msg: Msg)
    requires Inv(s) && Shape(s) && w < |s.rings|
    ensures var r, r' := s.rings[w], Write(s, w, msg).rings[w];
            if r.pc.WIdle? then WriterRank(r', s.width) == s.width + 4
            else WriterRank(r', s.width) < WriterRank(r, s.width)
  {
    assert RingOk(s, w);
  }

  lemma DequeueRankStep(s: State)
    requires Inv(s) && Shape(s)
    ensures if s.cons.pc.CIdle? then DequeueRank(Dequeue(s)) == Looks(s) + s.width + 2
            else DequeueRank(Dequeue(s)) < DequeueRank(s)
  {
    assert s.cons.pc.Take? ==> OutOk(s) && RingOk(s, s.cons.queue);
  }

  lemma WriterRankZero(s: State, w: nat)
    requires Inv(s) && w < |s.rings|
    ensures s.rings[w].pc.WIdle? <==> WriterRank(s.rings[w], s.width) == 0
  {
    assert RingOk(s, w);
  }

  lemma DequeueRankZero(s: State)
    requires Inv(s)
    ensures s.cons.pc.CIdle? <==> DequeueRank(s) == 0
  {
    assert s.cons.pc.Take? ==> OutOk(s) && RingOk(s, s.cons.queue);
  }

  /** A writer neither takes the consumer forward nor sets it back. */
  lemma DequeueRankElse(s: State, w: nat, msg: Msg)
    requires Shape(s) && w < |s.rings|
    ensures DequeueRank(Write(s, w, msg)) == DequeueRank(s) && Looks(Write(s, w, msg)) == Looks(s)
    ensures Write(s, w, msg).width == s.width
  {
  }

  lemma EnqueueSpends(s: State, a: Act, s': State, w: nat, steps: nat)
    requires Inv(s) && StepOf(s, a, s') && w < |s.rings| && steps + WriterRank(s.rings[w], s.width) <= s.width + 5
    ensures w < |s'.rings|
    ensures (if !By(a, w) then steps else if s.rings[w].pc.WIdle? then 1 else steps + 1)
            + WriterRank(s'.rings[w], s'.width) <= s'.width + 5
  {
    SameCount(s, a, s');
    if By(a, w) { WriterRankStep(s, w, a.msg); } else { OtherRing(s, a, w); }
  }

  lemma {:induction false} EnqueueSteady(states: seq<State>, acts: seq<Act>, i: nat, w: nat)
    requires IsRun(states, acts) && i < |states| && w < |states[i].rings|
    ensures WriterSteps(states, acts, w, i) + WriterRank(states[i].rings[w], states[i].width) <= states[i].width + 5
  {
    if i == 0 {
      assert InitialRing(states[0].rings[w], states[0].numSlots, states[0].width);
    } else {
      assert StepOf(states[i - 1], acts[i - 1], states[i]);
      SameCount(states[i - 1], acts[i - 1], states[i]);
      EnqueueSteady(states, acts, i - 1, w);
      RunInv(states, acts, i - 1);
      EnqueueSpends(states[i - 1], acts[i - 1], states[i], w, WriterSteps(states, acts, w, i - 1));
    }
  }

  /**
   wfmpscq_enqueue is wait-free: a call takes at most width + 5 steps, whatever the other writers and the
   consumer do.
   */
  lemma EnqueueWaitFree(states: seq<State>, acts: seq<Act>, i: nat, w: nat)
    requires IsRun(states, acts) && i < |states| && w < |states[i].rings|
    ensures var s := states[i];
            && WriterSteps(states, acts, w, i) + WriterRank(s.rings[w], s.width) <= s.width + 5
            && (s.rings[w].pc.WIdle? <==> WriterRank(s.rings[w], s.width) == 0)
  {
    EnqueueSteady(states, acts, i, w);
    RunInv(states, acts, i);
    WriterRankZero(states[i], w);
  }

  lemma DequeueSpends(s: State, a: Act, s': State, steps: nat)
    requires Inv(s) && StepOf(s, a, s') && steps + DequeueRank(s) <= Looks(s) + s.width + 3
    ensures (if a.ByWriter? then steps else if s.cons.pc.CIdle? then 1 else steps + 1) + DequeueRank(s')
            <= Looks(s') + s'.width + 3
  {
    SameCount(s, a, s');
    match a {
      case ByWriter(w, msg) => DequeueRankElse(s, w, msg);
      case ByConsumer => DequeueRankStep(s);
    }
  }

  lemma DequeueFits(s: State)
    requires Initial(s)
    ensures DequeueRank(s) == 0
  {
  }

  lemma {:induction false} DequeueSteady(states: seq<State>, acts: seq<Act>, i: nat)
    requires IsRun(states, acts) && i < |states|
    ensures DequeueSteps(states, acts, i) + DequeueRank(states[i]) <= Looks(states[i]) + states[i].width + 3
  {
    if i == 0 {
      DequeueFits(states[0]);
    } else {
      assert StepOf(states[i - 1], acts[i - 1], states[i]);
      DequeueSteady(states, acts, i - 1);
      RunInv(states, acts, i - 1);
      DequeueSpends(states[i - 1], acts[i - 1], states[i], DequeueSteps(states, acts, i - 1));
    }
  }

  /**
   wfmpscq_dequeue is wait-free: a call takes at most width + 3 steps and one look at each ring in round robin,
   or two in the merge by id.
   */
  lemma DequeueWaitFree(states: seq<State>, acts: seq<Act>, i: nat)
    requires IsRun(states, acts) && i < |states|
    ensures var s := states[i];
            && DequeueSteps(states, acts, i) + DequeueRank(s) <= Looks(s) + s.width + 3
            && (s.cons.pc.CIdle? <==> DequeueRank(s) == 0)
  {
    DequeueSteady(states, acts, i);
    RunInv(states, acts, i);
    DequeueRankZero(states[i]);
  }
}
