/** The calls that the users of Mpmcq.dfy begin, beside the outcomes that MpmcqLinearizable records. */
module MpmcqCalls {
  import opened Common
  import opened Mpmcq
  import opened MpmcqSafety
  import opened MpmcqLinearizable

  /** The calls that each user began, in their order: an idle process begins one with its step. */
  ghost function RunOps(width: nat, numSlots: nat, maxUser: nat, acts: seq<Act>): (ops: seq<seq<Op>>)
    requires numSlots >= 1 && ScheduleOk(acts, width, maxUser)
    ensures |ops| == maxUser
  {
    if acts == [] then
      seq(maxUser, _ => [])
    else
      var a, before := acts[|acts| - 1], acts[..|acts| - 1];
      assert ActOk(a, width, maxUser);
      OpsStep(Run(width, numSlots, maxUser, before), RunOps(width, numSlots, maxUser, before), a.p, a.op)
  }

  function OpsStep(s: State, ops: seq<seq<Op>>, p: nat, op: Op): (ops': seq<seq<Op>>)
    requires p < |s.procs| == |ops|
    ensures |ops'| == |ops|
  {
    if s.procs[p].pc.Idle? then ops[p := ops[p] + [op]] else ops
  }

  /** What a call may return: its own message accepted or no slot, or a message or none. */
  predicate Answers(outcome: Outcome, op: Op) {
    match outcome
    case Enqueued(m) => op == Enqueue(m)
    case NoFreeSlot => op.Enqueue?
    case Dequeued(_) => op.Dequeue?
    case Empty => op.Dequeue?
  }

  /** Call k of p answers what p began with its k-th call, and p is in at most one call besides. */
  ghost predicate Answered(s: State, l: Log, ops: seq<seq<Op>>, p: nat)
    requires LogShape(s, l) && p < |s.procs| == |ops|
  {
    && |ops[p]| == |l.calls[p]| + (if s.procs[p].pc.Idle? then 0 else 1)
    && forall k :: 0 <= k < |l.calls[p]| ==> Answers(l.calls[p][k].outcome, ops[p][k])
  }

  predicate Enqueues(pc: PC) {
    pc.Claim? || pc.Fill? || InEnqueue(pc) || ((pc.Scan? || pc.Release?) && pc.caller.FromEnqueue?)
  }

  /** The call that p is in is the one it began last. */
  ghost predicate InCallOf(s: State, ops: seq<seq<Op>>, p: nat)
    requires p < |s.procs| == |ops|
  {
    var r := s.procs[p];
    !r.pc.Idle? ==> |ops[p]| > 0 && ops[p][|ops[p]| - 1] == if Enqueues(r.pc) then Enqueue(r.msg) else Dequeue
  }

  /** What a step does to the call of its process: it begins one, goes on with it, or completes it. */
  predicate SameCall(r: Proc, r': Proc, op: Op) {
    && (r.pc.Idle? ==> !r'.pc.Idle? && Enqueues(r'.pc) == op.Enqueue? && (op.Enqueue? ==> r'.msg == op.msg))
    && (!r.pc.Idle? && !r'.pc.Idle? ==> Enqueues(r'.pc) == Enqueues(r.pc) && r'.msg == r.msg)
  }

  lemma SameCallInPool(s: State, p: nat, op: Op)
    requires Shape(s) && p < |s.procs| && InPool(s.procs[p].pc)
    ensures SameCall(s.procs[p], Step(s, p, op).procs[p], op)
  {
  }

  lemma SameCallInEnqueue(s: State, p: nat, op: Op)
    requires Shape(s) && p < |s.procs| && InEnqueue(s.procs[p].pc)
    ensures SameCall(s.procs[p], Step(s, p, op).procs[p], op)
  {
  }

  predicate ReadsHead(pc: PC) {
    pc.ReadHead? || pc.PublishHead? || pc.CheckHead? || pc.ReadTailToo? || pc.ReadHeadNext?
  }

  lemma SameCallReadsHead(s: State, p: nat, op: Op)
    requires Shape(s) && p < |s.procs| && ReadsHead(s.procs[p].pc)
    ensures SameCall(s.procs[p], Step(s, p, op).procs[p], op)
  {
  }

  lemma SameCallRechecks(s: State, p: nat, op: Op)
    requires Shape(s) && p < |s.procs| && (s.procs[p].pc.PublishNext? || s.procs[p].pc.RecheckHead?)
    ensures SameCall(s.procs[p], Step(s, p, op).procs[p], op)
  {
  }

  lemma SameCallMovesHead(s: State, p: nat, op: Op)
    requires Shape(s) && p < |s.procs|
    requires var pc := s.procs[p].pc; pc.FixTail? || pc.MoveHead? || pc.CopyOut?
    ensures SameCall(s.procs[p], Step(s, p, op).procs[p], op)
  {
  }

  lemma CallGoesOn(s: State, p: nat, op: Op)
    requires Shape(s) && p < |s.procs|
    ensures SameCall(s.procs[p], Step(s, p, op).procs[p], op)
  {
    var pc := s.procs[p].pc;
    if InPool(pc) {
      SameCallInPool(s, p, op);
    } else if InEnqueue(pc) {
      SameCallInEnqueue(s, p, op);
    } else if ReadsHead(pc) {
      SameCallReadsHead(s, p, op);
    } else if pc.PublishNext? || pc.RecheckHead? {
      SameCallRechecks(s, p, op);
    } else {
      SameCallMovesHead(s, p, op);
    }
  }

  /** The lines that can end a call: 162, 202, 247 and the last scan of a dequeue. */
  predicate MayComplete(pc: PC) {
    pc.Claim? || pc.SwingTail? || pc.RecheckHead? || pc.Scan?
  }

  lemma CompletesNot(s: State, l: Log, p: nat, op: Op)
    requires Shape(s) && LogShape(s, l) && p < |s.procs| && !MayComplete(s.procs[p].pc)
    ensures LogStep(s, l, p).calls == l.calls && !Step(s, p, op).procs[p].pc.Idle?
  {
  }

  ghost predicate CallRecorded(r: Proc, r': Proc, l: Log, l': Log, p: nat)
    requires p < |l.calls| == |l'.calls|
  {
    if r.pc.Idle? || !r'.pc.Idle? then l'.calls == l.calls else
      exists c: Call :: && l'.calls == l.calls[p := l.calls[p] + [c]]
                        && Answers(c.outcome, if Enqueues(r.pc) then Enqueue(r.msg) else Dequeue)
  }

  lemma CompletesNow(s: State, l: Log, p: nat, op: Op)
    requires Shape(s) && LogShape(s, l) && p < |s.procs| && MayComplete(s.procs[p].pc)
    ensures CallRecorded(s.procs[p], Step(s, p, op).procs[p], l, LogStep(s, l, p), p)
  {
    var k := |l.calls[p]|;
    var calls := LogStep(s, l, p).calls[p];
    if Step(s, p, op).procs[p].pc.Idle? {
      assert calls == l.calls[p] + [calls[k]];
    }
  }

  lemma CallCompletes(s: State, l: Log, p: nat, op: Op)
    requires Shape(s) && LogShape(s, l) && p < |s.procs|
    ensures CallRecorded(s.procs[p], Step(s, p, op).procs[p], l, LogStep(s, l, p), p)
  {
    if MayComplete(s.procs[p].pc) {
      CompletesNow(s, l, p, op);
    } else {
      CompletesNot(s, l, p, op);
    }
  }

  lemma AnsweredOwn(s: State, l: Log, ops: seq<seq<Op>>, p: nat, op: Op)
    requires Shape(s) && LogShape(s, l) && p < |s.procs| == |ops|
    requires Answered(s, l, ops, p) && InCallOf(s, ops, p)
    ensures Answered(Step(s, p, op), LogStep(s, l, p), OpsStep(s, ops, p, op), p)
    ensures InCallOf(Step(s, p, op), OpsStep(s, ops, p, op), p)
  {
    CallGoesOn(s, p, op);
    CallCompletes(s, l, p, op);
  }

  lemma {:induction false} RunAnswered(width: nat, numSlots: nat, maxUser: nat, acts: seq<Act>, p: nat)
    requires numSlots >= 1 && ScheduleOk(acts, width, maxUser) && p < maxUser
    ensures
      var s, ops := Run(width, numSlots, maxUser, acts), RunOps(width, numSlots, maxUser, acts);
      Answered(s, RunLog(width, numSlots, maxUser, acts), ops, p) && InCallOf(s, ops, p)
  {
    if acts != [] {
      var a, before := acts[|acts| - 1], acts[..|acts| - 1];
      assert ActOk(a, width, maxUser);
      RunAnswered(width, numSlots, maxUser, before, p);
      var s, l := Run(width, numSlots, maxUser, before), RunLog(width, numSlots, maxUser, before);
      if p == a.p {
        AnsweredOwn(s, l, RunOps(width, numSlots, maxUser, before), p, a.op);
      } else {
        OthersStay(s, a.p, a.op, p);
        CallCompletes(s, l, a.p, a.op);
      }
    }
  }
}
