/**
 How many steps a call of Mpmcq.dfy takes: a fixed number, but for the iterations of its loop that failed, which
 MpmcqProgress counts.
 */
module MpmcqSteps {
  import opened Common
  import opened Mpmcq
  import opened MpmcqSafety
  import opened MpmcqConservation
  import opened MpmcqCalls
  import opened MpmcqProgress

  /** The steps of a sweep of m slots: it reads at most h indexes for each and makes two stores. */
  function SweepSteps(m: nat, h: nat): nat {
    if m == 0 then 1 else SweepSteps(m - 1, h) + h + 2
  }

  lemma {:induction false} SweepGrows(m: nat, n: nat, h: nat)
    requires m <= n
    ensures SweepSteps(m, h) <= SweepSteps(n, h)
  {
    if m < n {
      SweepGrows(m, n - 1, h);
    }
  }

  lemma {:induction false} SweepClosed(m: nat, h: nat)
    ensures SweepSteps(m, h) == m * (h + 2) + 1
  {
    if m > 0 {
      SweepClosed(m - 1, h);
      assert m * (h + 2) == (m - 1) * (h + 2) + h + 2;
    }
  }

  /** A sweep of a list that fills the pool. */
  function FullSweep(s: State): nat {
    SweepSteps(|s.slots|, |s.haz|)
  }

  function AfterSweep(s: State, caller: Caller): nat {
    match caller
    case FromEnqueue => |s.slots| + s.width + 8
    case FromDequeue => s.width + 9 + FullSweep(s)
    case FromRetireNode => 0
  }

  /** The steps that the call of p still needs if no further iteration fails. */
  function Rank(s: State, r: Proc): int {
    match r.pc
    case Idle => 0
    case Scan(k, caller) => AfterSweep(s, caller) + if r.todo == [] then 1 else SweepSteps(|r.todo|, |s.haz|) - k
    case Release(caller) => AfterSweep(s, caller) + SweepSteps(|r.todo|, |s.haz|) + 1
    case Claim(cnt) => |s.slots| - cnt + s.width + 8
    case Fill(c) => s.width - c + 7
    case ReadTail => 6
    case PublishTail => 5
    case CheckTail => 4
    case ReadTailNext => 3
    case HelpTail => 2
    case Link => 2
    case SwingTail => 1
    case ReadHead => s.width + 9 + FullSweep(s)
    case PublishHead => s.width + 8 + FullSweep(s)
    case CheckHead => s.width + 7 + FullSweep(s)
    case ReadTailToo => s.width + 6 + FullSweep(s)
    case ReadHeadNext => s.width + 5 + FullSweep(s)
    case PublishNext => s.width + 4 + FullSweep(s)
    case RecheckHead => s.width + 3 + FullSweep(s)
    case FixTail => s.width + 2 + FullSweep(s)
    case MoveHead => s.width + 2 + FullSweep(s)
    case CopyOut(c) => s.width - c + 1 + FullSweep(s)
  }

  /** What a call may take besides failed iterations: one sweep for an enqueue, two for a dequeue. */
  function Budget(s: State, pc: PC): nat {
    if Enqueues(pc) then FullSweep(s) + |s.slots| + s.width + 9 else 2 * FullSweep(s) + s.width + 10
  }

  /** The step of p takes it nearer to its return, or ends an iteration that failed. */
  ghost predicate RankKept(s: State, r: Proc, p: nat)
    requires p < |s.procs|
  {
    !r.pc.Idle? ==>
      Rank(s, r) + 1 <= if s.procs[p].pc.Idle? then Budget(s, r.pc)
                        else Rank(s, s.procs[p]) + if Fails(s, p) then 8 else 0
  }

  lemma RankBegins(s: State, p: nat, op: Op)
    requires Inv(s) && p < |s.procs| && s.procs[p].pc.Idle?
    ensures RankKept(s, Begin(s, p, op).procs[p], p)
  {
    RetireListsFit(s, p);
    SweepGrows(|s.procs[p].rlist|, |s.slots|, |s.haz|);
    SweepGrows(0, |s.slots|, |s.haz|);
  }

  lemma RankScans(s: State, p: nat)
    requires Shape(s) && p < |s.procs| && s.procs[p].pc.Scan? && 0 <= s.procs[p].pc.k <= |s.haz|
    ensures RankKept(s, StepScan(s, p).procs[p], p)
  {
  }

  lemma RankNewNode(s: State, p: nat, op: Op)
    requires Inv(s) && p < |s.procs|
    requires var pc := s.procs[p].pc; pc.Release? || pc.Claim? || pc.Fill?
    ensures RankKept(s, Step(s, p, op).procs[p], p)
  {
    assert ProcOk(s, p);
    RankNewNodeOf(s, p, op);
  }

  lemma RankNewNodeOf(s: State, p: nat, op: Op)
    requires Shape(s) && p < |s.procs|
    requires var pc := s.procs[p].pc;
             pc.Release? || (pc.Claim? && 0 <= pc.cnt <= |s.slots|) || (pc.Fill? && 0 <= pc.c <= s.width)
    ensures RankKept(s, Step(s, p, op).procs[p], p)
  {
  }

  lemma RankInEnqueue(s: State, p: nat, op: Op)
    requires Shape(s) && p < |s.procs| && InEnqueue(s.procs[p].pc)
    ensures RankKept(s, Step(s, p, op).procs[p], p)
  {
  }

  lemma RankReadsHead(s: State, p: nat, op: Op)
    requires Shape(s) && p < |s.procs| && ReadsHead(s.procs[p].pc)
    ensures RankKept(s, Step(s, p, op).procs[p], p)
  {
  }

  lemma RankRechecks(s: State, p: nat, op: Op)
    requires Shape(s) && p < |s.procs|
    requires var pc := s.procs[p].pc; pc.PublishNext? || pc.RecheckHead? || pc.FixTail? || pc.MoveHead?
    ensures RankKept(s, Step(s, p, op).procs[p], p)
  {
  }

  lemma RankCopies(s: State, p: nat)
    requires Inv(s) && p < |s.procs| && s.procs[p].pc.CopyOut?
    ensures RankKept(s, StepCopyOut(s, p).procs[p], p)
  {
    assert ProcOk(s, p);
    RetireListsFit(s, p);
    SweepGrows(|s.procs[p].rlist| + 1, |s.slots|, |s.haz|);
  }

  lemma RankStep(s: State, p: nat, op: Op)
    requires Inv(s) && p < |s.procs|
    ensures RankKept(s, Step(s, p, op).procs[p], p)
  {
    var pc := s.procs[p].pc;
    if pc.Idle? {
      RankBegins(s, p, op);
    } else if pc.Scan? {
      assert ProcOk(s, p);
      RankScans(s, p);
    } else if pc.CopyOut? {
      RankCopies(s, p);
    } else if InEnqueue(pc) {
      RankInEnqueue(s, p, op);
    } else if ReadsHead(pc) {
      RankReadsHead(s, p, op);
    } else if pc.Release? || pc.Claim? || pc.Fill? {
      RankNewNode(s, p, op);
    } else {
      RankRechecks(s, p, op);
    }
  }

  // ----- Over a run

  /** The steps that p made in its call, or in its last one if it is in none. */
  ghost function StepsOf(width: nat, numSlots: nat, maxUser: nat, acts: seq<Act>, p: nat): nat
    requires numSlots >= 1 && ScheduleOk(acts, width, maxUser) && p < maxUser
  {
    if acts == [] then 0
    else
      var a, before := acts[|acts| - 1], acts[..|acts| - 1];
      if a.p != p then StepsOf(width, numSlots, maxUser, before, p)
      else if Run(width, numSlots, maxUser, before).procs[p].pc.Idle? then 1
      else StepsOf(width, numSlots, maxUser, before, p) + 1
  }

  /** While p is in a call, the steps it made and those it needs are within its budget. */
  ghost predicate WithinBudget(s: State, y: Tally, p: nat, steps: nat)
    requires p < |s.procs| == |y.tracks|
  {
    !s.procs[p].pc.Idle? ==> steps + Rank(s, s.procs[p]) <= Budget(s, s.procs[p].pc) + 8 * y.tracks[p].fails
  }

  lemma RankOf(s: State, s': State, r: Proc)
    requires |s'.slots| == |s.slots| && |s'.haz| == |s.haz| && s'.width == s.width
    ensures Rank(s', r) == Rank(s, r) && Budget(s', r.pc) == Budget(s, r.pc)
  {
  }

  lemma TrackFails(s: State, y: Tally, p: nat)
    requires p < |s.procs| == |y.tracks|
    ensures TrackStep(s, y, p).fails
         == if s.procs[p].pc.Idle? then 0 else y.tracks[p].fails + if Fails(s, p) then 1 else 0
  {
  }

  lemma BudgetStep(s: State, s': State, y: Tally, p: nat, op: Op, steps: nat)
    requires Inv(s) && p < |s.procs| == |y.tracks| && s' == Step(s, p, op) && WithinBudget(s, y, p, steps)
    ensures WithinBudget(s', TallyStep(s, y, p), p, if s.procs[p].pc.Idle? then 1 else steps + 1)
  {
    RankStep(s, p, op);
    RankOf(s, s', s'.procs[p]);
    CallGoesOn(s, p, op);
    TrackFails(s, y, p);
  }

  lemma BudgetElse(s: State, s': State, y: Tally, p: nat, op: Op, q: nat, steps: nat)
    requires Shape(s) && p < |s.procs| == |y.tracks| && q < |s.procs| && q != p && s' == Step(s, p, op)
    requires WithinBudget(s, y, q, steps)
    ensures WithinBudget(s', TallyStep(s, y, p), q, steps)
  {
    OthersStay(s, p, op, q);
    RankOf(s, s', s.procs[q]);
  }

  lemma {:induction false} StepsWithin(width: nat, numSlots: nat, maxUser: nat, acts: seq<Act>, p: nat)
    requires numSlots >= 1 && ScheduleOk(acts, width, maxUser) && p < maxUser
    ensures WithinBudget(Run(width, numSlots, maxUser, acts), RunTally(width, numSlots, maxUser, acts), p,
                         StepsOf(width, numSlots, maxUser, acts, p))
  {
    if acts != [] {
      var a, before := acts[|acts| - 1], acts[..|acts| - 1];
      assert ActOk(a, width, maxUser);
      StepsWithin(width, numSlots, maxUser, before, p);
      RunInv(width, numSlots, maxUser, before);
      var s, s' := Run(width, numSlots, maxUser, before), Run(width, numSlots, maxUser, acts);
      var y, steps := RunTally(width, numSlots, maxUser, before), StepsOf(width, numSlots, maxUser, before, p);
      if a.p == p { BudgetStep(s, s', y, p, a.op, steps); } else { BudgetElse(s, s', y, a.p, a.op, p, steps); }
    }
  }

  lemma RankPositive(s: State, p: nat)
    requires Inv(s) && p < |s.procs| && !s.procs[p].pc.Idle?
    ensures Rank(s, s.procs[p]) >= 1
  {
    var r := s.procs[p];
    assert ProcOk(s, p);
    if r.pc.Scan? && r.todo != [] { SweepGrows(1, |r.todo|, |s.haz|); }
  }

  lemma BelowBudget(s: State, y: Tally, p: nat, steps: nat)
    requires Inv(s) && p < |s.procs| == |y.tracks| && WithinBudget(s, y, p, steps) && !s.procs[p].pc.Idle?
    ensures steps < Budget(s, s.procs[p].pc) + 8 * y.tracks[p].fails
  {
    RankPositive(s, p);
  }

  /** The budget in closed form, with h indexes to read for each retired slot. */
  function Bound(enqueue: bool, width: nat, numSlots: nat, h: nat): nat {
    if enqueue then numSlots * (h + 2) + numSlots + width + 10 else 2 * (numSlots * (h + 2)) + width + 12
  }

  lemma BudgetClosed(s: State, pc: PC)
    requires Shape(s)
    ensures Budget(s, pc) == Bound(Enqueues(pc), s.width, |s.slots|, 2 * |s.procs|)
  {
    SweepClosed(|s.slots|, |s.haz|);
  }

  lemma StepsBelow(width: nat, numSlots: nat, maxUser: nat, acts: seq<Act>, p: nat)
    requires numSlots >= 1 && ScheduleOk(acts, width, maxUser) && p < maxUser
    requires !Run(width, numSlots, maxUser, acts).procs[p].pc.Idle?
    ensures var s := Run(width, numSlots, maxUser, acts);
            StepsOf(width, numSlots, maxUser, acts, p)
            < Budget(s, s.procs[p].pc) + 8 * RunTally(width, numSlots, maxUser, acts).tracks[p].fails
  {
    StepsWithin(width, numSlots, maxUser, acts, p);
    RunInv(width, numSlots, maxUser, acts);
    BelowBudget(Run(width, numSlots, maxUser, acts), RunTally(width, numSlots, maxUser, acts), p,
                StepsOf(width, numSlots, maxUser, acts, p));
  }

  /**
   Every call is bounded. While a call runs, its steps so far are fewer than a bound that depends on the sizes
   alone, plus eight for each iteration that failed. EnqueueLockFree and DequeueLockFree bound the failures by
   what others got done.
   */
  lemma CallIsShort(width: nat, numSlots: nat, maxUser: nat, acts: seq<Act>, p: nat)
    requires numSlots >= 1 && ScheduleOk(acts, width, maxUser) && p < maxUser
    requires !Run(width, numSlots, maxUser, acts).procs[p].pc.Idle?
    ensures
      StepsOf(width, numSlots, maxUser, acts, p)
      < Bound(Enqueues(Run(width, numSlots, maxUser, acts).procs[p].pc), width, numSlots, 2 * maxUser)
        + 8 * RunTally(width, numSlots, maxUser, acts).tracks[p].fails
  {
    StepsBelow(width, numSlots, maxUser, acts, p);
    BudgetClosed(Run(width, numSlots, maxUser, acts), Run(width, numSlots, maxUser, acts).procs[p].pc);
  }
}
