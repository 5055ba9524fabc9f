/**
 Lock-freedom of the queue of Mpmcq.dfy, counted: a call repeats its loop only because others got
 something done. Counters run beside the machine and are never read by it.
 */
module MpmcqProgress {
  import opened Common
  import opened Mpmcq
  import opened MpmcqSafety

  /**
   For one process: failed iterations and links of its own in the call that runs, and the values of the
   global counters when the call began (0) and when its current iteration began (1).
   */
  datatype Track = Track(
    fails: nat, mine: nat,
    links0: nat, advs0: nat, pops0: nat,
    links1: nat, advs1: nat, pops1: nat)

  /** Successful CAS so far: nodes linked (197), tail moved (192, 202, 252), head moved (257). */
  datatype Tally = Tally(links: nat, advs: nat, pops: nat, tracks: seq<Track>)

  function InitTally(maxUser: nat): Tally {
    Tally(0, 0, 0, seq(maxUser, _ => Track(0, 0, 0, 0, 0, 0, 0, 0)))
  }

  /** The step of p is the one that ends an iteration without success (lines 182, 193, 197, 230, 244, 253, 257). */
  predicate Fails(s: State, p: nat)
    requires p < |s.procs|
  {
    var r := s.procs[p];
    match r.pc
    case CheckTail => s.tail != r.t
    case HelpTail => true
    case Link => !Links(s, p)
    case CheckHead => s.head != r.h
    case RecheckHead => s.head != r.h
    case FixTail => true
    case MoveHead => s.head != r.h
    case _ => false
  }

  function TrackStep(s: State, y: Tally, p: nat): Track
    requires p < |s.procs| == |y.tracks|
  {
    var r, k := s.procs[p], y.tracks[p];
    if r.pc.Idle? then
      k.(fails := 0, mine := 0, links0 := y.links, advs0 := y.advs, pops0 := y.pops)
    else if r.pc.ReadTail? || r.pc.ReadHead? then
      k.(links1 := y.links, advs1 := y.advs, pops1 := y.pops)
    else if Fails(s, p) then
      k.(fails := k.fails + 1)
    else if Links(s, p) then
      k.(mine := k.mine + 1)
    else
      k
  }

  function TallyStep(s: State, y: Tally, p: nat): (y': Tally)
    requires p < |s.procs| == |y.tracks|
    ensures |y'.tracks| == |y.tracks|
  {
    Tally(if Links(s, p) then y.links + 1 else y.links,
          if MovesTail(s, p) then y.advs + 1 else y.advs,
          if Pops(s, p) then y.pops + 1 else y.pops,
          y.tracks[p := TrackStep(s, y, p)])
  }

  ghost function RunTally(width: nat, numSlots: nat, maxUser: nat, acts: seq<Act>): (y: Tally)
    requires numSlots >= 1 && ScheduleOk(acts, width, maxUser)
    ensures |y.tracks| == maxUser
  {
    if acts == [] then
      InitTally(maxUser)
    else
      var a, before := acts[|acts| - 1], acts[..|acts| - 1];
      assert ActOk(a, width, maxUser);
      TallyStep(Run(width, numSlots, maxUser, before), RunTally(width, numSlots, maxUser, before), a.p)
  }

  // ----- The invariant

  predicate InEnqueueLoop(pc: PC) {
    pc.ReadTail? || pc.PublishTail? || pc.CheckTail? || pc.ReadTailNext? || pc.HelpTail? || pc.Link?
  }

  predicate InDequeueLoop(pc: PC) {
    pc.ReadHead? || pc.PublishHead? || pc.CheckHead? || HoldsHead(pc)
  }

  predicate BeforeLoop(pc: PC) {
    pc.Claim? || pc.Fill? || ((pc.Scan? || pc.Release?) && !pc.caller.FromRetireNode?)
  }

  /** tail is behind the last node exactly while one link more than advances has happened. */
  ghost predicate LagOk(s: State, y: Tally) {
    |s.chain| >= 1 && y.links == y.advs + if s.tail == Last(s) then 0 else 1
  }

  ghost predicate TrackOk(s: State, y: Tally, p: nat)
    requires p < |s.procs| == |y.tracks|
  {
    var r, k := s.procs[p], y.tracks[p];
    && k.links0 <= k.advs0 + 1
    && k.links0 <= y.links && k.advs0 <= y.advs && k.pops0 <= y.pops
    && (BeforeLoop(r.pc) ==> k.fails == 0 && k.mine == 0)
    && (InEnqueueLoop(r.pc) || InDequeueLoop(r.pc) ==> k.mine == 0)
    && (r.pc.ReadTail? ==> k.fails <= (y.links - k.links0) + (y.advs - k.advs0))
    && (r.pc.ReadHead? ==> k.fails <= (y.pops - k.pops0) + (y.advs - k.advs0))
    && (InEnqueueLoop(r.pc) && !r.pc.ReadTail? ==>
          && k.links0 <= k.links1 <= y.links && k.advs0 <= k.advs1 <= y.advs
          && k.fails <= (k.links1 - k.links0) + (k.advs1 - k.advs0)
          && (s.tail != r.t ==> y.advs > k.advs1))
    && (r.pc.Link? && NextOf(s, r.t) != UNDEFINED_NODE ==> y.links > k.links1)
    && (InDequeueLoop(r.pc) && !r.pc.ReadHead? ==>
          && k.pops0 <= k.pops1 <= y.pops && k.advs0 <= k.advs1 <= y.advs
          && k.fails <= (k.pops1 - k.pops0) + (k.advs1 - k.advs0)
          && (s.head != r.h ==> y.pops > k.pops1))
    && (KnowsTail(r.pc) && s.tail != r.t ==> y.advs > k.advs1)
  }

  ghost predicate TallyInv(s: State, y: Tally) {
    && |y.tracks| == |s.procs|
    && LagOk(s, y)
    && forall p :: 0 <= p < |s.procs| ==> TrackOk(s, y, p)
  }

  lemma LagKeeps(s: State, s': State, y: Tally, p: nat, op: Op)
    requires Inv(s) && Inv(s') && TallyInv(s, y) && p < |s.procs| && s' == Step(s, p, op)
    ensures LagOk(s', TallyStep(s, y, p))
  {
    if MovesTail(s, p) {
      TailCas(s, p, op);
      assert s.chain[|s.chain| - 1] != s.chain[|s.chain| - 2];
    } else if Pops(s, p) {
      HeadCas(s, p, op);
    } else if Links(s, p) {
      LinkFacts(s, p);
      LinkCas(s, p, op);
      assert Last(s') == s.procs[p].node != s.tail;
    } else {
      NoCas(s, p, op);
    }
  }

  lemma TrackOther(s: State, s': State, y: Tally, p: nat, op: Op, q: nat)
    requires Inv(s) && TallyInv(s, y) && p < |s.procs| && q < |s.procs| && q != p && s' == Step(s, p, op)
    requires |s'.procs| == |s.procs| && s'.procs[q] == s.procs[q]
    requires s'.tail != s.tail ==> MovesTail(s, p)
    requires s'.head != s.head ==> Pops(s, p)
    requires s.procs[q].pc.Link? ==> NextOf(s', s.procs[q].t) == NextOf(s, s.procs[q].t) || Links(s, p)
    ensures TrackOk(s', TallyStep(s, y, p), q)
  {
    assert TrackOk(s, y, q);
  }

  lemma TrackReadsTail(s: State, s': State, y: Tally, p: nat, op: Op)
    requires Shape(s) && p < |s.procs| == |y.tracks| && LagOk(s, y) && TrackOk(s, y, p) && s' == Step(s, p, op)
    requires var pc := s.procs[p].pc; pc.ReadTail? || pc.PublishTail? || pc.CheckTail?
    ensures TrackOk(s', TallyStep(s, y, p), p)
  {
  }

  lemma TrackUsesTail(s: State, s': State, y: Tally, p: nat, op: Op)
    requires Shape(s) && p < |s.procs| == |y.tracks| && LagOk(s, y) && TrackOk(s, y, p) && s' == Step(s, p, op)
    requires var pc := s.procs[p].pc; pc.ReadTailNext? || pc.HelpTail? || pc.Link?
    ensures TrackOk(s', TallyStep(s, y, p), p)
  {
  }

  lemma TrackReadsHead(s: State, s': State, y: Tally, p: nat, op: Op)
    requires Shape(s) && p < |s.procs| == |y.tracks| && LagOk(s, y) && TrackOk(s, y, p) && s' == Step(s, p, op)
    requires var pc := s.procs[p].pc; pc.ReadHead? || pc.PublishHead? || pc.CheckHead? || pc.ReadTailToo?
    ensures TrackOk(s', TallyStep(s, y, p), p)
  {
  }

  lemma TrackReadsNext(s: State, s': State, y: Tally, p: nat, op: Op)
    requires Shape(s) && p < |s.procs| == |y.tracks| && LagOk(s, y) && TrackOk(s, y, p) && s' == Step(s, p, op)
    requires var pc := s.procs[p].pc; pc.ReadHeadNext? || pc.PublishNext? || pc.RecheckHead?
    ensures TrackOk(s', TallyStep(s, y, p), p)
  {
  }

  lemma TrackMovesHead(s: State, s': State, y: Tally, p: nat, op: Op)
    requires Shape(s) && p < |s.procs| == |y.tracks| && LagOk(s, y) && TrackOk(s, y, p) && s' == Step(s, p, op)
    requires var pc := s.procs[p].pc; pc.FixTail? || pc.MoveHead?
    ensures TrackOk(s', TallyStep(s, y, p), p)
  {
  }

  lemma TrackPool(s: State, s': State, y: Tally, p: nat, op: Op)
    requires Shape(s) && p < |s.procs| == |y.tracks| && LagOk(s, y) && TrackOk(s, y, p) && s' == Step(s, p, op)
    requires var pc := s.procs[p].pc; pc.Scan? || pc.Release?
    ensures TrackOk(s', TallyStep(s, y, p), p)
  {
  }

  lemma TrackRest(s: State, s': State, y: Tally, p: nat, op: Op)
    requires Shape(s) && p < |s.procs| == |y.tracks| && LagOk(s, y) && TrackOk(s, y, p) && s' == Step(s, p, op)
    requires var pc := s.procs[p].pc; pc.SwingTail? || pc.CopyOut?
    ensures TrackOk(s', TallyStep(s, y, p), p)
  {
  }

  lemma TrackNewNode(s: State, s': State, y: Tally, p: nat, op: Op)
    requires Shape(s) && p < |s.procs| == |y.tracks| && LagOk(s, y) && TrackOk(s, y, p) && s' == Step(s, p, op)
    requires var pc := s.procs[p].pc; pc.Claim? || pc.Fill?
    ensures TrackOk(s', TallyStep(s, y, p), p)
  {
  }

  lemma TrackBegin(s: State, s': State, y: Tally, p: nat, op: Op)
    requires Shape(s) && p < |s.procs| == |y.tracks| && LagOk(s, y) && TrackOk(s, y, p) && s' == Step(s, p, op)
    requires s.procs[p].pc.Idle?
    ensures TrackOk(s', TallyStep(s, y, p), p)
  {
  }

  lemma TrackOwn(s: State, s': State, y: Tally, p: nat, op: Op)
    requires Shape(s) && p < |s.procs| == |y.tracks| && LagOk(s, y) && TrackOk(s, y, p) && s' == Step(s, p, op)
    ensures TrackOk(s', TallyStep(s, y, p), p)
  {
    var pc := s.procs[p].pc;
    if pc.ReadTail? || pc.PublishTail? || pc.CheckTail? {
      TrackReadsTail(s, s', y, p, op);
    } else if pc.ReadTailNext? || pc.HelpTail? || pc.Link? {
      TrackUsesTail(s, s', y, p, op);
    } else if pc.ReadHead? || pc.PublishHead? || pc.CheckHead? || pc.ReadTailToo? {
      TrackReadsHead(s, s', y, p, op);
    } else if pc.ReadHeadNext? || pc.PublishNext? || pc.RecheckHead? {
      TrackReadsNext(s, s', y, p, op);
    } else if pc.FixTail? || pc.MoveHead? {
      TrackMovesHead(s, s', y, p, op);
    } else if pc.Idle? {
      TrackBegin(s, s', y, p, op);
    } else if pc.Scan? || pc.Release? {
      TrackPool(s, s', y, p, op);
    } else if pc.Claim? || pc.Fill? {
      TrackNewNode(s, s', y, p, op);
    } else {
      TrackRest(s, s', y, p, op);
    }
  }

  /** The next of the slot that q is about to link to changes only by a link. */
  lemma NextReadAgain(s: State, p: nat, op: Op, q: nat)
    requires Inv(s) && p < |s.procs| && q < |s.procs| && s.procs[q].pc.Link? && !Links(s, p)
    ensures NextOf(Step(s, p, op), s.procs[q].t) == NextOf(s, s.procs[q].t)
  {
    assert ProcOk(s, q) && HazOk(s, 2 * q);
    if s.procs[p].pc.Scan? || s.procs[p].pc.Release? || s.procs[p].pc.Claim? || s.procs[p].pc.Fill? {
      ProtectedFromPool(s, p, op, 2 * q);
    } else {
      NextElsewhere(s, p, op, s.procs[q].t);
    }
  }

  lemma NextElsewhere(s: State, p: nat, op: Op, n: int)
    requires Shape(s) && p < |s.procs| && !Links(s, p)
    requires var pc := s.procs[p].pc; !pc.Scan? && !pc.Release? && !pc.Claim? && !pc.Fill?
    ensures NextOf(Step(s, p, op), n) == NextOf(s, n)
  {
  }

  lemma CasOnly(s: State, p: nat, op: Op)
    requires Shape(s) && p < |s.procs|
    ensures Step(s, p, op).tail != s.tail ==> MovesTail(s, p)
    ensures Step(s, p, op).head != s.head ==> Pops(s, p)
  {
  }

  lemma TallyKeeps(s: State, y: Tally, p: nat, op: Op)
    requires Inv(s) && p < |s.procs| && Inv(Step(s, p, op)) && TallyInv(s, y)
    ensures TallyInv(Step(s, p, op), TallyStep(s, y, p))
  {
    var s', y' := Step(s, p, op), TallyStep(s, y, p);
    LagKeeps(s, s', y, p, op);
    CasOnly(s, p, op);
    forall q | 0 <= q < |s'.procs| ensures TrackOk(s', y', q) {
      assert TrackOk(s, y, q);
      if q != p {
        OthersStay(s, p, op, q);
        if s.procs[q].pc.Link? && !Links(s, p) { NextReadAgain(s, p, op, q); }
        TrackOther(s, s', y, p, op, q);
      } else {
        TrackOwn(s, s', y, p, op);
      }
    }
  }

  lemma {:induction false} RunTallyInv(width: nat, numSlots: nat, maxUser: nat, acts: seq<Act>)
    requires numSlots >= 1 && ScheduleOk(acts, width, maxUser)
    ensures TallyInv(Run(width, numSlots, maxUser, acts), RunTally(width, numSlots, maxUser, acts))
  {
    if acts != [] {
      var a, before := acts[|acts| - 1], acts[..|acts| - 1];
      assert ActOk(a, width, maxUser);
      RunTallyInv(width, numSlots, maxUser, before);
      RunInv(width, numSlots, maxUser, before);
      RunInv(width, numSlots, maxUser, acts);
      TallyKeeps(Run(width, numSlots, maxUser, before), RunTally(width, numSlots, maxUser, before), a.p, a.op);
    }
  }
}
