/** What the queue of Mpmcq.dfy guarantees in every interleaving of any number of users. */
module MpmcqResults {
  import opened Common
  import opened Mpmcq
  import opened MpmcqSafety
  import opened MpmcqReclamation
  import opened MpmcqLinearizable
  import opened MpmcqCalls
  import opened MpmcqProgress
  import opened MpmcqCapacity

  /**
   Linearizability. In every interleaving of any number of users, the effects form a legal history of
   a FIFO that is empty at first and holds Fifo(s) now; every completed call reports an effect, or an
   empty queue, from between its begin and its end, and answers the call that its user began there; and
   every effect belongs to exactly one call.
   */
  lemma Linearizable(width: nat, numSlots: nat, maxUser: nat, acts: seq<Act>)
    requires numSlots >= 1 && ScheduleOk(acts, width, maxUser)
    ensures Linearized(Run(width, numSlots, maxUser, acts), RunLog(width, numSlots, maxUser, acts))
    ensures forall p :: 0 <= p < maxUser ==>
              Answered(Run(width, numSlots, maxUser, acts), RunLog(width, numSlots, maxUser, acts),
                       RunOps(width, numSlots, maxUser, acts), p)
  {
    RunLogInv(width, numSlots, maxUser, acts);
    forall p | 0 <= p < maxUser
      ensures Answered(Run(width, numSlots, maxUser, acts), RunLog(width, numSlots, maxUser, acts),
                       RunOps(width, numSlots, maxUser, acts), p)
    {
      RunAnswered(width, numSlots, maxUser, acts, p);
    }
  }

  // ----- An enqueue that returns -1

  lemma ClaimedBefore(s: State, a: Act, p: nat, n: nat)
    requires Inv(s) && a.p < |s.procs| && p < |s.procs| && n < |s.slots|
    requires var r := Step(s, a.p, a.op).procs[p]; r.pc.Claim? && Passed(r.cursor, r.pc.cnt, |s.slots|, n)
    ensures var r := s.procs[p];
            r.pc.Claim? && (Passed(r.cursor, r.pc.cnt, |s.slots|, n) || s.slots[n].used)
  {
    var r := s.procs[p];
    assert ProcOk(s, p);
    if a.p != p {
      OthersStay(s, a.p, a.op, p);
    } else if r.pc.Claim? {
      PassedNext(r.cursor, r.pc.cnt, |s.slots|, n);
    } else {
      NoClaimElsewhere(s, p, a.op);
    }
  }

  /** getFreeSlot begins with no slot passed. */
  lemma NoClaimElsewhere(s: State, p: nat, op: Op)
    requires Inv(s) && p < |s.procs| && !s.procs[p].pc.Claim? && Step(s, p, op).procs[p].pc.Claim?
    ensures Step(s, p, op).procs[p].pc.cnt == 0 && 0 <= Step(s, p, op).procs[p].cursor < |s.slots|
  {
    assert ProcOk(s, p);
    if !s.procs[p].pc.Scan? { NotIntoClaim(s, p, op); }
  }

  lemma NotIntoClaim(s: State, p: nat, op: Op)
    requires Shape(s) && p < |s.procs| && !s.procs[p].pc.Claim? && !s.procs[p].pc.Scan?
    ensures !Step(s, p, op).procs[p].pc.Claim?
  {
  }

  /** After b steps the search of p has looked at slot n. */
  ghost predicate Searched(width: nat, numSlots: nat, maxUser: nat, acts: seq<Act>, b: nat, p: nat, n: nat)
    requires numSlots >= 1 && ScheduleOk(acts, width, maxUser) && b <= |acts| && p < maxUser
  {
    var r := Run(width, numSlots, maxUser, acts[..b]).procs[p];
    r.pc.Claim? && Passed(r.cursor, r.pc.cnt, numSlots, n)
  }

  ghost predicate Searches(width: nat, numSlots: nat, maxUser: nat, acts: seq<Act>, b: nat, p: nat)
    requires numSlots >= 1 && ScheduleOk(acts, width, maxUser) && b <= |acts| && p < maxUser
  {
    Run(width, numSlots, maxUser, acts[..b]).procs[p].pc.Claim?
  }

  lemma SearchedBefore(width: nat, numSlots: nat, maxUser: nat, acts: seq<Act>, b: nat, p: nat, n: nat)
    requires numSlots >= 1 && ScheduleOk(acts, width, maxUser) && 0 < b <= |acts| && p < maxUser && n < numSlots
    requires Searched(width, numSlots, maxUser, acts, b, p, n)
    ensures Searches(width, numSlots, maxUser, acts, b - 1, p)
    ensures || Searched(width, numSlots, maxUser, acts, b - 1, p, n)
            || Run(width, numSlots, maxUser, acts[..b - 1]).slots[n].used
  {
    RunStep(width, numSlots, maxUser, acts, b);
    RunInv(width, numSlots, maxUser, acts[..b - 1]);
    ClaimedBefore(Run(width, numSlots, maxUser, acts[..b - 1]), acts[b - 1], p, n);
  }

  lemma {:induction false} FoundInUse(width: nat, numSlots: nat, maxUser: nat, acts: seq<Act>, b: nat, p: nat, n: nat)
    returns (m: nat)
    requires numSlots >= 1 && ScheduleOk(acts, width, maxUser) && b <= |acts| && p < maxUser && n < numSlots
    requires Searched(width, numSlots, maxUser, acts, b, p, n)
    ensures m <= b && Run(width, numSlots, maxUser, acts[..m]).slots[n].used
    ensures forall i :: m <= i <= b ==> Searches(width, numSlots, maxUser, acts, i, p)
    decreases b
  {
    NotAtFirst(width, numSlots, maxUser, acts, p);
    assert Searches(width, numSlots, maxUser, acts, b, p);
    SearchedBefore(width, numSlots, maxUser, acts, b, p, n);
    m := b - 1;
    if Searched(width, numSlots, maxUser, acts, b - 1, p, n) {
      m := FoundInUse(width, numSlots, maxUser, acts, b - 1, p, n);
    }
  }

  lemma NotAtFirst(width: nat, numSlots: nat, maxUser: nat, acts: seq<Act>, p: nat)
    requires numSlots >= 1 && ScheduleOk(acts, width, maxUser) && p < maxUser
    ensures !Searches(width, numSlots, maxUser, acts, 0, p)
  {
    assert acts[..0] == [];
  }

  /** The search of p has looked at all slots: slot n was in use after the first m steps. */
  lemma NoFreeSlotAtEnd(width: nat, numSlots: nat, maxUser: nat, acts: seq<Act>, p: nat, n: nat) returns (m: nat)
    requires numSlots >= 1 && ScheduleOk(acts, width, maxUser) && p < maxUser && n < numSlots
    requires Run(width, numSlots, maxUser, acts).procs[p].pc == Claim(numSlots)
    ensures m <= |acts| && Run(width, numSlots, maxUser, acts[..m]).slots[n].used
    ensures forall i :: m <= i <= |acts| ==> Searches(width, numSlots, maxUser, acts, i, p)
  {
    RunInv(width, numSlots, maxUser, acts);
    assert ProcOk(Run(width, numSlots, maxUser, acts), p);
    assert acts[..|acts|] == acts;
    m := FoundInUse(width, numSlots, maxUser, acts, |acts|, p, n);
  }

  /** The k-th call of p, which the last step completes, returned -1 for lack of a slot. */
  ghost predicate LastRefused(width: nat, numSlots: nat, maxUser: nat, acts: seq<Act>, p: nat, k: nat)
    requires numSlots >= 1 && ScheduleOk(acts, width, maxUser) && p < maxUser && acts != []
  {
    var c := RunLog(width, numSlots, maxUser, acts).calls[p];
    && k == |RunLog(width, numSlots, maxUser, acts[..|acts| - 1]).calls[p]| < |c|
    && c[k].outcome == NoFreeSlot
  }

  lemma RefusedBySearch(s: State, l: Log, q: nat, p: nat)
    requires Inv(s) && LogShape(s, l) && q < |s.procs| && p < |s.procs|
    requires var c := LogStep(s, l, q).calls[p]; |c| > |l.calls[p]| && c[|l.calls[p]|].outcome == NoFreeSlot
    ensures s.procs[p].pc == Claim(|s.slots|)
  {
    assert ProcOk(s, p);
  }

  /**
   An enqueue that returns -1 for lack of a slot found every slot in use at some moment of its search,
   whatever the others did meanwhile: slot n after the first m steps.
   */
  lemma NoFreeSlotFound(width: nat, numSlots: nat, maxUser: nat, acts: seq<Act>, p: nat, k: nat, n: nat)
    returns (m: nat)
    requires numSlots >= 1 && ScheduleOk(acts, width, maxUser) && p < maxUser && n < numSlots
    requires acts != [] && LastRefused(width, numSlots, maxUser, acts, p, k)
    ensures m < |acts| && Run(width, numSlots, maxUser, acts[..m]).slots[n].used
    ensures forall i :: m <= i < |acts| ==> Searches(width, numSlots, maxUser, acts, i, p)
  {
    var a, before := acts[|acts| - 1], acts[..|acts| - 1];
    assert ActOk(a, width, maxUser);
    RunInv(width, numSlots, maxUser, before);
    RefusedBySearch(Run(width, numSlots, maxUser, before), RunLog(width, numSlots, maxUser, before), a.p, p);
    m := NoFreeSlotAtEnd(width, numSlots, maxUser, before, p, n);
    assert forall i :: 0 <= i <= |before| ==> before[..i] == acts[..i];
    forall i | m <= i < |acts| ensures Searches(width, numSlots, maxUser, acts, i, p) {
      assert Searches(width, numSlots, maxUser, before, i, p);
    }
  }

  // ----- Reclamation

  /** p is about to store index j: line 178 or 226 for its first one, line 239 for its second one. */
  predicate Overwrites(s: State, p: nat, j: nat)
    requires p < |s.procs|
  {
    var pc := s.procs[p].pc;
    if pc.PublishTail? || pc.PublishHead? then j == 2 * p else pc.PublishNext? && j == 2 * p + 1
  }

  /** p is about to pass the check of index j: line 181 or 229 for its first one, line 243 for its second one. */
  predicate Checks(s: State, p: nat, j: nat)
    requires p < |s.procs|
  {
    var r := s.procs[p];
    if r.pc.CheckTail? then s.tail == r.t && j == 2 * p
    else if r.pc.CheckHead? then s.head == r.h && j == 2 * p
    else r.pc.RecheckHead? && s.head == r.h && r.hNext != UNDEFINED_NODE && j == 2 * p + 1
  }

  lemma ValidInEnqueue(s: State, p: nat, op: Op, j: nat)
    requires Shape(s) && p < |s.procs| && j < |s.haz| && InEnqueue(s.procs[p].pc)
    ensures Step(s, p, op).valid[j] <==> Checks(s, p, j) || (s.valid[j] && !Overwrites(s, p, j))
    ensures !Overwrites(s, p, j) ==> Step(s, p, op).haz[j] == s.haz[j]
  {
  }

  predicate TouchesIndex(pc: PC) {
    pc.PublishHead? || pc.CheckHead? || pc.PublishNext? || pc.RecheckHead?
  }

  lemma ValidInDequeue(s: State, p: nat, op: Op, j: nat)
    requires Shape(s) && p < |s.procs| && j < |s.haz| && TouchesIndex(s.procs[p].pc)
    ensures Step(s, p, op).valid[j] <==> Checks(s, p, j) || (s.valid[j] && !Overwrites(s, p, j))
    ensures !Overwrites(s, p, j) ==> Step(s, p, op).haz[j] == s.haz[j]
  {
  }

  lemma ValidElsewhere(s: State, p: nat, op: Op)
    requires Shape(s) && p < |s.procs| && !InEnqueue(s.procs[p].pc) && !TouchesIndex(s.procs[p].pc)
    ensures Step(s, p, op).valid == s.valid && Step(s, p, op).haz == s.haz
  {
  }

  /** An index is validated exactly from its check until its user overwrites it. */
  lemma ValidFromCheckToOverwrite(s: State, p: nat, op: Op, j: nat)
    requires Shape(s) && p < |s.procs| && j < |s.haz|
    ensures Step(s, p, op).valid[j] <==> Checks(s, p, j) || (s.valid[j] && !Overwrites(s, p, j))
    ensures !Overwrites(s, p, j) ==> Step(s, p, op).haz[j] == s.haz[j]
  {
    if InEnqueue(s.procs[p].pc) {
      ValidInEnqueue(s, p, op, j);
    } else if TouchesIndex(s.procs[p].pc) {
      ValidInDequeue(s, p, op, j);
    } else {
      ValidElsewhere(s, p, op);
    }
  }

  /** Step a - 1 passes the check of index j, and no step from a to b - 1 overwrites it. */
  ghost predicate Protected(width: nat, numSlots: nat, maxUser: nat, acts: seq<Act>, j: nat, a: nat, b: nat)
    requires numSlots >= 1 && ScheduleOk(acts, width, maxUser)
  {
    && 0 < a <= b <= |acts| && j < NUM_SHAREDIDX * maxUser
    && (forall m :: 0 <= m < |acts| ==> acts[m].p < maxUser)
    && Checks(Run(width, numSlots, maxUser, acts[..a - 1]), acts[a - 1].p, j)
    && forall m :: a <= m < b ==> !Overwrites(Run(width, numSlots, maxUser, acts[..m]), acts[m].p, j)
  }

  lemma ValidAfter(width: nat, numSlots: nat, maxUser: nat, acts: seq<Act>, j: nat, b: nat)
    requires numSlots >= 1 && ScheduleOk(acts, width, maxUser)
    requires 0 < b <= |acts| && j < NUM_SHAREDIDX * maxUser && acts[b - 1].p < maxUser
    requires var s, p := Run(width, numSlots, maxUser, acts[..b - 1]), acts[b - 1].p;
             Checks(s, p, j) || (s.valid[j] && !Overwrites(s, p, j))
    ensures Run(width, numSlots, maxUser, acts[..b]).valid[j]
  {
    RunStep(width, numSlots, maxUser, acts, b);
    ValidFromCheckToOverwrite(Run(width, numSlots, maxUser, acts[..b - 1]), acts[b - 1].p, acts[b - 1].op, j);
  }

  lemma {:induction false} StaysValid(width: nat, numSlots: nat, maxUser: nat, acts: seq<Act>, j: nat, a: nat, b: nat)
    requires numSlots >= 1 && ScheduleOk(acts, width, maxUser) && Protected(width, numSlots, maxUser, acts, j, a, b)
    ensures Run(width, numSlots, maxUser, acts[..b]).valid[j]
    decreases b
  {
    if a < b {
      StaysValid(width, numSlots, maxUser, acts, j, a, b - 1);
    }
    ValidAfter(width, numSlots, maxUser, acts, j, b);
  }

  /** Index j is validated in every state of the run from length a to length b. */
  ghost predicate ValidThroughout(width: nat, numSlots: nat, maxUser: nat, acts: seq<Act>, j: nat, a: nat, b: nat)
    requires numSlots >= 1 && ScheduleOk(acts, width, maxUser) && b <= |acts| && j < NUM_SHAREDIDX * maxUser
  {
    forall m :: a <= m <= b ==> Run(width, numSlots, maxUser, acts[..m]).valid[j]
  }

  lemma {:induction false} KeptThroughout(width: nat, numSlots: nat, maxUser: nat, acts: seq<Act>, j: nat,
                                          a: nat, b: nat)
    requires numSlots >= 1 && ScheduleOk(acts, width, maxUser) && a <= b <= |acts| && j < NUM_SHAREDIDX * maxUser
    requires ValidThroughout(width, numSlots, maxUser, acts, j, a, b)
    ensures
      var s, s' := Run(width, numSlots, maxUser, acts[..a]), Run(width, numSlots, maxUser, acts[..b]);
      InRange(s, s.haz[j]) && s'.haz[j] == s.haz[j] && SameLife(s.slots[s.haz[j]], s'.slots[s.haz[j]])
    decreases b
  {
    if a == b {
      ProtectedNow(width, numSlots, maxUser, acts[..a], j);
    } else {
      KeptThroughout(width, numSlots, maxUser, acts, j, a, b - 1);
      ProtectedRunStep(width, numSlots, maxUser, acts, j, b);
    }
  }

  /**
   Hazard safety with the non-atomic scan: from the check at line 181, 229 or 243 until its user
   overwrites the index, the slot it names is neither freed nor reused, whatever the others do.
   */
  lemma HazardSafety(width: nat, numSlots: nat, maxUser: nat, acts: seq<Act>, j: nat, a: nat, b: nat)
    requires numSlots >= 1 && ScheduleOk(acts, width, maxUser) && Protected(width, numSlots, maxUser, acts, j, a, b)
    ensures
      var s, s' := Run(width, numSlots, maxUser, acts[..a]), Run(width, numSlots, maxUser, acts[..b]);
      InRange(s, s.haz[j]) && s'.haz[j] == s.haz[j] && SameLife(s.slots[s.haz[j]], s'.slots[s.haz[j]])
  {
    forall m | a <= m <= b ensures Run(width, numSlots, maxUser, acts[..m]).valid[j] {
      StaysValid(width, numSlots, maxUser, acts, j, a, m);
    }
    KeptThroughout(width, numSlots, maxUser, acts, j, a, b);
  }

  /**
   Absence of ABA. tail changes only from the last but one node to the last, head only from the first
   node to the second, and the list changes only by one node at its end or its front.
   */
  lemma CasMovesOneLink(s: State, s': State, p: nat, op: Op)
    requires Inv(s) && p < |s.procs| && s' == Step(s, p, op)
    ensures s'.tail != s.tail ==> |s.chain| >= 2 && s.tail == s.chain[|s.chain| - 2] && s'.tail == Last(s)
    ensures s'.head != s.head ==> |s.chain| >= 2 && s'.head == s.chain[1] && s'.chain == s.chain[1..]
    ensures s'.chain != s.chain && s'.head == s.head ==> s.tail == Last(s) && s'.chain == s.chain + [s.procs[p].node]
  {
    if MovesTail(s, p) {
      TailCas(s, p, op);
    } else if Pops(s, p) {
      HeadCas(s, p, op);
      assert s.chain[0] != s.chain[1];
    } else if Links(s, p) {
      LinkCas(s, p, op);
    } else {
      NoCas(s, p, op);
    }
  }

  // ----- Progress

  /**
   An enqueue that failed k iterations of its loop overlapped at least (k - 1) / 2 links, none of them
   its own. With no link by another process it fails at most once.
   */
  lemma EnqueueLockFree(width: nat, numSlots: nat, maxUser: nat, acts: seq<Act>, p: nat)
    requires numSlots >= 1 && ScheduleOk(acts, width, maxUser) && p < maxUser
    requires InEnqueueLoop(Run(width, numSlots, maxUser, acts).procs[p].pc)
    ensures
      var y := RunTally(width, numSlots, maxUser, acts);
      y.tracks[p].mine == 0 && y.tracks[p].fails <= 2 * (y.links - y.tracks[p].links0) + 1
  {
    RunTallyInv(width, numSlots, maxUser, acts);
    var s, y := Run(width, numSlots, maxUser, acts), RunTally(width, numSlots, maxUser, acts);
    assert TrackOk(s, y, p);
  }

  /**
   A dequeue failed at most as many iterations as head and tail moved during it, and so at most the
   pops by others plus the links plus one. Alone it fails at most once.
   */
  lemma DequeueLockFree(width: nat, numSlots: nat, maxUser: nat, acts: seq<Act>, p: nat)
    requires numSlots >= 1 && ScheduleOk(acts, width, maxUser) && p < maxUser
    requires InDequeueLoop(Run(width, numSlots, maxUser, acts).procs[p].pc)
    ensures
      var y := RunTally(width, numSlots, maxUser, acts);
      var k := y.tracks[p];
      && k.mine == 0
      && k.fails <= (y.pops - k.pops0) + (y.advs - k.advs0)
      && k.fails <= (y.pops - k.pops0) + (y.links - k.links0) + 1
  {
    RunTallyInv(width, numSlots, maxUser, acts);
    var s, y := Run(width, numSlots, maxUser, acts), RunTally(width, numSlots, maxUser, acts);
    assert TrackOk(s, y, p);
  }

  // ----- Capacity

  /**
   Capacity. When calls do not overlap, an enqueue finds no free slot only if
   numSlots <= length + 1 + 2 * maxUser^2, and then no retire list holds more than 2 * maxUser slots.
   */
  lemma FullMeansFull(width: nat, numSlots: nat, maxUser: nat, acts: seq<Act>, p: nat)
    requires numSlots >= 1 && ScheduleOk(acts, width, maxUser) && p < maxUser
    requires Sequential(width, numSlots, maxUser, acts)
    requires var s := Run(width, numSlots, maxUser, acts); OthersIdle(s, p) && s.procs[p].pc == Claim(numSlots)
    ensures numSlots <= |Fifo(Run(width, numSlots, maxUser, acts))| + 1 + 2 * maxUser * maxUser
    ensures forall q :: 0 <= q < maxUser ==> |Run(width, numSlots, maxUser, acts).procs[q].rlist| <= 2 * maxUser
  {
    var s := Run(width, numSlots, maxUser, acts);
    RunInv(width, numSlots, maxUser, acts);
    SequentialLists(width, numSlots, maxUser, acts);
    FullCount(s, p);
    forall q | 0 <= q < maxUser ensures |s.procs[q].rlist| <= 2 * maxUser { assert SoloOk(s, q); }
    assert maxUser * (2 * maxUser) == 2 * maxUser * maxUser;
  }
}
