/**
 Lock-freedom of the queue of Lfmpscq.dfy, counted: a producer repeats its loop only because others got
 something done. Counters run beside the machine and are never read by it.
 */
module LfmpscqProgress {
  import opened Common
  import opened Counting
  import opened Lfmpscq
  import opened LfmpscqSafety
  import LfmpscqCalls

  /**
   For one producer: failed iterations and links of its own in the call that runs, and the values of the
   global counters when the call began (0) and when its current iteration began (1).
   */
  datatype Track = Track(fails: nat, mine: nat, links0: nat, advs0: nat, links1: nat, advs1: nat)

  /** Successful CAS so far: nodes linked (153) and tail moved (148, 158). */
  datatype Tally = Tally(links: nat, advs: nat, tracks: seq<Track>)

  /** The CAS at line 148 or 158 is about to succeed. */
  predicate MovesTail(s: State, p: nat)
    requires p < |s.procs|
  {
    (s.procs[p].pc.HelpTail? || s.procs[p].pc.SwingTail?) && s.tail == s.procs[p].t
  }

  /** The step of p ends an iteration without success (lines 137, 148, 153). */
  predicate Fails(s: State, p: nat)
    requires p < |s.procs|
  {
    var r := s.procs[p];
    (r.pc.CheckTail? && s.tail != r.t) || r.pc.HelpTail? || (r.pc.Link? && !Links(s, p))
  }

  function TrackStep(s: State, y: Tally, p: nat): Track
    requires p < |s.procs| == |y.tracks|
  {
    var r, k := s.procs[p], y.tracks[p];
    if r.pc.Idle? then
      k.(fails := 0, mine := 0, links0 := y.links, advs0 := y.advs)
    else if r.pc.ReadTail? then
      k.(links1 := y.links, advs1 := y.advs)
    else if Fails(s, p) then
      k.(fails := k.fails + 1)
    else if Links(s, p) then
      k.(mine := k.mine + 1)
    else
      k
  }

  function TallyStep(s: State, y: Tally, a: Act): (y': Tally)
    requires |s.procs| == |y.tracks| && ActOk(a, s.width, |s.procs|)
    ensures |y'.tracks| == |y.tracks|
  {
    match a
    case ByConsumer => y
    case ByProducer(p, _) =>
      Tally(if Links(s, p) then y.links + 1 else y.links,
            if MovesTail(s, p) then y.advs + 1 else y.advs,
            y.tracks[p := TrackStep(s, y, p)])
  }

  ghost function RunTally(width: nat, numSlots: nat, maxUser: nat, acts: seq<Act>): (y: Tally)
    requires numSlots >= 1 && ScheduleOk(acts, width, maxUser)
    ensures |y.tracks| == maxUser
  {
    if acts == [] then
      Tally(0, 0, seq(maxUser, _ => Track(0, 0, 0, 0, 0, 0)))
    else
      var a, before := acts[|acts| - 1], acts[..|acts| - 1];
      assert ActOk(a, width, maxUser);
      TallyStep(RunFrom(Init(width, numSlots, maxUser), before), RunTally(width, numSlots, maxUser, before), a)
  }

  predicate InLoop(pc: PC) {
    pc.ReadTail? || pc.PublishTail? || pc.CheckTail? || pc.ReadTailNext? || pc.HelpTail? || pc.Link?
  }

  // ----- A failed iteration, in every run

  ghost predicate TrackOk(s: State, y: Tally, p: nat)
    requires p < |s.procs| == |y.tracks|
  {
    var r, k := s.procs[p], y.tracks[p];
    && k.links0 <= y.links && k.advs0 <= y.advs
    && (r.pc.Claim? || r.pc.Fill? ==> k.fails == 0 && k.mine == 0)
    && (InLoop(r.pc) ==> k.mine == 0)
    && (r.pc.ReadTail? ==> k.fails <= (y.links - k.links0) + (y.advs - k.advs0))
    && (InLoop(r.pc) && !r.pc.ReadTail? ==>
          && k.links0 <= k.links1 <= y.links && k.advs0 <= k.advs1 <= y.advs
          && k.fails <= (k.links1 - k.links0) + (k.advs1 - k.advs0)
          && (s.tail != r.t ==> y.advs > k.advs1))
    && (r.pc.Link? && NextOf(s, r.t) != UNDEFINED_NODE ==> y.links > k.links1)
  }

  lemma TrackBegins(s: State, y: Tally, p: nat, msg: Msg)
    requires Shape(s) && p < |s.procs| == |y.tracks| && TrackOk(s, y, p) && |msg| == s.width
    requires var pc := s.procs[p].pc; pc.Idle? || pc.Claim? || pc.Fill?
    ensures TrackOk(Produce(s, p, msg), TallyStep(s, y, ByProducer(p, msg)), p)
  {
  }

  lemma TrackReadsTail(s: State, y: Tally, p: nat, msg: Msg)
    requires Shape(s) && p < |s.procs| == |y.tracks| && TrackOk(s, y, p) && |msg| == s.width
    requires var pc := s.procs[p].pc; pc.ReadTail? || pc.PublishTail? || pc.CheckTail?
    ensures TrackOk(Produce(s, p, msg), TallyStep(s, y, ByProducer(p, msg)), p)
  {
  }

  lemma TrackUsesTail(s: State, y: Tally, p: nat, msg: Msg)
    requires Shape(s) && p < |s.procs| == |y.tracks| && TrackOk(s, y, p) && |msg| == s.width
    requires var pc := s.procs[p].pc; pc.ReadTailNext? || pc.HelpTail? || pc.Link? || pc.SwingTail?
    ensures TrackOk(Produce(s, p, msg), TallyStep(s, y, ByProducer(p, msg)), p)
  {
  }

  /** tail changes and a next is set only by a CAS that is counted, and nobody else's locals change. */
  lemma OthersSee(s: State, p: nat, msg: Msg, q: nat)
    requires Shape(s) && p < |s.procs| && q < |s.procs| && q != p
    ensures Produce(s, p, msg).procs[q] == s.procs[q]
    ensures Produce(s, p, msg).tail != s.tail ==> MovesTail(s, p)
  {
    if InLoop(s.procs[p].pc) { OthersSeeLoop(s, p, msg, q); }
  }

  lemma OthersSeeLoop(s: State, p: nat, msg: Msg, q: nat)
    requires Shape(s) && p < |s.procs| && q < |s.procs| && q != p && InLoop(s.procs[p].pc)
    ensures Produce(s, p, msg).procs[q] == s.procs[q]
    ensures Produce(s, p, msg).tail != s.tail ==> MovesTail(s, p)
  {
  }

  lemma NextSetByLink(s: State, p: nat, msg: Msg, n: int)
    requires Shape(s) && p < |s.procs| && NextOf(s, n) == UNDEFINED_NODE != NextOf(Produce(s, p, msg), n)
    ensures Links(s, p)
  {
  }

  lemma ConsumerSetsNone(s: State, n: int)
    requires Shape(s)
    ensures Consume(s).procs == s.procs && Consume(s).tail == s.tail
    ensures NextOf(s, n) == UNDEFINED_NODE ==> NextOf(Consume(s), n) == UNDEFINED_NODE
  {
  }

  lemma TrackOther(s: State, s': State, y: Tally, y': Tally, q: nat)
    requires q < |s.procs| == |y.tracks| && TrackOk(s, y, q)
    requires |s'.procs| == |y'.tracks| == |s.procs| && s'.procs[q] == s.procs[q] && y'.tracks[q] == y.tracks[q]
    requires y.links <= y'.links && y.advs <= y'.advs
    requires s'.tail != s.tail ==> y'.advs > y.advs
    requires var t := s.procs[q].t;
             NextOf(s, t) == UNDEFINED_NODE && NextOf(s', t) != UNDEFINED_NODE ==> y'.links > y.links
    ensures TrackOk(s', y', q)
  {
  }

  lemma TrackKeeps(s: State, y: Tally, a: Act, q: nat)
    requires Shape(s) && q < |s.procs| == |y.tracks| && TrackOk(s, y, q) && ActOk(a, s.width, |s.procs|)
    ensures TrackOk(Step(s, a), TallyStep(s, y, a), q)
  {
    var s', y', t := Step(s, a), TallyStep(s, y, a), s.procs[q].t;
    if a.ByConsumer? {
      ConsumerSetsNone(s, t);
      TrackOther(s, s', y, y', q);
    } else if a.p != q {
      OthersSee(s, a.p, a.msg, q);
      if NextOf(s, t) == UNDEFINED_NODE != NextOf(s', t) { NextSetByLink(s, a.p, a.msg, t); }
      TrackOther(s, s', y, y', q);
    } else {
      TrackOwn(s, y, q, a.msg);
    }
  }

  lemma TrackOwn(s: State, y: Tally, p: nat, msg: Msg)
    requires Shape(s) && p < |s.procs| == |y.tracks| && TrackOk(s, y, p) && |msg| == s.width
    ensures TrackOk(Produce(s, p, msg), TallyStep(s, y, ByProducer(p, msg)), p)
  {
    var pc := s.procs[p].pc;
    if pc.Idle? || pc.Claim? || pc.Fill? {
      TrackBegins(s, y, p, msg);
    } else if pc.ReadTail? || pc.PublishTail? || pc.CheckTail? {
      TrackReadsTail(s, y, p, msg);
    } else {
      TrackUsesTail(s, y, p, msg);
    }
  }

  lemma {:induction false} RunTrack(width: nat, numSlots: nat, maxUser: nat, acts: seq<Act>, p: nat)
    requires numSlots >= 1 && ScheduleOk(acts, width, maxUser) && p < maxUser
    ensures TrackOk(RunFrom(Init(width, numSlots, maxUser), acts), RunTally(width, numSlots, maxUser, acts), p)
  {
    if acts != [] {
      var a, before := acts[|acts| - 1], acts[..|acts| - 1];
      assert ActOk(a, width, maxUser);
      RunTrack(width, numSlots, maxUser, before, p);
      TrackKeeps(RunFrom(Init(width, numSlots, maxUser), before), RunTally(width, numSlots, maxUser, before), a, p);
    }
  }

  /**
   In every interleaving, also in one that loses a message, a producer failed at most as many iterations
   as others linked nodes and tail moved during its call.
   */
  lemma FailsOnlyByOthers(width: nat, numSlots: nat, maxUser: nat, acts: seq<Act>, p: nat)
    requires numSlots >= 1 && ScheduleOk(acts, width, maxUser) && p < maxUser
    requires InLoop(RunFrom(Init(width, numSlots, maxUser), acts).procs[p].pc)
    ensures
      var y := RunTally(width, numSlots, maxUser, acts);
      var k := y.tracks[p];
      k.mine == 0 && k.fails <= (y.links - k.links0) + (y.advs - k.advs0)
  {
    RunTrack(width, numSlots, maxUser, acts, p);
    assert TrackOk(RunFrom(Init(width, numSlots, maxUser), acts), RunTally(width, numSlots, maxUser, acts), p);
  }

  // ----- How often tail moves, in a run without a late check

  /** tail is behind the last node exactly while one link more than advances has happened. */
  ghost predicate LagOk(s: State, y: Tally) {
    && |s.chain| >= 1 && y.links == y.advs + (if s.tail == Last(s) then 0 else 1)
    && forall p :: 0 <= p < |y.tracks| ==> y.tracks[p].links0 <= y.tracks[p].advs0 + 1
  }

  lemma LagTailMoves(s: State, p: nat, msg: Msg)
    requires Inv(s) && p < |s.procs| && MovesTail(s, p)
    ensures s.tail != Last(s) && Produce(s, p, msg).tail == Last(s) && Produce(s, p, msg).chain == s.chain
  {
    assert ProcOk(s, p);
    assert s.slots[Last(s)].next == UNDEFINED_NODE;
  }

  lemma LagLinks(s: State, p: nat, msg: Msg)
    requires Inv(s) && p < |s.procs| && Links(s, p)
    ensures s.tail == Last(s) && Produce(s, p, msg).tail == s.tail
    ensures |Produce(s, p, msg).chain| >= 1 && Last(Produce(s, p, msg)) != s.tail
  {
    LinkFacts(s, p);
  }

  lemma LagSame(s: State, p: nat, msg: Msg)
    requires Shape(s) && p < |s.procs| && !Links(s, p) && !MovesTail(s, p)
    ensures Produce(s, p, msg).tail == s.tail && Produce(s, p, msg).chain == s.chain
  {
  }

  lemma LagConsume(s: State)
    requires Inv(s)
    ensures Consume(s).tail == s.tail && |Consume(s).chain| >= 1 && Last(Consume(s)) == Last(s)
  {
  }

  lemma LagKeeps(s: State, y: Tally, a: Act)
    requires Inv(s) && LagOk(s, y) && |y.tracks| == |s.procs| && ActOk(a, s.width, |s.procs|)
    ensures LagOk(Step(s, a), TallyStep(s, y, a))
  {
    if a.ByConsumer? {
      LagConsume(s);
    } else if Links(s, a.p) {
      LagLinks(s, a.p, a.msg);
    } else if MovesTail(s, a.p) {
      LagTailMoves(s, a.p, a.msg);
    } else {
      LagSame(s, a.p, a.msg);
    }
  }

  lemma {:induction false} RunLag(width: nat, numSlots: nat, maxUser: nat, acts: seq<Act>)
    requires numSlots >= 1 && ScheduleOk(acts, width, maxUser) && NoLateCheck(Init(width, numSlots, maxUser), acts)
    ensures LagOk(RunFrom(Init(width, numSlots, maxUser), acts), RunTally(width, numSlots, maxUser, acts))
  {
    if acts != [] {
      var s0, a, before := Init(width, numSlots, maxUser), acts[|acts| - 1], acts[..|acts| - 1];
      assert ActOk(a, width, maxUser);
      assert forall i :: 0 <= i < |before| ==> before[..i] == acts[..i];
      RunLag(width, numSlots, maxUser, before);
      InitInv(width, numSlots, maxUser);
      RunInv(s0, before);
      LagKeeps(RunFrom(s0, before), RunTally(width, numSlots, maxUser, before), a);
    }
  }

  /**
   In a run without a late check, a producer that failed k iterations of its loop overlapped at least
   (k - 1) / 2 links by others. With none it fails at most once.
   */
  lemma EnqueueLockFree(width: nat, numSlots: nat, maxUser: nat, acts: seq<Act>, p: nat)
    requires numSlots >= 1 && ScheduleOk(acts, width, maxUser) && p < maxUser
    requires NoLateCheck(Init(width, numSlots, maxUser), acts)
    requires InLoop(RunFrom(Init(width, numSlots, maxUser), acts).procs[p].pc)
    ensures
      var y := RunTally(width, numSlots, maxUser, acts);
      y.tracks[p].mine == 0 && y.tracks[p].fails <= 2 * (y.links - y.tracks[p].links0) + 1
  {
    FailsOnlyByOthers(width, numSlots, maxUser, acts, p);
    RunLag(width, numSlots, maxUser, acts);
  }

  // ----- How many steps an enqueue takes

  /** The steps that p made in its call, or in its last one if it is in none. */
  ghost function ProducerSteps(width: nat, numSlots: nat, maxUser: nat, acts: seq<Act>, p: nat): nat
    requires numSlots >= 1 && ScheduleOk(acts, width, maxUser) && p < maxUser
  {
    if acts == [] then 0
    else
      var a, before := acts[|acts| - 1], acts[..|acts| - 1];
      if !LfmpscqCalls.By(a, p) then ProducerSteps(width, numSlots, maxUser, before, p)
      else if RunFrom(Init(width, numSlots, maxUser), before).procs[p].pc.Idle? then 1
      else ProducerSteps(width, numSlots, maxUser, before, p) + 1
  }

  /** The steps that the call of p still needs if no further iteration fails. */
  function EnqueueRank(r: Producer, numSlots: nat, width: nat): int {
    match r.pc
    case Idle => 0
    case Claim(cnt) => numSlots - cnt + width + 8
    case Fill(c) => width - c + 7
    case ReadTail => 6
    case PublishTail => 5
    case CheckTail => 4
    case ReadTailNext => 3
    case HelpTail => 2
    case Link => 2
    case SwingTail => 1
  }

  predicate CountersOk(r: Producer, numSlots: nat, width: nat) {
    (r.pc.Claim? ==> 0 <= r.pc.cnt <= numSlots) && (r.pc.Fill? ==> 0 <= r.pc.c <= width)
  }

  /** What the step of p leaves of its rank: less by one at least, or a failed iteration, which adds five. */
  predicate RankKept(s: State, r: Producer, p: nat)
    requires p < |s.procs|
  {
    var n, before := |s.slots|, EnqueueRank(s.procs[p], |s.slots|, s.width);
    && CountersOk(r, n, s.width)
    && EnqueueRank(r, n, s.width) + 1
       <= if s.procs[p].pc.Idle? then n + s.width + 9 else before + if Fails(s, p) then 5 else 0
  }

  lemma RankInPool(s: State, p: nat, msg: Msg)
    requires Shape(s) && p < |s.procs| && CountersOk(s.procs[p], |s.slots|, s.width)
    requires LfmpscqCalls.UsesPool(s.procs[p].pc)
    ensures RankKept(s, Produce(s, p, msg).procs[p], p)
  {
  }

  lemma RankInLoop(s: State, p: nat, msg: Msg)
    requires Shape(s) && p < |s.procs| && !LfmpscqCalls.UsesPool(s.procs[p].pc)
    ensures RankKept(s, Produce(s, p, msg).procs[p], p)
  {
  }

  lemma RankStep(s: State, y: Tally, a: Act, p: nat, steps: nat)
    requires Shape(s) && p < |s.procs| == |y.tracks| && ActOk(a, s.width, |s.procs|)
    requires CountersOk(s.procs[p], |s.slots|, s.width)
    requires steps + EnqueueRank(s.procs[p], |s.slots|, s.width) <= |s.slots| + s.width + 9 + 5 * y.tracks[p].fails
    ensures
      var s', y' := Step(s, a), TallyStep(s, y, a);
      && CountersOk(s'.procs[p], |s.slots|, s.width)
      && (if !LfmpscqCalls.By(a, p) then steps else if s.procs[p].pc.Idle? then 1 else steps + 1)
         + EnqueueRank(s'.procs[p], |s.slots|, s.width) <= |s.slots| + s.width + 9 + 5 * y'.tracks[p].fails
  {
    if !LfmpscqCalls.By(a, p) {
      LfmpscqCalls.OtherCalls(s, a, p);
    } else if LfmpscqCalls.UsesPool(s.procs[p].pc) {
      RankInPool(s, p, a.msg);
    } else {
      RankInLoop(s, p, a.msg);
    }
  }

  /**
   In every run: an enqueue takes at most numSlots + width + 9 steps, and five more for each iteration that
   failed; FailsOnlyByOthers bounds those.
   */
  lemma {:induction false} EnqueueIsShort(width: nat, numSlots: nat, maxUser: nat, acts: seq<Act>, p: nat)
    requires numSlots >= 1 && ScheduleOk(acts, width, maxUser) && p < maxUser
    ensures
      var r := RunFrom(Init(width, numSlots, maxUser), acts).procs[p];
      && CountersOk(r, numSlots, width)
      && ProducerSteps(width, numSlots, maxUser, acts, p) + EnqueueRank(r, numSlots, width)
         <= numSlots + width + 9 + 5 * RunTally(width, numSlots, maxUser, acts).tracks[p].fails
  {
    if acts != [] {
      var a, before := acts[|acts| - 1], acts[..|acts| - 1];
      assert ActOk(a, width, maxUser);
      EnqueueIsShort(width, numSlots, maxUser, before, p);
      RankStep(RunFrom(Init(width, numSlots, maxUser), before), RunTally(width, numSlots, maxUser, before), a, p,
               ProducerSteps(width, numSlots, maxUser, before, p));
    }
  }

  // ----- How many steps a dequeue takes

  /** The steps of a sweep of m slots: it reads at most h indexes for each and makes two stores. */
  function SweepSteps(m: nat, h: nat): nat {
    if m == 0 then 1 else SweepSteps(m - 1, h) + h + 2
  }

  /** The steps that the dequeue still needs. */
  function DequeueRank(r: Consumer, h: nat, width: nat): int {
    match r.pc
    case ReadHead => 0
    case ReadHeadNext => width + 2 + SweepSteps(|r.rlist| + 1, h)
    case CopyOut(c) => width - c + 1 + SweepSteps(|r.rlist| + 1, h)
    case Scan(k) => SweepSteps(|r.todo|, h) - k
    case Release => SweepSteps(|r.todo|, h) + 1
  }

  predicate ConsumerCountersOk(r: Consumer, h: nat, width: nat) {
    && (r.pc.CopyOut? ==> 0 <= r.pc.c <= width)
    && (r.pc.Scan? ==> 0 <= r.pc.k <= h && (r.todo == [] ==> r.pc.k == 0))
  }

  lemma DequeueRankStep(s: State)
    requires Shape(s) && ConsumerCountersOk(s.cons, |s.haz|, s.width)
    ensures
      var r, r', h := s.cons, Consume(s).cons, |s.haz|;
      && ConsumerCountersOk(r', h, s.width)
      && DequeueRank(r', h, s.width)
         < if r.pc.ReadHead? then s.width + 3 + SweepSteps(|r.rlist| + 1, h) else DequeueRank(r, h, s.width)
  {
    var r := s.cons;
    if r.pc.Scan? && r.todo != [] {
      assert SweepSteps(|r.todo|, |s.haz|) == SweepSteps(|r.todo| - 1, |s.haz|) + |s.haz| + 2;
    }
  }

  /** The steps that the consumer made in its call, or in its last one; and what it may take, known when it begins. */
  ghost function DequeueSteps(width: nat, numSlots: nat, maxUser: nat, acts: seq<Act>): nat
    requires numSlots >= 1 && ScheduleOk(acts, width, maxUser)
  {
    if acts == [] then 0
    else
      var a, before := acts[|acts| - 1], acts[..|acts| - 1];
      if a.ByProducer? then DequeueSteps(width, numSlots, maxUser, before)
      else if RunFrom(Init(width, numSlots, maxUser), before).cons.pc.ReadHead? then 1
      else DequeueSteps(width, numSlots, maxUser, before) + 1
  }

  ghost function DequeueBudget(width: nat, numSlots: nat, maxUser: nat, acts: seq<Act>): nat
    requires numSlots >= 1 && ScheduleOk(acts, width, maxUser)
  {
    if acts == [] then 0
    else
      var a, before := acts[|acts| - 1], acts[..|acts| - 1];
      var r := RunFrom(Init(width, numSlots, maxUser), before).cons;
      if a.ByConsumer? && r.pc.ReadHead? then width + 3 + SweepSteps(|r.rlist| + 1, maxUser)
      else DequeueBudget(width, numSlots, maxUser, before)
  }

  /**
   A dequeue is wait-free in every run: with L slots in the retire list when it begins it takes at most
   width + 3 steps and a sweep of L + 1 slots, whatever the producers do.
   */
  lemma {:induction false} DequeueWaitFree(width: nat, numSlots: nat, maxUser: nat, acts: seq<Act>)
    requires numSlots >= 1 && ScheduleOk(acts, width, maxUser)
    ensures
      var r := RunFrom(Init(width, numSlots, maxUser), acts).cons;
      && ConsumerCountersOk(r, maxUser, width)
      && DequeueSteps(width, numSlots, maxUser, acts) + DequeueRank(r, maxUser, width)
         <= DequeueBudget(width, numSlots, maxUser, acts)
      && (r.pc.ReadHead? <==> DequeueRank(r, maxUser, width) == 0)
  {
    if acts != [] {
      var a, before := acts[|acts| - 1], acts[..|acts| - 1];
      assert ActOk(a, width, maxUser);
      DequeueWaitFree(width, numSlots, maxUser, before);
      var s := RunFrom(Init(width, numSlots, maxUser), before);
      match a {
        case ByProducer(p, msg) => LfmpscqCalls.ProducerLeaves(s, p, msg);
        case ByConsumer => DequeueRankStep(s);
      }
    }
    var r := RunFrom(Init(width, numSlots, maxUser), acts).cons;
    if r.pc.Scan? { SweepAtLeast(|r.todo|, maxUser); }
  }

  lemma SweepAtLeast(m: nat, h: nat)
    ensures SweepSteps(m, h) >= if m == 0 then 1 else h + 3
  {
  }

  lemma {:induction false} SweepClosed(m: nat, h: nat)
    ensures SweepSteps(m, h) == m * (h + 2) + 1
  {
    if m > 0 {
      SweepClosed(m - 1, h);
      assert m * (h + 2) == (m - 1) * (h + 2) + h + 2;
    }
  }

  /** With no late check so far the retire list is shorter than the pool, so that the sweep is bounded too. */
  lemma ListFits(s: State)
    requires Inv(s)
    ensures |s.cons.rlist| + |s.cons.todo| < |s.slots|
  {
    var g := Garbage(s);
    var a := g + [s.head];
    assert StatusOf(s, s.head) == Linked;
    assert forall i :: 0 <= i < |a| ==> 0 <= a[i] < |s.slots|;
    Pigeonhole(a, |s.slots|);
  }
}
