/**
 Linearizability of the queue of Mpmcq.dfy. A log runs beside the machine: the sequence of effects
 on an abstract FIFO, and for each user the calls it completed, with their results and the
 stretch of the effect sequence they overlapped.
 */
module MpmcqLinearizable {
  import opened Common
  import opened Mpmcq
  import opened MpmcqSafety

  /** The messages on the list, front first: the data of every node but the dummy. */
  function Messages(s: State, chain: seq<int>): seq<Msg> {
    if |chain| <= 1 then [] else Messages(s, chain[..|chain| - 1]) + [DataOf(s, chain[|chain| - 1])]
  }

  function Fifo(s: State): seq<Msg> {
    Messages(s, s.chain)
  }

  /** The k-th call of user p put msg at the back of the queue, or took it from the front. */
  datatype Event = Event(p: nat, k: nat, enq: bool, msg: Msg)

  datatype Outcome =
    | Enqueued(msg: Msg)
    | NoFreeSlot
    | Dequeued(msg: Msg)
    | Empty

  /** A completed call: the effect sequence had length start when it began and end when it returned. */
  datatype Call = Call(outcome: Outcome, start: nat, lin: nat, end: nat)

  datatype Log = Log(hist: seq<Event>, calls: seq<seq<Call>>, start: seq<nat>, lin: seq<nat>)

  function InitLog(maxUser: nat): Log {
    Log([], seq(maxUser, _ => []), seq(maxUser, _ => 0), seq(maxUser, _ => 0))
  }

  ghost predicate LogShape(s: State, l: Log) {
    |l.calls| == |l.start| == |l.lin| == |s.procs|
  }

  function Complete(l: Log, p: nat, outcome: Outcome): Log
    requires p < |l.calls| && |l.calls| == |l.start| == |l.lin|
  {
    l.(calls := l.calls[p := l.calls[p] + [Call(outcome, l.start[p], l.lin[p], |l.hist|)]])
  }

  function Effect(l: Log, p: nat, enq: bool, msg: Msg): Log
    requires p < |l.calls| && |l.calls| == |l.start| == |l.lin|
  {
    l.(lin := l.lin[p := |l.hist|], hist := l.hist + [Event(p, |l.calls[p]|, enq, msg)])
  }

  /** What the step of process p from s adds to the log. */
  ghost function LogStep(s: State, l: Log, p: nat): (l': Log)
    requires Shape(s) && LogShape(s, l) && p < |s.procs|
    ensures LogShape(s, l')
  {
    var r := s.procs[p];
    match r.pc
    case Idle => l.(start := l.start[p := |l.hist|])
    case Claim(cnt) =>
      if cnt >= |s.slots| then Complete(l.(lin := l.lin[p := |l.hist|]), p, NoFreeSlot) else l
    case Link => if NextOf(s, r.t) == UNDEFINED_NODE then Effect(l, p, true, r.msg) else l
    case SwingTail => Complete(l, p, Enqueued(r.msg))
    case ReadHeadNext => if NextOf(s, r.h) == UNDEFINED_NODE then l.(lin := l.lin[p := |l.hist|]) else l
    case RecheckHead => if s.head == r.h && r.hNext == UNDEFINED_NODE then Complete(l, p, Empty) else l
    case MoveHead => if s.head == r.h then Effect(l, p, false, DataOf(s, r.hNext)) else l
    case Scan(_, caller) => if r.todo == [] && caller == FromRetireNode then Complete(l, p, Dequeued(r.out)) else l
    case _ => l
  }

  /** The log of a run. */
  ghost function RunLog(width: nat, numSlots: nat, maxUser: nat, acts: seq<Act>): (l: Log)
    requires numSlots >= 1 && ScheduleOk(acts, width, maxUser)
    ensures LogShape(Run(width, numSlots, maxUser, acts), l)
  {
    if acts == [] then
      InitLog(maxUser)
    else
      var a, before := acts[|acts| - 1], acts[..|acts| - 1];
      assert ActOk(a, width, maxUser);
      LogStep(Run(width, numSlots, maxUser, before), RunLog(width, numSlots, maxUser, before), a.p)
  }

  // ----- The sequential specification

  datatype Replayed = Illegal | Legal(queue: seq<Msg>)

  /** The FIFO after the effects of h, or Illegal if some effect takes a message that is not at the front. */
  function Replay(h: seq<Event>): Replayed {
    if h == [] then
      Legal([])
    else
      match Replay(h[..|h| - 1])
      case Illegal => Illegal
      case Legal(q) =>
        var e := h[|h| - 1];
        if e.enq then Legal(q + [e.msg])
        else if q != [] && q[0] == e.msg then Legal(q[1..])
        else Illegal
  }

  /** The result of the k-th call of p is what the FIFO gives at some moment between its begin and its end. */
  ghost predicate CallOk(l: Log, p: nat, k: nat)
    requires p < |l.calls| && k < |l.calls[p]|
  {
    var c := l.calls[p][k];
    && c.start <= c.lin <= c.end <= |l.hist|
    && (k > 0 ==> l.calls[p][k - 1].end <= c.start)
    && match c.outcome
       case Enqueued(m) => c.lin < c.end && l.hist[c.lin] == Event(p, k, true, m)
       case Dequeued(m) => c.lin < c.end && l.hist[c.lin] == Event(p, k, false, m)
       case Empty => Replay(l.hist[..c.lin]) == Legal([])
       case NoFreeSlot => true
  }

  /** Every effect belongs to one call: a completed one that reports it, or the pending one of its user. */
  ghost predicate EventOk(s: State, l: Log, i: nat)
    requires LogShape(s, l) && i < |l.hist|
  {
    var e := l.hist[i];
    && e.p < |l.calls|
    && e.k <= |l.calls[e.p]|
    && (e.k < |l.calls[e.p]| ==>
          var c := l.calls[e.p][e.k];
          c.lin == i && c.outcome == if e.enq then Enqueued(e.msg) else Dequeued(e.msg))
    && (e.k == |l.calls[e.p]| ==> l.lin[e.p] == i && l.start[e.p] <= i && AfterEffect(s.procs[e.p].pc))
  }

  predicate AfterEffect(pc: PC) {
    || pc.SwingTail? || pc.CopyOut?
    || (pc.Scan? && pc.caller.FromRetireNode?) || (pc.Release? && pc.caller.FromRetireNode?)
  }

  /** The state of the pending call of p. */
  ghost predicate PendingOk(s: State, l: Log, p: nat)
    requires Shape(s) && LogShape(s, l) && p < |s.procs|
  {
    var r, k := s.procs[p], |l.calls[p]|;
    && l.start[p] <= |l.hist|
    && (!r.pc.Idle? && k > 0 ==> l.calls[p][k - 1].end <= l.start[p])
    && (AfterEffect(r.pc) ==>
          && l.start[p] <= l.lin[p] < |l.hist|
          && l.hist[l.lin[p]] == if r.pc.SwingTail? then Event(p, k, true, r.msg) else Event(p, k, false, r.taken))
    && (AfterEffect(r.pc) && !r.pc.SwingTail? && !r.pc.CopyOut? ==> r.out == r.taken)
    && ((r.pc.PublishNext? || r.pc.RecheckHead?) && r.hNext == UNDEFINED_NODE ==>
          && l.start[p] <= l.lin[p] <= |l.hist|
          && Replay(l.hist[..l.lin[p]]) == Legal([]))
  }

  ghost predicate Linearized(s: State, l: Log) {
    && LogShape(s, l)
    && Replay(l.hist) == Legal(Fifo(s))
    && (forall p, k :: 0 <= p < |l.calls| && 0 <= k < |l.calls[p]| ==> CallOk(l, p, k))
    && (forall i :: 0 <= i < |l.hist| ==> EventOk(s, l, i))
  }

  ghost predicate LogInv(s: State, l: Log)
    requires Shape(s)
  {
    && Linearized(s, l)
    && (forall p :: 0 <= p < |s.procs| ==> PendingOk(s, l, p))
  }

  // ----- The FIFO of a state: which steps change it

  lemma {:induction false} MessagesSame(s: State, s': State, c: seq<int>)
    requires forall i :: 1 <= i < |c| ==> DataOf(s', c[i]) == DataOf(s, c[i])
    ensures Messages(s', c) == Messages(s, c)
  {
    if |c| > 1 {
      MessagesSame(s, s', c[..|c| - 1]);
    }
  }

  lemma {:induction false} MessagesFront(s: State, c: seq<int>)
    requires |c| >= 2
    ensures Messages(s, c) == [DataOf(s, c[1])] + Messages(s, c[1..])
  {
    var d := c[..|c| - 1];
    if |c| == 2 {
      assert Messages(s, d) == [];
    } else {
      MessagesFront(s, d);
      assert d[1..] == c[1..][..|c| - 2];
    }
  }

  /** Line 197 appends the message of the caller to the FIFO. */
  lemma LinkAppends(s: State, p: nat, op: Op)
    requires Inv(s) && p < |s.procs| && Links(s, p)
    ensures Fifo(Step(s, p, op)) == Fifo(s) + [s.procs[p].msg]
  {
    var s' := Step(s, p, op);
    LinkFacts(s, p);
    assert ProcOk(s, p);
    assert s'.chain[..|s'.chain| - 1] == s.chain;
    MessagesSame(s, s', s.chain);
  }

  /** Line 257 takes the front of the FIFO, and the message copied at line 263 will be that one. */
  lemma MoveHeadTakesFront(s: State, p: nat, op: Op)
    requires Inv(s) && p < |s.procs| && Pops(s, p)
    ensures Fifo(s) == [DataOf(s, s.procs[p].hNext)] + Fifo(Step(s, p, op))
    ensures Step(s, p, op).procs[p].taken == DataOf(s, s.procs[p].hNext)
  {
    var s' := Step(s, p, op);
    MoveFacts(s, p);
    MessagesFront(s, s.chain);
    MessagesSame(s, s', s.chain[1..]);
  }

  /** Every other step leaves the FIFO as it is. */
  lemma OtherStepsKeepFifo(s: State, p: nat, op: Op)
    requires Inv(s) && p < |s.procs|
    requires !Links(s, p) && !Pops(s, p)
    ensures Fifo(Step(s, p, op)) == Fifo(s)
  {
    var r, s' := s.procs[p], Step(s, p, op);
    assert s'.chain == s.chain;
    assert ProcOk(s, p);
    forall i | 1 <= i < |s.chain| ensures DataOf(s', s.chain[i]) == DataOf(s, s.chain[i]) {
      assert InRange(s, s.chain[i]) && s.slots[s.chain[i]].st == Linked;
    }
    MessagesSame(s, s', s.chain);
  }

  /** Line 237: a process that reads an undefined next through its validated head sees an empty queue. */
  lemma ReadsEmpty(s: State, p: nat)
    requires Inv(s) && p < |s.procs| && s.procs[p].pc.ReadHeadNext? && NextOf(s, s.procs[p].h) == UNDEFINED_NODE
    ensures Fifo(s) == []
  {
    var r := s.procs[p];
    assert ProcOk(s, p) && HazOk(s, 2 * p);
    LastHeld(s, r.h);
    assert StatusOf(s, Last(s)) == Linked;
  }

  // ----- The log stays right

  lemma InitLogInv(width: nat, numSlots: nat, maxUser: nat)
    requires numSlots >= 1
    ensures LogInv(Init(width, numSlots, maxUser), InitLog(maxUser))
  {
  }

  lemma ReplayEffect(h: seq<Event>, e: Event, q: seq<Msg>, q': seq<Msg>)
    requires Replay(h) == Legal(q)
    requires if e.enq then q' == q + [e.msg] else q == [e.msg] + q'
    ensures Replay(h + [e]) == Legal(q')
  {
    assert (h + [e])[..|h|] == h;
  }

  /** What any step does to the FIFO. */
  lemma StepOnFifo(s: State, p: nat, op: Op)
    requires Inv(s) && p < |s.procs|
    ensures Links(s, p) ==> Fifo(Step(s, p, op)) == Fifo(s) + [s.procs[p].msg]
    ensures Pops(s, p) ==> Fifo(s) == [DataOf(s, s.procs[p].hNext)] + Fifo(Step(s, p, op))
    ensures !Links(s, p) && !Pops(s, p) ==> Fifo(Step(s, p, op)) == Fifo(s)
  {
    if Links(s, p) {
      LinkAppends(s, p, op);
    } else if Pops(s, p) {
      MoveHeadTakesFront(s, p, op);
    } else {
      OtherStepsKeepFifo(s, p, op);
    }
  }

  /** The log records the same change: f and f' are the FIFO before and after the step. */
  lemma ReplayKeeps(s: State, l: Log, p: nat, f: seq<Msg>, f': seq<Msg>)
    requires Shape(s) && LogShape(s, l) && p < |s.procs| && Replay(l.hist) == Legal(f)
    requires Links(s, p) ==> f' == f + [s.procs[p].msg]
    requires Pops(s, p) ==> f == [DataOf(s, s.procs[p].hNext)] + f'
    requires !Links(s, p) && !Pops(s, p) ==> f' == f
    ensures Replay(LogStep(s, l, p).hist) == Legal(f')
  {
    LogHistory(s, l, p);
    var r := s.procs[p];
    if Links(s, p) {
      ReplayEffect(l.hist, Event(p, |l.calls[p]|, true, r.msg), f, f');
    } else if Pops(s, p) {
      ReplayEffect(l.hist, Event(p, |l.calls[p]|, false, DataOf(s, r.hNext)), f, f');
    }
  }

  lemma LogHistory(s: State, l: Log, p: nat)
    requires Shape(s) && LogShape(s, l) && p < |s.procs|
    ensures var r, h := s.procs[p], LogStep(s, l, p).hist;
            && (Links(s, p) ==> h == l.hist + [Event(p, |l.calls[p]|, true, r.msg)])
            && (Pops(s, p) ==> h == l.hist + [Event(p, |l.calls[p]|, false, DataOf(s, r.hNext))])
            && (!Links(s, p) && !Pops(s, p) ==> h == l.hist)
  {
    var pc := s.procs[p].pc;
    if pc.Link? || pc.MoveHead? {
    } else {
      assert LogStep(s, l, p).hist == l.hist;
    }
  }

  /** Completed calls are never rewritten, and the effects they point at stay where they are. */
  lemma OldCallKeeps(s: State, l: Log, p: nat, q: nat, k: nat)
    requires Shape(s) && LogInv(s, l) && p < |s.procs| && q < |l.calls| && k < |l.calls[q]|
    ensures q < |LogStep(s, l, p).calls| && k < |LogStep(s, l, p).calls[q]|
    ensures LogStep(s, l, p).calls[q][k] == l.calls[q][k]
    ensures CallOk(LogStep(s, l, p), q, k)
  {
    var l' := LogStep(s, l, p);
    var c := l.calls[q][k];
    assert CallOk(l, q, k);
    assert l.hist <= l'.hist;
    assert l'.hist[..c.lin] == l.hist[..c.lin];
  }

  lemma NewCallOk(s: State, l: Log, p: nat)
    requires Inv(s) && LogInv(s, l) && p < |s.procs|
    ensures var l' := LogStep(s, l, p);
            |l'.calls[p]| > |l.calls[p]| ==> |l'.calls[p]| == |l.calls[p]| + 1 && CallOk(l', p, |l.calls[p]|)
  {
    var l' := LogStep(s, l, p);
    assert PendingOk(s, l, p);
    assert l'.hist[..|l.hist|] == l.hist;
  }

  lemma CallsKeep(s: State, l: Log, p: nat)
    requires Inv(s) && LogInv(s, l) && p < |s.procs|
    ensures var l' := LogStep(s, l, p);
            forall q, k :: 0 <= q < |l'.calls| && 0 <= k < |l'.calls[q]| ==> CallOk(l', q, k)
  {
    var l' := LogStep(s, l, p);
    forall q, k | 0 <= q < |l'.calls| && 0 <= k < |l'.calls[q]| ensures CallOk(l', q, k) {
      if k < |l.calls[q]| {
        OldCallKeeps(s, l, p, q, k);
      } else {
        NewCallOk(s, l, p);
      }
    }
  }

  /** A call that has its effect is in the part of the code behind it until it completes. */
  lemma BehindEffect(s: State, l: Log, p: nat, op: Op)
    requires Shape(s) && LogShape(s, l) && p < |s.procs|
    ensures AfterEffect(s.procs[p].pc) && |LogStep(s, l, p).calls[p]| == |l.calls[p]| ==>
              AfterEffect(Step(s, p, op).procs[p].pc)
    ensures |LogStep(s, l, p).hist| > |l.hist| ==> AfterEffect(Step(s, p, op).procs[p].pc)
  {
  }

  lemma EventKeeps(s: State, s': State, l: Log, p: nat, i: nat)
    requires Inv(s) && LogInv(s, l) && p < |s.procs| && i < |LogStep(s, l, p).hist|
    requires |s'.procs| == |s.procs|
    requires forall q :: 0 <= q < |s.procs| && q != p ==> s'.procs[q] == s.procs[q]
    requires AfterEffect(s.procs[p].pc) && |LogStep(s, l, p).calls[p]| == |l.calls[p]| ==> AfterEffect(s'.procs[p].pc)
    requires |LogStep(s, l, p).hist| > |l.hist| ==> AfterEffect(s'.procs[p].pc)
    ensures EventOk(s', LogStep(s, l, p), i)
  {
    if i < |l.hist| {
      OldEventKeeps(s, s', l, p, i);
    } else {
      assert PendingOk(s, l, p);
    }
  }

  lemma OldEventKeeps(s: State, s': State, l: Log, p: nat, i: nat)
    requires Shape(s) && LogInv(s, l) && p < |s.procs| && i < |l.hist|
    requires |s'.procs| == |s.procs|
    requires forall q :: 0 <= q < |s.procs| && q != p ==> s'.procs[q] == s.procs[q]
    requires AfterEffect(s.procs[p].pc) && |LogStep(s, l, p).calls[p]| == |l.calls[p]| ==> AfterEffect(s'.procs[p].pc)
    ensures i < |LogStep(s, l, p).hist| && EventOk(s', LogStep(s, l, p), i)
  {
    assert EventOk(s, l, i);
    assert PendingOk(s, l, p);
  }

  lemma PendingOther(s: State, s': State, l: Log, p: nat, q: nat)
    requires Inv(s) && LogInv(s, l) && p < |s.procs| && q < |s.procs| && q != p
    requires Shape(s') && |s'.procs| == |s.procs| && s'.procs[q] == s.procs[q]
    ensures PendingOk(s', LogStep(s, l, p), q)
  {
    var l' := LogStep(s, l, p);
    assert PendingOk(s, l, q);
    assert l.hist <= l'.hist;
    assert l.lin[q] <= |l.hist| ==> l'.hist[..l.lin[q]] == l.hist[..l.lin[q]];
  }

  lemma PendingBehindEffect(s: State, l: Log, p: nat, op: Op)
    requires Inv(s) && LogInv(s, l) && p < |s.procs|
    requires AfterEffect(s.procs[p].pc)
    ensures PendingOk(Step(s, p, op), LogStep(s, l, p), p)
  {
    var r := s.procs[p];
    assert PendingOk(s, l, p);
    if r.pc.CopyOut? {
      PendingCopy(s, l, p);
    } else if r.pc.SwingTail? {
      PendingSwing(s, l, p);
    } else if r.pc.Scan? {
      PendingScan(s, l, p);
    } else {
      PendingRelease(s, l, p);
    }
  }

  lemma PendingSwing(s: State, l: Log, p: nat)
    requires Shape(s) && LogShape(s, l) && p < |s.procs| && PendingOk(s, l, p) && s.procs[p].pc.SwingTail?
    ensures PendingOk(StepSwingTail(s, p), LogStep(s, l, p), p)
  {
    assert StepSwingTail(s, p).procs[p].pc.Idle?;
  }

  lemma PendingCopy(s: State, l: Log, p: nat)
    requires Inv(s) && LogInv(s, l) && p < |s.procs| && s.procs[p].pc.CopyOut?
    ensures PendingOk(StepCopyOut(s, p), l, p)
  {
    var r := s.procs[p];
    assert PendingOk(s, l, p);
    assert ProcOk(s, p);
    assert r.taken[..s.width] == r.taken;
  }

  lemma PendingScan(s: State, l: Log, p: nat)
    requires Shape(s) && LogShape(s, l) && p < |s.procs| && PendingOk(s, l, p) && s.procs[p].pc.Scan?
    ensures PendingOk(StepScan(s, p), LogStep(s, l, p), p)
  {
  }

  lemma PendingRelease(s: State, l: Log, p: nat)
    requires Shape(s) && LogShape(s, l) && p < |s.procs| && PendingOk(s, l, p) && s.procs[p].pc.Release?
    ensures PendingOk(StepRelease(s, p), LogStep(s, l, p), p)
  {
  }

  lemma PendingLink(s: State, l: Log, p: nat)
    requires Shape(s) && LogShape(s, l) && p < |s.procs| && PendingOk(s, l, p) && s.procs[p].pc.Link?
    ensures PendingOk(StepLink(s, p), LogStep(s, l, p), p)
  {
  }

  lemma PendingMoveHead(s: State, l: Log, p: nat)
    requires Shape(s) && LogShape(s, l) && p < |s.procs| && PendingOk(s, l, p) && s.procs[p].pc.MoveHead?
    ensures PendingOk(StepMoveHead(s, p), LogStep(s, l, p), p)
  {
  }

  lemma PendingEmpty(s: State, l: Log, p: nat, op: Op)
    requires Inv(s) && LogInv(s, l) && p < |s.procs|
    requires s.procs[p].pc.ReadHeadNext? || s.procs[p].pc.PublishNext?
    ensures PendingOk(Step(s, p, op), LogStep(s, l, p), p)
  {
    var r := s.procs[p];
    assert PendingOk(s, l, p);
    if r.pc.ReadHeadNext? && NextOf(s, r.h) == UNDEFINED_NODE {
      ReadsEmpty(s, p);
      assert LogStep(s, l, p).hist[..|l.hist|] == l.hist;
    }
  }

  predicate BeforeEffect(pc: PC) {
    !AfterEffect(pc) && !pc.Link? && !pc.MoveHead? && !pc.ReadHeadNext? && !pc.PublishNext?
  }

  /** A step from such a line does not pass an effect. */
  lemma StaysBefore(s: State, p: nat, op: Op)
    requires Shape(s) && p < |s.procs| && BeforeEffect(s.procs[p].pc)
    ensures var pc := Step(s, p, op).procs[p].pc; !AfterEffect(pc) && !pc.PublishNext? && !pc.RecheckHead?
  {
  }

  lemma PendingElse(s: State, s': State, l: Log, p: nat)
    requires Shape(s) && LogInv(s, l) && p < |s.procs| && BeforeEffect(s.procs[p].pc)
    requires Shape(s') && |s'.procs| == |s.procs|
    requires var pc := s'.procs[p].pc; !AfterEffect(pc) && !pc.PublishNext? && !pc.RecheckHead?
    requires |LogStep(s, l, p).calls[p]| > |l.calls[p]| ==> s'.procs[p].pc.Idle?
    ensures PendingOk(s', LogStep(s, l, p), p)
  {
    assert PendingOk(s, l, p);
    assert |l.calls[p]| > 0 ==> CallOk(l, p, |l.calls[p]| - 1);
  }

  /** A call that completes leaves its user idle. */
  lemma CompletedIsIdle(s: State, l: Log, p: nat, op: Op)
    requires Shape(s) && LogShape(s, l) && p < |s.procs| && BeforeEffect(s.procs[p].pc)
    ensures |LogStep(s, l, p).calls[p]| > |l.calls[p]| ==> Step(s, p, op).procs[p].pc.Idle?
  {
    var pc := s.procs[p].pc;
    if pc.Claim? || pc.RecheckHead? {
    } else {
      assert LogStep(s, l, p).calls == l.calls;
    }
  }

  lemma PendingKeeps(s: State, l: Log, p: nat, op: Op, q: nat)
    requires Inv(s) && LogInv(s, l) && p < |s.procs| && q < |s.procs|
    ensures PendingOk(Step(s, p, op), LogStep(s, l, p), q)
  {
    if q != p {
      OthersStay(s, p, op, q);
      PendingOther(s, Step(s, p, op), l, p, q);
    } else {
      PendingSelf(s, l, p, op);
    }
  }

  lemma PendingBefore(s: State, l: Log, p: nat, op: Op)
    requires Shape(s) && LogInv(s, l) && p < |s.procs| && BeforeEffect(s.procs[p].pc)
    ensures PendingOk(Step(s, p, op), LogStep(s, l, p), p)
  {
    StaysBefore(s, p, op);
    CompletedIsIdle(s, l, p, op);
    PendingElse(s, Step(s, p, op), l, p);
  }

  lemma PendingAround(s: State, l: Log, p: nat, op: Op)
    requires Shape(s) && LogShape(s, l) && p < |s.procs| && PendingOk(s, l, p)
    requires s.procs[p].pc.Link? || s.procs[p].pc.MoveHead?
    ensures PendingOk(Step(s, p, op), LogStep(s, l, p), p)
  {
    if s.procs[p].pc.Link? { PendingLink(s, l, p); } else { PendingMoveHead(s, l, p); }
  }

  lemma PendingSelf(s: State, l: Log, p: nat, op: Op)
    requires Inv(s) && LogInv(s, l) && p < |s.procs|
    ensures PendingOk(Step(s, p, op), LogStep(s, l, p), p)
  {
    var pc := s.procs[p].pc;
    assert PendingOk(s, l, p);
    if AfterEffect(pc) {
      PendingBehindEffect(s, l, p, op);
    } else if BeforeEffect(pc) {
      PendingBefore(s, l, p, op);
    } else if pc.Link? || pc.MoveHead? {
      PendingAround(s, l, p, op);
    } else {
      PendingEmpty(s, l, p, op);
    }
  }

  lemma LogStepKeeps(s: State, l: Log, p: nat, op: Op)
    requires Inv(s) && LogInv(s, l) && p < |s.procs|
    ensures LogInv(Step(s, p, op), LogStep(s, l, p))
  {
    var s', l' := Step(s, p, op), LogStep(s, l, p);
    StepOnFifo(s, p, op);
    ReplayKeeps(s, l, p, Fifo(s), Fifo(s'));
    CallsKeep(s, l, p);
    forall q | 0 <= q < |s.procs| && q != p ensures s'.procs[q] == s.procs[q] { OthersStay(s, p, op, q); }
    BehindEffect(s, l, p, op);
    forall i | 0 <= i < |l'.hist| ensures EventOk(s', l', i) { EventKeeps(s, s', l, p, i); }
    forall q | 0 <= q < |s'.procs| ensures PendingOk(s', l', q) { PendingKeeps(s, l, p, op, q); }
  }

  lemma {:induction false} RunLogInv(width: nat, numSlots: nat, maxUser: nat, acts: seq<Act>)
    requires numSlots >= 1 && ScheduleOk(acts, width, maxUser)
    ensures LogInv(Run(width, numSlots, maxUser, acts), RunLog(width, numSlots, maxUser, acts))
  {
    if acts == [] {
      InitLogInv(width, numSlots, maxUser);
    } else {
      var a, before := acts[|acts| - 1], acts[..|acts| - 1];
      assert ActOk(a, width, maxUser);
      RunLogInv(width, numSlots, maxUser, before);
      RunInv(width, numSlots, maxUser, before);
      LogStepKeeps(Run(width, numSlots, maxUser, before), RunLog(width, numSlots, maxUser, before), a.p, a.op);
    }
  }
}
