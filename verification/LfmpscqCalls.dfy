/** What the calls of Lfmpscq.dfy return and leave behind, and how many steps they take, in every run. */
module LfmpscqCalls {
  import opened Common
  import C = Cyclic
  import opened Lfmpscq
  import opened LfmpscqSafety
  import opened LfmpscqDelivery

  /** The state after the schedule. */
  ghost function After(width: nat, numSlots: nat, maxUser: nat, acts: seq<Act>): (s: State)
    requires numSlots >= 1 && ScheduleOk(acts, width, maxUser)
    ensures Shape(s) && s.width == width && |s.slots| == numSlots && |s.procs| == maxUser
  {
    RunFrom(Init(width, numSlots, maxUser), acts)
  }

  lemma AfterStep(width: nat, numSlots: nat, maxUser: nat, acts: seq<Act>, b: nat)
    requires numSlots >= 1 && ScheduleOk(acts, width, maxUser) && 0 < b <= |acts|
    ensures ActOk(acts[b - 1], width, maxUser)
    ensures After(width, numSlots, maxUser, acts[..b])
         == Step(After(width, numSlots, maxUser, acts[..b - 1]), acts[b - 1])
  {
    assert acts[..b][..b - 1] == acts[..b - 1];
  }

  // ----- The calls of a producer

  predicate By(a: Act, p: nat) { a.ByProducer? && a.p == p }

  /** The messages with which the schedule began calls of p. */
  ghost function Begun(width: nat, numSlots: nat, maxUser: nat, acts: seq<Act>, p: nat): seq<Msg>
    requires numSlots >= 1 && ScheduleOk(acts, width, maxUser) && p < maxUser
  {
    if acts == [] then []
    else
      var a, before := acts[|acts| - 1], acts[..|acts| - 1];
      Begun(width, numSlots, maxUser, before, p)
      + if By(a, p) && After(width, numSlots, maxUser, before).procs[p].pc.Idle? then [a.msg] else []
  }

  /** For each call of p that returned, whether it reported success. */
  ghost function Returned(width: nat, numSlots: nat, maxUser: nat, acts: seq<Act>, p: nat): seq<bool>
    requires numSlots >= 1 && ScheduleOk(acts, width, maxUser) && p < maxUser
  {
    if acts == [] then []
    else
      var before := acts[..|acts| - 1];
      var s, s' := After(width, numSlots, maxUser, before), After(width, numSlots, maxUser, acts);
      Returned(width, numSlots, maxUser, before, p)
      + if !s.procs[p].pc.Idle? && s'.procs[p].pc.Idle? then [s'.sent[p] != s.sent[p]] else []
  }

  ghost predicate CallsOk(s: State, p: nat, begun: seq<Msg>, ok: seq<bool>)
    requires Shape(s) && p < |s.procs|
  {
    && |begun| == |ok| + (if s.procs[p].pc.Idle? then 0 else 1)
    && (!s.procs[p].pc.Idle? ==> s.procs[p].msg == begun[|ok|])
    && s.sent[p] == Successful(begun, ok)
  }

  /** A call goes on with its message until it succeeds at line 158 or has looked at every slot in vain. */
  lemma CallGoesOn(s: State, p: nat, msg: Msg)
    requires Shape(s) && p < |s.procs| && !s.procs[p].pc.Idle?
    ensures CallKept(s, Produce(s, p, msg), p)
  {
    if UsesPool(s.procs[p].pc) { GoesOnInPool(s, p, msg); } else { GoesOnInLoop(s, p, msg); }
  }

  predicate CallKept(s: State, s': State, p: nat)
    requires p < |s.procs| == |s'.procs| && p < |s.sent| == |s'.sent|
  {
    var r := s.procs[p];
    if s'.procs[p].pc.Idle?
    then || (r.pc.SwingTail? && s'.sent[p] == s.sent[p] + [r.msg])
         || (r.pc.Claim? && r.pc.cnt >= |s.slots| && s'.sent[p] == s.sent[p])
    else s'.sent[p] == s.sent[p] && s'.procs[p].msg == r.msg
  }

  lemma GoesOnInPool(s: State, p: nat, msg: Msg)
    requires Shape(s) && p < |s.procs| && UsesPool(s.procs[p].pc) && !s.procs[p].pc.Idle?
    ensures CallKept(s, Produce(s, p, msg), p)
  {
  }

  lemma GoesOnInLoop(s: State, p: nat, msg: Msg)
    requires Shape(s) && p < |s.procs| && !UsesPool(s.procs[p].pc)
    ensures CallKept(s, Produce(s, p, msg), p)
  {
  }

  lemma OtherCalls(s: State, a: Act, p: nat)
    requires Shape(s) && ActOk(a, s.width, |s.procs|) && p < |s.procs| && !By(a, p)
    ensures Step(s, a).procs[p] == s.procs[p] && Step(s, a).sent[p] == s.sent[p]
  {
    match a {
      case ByProducer(q, msg) => OtherProducer(s, q, msg, p);
      case ByConsumer => ConsumerLeaves(s);
    }
  }

  predicate UsesPool(pc: PC) { pc.Idle? || pc.Claim? || pc.Fill? }

  lemma OtherInPool(s: State, q: nat, msg: Msg, p: nat)
    requires Shape(s) && q < |s.procs| && p < |s.procs| && p != q && UsesPool(s.procs[q].pc)
    ensures Produce(s, q, msg).procs[p] == s.procs[p] && Produce(s, q, msg).sent[p] == s.sent[p]
  {
  }

  lemma OtherInLoop(s: State, q: nat, msg: Msg, p: nat)
    requires Shape(s) && q < |s.procs| && p < |s.procs| && p != q && !UsesPool(s.procs[q].pc)
    ensures Produce(s, q, msg).procs[p] == s.procs[p] && Produce(s, q, msg).sent[p] == s.sent[p]
  {
  }

  lemma OtherProducer(s: State, q: nat, msg: Msg, p: nat)
    requires Shape(s) && q < |s.procs| && p < |s.procs| && p != q
    ensures Produce(s, q, msg).procs[p] == s.procs[p] && Produce(s, q, msg).sent[p] == s.sent[p]
  {
    if UsesPool(s.procs[q].pc) { OtherInPool(s, q, msg, p); } else { OtherInLoop(s, q, msg, p); }
  }

  lemma ConsumerLeaves(s: State)
    requires Shape(s)
    ensures Consume(s).procs == s.procs && Consume(s).sent == s.sent && Consume(s).haz == s.haz
  {
  }

  lemma CallsStep(s: State, a: Act, p: nat, begun: seq<Msg>, ok: seq<bool>)
    requires Shape(s) && ActOk(a, s.width, |s.procs|) && p < |s.procs| && CallsOk(s, p, begun, ok)
    ensures
      var s' := Step(s, a);
      CallsOk(s', p, begun + if By(a, p) && s.procs[p].pc.Idle? then [a.msg] else [],
              ok + if !s.procs[p].pc.Idle? && s'.procs[p].pc.Idle? then [s'.sent[p] != s.sent[p]] else [])
  {
    assert begun + [] == begun && ok + [] == ok;
    if !By(a, p) {
      OtherCalls(s, a, p);
    } else if s.procs[p].pc.Idle? {
      SuccessfulSame(begun, begun + [a.msg], ok);
    } else {
      CallGoesOn(s, p, a.msg);
      var s' := Step(s, a);
      if s'.procs[p].pc.Idle? {
        SuccessfulNext(begun, ok, s'.sent[p] != s.sent[p]);
      }
    }
  }

  /**
   In every interleaving, also in one that loses a message, what p sent are the messages with which the schedule
   began its calls that succeeded, in their order; every call that began has returned or is running.
   */
  lemma {:induction false} SentAsBegun(width: nat, numSlots: nat, maxUser: nat, acts: seq<Act>, p: nat)
    requires numSlots >= 1 && ScheduleOk(acts, width, maxUser) && p < maxUser
    ensures CallsOk(After(width, numSlots, maxUser, acts), p, Begun(width, numSlots, maxUser, acts, p),
                    Returned(width, numSlots, maxUser, acts, p))
  {
    if acts != [] {
      var a, before := acts[|acts| - 1], acts[..|acts| - 1];
      assert ActOk(a, width, maxUser);
      SentAsBegun(width, numSlots, maxUser, before, p);
      CallsStep(After(width, numSlots, maxUser, before), a, p, Begun(width, numSlots, maxUser, before, p),
                Returned(width, numSlots, maxUser, before, p));
    }
  }

  // ----- An enqueue that returns -1

  /** getFreeSlot has passed n: it is one of the cnt slots cyclically before the cursor. */
  predicate Passed(cursor: int, cnt: int, numSlots: int, n: int) {
    cursor - cnt <= n < cursor || n >= cursor - cnt + numSlots
  }

  lemma PassedNext(cursor: int, cnt: int, numSlots: int, n: int)
    requires 0 <= cursor < numSlots && 0 <= cnt < numSlots && 0 <= n < numSlots
    requires Passed((cursor + 1) % numSlots, cnt + 1, numSlots, n)
    ensures n == cursor || Passed(cursor, cnt, numSlots, n)
  {
    assert (cursor + 1) % numSlots == if cursor + 1 < numSlots then cursor + 1 else 0;
  }

  /**
   Where the search of p is: it begins at the slot that p claimed last, at slot 0 the first time, and goes round;
   a search that fails ends where it began.
   */
  predicate CursorOk(s: State, p: nat)
    requires Shape(s) && p < |s.procs|
  {
    var r, n := s.procs[p], |s.slots|;
    var start := if r.node == UNDEFINED_NODE then 0 else r.node;
    && 0 <= start < n && 0 <= r.cursor < n
    && (r.pc.Claim? ==> 0 <= r.pc.cnt <= n)
    && r.cursor == if r.pc.Claim? then (start + r.pc.cnt) % n else start
  }

  lemma CursorStep(s: State, a: Act, p: nat)
    requires Shape(s) && ActOk(a, s.width, |s.procs|) && p < |s.procs| && CursorOk(s, p)
    ensures CursorOk(Step(s, a), p)
  {
    if By(a, p) { CursorOwn(s, p, a.msg); } else { OtherCalls(s, a, p); }
  }

  lemma CursorOwn(s: State, p: nat, msg: Msg)
    requires Shape(s) && p < |s.procs| && CursorOk(s, p)
    ensures CursorOk(Produce(s, p, msg), p)
  {
    var n, r := |s.slots|, s.procs[p];
    var start := if r.node == UNDEFINED_NODE then 0 else r.node;
    C.Small(start, n);
    if r.pc.Claim? {
      assert Produce(s, p, msg) == StepClaim(s, p);
      C.Next(start + r.pc.cnt, n);
      C.Round(start, n);
    } else {
      CursorElse(s, p, msg);
    }
  }

  lemma CursorElse(s: State, p: nat, msg: Msg)
    requires Shape(s) && p < |s.procs| && !s.procs[p].pc.Claim?
    ensures var r, r' := s.procs[p], Produce(s, p, msg).procs[p];
            r'.cursor == r.cursor && r'.node == r.node && (r'.pc.Claim? ==> r.pc.Idle? && r'.pc.cnt == 0)
  {
    if UsesPool(s.procs[p].pc) { CursorInPool(s, p, msg); } else { CursorInLoop(s, p, msg); }
  }

  lemma CursorInPool(s: State, p: nat, msg: Msg)
    requires Shape(s) && p < |s.procs| && UsesPool(s.procs[p].pc) && !s.procs[p].pc.Claim?
    ensures var r, r' := s.procs[p], Produce(s, p, msg).procs[p];
            r'.cursor == r.cursor && r'.node == r.node && (r'.pc.Claim? ==> r.pc.Idle? && r'.pc.cnt == 0)
  {
  }

  lemma CursorInLoop(s: State, p: nat, msg: Msg)
    requires Shape(s) && p < |s.procs| && !UsesPool(s.procs[p].pc)
    ensures var r, r' := s.procs[p], Produce(s, p, msg).procs[p];
            r'.cursor == r.cursor && r'.node == r.node && !r'.pc.Claim?
  {
  }

  /** In every run each search begins at the slot that the producer claimed last, and goes round. */
  lemma {:induction false} CursorAlways(width: nat, numSlots: nat, maxUser: nat, acts: seq<Act>, p: nat)
    requires numSlots >= 1 && ScheduleOk(acts, width, maxUser) && p < maxUser
    ensures CursorOk(After(width, numSlots, maxUser, acts), p)
  {
    if acts != [] {
      var a, before := acts[|acts| - 1], acts[..|acts| - 1];
      assert ActOk(a, width, maxUser);
      CursorAlways(width, numSlots, maxUser, before, p);
      CursorStep(After(width, numSlots, maxUser, before), a, p);
    }
  }

  /** The search of p has looked at slot n. */
  predicate Searched(s: State, p: nat, n: nat)
    requires p < |s.procs|
  {
    var r := s.procs[p];
    r.pc.Claim? && Passed(r.cursor, r.pc.cnt, |s.slots|, n)
  }

  lemma SearchedBefore(s: State, a: Act, p: nat, n: nat)
    requires Shape(s) && ActOk(a, s.width, |s.procs|) && p < |s.procs| && n < |s.slots| && CursorOk(s, p)
    requires Searched(Step(s, a), p, n)
    ensures s.procs[p].pc.Claim? && (Searched(s, p, n) || s.slots[n].used)
  {
    var r := s.procs[p];
    if !By(a, p) {
      OtherCalls(s, a, p);
    } else if r.pc.Claim? {
      assert Step(s, a) == StepClaim(s, p);
      PassedNext(r.cursor, r.pc.cnt, |s.slots|, n);
    } else {
      CursorElse(s, p, a.msg);
    }
  }

  /** The same after b steps. */
  ghost predicate SearchedAt(width: nat, numSlots: nat, maxUser: nat, acts: seq<Act>, b: nat, p: nat, n: nat)
    requires numSlots >= 1 && ScheduleOk(acts, width, maxUser) && b <= |acts| && p < maxUser
  {
    Searched(After(width, numSlots, maxUser, acts[..b]), p, n)
  }

  ghost predicate Searches(width: nat, numSlots: nat, maxUser: nat, acts: seq<Act>, b: nat, p: nat)
    requires numSlots >= 1 && ScheduleOk(acts, width, maxUser) && b <= |acts| && p < maxUser
  {
    After(width, numSlots, maxUser, acts[..b]).procs[p].pc.Claim?
  }

  lemma SearchedAtBefore(width: nat, numSlots: nat, maxUser: nat, acts: seq<Act>, b: nat, p: nat, n: nat)
    requires numSlots >= 1 && ScheduleOk(acts, width, maxUser) && 0 < b <= |acts| && p < maxUser && n < numSlots
    requires SearchedAt(width, numSlots, maxUser, acts, b, p, n)
    ensures Searches(width, numSlots, maxUser, acts, b - 1, p)
    ensures || SearchedAt(width, numSlots, maxUser, acts, b - 1, p, n)
            || After(width, numSlots, maxUser, acts[..b - 1]).slots[n].used
  {
    AfterStep(width, numSlots, maxUser, acts, b);
    CursorAlways(width, numSlots, maxUser, acts[..b - 1], p);
    SearchedBefore(After(width, numSlots, maxUser, acts[..b - 1]), acts[b - 1], p, n);
  }

  lemma NotAtFirst(width: nat, numSlots: nat, maxUser: nat, acts: seq<Act>, p: nat)
    requires numSlots >= 1 && ScheduleOk(acts, width, maxUser) && p < maxUser
    ensures !Searches(width, numSlots, maxUser, acts, 0, p)
  {
    assert acts[..0] == [];
  }

  lemma {:induction false} FoundInUse(width: nat, numSlots: nat, maxUser: nat, acts: seq<Act>, b: nat, p: nat, n: nat)
    returns (m: nat)
    requires numSlots >= 1 && ScheduleOk(acts, width, maxUser) && b <= |acts| && p < maxUser && n < numSlots
    requires SearchedAt(width, numSlots, maxUser, acts, b, p, n)
    ensures m <= b && After(width, numSlots, maxUser, acts[..m]).slots[n].used
    ensures forall i :: m <= i <= b ==> Searches(width, numSlots, maxUser, acts, i, p)
    decreases b
  {
    NotAtFirst(width, numSlots, maxUser, acts, p);
    SearchedAtBefore(width, numSlots, maxUser, acts, b, p, n);
    m := b - 1;
    if SearchedAt(width, numSlots, maxUser, acts, b - 1, p, n) {
      m := FoundInUse(width, numSlots, maxUser, acts, b - 1, p, n);
    }
  }

  lemma RefusedAtEnd(s: State, a: Act, p: nat, n: nat)
    requires Shape(s) && ActOk(a, s.width, |s.procs|) && p < |s.procs| && n < |s.slots| && CursorOk(s, p)
    requires !s.procs[p].pc.Idle? && Step(s, a).procs[p].pc.Idle? && Step(s, a).sent[p] == s.sent[p]
    ensures Searched(s, p, n)
  {
    if By(a, p) { CallGoesOn(s, p, a.msg); } else { OtherCalls(s, a, p); }
  }

  /**
   The last step ends an enqueue of p that did not succeed. Then every slot was in use at some moment of its
   search, slot n after the first m steps, whatever the others did meanwhile.
   */
  lemma RefusedOnlyIfAllUsed(width: nat, numSlots: nat, maxUser: nat, acts: seq<Act>, p: nat, n: nat) returns (m: nat)
    requires numSlots >= 1 && ScheduleOk(acts, width, maxUser) && acts != [] && p < maxUser && n < numSlots
    requires var s := After(width, numSlots, maxUser, acts[..|acts| - 1]);
             var s' := After(width, numSlots, maxUser, acts);
             !s.procs[p].pc.Idle? && s'.procs[p].pc.Idle? && s'.sent[p] == s.sent[p]
    ensures m < |acts| && After(width, numSlots, maxUser, acts[..m]).slots[n].used
    ensures forall i :: m <= i < |acts| ==> Searches(width, numSlots, maxUser, acts, i, p)
  {
    var b := |acts| - 1;
    assert acts[..|acts|] == acts;
    AfterStep(width, numSlots, maxUser, acts, |acts|);
    CursorAlways(width, numSlots, maxUser, acts[..b], p);
    RefusedAtEnd(After(width, numSlots, maxUser, acts[..b]), acts[b], p, n);
    m := FoundInUse(width, numSlots, maxUser, acts, b, p, n);
  }

  // ----- The calls of the consumer

  /** lfmpscq_dequeue returns -1 exactly if the queue is empty when it reads next; else it takes the front message. */
  lemma DequeueReturns(s: State)
    requires Inv(s) && s.cons.pc.ReadHeadNext?
    ensures Consume(s).cons.pc.ReadHead? <==> Fifo(s) == []
    ensures !Consume(s).cons.pc.ReadHead? ==> Consume(s).cons.pc.CopyOut?
  {
    ReadsEmpty(s);
  }

  predicate BeforeGot(pc: ConsumerPC) { pc.ReadHeadNext? || pc.CopyOut? }

  /** How many dequeues the schedule began, and how many of them returned without a message. */
  ghost function DequeuesBegun(width: nat, numSlots: nat, maxUser: nat, acts: seq<Act>): nat
    requires numSlots >= 1 && ScheduleOk(acts, width, maxUser)
  {
    if acts == [] then 0
    else
      var a, before := acts[|acts| - 1], acts[..|acts| - 1];
      DequeuesBegun(width, numSlots, maxUser, before)
      + if a.ByConsumer? && After(width, numSlots, maxUser, before).cons.pc.ReadHead? then 1 else 0
  }

  ghost function DequeuesEmpty(width: nat, numSlots: nat, maxUser: nat, acts: seq<Act>): nat
    requires numSlots >= 1 && ScheduleOk(acts, width, maxUser)
  {
    if acts == [] then 0
    else
      var before := acts[..|acts| - 1];
      var s, s' := After(width, numSlots, maxUser, before), After(width, numSlots, maxUser, acts);
      DequeuesEmpty(width, numSlots, maxUser, before)
      + if BeforeGot(s.cons.pc) && s'.cons.pc.ReadHead? then 1 else 0
  }

  /** A dequeue copies all words of its message, then adds it to got, and then sweeps; the scan adds nothing. */
  lemma ConsumerGoesOn(s: State)
    requires Shape(s)
    ensures
      var s' := Consume(s);
      match s.cons.pc
      case ReadHead => s'.got == s.got && BeforeGot(s'.cons.pc)
      case ReadHeadNext => s'.got == s.got && (BeforeGot(s'.cons.pc) || s'.cons.pc.ReadHead?)
      case CopyOut(c) =>
        if c < s.width then s'.got == s.got && BeforeGot(s'.cons.pc)
        else s'.got == s.got + [s.cons.out] && !BeforeGot(s'.cons.pc) && !s'.cons.pc.ReadHead?
      case _ => s'.got == s.got && !BeforeGot(s'.cons.pc)
  {
  }

  lemma ProducerLeaves(s: State, p: nat, msg: Msg)
    requires Shape(s) && p < |s.procs|
    ensures Produce(s, p, msg).cons == s.cons && Produce(s, p, msg).got == s.got
  {
  }

  /** Every dequeue that began got one message, returned without one, or has still to get one. */
  lemma {:induction false} GotAsBegun(width: nat, numSlots: nat, maxUser: nat, acts: seq<Act>)
    requires numSlots >= 1 && ScheduleOk(acts, width, maxUser)
    ensures var s := After(width, numSlots, maxUser, acts);
            DequeuesBegun(width, numSlots, maxUser, acts)
            == |s.got| + DequeuesEmpty(width, numSlots, maxUser, acts) + if BeforeGot(s.cons.pc) then 1 else 0
  {
    if acts != [] {
      var a, before := acts[|acts| - 1], acts[..|acts| - 1];
      assert ActOk(a, width, maxUser);
      GotAsBegun(width, numSlots, maxUser, before);
      var s := After(width, numSlots, maxUser, before);
      match a {
        case ByProducer(p, msg) => ProducerLeaves(s, p, msg);
        case ByConsumer => ConsumerGoesOn(s);
      }
    }
  }

  // ----- What a dequeue leaves in the retire list

  /** The number of steps up to and with the one by which the last message was got, or 0. */
  ghost function LastGot(width: nat, numSlots: nat, maxUser: nat, acts: seq<Act>): (c: nat)
    requires numSlots >= 1 && ScheduleOk(acts, width, maxUser)
    ensures c <= |acts|
  {
    if acts == [] then 0
    else
      var before := acts[..|acts| - 1];
      if After(width, numSlots, maxUser, acts).got != After(width, numSlots, maxUser, before).got then |acts|
      else LastGot(width, numSlots, maxUser, before)
  }

  /** What the sweep keeps is named at that moment; a new sweep begins with an empty list. */
  lemma ListStep(s: State, n: int)
    requires Shape(s) && n in Consume(s).cons.rlist
    ensures n in s.haz || (n in s.cons.rlist && Consume(s).got == s.got)
  {
    if s.cons.pc.CopyOut? { assert Consume(s) == StepCopyOut(s); }
  }

  /**
   In every run: a slot that is in the retire list was named by a shared index in some state after the last
   message was got, and so the sweep of that dequeue saw it named. With a list that is never swept this fails.
   */
  lemma {:induction false} KeptWasNamed(width: nat, numSlots: nat, maxUser: nat, acts: seq<Act>, n: int)
    returns (i: nat)
    requires numSlots >= 1 && ScheduleOk(acts, width, maxUser)
    requires n in After(width, numSlots, maxUser, acts).cons.rlist
    ensures LastGot(width, numSlots, maxUser, acts) <= i <= |acts|
    ensures n in After(width, numSlots, maxUser, acts[..i]).haz
  {
    assert acts[..|acts|] == acts;
    var k := |acts| - 1;
    var a, before := acts[k], acts[..k];
    assert ActOk(a, width, maxUser);
    var s := After(width, numSlots, maxUser, before);
    match a {
      case ByProducer(p, msg) => ProducerLeaves(s, p, msg);
      case ByConsumer => ListStep(s, n); ConsumerLeaves(s);
    }
    if a.ByConsumer? && n in s.haz {
      i := |acts|;
    } else {
      i := KeptWasNamed(width, numSlots, maxUser, before, n);
      assert before[..i] == acts[..i];
    }
  }

  /** Between two dequeues nothing is left to be swept. */
  lemma {:induction false} SweptAtReturn(width: nat, numSlots: nat, maxUser: nat, acts: seq<Act>)
    requires numSlots >= 1 && ScheduleOk(acts, width, maxUser)
    ensures var r := After(width, numSlots, maxUser, acts).cons;
            !r.pc.Scan? && !r.pc.Release? ==> r.todo == []
  {
    if acts != [] {
      var a, before := acts[|acts| - 1], acts[..|acts| - 1];
      assert ActOk(a, width, maxUser);
      SweptAtReturn(width, numSlots, maxUser, before);
      var s := After(width, numSlots, maxUser, before);
      match a {
        case ByProducer(p, msg) => ProducerLeaves(s, p, msg);
        case ByConsumer => TodoStep(s);
      }
    }
  }

  lemma TodoStep(s: State)
    requires Shape(s) && (!s.cons.pc.Scan? && !s.cons.pc.Release? ==> s.cons.todo == [])
    ensures var r := Consume(s).cons; !r.pc.Scan? && !r.pc.Release? ==> r.todo == []
  {
  }
}
