/** When the queue of Lfmpscq.dfy loses messages. */
module LfmpscqResults {
  import opened Common
  import opened Lfmpscq
  import opened LfmpscqSafety
  import opened LfmpscqDelivery
  import LfmpscqCalls
  import opened LfmpscqIdleUser
  import opened LfmpscqSmallPools
  import opened LfmpscqLostMessage

  /** The number of messages that the successful calls of the first n users sent. */
  function Total(sent: seq<seq<Msg>>, n: nat): nat
    requires n <= |sent|
  {
    if n == 0 then 0 else Total(sent, n - 1) + |sent[n - 1]|
  }

  /** When no call is running and the consumer finds the queue empty, it has got as many messages as were sent. */
  ghost predicate NothingLost(s: State)
    requires Shape(s)
  {
    Quiet(s) ==> |s.got| == Total(s.sent, |s.sent|)
  }

  // ----- Counting

  ghost predicate EntriesOk(log: seq<Entry>, n: nat) {
    forall i :: 0 <= i < |log| ==> log[i].p < n
  }

  lemma {:induction false} RunEntries(s: State, acts: seq<Act>)
    requires Shape(s) && ScheduleOk(acts, s.width, |s.procs|) && EntriesOk(s.linked, |s.procs|)
    ensures EntriesOk(RunFrom(s, acts).linked, |s.procs|)
  {
    if acts != [] {
      assert ActOk(acts[|acts| - 1], s.width, |s.procs|);
      RunEntries(s, acts[..|acts| - 1]);
    }
  }

  function TotalBy(log: seq<Entry>, n: nat): nat {
    if n == 0 then 0 else TotalBy(log, n - 1) + |SentBy(log, n - 1)|
  }

  lemma {:induction false} TotalByMore(log: seq<Entry>, n: nat)
    requires log != []
    ensures TotalBy(log, n) == TotalBy(log[..|log| - 1], n) + if log[|log| - 1].p < n then 1 else 0
  {
    if n > 0 {
      TotalByMore(log, n - 1);
    }
  }

  /** Every entry belongs to one user. */
  lemma {:induction false} TotalByAll(log: seq<Entry>, n: nat)
    requires EntriesOk(log, n)
    ensures TotalBy(log, n) == |log|
  {
    if log == [] {
      TotalByNone(n);
    } else {
      TotalByMore(log, n);
      TotalByAll(log[..|log| - 1], n);
    }
  }

  lemma {:induction false} TotalByNone(n: nat)
    ensures TotalBy([], n) == 0
  {
    if n > 0 {
      TotalByNone(n - 1);
    }
  }

  lemma {:induction false} TotalSent(sent: seq<seq<Msg>>, log: seq<Entry>, n: nat)
    requires n <= |sent| && forall p :: 0 <= p < |sent| ==> SentBy(log, p) == sent[p]
    ensures Total(sent, n) == TotalBy(log, n)
  {
    if n > 0 {
      TotalSent(sent, log, n - 1);
    }
  }

  lemma QuietSent(s: State, p: nat)
    requires Shape(s) && Delivered(s) && p < |s.procs| && s.procs[p].pc.Idle?
    ensures SentBy(s.linked, p) == s.sent[p]
  {
    assert SentOk(s, p);
    assert s.sent[p] + [] == s.sent[p];
  }

  lemma {:induction false} MessagesCount(log: seq<Entry>)
    ensures |MessagesOf(log)| == |log|
  {
    if log != [] {
      MessagesCount(log[..|log| - 1]);
    }
  }

  lemma {:induction false} OnlyTwoSent(sent: seq<seq<Msg>>, n: nat)
    requires 2 <= n <= |sent| && forall p :: 2 <= p < n ==> sent[p] == []
    ensures Total(sent, n) == |sent[0]| + |sent[1]|
  {
    if n == 2 {
      assert Total(sent, 1) == Total(sent, 0) + |sent[0]|;
    } else {
      OnlyTwoSent(sent, n - 1);
    }
  }

  /** An empty list of messages put in at c does not count. */
  lemma {:induction false} TotalPutIn(a: seq<seq<Msg>>, b: seq<seq<Msg>>, c: nat, n: nat)
    requires c <= |a| && |b| == |a| + 1 && b[c] == [] && n <= |a|
    requires forall p: nat :: p < |a| ==> b[Moved(p, c)] == a[p]
    ensures Total(b, if n <= c then n else n + 1) == Total(a, n)
    ensures n == c ==> Total(b, n + 1) == Total(a, n)
  {
    if n > 0 {
      TotalPutIn(a, b, c, n - 1);
      assert b[Moved(n - 1, c)] == a[n - 1];
    }
  }

  // ----- The exact condition, with the consumer outside the users

  lemma NothingLostIfDelivered(width: nat, numSlots: nat, maxUser: nat, acts: seq<Act>)
    requires numSlots >= 1 && ScheduleOk(acts, width, maxUser)
    requires var s := RunFrom(Init(width, numSlots, maxUser), acts); Delivered(s) && ChainOk(s)
    ensures NothingLost(RunFrom(Init(width, numSlots, maxUser), acts))
  {
    var s := RunFrom(Init(width, numSlots, maxUser), acts);
    if Quiet(s) {
      NextOfHead(s);
      RunEntries(Init(width, numSlots, maxUser), acts);
      TotalByAll(s.linked, maxUser);
      forall p | 0 <= p < maxUser ensures SentBy(s.linked, p) == s.sent[p] { QuietSent(s, p); }
      TotalSent(s.sent, s.linked, maxUser);
      MessagesCount(s.linked);
    }
  }

  lemma NothingLostInSmallPools(width: nat, numSlots: nat, maxUser: nat, acts: seq<Act>)
    requires numSlots >= 1 && ScheduleOk(acts, width, maxUser) && (maxUser <= 1 || numSlots <= 3)
    ensures NothingLost(RunFrom(Init(width, numSlots, maxUser), acts))
  {
    NoLossInSmallPools(width, numSlots, maxUser, acts);
    NothingLostIfDelivered(width, numSlots, maxUser, acts);
  }

  lemma SomethingLostInLargePools(width: nat, numSlots: nat, maxUser: nat) returns (acts: seq<Act>)
    requires numSlots >= 4 && maxUser >= 2
    ensures ScheduleOk(acts, width, maxUser) && !NothingLost(RunFrom(Init(width, numSlots, maxUser), acts))
  {
    var m := seq(width, _ => 0);
    acts := LostMessage(numSlots, maxUser, m, m, m);
    OnlyTwoSent(RunFrom(Init(width, numSlots, maxUser), acts).sent, maxUser);
  }

  /**
   The exact condition for maxUser producers beside a consumer that is none of them. With the scan split into
   its single reads, no run loses a message if and only if there is at most one producer or there are at most
   three slots.
   */
  lemma LosslessExactly(width: nat, numSlots: nat, maxUser: nat)
    requires numSlots >= 1
    ensures (forall acts: seq<Act> :: ScheduleOk(acts, width, maxUser) ==>
               NothingLost(RunFrom(Init(width, numSlots, maxUser), acts)))
            <==> maxUser <= 1 || numSlots <= 3
  {
    if maxUser <= 1 || numSlots <= 3 {
      forall acts: seq<Act> | ScheduleOk(acts, width, maxUser)
        ensures NothingLost(RunFrom(Init(width, numSlots, maxUser), acts))
      {
        NothingLostInSmallPools(width, numSlots, maxUser, acts);
      }
    } else {
      var acts := SomethingLostInLargePools(width, numSlots, maxUser);
      assert ScheduleOk(acts, width, maxUser);
    }
  }

  // ----- The exact condition, with the consumer as user c

  /** User c, who is the consumer too, is in at most one call. */
  predicate OneCall(s: State, a: Act, c: nat)
    requires c < |s.procs|
  {
    && (a.ByConsumer? ==> s.procs[c].pc.Idle?)
    && (a.ByProducer? && a.p == c ==> s.cons.pc.ReadHead?)
  }

  ghost predicate OneCallEach(width: nat, numSlots: nat, maxUser: nat, acts: seq<Act>, c: nat)
    requires numSlots >= 1 && ScheduleOk(acts, width, maxUser) && c < maxUser
  {
    forall i :: 0 <= i < |acts| ==> OneCall(RunFrom(Init(width, numSlots, maxUser), acts[..i]), acts[i], c)
  }

  lemma RunFromStep(s: State, acts: seq<Act>, b: nat)
    requires Shape(s) && ScheduleOk(acts, s.width, |s.procs|) && 0 < b <= |acts|
    ensures ActOk(acts[b - 1], s.width, |s.procs|)
    ensures RunFrom(s, acts[..b]) == Step(RunFrom(s, acts[..b - 1]), acts[b - 1])
  {
    assert acts[..b][..b - 1] == acts[..b - 1];
    assert acts[..b][b - 1] == acts[b - 1];
  }

  /** While the consumer is in a call, its user does not enqueue. */
  lemma {:induction false} IdleInDequeue(width: nat, numSlots: nat, maxUser: nat, acts: seq<Act>, c: nat, b: nat)
    requires numSlots >= 1 && ScheduleOk(acts, width, maxUser) && c < maxUser && b <= |acts|
    requires OneCallEach(width, numSlots, maxUser, acts, c)
    ensures var s := RunFrom(Init(width, numSlots, maxUser), acts[..b]); s.cons.pc.ReadHead? || s.procs[c].pc.Idle?
    decreases b
  {
    assert acts[..0] == [];
    if b > 0 {
      IdleInDequeue(width, numSlots, maxUser, acts, c, b - 1);
      var s0 := Init(width, numSlots, maxUser);
      RunFromStep(s0, acts, b);
      assert OneCall(RunFrom(s0, acts[..b - 1]), acts[b - 1], c);
      OnlyItsOwn(RunFrom(s0, acts[..b - 1]), acts[b - 1], c);
    }
  }

  lemma OnlyItsOwn(s: State, a: Act, c: nat)
    requires Shape(s) && ActOk(a, s.width, |s.procs|) && c < |s.procs|
    ensures a.ByConsumer? || a.p != c ==> Step(s, a).procs[c] == s.procs[c]
    ensures a.ByProducer? ==> Step(s, a).cons == s.cons
  {
    match a {
      case ByProducer(p, msg) =>
        LfmpscqCalls.ProducerLeaves(s, p, msg);
        if p != c { LfmpscqCalls.OtherProducer(s, p, msg, c); }
      case ByConsumer => LfmpscqCalls.ConsumerLeaves(s);
    }
  }

  /** A late check takes a producer that checks and another that has linked, and neither is the consumer. */
  lemma LateTakesThree(s: State, a: Act, c: nat)
    requires Inv(s) && LateCheck(s, a) && c < |s.procs| && (s.cons.pc.ReadHead? || s.procs[c].pc.Idle?)
    ensures |s.procs| >= 3
  {
    ScanAhead(s);
    var q :| 0 <= q < |s.procs| && s.procs[q].pc.SwingTail? && s.procs[q].t == s.tail;
    assert q != a.p && q != c && a.p != c;
  }

  lemma TwoUsersNotLate(width: nat, numSlots: nat, maxUser: nat, acts: seq<Act>, c: nat, b: nat)
    requires numSlots >= 1 && ScheduleOk(acts, width, maxUser) && c < maxUser <= 2 && b < |acts|
    requires OneCallEach(width, numSlots, maxUser, acts, c)
    requires Inv(RunFrom(Init(width, numSlots, maxUser), acts[..b]))
    ensures !LateCheck(RunFrom(Init(width, numSlots, maxUser), acts[..b]), acts[b])
  {
    var s := RunFrom(Init(width, numSlots, maxUser), acts[..b]);
    IdleInDequeue(width, numSlots, maxUser, acts, c, b);
    if LateCheck(s, acts[b]) {
      LateTakesThree(s, acts[b], c);
    }
  }

  lemma {:induction false} TwoUsersInv(width: nat, numSlots: nat, maxUser: nat, acts: seq<Act>, c: nat, b: nat)
    requires numSlots >= 1 && ScheduleOk(acts, width, maxUser) && c < maxUser <= 2 && b <= |acts|
    requires OneCallEach(width, numSlots, maxUser, acts, c)
    ensures Inv(RunFrom(Init(width, numSlots, maxUser), acts[..b]))
    decreases b
  {
    var s0 := Init(width, numSlots, maxUser);
    if b == 0 {
      assert acts[..0] == [];
      InitInv(width, numSlots, maxUser);
    } else {
      TwoUsersInv(width, numSlots, maxUser, acts, c, b - 1);
      TwoUsersNotLate(width, numSlots, maxUser, acts, c, b - 1);
      RunFromStep(s0, acts, b);
      StepKeepsInv(RunFrom(s0, acts[..b - 1]), acts[b - 1]);
    }
  }

  lemma TwoUsersNeverLate(width: nat, numSlots: nat, maxUser: nat, acts: seq<Act>, c: nat)
    requires numSlots >= 1 && ScheduleOk(acts, width, maxUser) && c < maxUser <= 2
    requires OneCallEach(width, numSlots, maxUser, acts, c)
    ensures NoLateCheck(Init(width, numSlots, maxUser), acts)
  {
    forall b | 0 <= b < |acts| ensures !LateCheck(RunFrom(Init(width, numSlots, maxUser), acts[..b]), acts[b]) {
      TwoUsersInv(width, numSlots, maxUser, acts, c, b);
      TwoUsersNotLate(width, numSlots, maxUser, acts, c, b);
    }
  }

  /** With two users, one of which consumes, every message arrives, in order, whatever the number of slots. */
  lemma NothingLostWithTwoUsers(width: nat, numSlots: nat, maxUser: nat, acts: seq<Act>, c: nat)
    requires numSlots >= 1 && ScheduleOk(acts, width, maxUser) && c < maxUser <= 2
    requires OneCallEach(width, numSlots, maxUser, acts, c)
    ensures Delivered(RunFrom(Init(width, numSlots, maxUser), acts))
    ensures NothingLost(RunFrom(Init(width, numSlots, maxUser), acts))
  {
    TwoUsersNeverLate(width, numSlots, maxUser, acts, c);
    NoLossUnlessLate(width, numSlots, maxUser, acts);
    InitInv(width, numSlots, maxUser);
    RunInv(Init(width, numSlots, maxUser), acts);
    NothingLostIfDelivered(width, numSlots, maxUser, acts);
  }

  lemma {:induction false} SparedStaysIdle(width: nat, numSlots: nat, maxUser: nat, acts: seq<Act>, c: nat, b: nat)
    requires numSlots >= 1 && ScheduleOk(acts, width, maxUser) && c < maxUser && b <= |acts| && Spares(acts, c)
    ensures RunFrom(Init(width, numSlots, maxUser), acts[..b]).procs[c].pc.Idle?
    decreases b
  {
    assert acts[..0] == [];
    if b > 0 {
      SparedStaysIdle(width, numSlots, maxUser, acts, c, b - 1);
      RunFromStep(Init(width, numSlots, maxUser), acts, b);
      OnlyItsOwn(RunFrom(Init(width, numSlots, maxUser), acts[..b - 1]), acts[b - 1], c);
    }
  }

  lemma SparedOneCall(width: nat, numSlots: nat, maxUser: nat, acts: seq<Act>, c: nat)
    requires numSlots >= 1 && ScheduleOk(acts, width, maxUser) && c < maxUser && Spares(acts, c)
    ensures OneCallEach(width, numSlots, maxUser, acts, c)
  {
    forall i | 0 <= i < |acts| ensures OneCall(RunFrom(Init(width, numSlots, maxUser), acts[..i]), acts[i], c) {
      SparedStaysIdle(width, numSlots, maxUser, acts, c, i);
    }
  }

  /** From three users on, two others can lose a message, whichever user consumes. */
  lemma SomethingLostWithThreeUsers(width: nat, numSlots: nat, maxUser: nat, c: nat) returns (acts: seq<Act>)
    requires numSlots >= 4 && maxUser >= 3 && c < maxUser
    ensures ScheduleOk(acts, width, maxUser) && OneCallEach(width, numSlots, maxUser, acts, c)
    ensures !NothingLost(RunFrom(Init(width, numSlots, maxUser), acts))
  {
    var without := SomethingLostInLargePools(width, numSlots, maxUser - 1);
    acts := WithIdleUser(width, numSlots, maxUser - 1, without, c);
    SparedOneCall(width, numSlots, maxUser, acts, c);
    LostInBoth(RunFrom(Init(width, numSlots, maxUser - 1), without), RunFrom(Init(width, numSlots, maxUser), acts), c);
  }

  lemma LostInBoth(s: State, t: State, c: nat)
    requires PutIn(s, t, c) && !NothingLost(s)
    ensures !NothingLost(t)
  {
    NextPutIn(s, t, c, s.head, 0);
    forall p: nat | p < |s.sent| ensures t.sent[Moved(p, c)] == s.sent[p] { assert UserMoved(s, t, p, c); }
    TotalPutIn(s.sent, t.sent, c, |s.sent|);
    forall q | 0 <= q < |t.procs| ensures t.procs[q].pc.Idle? {
      if q != c { assert UserMoved(s, t, if q < c then q else q - 1, c); }
    }
  }

  /**
   The exact condition as the source counts users: maxUser of them, one of which, c, is the consumer and is in
   at most one call. With the scan split into its single reads, no run loses a message if and only if there are
   at most two users or at most three slots.
   */
  lemma LosslessExactlyForUsers(width: nat, numSlots: nat, maxUser: nat, c: nat)
    requires numSlots >= 1 && c < maxUser
    ensures (forall acts: seq<Act> ::
               ScheduleOk(acts, width, maxUser) && OneCallEach(width, numSlots, maxUser, acts, c) ==>
                 NothingLost(RunFrom(Init(width, numSlots, maxUser), acts)))
            <==> maxUser <= 2 || numSlots <= 3
  {
    if maxUser <= 2 || numSlots <= 3 {
      forall acts: seq<Act> | ScheduleOk(acts, width, maxUser) && OneCallEach(width, numSlots, maxUser, acts, c)
        ensures NothingLost(RunFrom(Init(width, numSlots, maxUser), acts))
      {
        if maxUser <= 2 {
          NothingLostWithTwoUsers(width, numSlots, maxUser, acts, c);
        } else {
          NothingLostInSmallPools(width, numSlots, maxUser, acts);
        }
      }
    } else {
      var acts := SomethingLostWithThreeUsers(width, numSlots, maxUser, c);
      assert ScheduleOk(acts, width, maxUser) && OneCallEach(width, numSlots, maxUser, acts, c);
    }
  }
}
