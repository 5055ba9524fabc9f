/**
 The limit on the number of messages in the documentation of the merge by id is exact: after 0xffffffff
 messages the next one gets the id 0xffffffff, and dequeues no longer find it.
 */
module WfmpscqLimit {
  import opened Common
  import opened Cyclic
  import opened Wfmpscq
  import opened WfmpscqSafety

  /** Nobody is in a call, every message was taken, and n ids were given. */
  ghost predicate Rest(s: State, n: nat) {
    && Reachable(s) && Inv(s) && s.strategy.IdAbsolute? && s.numSlots >= 2
    && s.cons.pc.CIdle? && s.issued == s.idCnt == n
    && forall w :: 0 <= w < |s.rings| ==> s.rings[w].pc.WIdle? && s.rings[w].taken == |s.rings[w].log|
  }

  /** The same, but one message with id n waits in ring 0. */
  ghost predicate OneWaits(s: State, n: nat) {
    && Reachable(s) && Inv(s) && s.strategy.IdAbsolute? && s.numSlots >= 2
    && s.cons.pc.CIdle? && s.issued == s.idCnt == n + 1
    && FrontOnly(s, n)
  }

  /** No writer is in a call, and the only waiting message is in ring 0 and has id n. */
  ghost predicate FrontOnly(s: State, n: nat) {
    && |s.rings| >= 1
    && (forall w :: 0 <= w < |s.rings| ==> s.rings[w].pc.WIdle?)
    && (forall w :: 1 <= w < |s.rings| ==> s.rings[w].taken == |s.rings[w].log|)
    && |s.rings[0].log| == s.rings[0].taken + 1 && s.rings[0].log[s.rings[0].taken].id == n
  }

  // ----- Enqueue

  /** Nothing but ring 0 and the counters has changed. */
  ghost predicate OnlyRing0(s: State, s': State) {
    && |s'.rings| == |s.rings| >= 1
    && s' == s.(rings := s.rings[0 := s'.rings[0]], idCnt := s'.idCnt, issued := s'.issued)
  }

  lemma NotFull(s: State)
    requires Inv(s) && s.numSlots >= 2 && |s.rings| >= 1 && s.rings[0].taken == |s.rings[0].log|
    ensures (s.rings[0].tail + 1) % s.numSlots != s.rings[0].head
  {
    var r, n := s.rings[0], s.numSlots;
    assert RingOk(s, 0);
    Next(|r.log|, n);
    if (|r.log| + 1) % n == |r.log| % n { Apart(|r.log|, |r.log| + 1, n); }
  }

  /** Lines 85-94. */
  lemma TakesId(s: State, n: nat, msg: Msg) returns (s': State)
    requires Rest(s, n) && n <= MAXID && |msg| == s.width
    ensures Reachable(s') && Inv(s') && OnlyRing0(s, s') && s'.issued == s'.idCnt == n + 1
    ensures s'.rings[0] == s.rings[0].(pc := StoreData(0), msg := msg, id := n)
  {
    var a := ByWriter(0, msg);
    var s1 := RunGoesOn(s, a);
    NotFull(s);
    var s2 := RunGoesOn(s1, a);
    s' := RunGoesOn(s2, a);
    Small(n, TWO_TO_THE_32);
    Small(n + 1, TWO_TO_THE_64);
  }

  /** Line 101, the first c words. */
  lemma {:induction false} StoresWords(s: State, c: nat) returns (s': State)
    requires Reachable(s) && Inv(s) && |s.rings| >= 1 && s.rings[0].pc == StoreData(0) && c <= s.width
    ensures Reachable(s') && Inv(s') && OnlyRing0(s, s') && s'.issued == s.issued && s'.idCnt == s.idCnt
    ensures s'.rings[0] == s.rings[0].(pc := StoreData(c), slots := s'.rings[0].slots)
  {
    s' := s;
    if c > 0 {
      s' := StoresWords(s, c - 1);
      s' := RunGoesOn(s', ByWriter(0, seq(s.width, _ => 0)));
    }
  }

  /** One message goes through the ring of writer 0 and gets id n. */
  lemma Publish(s: State, n: nat, msg: Msg) returns (s': State)
    requires Rest(s, n) && n <= MAXID && |msg| == s.width
    ensures OneWaits(s', n) && s'.width == s.width && |s'.rings| == |s.rings| && s'.results == s.results
  {
    var s1 := TakesId(s, n, msg);
    var s2 := StoresWords(s1, s.width);
    var s3 := RunGoesOn(s2, ByWriter(0, msg));
    s' := RunGoesOn(s3, ByWriter(0, msg));
    assert s'.rings[0].log == s.rings[0].log + [Entry(n, msg)];
  }

  // ----- The scan

  /** Nothing but the consumer's locals has changed since its scan began in s. */
  ghost predicate OnlyConsumer(s: State, s': State) {
    && s' == s.(cons := s'.cons)
    && s'.cons.snap == Logs(s) && s'.cons.base == Takens(s)
  }

  /** Rings that are empty change nothing. */
  lemma {:induction false} ScansEmpty(s: State, s1: State, i: nat) returns (s': State)
    requires Reachable(s1) && Inv(s1) && OnlyConsumer(s, s1) && s1.cons.pc == ScanTail(1)
    requires 1 <= i <= |s.rings| && forall w :: 1 <= w < |s.rings| ==> s.rings[w].taken == |s.rings[w].log|
    ensures Reachable(s') && Inv(s') && OnlyConsumer(s, s') && s'.cons.pc == ScanTail(i)
    ensures s'.cons.queue == s1.cons.queue && s'.cons.minId == s1.cons.minId
  {
    s' := s1;
    if i > 1 {
      s' := ScansEmpty(s, s1, i - 1);
      TailTells(s', i - 1);
      s' := RunGoesOn(s', ByConsumer);
      s' := RunGoesOn(s', ByConsumer);
    }
  }

  /** Lines 123-135: ring 0 is found unless its id is 0xffffffff. */
  lemma Scans(s: State, n: nat) returns (s': State)
    requires OneWaits(s, n) && n <= MAXID
    ensures Reachable(s') && Inv(s') && OnlyConsumer(s, s') && s'.cons.pc == ScanTail(|s.rings|)
    ensures s'.cons.queue == if n < MAXID then 0 else -1
  {
    var s1 := RunGoesOn(s, ByConsumer);
    var s2 := RunGoesOn(s1, ByConsumer);
    var s3 := RunGoesOn(s2, ByConsumer);
    TailTells(s, 0);
    FrontIsLeast(s, 0, s.rings[0].taken);
    s' := ScansEmpty(s, s3, |s.rings|);
  }

  lemma {:induction false} TakesWords(s: State, c: nat) returns (s': State)
    requires Reachable(s) && Inv(s) && s.cons.pc == Take(0) && c <= s.width
    ensures Reachable(s') && Inv(s') && s' == s.(cons := s.cons.(pc := Take(c), out := s'.cons.out))
  {
    s' := s;
    if c > 0 {
      s' := TakesWords(s, c - 1);
      s' := RunGoesOn(s', ByConsumer);
    } else {
      assert s == s.(cons := s.cons.(pc := Take(0), out := s.cons.out));
    }
  }

  /** A message with an id below 0xffffffff is taken. */
  lemma Fetch(s: State, n: nat) returns (s': State)
    requires OneWaits(s, n) && n < MAXID
    ensures Rest(s', n + 1) && s'.width == s.width && |s'.rings| == |s.rings|
  {
    var s1 := Scans(s, n);
    var s2 := RunGoesOn(s1, ByConsumer);
    var s3 := TakesWords(s2, s.width);
    s' := RunGoesOn(s3, ByConsumer);
  }

  /** The message with id 0xffffffff is not found. */
  lemma Miss(s: State) returns (s': State)
    requires OneWaits(s, MAXID)
    ensures Reachable(s') && s'.rings == s.rings && s'.issued == s.issued
    ensures s'.results == s.results + [Empty(Logs(s), Takens(s), false)]
  {
    var s1 := Scans(s, MAXID);
    s' := RunGoesOn(s1, ByConsumer);
  }

  // ----- The limit

  /** Any number of messages up to the limit can pass through the table. */
  lemma {:induction false} AnyNumber(s: State, n: nat) returns (s': State)
    requires Rest(s, 0) && n <= MAXID
    ensures Rest(s', n) && s'.width == s.width && |s'.rings| == |s.rings|
  {
    s' := s;
    if n > 0 {
      s' := AnyNumber(s, n - 1);
      s' := Publish(s', n - 1, seq(s.width, _ => 0));
      s' := Fetch(s', n - 1);
    }
  }

  lemma InitialRest(s: State)
    requires Initial(s) && s.strategy.IdAbsolute? && s.numSlots >= 2
    ensures Rest(s, 0)
  {
    var states, acts: seq<Act> := [s], [];
    assert IsRun(states, acts) && states[|acts|] == s;
    InitialInv(s);
    forall w | 0 <= w < |s.rings| ensures s.rings[w].pc.WIdle? && s.rings[w].taken == |s.rings[w].log| {
      assert InitialRing(s.rings[w], s.numSlots, s.width);
    }
  }

  /**
   The documented limit is exact. In every table that merges by id and has room for a message there is a run
   of 0xffffffff + 1 messages in which the last one gets id 0xffffffff and is published, and a dequeue that
   begins afterwards, while it is the only message in the table, reports that there is none.
   */
  lemma LimitIsExact(start: State) returns (s: State)
    requires Initial(start) && start.strategy.IdAbsolute? && start.numSlots >= 2
    ensures Reachable(s) && s.issued == MAXID + 1 && |s.rings| == |start.rings|
    ensures var r := s.rings[0];
            && r.pc.WIdle? && r.taken + 1 == |r.log| && r.log[r.taken].id == MAXID
            && s.results != [] && var x := s.results[|s.results| - 1];
               x.Empty? && |x.snap| == |x.base| == |s.rings| && x.base[0] == r.taken && x.snap[0] == |r.log|
  {
    InitialRest(start);
    var s1 := AnyNumber(start, MAXID);
    var s2 := Publish(s1, MAXID, seq(start.width, _ => 0));
    s := Miss(s2);
  }
}
