/**
 The invariant of the queue of Lfmpscq.dfy. Every step keeps it except one: a producer that validates a
 slot whose index the consumer's scan for that slot has already passed.
 */
module LfmpscqSafety {
  import opened Common
  import opened Counting
  import opened Lfmpscq

  // ----- The invariant

  function Last(s: State): int
    requires |s.chain| >= 1
  {
    s.chain[|s.chain| - 1]
  }

  /** The slots from head to the last node. */
  ghost predicate ChainOk(s: State) {
    var c := s.chain;
    && |c| >= 1
    && s.head == c[0]
    && Distinct(c)
    && (forall i :: 0 <= i < |c| ==> InRange(s, c[i]) && s.slots[c[i]].st == Linked)
    && (forall i :: 0 <= i < |c| - 1 ==> s.slots[c[i]].next == c[i + 1])
    && s.slots[c[|c| - 1]].next == UNDEFINED_NODE
  }

  /**
   Where tail is: the last node or its predecessor, which head may already have passed. A tail that is
   behind is protected by the producer that linked the last node, until that producer's own line 158.
   */
  ghost predicate TailOk(s: State) {
    && |s.chain| >= 1
    && (s.tail == Last(s) || (NextOf(s, s.tail) == Last(s) && TailPlace(s) && HeldTail(s)))
  }

  predicate TailPlace(s: State) {
    || (|s.chain| >= 2 && s.tail == s.chain[|s.chain| - 2])
    || (|s.chain| == 1 && StatusOf(s, s.tail) == Retired)
  }

  ghost predicate HeldTail(s: State) {
    exists q :: 0 <= q < |s.procs| && s.procs[q].pc.SwingTail? && s.procs[q].t == s.tail
  }

  function Garbage(s: State): seq<int> {
    s.cons.rlist + s.cons.todo
  }

  predicate HasNode(pc: PC) {
    pc.Fill? || pc.ReadTail? || pc.PublishTail? || pc.CheckTail? || pc.ReadTailNext? || pc.HelpTail? || pc.Link?
  }

  predicate HoldsTail(pc: PC) {
    pc.ReadTailNext? || pc.HelpTail? || pc.Link? || pc.SwingTail?
  }

  ghost predicate SlotOk(s: State, n: int)
    requires InRange(s, n)
  {
    var slot := s.slots[n];
    && |slot.data| == s.width
    && (slot.used <==> slot.st != Free)
    && match slot.st
       case Free => true
       case Claimed(p) => p < |s.procs| && HasNode(s.procs[p].pc) && s.procs[p].node == n
       case Linked => n in s.chain
       case Retired => slot.next != UNDEFINED_NODE && n in Garbage(s)
       case Clearing => s.cons.pc.Release? && s.cons.victim == n
  }

  predicate Scanning(s: State, n: int) {
    s.cons.pc.Scan? && s.cons.todo != [] && s.cons.todo[0] == n
  }

  ghost predicate HazOk(s: State, j: int)
    requires Shape(s) && 0 <= j < |s.haz|
  {
    s.valid[j] ==>
      && InRange(s, s.haz[j])
      && (s.slots[s.haz[j]].st == Linked || s.slots[s.haz[j]].st == Retired)
      && (Scanning(s, s.haz[j]) ==> s.cons.pc.k <= j)
  }

  ghost predicate NodeOk(s: State, p: nat)
    requires p < |s.procs|
  {
    var r := s.procs[p];
    && (r.pc.Claim? ==> 0 <= r.pc.cnt && |r.msg| == s.width)
    && (HasNode(r.pc) ==>
          && StatusOf(s, r.node) == Claimed(p)
          && |r.msg| == s.width
          && if r.pc.Fill?
             then && 0 <= r.pc.c <= s.width && |DataOf(s, r.node)| == s.width
                  && DataOf(s, r.node)[..r.pc.c] == r.msg[..r.pc.c]
             else DataOf(s, r.node) == r.msg && NextOf(s, r.node) == UNDEFINED_NODE)
  }

  ghost predicate EnqueueOk(s: State, p: nat)
    requires Shape(s) && p < |s.procs|
  {
    var r := s.procs[p];
    && (r.pc.CheckTail? || HoldsTail(r.pc) ==> s.haz[p] == r.t)
    && (HoldsTail(r.pc) ==> s.valid[p] && (|s.chain| >= 1 && r.t == Last(s) ==> s.tail == r.t))
    && (r.pc.HelpTail? ==> NextOf(s, r.t) == r.tNext != UNDEFINED_NODE)
    && (r.pc.SwingTail? ==> NextOf(s, r.t) == r.node != UNDEFINED_NODE)
  }

  ghost predicate ProcOk(s: State, p: nat)
    requires Shape(s) && p < |s.procs|
  {
    && 0 <= s.procs[p].cursor < |s.slots|
    && NodeOk(s, p)
    && EnqueueOk(s, p)
  }

  ghost predicate ConsOk(s: State) {
    var r, g := s.cons, Garbage(s);
    && (r.pc.ReadHeadNext? || r.pc.CopyOut? ==> r.h == s.head)
    && (r.pc.CopyOut? ==>
          && |s.chain| >= 2 && r.hNext == s.chain[1]
          && 0 <= r.pc.c <= s.width
          && |DataOf(s, r.hNext)| == s.width
          && r.out == DataOf(s, r.hNext)[..r.pc.c])
    && (r.pc.Scan? ==> 0 <= r.pc.k <= |s.haz|)
    && (!r.pc.Scan? && !r.pc.Release? ==> r.todo == [])
    && (r.pc.Release? ==> StatusOf(s, r.victim) == Clearing)
    && Distinct(g)
    && (forall i :: 0 <= i < |g| ==> StatusOf(s, g[i]) == Retired)
  }

  ghost predicate Inv(s: State) {
    && Shape(s)
    && ChainOk(s)
    && TailOk(s)
    && (forall n :: 0 <= n < |s.slots| ==> SlotOk(s, n))
    && (forall j :: 0 <= j < |s.haz| ==> HazOk(s, j))
    && (forall p :: 0 <= p < |s.procs| ==> ProcOk(s, p))
    && ConsOk(s)
  }

  /**
   The step that spoils the protocol: line 137 succeeds for a slot that is being scanned for, and the scan
   has already read this producer's index.
   */
  predicate LateCheck(s: State, a: Act)
    requires Shape(s)
  {
    a.ByProducer? && a.p < |s.procs| && s.procs[a.p].pc.CheckTail? && s.tail == s.procs[a.p].t
    && Scanning(s, s.tail) && s.cons.pc.k > a.p
  }

  lemma InitInv(width: nat, numSlots: nat, maxUser: nat)
    requires numSlots >= 1
    ensures Inv(Init(width, numSlots, maxUser))
  {
  }

  // ----- Producer steps that change only its own locals and its own index

  predicate SameUse(r: Producer, r': Producer) {
    && (HasNode(r.pc) ==> HasNode(r'.pc) && r'.node == r.node)
    && !r.pc.SwingTail?
  }

  lemma PrivateKeeps(s: State, s': State, p: nat)
    requires Inv(s) && p < |s.procs| && |s'.procs| == |s.procs| && |s'.haz| == |s.haz| == |s'.valid|
    requires s' == s.(procs := s.procs[p := s'.procs[p]],
                      haz := s.haz[p := s'.haz[p]], valid := s.valid[p := s'.valid[p]])
    requires SameUse(s.procs[p], s'.procs[p])
    requires ProcOk(s', p) && HazOk(s', p)
    ensures Inv(s')
  {
    forall n | 0 <= n < |s'.slots| ensures SlotOk(s', n) { assert SlotOk(s, n); }
    forall j | 0 <= j < |s'.haz| ensures HazOk(s', j) { if j != p { assert HazOk(s, j); } }
    forall q | 0 <= q < |s'.procs| ensures ProcOk(s', q) { if q != p { assert ProcOk(s, q); } }
    if s.tail != Last(s) {
      var q :| 0 <= q < |s.procs| && s.procs[q].pc.SwingTail? && s.procs[q].t == s.tail;
      assert s'.procs[q] == s.procs[q];
    }
  }

  lemma LocalKeeps(s: State, s': State, p: nat)
    requires Inv(s) && p < |s.procs| && |s'.procs| == |s.procs|
    requires s' == s.(procs := s.procs[p := s'.procs[p]])
    requires SameUse(s.procs[p], s'.procs[p])
    requires ProcOk(s', p)
    ensures Inv(s')
  {
    assert HazOk(s, p);
    assert HazOk(s', p);
    PrivateKeeps(s, s', p);
  }

  lemma KeepBegin(s: State, p: nat, msg: Msg)
    requires Inv(s) && p < |s.procs| && s.procs[p].pc.Idle? && |msg| == s.width
    ensures Inv(Produce(s, p, msg))
  {
    assert ProcOk(s, p);
    LocalKeeps(s, Produce(s, p, msg), p);
  }

  lemma KeepReadTail(s: State, p: nat, msg: Msg)
    requires Inv(s) && p < |s.procs| && s.procs[p].pc.ReadTail?
    ensures Inv(Produce(s, p, msg))
  {
    assert ProcOk(s, p);
    LocalKeeps(s, Produce(s, p, msg), p);
  }

  lemma KeepPublishTail(s: State, p: nat)
    requires Inv(s) && p < |s.procs| && s.procs[p].pc.PublishTail?
    ensures Inv(StepPublishTail(s, p))
  {
    assert ProcOk(s, p);
    PrivateKeeps(s, StepPublishTail(s, p), p);
  }

  /** tail never names a slot that is free, claimed or being freed. */
  lemma TailInUse(s: State)
    requires Inv(s)
    ensures InRange(s, s.tail) && (s.slots[s.tail].st == Linked || s.slots[s.tail].st == Retired)
  {
  }

  lemma KeepCheckTail(s: State, p: nat, msg: Msg)
    requires Inv(s) && p < |s.procs| && s.procs[p].pc.CheckTail? && !LateCheck(s, ByProducer(p, msg))
    ensures Inv(StepCheckTail(s, p))
  {
    var s' := StepCheckTail(s, p);
    assert ProcOk(s, p);
    if s.tail != s.procs[p].t {
      LocalKeeps(s, s', p);
    } else {
      TailInUse(s);
      assert HazOk(s', p);
      assert ProcOk(s', p);
      PrivateKeeps(s, s', p);
    }
  }

  lemma KeepReadTailNext(s: State, p: nat)
    requires Inv(s) && p < |s.procs| && s.procs[p].pc.ReadTailNext?
    ensures Inv(StepReadTailNext(s, p))
  {
    assert ProcOk(s, p);
    LocalKeeps(s, StepReadTailNext(s, p), p);
  }

  // ----- Steps that move tail

  lemma TailBehind(s: State)
    requires Inv(s) && NextOf(s, s.tail) != UNDEFINED_NODE
    ensures s.tail != Last(s) && NextOf(s, s.tail) == Last(s)
  {
  }

  lemma TailKeeps(s: State, s1: State)
    requires Inv(s) && s.tail != Last(s) && s1 == s.(tail := Last(s))
    ensures Inv(s1)
  {
    forall n | 0 <= n < |s1.slots| ensures SlotOk(s1, n) { assert SlotOk(s, n); }
    forall j | 0 <= j < |s1.haz| ensures HazOk(s1, j) { assert HazOk(s, j); }
    forall q | 0 <= q < |s1.procs| ensures ProcOk(s1, q) { assert ProcOk(s, q); }
  }

  lemma KeepHelpTail(s: State, p: nat)
    requires Inv(s) && p < |s.procs| && s.procs[p].pc.HelpTail?
    ensures Inv(StepHelpTail(s, p))
  {
    var r := s.procs[p];
    assert ProcOk(s, p);
    var s1 := if s.tail == r.t then s.(tail := r.tNext) else s;
    if s.tail == r.t {
      TailBehind(s);
      TailKeeps(s, s1);
    }
    assert ProcOk(s1, p);
    LocalKeeps(s1, StepHelpTail(s, p), p);
  }

  /** Line 158: whether or not its CAS succeeds, tail no longer needs this producer's protection. */
  lemma KeepSwingTail(s: State, p: nat)
    requires Inv(s) && p < |s.procs| && s.procs[p].pc.SwingTail?
    ensures Inv(StepSwingTail(s, p))
  {
    var r, s' := s.procs[p], StepSwingTail(s, p);
    assert ProcOk(s, p);
    var s1 := if s.tail == r.t then s.(tail := r.node) else s;
    if s.tail == r.t {
      TailBehind(s);
      TailKeeps(s, s1);
      assert s1.tail == Last(s1);
    }
    SwungKeeps(s1, s', p);
  }

  lemma SwungKeeps(s: State, s': State, p: nat)
    requires Inv(s) && p < |s.procs| && s.procs[p].pc.SwingTail? && s.tail != s.procs[p].t
    requires |s'.sent| == |s.sent| && s' == s.(procs := s.procs[p := s.procs[p].(pc := Idle)], sent := s'.sent)
    ensures Inv(s')
  {
    forall n | 0 <= n < |s'.slots| ensures SlotOk(s', n) { assert SlotOk(s, n); }
    forall j | 0 <= j < |s'.haz| ensures HazOk(s', j) { assert HazOk(s, j); }
    forall q | 0 <= q < |s'.procs| ensures ProcOk(s', q) { assert ProcOk(s, q); }
    if s.tail != Last(s) {
      var q :| 0 <= q < |s.procs| && s.procs[q].pc.SwingTail? && s.procs[q].t == s.tail;
      assert s'.procs[q] == s.procs[q];
    }
  }

  // ----- getFreeSlot and the new node

  /** Writing a slot that is free, or claimed by another producer, or being freed, changes nothing q knows. */
  lemma UnusedKeeps(s: State, s': State, q: nat, n: int)
    requires Inv(s) && q < |s.procs| && InRange(s, n) && |s'.procs| == |s.procs| && InRange(s', n)
    requires s' == s.(slots := s.slots[n := s'.slots[n]], procs := s'.procs, cons := s'.cons)
    requires s'.procs[q] == s.procs[q]
    requires var st := s.slots[n].st; st.Free? || (st.Claimed? && st.owner != q) || st.Clearing?
    ensures ProcOk(s', q)
  {
    assert ProcOk(s, q) && HazOk(s, q);
    assert forall m :: m != n ==> && StatusOf(s', m) == StatusOf(s, m)
                                  && NextOf(s', m) == NextOf(s, m) && DataOf(s', m) == DataOf(s, m);
  }

  lemma TailElsewhere(s: State, s': State, n: int)
    requires Inv(s) && InRange(s, n) && s.slots[n].st != Linked && s.slots[n].st != Retired && InRange(s', n)
    requires s'.slots == s.slots[n := s'.slots[n]] && s'.chain == s.chain && s'.tail == s.tail
    requires |s'.procs| == |s.procs|
    requires forall q :: 0 <= q < |s.procs| && s.procs[q].pc.SwingTail? ==> s'.procs[q] == s.procs[q]
    ensures TailOk(s')
  {
    TailInUse(s);
    if s.tail != Last(s) {
      var q :| 0 <= q < |s.procs| && s.procs[q].pc.SwingTail? && s.procs[q].t == s.tail;
      assert s'.procs[q] == s.procs[q];
    }
  }

  lemma KeepClaim(s: State, p: nat)
    requires Inv(s) && p < |s.procs| && s.procs[p].pc.Claim?
    ensures Inv(StepClaim(s, p))
  {
    var r, s' := s.procs[p], StepClaim(s, p);
    assert ProcOk(s, p);
    if r.pc.cnt < |s.slots| && !s.slots[r.cursor].used {
      ClaimWon(s, p);
    } else {
      LocalKeeps(s, s', p);
    }
  }

  lemma ClaimWon(s: State, p: nat)
    requires Inv(s) && p < |s.procs| && s.procs[p].pc.Claim? && s.procs[p].pc.cnt < |s.slots|
    requires InRange(s, s.procs[p].cursor) && !s.slots[s.procs[p].cursor].used
    ensures Inv(StepClaim(s, p))
  {
    var n, s' := s.procs[p].cursor, StepClaim(s, p);
    assert ProcOk(s, p) && SlotOk(s, n);
    TailElsewhere(s, s', n);
    assert s'.cons == s.cons && n !in s.chain && n !in Garbage(s);
    forall m | 0 <= m < |s'.slots| ensures SlotOk(s', m) { assert SlotOk(s, m); }
    forall j | 0 <= j < |s'.haz| ensures HazOk(s', j) { assert HazOk(s, j); }
    forall q | 0 <= q < |s'.procs| ensures ProcOk(s', q) { if q != p { UnusedKeeps(s, s', q, n); } }
  }

  lemma KeepFill(s: State, p: nat)
    requires Inv(s) && p < |s.procs| && s.procs[p].pc.Fill?
    ensures Inv(StepFill(s, p))
  {
    var n, s' := s.procs[p].node, StepFill(s, p);
    assert ProcOk(s, p);
    FillOwn(s, p);
    FillRest(s, p);
    forall m | 0 <= m < |s'.slots| ensures SlotOk(s', m) { FillSlot(s, p, m); }
    forall j | 0 <= j < |s'.haz| ensures HazOk(s', j) { assert HazOk(s, j); }
    forall q | 0 <= q < |s'.procs| ensures ProcOk(s', q) { if q != p { UnusedKeeps(s, s', q, n); } }
  }

  lemma FillRest(s: State, p: nat)
    requires Inv(s) && p < |s.procs| && s.procs[p].pc.Fill?
    ensures ChainOk(StepFill(s, p)) && TailOk(StepFill(s, p)) && ConsOk(StepFill(s, p))
  {
    assert ProcOk(s, p);
    TailElsewhere(s, StepFill(s, p), s.procs[p].node);
    assert s.procs[p].node !in s.chain && s.procs[p].node !in Garbage(s);
  }

  lemma FillSlot(s: State, p: nat, m: nat)
    requires Inv(s) && p < |s.procs| && s.procs[p].pc.Fill? && m < |s.slots|
    ensures SlotOk(StepFill(s, p), m)
  {
    assert SlotOk(s, m) && ProcOk(s, p);
  }

  lemma FillOwn(s: State, p: nat)
    requires Inv(s) && p < |s.procs| && s.procs[p].pc.Fill?
    ensures ProcOk(StepFill(s, p), p)
  {
    var r, s' := s.procs[p], StepFill(s, p);
    var c := r.pc.c;
    assert ProcOk(s, p);
    var d, d' := DataOf(s, r.node), DataOf(s', r.node);
    if c < s.width {
      assert d'[..c + 1] == d[..c] + [r.msg[c]] == r.msg[..c + 1];
    } else {
      assert d[..c] == d && r.msg[..c] == r.msg;
    }
  }

  // ----- Line 153

  predicate Links(s: State, p: nat)
    requires p < |s.procs|
  {
    s.procs[p].pc.Link? && NextOf(s, s.procs[p].t) == UNDEFINED_NODE
  }

  lemma LinkFacts(s: State, p: nat)
    requires Inv(s) && p < |s.procs| && Links(s, p)
    ensures s.procs[p].t == Last(s) == s.tail
    ensures s.procs[p].node !in s.chain && StatusOf(s, s.procs[p].node) == Claimed(p)
  {
    var n := s.procs[p].t;
    assert ProcOk(s, p) && HazOk(s, p);
    assert SlotOk(s, n);
    var i :| 0 <= i < |s.chain| && s.chain[i] == n;
    forall k | 0 <= k < |s.chain| - 1 ensures NextOf(s, s.chain[k]) != UNDEFINED_NODE {
      assert InRange(s, s.chain[k + 1]);
    }
  }

  lemma KeepLink(s: State, p: nat)
    requires Inv(s) && p < |s.procs| && s.procs[p].pc.Link?
    ensures Inv(StepLink(s, p))
  {
    var s' := StepLink(s, p);
    assert ProcOk(s, p);
    if Links(s, p) {
      LinkFacts(s, p);
      LinkTail(s, p);
      forall m | 0 <= m < |s'.slots| ensures SlotOk(s', m) { assert SlotOk(s, m); }
      forall j | 0 <= j < |s'.haz| ensures HazOk(s', j) { assert HazOk(s, j); }
      forall q | 0 <= q < |s'.procs| ensures ProcOk(s', q) { LinkProc(s, p, q); }
    } else {
      LocalKeeps(s, s', p);
    }
  }

  lemma LinkTail(s: State, p: nat)
    requires Inv(s) && p < |s.procs| && Links(s, p)
    ensures ChainOk(StepLink(s, p)) && TailOk(StepLink(s, p)) && ConsOk(StepLink(s, p))
  {
    var s' := StepLink(s, p);
    LinkFacts(s, p);
    assert ProcOk(s, p);
    assert s'.procs[p].pc.SwingTail? && s'.procs[p].t == s'.tail;
  }

  lemma LinkProc(s: State, p: nat, q: nat)
    requires Inv(s) && p < |s.procs| && Links(s, p) && q < |s.procs|
    ensures ProcOk(StepLink(s, p), q)
  {
    LinkFacts(s, p);
    assert ProcOk(s, q) && HazOk(s, q);
  }

  // ----- Consumer steps that change only its locals

  lemma ConsumerKeeps(s: State, s': State)
    requires Inv(s) && s' == s.(cons := s'.cons)
    requires Garbage(s') == Garbage(s) && !s.cons.pc.Release?
    requires ConsOk(s')
    requires s'.cons.pc.Scan? && s'.cons.todo != [] ==>
               forall j :: 0 <= j < |s.haz| && s.valid[j] && s.haz[j] == s'.cons.todo[0] ==> s'.cons.pc.k <= j
    ensures Inv(s')
  {
    forall n | 0 <= n < |s'.slots| ensures SlotOk(s', n) { assert SlotOk(s, n); }
    forall j | 0 <= j < |s'.haz| ensures HazOk(s', j) { assert HazOk(s, j); }
    forall q | 0 <= q < |s'.procs| ensures ProcOk(s', q) { assert ProcOk(s, q); }
    if s.tail != Last(s) {
      var q :| 0 <= q < |s.procs| && s.procs[q].pc.SwingTail? && s.procs[q].t == s.tail;
      assert s'.procs[q] == s.procs[q];
    }
  }

  lemma NextOfHead(s: State)
    requires ChainOk(s)
    ensures NextOf(s, s.head) == if |s.chain| == 1 then UNDEFINED_NODE else s.chain[1]
  {
    assert s.slots[s.chain[|s.chain| - 1]].next == UNDEFINED_NODE;
  }

  lemma KeepReadHead(s: State)
    requires Inv(s) && (s.cons.pc.ReadHead? || s.cons.pc.ReadHeadNext?)
    ensures Inv(Consume(s))
  {
    NextOfHead(s);
    assert |s.chain| >= 2 ==> InRange(s, s.chain[1]) && SlotOk(s, s.chain[1]);
    ConsumerKeeps(s, Consume(s));
  }

  lemma ScanAhead(s: State)
    requires Inv(s) && s.cons.pc.Scan? && s.cons.todo != []
    ensures StatusOf(s, s.cons.todo[0]) == Retired
    ensures forall j :: 0 <= j < |s.haz| && s.valid[j] && s.haz[j] == s.cons.todo[0] ==> s.cons.pc.k <= j
  {
    assert Garbage(s)[|s.cons.rlist|] == s.cons.todo[0];
    forall j | 0 <= j < |s.haz| && s.valid[j] && s.haz[j] == s.cons.todo[0] ensures s.cons.pc.k <= j {
      assert HazOk(s, j);
    }
  }

  lemma KeepScanRead(s: State)
    requires Inv(s) && s.cons.pc.Scan? && (s.cons.todo == [] || s.cons.pc.k < |s.haz|)
    ensures Inv(StepScan(s))
  {
    var s' := StepScan(s);
    assert Garbage(s') == Garbage(s);
    if s.cons.todo != [] {
      ScanAhead(s);
    }
    ConsumerKeeps(s, s');
  }

  // ----- Freeing a slot

  /** Line 190, after every index was read: nobody protects the slot, so tail does not name it either. */
  lemma ClearFacts(s: State)
    requires Inv(s) && s.cons.pc.Scan? && s.cons.todo != [] && s.cons.pc.k >= |s.haz|
    ensures var n := s.cons.todo[0];
      && StatusOf(s, n) == Retired && n !in s.chain && n != s.tail
      && forall j :: 0 <= j < |s.haz| && s.valid[j] ==> s.haz[j] != n
  {
    ScanAhead(s);
    var n := s.cons.todo[0];
    assert SlotOk(s, n);
    forall q | 0 <= q < |s.procs| && s.procs[q].pc.SwingTail? ensures s.valid[q] && s.haz[q] == s.procs[q].t {
      assert ProcOk(s, q);
    }
  }

  lemma KeepClear(s: State)
    requires Inv(s) && s.cons.pc.Scan? && s.cons.todo != [] && s.cons.pc.k >= |s.haz|
    ensures Inv(StepScan(s))
  {
    var n, s' := s.cons.todo[0], StepScan(s);
    ClearFacts(s);
    ClearRest(s);
    forall m | 0 <= m < |s'.slots| ensures SlotOk(s', m) { ClearSlot(s, m); }
    forall j | 0 <= j < |s'.haz| ensures HazOk(s', j) { assert HazOk(s, j); }
    forall q | 0 <= q < |s'.procs| ensures ProcOk(s', q) { ClearProc(s, q); }
  }

  lemma ClearRest(s: State)
    requires Inv(s) && s.cons.pc.Scan? && s.cons.todo != [] && s.cons.pc.k >= |s.haz|
    ensures ChainOk(StepScan(s)) && TailOk(StepScan(s)) && ConsOk(StepScan(s))
  {
    var s' := StepScan(s);
    ClearFacts(s);
    var g, g' := Garbage(s), Garbage(s');
    assert forall i :: 0 <= i < |g'| ==> g'[i] == g[if i < |s.cons.rlist| then i else i + 1];
    assert g[|s.cons.rlist|] == s.cons.todo[0];
    if s.tail != Last(s) {
      var q :| 0 <= q < |s.procs| && s.procs[q].pc.SwingTail? && s.procs[q].t == s.tail;
      assert s'.procs[q] == s.procs[q];
    }
  }

  lemma ClearSlot(s: State, m: nat)
    requires Inv(s) && s.cons.pc.Scan? && s.cons.todo != [] && s.cons.pc.k >= |s.haz| && m < |s.slots|
    ensures SlotOk(StepScan(s), m)
  {
    var s' := StepScan(s);
    ClearFacts(s);
    assert SlotOk(s, m);
    if s.slots[m].st == Retired && m != s.cons.todo[0] {
      var i :| 0 <= i < |Garbage(s)| && Garbage(s)[i] == m;
      assert Garbage(s')[if i < |s.cons.rlist| then i else i - 1] == m;
    }
  }

  lemma ClearProc(s: State, q: nat)
    requires Inv(s) && s.cons.pc.Scan? && s.cons.todo != [] && s.cons.pc.k >= |s.haz| && q < |s.procs|
    ensures ProcOk(StepScan(s), q)
  {
    ClearFacts(s);
    assert ProcOk(s, q);
  }

  lemma KeepRelease(s: State)
    requires Inv(s) && s.cons.pc.Release?
    ensures Inv(StepRelease(s))
  {
    var n, s' := s.cons.victim, StepRelease(s);
    assert SlotOk(s, n);
    assert n !in s.chain && Garbage(s') == Garbage(s);
    TailElsewhere(s, s', n);
    forall m | 0 <= m < |s'.slots| ensures SlotOk(s', m) { assert SlotOk(s, m); }
    forall j | 0 <= j < |s'.haz| ensures HazOk(s', j) { assert HazOk(s, j); }
    forall q | 0 <= q < |s'.procs| ensures ProcOk(s', q) { UnusedKeeps(s, s', q, n); }
  }

  // ----- Lines 213-216

  lemma KeepCopyWord(s: State)
    requires Inv(s) && s.cons.pc.CopyOut? && s.cons.pc.c < s.width
    ensures Inv(StepCopyOut(s))
  {
    var d, c := DataOf(s, s.cons.hNext), s.cons.pc.c;
    assert d[..c + 1] == d[..c] + [d[c]];
    ConsumerKeeps(s, StepCopyOut(s));
  }

  lemma KeepMoveHead(s: State)
    requires Inv(s) && s.cons.pc.CopyOut? && s.cons.pc.c >= s.width
    ensures Inv(StepCopyOut(s))
  {
    var s' := StepCopyOut(s);
    MoveHeadChain(s);
    MoveHeadTail(s);
    MoveHeadCons(s);
    forall m | 0 <= m < |s'.slots| ensures SlotOk(s', m) { MoveHeadSlot(s, m); }
    forall j | 0 <= j < |s'.haz| ensures HazOk(s', j) { assert HazOk(s, j); }
    forall q | 0 <= q < |s'.procs| ensures ProcOk(s', q) { MoveHeadProc(s, q); }
  }

  lemma MoveHeadChain(s: State)
    requires Inv(s) && s.cons.pc.CopyOut? && s.cons.pc.c >= s.width
    ensures ChainOk(StepCopyOut(s))
  {
  }

  /** head may pass tail here: then tail stays protected by the producer that linked the last node. */
  lemma MoveHeadTail(s: State)
    requires Inv(s) && s.cons.pc.CopyOut? && s.cons.pc.c >= s.width
    ensures TailOk(StepCopyOut(s))
  {
    var s' := StepCopyOut(s);
    if s.tail != Last(s) {
      var q :| 0 <= q < |s.procs| && s.procs[q].pc.SwingTail? && s.procs[q].t == s.tail;
      assert s'.procs[q] == s.procs[q];
    }
  }

  lemma MoveHeadCons(s: State)
    requires Shape(s) && ChainOk(s) && ConsOk(s) && s.cons.pc.CopyOut? && s.cons.pc.c >= s.width
    ensures ConsOk(StepCopyOut(s))
  {
    var g, s' := Garbage(s), StepCopyOut(s);
    assert Garbage(s') == g + [s.cons.h];
    assert StatusOf(s, s.head) == Linked;
    forall i | 0 <= i < |g| ensures g[i] != s.cons.h && StatusOf(s', g[i]) == Retired {
      assert StatusOf(s, g[i]) == Retired;
    }
  }

  lemma MoveHeadSlot(s: State, m: nat)
    requires Inv(s) && s.cons.pc.CopyOut? && s.cons.pc.c >= s.width && m < |s.slots|
    ensures SlotOk(StepCopyOut(s), m)
  {
    assert SlotOk(s, m);
    assert Garbage(StepCopyOut(s)) == Garbage(s) + [s.cons.h];
    assert m in s.chain && m != s.head ==> m in s.chain[1..];
    NextOfHead(s);
    assert InRange(s, s.chain[1]);
  }

  lemma MoveHeadProc(s: State, q: nat)
    requires Inv(s) && s.cons.pc.CopyOut? && s.cons.pc.c >= s.width && q < |s.procs|
    ensures ProcOk(StepCopyOut(s), q)
  {
    assert ProcOk(s, q);
    assert StatusOf(s, s.head) == Linked;
  }

  // ----- Every step but a late check keeps the invariant

  lemma ProduceKeeps(s: State, p: nat, msg: Msg)
    requires Inv(s) && p < |s.procs| && |msg| == s.width && !LateCheck(s, ByProducer(p, msg))
    ensures Inv(Produce(s, p, msg))
  {
    match s.procs[p].pc
    case Idle => KeepBegin(s, p, msg);
    case Claim(_) => KeepClaim(s, p);
    case Fill(_) => KeepFill(s, p);
    case ReadTail => KeepReadTail(s, p, msg);
    case PublishTail => KeepPublishTail(s, p);
    case CheckTail => KeepCheckTail(s, p, msg);
    case ReadTailNext => KeepReadTailNext(s, p);
    case HelpTail => KeepHelpTail(s, p);
    case Link => KeepLink(s, p);
    case SwingTail => KeepSwingTail(s, p);
  }

  lemma ConsumeKeeps(s: State)
    requires Inv(s)
    ensures Inv(Consume(s))
  {
    match s.cons.pc
    case ReadHead => KeepReadHead(s);
    case ReadHeadNext => KeepReadHead(s);
    case CopyOut(c) => if c < s.width { KeepCopyWord(s); } else { KeepMoveHead(s); }
    case Scan(k) => if s.cons.todo == [] || k < |s.haz| { KeepScanRead(s); } else { KeepClear(s); }
    case Release => KeepRelease(s);
  }

  lemma StepKeepsInv(s: State, a: Act)
    requires Inv(s) && ActOk(a, s.width, |s.procs|) && !LateCheck(s, a)
    ensures Inv(Step(s, a))
  {
    match a
    case ByProducer(p, msg) => ProduceKeeps(s, p, msg);
    case ByConsumer => ConsumeKeeps(s);
  }

  // ----- Runs

  /** A run in which no check is late keeps the invariant, with the scan split into single reads. */
  ghost predicate NoLateCheck(s: State, acts: seq<Act>)
    requires Shape(s) && ScheduleOk(acts, s.width, |s.procs|)
  {
    forall i :: 0 <= i < |acts| ==> !LateCheck(RunFrom(s, acts[..i]), acts[i])
  }

  lemma {:induction false} RunInv(s: State, acts: seq<Act>)
    requires Inv(s) && ScheduleOk(acts, s.width, |s.procs|) && NoLateCheck(s, acts)
    ensures Inv(RunFrom(s, acts))
  {
    if acts != [] {
      var a, before := acts[|acts| - 1], acts[..|acts| - 1];
      assert ActOk(a, s.width, |s.procs|);
      assert forall i :: 0 <= i < |before| ==> before[..i] == acts[..i];
      RunInv(s, before);
      StepKeepsInv(RunFrom(s, before), a);
    }
  }

  /** Between the steps of a run with uninterrupted scans, a scan has read no index or all of them. */
  predicate ScanAtEnds(s: State) {
    s.cons.pc.Scan? && s.cons.todo != [] ==> s.cons.pc.k == 0 || s.cons.pc.k == |s.haz|
  }

  /** Then no check is late: a slot whose scan found no index is not named by tail any more. */
  lemma NeverLate(s: State, a: Act)
    requires Inv(s) && ScanAtEnds(s)
    ensures !LateCheck(s, a)
  {
    if s.cons.pc.Scan? && s.cons.todo != [] && s.cons.pc.k >= |s.haz| {
      ClearFacts(s);
    }
  }

  lemma {:induction false} FinishScanKeeps(s: State)
    requires Inv(s) && s.cons.pc.Scan? && s.cons.todo != []
    ensures Inv(FinishScan(s)) && ScanAtEnds(FinishScan(s))
    decreases |s.haz| - s.cons.pc.k
  {
    if s.cons.pc.k < |s.haz| {
      var s1 := StepScan(s);
      KeepScanRead(s);
      if s.haz[s.cons.pc.k] != s.cons.todo[0] {
        FinishScanKeeps(s1);
      }
    }
  }

  lemma AtomicScanStepKeeps(s: State, a: Act)
    requires Inv(s) && ScanAtEnds(s) && ActOk(a, s.width, |s.procs|)
    ensures Inv(AtomicScanStep(s, a)) && ScanAtEnds(AtomicScanStep(s, a))
  {
    if a.ByConsumer? && s.cons.pc.Scan? && s.cons.todo != [] && s.cons.pc.k < |s.haz| {
      FinishScanKeeps(s);
    } else {
      NeverLate(s, a);
      StepKeepsInv(s, a);
      ScanAtEndsKeeps(s, a);
    }
  }

  lemma ScanAtEndsKeeps(s: State, a: Act)
    requires Shape(s) && ScanAtEnds(s) && ActOk(a, s.width, |s.procs|)
    requires !(a.ByConsumer? && s.cons.pc.Scan? && s.cons.todo != [] && 0 <= s.cons.pc.k < |s.haz|)
    ensures ScanAtEnds(Step(s, a))
  {
  }

  /** The invariant holds in every run in which the scan for one slot is one step. */
  lemma {:induction false} AtomicScanRunInv(width: nat, numSlots: nat, maxUser: nat, acts: seq<Act>)
    requires numSlots >= 1 && ScheduleOk(acts, width, maxUser)
    ensures Inv(AtomicScanRun(width, numSlots, maxUser, acts))
    ensures ScanAtEnds(AtomicScanRun(width, numSlots, maxUser, acts))
  {
    if acts == [] {
      InitInv(width, numSlots, maxUser);
    } else {
      var a, before := acts[|acts| - 1], acts[..|acts| - 1];
      assert ActOk(a, width, maxUser);
      AtomicScanRunInv(width, numSlots, maxUser, before);
      AtomicScanStepKeeps(AtomicScanRun(width, numSlots, maxUser, before), a);
    }
  }
}
