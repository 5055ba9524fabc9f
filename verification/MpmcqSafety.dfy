/**
 Safety of the queue of Mpmcq.dfy in every interleaving: the shape of the list, the owner of every
 slot, what a validated shared index protects, and what each process knows at each line.
 */
module MpmcqSafety {
  import opened Common
  import opened Counting
  import opened Mpmcq

  // ----- The invariant

  /** The slots from head to the last node, and where tail is. */
  ghost predicate ChainOk(s: State) {
    var c := s.chain;
    && |c| >= 1
    && s.head == c[0]
    && Distinct(c)
    && (forall i :: 0 <= i < |c| ==> InRange(s, c[i]) && s.slots[c[i]].st == Linked)
    && (forall i :: 0 <= i < |c| - 1 ==> s.slots[c[i]].next == c[i + 1])
    && s.slots[c[|c| - 1]].next == UNDEFINED_NODE
    && (s.tail == c[|c| - 1] || (|c| >= 2 && s.tail == c[|c| - 2]))
  }

  function Last(s: State): int
    requires |s.chain| >= 1
  {
    s.chain[|s.chain| - 1]
  }

  /** The slots in RList and TmpList of a process. */
  function Garbage(r: Proc): seq<int> {
    r.rlist + r.todo
  }

  predicate HasNode(pc: PC) {
    pc.Fill? || pc.ReadTail? || pc.PublishTail? || pc.CheckTail? || pc.ReadTailNext? || pc.HelpTail? || pc.Link?
  }

  predicate HoldsTail(pc: PC) {
    pc.ReadTailNext? || pc.HelpTail? || pc.Link? || pc.SwingTail?
  }

  predicate HoldsHead(pc: PC) {
    pc.ReadTailToo? || pc.ReadHeadNext? || pc.PublishNext? || pc.RecheckHead? || pc.FixTail? || pc.MoveHead?
  }

  predicate KnowsTail(pc: PC) {
    pc.ReadHeadNext? || pc.PublishNext? || pc.RecheckHead? || pc.FixTail? || pc.MoveHead?
  }

  predicate HoldsNext(pc: PC) {
    pc.FixTail? || pc.MoveHead? || pc.CopyOut?
  }

  /** Each slot has exactly one use, and the owner its status names really owns it. */
  ghost predicate SlotOk(s: State, n: int)
    requires InRange(s, n)
  {
    var slot := s.slots[n];
    && |slot.data| == s.width
    && (slot.used <==> slot.st != Free)
    && match slot.st
       case Free => true
       case Claimed(p) => p < |s.procs| && HasNode(s.procs[p].pc) && s.procs[p].node == n
       case Linked => n in s.chain
       case Popped(p) => slot.next != UNDEFINED_NODE && p < |s.procs| && s.procs[p].pc.CopyOut? && s.procs[p].h == n
       case Retired(p) => slot.next != UNDEFINED_NODE && p < |s.procs| && n in Garbage(s.procs[p])
       case Clearing(p) => p < |s.procs| && s.procs[p].pc.Release? && s.procs[p].victim == n
  }

  /** How far the scan for n of its owner has got: indexes below it have been read. */
  predicate Scanning(r: Proc, n: int) {
    r.pc.Scan? && r.todo != [] && r.todo[0] == n
  }

  /** A validated index names a slot that is neither free nor being freed, and no scan for it has passed. */
  ghost predicate HazOk(s: State, j: int)
    requires Shape(s) && 0 <= j < |s.haz|
  {
    s.valid[j] ==>
      && InRange(s, s.haz[j])
      && match s.slots[s.haz[j]].st
         case Linked => true
         case Popped(_) => true
         case Retired(q) => q < |s.procs| && (Scanning(s.procs[q], s.haz[j]) ==> s.procs[q].pc.k <= j)
         case _ => false
  }

  ghost predicate GarbageOk(s: State, p: nat)
    requires p < |s.procs|
  {
    var g := Garbage(s.procs[p]);
    && Distinct(g)
    && (forall i :: 0 <= i < |g| ==> StatusOf(s, g[i]) == Retired(p))
  }

  ghost predicate NodeOk(s: State, p: nat)
    requires p < |s.procs|
  {
    var r := s.procs[p];
    HasNode(r.pc) ==>
      && StatusOf(s, r.node) == Claimed(p)
      && |r.msg| == s.width
      && if r.pc.Fill?
         then 0 <= r.pc.c <= s.width && |DataOf(s, r.node)| == s.width && DataOf(s, r.node)[..r.pc.c] == r.msg[..r.pc.c]
         else DataOf(s, r.node) == r.msg && NextOf(s, r.node) == UNDEFINED_NODE
  }

  /** Lines 178-202. */
  ghost predicate EnqueueOk(s: State, p: nat)
    requires Shape(s) && p < |s.procs|
  {
    var r := s.procs[p];
    && (r.pc.CheckTail? || HoldsTail(r.pc) ==> s.haz[2 * p] == r.t)
    && (HoldsTail(r.pc) ==> s.valid[2 * p] && (|s.chain| >= 1 && r.t == Last(s) ==> s.tail == r.t))
    && (r.pc.HelpTail? ==> NextOf(s, r.t) == r.tNext != UNDEFINED_NODE)
    && (r.pc.SwingTail? ==> NextOf(s, r.t) == r.node != UNDEFINED_NODE)
  }

  /** Lines 226-263. */
  ghost predicate DequeueOk(s: State, p: nat)
    requires Shape(s) && p < |s.procs|
  {
    var r := s.procs[p];
    && (r.pc.CheckHead? || HoldsHead(r.pc) ==> s.haz[2 * p] == r.h)
    && (HoldsHead(r.pc) ==> s.valid[2 * p] && (StatusOf(s, r.h) == Linked ==> r.h == s.head))
    && (KnowsTail(r.pc) && r.t != r.h && s.head == r.h ==> s.tail != r.h)
    && (r.pc.PublishNext? || r.pc.RecheckHead? ==> r.hNext == UNDEFINED_NODE || r.hNext == NextOf(s, r.h))
    && (r.pc.RecheckHead? || HoldsNext(r.pc) ==> s.haz[2 * p + 1] == r.hNext)
    && (HoldsNext(r.pc) ==> s.valid[2 * p + 1])
    && (r.pc.FixTail? || r.pc.MoveHead? ==> r.hNext == NextOf(s, r.h) != UNDEFINED_NODE)
    && (r.pc.FixTail? ==> r.t == r.h)
    && (r.pc.MoveHead? ==> r.t != r.h)
  }

  ghost predicate CopyOk(s: State, p: nat)
    requires p < |s.procs|
  {
    var r := s.procs[p];
    r.pc.CopyOut? ==>
      && StatusOf(s, r.h) == Popped(p)
      && 0 <= r.pc.c <= s.width == |r.taken|
      && DataOf(s, r.hNext) == r.taken
      && r.out == r.taken[..r.pc.c]
  }

  ghost predicate ProcOk(s: State, p: nat)
    requires Shape(s) && p < |s.procs|
  {
    var r := s.procs[p];
    && 0 <= r.cursor < |s.slots|
    && (r.pc.Claim? ==> 0 <= r.pc.cnt <= |s.slots| && r.todo == [])
    && (r.pc.Scan? ==> 0 <= r.pc.k <= |s.haz|)
    && (r.pc.Scan? && r.pc.caller.FromEnqueue? ==> |r.msg| == s.width)
    && (r.pc.Release? ==> StatusOf(s, r.victim) == Clearing(p) && (r.pc.caller.FromEnqueue? ==> |r.msg| == s.width))
    && (r.pc.Claim? ==> |r.msg| == s.width)
    && (!r.pc.Scan? && !r.pc.Release? ==> r.todo == [])
    && GarbageOk(s, p)
    && NodeOk(s, p)
    && EnqueueOk(s, p)
    && DequeueOk(s, p)
    && CopyOk(s, p)
  }

  ghost predicate Inv(s: State) {
    && Shape(s)
    && ChainOk(s)
    && (forall n :: 0 <= n < |s.slots| ==> SlotOk(s, n))
    && (forall j :: 0 <= j < |s.haz| ==> HazOk(s, j))
    && (forall p :: 0 <= p < |s.procs| ==> ProcOk(s, p))
  }

  // ----- Init

  lemma InitInv(width: nat, numSlots: nat, maxUser: nat)
    requires numSlots >= 1
    ensures Inv(Init(width, numSlots, maxUser))
  {
  }


  // ----- Steps that change only what belongs to process p: its locals and its two shared indexes

  predicate SameUse(r: Proc, r': Proc) {
    && Garbage(r') == Garbage(r)
    && (HasNode(r.pc) ==> HasNode(r'.pc) && r'.node == r.node)
    && (r.pc.CopyOut? ==> r'.pc.CopyOut? && r'.h == r.h)
    && (r.pc.Release? ==> r'.pc.Release? && r'.victim == r.victim)
  }

  predicate Private(s: State, s': State, p: nat) {
    && |s'.procs| == |s.procs| && |s'.haz| == |s.haz| && |s'.valid| == |s.valid|
    && p < |s.procs|
    && s' == s.(procs := s'.procs, haz := s'.haz, valid := s'.valid)
    && (forall q :: 0 <= q < |s.procs| && q != p ==> s'.procs[q] == s.procs[q])
    && (forall j :: 0 <= j < |s.haz| && j != 2 * p && j != 2 * p + 1 && j < |s.valid| ==>
          s'.haz[j] == s.haz[j] && s'.valid[j] == s.valid[j])
  }

  lemma PrivateKeeps(s: State, s': State, p: nat)
    requires Inv(s) && Private(s, s', p)
    requires SameUse(s.procs[p], s'.procs[p])
    requires ProcOk(s', p)
    requires HazOk(s', 2 * p) && HazOk(s', 2 * p + 1)
    requires forall j :: 0 <= j < |s.haz| && s'.valid[j] && Scanning(s'.procs[p], s'.haz[j]) ==> s'.procs[p].pc.k <= j
    ensures Inv(s')
  {
    forall n | 0 <= n < |s'.slots| ensures SlotOk(s', n) { assert SlotOk(s, n); }
    forall j | 0 <= j < |s'.haz| ensures HazOk(s', j) { if j != 2 * p && j != 2 * p + 1 { assert HazOk(s, j); } }
    forall q | 0 <= q < |s'.procs| ensures ProcOk(s', q) { if q != p { PrivateOther(s, s', p, q); } }
  }

  /** The same when the shared indexes are untouched too: a read, a failed check, or a failed CAS. */
  lemma LocalKeeps(s: State, s': State, p: nat)
    requires Inv(s) && p < |s.procs| && |s'.procs| == |s.procs|
    requires s' == s.(procs := s.procs[p := s'.procs[p]])
    requires SameUse(s.procs[p], s'.procs[p])
    requires ProcOk(s', p)
    requires s'.procs[p].pc.Scan? && s'.procs[p].todo != [] ==>
               forall j :: 0 <= j < |s.haz| && s.valid[j] && s.haz[j] == s'.procs[p].todo[0] ==> s'.procs[p].pc.k <= j
    ensures Inv(s')
  {
    forall j | 0 <= j < |s'.haz| ensures HazOk(s', j) { assert HazOk(s, j); }
    PrivateKeeps(s, s', p);
  }

  lemma PrivateOther(s: State, s': State, p: nat, q: nat)
    requires Inv(s) && Private(s, s', p) && q < |s.procs| && q != p
    ensures ProcOk(s', q)
  {
    assert ProcOk(s, q);
  }

  lemma KeepReadTail(s: State, p: nat)
    requires Inv(s) && p < |s.procs| && s.procs[p].pc.ReadTail?
    ensures Inv(StepReadTail(s, p))
  {
    var s' := StepReadTail(s, p);
    assert ProcOk(s, p);
    LocalKeeps(s, s', p);
  }

  lemma KeepPublishTail(s: State, p: nat)
    requires Inv(s) && p < |s.procs| && s.procs[p].pc.PublishTail?
    ensures Inv(StepPublishTail(s, p))
  {
    var s' := StepPublishTail(s, p);
    assert ProcOk(s, p) && HazOk(s, 2 * p) && HazOk(s, 2 * p + 1);
    PrivateKeeps(s, s', p);
  }

  lemma KeepCheckTail(s: State, p: nat)
    requires Inv(s) && p < |s.procs| && s.procs[p].pc.CheckTail?
    ensures Inv(StepCheckTail(s, p))
  {
    var s' := StepCheckTail(s, p);
    assert ProcOk(s, p) && HazOk(s, 2 * p) && HazOk(s, 2 * p + 1);
    assert ProcOk(s', p);
    if s.tail != s.procs[p].t {
      LocalKeeps(s, s', p);
    } else {
      PrivateKeeps(s, s', p);
    }
  }

  lemma KeepReadTailNext(s: State, p: nat)
    requires Inv(s) && p < |s.procs| && s.procs[p].pc.ReadTailNext?
    ensures Inv(StepReadTailNext(s, p))
  {
    var s' := StepReadTailNext(s, p);
    assert ProcOk(s, p);
    LocalKeeps(s, s', p);
  }

  lemma KeepReadHead(s: State, p: nat)
    requires Inv(s) && p < |s.procs| && s.procs[p].pc.ReadHead?
    ensures Inv(StepReadHead(s, p))
  {
    var s' := StepReadHead(s, p);
    assert ProcOk(s, p);
    LocalKeeps(s, s', p);
  }

  lemma KeepPublishHead(s: State, p: nat)
    requires Inv(s) && p < |s.procs| && s.procs[p].pc.PublishHead?
    ensures Inv(StepPublishHead(s, p))
  {
    var s' := StepPublishHead(s, p);
    assert ProcOk(s, p) && HazOk(s, 2 * p) && HazOk(s, 2 * p + 1);
    PrivateKeeps(s, s', p);
  }

  lemma KeepCheckHead(s: State, p: nat)
    requires Inv(s) && p < |s.procs| && s.procs[p].pc.CheckHead?
    ensures Inv(StepCheckHead(s, p))
  {
    var s' := StepCheckHead(s, p);
    assert ProcOk(s, p) && HazOk(s, 2 * p) && HazOk(s, 2 * p + 1);
    assert ProcOk(s', p);
    if s.head != s.procs[p].h {
      LocalKeeps(s, s', p);
    } else {
      PrivateKeeps(s, s', p);
    }
  }

  lemma KeepReadTailToo(s: State, p: nat)
    requires Inv(s) && p < |s.procs| && s.procs[p].pc.ReadTailToo?
    ensures Inv(StepReadTailToo(s, p))
  {
    var s' := StepReadTailToo(s, p);
    assert ProcOk(s, p);
    LocalKeeps(s, s', p);
  }

  lemma KeepReadHeadNext(s: State, p: nat)
    requires Inv(s) && p < |s.procs| && s.procs[p].pc.ReadHeadNext?
    ensures Inv(StepReadHeadNext(s, p))
  {
    var s' := StepReadHeadNext(s, p);
    assert ProcOk(s, p);
    LocalKeeps(s, s', p);
  }

  lemma KeepPublishNext(s: State, p: nat)
    requires Inv(s) && p < |s.procs| && s.procs[p].pc.PublishNext?
    ensures Inv(StepPublishNext(s, p))
  {
    var s' := StepPublishNext(s, p);
    assert ProcOk(s, p) && HazOk(s, 2 * p) && HazOk(s, 2 * p + 1);
    PrivateKeeps(s, s', p);
  }

  /** While head names h, a defined next of h is the second slot of the list. */
  lemma NextOfHead(s: State)
    requires ChainOk(s)
    ensures NextOf(s, s.head) == if |s.chain| == 1 then UNDEFINED_NODE else s.chain[1]
  {
    assert s.slots[s.chain[|s.chain| - 1]].next == UNDEFINED_NODE;
  }

  lemma KeepRecheckHead(s: State, p: nat)
    requires Inv(s) && p < |s.procs| && s.procs[p].pc.RecheckHead?
    ensures Inv(StepRecheckHead(s, p))
  {
    var r, s' := s.procs[p], StepRecheckHead(s, p);
    assert ProcOk(s, p);
    if s.head == r.h && r.hNext != UNDEFINED_NODE {
      ValidatedNext(s, p);
    } else {
      LocalKeeps(s, s', p);
    }
  }

  lemma ValidatedNext(s: State, p: nat)
    requires Inv(s) && p < |s.procs| && s.procs[p].pc.RecheckHead?
    requires s.head == s.procs[p].h && s.procs[p].hNext != UNDEFINED_NODE
    ensures Inv(StepRecheckHead(s, p))
  {
    var s' := StepRecheckHead(s, p);
    assert ProcOk(s, p) && HazOk(s, 2 * p) && HazOk(s, 2 * p + 1);
    NextOfHead(s);
    assert StatusOf(s, s.chain[1]) == Linked;
    assert HazOk(s', 2 * p + 1);
    assert ProcOk(s', p);
    PrivateKeeps(s, s', p);
  }

  // ----- Steps that move tail

  lemma TailKeeps(s: State, s1: State)
    requires Inv(s)
    requires |s.chain| >= 2 && s.tail == s.chain[|s.chain| - 2]
    requires s1 == s.(tail := Last(s))
    ensures Inv(s1)
  {
    forall n | 0 <= n < |s1.slots| ensures SlotOk(s1, n) { assert SlotOk(s, n); }
    forall j | 0 <= j < |s1.haz| ensures HazOk(s1, j) { assert HazOk(s, j); }
    forall q | 0 <= q < |s1.procs| ensures ProcOk(s1, q) { TailOther(s, s1, q); }
  }

  lemma TailOther(s: State, s1: State, q: nat)
    requires Inv(s) && q < |s.procs|
    requires |s.chain| >= 2 && s.tail == s.chain[|s.chain| - 2]
    requires s1 == s.(tail := Last(s))
    ensures ProcOk(s1, q)
  {
    assert ProcOk(s, q);
  }

  /** A slot that tail names and whose next is defined is the last but one: tail moves to the last. */
  lemma TailBehind(s: State)
    requires ChainOk(s) && NextOf(s, s.tail) != UNDEFINED_NODE
    ensures |s.chain| >= 2 && s.tail == s.chain[|s.chain| - 2] && NextOf(s, s.tail) == Last(s)
  {
  }

  lemma KeepHelpTail(s: State, p: nat)
    requires Inv(s) && p < |s.procs| && s.procs[p].pc.HelpTail?
    ensures Inv(StepHelpTail(s, p))
  {
    var r := s.procs[p];
    var s1 := if s.tail == r.t then s.(tail := r.tNext) else s;
    assert ProcOk(s, p);
    if s.tail == r.t {
      TailBehind(s);
      TailKeeps(s, s1);
    }
    var s' := StepHelpTail(s, p);
    assert ProcOk(s1, p);
    assert ProcOk(s', p);
    LocalKeeps(s1, s', p);
  }

  lemma KeepSwingTail(s: State, p: nat)
    requires Inv(s) && p < |s.procs| && s.procs[p].pc.SwingTail?
    ensures Inv(StepSwingTail(s, p))
  {
    var r := s.procs[p];
    var s1 := if s.tail == r.t then s.(tail := r.node) else s;
    assert ProcOk(s, p);
    if s.tail == r.t {
      TailBehind(s);
      TailKeeps(s, s1);
    }
    var s' := StepSwingTail(s, p);
    assert ProcOk(s1, p);
    assert ProcOk(s', p);
    LocalKeeps(s1, s', p);
  }

  lemma KeepFixTail(s: State, p: nat)
    requires Inv(s) && p < |s.procs| && s.procs[p].pc.FixTail?
    ensures Inv(StepFixTail(s, p))
  {
    var r := s.procs[p];
    var s1 := if s.tail == r.t then s.(tail := r.hNext) else s;
    assert ProcOk(s, p);
    if s.tail == r.t {
      TailBehind(s);
      TailKeeps(s, s1);
    }
    var s' := StepFixTail(s, p);
    assert ProcOk(s1, p);
    assert ProcOk(s', p);
    LocalKeeps(s1, s', p);
  }

  // ----- TryRetire and getFreeSlot

  lemma KeepBegin(s: State, p: nat, op: Op)
    requires Inv(s) && p < |s.procs| && s.procs[p].pc.Idle?
    requires op.Enqueue? ==> |op.msg| == s.width
    ensures Inv(Begin(s, p, op))
  {
    var s' := Begin(s, p, op);
    assert ProcOk(s, p);
    assert Garbage(s'.procs[p]) == Garbage(s.procs[p]);
    assert ProcOk(s', p);
    LocalKeeps(s, s', p);
  }

  /** A slot no index protects and that is not q's own is none of the slots q relies on. */
  lemma NotRelied(s: State, q: nat, n: int)
    requires Inv(s) && q < |s.procs| && InRange(s, n)
    requires var st := s.slots[n].st; st.Free? || ((st.Claimed? || st.Clearing?) && st.owner != q)
    ensures
      var r := s.procs[q];
      && (HasNode(r.pc) ==> r.node != n) && (HoldsTail(r.pc) ==> r.t != n)
      && (HoldsHead(r.pc) ==> r.h != n) && (HoldsNext(r.pc) ==> r.hNext != n)
      && (r.pc.CopyOut? ==> r.h != n) && (r.pc.Release? ==> r.victim != n)
      && n !in Garbage(r) && n !in s.chain
  {
    assert ProcOk(s, q) && HazOk(s, 2 * q) && HazOk(s, 2 * q + 1);
  }

  /** Writing such a slot, in a step of another process, changes nothing q knows. */
  lemma OtherKeeps(s: State, s': State, q: nat, n: int)
    requires Inv(s) && q < |s.procs| && InRange(s, n) && |s'.procs| == |s.procs| && InRange(s', n)
    requires s' == s.(slots := s.slots[n := s'.slots[n]], procs := s'.procs) && s'.procs[q] == s.procs[q]
    requires var r := s.procs[q];
      && (HasNode(r.pc) ==> r.node != n) && (HoldsTail(r.pc) ==> r.t != n)
      && (HoldsHead(r.pc) ==> r.h != n) && (HoldsNext(r.pc) ==> r.hNext != n)
      && (r.pc.CopyOut? ==> r.h != n) && (r.pc.Release? ==> r.victim != n)
      && n !in Garbage(r)
    ensures ProcOk(s', q)
  {
    assert ProcOk(s, q);
    assert forall m :: m != n ==> && StatusOf(s', m) == StatusOf(s, m)
                                  && NextOf(s', m) == NextOf(s, m) && DataOf(s', m) == DataOf(s, m);
  }

  lemma UnusedKeeps(s: State, s': State, q: nat, n: int)
    requires Inv(s) && q < |s.procs| && InRange(s, n) && |s'.procs| == |s.procs| && InRange(s', n)
    requires s' == s.(slots := s.slots[n := s'.slots[n]], procs := s'.procs) && s'.procs[q] == s.procs[q]
    requires var st := s.slots[n].st; st.Free? || ((st.Claimed? || st.Clearing?) && st.owner != q)
    ensures ProcOk(s', q)
  {
    NotRelied(s, q, n);
    OtherKeeps(s, s', q, n);
  }

  /** The heart of the reclamation argument: a validated index that names the slot lies ahead of the scan. */
  lemma ScanAhead(s: State, p: nat)
    requires Inv(s) && p < |s.procs| && s.procs[p].pc.Scan? && s.procs[p].todo != []
    ensures StatusOf(s, s.procs[p].todo[0]) == Retired(p)
    ensures forall j :: 0 <= j < |s.haz| && s.valid[j] && s.haz[j] == s.procs[p].todo[0] ==> s.procs[p].pc.k <= j
  {
    var r := s.procs[p];
    assert ProcOk(s, p);
    assert Garbage(r)[|r.rlist|] == r.todo[0];
    forall j | 0 <= j < |s.haz| && s.valid[j] && s.haz[j] == r.todo[0] ensures r.pc.k <= j {
      assert HazOk(s, j);
    }
  }

  /** TmpList is used up: TryRetire returns. */
  lemma KeepScanDone(s: State, p: nat)
    requires Inv(s) && p < |s.procs| && s.procs[p].pc.Scan? && s.procs[p].todo == []
    ensures Inv(StepScan(s, p))
  {
    var s' := StepScan(s, p);
    assert ProcOk(s, p);
    assert ProcOk(s', p);
    LocalKeeps(s, s', p);
  }

  /** Lines 127-129: some index names the slot, so it stays in RList. */
  lemma KeepScanHit(s: State, p: nat)
    requires Inv(s) && p < |s.procs| && s.procs[p].pc.Scan? && s.procs[p].todo != []
    requires 0 <= s.procs[p].pc.k < |s.haz| && s.haz[s.procs[p].pc.k] == s.procs[p].todo[0]
    ensures Inv(StepScan(s, p))
  {
    var s' := StepScan(s, p);
    assert ProcOk(s, p);
    assert Garbage(s'.procs[p]) == Garbage(s.procs[p]);
    assert ProcOk(s', p);
    LocalKeeps(s, s', p);
  }

  lemma KeepScanMiss(s: State, p: nat)
    requires Inv(s) && p < |s.procs| && s.procs[p].pc.Scan? && s.procs[p].todo != []
    requires 0 <= s.procs[p].pc.k < |s.haz| && s.haz[s.procs[p].pc.k] != s.procs[p].todo[0]
    ensures Inv(StepScan(s, p))
  {
    var s' := StepScan(s, p);
    assert ProcOk(s, p);
    assert ProcOk(s', p);
    ScanAhead(s, p);
    LocalKeeps(s, s', p);
  }

  /** Line 135, after every index was read: no validated index names the slot. */
  lemma KeepClear(s: State, p: nat)
    requires Inv(s) && p < |s.procs| && s.procs[p].pc.Scan? && s.procs[p].todo != []
    requires s.procs[p].pc.k >= |s.haz|
    ensures Inv(StepScan(s, p))
  {
    var s' := StepScan(s, p);
    var n := s.procs[p].todo[0];
    ScanAhead(s, p);
    assert ProcOk(s, p);
    ClearProc(s, p);
    forall m | 0 <= m < |s'.slots| ensures SlotOk(s', m) { ClearSlot(s, p, m); }
    forall j | 0 <= j < |s'.haz| ensures HazOk(s', j) { assert HazOk(s, j); }
    forall q | 0 <= q < |s'.procs| ensures ProcOk(s', q) { if q != p { ClearOther(s, p, q); } }
    assert n !in s.chain;
  }

  lemma ClearSlot(s: State, p: nat, m: nat)
    requires Inv(s) && p < |s.procs| && s.procs[p].pc.Scan? && s.procs[p].todo != []
    requires s.procs[p].pc.k >= |s.haz| && m < |s.slots|
    ensures SlotOk(StepScan(s, p), m)
  {
    var r, s' := s.procs[p], StepScan(s, p);
    ScanAhead(s, p);
    assert SlotOk(s, m);
    assert ProcOk(s, p);
    if s.slots[m].st == Retired(p) && m != r.todo[0] {
      var i :| 0 <= i < |Garbage(r)| && Garbage(r)[i] == m;
      assert Garbage(s'.procs[p])[if i < |r.rlist| then i else i - 1] == m;
    }
  }

  lemma ClearProc(s: State, p: nat)
    requires Inv(s) && p < |s.procs| && s.procs[p].pc.Scan? && s.procs[p].todo != []
    requires s.procs[p].pc.k >= |s.haz|
    ensures ProcOk(StepScan(s, p), p)
  {
    var r, s' := s.procs[p], StepScan(s, p);
    ScanAhead(s, p);
    assert ProcOk(s, p);
    var g, g' := Garbage(r), Garbage(s'.procs[p]);
    assert forall i :: 0 <= i < |g'| ==> g'[i] == g[if i < |r.rlist| then i else i + 1];
    assert g[|r.rlist|] == r.todo[0];
  }

  lemma ClearOther(s: State, p: nat, q: nat)
    requires Inv(s) && p < |s.procs| && s.procs[p].pc.Scan? && s.procs[p].todo != []
    requires s.procs[p].pc.k >= |s.haz| && q < |s.procs| && q != p
    ensures ProcOk(StepScan(s, p), q)
  {
    ScanAhead(s, p);
    assert ProcOk(s, q);
    OtherKeeps(s, StepScan(s, p), q, s.procs[p].todo[0]);
  }

  /** Line 136. */
  lemma KeepRelease(s: State, p: nat)
    requires Inv(s) && p < |s.procs| && s.procs[p].pc.Release?
    ensures Inv(StepRelease(s, p))
  {
    var s' := StepRelease(s, p);
    assert ProcOk(s, p);
    assert SlotOk(s, s.procs[p].victim);
    assert s.procs[p].victim !in s.chain;
    assert Garbage(s'.procs[p]) == Garbage(s.procs[p]);
    forall m | 0 <= m < |s'.slots| ensures SlotOk(s', m) { assert SlotOk(s, m); }
    forall j | 0 <= j < |s'.haz| ensures HazOk(s', j) { assert HazOk(s, j); }
    forall q | 0 <= q < |s'.procs| ensures ProcOk(s', q) { if q != p { UnusedKeeps(s, s', q, s.procs[p].victim); } }
  }

  /** Line 32. */
  lemma KeepClaim(s: State, p: nat)
    requires Inv(s) && p < |s.procs| && s.procs[p].pc.Claim?
    ensures Inv(StepClaim(s, p))
  {
    var r, s' := s.procs[p], StepClaim(s, p);
    assert ProcOk(s, p);
    if r.pc.cnt < |s.slots| && !s.slots[r.cursor].used {
      ClaimWon(s, p);
    } else {
      assert ProcOk(s', p);
      LocalKeeps(s, s', p);
    }
  }

  lemma ClaimWon(s: State, p: nat)
    requires Inv(s) && p < |s.procs| && s.procs[p].pc.Claim? && s.procs[p].pc.cnt < |s.slots|
    requires InRange(s, s.procs[p].cursor) && !s.slots[s.procs[p].cursor].used
    ensures Inv(StepClaim(s, p))
  {
    var r, s' := s.procs[p], StepClaim(s, p);
    assert ProcOk(s, p) && SlotOk(s, r.cursor);
    NotRelied(s, p, r.cursor);
    assert Garbage(s'.procs[p]) == Garbage(r);
    assert ProcOk(s', p);
    forall m | 0 <= m < |s'.slots| ensures SlotOk(s', m) { assert SlotOk(s, m); ClaimSlot(s, p, m); }
    forall j | 0 <= j < |s'.haz| ensures HazOk(s', j) { assert HazOk(s, j); }
    forall q | 0 <= q < |s'.procs| ensures ProcOk(s', q) { if q != p { UnusedKeeps(s, s', q, r.cursor); } }
  }

  lemma ClaimSlot(s: State, p: nat, m: nat)
    requires Shape(s) && p < |s.procs| && s.procs[p].pc.Claim? && m < |s.slots| && SlotOk(s, m)
    ensures SlotOk(StepClaim(s, p), m)
  {
    assert Garbage(StepClaim(s, p).procs[p]) == Garbage(s.procs[p]);
  }

  /** Lines 166-167: only the claimed slot is written. */
  lemma KeepFill(s: State, p: nat)
    requires Inv(s) && p < |s.procs| && s.procs[p].pc.Fill?
    ensures Inv(StepFill(s, p))
  {
    var s' := StepFill(s, p);
    assert ProcOk(s, p);
    FillChain(s, p);
    FillOwn(s, p);
    forall m | 0 <= m < |s'.slots| ensures SlotOk(s', m) { assert SlotOk(s, m); FillSlot(s, p, m); }
    forall j | 0 <= j < |s'.haz| ensures HazOk(s', j) { assert HazOk(s, j); }
    forall q | 0 <= q < |s'.procs| ensures ProcOk(s', q) { if q != p { UnusedKeeps(s, s', q, s.procs[p].node); } }
  }

  lemma FillChain(s: State, p: nat)
    requires Shape(s) && ChainOk(s) && p < |s.procs| && s.procs[p].pc.Fill? && NodeOk(s, p)
    ensures ChainOk(StepFill(s, p))
  {
    assert s.procs[p].node !in s.chain;
  }

  lemma FillSlot(s: State, p: nat, m: nat)
    requires Shape(s) && p < |s.procs| && s.procs[p].pc.Fill? && m < |s.slots| && SlotOk(s, m) && ProcOk(s, p)
    ensures SlotOk(StepFill(s, p), m)
  {
    assert Garbage(StepFill(s, p).procs[p]) == Garbage(s.procs[p]);
  }

  lemma FillOwn(s: State, p: nat)
    requires Inv(s) && p < |s.procs| && s.procs[p].pc.Fill?
    ensures ProcOk(StepFill(s, p), p)
  {
    var r, s' := s.procs[p], StepFill(s, p);
    var c := r.pc.c;
    assert ProcOk(s, p);
    var d, d' := DataOf(s, r.node), DataOf(s', r.node);
    if c < s.width {
      assert d'[..c + 1] == d[..c] + [r.msg[c]] == r.msg[..c + 1];
    } else {
      assert d[..c] == d && r.msg[..c] == r.msg;
    }
    assert GarbageOk(s', p);
  }

  /** The CAS at line 192, 202 or 252 is about to succeed. */
  predicate MovesTail(s: State, p: nat)
    requires p < |s.procs|
  {
    var r := s.procs[p];
    (r.pc.HelpTail? || r.pc.SwingTail? || r.pc.FixTail?) && s.tail == r.t
  }

  /** The CAS at line 197 is about to succeed. */
  predicate Links(s: State, p: nat)
    requires p < |s.procs|
  {
    s.procs[p].pc.Link? && NextOf(s, s.procs[p].t) == UNDEFINED_NODE
  }

  /** The CAS at line 257 is about to succeed. */
  predicate Pops(s: State, p: nat)
    requires p < |s.procs|
  {
    s.procs[p].pc.MoveHead? && s.head == s.procs[p].h
  }

  /** Line 197. A protected slot whose next is undefined is the last node, and tail names it. */
  lemma LastHeld(s: State, n: int)
    requires Inv(s) && InRange(s, n) && NextOf(s, n) == UNDEFINED_NODE
    requires StatusOf(s, n) != Free && !StatusOf(s, n).Claimed? && !StatusOf(s, n).Clearing?
    ensures n == Last(s)
  {
    assert SlotOk(s, n);
    forall i | 0 <= i < |s.chain| - 1 ensures NextOf(s, s.chain[i]) != UNDEFINED_NODE {
      assert InRange(s, s.chain[i + 1]);
    }
  }

  lemma LinkFacts(s: State, p: nat)
    requires Inv(s) && p < |s.procs| && s.procs[p].pc.Link?
    requires NextOf(s, s.procs[p].t) == UNDEFINED_NODE
    ensures s.procs[p].t == Last(s) == s.tail
    ensures s.procs[p].node !in s.chain && StatusOf(s, s.procs[p].node) == Claimed(p)
  {
    assert ProcOk(s, p) && HazOk(s, 2 * p);
    LastHeld(s, s.procs[p].t);
  }

  lemma KeepLink(s: State, p: nat)
    requires Inv(s) && p < |s.procs| && s.procs[p].pc.Link?
    ensures Inv(StepLink(s, p))
  {
    var s' := StepLink(s, p);
    assert ProcOk(s, p);
    if NextOf(s, s.procs[p].t) == UNDEFINED_NODE {
      LinkFacts(s, p);
      LinkChain(s, p);
      forall m | 0 <= m < |s'.slots| ensures SlotOk(s', m) { LinkSlot(s, p, m); }
      forall j | 0 <= j < |s'.haz| ensures HazOk(s', j) { assert HazOk(s, j); }
      forall q | 0 <= q < |s'.procs| ensures ProcOk(s', q) { if q == p { LinkOwn(s, p); } else { LinkOther(s, p, q); } }
    } else {
      assert ProcOk(s', p);
      LocalKeeps(s, s', p);
    }
  }

  lemma LinkChain(s: State, p: nat)
    requires Inv(s) && p < |s.procs| && s.procs[p].pc.Link?
    requires NextOf(s, s.procs[p].t) == UNDEFINED_NODE
    ensures ChainOk(StepLink(s, p))
  {
    LinkFacts(s, p);
    assert ProcOk(s, p);
  }

  lemma LinkSlot(s: State, p: nat, m: nat)
    requires Inv(s) && p < |s.procs| && s.procs[p].pc.Link? && m < |s.slots|
    requires NextOf(s, s.procs[p].t) == UNDEFINED_NODE
    ensures SlotOk(StepLink(s, p), m)
  {
    LinkFacts(s, p);
    assert SlotOk(s, m) && SlotOk(s, s.procs[p].t);
    assert Garbage(StepLink(s, p).procs[p]) == Garbage(s.procs[p]);
    assert s.procs[p].node in StepLink(s, p).chain;
  }

  lemma LinkOwn(s: State, p: nat)
    requires Inv(s) && p < |s.procs| && s.procs[p].pc.Link?
    requires NextOf(s, s.procs[p].t) == UNDEFINED_NODE
    ensures ProcOk(StepLink(s, p), p)
  {
    LinkFacts(s, p);
    assert ProcOk(s, p);
    assert GarbageOk(StepLink(s, p), p);
  }

  lemma LinkOther(s: State, p: nat, q: nat)
    requires Inv(s) && p < |s.procs| && s.procs[p].pc.Link? && q < |s.procs| && q != p
    requires NextOf(s, s.procs[p].t) == UNDEFINED_NODE
    ensures ProcOk(StepLink(s, p), q)
  {
    LinkFacts(s, p);
    assert ProcOk(s, q) && HazOk(s, 2 * q) && HazOk(s, 2 * q + 1);
  }

  // ----- Line 257 and RetireNode

  lemma MoveFacts(s: State, p: nat)
    requires Inv(s) && p < |s.procs| && s.procs[p].pc.MoveHead? && s.head == s.procs[p].h
    ensures |s.chain| >= 2 && s.procs[p].hNext == s.chain[1] && s.tail in s.chain[1..]
  {
    assert ProcOk(s, p);
    NextOfHead(s);
  }

  lemma KeepMoveHead(s: State, p: nat)
    requires Inv(s) && p < |s.procs| && s.procs[p].pc.MoveHead?
    ensures Inv(StepMoveHead(s, p))
  {
    var s' := StepMoveHead(s, p);
    assert ProcOk(s, p);
    if s.head == s.procs[p].h {
      MoveFacts(s, p);
      MoveChain(s, p);
      forall m | 0 <= m < |s'.slots| ensures SlotOk(s', m) { MoveSlot(s, p, m); }
      forall j | 0 <= j < |s'.haz| ensures HazOk(s', j) { assert HazOk(s, j); }
      forall q | 0 <= q < |s'.procs| ensures ProcOk(s', q) { if q == p { MoveOwn(s, p); } else { MoveOther(s, p, q); } }
    } else {
      assert ProcOk(s', p);
      LocalKeeps(s, s', p);
    }
  }

  lemma MoveChain(s: State, p: nat)
    requires Inv(s) && p < |s.procs| && s.procs[p].pc.MoveHead? && s.head == s.procs[p].h
    ensures ChainOk(StepMoveHead(s, p))
  {
    MoveFacts(s, p);
  }

  lemma MoveSlot(s: State, p: nat, m: nat)
    requires Inv(s) && p < |s.procs| && s.procs[p].pc.MoveHead? && s.head == s.procs[p].h && m < |s.slots|
    ensures SlotOk(StepMoveHead(s, p), m)
  {
    MoveFacts(s, p);
    assert SlotOk(s, m) && ProcOk(s, p);
    assert Garbage(StepMoveHead(s, p).procs[p]) == Garbage(s.procs[p]);
    assert m in s.chain && m != s.head ==> m in s.chain[1..];
  }

  lemma MoveOwn(s: State, p: nat)
    requires Inv(s) && p < |s.procs| && s.procs[p].pc.MoveHead? && s.head == s.procs[p].h
    ensures ProcOk(StepMoveHead(s, p), p)
  {
    MoveFacts(s, p);
    assert ProcOk(s, p) && SlotOk(s, s.procs[p].hNext);
    assert GarbageOk(StepMoveHead(s, p), p);
  }

  lemma MoveOther(s: State, p: nat, q: nat)
    requires Inv(s) && p < |s.procs| && s.procs[p].pc.MoveHead? && s.head == s.procs[p].h && q < |s.procs| && q != p
    ensures ProcOk(StepMoveHead(s, p), q)
  {
    MoveFacts(s, p);
    assert ProcOk(s, q) && HazOk(s, 2 * q) && HazOk(s, 2 * q + 1);
    var s' := StepMoveHead(s, p);
    assert GarbageOk(s', q) && NodeOk(s', q) && CopyOk(s', q) by { MoveKeepsUse(s, p, q); }
  }

  /** What does not depend on the list. */
  lemma MoveKeepsUse(s: State, p: nat, q: nat)
    requires Shape(s) && p < |s.procs| && s.procs[p].pc.MoveHead? && q < |s.procs| && q != p && ProcOk(s, q)
    requires StatusOf(s, s.procs[p].h) == Linked
    ensures var s' := StepMoveHead(s, p); GarbageOk(s', q) && NodeOk(s', q) && CopyOk(s', q)
  {
  }

  lemma KeepCopyOut(s: State, p: nat)
    requires Inv(s) && p < |s.procs| && s.procs[p].pc.CopyOut?
    ensures Inv(StepCopyOut(s, p))
  {
    var r, s' := s.procs[p], StepCopyOut(s, p);
    assert ProcOk(s, p);
    if r.pc.c < s.width {
      assert r.taken[..r.pc.c + 1] == r.taken[..r.pc.c] + [r.taken[r.pc.c]];
      assert ProcOk(s', p);
      LocalKeeps(s, s', p);
    } else {
      KeepRetire(s, p);
    }
  }

  /** The old head goes to the retire list. */
  lemma KeepRetire(s: State, p: nat)
    requires Inv(s) && p < |s.procs| && s.procs[p].pc.CopyOut? && s.procs[p].pc.c >= s.width
    ensures Inv(StepCopyOut(s, p))
  {
    var r, s' := s.procs[p], StepCopyOut(s, p);
    assert ProcOk(s, p) && SlotOk(s, r.h);
    assert r.h !in s.chain;
    forall m | 0 <= m < |s'.slots| ensures SlotOk(s', m) { RetireSlot(s, p, m); }
    forall j | 0 <= j < |s'.haz| ensures HazOk(s', j) { assert HazOk(s, j); }
    forall q | 0 <= q < |s'.procs| ensures ProcOk(s', q) {
      if q == p { RetireOwn(s, p); } else { RetireOther(s, p, q); }
    }
  }

  lemma RetireSlot(s: State, p: nat, m: nat)
    requires Inv(s) && p < |s.procs| && s.procs[p].pc.CopyOut? && s.procs[p].pc.c >= s.width && m < |s.slots|
    ensures SlotOk(StepCopyOut(s, p), m)
  {
    var r, s' := s.procs[p], StepCopyOut(s, p);
    assert SlotOk(s, m) && ProcOk(s, p);
    assert Garbage(s'.procs[p]) == r.rlist + [r.h] == Garbage(r) + [r.h];
  }

  lemma RetireOwn(s: State, p: nat)
    requires Inv(s) && p < |s.procs| && s.procs[p].pc.CopyOut? && s.procs[p].pc.c >= s.width
    ensures ProcOk(StepCopyOut(s, p), p)
  {
    var r, s' := s.procs[p], StepCopyOut(s, p);
    assert ProcOk(s, p);
    RetireGarbage(s, p);
    assert NodeOk(s', p) && EnqueueOk(s', p) && DequeueOk(s', p) && CopyOk(s', p);
  }

  /** The old head joins the retire list; it was not there before, since it was Popped. */
  lemma RetireGarbage(s: State, p: nat)
    requires Shape(s) && p < |s.procs| && s.procs[p].pc.CopyOut? && s.procs[p].pc.c >= s.width
    requires GarbageOk(s, p) && CopyOk(s, p) && s.procs[p].todo == []
    ensures GarbageOk(StepCopyOut(s, p), p)
  {
    var r, s' := s.procs[p], StepCopyOut(s, p);
    assert Garbage(s'.procs[p]) == Garbage(r) + [r.h];
    forall i | 0 <= i < |Garbage(r)| ensures Garbage(r)[i] != r.h && StatusOf(s', Garbage(r)[i]) == Retired(p) {
      assert StatusOf(s, Garbage(r)[i]) == Retired(p);
    }
  }

  lemma RetireOther(s: State, p: nat, q: nat)
    requires Inv(s) && p < |s.procs| && s.procs[p].pc.CopyOut? && s.procs[p].pc.c >= s.width && q < |s.procs| && q != p
    ensures ProcOk(StepCopyOut(s, p), q)
  {
    assert ProcOk(s, q) && ProcOk(s, p) && HazOk(s, 2 * q) && HazOk(s, 2 * q + 1);
  }

  /** Freeing, claiming and filling write slots that no validated index names. */
  lemma ProtectedFromPool(s: State, p: nat, op: Op, j: nat)
    requires Inv(s) && p < |s.procs| && j < |s.haz| && s.valid[j]
    requires var pc := s.procs[p].pc; pc.Scan? || pc.Release? || pc.Claim? || pc.Fill?
    ensures InRange(s, s.haz[j]) && Step(s, p, op).slots[s.haz[j]] == s.slots[s.haz[j]]
  {
    var r := s.procs[p];
    assert HazOk(s, j) && ProcOk(s, p);
    assert SlotOk(s, s.haz[j]);
    if r.pc.Scan? && r.todo != [] {
      ScanAhead(s, p);
    }
  }

  // ----- The effect of a successful CAS

  lemma TailCas(s: State, p: nat, op: Op)
    requires Inv(s) && p < |s.procs| && MovesTail(s, p)
    ensures |s.chain| >= 2 && s.tail == s.chain[|s.chain| - 2]
    ensures Step(s, p, op).tail == Last(s) && Step(s, p, op).head == s.head && Step(s, p, op).chain == s.chain
  {
    assert ProcOk(s, p);
    TailBehind(s);
  }

  lemma HeadCas(s: State, p: nat, op: Op)
    requires Inv(s) && p < |s.procs| && Pops(s, p)
    ensures |s.chain| >= 2 && Step(s, p, op).head == s.chain[1]
    ensures Step(s, p, op).chain == s.chain[1..] && Step(s, p, op).tail == s.tail
  {
    MoveFacts(s, p);
  }

  lemma LinkCas(s: State, p: nat, op: Op)
    requires Inv(s) && p < |s.procs| && Links(s, p)
    ensures s.tail == Last(s) && Step(s, p, op).chain == s.chain + [s.procs[p].node]
    ensures Step(s, p, op).head == s.head && Step(s, p, op).tail == s.tail
  {
    LinkFacts(s, p);
  }

  lemma NoCas(s: State, p: nat, op: Op)
    requires Shape(s) && p < |s.procs| && !MovesTail(s, p) && !Pops(s, p) && !Links(s, p)
    ensures Step(s, p, op).chain == s.chain && Step(s, p, op).head == s.head && Step(s, p, op).tail == s.tail
  {
  }

  predicate InPool(pc: PC) {
    pc.Idle? || pc.Scan? || pc.Release? || pc.Claim? || pc.Fill?
  }

  predicate InEnqueue(pc: PC) {
    pc.ReadTail? || pc.PublishTail? || pc.CheckTail? || pc.ReadTailNext? || pc.HelpTail? || pc.Link? || pc.SwingTail?
  }

  lemma OthersStayInPool(s: State, p: nat, op: Op, q: nat)
    requires Shape(s) && p < |s.procs| && q < |s.procs| && q != p && InPool(s.procs[p].pc)
    ensures Step(s, p, op).procs[q] == s.procs[q]
  {
  }

  lemma OthersStayInEnqueue(s: State, p: nat, op: Op, q: nat)
    requires Shape(s) && p < |s.procs| && q < |s.procs| && q != p && InEnqueue(s.procs[p].pc)
    ensures Step(s, p, op).procs[q] == s.procs[q]
  {
  }

  lemma OthersStayInDequeue(s: State, p: nat, op: Op, q: nat)
    requires Shape(s) && p < |s.procs| && q < |s.procs| && q != p
    requires !InPool(s.procs[p].pc) && !InEnqueue(s.procs[p].pc)
    ensures Step(s, p, op).procs[q] == s.procs[q]
  {
  }

  lemma OthersStay(s: State, p: nat, op: Op, q: nat)
    requires Shape(s) && p < |s.procs| && q < |s.procs| && q != p
    ensures Step(s, p, op).procs[q] == s.procs[q]
  {
    if InPool(s.procs[p].pc) {
      OthersStayInPool(s, p, op, q);
    } else if InEnqueue(s.procs[p].pc) {
      OthersStayInEnqueue(s, p, op, q);
    } else {
      OthersStayInDequeue(s, p, op, q);
    }
  }

  // ----- Every step, every run

  lemma StepKeepsInv(s: State, p: nat, op: Op)
    requires Inv(s) && p < |s.procs|
    requires op.Enqueue? ==> |op.msg| == s.width
    ensures Inv(Step(s, p, op))
  {
    var r := s.procs[p];
    match r.pc
    case Idle => KeepBegin(s, p, op);
    case Scan(k, _) =>
      assert ProcOk(s, p);
      if r.todo == [] { KeepScanDone(s, p); }
      else if k >= |s.haz| { KeepClear(s, p); }
      else if s.haz[k] == r.todo[0] { KeepScanHit(s, p); }
      else { KeepScanMiss(s, p); }
    case Release(_) => KeepRelease(s, p);
    case Claim(_) => KeepClaim(s, p);
    case Fill(_) => KeepFill(s, p);
    case ReadTail => KeepReadTail(s, p);
    case PublishTail => KeepPublishTail(s, p);
    case CheckTail => KeepCheckTail(s, p);
    case ReadTailNext => KeepReadTailNext(s, p);
    case HelpTail => KeepHelpTail(s, p);
    case Link => KeepLink(s, p);
    case SwingTail => KeepSwingTail(s, p);
    case ReadHead => KeepReadHead(s, p);
    case PublishHead => KeepPublishHead(s, p);
    case CheckHead => KeepCheckHead(s, p);
    case ReadTailToo => KeepReadTailToo(s, p);
    case ReadHeadNext => KeepReadHeadNext(s, p);
    case PublishNext => KeepPublishNext(s, p);
    case RecheckHead => KeepRecheckHead(s, p);
    case FixTail => KeepFixTail(s, p);
    case MoveHead => KeepMoveHead(s, p);
    case CopyOut(_) => KeepCopyOut(s, p);
  }

  /** The invariant holds in every state of every run. */
  lemma {:induction false} RunInv(width: nat, numSlots: nat, maxUser: nat, acts: seq<Act>)
    requires numSlots >= 1 && ScheduleOk(acts, width, maxUser)
    ensures Inv(Run(width, numSlots, maxUser, acts))
  {
    if acts == [] {
      InitInv(width, numSlots, maxUser);
    } else {
      var a, before := acts[|acts| - 1], acts[..|acts| - 1];
      assert ActOk(a, width, maxUser);
      RunInv(width, numSlots, maxUser, before);
      StepKeepsInv(Run(width, numSlots, maxUser, before), a.p, a.op);
    }
  }
}
