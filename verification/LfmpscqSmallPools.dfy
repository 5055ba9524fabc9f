/**
 With one producer, or with at most three slots, the queue of Lfmpscq.dfy loses nothing although its scan is
 split into single reads. With three slots a check can be late, but then every slot is in use and the
 slot in danger stays named by an index that the scan has not read yet.
 */
module LfmpscqSmallPools {
  import opened Common
  import opened Lfmpscq
  import opened LfmpscqSafety
  import opened LfmpscqDelivery

  // ----- A late check

  /** Some other producer is about to move tail on, and the scan has not read its index. */
  lemma LateFacts(s: State, a: Act) returns (q: nat)
    requires Inv(s) && LateCheck(s, a)
    ensures q < |s.procs| && q != a.p && s.haz[q] == s.tail && s.cons.pc.k <= q
    ensures InRange(s, s.tail) && s.slots[s.tail].st == Retired
    ensures |s.chain| == 1 && s.slots[s.tail].next == s.chain[0]
    ensures |s.slots| >= 3
  {
    ScanAhead(s);
    q :| 0 <= q < |s.procs| && s.procs[q].pc.SwingTail? && s.procs[q].t == s.tail;
    assert ProcOk(s, q) && HazOk(s, q);
    assert ProcOk(s, a.p);
    assert InRange(s, s.chain[0]);
    ThreeUses(s, s.tail, s.chain[0], s.procs[a.p].node);
  }

  lemma ThreeUses(s: State, d: int, last: int, node: int)
    requires InRange(s, d) && InRange(s, last) && InRange(s, node)
    requires s.slots[d].st == Retired && s.slots[last].st == Linked && s.slots[node].st.Claimed?
    ensures |s.slots| >= 3
    ensures |s.slots| == 3 ==> forall n :: InRange(s, n) ==> n == d || n == last || n == node
  {
  }

  // ----- The queue with three slots after a late check of p

  /**
   p is back at line 131 with its old t, a retired slot that index q names and no scan will free before it
   reads that index; the list is empty and p has the third slot.
   */
  ghost predicate Trap(u: State, p: nat, q: nat) {
    && Shape(u) && p < |u.procs| && q < |u.procs| && p != q
    && |u.slots| == 3 && |u.chain| == 1
    && u.procs[p].pc.ReadTail?
    && InRange(u, u.procs[p].t)
    && u.slots[u.procs[p].t].st == Retired && u.slots[u.procs[p].t].next == u.chain[0]
    && u.haz[q] == u.procs[p].t
    && (Scanning(u, u.procs[p].t) ==> u.cons.pc.k <= q)
  }

  lemma Trapped(u: State, p: nat, q: nat)
    requires Inv(u) && Trap(u, p, q)
    ensures forall n :: 0 <= n < |u.slots| ==> u.slots[n].used
    ensures forall r :: 0 <= r < |u.procs| && r != p ==> !HasNode(u.procs[r].pc)
    ensures !u.cons.pc.CopyOut? && !u.cons.pc.Release?
    ensures u.cons.pc.Scan? && u.cons.todo != [] ==> u.cons.todo == [u.procs[p].t]
  {
    var d, last, node := u.procs[p].t, u.chain[0], u.procs[p].node;
    assert ProcOk(u, p) && InRange(u, last);
    ThreeUses(u, d, last, node);
    forall n | 0 <= n < |u.slots| ensures u.slots[n].used { assert SlotOk(u, n); }
    forall r | 0 <= r < |u.procs| && r != p ensures !HasNode(u.procs[r].pc) {
      assert ProcOk(u, r);
    }
    var g := Garbage(u);
    if u.cons.todo != [] {
      assert |g| > 1 ==> g[0] != g[1];
      forall i | 0 <= i < |g| ensures g[i] == d { assert StatusOf(u, g[i]) == Retired; }
      assert g[|u.cons.rlist|] == u.cons.todo[0];
    }
  }

  lemma TrapStaysByProducer(u: State, p: nat, q: nat, r: nat, msg: Msg)
    requires Inv(u) && Trap(u, p, q) && r < |u.procs| && r != p
    ensures Trap(Produce(u, r, msg), p, q) && !LateCheck(u, ByProducer(r, msg))
  {
    Trapped(u, p, q);
    assert ProcOk(u, r);
  }

  lemma TrapStaysByConsumer(u: State, p: nat, q: nat)
    requires Inv(u) && Trap(u, p, q)
    ensures Trap(Consume(u), p, q)
  {
    Trapped(u, p, q);
    NextOfHead(u);
  }

  // ----- A shadow that keeps the invariant

  ghost predicate Same(s: State, u: State) {
    Shape(s) && Shape(u) && s == u.(valid := s.valid)
  }

  /** In s the check of p was late and p has not noticed; in the shadow u the check failed. */
  ghost predicate Late(s: State, u: State, p: nat, q: nat) {
    && Trap(u, p, q) && Shape(s) && |s.procs| == |u.procs|
    && s == u.(valid := s.valid, procs := u.procs[p := s.procs[p]])
    && (s.procs[p].pc.ReadTailNext? || (s.procs[p].pc.HelpTail? && s.procs[p].tNext == u.chain[0]))
    && u.procs[p] == s.procs[p].(pc := ReadTail)
  }

  lemma SameNewNode(s: State, u: State, p: nat, msg: Msg)
    requires Same(s, u) && p < |u.procs| && (u.procs[p].pc.Claim? || u.procs[p].pc.Fill?)
    ensures Same(Produce(s, p, msg), Produce(u, p, msg))
  {
  }

  lemma SameLink(s: State, u: State, p: nat, msg: Msg)
    requires Same(s, u) && p < |u.procs| && (u.procs[p].pc.Link? || u.procs[p].pc.SwingTail? || u.procs[p].pc.HelpTail?)
    ensures Same(Produce(s, p, msg), Produce(u, p, msg))
  {
  }

  lemma SameRead(s: State, u: State, p: nat, msg: Msg)
    requires Same(s, u) && p < |u.procs|
    requires var pc := u.procs[p].pc;
             pc.Idle? || pc.ReadTail? || pc.PublishTail? || pc.CheckTail? || pc.ReadTailNext?
    ensures Same(Produce(s, p, msg), Produce(u, p, msg))
  {
  }

  lemma SameProduce(s: State, u: State, p: nat, msg: Msg)
    requires Same(s, u) && p < |u.procs|
    ensures Same(Produce(s, p, msg), Produce(u, p, msg))
  {
    match u.procs[p].pc
    case Claim(_) => SameNewNode(s, u, p, msg);
    case Fill(_) => SameNewNode(s, u, p, msg);
    case HelpTail => SameLink(s, u, p, msg);
    case Link => SameLink(s, u, p, msg);
    case SwingTail => SameLink(s, u, p, msg);
    case _ => SameRead(s, u, p, msg);
  }

  lemma SameScan(s: State, u: State)
    requires Same(s, u) && (u.cons.pc.Scan? || u.cons.pc.Release?)
    ensures Same(Consume(s), Consume(u))
  {
  }

  lemma SameConsume(s: State, u: State)
    requires Same(s, u)
    ensures Same(Consume(s), Consume(u))
  {
    if u.cons.pc.Scan? || u.cons.pc.Release? { SameScan(s, u); }
  }

  /** A late check: in the shadow it fails. */
  lemma BecomesLate(s: State, u: State, a: Act) returns (u': State, q: nat)
    requires Same(s, u) && Inv(u) && Delivered(u) && LateCheck(u, a) && |u.slots| == 3
    ensures Late(Produce(s, a.p, a.msg), u', a.p, q) && Inv(u') && Delivered(u')
    ensures u'.width == u.width && |u'.procs| == |u.procs| && |u'.slots| == |u.slots|
  {
    var p := a.p;
    q := LateFacts(u, a);
    u' := u.(procs := u.procs[p := u.procs[p].(pc := ReadTail)]);
    assert ProcOk(u, p);
    LocalKeeps(u, u', p);
    SameLog(u, u');
  }

  /** Delivered does not look at what the shadow changes. */
  lemma SameLog(s: State, u: State)
    requires Shape(s) && Shape(u) && Delivered(s) && |s.procs| == |u.procs|
    requires u.slots == s.slots && u.chain == s.chain && u.got == s.got && u.linked == s.linked && u.sent == s.sent
    requires forall p :: 0 <= p < |s.procs| ==>
               u.procs[p].pc.SwingTail? == s.procs[p].pc.SwingTail? && u.procs[p].msg == s.procs[p].msg
    ensures Delivered(u)
  {
    MessagesSame(s, u, s.chain);
    forall p | 0 <= p < |u.procs| ensures SentOk(u, p) { assert SentOk(s, p); }
  }

  /** The late producer reads next, which is not undefined. */
  lemma LateReads(s: State, u: State, p: nat, q: nat, msg: Msg) returns (u': State)
    requires Late(s, u, p, q) && Inv(u) && Delivered(u) && s.procs[p].pc.ReadTailNext?
    ensures Late(Produce(s, p, msg), u', p, q) && Inv(u') && Delivered(u')
    ensures u'.width == u.width && |u'.procs| == |u.procs| && |u'.slots| == |u.slots|
  {
    u' := u.(procs := u.procs[p := u.procs[p].(tNext := u.chain[0])]);
    assert ProcOk(u, p) && InRange(u, u.chain[0]);
    LocalKeeps(u, u', p);
    SameLog(u, u');
  }

  /** It helps tail on, and the late check is forgotten. */
  lemma LateHelps(s: State, u: State, p: nat, q: nat, msg: Msg) returns (u': State)
    requires Late(s, u, p, q) && Inv(u) && Delivered(u) && s.procs[p].pc.HelpTail?
    ensures Same(Produce(s, p, msg), u') && Inv(u') && Delivered(u')
    ensures u'.width == u.width && |u'.procs| == |u.procs| && |u'.slots| == |u.slots|
  {
    u' := if u.tail == u.procs[p].t then u.(tail := u.chain[0]) else u;
    if u.tail == u.procs[p].t {
      TailKeeps(u, u');
    }
    SameLog(u, u');
    assert Produce(s, p, msg).procs == u'.procs;
  }

  lemma LateOther(s: State, u: State, p: nat, q: nat, a: Act)
    requires Late(s, u, p, q) && Inv(u) && ActOk(a, u.width, |u.procs|) && (a.ByProducer? ==> a.p != p)
    ensures Late(Step(s, a), Step(u, a), p, q) && Inv(Step(u, a))
  {
    if a.ByProducer? {
      Trapped(u, p, q);
      TrapStaysByProducer(u, p, q, a.p, a.msg);
      LateProduce(s, u, p, q, a.p, a.msg);
    } else {
      TrapStaysByConsumer(u, p, q);
      LateConsume(s, u, p, q);
    }
    StepKeepsInv(u, a);
  }

  lemma LateProduce(s: State, u: State, p: nat, q: nat, r: nat, msg: Msg)
    requires Late(s, u, p, q) && r < |u.procs| && r != p && Trap(Produce(u, r, msg), p, q)
    requires u.procs[r].pc.Idle? || u.procs[r].pc.Claim? || u.procs[r].pc.SwingTail?
    requires forall n :: 0 <= n < |u.slots| ==> u.slots[n].used
    ensures Late(Produce(s, r, msg), Produce(u, r, msg), p, q)
  {
    var s', u' := Produce(s, r, msg), Produce(u, r, msg);
    assert s'.procs == u'.procs[p := s'.procs[p]];
  }

  lemma LateConsume(s: State, u: State, p: nat, q: nat)
    requires Late(s, u, p, q) && Inv(u) && Trap(Consume(u), p, q)
    ensures Late(Consume(s), Consume(u), p, q)
  {
    Trapped(u, p, q);
  }

  // ----- Runs

  /** Every run has a shadow that keeps the invariant and delivers the same. */
  lemma {:induction false} Shadow(width: nat, numSlots: nat, maxUser: nat, acts: seq<Act>)
    returns (u: State, late: bool, p: nat, q: nat)
    requires numSlots >= 1 && ScheduleOk(acts, width, maxUser) && (maxUser <= 1 || numSlots <= 3)
    ensures Inv(u) && Delivered(u) && u.width == width && |u.procs| == maxUser && |u.slots| == numSlots
    ensures var s := RunFrom(Init(width, numSlots, maxUser), acts); if late then Late(s, u, p, q) else Same(s, u)
  {
    late, p, q := false, 0, 0;
    if acts == [] {
      u := Init(width, numSlots, maxUser);
      InitInv(width, numSlots, maxUser);
      InitDelivered(width, numSlots, maxUser);
    } else {
      var a, before := acts[|acts| - 1], acts[..|acts| - 1];
      assert ActOk(a, width, maxUser);
      u, late, p, q := Shadow(width, numSlots, maxUser, before);
      u, late, p, q := ShadowStep(RunFrom(Init(width, numSlots, maxUser), before), u, late, p, q, a);
    }
  }

  lemma ShadowStep(s: State, u: State, late: bool, p: nat, q: nat, a: Act)
    returns (u': State, late': bool, p': nat, q': nat)
    requires Inv(u) && Delivered(u) && (|u.procs| <= 1 || |u.slots| <= 3) && ActOk(a, u.width, |u.procs|)
    requires if late then Late(s, u, p, q) else Same(s, u)
    ensures Inv(u') && Delivered(u') && u'.width == u.width && |u'.procs| == |u.procs| && |u'.slots| == |u.slots|
    ensures if late' then Late(Step(s, a), u', p', q') else Same(Step(s, a), u')
  {
    u', late', p', q' := Step(u, a), late, p, q;
    if late && a.ByProducer? && a.p == p {
      if s.procs[p].pc.ReadTailNext? {
        u' := LateReads(s, u, p, q, a.msg);
      } else {
        u' := LateHelps(s, u, p, q, a.msg);
        late' := false;
      }
    } else if late {
      LateOther(s, u, p, q, a);
      StepDelivers(u, a);
    } else if LateCheck(u, a) {
      var r := LateFacts(u, a);
      u', q' := BecomesLate(s, u, a);
      late', p' := true, a.p;
    } else {
      StepKeepsInv(u, a);
      StepDelivers(u, a);
      if a.ByProducer? { SameProduce(s, u, a.p, a.msg); } else { SameConsume(s, u); }
    }
  }

  /**
   With one producer, or with at most three slots, no message is lost, duplicated or reordered in any run,
   although every read of a shared index is a step of its own; and the list from head is what it should be.
   */
  lemma NoLossInSmallPools(width: nat, numSlots: nat, maxUser: nat, acts: seq<Act>)
    requires numSlots >= 1 && ScheduleOk(acts, width, maxUser) && (maxUser <= 1 || numSlots <= 3)
    ensures Delivered(RunFrom(Init(width, numSlots, maxUser), acts))
    ensures ChainOk(RunFrom(Init(width, numSlots, maxUser), acts))
  {
    var s := RunFrom(Init(width, numSlots, maxUser), acts);
    var u, late, p, q := Shadow(width, numSlots, maxUser, acts);
    SameLog(u, s);
  }
}
