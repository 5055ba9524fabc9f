/** What each step does to a slot that a validated index of Mpmcq.dfy names: it stays in the same use. */
module MpmcqReclamation {
  import opened Common
  import opened Mpmcq
  import opened MpmcqSafety

  function Stage(st: Status): int {
    match st
    case Linked => 0
    case Popped(_) => 1
    case Retired(_) => 2
    case _ => -1
  }

  /** later is earlier in the same use of the slot: not freed, not rewritten, only moved on towards retirement. */
  predicate SameLife(earlier: Slot, later: Slot) {
    && earlier.used && later.used
    && 0 <= Stage(earlier.st) <= Stage(later.st)
    && later.data == earlier.data
    && (earlier.next != UNDEFINED_NODE ==> later.next == earlier.next)
  }

  lemma IndexKeeps(s: State, p: nat, op: Op, j: nat)
    requires Inv(s) && p < |s.procs| && j < |s.haz| && s.valid[j] && Step(s, p, op).valid[j]
    ensures Step(s, p, op).haz[j] == s.haz[j]
  {
  }

  lemma ProtectedElsewhere(s: State, p: nat, op: Op, j: nat)
    requires Inv(s) && p < |s.procs| && j < |s.haz| && s.valid[j] && !Links(s, p)
    requires var pc := s.procs[p].pc; !pc.Scan? && !pc.Release? && !pc.Claim? && !pc.Fill?
    ensures InRange(s, s.haz[j]) && SameLife(s.slots[s.haz[j]], Step(s, p, op).slots[s.haz[j]])
  {
    if s.procs[p].pc.MoveHead? {
      ProtectedFromMoveHead(s, p, j);
    } else if s.procs[p].pc.CopyOut? {
      ProtectedFromCopyOut(s, p, j);
    } else {
      NoWrite(s, p, op);
      ValidIsAlive(s, j);
    }
  }

  lemma ValidIsAlive(s: State, j: nat)
    requires Inv(s) && j < |s.haz| && s.valid[j]
    ensures InRange(s, s.haz[j]) && SameLife(s.slots[s.haz[j]], s.slots[s.haz[j]])
  {
    assert HazOk(s, j) && SlotOk(s, s.haz[j]);
  }

  lemma ProtectedFromMoveHead(s: State, p: nat, j: nat)
    requires Inv(s) && p < |s.procs| && j < |s.haz| && s.valid[j] && s.procs[p].pc.MoveHead?
    ensures InRange(s, s.haz[j]) && SameLife(s.slots[s.haz[j]], StepMoveHead(s, p).slots[s.haz[j]])
  {
    assert HazOk(s, j) && SlotOk(s, s.haz[j]) && ProcOk(s, p);
  }

  lemma ProtectedFromCopyOut(s: State, p: nat, j: nat)
    requires Inv(s) && p < |s.procs| && j < |s.haz| && s.valid[j] && s.procs[p].pc.CopyOut?
    ensures InRange(s, s.haz[j]) && SameLife(s.slots[s.haz[j]], StepCopyOut(s, p).slots[s.haz[j]])
  {
    assert HazOk(s, j) && SlotOk(s, s.haz[j]) && ProcOk(s, p);
  }

  lemma NoWrite(s: State, p: nat, op: Op)
    requires Shape(s) && p < |s.procs| && !Links(s, p)
    requires var pc := s.procs[p].pc;
             !pc.Scan? && !pc.Release? && !pc.Claim? && !pc.Fill? && !pc.MoveHead? && !pc.CopyOut?
    ensures Step(s, p, op).slots == s.slots
  {
  }

  /** A step, by any process, while index j stays validated. */
  lemma ProtectedStep(s: State, s': State, p: nat, op: Op, j: nat)
    requires Inv(s) && p < |s.procs| && s' == Step(s, p, op) && j < |s.haz| && s.valid[j] && s'.valid[j]
    ensures InRange(s, s.haz[j]) && s'.haz[j] == s.haz[j]
    ensures SameLife(s.slots[s.haz[j]], s'.slots[s.haz[j]])
  {
    IndexKeeps(s, p, op, j);
    if Links(s, p) {
      ProtectedLink(s, p, j);
    } else if s.procs[p].pc.Scan? || s.procs[p].pc.Release? || s.procs[p].pc.Claim? || s.procs[p].pc.Fill? {
      ProtectedFromPool(s, p, op, j);
      assert HazOk(s, j) && SlotOk(s, s.haz[j]);
    } else {
      ProtectedElsewhere(s, p, op, j);
    }
  }

  lemma ProtectedLink(s: State, p: nat, j: nat)
    requires Inv(s) && p < |s.procs| && j < |s.haz| && s.valid[j] && Links(s, p)
    ensures InRange(s, s.haz[j]) && SameLife(s.slots[s.haz[j]], StepLink(s, p).slots[s.haz[j]])
  {
    assert HazOk(s, j) && SlotOk(s, s.haz[j]);
    LinkFacts(s, p);
  }

  lemma RunStep(width: nat, numSlots: nat, maxUser: nat, acts: seq<Act>, b: nat)
    requires numSlots >= 1 && ScheduleOk(acts, width, maxUser) && 0 < b <= |acts|
    ensures ActOk(acts[b - 1], width, maxUser)
    ensures Run(width, numSlots, maxUser, acts[..b])
         == Step(Run(width, numSlots, maxUser, acts[..b - 1]), acts[b - 1].p, acts[b - 1].op)
  {
    assert acts[..b][..b - 1] == acts[..b - 1];
  }

  lemma ProtectedRunStep(width: nat, numSlots: nat, maxUser: nat, acts: seq<Act>, j: nat, b: nat)
    requires numSlots >= 1 && ScheduleOk(acts, width, maxUser) && 0 < b <= |acts| && j < NUM_SHAREDIDX * maxUser
    requires Run(width, numSlots, maxUser, acts[..b - 1]).valid[j] && Run(width, numSlots, maxUser, acts[..b]).valid[j]
    ensures
      var t, t' := Run(width, numSlots, maxUser, acts[..b - 1]), Run(width, numSlots, maxUser, acts[..b]);
      InRange(t, t.haz[j]) && t'.haz[j] == t.haz[j] && SameLife(t.slots[t.haz[j]], t'.slots[t.haz[j]])
  {
    RunStep(width, numSlots, maxUser, acts, b);
    RunInv(width, numSlots, maxUser, acts[..b - 1]);
    var t, t' := Run(width, numSlots, maxUser, acts[..b - 1]), Run(width, numSlots, maxUser, acts[..b]);
    ProtectedStep(t, t', acts[b - 1].p, acts[b - 1].op, j);
  }

  lemma ProtectedNow(width: nat, numSlots: nat, maxUser: nat, acts: seq<Act>, j: nat)
    requires numSlots >= 1 && ScheduleOk(acts, width, maxUser) && j < NUM_SHAREDIDX * maxUser
    requires Run(width, numSlots, maxUser, acts).valid[j]
    ensures var s := Run(width, numSlots, maxUser, acts);
            InRange(s, s.haz[j]) && SameLife(s.slots[s.haz[j]], s.slots[s.haz[j]])
  {
    RunInv(width, numSlots, maxUser, acts);
    var s := Run(width, numSlots, maxUser, acts);
    assert HazOk(s, j) && SlotOk(s, s.haz[j]);
  }
}
