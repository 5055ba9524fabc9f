/** Every slot of the queue of Mpmcq.dfy is in exactly one place. */
module MpmcqConservation {
  import opened Counting
  import opened Mpmcq
  import opened MpmcqSafety

  datatype Place =
    | Unused
    | NodeOf(p: nat)
    | OnList(i: nat)
    | HeldBy(p: nat)
    | InRetireList(p: nat, i: nat)
    | BeingFreed(p: nat)

  /** Where slot n is, in terms of the shared memory and the locals of the processes alone. */
  ghost predicate At(s: State, n: int, place: Place)
    requires InRange(s, n)
  {
    match place
    case Unused => !s.slots[n].used
    case NodeOf(p) => p < |s.procs| && HasNode(s.procs[p].pc) && s.procs[p].node == n
    case OnList(i) => i < |s.chain| && s.chain[i] == n
    case HeldBy(p) => p < |s.procs| && s.procs[p].pc.CopyOut? && s.procs[p].h == n
    case InRetireList(p, i) => p < |s.procs| && i < |Garbage(s.procs[p])| && Garbage(s.procs[p])[i] == n
    case BeingFreed(p) => p < |s.procs| && s.procs[p].pc.Release? && s.procs[p].victim == n
  }

  /** No slot is leaked, retired twice, or in two hands at once. */
  lemma OnePlace(s: State, n: int) returns (place: Place)
    requires Inv(s) && InRange(s, n)
    ensures At(s, n, place)
    ensures forall other :: At(s, n, other) ==> other == place
  {
    assert SlotOk(s, n);
    match s.slots[n].st {
    case Free => place := Unused;
    case Claimed(p) => place := NodeOf(p);
    case Linked => var i: nat :| i < |s.chain| && s.chain[i] == n; place := OnList(i);
    case Popped(p) => place := HeldBy(p);
    case Retired(p) =>
      var i: nat :| i < |Garbage(s.procs[p])| && Garbage(s.procs[p])[i] == n;
      place := InRetireList(p, i);
    case Clearing(p) => place := BeingFreed(p);
    }
    forall other | At(s, n, other) ensures other == place {
      PlaceStatus(s, n, other);
      if other.InRetireList? { assert ProcOk(s, other.p); }
    }
  }

  lemma PlaceStatus(s: State, n: int, place: Place)
    requires Inv(s) && InRange(s, n) && At(s, n, place)
    ensures
      match place
      case Unused => s.slots[n].st == Free
      case NodeOf(p) => s.slots[n].st == Claimed(p)
      case OnList(_) => s.slots[n].st == Linked
      case HeldBy(p) => s.slots[n].st == Popped(p)
      case InRetireList(p, _) => s.slots[n].st == Retired(p)
      case BeingFreed(p) => s.slots[n].st == Clearing(p)
  {
    assert SlotOk(s, n);
    if place.NodeOf? || place.HeldBy? || place.InRetireList? || place.BeingFreed? {
      assert ProcOk(s, place.p);
    }
  }

  /** RList and TmpList, which have room for numSlots entries each, are never full. */
  lemma RetireListsFit(s: State, p: nat)
    requires Inv(s) && p < |s.procs|
    ensures |s.procs[p].rlist| + |s.procs[p].todo| < |s.slots|
  {
    var g := Garbage(s.procs[p]);
    assert ProcOk(s, p);
    var a := g + [s.head];
    assert StatusOf(s, s.head) == Linked;
    assert forall i :: 0 <= i < |a| ==> 0 <= a[i] < |s.slots|;
    Pigeonhole(a, |s.slots|);
  }
}
