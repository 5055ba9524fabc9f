/**
 How many slots the queue of Mpmcq.dfy needs when calls do not overlap: a retire list holds at most as
 many slots as there are shared indexes, and an enqueue that finds no free slot bounds numSlots.
 */
module MpmcqCapacity {
  import opened Counting
  import opened Mpmcq
  import opened MpmcqSafety
  import opened MpmcqConservation
  import opened MpmcqLinearizable

  ghost predicate OthersIdle(s: State, p: nat) {
    forall q :: 0 <= q < |s.procs| && q != p ==> s.procs[q].pc.Idle?
  }

  /** A call begins only when no other call is running. */
  ghost predicate Sequential(width: nat, numSlots: nat, maxUser: nat, acts: seq<Act>)
    requires numSlots >= 1 && ScheduleOk(acts, width, maxUser)
  {
    forall i :: 0 <= i < |acts| ==> OthersIdle(Run(width, numSlots, maxUser, acts[..i]), acts[i].p)
  }

  // ----- What holds of each process in such runs

  /** getFreeSlot has passed n: it is one of the cnt slots cyclically before the cursor. */
  predicate Passed(cursor: int, cnt: int, numSlots: int, n: int) {
    cursor - cnt <= n < cursor || n >= cursor - cnt + numSlots
  }

  ghost predicate SoloOk(s: State, p: nat)
    requires Shape(s) && p < |s.procs|
  {
    var r := s.procs[p];
    && (r.pc.Scan? || r.pc.Release? ==> forall i :: 0 <= i < |r.rlist| ==> r.rlist[i] in s.haz)
    && (!r.pc.Scan? && !r.pc.Release? ==> |r.rlist| <= |s.haz|)
    && (r.pc.Claim? ==> forall n :: 0 <= n < |s.slots| && Passed(r.cursor, r.pc.cnt, |s.slots|, n) ==> s.slots[n].used)
  }

  ghost predicate SoloInv(s: State)
    requires Shape(s)
  {
    forall p :: 0 <= p < |s.procs| ==> SoloOk(s, p)
  }

  lemma KeptFits(s: State, p: nat)
    requires Inv(s) && p < |s.procs|
    requires forall i :: 0 <= i < |s.procs[p].rlist| ==> s.procs[p].rlist[i] in s.haz
    ensures |s.procs[p].rlist| <= |s.haz|
  {
    var a := s.procs[p].rlist;
    assert ProcOk(s, p);
    assert forall i :: 0 <= i < |a| ==> a[i] == Garbage(s.procs[p])[i];
    DistinctSize(a);
    ValuesSize(s.haz);
    SubsetSize(Values(a), Values(s.haz));
  }

  lemma SoloScan(s: State, p: nat)
    requires Inv(s) && SoloInv(s) && p < |s.procs| && s.procs[p].pc.Scan?
    ensures SoloOk(StepScan(s, p), p)
  {
    assert SoloOk(s, p) && ProcOk(s, p);
    if s.procs[p].todo == [] {
      KeptFits(s, p);
    }
  }

  lemma PassedNext(cursor: int, cnt: int, numSlots: int, n: int)
    requires 0 <= cursor < numSlots && 0 <= cnt < numSlots && 0 <= n < numSlots
    requires Passed((cursor + 1) % numSlots, cnt + 1, numSlots, n)
    ensures n == cursor || Passed(cursor, cnt, numSlots, n)
  {
    assert (cursor + 1) % numSlots == if cursor + 1 < numSlots then cursor + 1 else 0;
  }

  lemma SoloClaim(s: State, p: nat)
    requires Shape(s) && p < |s.procs| && s.procs[p].pc.Claim? && SoloOk(s, p)
    requires InRange(s, s.procs[p].cursor) && 0 <= s.procs[p].pc.cnt
    ensures SoloOk(StepClaim(s, p), p)
  {
    var r, s' := s.procs[p], StepClaim(s, p);
    if r.pc.cnt < |s.slots| && s.slots[r.cursor].used {
      var r' := s'.procs[p];
      forall n | 0 <= n < |s.slots| && Passed(r'.cursor, r'.pc.cnt, |s.slots|, n) ensures s'.slots[n].used {
        PassedNext(r.cursor, r.pc.cnt, |s.slots|, n);
      }
    }
  }

  lemma SoloPool(s: State, p: nat, op: Op)
    requires Shape(s) && p < |s.procs| && InPool(s.procs[p].pc)
    requires !s.procs[p].pc.Scan? && !s.procs[p].pc.Claim? && SoloOk(s, p)
    ensures SoloOk(Step(s, p, op), p)
  {
  }

  lemma SoloEnqueue(s: State, p: nat, op: Op)
    requires Shape(s) && p < |s.procs| && InEnqueue(s.procs[p].pc) && SoloOk(s, p)
    ensures SoloOk(Step(s, p, op), p)
  {
  }

  lemma SoloDequeue(s: State, p: nat, op: Op)
    requires Shape(s) && p < |s.procs| && !InPool(s.procs[p].pc) && !InEnqueue(s.procs[p].pc) && SoloOk(s, p)
    requires !s.procs[p].pc.CopyOut?
    ensures SoloOk(Step(s, p, op), p)
  {
    assert Step(s, p, op).procs[p].rlist == s.procs[p].rlist;
  }

  lemma SoloCopyOut(s: State, p: nat)
    requires Shape(s) && p < |s.procs| && s.procs[p].pc.CopyOut? && SoloOk(s, p)
    ensures SoloOk(StepCopyOut(s, p), p)
  {
  }

  lemma SoloKeeps(s: State, p: nat, op: Op)
    requires Inv(s) && SoloInv(s) && p < |s.procs| && OthersIdle(s, p)
    ensures SoloInv(Step(s, p, op))
  {
    var s' := Step(s, p, op);
    forall q | 0 <= q < |s'.procs| ensures SoloOk(s', q) {
      assert SoloOk(s, q);
      if q != p {
        OthersStay(s, p, op, q);
      } else if s.procs[p].pc.Scan? {
        SoloScan(s, p);
      } else if s.procs[p].pc.Claim? {
        assert ProcOk(s, p);
        SoloClaim(s, p);
      } else if InPool(s.procs[p].pc) {
        SoloPool(s, p, op);
      } else if InEnqueue(s.procs[p].pc) {
        SoloEnqueue(s, p, op);
      } else if s.procs[p].pc.CopyOut? {
        SoloCopyOut(s, p);
      } else {
        SoloDequeue(s, p, op);
      }
    }
  }

  lemma {:induction false} SequentialLists(width: nat, numSlots: nat, maxUser: nat, acts: seq<Act>)
    requires numSlots >= 1 && ScheduleOk(acts, width, maxUser) && Sequential(width, numSlots, maxUser, acts)
    ensures SoloInv(Run(width, numSlots, maxUser, acts))
  {
    if acts != [] {
      var a, before := acts[|acts| - 1], acts[..|acts| - 1];
      assert ActOk(a, width, maxUser);
      assert forall i :: 0 <= i < |before| ==> before[..i] == acts[..i];
      SequentialLists(width, numSlots, maxUser, before);
      RunInv(width, numSlots, maxUser, before);
      SoloKeeps(Run(width, numSlots, maxUser, before), a.p, a.op);
    }
  }

  // ----- Counting the slots when none is free

  ghost function GarbageOf(s: State, k: nat): (g: set<int>)
    requires k <= |s.procs|
    ensures forall p, n :: 0 <= p < k && n in Garbage(s.procs[p]) ==> n in g
  {
    if k == 0 then {} else GarbageOf(s, k - 1) + Values(Garbage(s.procs[k - 1]))
  }

  lemma {:induction false} GarbageSize(s: State, k: nat)
    requires k <= |s.procs|
    requires forall p :: 0 <= p < k ==> |Garbage(s.procs[p])| <= |s.haz|
    ensures |GarbageOf(s, k)| <= k * |s.haz|
  {
    if k > 0 {
      GarbageSize(s, k - 1);
      ValuesSize(Garbage(s.procs[k - 1]));
      assert k * |s.haz| == (k - 1) * |s.haz| + |s.haz|;
    }
  }

  lemma {:induction false} MessagesLength(s: State, c: seq<int>)
    ensures |Messages(s, c)| == if |c| <= 1 then 0 else |c| - 1
  {
    if |c| > 1 {
      MessagesLength(s, c[..|c| - 1]);
    }
  }

  /** An enqueue is about to return -1, so every slot is on the list or in a retire list. */
  lemma AllListedOrRetired(s: State, p: nat, n: int)
    requires Inv(s) && SoloInv(s) && p < |s.procs| && OthersIdle(s, p) && InRange(s, n)
    requires s.procs[p].pc == Claim(|s.slots|)
    ensures n in s.chain || n in GarbageOf(s, |s.procs|)
  {
    assert SoloOk(s, p) && ProcOk(s, p);
    assert Passed(s.procs[p].cursor, |s.slots|, |s.slots|, n);
    assert s.slots[n].used;
    var place := OnePlace(s, n);
    assert !place.NodeOf? && !place.HeldBy? && !place.BeingFreed?;
    if place.InRetireList? {
      assert n in Garbage(s.procs[place.p]);
    }
  }

  lemma FullCount(s: State, p: nat)
    requires Inv(s) && SoloInv(s) && p < |s.procs| && OthersIdle(s, p) && s.procs[p].pc == Claim(|s.slots|)
    ensures |s.slots| <= |Fifo(s)| + 1 + |s.procs| * |s.haz|
  {
    var g := GarbageOf(s, |s.procs|);
    forall q | 0 <= q < |s.procs| ensures |Garbage(s.procs[q])| <= |s.haz| { assert SoloOk(s, q) && ProcOk(s, q); }
    GarbageSize(s, |s.procs|);
    forall n | n in Below(|s.slots|) ensures n in Values(s.chain) + g { AllListedOrRetired(s, p, n); }
    BelowSize(|s.slots|);
    SubsetSize(Below(|s.slots|), Values(s.chain) + g);
    ValuesSize(s.chain);
    MessagesLength(s, s.chain);
  }
}
