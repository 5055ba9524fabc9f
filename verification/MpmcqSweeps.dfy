/**
 What the calls of Mpmcq.dfy leave in the retire lists: only slots that some shared index named while the call
 ran. So a slot that an enqueue misses is on the list, in the hands of a call, or was seen named by its holder.
 */
module MpmcqSweeps {
  import opened Common
  import C = Cyclic
  import opened Mpmcq
  import opened MpmcqSafety
  import opened MpmcqReclamation
  import opened MpmcqLinearizable
  import opened MpmcqCalls
  import opened MpmcqCapacity

  ghost predicate IdleAt(width: nat, numSlots: nat, maxUser: nat, acts: seq<Act>, p: nat, m: nat)
    requires numSlots >= 1 && ScheduleOk(acts, width, maxUser) && p < maxUser && m <= |acts|
  {
    Run(width, numSlots, maxUser, acts[..m]).procs[p].pc.Idle?
  }

  /** Step a begins a call of p, which is still running after each of the steps up to b - 1. */
  ghost predicate InCall(width: nat, numSlots: nat, maxUser: nat, acts: seq<Act>, p: nat, a: nat, b: nat)
    requires numSlots >= 1 && ScheduleOk(acts, width, maxUser) && p < maxUser
  {
    && a < b <= |acts| && acts[a].p == p && IdleAt(width, numSlots, maxUser, acts, p, a)
    && forall m :: a < m < b ==> !IdleAt(width, numSlots, maxUser, acts, p, m)
  }

  /** Some index names slot n in a state after more than c and at most b steps. */
  ghost predicate NamedBetween(width: nat, numSlots: nat, maxUser: nat, acts: seq<Act>, n: int, c: nat, b: nat)
    requires numSlots >= 1 && ScheduleOk(acts, width, maxUser) && b <= |acts|
  {
    exists i :: c < i <= b && n in Run(width, numSlots, maxUser, acts[..i]).haz
  }

  // ----- One step

  /** A step of p leaves a retired slot in its list only if it sees it named or the slot was there before. */
  lemma ListStep(s: State, p: nat, op: Op, n: int)
    requires Shape(s) && p < |s.procs| && n in Step(s, p, op).procs[p].rlist
    ensures !s.procs[p].pc.Idle? && (n in s.haz || n in s.procs[p].rlist)
  {
    var pc := s.procs[p].pc;
    if InPool(pc) {
      ListInPool(s, p, op);
    } else if InEnqueue(pc) || ReadsHead(pc) || pc.PublishNext? || pc.RecheckHead? {
      ListUntouched(s, p, op);
    } else {
      ListAtHead(s, p, op);
    }
  }

  lemma ListInPool(s: State, p: nat, op: Op)
    requires Shape(s) && p < |s.procs| && InPool(s.procs[p].pc)
    ensures var l, l' := s.procs[p].rlist, Step(s, p, op).procs[p].rlist;
            if s.procs[p].pc.Idle? then l' == []
            else l' == l || (s.procs[p].todo != [] && s.procs[p].todo[0] in s.haz && l' == l + [s.procs[p].todo[0]])
  {
  }

  lemma ListUntouched(s: State, p: nat, op: Op)
    requires Shape(s) && p < |s.procs|
    requires var pc := s.procs[p].pc; InEnqueue(pc) || ReadsHead(pc) || pc.PublishNext? || pc.RecheckHead?
    ensures Step(s, p, op).procs[p].rlist == s.procs[p].rlist
  {
    if InEnqueue(s.procs[p].pc) { ListInEnqueue(s, p, op); } else { ListInDequeue(s, p, op); }
  }

  lemma ListInEnqueue(s: State, p: nat, op: Op)
    requires Shape(s) && p < |s.procs| && InEnqueue(s.procs[p].pc)
    ensures Step(s, p, op).procs[p].rlist == s.procs[p].rlist
  {
  }

  lemma ListInDequeue(s: State, p: nat, op: Op)
    requires Shape(s) && p < |s.procs|
    requires var pc := s.procs[p].pc; ReadsHead(pc) || pc.PublishNext? || pc.RecheckHead?
    ensures Step(s, p, op).procs[p].rlist == s.procs[p].rlist
  {
  }

  lemma ListAtHead(s: State, p: nat, op: Op)
    requires Shape(s) && p < |s.procs|
    requires var pc := s.procs[p].pc; pc.FixTail? || pc.MoveHead? || pc.CopyOut?
    ensures var l' := Step(s, p, op).procs[p].rlist; l' == s.procs[p].rlist || l' == []
  {
  }

  /** Behind the step that takes a message p copies it, and then sweeps its whole list. */
  predicate Taking(r: Proc) {
    r.pc.CopyOut? || ((r.pc.Scan? || r.pc.Release?) && r.pc.caller.FromRetireNode?)
  }

  lemma TakingStep(s: State, p: nat, op: Op)
    requires Shape(s) && p < |s.procs| && (Taking(s.procs[p]) || Pops(s, p))
    ensures var r, r' := s.procs[p], Step(s, p, op).procs[p];
            && (Taking(r') || r'.pc.Idle?)
            && (Pops(s, p) ==> r'.pc.CopyOut?)
            && (r'.pc.CopyOut? || (r.pc.CopyOut? ==> r'.rlist == []))
            && (r'.pc.CopyOut? ==> r.pc.CopyOut? || Pops(s, p))
  {
  }

  lemma OtherStep(width: nat, numSlots: nat, maxUser: nat, acts: seq<Act>, b: nat, p: nat)
    requires numSlots >= 1 && ScheduleOk(acts, width, maxUser) && 0 < b <= |acts| && p < maxUser
    requires acts[b - 1].p != p
    ensures Run(width, numSlots, maxUser, acts[..b]).procs[p] == Run(width, numSlots, maxUser, acts[..b - 1]).procs[p]
  {
    RunStep(width, numSlots, maxUser, acts, b);
    OthersStay(Run(width, numSlots, maxUser, acts[..b - 1]), acts[b - 1].p, acts[b - 1].op, p);
  }

  // ----- A call

  lemma KeptBefore(width: nat, numSlots: nat, maxUser: nat, acts: seq<Act>, p: nat, b: nat, n: int)
    requires numSlots >= 1 && ScheduleOk(acts, width, maxUser) && p < maxUser && 0 < b <= |acts|
    requires n in Run(width, numSlots, maxUser, acts[..b]).procs[p].rlist
    ensures acts[b - 1].p == p ==> !IdleAt(width, numSlots, maxUser, acts, p, b - 1)
    ensures var s := Run(width, numSlots, maxUser, acts[..b - 1]); n in s.haz || n in s.procs[p].rlist
  {
    if acts[b - 1].p == p {
      RunStep(width, numSlots, maxUser, acts, b);
      ListStep(Run(width, numSlots, maxUser, acts[..b - 1]), p, acts[b - 1].op, n);
    } else {
      OtherStep(width, numSlots, maxUser, acts, b, p);
    }
  }

  /** The first sweep of a call: after b steps its list holds only slots named since the call began. */
  lemma {:induction false} KeptInCall(width: nat, numSlots: nat, maxUser: nat, acts: seq<Act>, p: nat, a: nat, b: nat,
                                      n: int)
    requires numSlots >= 1 && ScheduleOk(acts, width, maxUser) && p < maxUser
    requires InCall(width, numSlots, maxUser, acts, p, a, b)
    requires n in Run(width, numSlots, maxUser, acts[..b]).procs[p].rlist
    ensures NamedBetween(width, numSlots, maxUser, acts, n, a, b)
    decreases b
  {
    KeptBefore(width, numSlots, maxUser, acts, p, b, n);
    if n !in Run(width, numSlots, maxUser, acts[..b - 1]).haz {
      KeptInCall(width, numSlots, maxUser, acts, p, a, b - 1, n);
    }
  }

  /** The second sweep, of a call that took a message with step c: it holds only slots named since then. */
  lemma {:induction false} KeptAfterTaking(width: nat, numSlots: nat, maxUser: nat, acts: seq<Act>, p: nat, c: nat,
                                           b: nat, n: int)
    requires numSlots >= 1 && ScheduleOk(acts, width, maxUser) && p < maxUser && c < b <= |acts| && acts[c].p == p
    requires Pops(Run(width, numSlots, maxUser, acts[..c]), p)
    requires forall m :: c < m < b ==> !IdleAt(width, numSlots, maxUser, acts, p, m)
    ensures var r := Run(width, numSlots, maxUser, acts[..b]).procs[p];
            && (Taking(r) || r.pc.Idle?)
            && (r.pc.CopyOut? || n !in r.rlist || NamedBetween(width, numSlots, maxUser, acts, n, c, b))
    decreases b
  {
    var s := Run(width, numSlots, maxUser, acts[..b - 1]);
    var r := Run(width, numSlots, maxUser, acts[..b]).procs[p];
    RunStep(width, numSlots, maxUser, acts, b);
    if c < b - 1 {
      KeptAfterTaking(width, numSlots, maxUser, acts, p, c, b - 1, n);
      assert !IdleAt(width, numSlots, maxUser, acts, p, b - 1);
    }
    if acts[b - 1].p == p {
      TakingStep(s, p, acts[b - 1].op);
      if n in r.rlist && !r.pc.CopyOut? {
        ListStep(s, p, acts[b - 1].op, n);
      }
    } else {
      OtherStep(width, numSlots, maxUser, acts, b, p);
    }
  }

  /**
   What a call leaves behind. When a call of p that began with step a has returned after b steps, p holds only
   retired slots that some index named while the call ran; and if the call took a message with step c, only
   slots that some index named after that.
   */
  lemma HeldWasNamed(width: nat, numSlots: nat, maxUser: nat, acts: seq<Act>, p: nat, a: nat, b: nat, n: int)
    requires numSlots >= 1 && ScheduleOk(acts, width, maxUser) && p < maxUser
    requires InCall(width, numSlots, maxUser, acts, p, a, b) && IdleAt(width, numSlots, maxUser, acts, p, b)
    requires n in Run(width, numSlots, maxUser, acts[..b]).procs[p].rlist
    ensures NamedBetween(width, numSlots, maxUser, acts, n, a, b)
    ensures forall c :: a < c < b && acts[c].p == p && Pops(Run(width, numSlots, maxUser, acts[..c]), p) ==>
              NamedBetween(width, numSlots, maxUser, acts, n, c, b)
  {
    KeptInCall(width, numSlots, maxUser, acts, p, a, b, n);
    forall c | a < c < b && acts[c].p == p && Pops(Run(width, numSlots, maxUser, acts[..c]), p)
      ensures NamedBetween(width, numSlots, maxUser, acts, n, c, b)
    {
      KeptAfterTaking(width, numSlots, maxUser, acts, p, c, b, n);
    }
  }

  // ----- The last call of a process

  /** Step a begins the last call of p among the first m steps, and it runs or ran until b. */
  ghost predicate LastCall(width: nat, numSlots: nat, maxUser: nat, acts: seq<Act>, p: nat, a: nat, b: nat, m: nat)
    requires numSlots >= 1 && ScheduleOk(acts, width, maxUser) && p < maxUser && m <= |acts|
  {
    && b <= m && InCall(width, numSlots, maxUser, acts, p, a, b)
    && forall i :: b <= i <= m && b < m ==> IdleAt(width, numSlots, maxUser, acts, p, i)
  }

  /** The retired slot n that p holds was named by an index during the last call of p. */
  ghost predicate SeenNamed(width: nat, numSlots: nat, maxUser: nat, acts: seq<Act>, p: nat, n: int, m: nat)
    requires numSlots >= 1 && ScheduleOk(acts, width, maxUser) && p < maxUser && m <= |acts|
  {
    exists a, b :: && LastCall(width, numSlots, maxUser, acts, p, a, b, m)
                   && NamedBetween(width, numSlots, maxUser, acts, n, a, b)
  }

  lemma {:induction false} CallOf(width: nat, numSlots: nat, maxUser: nat, acts: seq<Act>, p: nat, m: nat)
    returns (a: nat)
    requires numSlots >= 1 && ScheduleOk(acts, width, maxUser) && p < maxUser && m <= |acts|
    requires !IdleAt(width, numSlots, maxUser, acts, p, m)
    ensures InCall(width, numSlots, maxUser, acts, p, a, m)
    decreases m
  {
    NothingAtFirst(width, numSlots, maxUser, acts, p);
    if IdleAt(width, numSlots, maxUser, acts, p, m - 1) {
      if acts[m - 1].p != p { OtherStep(width, numSlots, maxUser, acts, m, p); }
      a := m - 1;
    } else {
      a := CallOf(width, numSlots, maxUser, acts, p, m - 1);
    }
  }

  lemma SeenInCall(width: nat, numSlots: nat, maxUser: nat, acts: seq<Act>, p: nat, n: int, a: nat, m: nat)
    requires numSlots >= 1 && ScheduleOk(acts, width, maxUser) && p < maxUser && m <= |acts|
    requires InCall(width, numSlots, maxUser, acts, p, a, m)
    requires n in Run(width, numSlots, maxUser, acts[..m]).procs[p].rlist
    ensures SeenNamed(width, numSlots, maxUser, acts, p, n, m)
  {
    KeptInCall(width, numSlots, maxUser, acts, p, a, m, n);
    assert LastCall(width, numSlots, maxUser, acts, p, a, m, m);
  }

  lemma SeenStill(width: nat, numSlots: nat, maxUser: nat, acts: seq<Act>, p: nat, n: int, m: nat)
    requires numSlots >= 1 && ScheduleOk(acts, width, maxUser) && p < maxUser && 0 < m <= |acts|
    requires IdleAt(width, numSlots, maxUser, acts, p, m - 1) && IdleAt(width, numSlots, maxUser, acts, p, m)
    requires SeenNamed(width, numSlots, maxUser, acts, p, n, m - 1)
    ensures SeenNamed(width, numSlots, maxUser, acts, p, n, m)
  {
    var a, b :| && LastCall(width, numSlots, maxUser, acts, p, a, b, m - 1)
                && NamedBetween(width, numSlots, maxUser, acts, n, a, b);
    assert LastCall(width, numSlots, maxUser, acts, p, a, b, m);
  }

  lemma NothingAtFirst(width: nat, numSlots: nat, maxUser: nat, acts: seq<Act>, p: nat)
    requires numSlots >= 1 && ScheduleOk(acts, width, maxUser) && p < maxUser
    ensures IdleAt(width, numSlots, maxUser, acts, p, 0)
    ensures Run(width, numSlots, maxUser, acts[..0]).procs[p].rlist == []
  {
    assert acts[..0] == [];
  }

  /** In every run: whatever p holds after m steps was named during its last call. */
  lemma {:induction false} HeldWasSeen(width: nat, numSlots: nat, maxUser: nat, acts: seq<Act>, p: nat, n: int, m: nat)
    requires numSlots >= 1 && ScheduleOk(acts, width, maxUser) && p < maxUser && m <= |acts|
    requires n in Run(width, numSlots, maxUser, acts[..m]).procs[p].rlist
    ensures SeenNamed(width, numSlots, maxUser, acts, p, n, m)
    decreases m
  {
    NothingAtFirst(width, numSlots, maxUser, acts, p);
    if IdleAt(width, numSlots, maxUser, acts, p, m) && IdleAt(width, numSlots, maxUser, acts, p, m - 1) {
      StaysIdle(width, numSlots, maxUser, acts, p, m);
      HeldWasSeen(width, numSlots, maxUser, acts, p, n, m - 1);
      SeenStill(width, numSlots, maxUser, acts, p, n, m);
    } else {
      var a := CallUntil(width, numSlots, maxUser, acts, p, m);
      SeenInCall(width, numSlots, maxUser, acts, p, n, a, m);
    }
  }

  lemma CallUntil(width: nat, numSlots: nat, maxUser: nat, acts: seq<Act>, p: nat, m: nat) returns (a: nat)
    requires numSlots >= 1 && ScheduleOk(acts, width, maxUser) && p < maxUser && 0 < m <= |acts|
    requires !IdleAt(width, numSlots, maxUser, acts, p, m) || !IdleAt(width, numSlots, maxUser, acts, p, m - 1)
    ensures InCall(width, numSlots, maxUser, acts, p, a, m)
  {
    if !IdleAt(width, numSlots, maxUser, acts, p, m) {
      a := CallOf(width, numSlots, maxUser, acts, p, m);
    } else {
      a := CallOf(width, numSlots, maxUser, acts, p, m - 1);
    }
  }

  lemma Begins(width: nat, numSlots: nat, maxUser: nat, acts: seq<Act>, p: nat, m: nat)
    requires numSlots >= 1 && ScheduleOk(acts, width, maxUser) && p < maxUser && 0 < m <= |acts|
    requires IdleAt(width, numSlots, maxUser, acts, p, m - 1) && acts[m - 1].p == p
    ensures !IdleAt(width, numSlots, maxUser, acts, p, m)
  {
    RunStep(width, numSlots, maxUser, acts, m);
    CallGoesOn(Run(width, numSlots, maxUser, acts[..m - 1]), p, acts[m - 1].op);
  }

  /** An idle process that stays idle took no step. */
  lemma StaysIdle(width: nat, numSlots: nat, maxUser: nat, acts: seq<Act>, p: nat, m: nat)
    requires numSlots >= 1 && ScheduleOk(acts, width, maxUser) && p < maxUser && 0 < m <= |acts|
    requires IdleAt(width, numSlots, maxUser, acts, p, m - 1) && IdleAt(width, numSlots, maxUser, acts, p, m)
    ensures Run(width, numSlots, maxUser, acts[..m]).procs[p] == Run(width, numSlots, maxUser, acts[..m - 1]).procs[p]
  {
    if acts[m - 1].p == p {
      Begins(width, numSlots, maxUser, acts, p, m);
    } else {
      OtherStep(width, numSlots, maxUser, acts, m, p);
    }
  }

  /**
   When calls do not overlap and an enqueue of p is about to return -1, slot n is on the list, or some process
   holds it and saw it named during its own last call, which for p is this one: nobody keeps a slot that it
   could have freed.
   */
  lemma RefusedOnlyIfNamed(width: nat, numSlots: nat, maxUser: nat, acts: seq<Act>, p: nat, n: nat)
    requires numSlots >= 1 && ScheduleOk(acts, width, maxUser) && p < maxUser && n < numSlots
    requires Sequential(width, numSlots, maxUser, acts)
    requires var s := Run(width, numSlots, maxUser, acts); OthersIdle(s, p) && s.procs[p].pc == Claim(numSlots)
    ensures
      var s := Run(width, numSlots, maxUser, acts);
      || n in s.chain
      || exists q :: && 0 <= q < maxUser && n in s.procs[q].rlist
                     && SeenNamed(width, numSlots, maxUser, acts, q, n, |acts|)
  {
    var s := Run(width, numSlots, maxUser, acts);
    RunInv(width, numSlots, maxUser, acts);
    SequentialLists(width, numSlots, maxUser, acts);
    var q := HolderOf(s, p, n);
    if n !in s.chain {
      assert acts[..|acts|] == acts;
      HeldWasSeen(width, numSlots, maxUser, acts, q, n, |acts|);
    }
  }

  lemma HolderOf(s: State, p: nat, n: nat) returns (q: nat)
    requires Inv(s) && SoloInv(s) && p < |s.procs| && OthersIdle(s, p) && n < |s.slots|
    requires s.procs[p].pc == Claim(|s.slots|)
    ensures n in s.chain || (q < |s.procs| && n in s.procs[q].rlist)
  {
    AllListedOrRetired(s, p, n);
    q := 0;
    if n !in s.chain {
      q := InGarbage(s, n, |s.procs|);
      assert ProcOk(s, q);
    }
  }

  lemma {:induction false} InGarbage(s: State, n: int, k: nat) returns (q: nat)
    requires k <= |s.procs| && n in GarbageOf(s, k)
    ensures q < k && n in Garbage(s.procs[q])
  {
    if n in Garbage(s.procs[k - 1]) {
      q := k - 1;
    } else {
      q := InGarbage(s, n, k - 1);
    }
  }

  // ----- Which slot an enqueue claims

  /**
   Where the search of a process is: it begins at the slot that the process claimed last, at slot 0 the first
   time, and goes round; a search that fails ends where it began.
   */
  predicate SearchOk(r: Proc, numSlots: nat)
    requires numSlots >= 1
  {
    var start := if r.node == UNDEFINED_NODE then 0 else r.node;
    && 0 <= start < numSlots
    && (r.pc.Claim? ==> 0 <= r.pc.cnt <= numSlots)
    && r.cursor == if r.pc.Claim? then (start + r.pc.cnt) % numSlots else start
  }

  /** No other line touches the two variables. */
  predicate SameSearch(r: Proc, r': Proc) {
    r'.cursor == r.cursor && r'.node == r.node && (r'.pc.Claim? ==> r'.pc.cnt == 0)
  }

  lemma SearchInPool(s: State, p: nat, op: Op)
    requires Shape(s) && p < |s.procs| && InPool(s.procs[p].pc) && !s.procs[p].pc.Claim?
    ensures SameSearch(s.procs[p], Step(s, p, op).procs[p])
  {
  }

  lemma SearchInEnqueue(s: State, p: nat, op: Op)
    requires Shape(s) && p < |s.procs| && InEnqueue(s.procs[p].pc)
    ensures SameSearch(s.procs[p], Step(s, p, op).procs[p])
  {
  }

  lemma SearchInDequeue(s: State, p: nat, op: Op)
    requires Shape(s) && p < |s.procs|
    requires var pc := s.procs[p].pc; ReadsHead(pc) || pc.PublishNext? || pc.RecheckHead?
    ensures SameSearch(s.procs[p], Step(s, p, op).procs[p])
  {
  }

  lemma SearchAtHead(s: State, p: nat, op: Op)
    requires Shape(s) && p < |s.procs|
    requires var pc := s.procs[p].pc; pc.FixTail? || pc.MoveHead? || pc.CopyOut?
    ensures SameSearch(s.procs[p], Step(s, p, op).procs[p])
  {
  }

  lemma SearchElse(s: State, p: nat, op: Op)
    requires Shape(s) && p < |s.procs| && !s.procs[p].pc.Claim?
    ensures SameSearch(s.procs[p], Step(s, p, op).procs[p])
  {
    var pc := s.procs[p].pc;
    if InPool(pc) {
      SearchInPool(s, p, op);
    } else if InEnqueue(pc) {
      SearchInEnqueue(s, p, op);
    } else if ReadsHead(pc) || pc.PublishNext? || pc.RecheckHead? {
      SearchInDequeue(s, p, op);
    } else {
      SearchAtHead(s, p, op);
    }
  }

  lemma SearchStep(s: State, p: nat, op: Op)
    requires Shape(s) && p < |s.procs| && SearchOk(s.procs[p], |s.slots|)
    ensures SearchOk(Step(s, p, op).procs[p], |s.slots|)
  {
    var r, n := s.procs[p], |s.slots|;
    var start := if r.node == UNDEFINED_NODE then 0 else r.node;
    C.Small(start, n);
    if r.pc.Claim? {
      SearchGoesOn(s, p, start);
    } else {
      SearchElse(s, p, op);
    }
  }

  lemma SearchGoesOn(s: State, p: nat, start: int)
    requires Shape(s) && p < |s.procs| && s.procs[p].pc.Claim? && SearchOk(s.procs[p], |s.slots|)
    requires start == if s.procs[p].node == UNDEFINED_NODE then 0 else s.procs[p].node
    ensures SearchOk(StepClaim(s, p).procs[p], |s.slots|)
  {
    C.Next(start + s.procs[p].pc.cnt, |s.slots|);
    C.Round(start, |s.slots|);
    C.Small(start, |s.slots|);
    C.Fundamental(start + s.procs[p].pc.cnt, |s.slots|);
  }

  /** In every run each search begins at the slot that the process claimed last, and goes round. */
  lemma {:induction false} SearchFromLast(width: nat, numSlots: nat, maxUser: nat, acts: seq<Act>, p: nat)
    requires numSlots >= 1 && ScheduleOk(acts, width, maxUser) && p < maxUser
    ensures SearchOk(Run(width, numSlots, maxUser, acts).procs[p], numSlots)
  {
    if acts != [] {
      var a, before := acts[|acts| - 1], acts[..|acts| - 1];
      assert ActOk(a, width, maxUser);
      SearchFromLast(width, numSlots, maxUser, before, p);
      var s := Run(width, numSlots, maxUser, before);
      if a.p == p { SearchStep(s, p, a.op); } else { OthersStay(s, a.p, a.op, p); }
    }
  }
}
