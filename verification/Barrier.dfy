/**
 The reusable barrier of src/barrier.c for any number of users, as a transition system. Each step makes
 one access to shared memory.
 */
module Barrier {
  import opened Counting

  datatype PC =
    | Outside
    | WaitFallen  // 51: spins while fallen is 1
    | Enter       // 55
    | ReadCnt     // 57, left operand
    | ReadFallen  // 57, right operand
    | SetFallen   // 60
    | Leave       // 63
    | Reset       // 64

  /** Auxiliary counters: increments (55) and decrements (63) of cnt, and returns from barrier_wait. */
  datatype User = User(pc: PC, entered: nat, left: nat, returned: nat)

  /** round is auxiliary: how often fallen was reset. */
  datatype State = State(cnt: int, fallen: int, users: seq<User>, round: nat)

  function Init(numUser: nat): State {
    State(0, 0, seq(numUser, _ => User(Outside, 0, 0, 0)), 0)
  }

  function SetUser(s: State, u: nat, x: User): State
    requires u < |s.users|
  {
    s.(users := s.users[u := x])
  }

  /** One step of user u; a user that is outside begins to wait. */
  function Step(s: State, u: nat): (s': State)
    requires u < |s.users|
    ensures |s'.users| == |s.users|
  {
    var x := s.users[u];
    match x.pc
    case Outside => SetUser(s, u, x.(pc := WaitFallen))
    case WaitFallen => if s.fallen == 1 then s else SetUser(s, u, x.(pc := Enter))
    case Enter => SetUser(s.(cnt := s.cnt + 1), u, x.(pc := ReadCnt, entered := x.entered + 1))
    case ReadCnt => SetUser(s, u, x.(pc := if s.cnt != |s.users| then ReadFallen else SetFallen))
    case ReadFallen => SetUser(s, u, x.(pc := if s.fallen == 0 then ReadCnt else SetFallen))
    case SetFallen => SetUser(s.(fallen := 1), u, x.(pc := Leave))
    case Leave =>
      SetUser(s.(cnt := s.cnt - 1), u,
              if s.cnt == 1 then x.(pc := Reset, left := x.left + 1)
              else x.(pc := Outside, left := x.left + 1, returned := x.returned + 1))
    case Reset => SetUser(s.(fallen := 0, round := s.round + 1), u, x.(pc := Outside, returned := x.returned + 1))
  }

  ghost function Run(numUser: nat, schedule: seq<nat>): (s: State)
    requires forall i :: 0 <= i < |schedule| ==> schedule[i] < numUser
    ensures |s.users| == numUser
  {
    if schedule == [] then Init(numUser)
    else Step(Run(numUser, schedule[..|schedule| - 1]), schedule[|schedule| - 1])
  }

  // ----- The invariant

  predicate Counted(pc: PC) { pc.ReadCnt? || pc.ReadFallen? || pc.SetFallen? || pc.Leave? }

  /** The users that cnt counts. */
  function Inside(s: State): set<int> {
    set u: int | 0 <= u < |s.users| && Counted(s.users[u].pc)
  }

  /** fallen is 0: nobody has left in this round, and nobody is past the loop unless all are in. */
  ghost predicate GatherOk(s: State, u: nat)
    requires u < |s.users|
  {
    var x := s.users[u];
    && x.left == x.returned == s.round
    && (x.pc.Outside? || x.pc.WaitFallen? || x.pc.Enter? || x.pc.ReadCnt? || x.pc.ReadFallen? || x.pc.SetFallen?)
    && x.entered == (if Counted(x.pc) then s.round + 1 else s.round)
    && (x.pc.SetFallen? ==> s.cnt == |s.users|)
  }

  /** fallen is 1: everybody has entered this round; the last one to leave resets. */
  ghost predicate DrainOk(s: State, u: nat)
    requires u < |s.users|
  {
    var x := s.users[u];
    && x.entered == s.round + 1
    && !x.pc.Enter?
    && x.left == (if Counted(x.pc) then s.round else s.round + 1)
    && x.returned == (if Counted(x.pc) || x.pc.Reset? then s.round else s.round + 1)
    && (x.pc.Reset? ==> s.cnt == 0 && forall v :: 0 <= v < |s.users| && v != u ==> !s.users[v].pc.Reset?)
  }

  ghost predicate Inv(s: State) {
    && s.cnt == |Inside(s)|
    && (s.fallen == 0 || s.fallen == 1)
    && (s.fallen == 0 ==> forall u :: 0 <= u < |s.users| ==> GatherOk(s, u))
    && (s.fallen == 1 ==> forall u :: 0 <= u < |s.users| ==> DrainOk(s, u))
    && (s.fallen == 1 && s.cnt == 0 ==> exists u :: 0 <= u < |s.users| && s.users[u].pc.Reset?)
  }

  lemma InitInv(numUser: nat)
    ensures Inv(Init(numUser))
  {
    assert Inside(Init(numUser)) == {};
  }

  // ----- Counting who is inside

  lemma InsideAll(s: State)
    ensures Inside(s) <= Below(|s.users|)
    ensures |Inside(s)| <= |s.users|
    ensures |Inside(s)| == |s.users| <==> forall u :: 0 <= u < |s.users| ==> Counted(s.users[u].pc)
  {
    BelowSize(|s.users|);
    SubsetSize(Inside(s), Below(|s.users|));
    if |Inside(s)| == |s.users| {
      var rest := Below(|s.users|) - Inside(s);
      assert Below(|s.users|) == Inside(s) + rest;
      assert rest == {};
      forall u | 0 <= u < |s.users| ensures Counted(s.users[u].pc) { assert u in Below(|s.users|) && u !in rest; }
    }
    if forall u :: 0 <= u < |s.users| ==> Counted(s.users[u].pc) {
      assert Inside(s) == Below(|s.users|);
    }
  }

  lemma InsideOne(s: State, u: nat)
    requires u < |s.users| && Counted(s.users[u].pc)
    ensures |Inside(s)| >= 1
    ensures |Inside(s)| == 1 ==> forall v :: 0 <= v < |s.users| && v != u ==> !Counted(s.users[v].pc)
  {
    assert u in Inside(s);
    if |Inside(s)| == 1 {
      assert |Inside(s) - {u}| == 0;
      forall v | 0 <= v < |s.users| && v != u ensures !Counted(s.users[v].pc) { assert v !in Inside(s) - {u}; }
    }
  }

  lemma InsideOther(s: State, s': State, u: nat)
    requires u < |s.users| && s' == Step(s, u)
    ensures forall v :: v != u ==> (v in Inside(s') <==> v in Inside(s))
  {
    assert forall v :: 0 <= v < |s.users| && v != u ==> s'.users[v] == s.users[v];
  }

  lemma InsideChange(s: State, s': State, u: nat)
    requires u < |s.users| == |s'.users|
    requires forall v :: v != u ==> (v in Inside(s') <==> v in Inside(s))
    ensures |Inside(s')| + (if Counted(s.users[u].pc) then 1 else 0)
            == |Inside(s)| + if Counted(s'.users[u].pc) then 1 else 0
  {
    var others := Inside(s) - {u};
    assert Inside(s') - {u} == others;
    assert Inside(s) == if Counted(s.users[u].pc) then others + {u} else others;
    assert Inside(s') == if Counted(s'.users[u].pc) then others + {u} else others;
  }

  lemma InsideStep(s: State, u: nat)
    requires u < |s.users|
    ensures |Inside(Step(s, u))| ==
      if s.users[u].pc.Enter? then |Inside(s)| + 1 else if s.users[u].pc.Leave? then |Inside(s)| - 1 else |Inside(s)|
  {
    InsideOther(s, Step(s, u), u);
    InsideChange(s, Step(s, u), u);
  }

  lemma GatherStep(s: State, u: nat)
    requires Inv(s) && u < |s.users| && s.fallen == 0
    ensures Inv(Step(s, u))
  {
    var s' := Step(s, u);
    InsideStep(s, u);
    InsideAll(s);
    assert GatherOk(s, u);
    if s.users[u].pc.SetFallen? {
      InsideOne(s', u);
      forall v | 0 <= v < |s.users| ensures DrainOk(s', v) { assert GatherOk(s, v); }
    } else {
      forall v | 0 <= v < |s.users| ensures GatherOk(s', v) { assert GatherOk(s, v); }
    }
  }

  lemma DrainStep(s: State, u: nat)
    requires Inv(s) && u < |s.users| && s.fallen == 1
    ensures Inv(Step(s, u))
  {
    var s' := Step(s, u);
    InsideStep(s, u);
    assert DrainOk(s, u);
    if Counted(s.users[u].pc) {
      InsideOne(s, u);
    }
    if s.users[u].pc.Reset? {
      forall v | 0 <= v < |s.users| ensures !Counted(s.users[v].pc) { if Counted(s.users[v].pc) { InsideOne(s, v); } }
      forall v | 0 <= v < |s.users| ensures GatherOk(s', v) { assert DrainOk(s, v); }
    } else {
      forall v | 0 <= v < |s.users| ensures s.users[v].pc.Reset? ==> s.cnt == 0 { assert DrainOk(s, v); }
      forall v | 0 <= v < |s.users| ensures DrainOk(s', v) { assert DrainOk(s, v); }
      if s'.cnt == 0 {
        if s.users[u].pc.Leave? { assert s'.users[u].pc.Reset?; }
        else { var w :| 0 <= w < |s.users| && s.users[w].pc.Reset?; assert s'.users[w] == s.users[w]; }
      }
    }
  }

  lemma {:induction false} RunInv(numUser: nat, schedule: seq<nat>)
    requires forall i :: 0 <= i < |schedule| ==> schedule[i] < numUser
    ensures Inv(Run(numUser, schedule))
  {
    if schedule == [] {
      InitInv(numUser);
    } else {
      var s, u := Run(numUser, schedule[..|schedule| - 1]), schedule[|schedule| - 1];
      RunInv(numUser, schedule[..|schedule| - 1]);
      if s.fallen == 0 { GatherStep(s, u); } else { DrainStep(s, u); }
    }
  }

  // ----- Safety over all rounds

  /**
   In every interleaving: nobody is past the loop of its k-th wait before everybody has done the increment
   of its k-th wait; the numbers of completed waits differ by at most one; and fallen is reset only when
   everybody has left the round.
   */
  lemma BarrierSafety(numUser: nat, schedule: seq<nat>)
    requires forall i :: 0 <= i < |schedule| ==> schedule[i] < numUser
    ensures
      var s := Run(numUser, schedule);
      forall u, v :: 0 <= u < numUser && 0 <= v < numUser ==>
        && (s.users[u].pc.SetFallen? || s.users[u].pc.Leave? ==> s.users[u].entered <= s.users[v].entered)
        && s.users[u].left <= s.users[v].entered && s.users[u].returned <= s.users[v].entered
        && s.users[u].returned <= s.users[v].returned + 1
        && (s.users[u].pc.Reset? ==> s.users[v].left == s.users[u].left && !Counted(s.users[v].pc))
  {
    RunInv(numUser, schedule);
    var s := Run(numUser, schedule);
    InsideAll(s);
    forall u, v | 0 <= u < numUser && 0 <= v < numUser
      ensures
        && (s.users[u].pc.SetFallen? || s.users[u].pc.Leave? ==> s.users[u].entered <= s.users[v].entered)
        && s.users[u].left <= s.users[v].entered && s.users[u].returned <= s.users[v].entered
        && s.users[u].returned <= s.users[v].returned + 1
        && (s.users[u].pc.Reset? ==> s.users[v].left == s.users[u].left && !Counted(s.users[v].pc))
    {
      SafetyOf(s, u, v);
    }
  }

  lemma SafetyOf(s: State, u: nat, v: nat)
    requires Inv(s) && u < |s.users| && v < |s.users|
    ensures s.users[u].pc.SetFallen? || s.users[u].pc.Leave? ==> s.users[u].entered <= s.users[v].entered
    ensures s.users[u].left <= s.users[v].entered && s.users[u].returned <= s.users[v].entered
    ensures s.users[u].returned <= s.users[v].returned + 1
    ensures s.users[u].pc.Reset? ==> s.users[v].left == s.users[u].left && !Counted(s.users[v].pc)
  {
    InsideAll(s);
    if s.fallen == 0 {
      assert GatherOk(s, u) && GatherOk(s, v);
    } else {
      assert DrainOk(s, u) && DrainOk(s, v);
      if Counted(s.users[v].pc) { InsideOne(s, v); }
    }
  }

  // ----- Calls

  /** How many waits of u the schedule began. */
  ghost function Begun(numUser: nat, schedule: seq<nat>, u: nat): nat
    requires (forall i :: 0 <= i < |schedule| ==> schedule[i] < numUser) && u < numUser
  {
    if schedule == [] then 0
    else
      var before := schedule[..|schedule| - 1];
      Begun(numUser, before, u)
      + if schedule[|schedule| - 1] == u && Run(numUser, before).users[u].pc.Outside? then 1 else 0
  }

  lemma CallStep(s: State, u: nat, v: nat)
    requires u < |s.users| && v < |s.users|
    ensures
      var x, x' := s.users[v], Step(s, u).users[v];
      if u != v then x' == x
      else if x.pc.Outside? then !x'.pc.Outside? && x'.returned == x.returned
      else x'.returned == x.returned + if x'.pc.Outside? then 1 else 0
  {
  }

  /** Every wait that began has returned or is running, so that BarrierSafety speaks of the waits of the schedule. */
  lemma {:induction false} ReturnedAsBegun(numUser: nat, schedule: seq<nat>, u: nat)
    requires (forall i :: 0 <= i < |schedule| ==> schedule[i] < numUser) && u < numUser
    ensures var x := Run(numUser, schedule).users[u];
            Begun(numUser, schedule, u) == x.returned + if x.pc.Outside? then 0 else 1
  {
    if schedule != [] {
      var before := schedule[..|schedule| - 1];
      ReturnedAsBegun(numUser, before, u);
      CallStep(Run(numUser, before), schedule[|schedule| - 1], u);
    }
  }

  // ----- Progress

  /** u is not held up by a spin loop: its own next step, or the one after it, leads on. */
  predicate Unblocked(s: State, u: nat)
    requires u < |s.users|
  {
    match s.users[u].pc
    case Outside => false
    case WaitFallen => s.fallen == 0
    case ReadCnt => s.cnt == |s.users| || s.fallen == 1
    case ReadFallen => s.cnt == |s.users| || s.fallen == 1
    case _ => true
  }

  /** Deadlock freedom: when every user is in barrier_wait, some user is unblocked. */
  lemma SomebodyUnblocked(s: State)
    requires Inv(s) && |s.users| >= 1 && forall u :: 0 <= u < |s.users| ==> !s.users[u].pc.Outside?
    ensures exists u :: 0 <= u < |s.users| && Unblocked(s, u)
  {
    InsideAll(s);
    if s.fallen == 0 {
      if s.cnt == |s.users| {
        assert GatherOk(s, 0) && Unblocked(s, 0);
      } else {
        var u :| 0 <= u < |s.users| && !Counted(s.users[u].pc);
        assert GatherOk(s, u) && Unblocked(s, u);
      }
    } else if s.cnt == 0 {
      var u :| 0 <= u < |s.users| && s.users[u].pc.Reset?;
      assert Unblocked(s, u);
    } else {
      var u :| u in Inside(s);
      assert Unblocked(s, u);
    }
  }

  /** Steps that a wait still needs, spinning not counted. */
  function Rank(s: State, u: nat): (r: nat)
    requires u < |s.users|
    ensures r <= 11
  {
    match s.users[u].pc
    case Outside => 0
    case WaitFallen => if s.fallen == 1 then 11 else 10
    case Enter => 9
    case ReadCnt => if s.fallen == 1 then 5 else if s.cnt == |s.users| then 6 else 8
    case ReadFallen => if s.fallen == 1 then 4 else if s.cnt == |s.users| then 7 else 8
    case SetFallen => 3
    case Leave => 2
    case Reset => 1
  }

  /**
   A step of an unblocked user takes it forward; a blocked user spins in place; and no step of anyone
   sets another user back or blocks it again.
   */
  lemma RankDecreases(s: State, u: nat, v: nat)
    requires Inv(s) && u < |s.users| && v < |s.users| && !s.users[u].pc.Outside? && !s.users[v].pc.Outside?
    ensures Unblocked(s, u) ==> Rank(Step(s, u), u) < Rank(s, u)
    ensures !Unblocked(s, u) ==> Rank(Step(s, u), u) == Rank(s, u)
    ensures v != u ==> Rank(Step(s, u), v) <= Rank(s, v) && (Unblocked(s, v) ==> Unblocked(Step(s, u), v))
  {
    InsideAll(s);
    InsideStep(s, u);
    if s.fallen == 0 {
      assert GatherOk(s, u) && GatherOk(s, v);
    } else {
      assert DrainOk(s, u) && DrainOk(s, v);
      if Counted(s.users[v].pc) { InsideOne(s, v); }
      if Counted(s.users[u].pc) { InsideOne(s, u); }
    }
  }

  /** How many of the steps a to b - 1 are steps of u in which it is not spinning. */
  ghost function Moves(numUser: nat, schedule: seq<nat>, u: nat, a: nat, b: nat): nat
    requires forall i :: 0 <= i < |schedule| ==> schedule[i] < numUser
    requires u < numUser && a <= b <= |schedule|
    decreases b
  {
    if a == b then 0
    else
      Moves(numUser, schedule, u, a, b - 1)
      + if schedule[b - 1] == u && Unblocked(Run(numUser, schedule[..b - 1]), u) then 1 else 0
  }

  /**
   A wait takes at most 11 steps besides spinning, whatever the others do: while u is in barrier_wait, its
   steps in which it does not spin are at most what its rank has fallen by.
   */
  lemma {:induction false} WaitIsShort(numUser: nat, schedule: seq<nat>, u: nat, a: nat, b: nat)
    requires forall i :: 0 <= i < |schedule| ==> schedule[i] < numUser
    requires u < numUser && a <= b <= |schedule|
    requires forall m :: a <= m < b ==> !Run(numUser, schedule[..m]).users[u].pc.Outside?
    ensures Moves(numUser, schedule, u, a, b) + Rank(Run(numUser, schedule[..b]), u)
            <= Rank(Run(numUser, schedule[..a]), u) <= 11
    decreases b
  {
    if a < b {
      WaitIsShort(numUser, schedule, u, a, b - 1);
      WaitStep(numUser, schedule, u, b);
    }
  }

  lemma WaitStep(numUser: nat, schedule: seq<nat>, u: nat, b: nat)
    requires forall i :: 0 <= i < |schedule| ==> schedule[i] < numUser
    requires u < numUser && 0 < b <= |schedule| && !Run(numUser, schedule[..b - 1]).users[u].pc.Outside?
    ensures var s := Run(numUser, schedule[..b - 1]);
            Rank(Run(numUser, schedule[..b]), u) + (if schedule[b - 1] == u && Unblocked(s, u) then 1 else 0)
            <= Rank(s, u)
  {
    assert schedule[..b][..b - 1] == schedule[..b - 1];
    RunInv(numUser, schedule[..b - 1]);
    RankOfStep(Run(numUser, schedule[..b - 1]), schedule[b - 1], u);
  }

  /** The same for one step, also of a user that is outside. */
  lemma RankOfStep(s: State, v: nat, u: nat)
    requires Inv(s) && u < |s.users| && v < |s.users| && !s.users[u].pc.Outside?
    ensures Rank(Step(s, v), u) + (if v == u && Unblocked(s, u) then 1 else 0) <= Rank(s, u)
  {
    if !s.users[v].pc.Outside? {
      RankDecreases(s, v, u);
    }
  }
}
