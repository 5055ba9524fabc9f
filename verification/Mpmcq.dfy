/**
 The lock-free multi-producer multi-consumer queue of src/mpmcq.c as a transition system.

 Every process runs the code of one user of the queue. A step of a process performs at most
 one access to shared memory: one read, one store, or one compare-and-swap. A message is copied
 one word per step. Purely local work (list copies, loop tests) is folded into the step next to it.
 */
module Mpmcq {
  import opened Common

  // NUM_SHAREDIDX of the source
  const NUM_SHAREDIDX := 2

  datatype Op = Enqueue(msg: Msg) | Dequeue

  /** What a slot is used for. Auxiliary: no step branches on it. */
  datatype Status =
    | Free
    | Claimed(owner: nat)   // won by getFreeSlot, not linked yet
    | Linked             // on the list that starts at head
    | Popped(owner: nat)    // taken off the list, RetireNode not called yet
    | Retired(owner: nat)   // in RList or TmpList of a user
    | Clearing(owner: nat)  // next is reset, used is not yet

  datatype Slot = Slot(used: bool, next: int, data: Msg, st: Status)

  /** Where TryRetire returns to. */
  datatype Caller = FromEnqueue | FromDequeue | FromRetireNode

  /** The next shared access of a process, with the source line it is on. */
  datatype PC =
    | Idle
    | Scan(k: int, caller: Caller)  // 127 reads sharedIdxs[k]; past the last index, 135 resets next
    | Release(caller: Caller)       // 136
    | Claim(cnt: int)               // 32
    | Fill(c: int)                  // 166, word c; past the last word, 167
    | ReadTail                      // 175
    | PublishTail                   // 178
    | CheckTail                     // 181
    | ReadTailNext                  // 186
    | HelpTail                      // 192
    | Link                          // 197
    | SwingTail                     // 202
    | ReadHead                      // 223
    | PublishHead                   // 226
    | CheckHead                     // 229
    | ReadTailToo                   // 233
    | ReadHeadNext                  // 237
    | PublishNext                   // 239
    | RecheckHead                   // 243
    | FixTail                       // 252
    | MoveHead                      // 257
    | CopyOut(c: int)               // 263, word c; past the last word, RetireNode

  /** The local variables of one process. `cursor` is the static i of getFreeSlot; `taken` is auxiliary. */
  datatype Proc = Proc(
    pc: PC,
    msg: Msg, node: int, t: int, tNext: int,
    h: int, hNext: int, out: Msg,
    cursor: int, rlist: seq<int>, todo: seq<int>, victim: int,
    taken: Msg)

  /**
   The shared memory and all processes. haz is sharedIdxs: user p owns indexes 2p and 2p+1.
   Auxiliary, never read by a step: chain (the slots from head to the last node) and valid
   (valid[j] says that the value of haz[j] passed the check that follows its store).
   */
  datatype State = State(
    width: nat,
    head: int, tail: int,
    slots: seq<Slot>,
    haz: seq<int>,
    procs: seq<Proc>,
    chain: seq<int>,
    valid: seq<bool>)

  ghost predicate Shape(s: State) {
    && |s.slots| >= 1
    && |s.haz| == NUM_SHAREDIDX * |s.procs|
    && |s.valid| == |s.haz|
  }

  predicate InRange(s: State, n: int) { 0 <= n < |s.slots| }

  // Total accessors. The invariant shows that every access of a reachable state is in range.

  function NextOf(s: State, n: int): int {
    if InRange(s, n) then s.slots[n].next else UNDEFINED_NODE
  }

  function DataOf(s: State, n: int): Msg {
    if InRange(s, n) then s.slots[n].data else []
  }

  function StatusOf(s: State, n: int): Status {
    if InRange(s, n) then s.slots[n].st else Free
  }

  function SetSlot(s: State, n: int, slot: Slot): State {
    if InRange(s, n) then s.(slots := s.slots[n := slot]) else s
  }

  function SetNext(s: State, n: int, next: int): State {
    if InRange(s, n) then SetSlot(s, n, s.slots[n].(next := next)) else s
  }

  function SetStatus(s: State, n: int, st: Status): State {
    if InRange(s, n) then SetSlot(s, n, s.slots[n].(st := st)) else s
  }

  function SetProc(s: State, p: nat, r: Proc): State
    requires p < |s.procs|
  {
    s.(procs := s.procs[p := r])
  }

  function SetHaz(s: State, j: int, n: int, ok: bool): State
    requires Shape(s)
    requires 0 <= j < |s.haz|
  {
    s.(haz := s.haz[j := n], valid := s.valid[j := ok])
  }

  // ----- TryRetire and getFreeSlot (lines 113-139 and 23-39)

  function StartScan(r: Proc, list: seq<int>, caller: Caller): Proc {
    r.(todo := list, rlist := [], pc := Scan(0, caller))
  }

  function AfterScan(caller: Caller): PC {
    match caller
    case FromEnqueue => Claim(0)
    case FromDequeue => ReadHead
    case FromRetireNode => Idle
  }

  function Begin(s: State, p: nat, op: Op): State
    requires p < |s.procs|
  {
    var r := s.procs[p];
    match op
    case Enqueue(msg) => SetProc(s, p, StartScan(r.(msg := msg), r.rlist, FromEnqueue))
    case Dequeue => SetProc(s, p, StartScan(r, r.rlist, FromDequeue))
  }

  function StepScan(s: State, p: nat): State
    requires p < |s.procs| && s.procs[p].pc.Scan?
  {
    var r := s.procs[p];
    var Scan(k, caller) := r.pc;
    if r.todo == [] then
      SetProc(s, p, r.(pc := AfterScan(caller)))
    else if 0 <= k < |s.haz| then
      if s.haz[k] == r.todo[0] then
        SetProc(s, p, r.(rlist := r.rlist + [r.todo[0]], todo := r.todo[1..], pc := Scan(0, caller)))
      else
        SetProc(s, p, r.(pc := Scan(k + 1, caller)))
    else
      var s1 := SetStatus(SetNext(s, r.todo[0], UNDEFINED_NODE), r.todo[0], Clearing(p));
      SetProc(s1, p, r.(victim := r.todo[0], todo := r.todo[1..], pc := Release(caller)))
  }

  function StepRelease(s: State, p: nat): State
    requires p < |s.procs| && s.procs[p].pc.Release?
  {
    var r := s.procs[p];
    var s1 := if InRange(s, r.victim)
              then SetSlot(s, r.victim, s.slots[r.victim].(used := false, st := Free))
              else s;
    SetProc(s1, p, r.(pc := Scan(0, r.pc.caller)))
  }

  function StepClaim(s: State, p: nat): State
    requires Shape(s) && p < |s.procs| && s.procs[p].pc.Claim?
  {
    var r := s.procs[p];
    if r.pc.cnt >= |s.slots| then
      SetProc(s, p, r.(pc := Idle))
    else if InRange(s, r.cursor) && !s.slots[r.cursor].used then
      var s1 := SetSlot(s, r.cursor, s.slots[r.cursor].(used := true, st := Claimed(p)));
      SetProc(s1, p, r.(node := r.cursor, pc := Fill(0)))
    else
      SetProc(s, p, r.(cursor := (r.cursor + 1) % |s.slots|, pc := Claim(r.pc.cnt + 1)))
  }

  // ----- mpmcq_enqueue (lines 164-204)

  function StepFill(s: State, p: nat): State
    requires p < |s.procs| && s.procs[p].pc.Fill?
  {
    var r := s.procs[p];
    var c := r.pc.c;
    if c < s.width then
      var s1 := if InRange(s, r.node)
                then SetSlot(s, r.node, s.slots[r.node].(data := SetWord(s.slots[r.node].data, c, Word(r.msg, c))))
                else s;
      SetProc(s1, p, r.(pc := Fill(c + 1)))
    else
      SetProc(SetNext(s, r.node, UNDEFINED_NODE), p, r.(pc := ReadTail))
  }

  function StepReadTail(s: State, p: nat): State
    requires p < |s.procs|
  {
    SetProc(s, p, s.procs[p].(t := s.tail, pc := PublishTail))
  }

  function StepPublishTail(s: State, p: nat): State
    requires Shape(s) && p < |s.procs|
  {
    SetProc(SetHaz(s, 2 * p, s.procs[p].t, false), p, s.procs[p].(pc := CheckTail))
  }

  function StepCheckTail(s: State, p: nat): State
    requires Shape(s) && p < |s.procs|
  {
    var r := s.procs[p];
    if s.tail != r.t then
      SetProc(s, p, r.(pc := ReadTail))
    else
      SetProc(s.(valid := s.valid[2 * p := true]), p, r.(pc := ReadTailNext))
  }

  function StepReadTailNext(s: State, p: nat): State
    requires p < |s.procs|
  {
    var r := s.procs[p];
    var next := NextOf(s, r.t);
    SetProc(s, p, r.(tNext := next, pc := if next != UNDEFINED_NODE then HelpTail else Link))
  }

  function StepHelpTail(s: State, p: nat): State
    requires p < |s.procs|
  {
    var r := s.procs[p];
    var s1 := if s.tail == r.t then s.(tail := r.tNext) else s;
    SetProc(s1, p, r.(pc := ReadTail))
  }

  function StepLink(s: State, p: nat): State
    requires p < |s.procs|
  {
    var r := s.procs[p];
    if NextOf(s, r.t) == UNDEFINED_NODE then
      var s1 := SetStatus(SetNext(s, r.t, r.node), r.node, Linked);
      SetProc(s1.(chain := s.chain + [r.node]), p, r.(pc := SwingTail))
    else
      SetProc(s, p, r.(pc := ReadTail))
  }

  function StepSwingTail(s: State, p: nat): State
    requires p < |s.procs|
  {
    var r := s.procs[p];
    var s1 := if s.tail == r.t then s.(tail := r.node) else s;
    SetProc(s1, p, r.(pc := Idle))
  }

  // ----- mpmcq_dequeue (lines 221-266)

  function StepReadHead(s: State, p: nat): State
    requires p < |s.procs|
  {
    SetProc(s, p, s.procs[p].(h := s.head, pc := PublishHead))
  }

  function StepPublishHead(s: State, p: nat): State
    requires Shape(s) && p < |s.procs|
  {
    SetProc(SetHaz(s, 2 * p, s.procs[p].h, false), p, s.procs[p].(pc := CheckHead))
  }

  function StepCheckHead(s: State, p: nat): State
    requires Shape(s) && p < |s.procs|
  {
    var r := s.procs[p];
    if s.head != r.h then
      SetProc(s, p, r.(pc := ReadHead))
    else
      SetProc(s.(valid := s.valid[2 * p := true]), p, r.(pc := ReadTailToo))
  }

  function StepReadTailToo(s: State, p: nat): State
    requires p < |s.procs|
  {
    SetProc(s, p, s.procs[p].(t := s.tail, pc := ReadHeadNext))
  }

  function StepReadHeadNext(s: State, p: nat): State
    requires p < |s.procs|
  {
    SetProc(s, p, s.procs[p].(hNext := NextOf(s, s.procs[p].h), pc := PublishNext))
  }

  function StepPublishNext(s: State, p: nat): State
    requires Shape(s) && p < |s.procs|
  {
    SetProc(SetHaz(s, 2 * p + 1, s.procs[p].hNext, false), p, s.procs[p].(pc := RecheckHead))
  }

  function StepRecheckHead(s: State, p: nat): State
    requires Shape(s) && p < |s.procs|
  {
    var r := s.procs[p];
    if s.head != r.h then
      SetProc(s, p, r.(pc := ReadHead))
    else if r.hNext == UNDEFINED_NODE then
      SetProc(s, p, r.(pc := Idle))
    else
      SetProc(s.(valid := s.valid[2 * p + 1 := true]), p, r.(pc := if r.h == r.t then FixTail else MoveHead))
  }

  function StepFixTail(s: State, p: nat): State
    requires p < |s.procs|
  {
    var r := s.procs[p];
    var s1 := if s.tail == r.t then s.(tail := r.hNext) else s;
    SetProc(s1, p, r.(pc := ReadHead))
  }

  function StepMoveHead(s: State, p: nat): State
    requires p < |s.procs|
  {
    var r := s.procs[p];
    if s.head == r.h then
      var s1 := SetStatus(s, r.h, Popped(p));
      SetProc(s1.(head := r.hNext, chain := if |s.chain| > 0 then s.chain[1..] else []), p,
              r.(pc := CopyOut(0), out := [], taken := DataOf(s, r.hNext)))
    else
      SetProc(s, p, r.(pc := ReadHead))
  }

  function StepCopyOut(s: State, p: nat): State
    requires p < |s.procs| && s.procs[p].pc.CopyOut?
  {
    var r := s.procs[p];
    var c := r.pc.c;
    if c < s.width then
      SetProc(s, p, r.(out := r.out + [Word(DataOf(s, r.hNext), c)], pc := CopyOut(c + 1)))
    else
      SetProc(SetStatus(s, r.h, Retired(p)), p, StartScan(r, r.rlist + [r.h], FromRetireNode))
  }

  /** One step of process p. An idle process begins the call `op`; otherwise `op` is not looked at. */
  function Step(s: State, p: nat, op: Op): (s': State)
    requires Shape(s) && p < |s.procs|
    ensures Shape(s') && s'.width == s.width && |s'.slots| == |s.slots| && |s'.procs| == |s.procs|
  {
    match s.procs[p].pc
    case Idle => Begin(s, p, op)
    case Scan(_, _) => StepScan(s, p)
    case Release(_) => StepRelease(s, p)
    case Claim(_) => StepClaim(s, p)
    case Fill(_) => StepFill(s, p)
    case ReadTail => StepReadTail(s, p)
    case PublishTail => StepPublishTail(s, p)
    case CheckTail => StepCheckTail(s, p)
    case ReadTailNext => StepReadTailNext(s, p)
    case HelpTail => StepHelpTail(s, p)
    case Link => StepLink(s, p)
    case SwingTail => StepSwingTail(s, p)
    case ReadHead => StepReadHead(s, p)
    case PublishHead => StepPublishHead(s, p)
    case CheckHead => StepCheckHead(s, p)
    case ReadTailToo => StepReadTailToo(s, p)
    case ReadHeadNext => StepReadHeadNext(s, p)
    case PublishNext => StepPublishNext(s, p)
    case RecheckHead => StepRecheckHead(s, p)
    case FixTail => StepFixTail(s, p)
    case MoveHead => StepMoveHead(s, p)
    case CopyOut(_) => StepCopyOut(s, p)
  }

  // ----- Initial state (mpmcq_get, lines 74-104) and runs

  function InitSlot(width: nat, i: nat): Slot {
    Slot(i == 0, UNDEFINED_NODE, seq(width, _ => 0), if i == 0 then Linked else Free)
  }

  const InitProc := Proc(Idle, [], UNDEFINED_NODE, UNDEFINED_NODE, UNDEFINED_NODE,
                         UNDEFINED_NODE, UNDEFINED_NODE, [], 0, [], [], UNDEFINED_NODE, [])

  /** The state after the first mpmcq_get: slot 0 is the dummy, no index is published. */
  function Init(width: nat, numSlots: nat, maxUser: nat): State
    requires numSlots >= 1
  {
    State(width, 0, 0,
          seq(numSlots, i requires 0 <= i => InitSlot(width, i)),
          seq(NUM_SHAREDIDX * maxUser, _ => UNDEFINED_NODE),
          seq(maxUser, _ => InitProc),
          [0],
          seq(NUM_SHAREDIDX * maxUser, _ => false))
  }

  /** A schedule entry: process p takes a step, and begins `op` if it is idle. */
  datatype Act = Act(p: nat, op: Op)

  predicate ActOk(a: Act, width: nat, maxUser: nat) {
    a.p < maxUser && (a.op.Enqueue? ==> |a.op.msg| == width)
  }

  predicate ScheduleOk(acts: seq<Act>, width: nat, maxUser: nat) {
    forall i :: 0 <= i < |acts| ==> ActOk(acts[i], width, maxUser)
  }

  /** The state that a schedule leads to. */
  ghost function Run(width: nat, numSlots: nat, maxUser: nat, acts: seq<Act>): (s: State)
    requires numSlots >= 1 && ScheduleOk(acts, width, maxUser)
    ensures Shape(s) && s.width == width && |s.slots| == numSlots && |s.procs| == maxUser
  {
    if acts == [] then
      Init(width, numSlots, maxUser)
    else
      var a := acts[|acts| - 1];
      assert ActOk(a, width, maxUser);
      Step(Run(width, numSlots, maxUser, acts[..|acts| - 1]), a.p, a.op)
  }
}
