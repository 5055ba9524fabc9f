/**
 The lock-free multi-producer single-consumer queue of src/lfmpscq.c as a transition system.

 Every user of the queue has one shared index and may enqueue. One user is the consumer too, but lfmpscq_dequeue
 does not look at who calls it: here the consumer is a process of its own beside the producers, and OneCall in
 LfmpscqResults.dfy says when it is one of the users. The consumer never looks at tail, so head can overtake
 it. As in Mpmcq.dfy a step performs at most one access to shared memory; in particular the consumer's scan of
 the shared indexes reads one of them per step.
 */
module Lfmpscq {
  import opened Common

  /** Auxiliary: what a slot is used for. */
  datatype Status =
    | Free
    | Claimed(owner: nat)
    | Linked
    | Retired   // in RList or TmpList of the consumer
    | Clearing  // next is reset, used is not yet

  datatype Slot = Slot(used: bool, next: int, data: Msg, st: Status)

  datatype PC =
    | Idle
    | Claim(cnt: int)  // 31
    | Fill(c: int)     // 122, word c; past the last word, 123
    | ReadTail         // 131
    | PublishTail      // 134
    | CheckTail        // 137
    | ReadTailNext     // 142
    | HelpTail         // 148
    | Link             // 153
    | SwingTail        // 158

  datatype Producer = Producer(pc: PC, msg: Msg, node: int, t: int, tNext: int, cursor: int)

  datatype ConsumerPC =
    | ReadHead      // 203
    | ReadHeadNext  // 205
    | CopyOut(c: int)  // 213, word c; past the last word, 216 stores head
    | Scan(k: int)  // 181 reads sharedIdxs[k]; past the last index, 190 resets next
    | Release       // 191

  datatype Consumer = Consumer(
    pc: ConsumerPC,
    h: int, hNext: int, out: Msg,
    rlist: seq<int>, todo: seq<int>, victim: int)

  /** A message that producer p linked. */
  datatype Entry = Entry(p: nat, msg: Msg)

  /**
   The shared memory and all processes. Auxiliary, never read by a step: chain (the slots from head to
   the last node), valid (the index passed the check at line 137), linked (every message ever linked, in
   link order), sent (per producer, the messages of its successful calls) and got (what dequeue returned).
   */
  datatype State = State(
    width: nat,
    head: int, tail: int,
    slots: seq<Slot>,
    haz: seq<int>,
    procs: seq<Producer>,
    cons: Consumer,
    chain: seq<int>,
    valid: seq<bool>,
    linked: seq<Entry>,
    sent: seq<seq<Msg>>,
    got: seq<Msg>)

  ghost predicate Shape(s: State) {
    |s.slots| >= 1 && |s.haz| == |s.valid| == |s.procs| == |s.sent|
  }

  predicate InRange(s: State, n: int) { 0 <= n < |s.slots| }

  // Total accessors. The invariant shows that every access of a reachable state is in range.

  function NextOf(s: State, n: int): int {
    if InRange(s, n) then s.slots[n].next else UNDEFINED_NODE
  }

  function DataOf(s: State, n: int): Msg {
    if InRange(s, n) then s.slots[n].data else []
  }

  function StatusOf(s: State, n: int): Status {
    if InRange(s, n) then s.slots[n].st else Free
  }

  function SetSlot(s: State, n: int, slot: Slot): State {
    if InRange(s, n) then s.(slots := s.slots[n := slot]) else s
  }

  function SetNext(s: State, n: int, next: int): State {
    if InRange(s, n) then SetSlot(s, n, s.slots[n].(next := next)) else s
  }

  function SetStatus(s: State, n: int, st: Status): State {
    if InRange(s, n) then SetSlot(s, n, s.slots[n].(st := st)) else s
  }

  function SetProc(s: State, p: nat, r: Producer): State
    requires p < |s.procs|
  {
    s.(procs := s.procs[p := r])
  }

  // ----- lfmpscq_enqueue (lines 116-160) and getFreeSlot (lines 28-37)

  function StepClaim(s: State, p: nat): State
    requires Shape(s) && p < |s.procs| && s.procs[p].pc.Claim?
  {
    var r := s.procs[p];
    if r.pc.cnt >= |s.slots| then
      SetProc(s, p, r.(pc := Idle))
    else if InRange(s, r.cursor) && !s.slots[r.cursor].used then
      var s1 := SetSlot(s, r.cursor, s.slots[r.cursor].(used := true, st := Claimed(p)));
      SetProc(s1, p, r.(node := r.cursor, pc := Fill(0)))
    else
      SetProc(s, p, r.(cursor := (r.cursor + 1) % |s.slots|, pc := Claim(r.pc.cnt + 1)))
  }

  function StepFill(s: State, p: nat): State
    requires p < |s.procs| && s.procs[p].pc.Fill?
  {
    var r := s.procs[p];
    var c := r.pc.c;
    if c < s.width then
      var s1 := if InRange(s, r.node)
                then SetSlot(s, r.node, s.slots[r.node].(data := SetWord(s.slots[r.node].data, c, Word(r.msg, c))))
                else s;
      SetProc(s1, p, r.(pc := Fill(c + 1)))
    else
      SetProc(SetNext(s, r.node, UNDEFINED_NODE), p, r.(pc := ReadTail))
  }

  function StepPublishTail(s: State, p: nat): State
    requires Shape(s) && p < |s.procs|
  {
    SetProc(s.(haz := s.haz[p := s.procs[p].t], valid := s.valid[p := false]), p, s.procs[p].(pc := CheckTail))
  }

  function StepCheckTail(s: State, p: nat): State
    requires Shape(s) && p < |s.procs|
  {
    var r := s.procs[p];
    if s.tail != r.t then
      SetProc(s, p, r.(pc := ReadTail))
    else
      SetProc(s.(valid := s.valid[p := true]), p, r.(pc := ReadTailNext))
  }

  function StepReadTailNext(s: State, p: nat): State
    requires p < |s.procs|
  {
    var r := s.procs[p];
    var next := NextOf(s, r.t);
    SetProc(s, p, r.(tNext := next, pc := if next != UNDEFINED_NODE then HelpTail else Link))
  }

  function StepHelpTail(s: State, p: nat): State
    requires p < |s.procs|
  {
    var r := s.procs[p];
    var s1 := if s.tail == r.t then s.(tail := r.tNext) else s;
    SetProc(s1, p, r.(pc := ReadTail))
  }

  function StepLink(s: State, p: nat): State
    requires p < |s.procs|
  {
    var r := s.procs[p];
    if NextOf(s, r.t) == UNDEFINED_NODE then
      var s1 := SetStatus(SetNext(s, r.t, r.node), r.node, Linked);
      SetProc(s1.(chain := s.chain + [r.node], linked := s.linked + [Entry(p, r.msg)]), p, r.(pc := SwingTail))
    else
      SetProc(s, p, r.(pc := ReadTail))
  }

  function StepSwingTail(s: State, p: nat): State
    requires Shape(s) && p < |s.procs|
  {
    var r := s.procs[p];
    var s1 := if s.tail == r.t then s.(tail := r.node) else s;
    SetProc(s1.(sent := s.sent[p := s.sent[p] + [r.msg]]), p, r.(pc := Idle))
  }

  /** One step of producer p; an idle producer begins to enqueue msg. */
  function Produce(s: State, p: nat, msg: Msg): (s': State)
    requires Shape(s) && p < |s.procs|
    ensures Shape(s') && s'.width == s.width && |s'.slots| == |s.slots| && |s'.procs| == |s.procs|
  {
    var r := s.procs[p];
    match r.pc
    case Idle => SetProc(s, p, r.(msg := msg, pc := Claim(0)))
    case Claim(_) => StepClaim(s, p)
    case Fill(_) => StepFill(s, p)
    case ReadTail => SetProc(s, p, r.(t := s.tail, pc := PublishTail))
    case PublishTail => StepPublishTail(s, p)
    case CheckTail => StepCheckTail(s, p)
    case ReadTailNext => StepReadTailNext(s, p)
    case HelpTail => StepHelpTail(s, p)
    case Link => StepLink(s, p)
    case SwingTail => StepSwingTail(s, p)
  }

  // ----- lfmpscq_dequeue (lines 203-221) and RetireNode (lines 169-193)

  function StepReadHeadNext(s: State): State {
    var r := s.cons;
    var next := NextOf(s, r.h);
    s.(cons := r.(hNext := next, out := [], pc := if next == UNDEFINED_NODE then ReadHead else CopyOut(0)))
  }

  function StepCopyOut(s: State): State
    requires s.cons.pc.CopyOut?
  {
    var r := s.cons;
    var c := r.pc.c;
    if c < s.width then
      s.(cons := r.(out := r.out + [Word(DataOf(s, r.hNext), c)], pc := CopyOut(c + 1)))
    else
      SetStatus(s, r.h, Retired).(
        head := r.hNext, chain := if |s.chain| > 0 then s.chain[1..] else [], got := s.got + [r.out],
        cons := r.(todo := r.rlist + [r.h], rlist := [], pc := Scan(0)))
  }

  function StepScan(s: State): State
    requires s.cons.pc.Scan?
  {
    var r := s.cons;
    var k := r.pc.k;
    if r.todo == [] then
      s.(cons := r.(pc := ReadHead))
    else if 0 <= k < |s.haz| then
      if s.haz[k] == r.todo[0] then
        s.(cons := r.(rlist := r.rlist + [r.todo[0]], todo := r.todo[1..], pc := Scan(0)))
      else
        s.(cons := r.(pc := Scan(k + 1)))
    else
      SetStatus(SetNext(s, r.todo[0], UNDEFINED_NODE), r.todo[0], Clearing).(
        cons := r.(victim := r.todo[0], todo := r.todo[1..], pc := Release))
  }

  function StepRelease(s: State): State {
    var r := s.cons;
    var s1 := if InRange(s, r.victim)
              then SetSlot(s, r.victim, s.slots[r.victim].(used := false, st := Free))
              else s;
    s1.(cons := r.(pc := Scan(0)))
  }

  /** One step of the consumer; when it is not in a call it begins one. */
  function Consume(s: State): (s': State)
    requires Shape(s)
    ensures Shape(s') && s'.width == s.width && |s'.slots| == |s.slots| && |s'.procs| == |s.procs|
  {
    match s.cons.pc
    case ReadHead => s.(cons := s.cons.(h := s.head, pc := ReadHeadNext))
    case ReadHeadNext => StepReadHeadNext(s)
    case CopyOut(_) => StepCopyOut(s)
    case Scan(_) => StepScan(s)
    case Release => StepRelease(s)
  }

  // ----- Initial state (lines 72-95) and runs

  function InitSlot(width: nat, i: nat): Slot {
    Slot(i == 0, UNDEFINED_NODE, seq(width, _ => 0), if i == 0 then Linked else Free)
  }

  function Init(width: nat, numSlots: nat, maxUser: nat): State
    requires numSlots >= 1
  {
    State(width, 0, 0,
          seq(numSlots, i requires 0 <= i => InitSlot(width, i)),
          seq(maxUser, _ => UNDEFINED_NODE),
          seq(maxUser, _ => Producer(Idle, [], UNDEFINED_NODE, UNDEFINED_NODE, UNDEFINED_NODE, 0)),
          Consumer(ReadHead, UNDEFINED_NODE, UNDEFINED_NODE, [], [], [], UNDEFINED_NODE),
          [0],
          seq(maxUser, _ => false), [], seq(maxUser, _ => []), [])
  }

  datatype Act = ByProducer(p: nat, msg: Msg) | ByConsumer

  predicate ActOk(a: Act, width: nat, maxUser: nat) {
    a.ByProducer? ==> a.p < maxUser && |a.msg| == width
  }

  predicate ScheduleOk(acts: seq<Act>, width: nat, maxUser: nat) {
    forall i :: 0 <= i < |acts| ==> ActOk(acts[i], width, maxUser)
  }

  function Step(s: State, a: Act): (s': State)
    requires Shape(s) && ActOk(a, s.width, |s.procs|)
    ensures Shape(s') && s'.width == s.width && |s'.slots| == |s.slots| && |s'.procs| == |s.procs|
  {
    match a
    case ByProducer(p, msg) => Produce(s, p, msg)
    case ByConsumer => Consume(s)
  }

  ghost function RunFrom(s: State, acts: seq<Act>): (s': State)
    requires Shape(s) && ScheduleOk(acts, s.width, |s.procs|)
    ensures Shape(s') && s'.width == s.width && |s'.slots| == |s.slots| && |s'.procs| == |s.procs|
  {
    if acts == [] then s
    else
      assert ActOk(acts[|acts| - 1], s.width, |s.procs|);
      Step(RunFrom(s, acts[..|acts| - 1]), acts[|acts| - 1])
  }

  // ----- The scan as one step

  /** The rest of the inner loop of RetireNode for one slot, lines 180-185, without interruption. */
  ghost function FinishScan(s: State): (s': State)
    requires Shape(s)
    ensures Shape(s') && s'.width == s.width && |s'.slots| == |s.slots| && |s'.procs| == |s.procs|
    decreases if s.cons.pc.Scan? then |s.haz| - s.cons.pc.k else 0
  {
    var r := s.cons;
    if r.pc.Scan? && r.todo != [] && 0 <= r.pc.k < |s.haz| then
      var s1 := StepScan(s);
      if s.haz[r.pc.k] == r.todo[0] then s1 else FinishScan(s1)
    else
      s
  }

  /** A step, except that a scan of the shared indexes for one slot is not interrupted. */
  ghost function AtomicScanStep(s: State, a: Act): (s': State)
    requires Shape(s) && ActOk(a, s.width, |s.procs|)
    ensures Shape(s') && s'.width == s.width && |s'.slots| == |s.slots| && |s'.procs| == |s.procs|
  {
    if a.ByConsumer? && s.cons.pc.Scan? && s.cons.todo != [] && 0 <= s.cons.pc.k < |s.haz|
    then FinishScan(s)
    else Step(s, a)
  }

  ghost function AtomicScanRun(width: nat, numSlots: nat, maxUser: nat, acts: seq<Act>): (s: State)
    requires numSlots >= 1 && ScheduleOk(acts, width, maxUser)
    ensures Shape(s) && s.width == width && |s.slots| == numSlots && |s.procs| == maxUser
  {
    if acts == [] then
      Init(width, numSlots, maxUser)
    else
      assert ActOk(acts[|acts| - 1], width, maxUser);
      AtomicScanStep(AtomicScanRun(width, numSlots, maxUser, acts[..|acts| - 1]), acts[|acts| - 1])
  }
}
