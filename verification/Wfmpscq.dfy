/**
 The wait-free multi-producer single-consumer queue of src/wfmpscq.c as a transition system: one ring per
 writer, a global counter for message ids, and a consumer that either merges the rings by id or visits them
 in turn. Each step makes at most one access to memory that another process writes; a message is copied one
 word per step.
 */
module Wfmpscq {
  import opened Common
  import opened Cyclic

  const MAXID := 0xffff_ffff
  const TWO_TO_THE_32 := 0x1_0000_0000
  const TWO_TO_THE_64 := 0x1_0000_0000_0000_0000

  /** The lower half of a 64 bit counter does not see that it wraps. */
  lemma LowBits(a: nat)
    ensures a % TWO_TO_THE_64 % TWO_TO_THE_32 == a % TWO_TO_THE_32
  {
    var low := a % TWO_TO_THE_64;
    Fundamental(a, TWO_TO_THE_64);
    Fundamental(low, TWO_TO_THE_32);
    Unique(a, TWO_TO_THE_32, (a / TWO_TO_THE_64) * TWO_TO_THE_32 + low / TWO_TO_THE_32, low % TWO_TO_THE_32);
  }

  datatype Entry = Entry(id: int, msg: Msg)

  datatype WriterPC =
    | WIdle
    | CheckFull  // 85 reads head
    | TakeId     // 94
    | StoreData(c: int)  // 101, word c; past the last word, 102 stores the id
    | StoreTail  // 107

  /** One ring and its writer. Auxiliary: log, what was published; taken, how much of it was dequeued. */
  datatype Ring = Ring(
    head: int, tail: int, slots: seq<Entry>,
    pc: WriterPC, msg: Msg, id: int,
    log: seq<Entry>, taken: nat)

  datatype Strategy = IdAbsolute | RoundRobin

  datatype ConsumerPC =
    | CIdle
    | ScanTail(i: nat)  // 127, ring i
    | ScanId(i: nat)    // 128
    | Look(i: nat)      // 143, the i-th look of the round-robin scan
    | Take(c: int)      // 167, word c; past the last word, 170 stores head

  /**
   lastqueue keeps its value between calls. Auxiliary: snap and base, per ring |log| and taken when the scan
   began.
   */
  datatype Consumer = Consumer(
    pc: ConsumerPC, tail: int, minId: int, queue: int, lastqueue: int, out: Msg,
    snap: seq<nat>, base: seq<nat>)

  /**
   The result of a dequeue, with what was published and taken when its scan began, and whether at most
   0xffffffff ids had been given when it returned.
   */
  datatype Result =
    | Empty(snap: seq<nat>, base: seq<nat>, inLimit: bool)
    | Got(w: nat, id: int, msg: Msg, snap: seq<nat>, base: seq<nat>, inLimit: bool)

  /** Auxiliary: issued, the number of ids given so far; results, what the completed dequeues returned. */
  datatype State = State(
    strategy: Strategy, numSlots: nat, width: nat,
    idCnt: nat,
    rings: seq<Ring>,
    cons: Consumer,
    issued: nat, results: seq<Result>)

  ghost predicate Shape(s: State) {
    && s.numSlots >= 1
    && forall w :: 0 <= w < |s.rings| ==> RingShape(s, w)
  }

  ghost predicate RingShape(s: State, w: int)
    requires 0 <= w < |s.rings|
  {
    |s.rings[w].slots| == s.numSlots && 0 <= s.rings[w].head < s.numSlots && 0 <= s.rings[w].tail < s.numSlots
  }

  // ----- wfmpscq_enqueue (lines 85-109)

  function RingStep(r: Ring, numSlots: nat, width: nat, idCnt: nat, msg: Msg): Ring
    requires numSlots >= 1 && |r.slots| == numSlots && 0 <= r.head < numSlots && 0 <= r.tail < numSlots
  {
    match r.pc
    case WIdle => r.(pc := CheckFull, msg := msg)
    case CheckFull => r.(pc := if (r.tail + 1) % numSlots == r.head then WIdle else TakeId)
    case TakeId => r.(pc := StoreData(0), id := idCnt % TWO_TO_THE_32)
    case StoreData(c) =>
      var slot := r.slots[r.tail];
      if c < width then
        r.(pc := StoreData(c + 1), slots := r.slots[r.tail := slot.(msg := SetWord(slot.msg, c, Word(r.msg, c)))])
      else
        r.(pc := StoreTail, slots := r.slots[r.tail := slot.(id := r.id)])
    case StoreTail => r.(pc := WIdle, tail := (r.tail + 1) % numSlots, log := r.log + [Entry(r.id, r.msg)])
  }

  /** One step of writer w; an idle writer begins to enqueue msg. */
  function Write(s: State, w: nat, msg: Msg): State
    requires Shape(s) && w < |s.rings|
  {
    assert RingShape(s, w);
    var s1 := s.(rings := s.rings[w := RingStep(s.rings[w], s.numSlots, s.width, s.idCnt, msg)]);
    if s.rings[w].pc.TakeId? then s1.(idCnt := (s.idCnt + 1) % TWO_TO_THE_64, issued := s.issued + 1) else s1
  }

  // ----- wfmpscq_dequeue (lines 121-172)

  function Logs(s: State): seq<nat> {
    seq(|s.rings|, w requires 0 <= w < |s.rings| => |s.rings[w].log|)
  }

  function Takens(s: State): seq<nat> {
    seq(|s.rings|, w requires 0 <= w < |s.rings| => s.rings[w].taken)
  }

  /** At most 0xffffffff messages so far, as the documentation of the merge demands. */
  predicate InLimit(s: State) { s.issued <= MAXID }

  function BeginScan(s: State): State {
    s.(cons := s.cons.(
      pc := if s.strategy.IdAbsolute? then ScanTail(0) else Look(0),
      minId := MAXID, queue := -1, snap := Logs(s), base := Takens(s)))
  }

  function ReturnEmpty(s: State): State {
    s.(cons := s.cons.(pc := CIdle), results := s.results + [Empty(s.cons.snap, s.cons.base, InLimit(s))])
  }

  function StepScanTail(s: State): State
    requires s.cons.pc.ScanTail?
  {
    var c, i := s.cons, s.cons.pc.i;
    if i < |s.rings| then s.(cons := c.(tail := s.rings[i].tail, pc := ScanId(i)))
    else if c.queue == -1 then ReturnEmpty(s)
    else s.(cons := c.(pc := Take(0), out := []))
  }

  function StepScanId(s: State): State
    requires Shape(s) && s.cons.pc.ScanId? && s.cons.pc.i < |s.rings|
  {
    var c, i := s.cons, s.cons.pc.i;
    var r := s.rings[i];
    assert RingShape(s, i);
    var id := r.slots[r.head].id;
    if r.head != c.tail && id < c.minId
    then s.(cons := c.(minId := id, queue := i, pc := ScanTail(i + 1)))
    else s.(cons := c.(pc := ScanTail(i + 1)))
  }

  /** Line 151 also reads the id of the message, which the writer no longer changes. */
  function StepLook(s: State): State
    requires Shape(s) && s.cons.pc.Look? && 0 <= s.cons.lastqueue < |s.rings|
  {
    var c, i := s.cons, s.cons.pc.i;
    if i >= |s.rings| then
      ReturnEmpty(s)
    else
      var q := (c.lastqueue + 1) % |s.rings|;
      Fundamental(c.lastqueue + 1, |s.rings|);
      var r := s.rings[q];
      assert RingShape(s, q);
      if r.head != r.tail
      then s.(cons := c.(lastqueue := q, queue := q, minId := r.slots[r.head].id, pc := Take(0), out := []))
      else s.(cons := c.(lastqueue := q, pc := Look(i + 1)))
  }

  function StepTake(s: State): State
    requires Shape(s) && s.cons.pc.Take? && 0 <= s.cons.queue < |s.rings|
  {
    var r, c := s.rings[s.cons.queue], s.cons.pc.c;
    assert RingShape(s, s.cons.queue);
    s.(cons := s.cons.(out := s.cons.out + [Word(r.slots[r.head].msg, c)], pc := Take(c + 1)))
  }

  function StepStoreHead(s: State): State
    requires Shape(s) && 0 <= s.cons.queue < |s.rings|
  {
    var c, r := s.cons, s.rings[s.cons.queue];
    s.(rings := s.rings[c.queue := r.(head := (r.head + 1) % s.numSlots, taken := r.taken + 1)],
       cons := c.(pc := CIdle),
       results := s.results + [Got(c.queue, c.minId, c.out, c.snap, c.base, InLimit(s))])
  }

  /** The consumer's locals index existing rings. */
  predicate ConsumerShape(s: State) {
    && (s.cons.pc.ScanId? ==> s.cons.pc.i < |s.rings|)
    && (s.cons.pc.Look? ==> 0 <= s.cons.lastqueue < |s.rings|)
    && (s.cons.pc.Take? ==> 0 <= s.cons.queue < |s.rings|)
  }

  function Dequeue(s: State): State
    requires Shape(s) && ConsumerShape(s)
  {
    match s.cons.pc
    case CIdle => BeginScan(s)
    case ScanTail(_) => StepScanTail(s)
    case ScanId(_) => StepScanId(s)
    case Look(_) => StepLook(s)
    case Take(c) => if c < s.width then StepTake(s) else StepStoreHead(s)
  }

  // ----- The invariant

  /** Message k of a ring is in its slot. */
  ghost predicate EntryOk(r: Ring, numSlots: nat, k: int)
    requires numSlots >= 1 && |r.slots| == numSlots && 0 <= k < |r.log|
  {
    Fundamental(k, numSlots);
    r.slots[k % numSlots] == r.log[k]
  }

  predicate Numbered(pc: WriterPC) { pc.StoreData? || pc.StoreTail? }

  ghost predicate RingOk(s: State, w: int)
    requires 0 <= w < |s.rings| && s.numSlots >= 1
  {
    var r, n := s.rings[w], s.numSlots;
    && RingShape(s, w)
    && r.taken <= |r.log| <= r.taken + n - 1
    && r.head == r.taken % n && r.tail == |r.log| % n
    && (forall k :: r.taken <= k < |r.log| ==> EntryOk(r, n, k))
    && (r.pc.TakeId? || Numbered(r.pc) ==> |r.log| + 1 <= r.taken + n - 1)
    && (forall k :: 0 <= k < n ==> |r.slots[k].msg| == s.width)
    && (forall k :: 0 <= k < |r.log| ==> |r.log[k].msg| == s.width)
    && (!r.pc.WIdle? ==> |r.msg| == s.width)
    && (r.pc.StoreData? ==> 0 <= r.pc.c <= s.width && r.slots[r.tail].msg[..r.pc.c] == r.msg[..r.pc.c])
    && (r.pc.StoreTail? ==> r.slots[r.tail] == Entry(r.id, r.msg))
  }

  /** The ids of one ring grow, and are below what the counter will give next. */
  ghost predicate IdsOk(s: State, w: int)
    requires 0 <= w < |s.rings|
  {
    var r := s.rings[w];
    && (forall k :: 0 <= k < |r.log| ==> 0 <= r.log[k].id < s.issued)
    && (forall j, k :: 0 <= j < k < |r.log| ==> r.log[j].id < r.log[k].id)
    && (Numbered(r.pc) ==> 0 <= r.id < s.issued && forall k :: 0 <= k < |r.log| ==> r.log[k].id < r.id)
  }

  function FrontId(r: Ring): int {
    if r.taken < |r.log| then r.log[r.taken].id else MAXID
  }

  predicate Scanning(pc: ConsumerPC) { !pc.CIdle? }

  /** How many rings the round-robin scan looks at before ring w. */
  function Distance(lastqueue: int, w: int, n: int): int {
    if w > lastqueue then w - lastqueue - 1 else w - lastqueue - 1 + n
  }

  /** The scan has already examined ring w. */
  predicate Examined(s: State, w: int) {
    match s.cons.pc
    case ScanTail(i) => w < i
    case ScanId(i) => w < i
    case Look(i) => Distance(s.cons.lastqueue, w, |s.rings|) >= |s.rings| - i
    case _ => false
  }

  ghost predicate ConsumerOk(s: State) {
    var c, n := s.cons, |s.rings|;
    && n >= 1 && 0 <= c.lastqueue < n
    && ConsumerShape(s)
    && (c.pc.ScanTail? ==> s.strategy.IdAbsolute? && c.pc.i <= n)
    && (c.pc.ScanId? ==> s.strategy.IdAbsolute?)
    && (c.pc.Look? ==> s.strategy.RoundRobin? && c.pc.i <= n)
    && (s.strategy.RoundRobin? && c.pc.Take? ==> c.queue == c.lastqueue)
    && (Scanning(c.pc) ==>
          && |c.snap| == |c.base| == n
          && forall w :: 0 <= w < n ==> c.base[w] == s.rings[w].taken && c.base[w] <= c.snap[w] <= |s.rings[w].log|)
  }

  ghost predicate Chosen(s: State)
    requires 0 <= s.cons.queue < |s.rings|
  {
    var r := s.rings[s.cons.queue];
    r.taken < |r.log| && s.cons.minId == r.log[r.taken].id
  }

  /** The words copied so far are those of the chosen message. */
  ghost predicate OutOk(s: State)
    requires s.cons.pc.Take? && 0 <= s.cons.queue < |s.rings| && Chosen(s)
  {
    var r, c := s.rings[s.cons.queue], s.cons.pc.c;
    0 <= c <= |r.log[r.taken].msg| && s.cons.out == r.log[r.taken].msg[..c]
  }

  /** Every message that waited when the merge began, in an examined ring, has an id of at least minId. */
  ghost predicate MergeOk(s: State)
    requires ConsumerOk(s)
  {
    var c := s.cons;
    && (c.pc.ScanTail? || c.pc.ScanId? ==>
          && (c.queue == -1 || (0 <= c.queue < c.pc.i && Chosen(s)))
          && (c.queue == -1 ==> c.minId == MAXID)
          && (InLimit(s) ==> forall w :: 0 <= w < c.pc.i && c.base[w] < c.snap[w] ==> c.minId <= FrontId(s.rings[w])))
    && (c.pc.ScanId? ==>
          && (c.tail != s.rings[c.pc.i].head ==> s.rings[c.pc.i].taken < |s.rings[c.pc.i].log|)
          && (c.tail == s.rings[c.pc.i].head ==> c.snap[c.pc.i] == c.base[c.pc.i]))
    && (c.pc.Look? ==> forall w :: 0 <= w < |s.rings| && Examined(s, w) ==> c.base[w] == c.snap[w])
    && (c.pc.Take? ==>
          && Chosen(s)
          && OutOk(s)
          && (s.strategy.IdAbsolute? && InLimit(s) ==>
                forall w :: 0 <= w < |s.rings| && c.base[w] < c.snap[w] ==> c.minId <= FrontId(s.rings[w])))
  }

  /** What a completed dequeue guarantees. */
  ghost predicate ResultOk(s: State, x: Result) {
    var n := |s.rings|;
    && |x.snap| == |x.base| == n
    && (forall w :: 0 <= w < n ==> x.base[w] <= x.snap[w] <= |s.rings[w].log|)
    && match x
       case Empty(snap, base, inLimit) =>
         s.strategy.RoundRobin? || inLimit ==> forall w :: 0 <= w < n ==> snap[w] == base[w]
       case Got(q, id, msg, snap, base, inLimit) =>
         && q < n && base[q] < |s.rings[q].log|
         && s.rings[q].log[base[q]] == Entry(id, msg)
         && (s.strategy.IdAbsolute? && inLimit ==>
               forall w, k :: 0 <= w < n && base[w] <= k < snap[w] ==> id <= s.rings[w].log[k].id)
  }

  ghost predicate Inv(s: State) {
    && s.numSlots >= 1
    && (forall w :: 0 <= w < |s.rings| ==> RingOk(s, w))
    && (InLimit(s) ==> s.idCnt == s.issued)
    && (InLimit(s) ==> forall w :: 0 <= w < |s.rings| ==> IdsOk(s, w))
    && ConsumerOk(s)
    && MergeOk(s)
    && (forall i :: 0 <= i < |s.results| ==> ResultOk(s, s.results[i]))
  }
}
