/**
 The sensor buffer of src/sensorbuffer.c as a transition system: one writer that overwrites the oldest of
 numBuffer buffers, one reader that takes the latest. Each step makes at most one access to shared memory;
 both copies move one cell per step, so a torn read can be expressed.
 */
module Sensorbuffer {
  import opened Common

  /** num is auxiliary: the number of the last update that set v in this buffer, or -1. */
  datatype Buffer = Buffer(r: int, v: int, cells: Msg, num: int)

  datatype WriterPC =
    | WIdle         // 65 reads last_written
    | ClearV        // 71
    | ClearR        // 72
    | Write(c: int) // 75, cell c; past the last cell, 78 sets v
    | Publish       // 81

  datatype Writer = Writer(pc: WriterPC, current: int, msg: Msg)

  datatype ReaderPC =
    | RIdle
    | ReadLast      // 95
    | SetR          // 104
    | CheckV        // 107
    | Copy(c: int)  // 111, cell c; past the last cell, 114 checks r

  /**
   Auxiliary: begin and attempt, the number of completed updates when the call and its current attempt
   began; seen, the update in the buffer when line 107 succeeded; fails, the failed attempts of the call; owed,
   numBuffer - 1 for each of them.
   */
  datatype Reader = Reader(
    pc: ReaderPC, current: int, out: Msg,
    begin: nat, attempt: nat, seen: int, fails: nat, owed: nat)

  /** A successful read: what it returned, the update it saw, and the updates completed when it began. */
  datatype Read = Read(out: Msg, seen: int, begin: nat)

  /**
   Auxiliary: updates (every message whose update has begun), done (updates that passed line 81), log (the
   successful reads).
   */
  datatype State = State(
    width: nat,
    last: int,
    bufs: seq<Buffer>,
    writer: Writer,
    reader: Reader,
    updates: seq<Msg>,
    done: nat,
    log: seq<Read>)

  ghost predicate Shape(s: State) { |s.bufs| >= 1 }

  predicate InRange(s: State, b: int) { 0 <= b < |s.bufs| }

  function Get(s: State, b: int): Buffer {
    if InRange(s, b) then s.bufs[b] else Buffer(0, 0, [], -1)
  }

  function Put(s: State, b: int, buf: Buffer): State {
    if InRange(s, b) then s.(bufs := s.bufs[b := buf]) else s
  }

  /** sensorbuffer_update (lines 65-81). An idle writer begins to store msg. */
  function WriterStep(s: State, msg: Msg): State
    requires Shape(s)
  {
    var w := s.writer;
    match w.pc
    case WIdle =>
      s.(writer := Writer(ClearV, (s.last + 1) % |s.bufs|, msg), updates := s.updates + [msg])
    case ClearV => Put(s, w.current, Get(s, w.current).(v := 0)).(writer := w.(pc := ClearR))
    case ClearR => Put(s, w.current, Get(s, w.current).(r := 0)).(writer := w.(pc := Write(0)))
    case Write(c) =>
      var buf := Get(s, w.current);
      if c < s.width then
        Put(s, w.current, buf.(cells := SetWord(buf.cells, c, Word(w.msg, c)))).(writer := w.(pc := Write(c + 1)))
      else
        Put(s, w.current, buf.(v := 1, num := s.done)).(writer := w.(pc := Publish))
    case Publish => s.(last := w.current, done := s.done + 1, writer := w.(pc := WIdle))
  }

  function Fail(r: Reader, numBuffer: nat): Reader
    requires numBuffer >= 1
  {
    r.(pc := ReadLast, fails := r.fails + 1, owed := r.owed + numBuffer - 1)
  }

  /** sensorbuffer_read (lines 93-120). An idle reader begins a call. */
  function ReaderStep(s: State): State
    requires Shape(s)
  {
    var r := s.reader;
    match r.pc
    case RIdle => s.(reader := r.(pc := ReadLast, begin := s.done, fails := 0, owed := 0))
    case ReadLast =>
      s.(reader := r.(pc := if s.last == -1 then RIdle else SetR, current := s.last, attempt := s.done))
    case SetR => Put(s, r.current, Get(s, r.current).(r := 1)).(reader := r.(pc := CheckV))
    case CheckV =>
      if Get(s, r.current).v != 1
      then s.(reader := Fail(r, |s.bufs|))
      else s.(reader := r.(pc := Copy(0), out := [], seen := Get(s, r.current).num))
    case Copy(c) =>
      if c < s.width then
        s.(reader := r.(pc := Copy(c + 1), out := r.out + [Word(Get(s, r.current).cells, c)]))
      else if Get(s, r.current).r != 1 then
        s.(reader := Fail(r, |s.bufs|))
      else
        s.(reader := r.(pc := RIdle), log := s.log + [Read(r.out, r.seen, r.begin)])
  }

  datatype Act = ByWriter(msg: Msg) | ByReader

  function Step(s: State, a: Act): (s': State)
    requires Shape(s)
    ensures Shape(s') && s'.width == s.width && |s'.bufs| == |s.bufs|
  {
    match a
    case ByWriter(msg) => WriterStep(s, msg)
    case ByReader => ReaderStep(s)
  }

  /** No update yet; the flags and the contents of the buffers may be anything. */
  ghost predicate Initial(s: State) {
    && Shape(s)
    && s.last == -1 && s.done == 0 && s.updates == [] && s.log == []
    && s.writer.pc == WIdle && s.reader.pc == RIdle
    && forall b :: 0 <= b < |s.bufs| ==> |s.bufs[b].cells| == s.width && s.bufs[b].num == -1
  }

  predicate ScheduleOk(acts: seq<Act>, width: nat) {
    forall i :: 0 <= i < |acts| ==> acts[i].ByWriter? ==> |acts[i].msg| == width
  }

  ghost function Run(s: State, acts: seq<Act>): (s': State)
    requires Shape(s) && ScheduleOk(acts, s.width)
    ensures Shape(s') && s'.width == s.width && |s'.bufs| == |s.bufs|
  {
    if acts == [] then s else Step(Run(s, acts[..|acts| - 1]), acts[|acts| - 1])
  }
}
