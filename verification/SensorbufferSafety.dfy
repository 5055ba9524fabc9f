/** The invariant of Sensorbuffer.dfy. */
module SensorbufferSafety {
  import opened Common
  import opened Cyclic
  import opened Sensorbuffer

  /** The writer has taken back the validity of buffer b and not restored it. */
  predicate Overwriting(s: State, b: int) {
    s.writer.current == b && (s.writer.pc.ClearR? || s.writer.pc.Write?)
  }

  predicate MidWrite(s: State, b: int) {
    s.writer.current == b && s.writer.pc.Write?
  }

  /** Updates whose v flag is set: one more than done just before line 81. */
  function Valid(s: State): nat {
    if s.writer.pc.Publish? then s.done + 1 else s.done
  }

  /** Buffer b holds the last of the updates b, b + n, b + 2n, ..., unless it is being overwritten. */
  ghost predicate BufferOk(s: State, b: int)
    requires InRange(s, b)
  {
    var buf, n := s.bufs[b], |s.bufs|;
    && |buf.cells| == s.width
    && (if buf.num < 0 then buf.num == -1 && Valid(s) <= b else buf.num % n == b && buf.num < Valid(s) <= buf.num + n)
    && (buf.num >= 0 && buf.num < |s.updates| && !MidWrite(s, b) ==> buf.cells == s.updates[buf.num])
    && (buf.num >= 0 && !Overwriting(s, b) ==> buf.v == 1)
    && (Overwriting(s, b) ==> buf.v == 0)
  }

  ghost predicate WriterOk(s: State)
    requires Shape(s)
  {
    var w, n := s.writer, |s.bufs|;
    && (s.done == 0 ==> s.last == -1)
    && (s.done > 0 ==> s.last == (s.done - 1) % n)
    && |s.updates| == (if w.pc.WIdle? then s.done else s.done + 1)
    && (!w.pc.WIdle? ==> w.current == s.done % n && s.updates[s.done] == w.msg && |w.msg| == s.width)
    && (w.pc.Write? ==>
          && 0 <= w.pc.c <= s.width && |Get(s, w.current).cells| == s.width
          && Get(s, w.current).cells[..w.pc.c] == w.msg[..w.pc.c])
    && (w.pc.Publish? ==> Get(s, w.current).num == s.done)
  }

  predicate Attempting(pc: ReaderPC) {
    pc.SetR? || pc.CheckV? || pc.Copy?
  }

  ghost predicate ReaderOk(s: State)
    requires Shape(s)
  {
    var r, n := s.reader, |s.bufs|;
    && (!r.pc.RIdle? ==> r.begin + r.owed <= s.done)
    && (Attempting(r.pc) ==>
          && 0 < r.attempt <= s.done
          && r.begin + r.owed <= r.attempt
          && r.current == (r.attempt - 1) % n
          && Get(s, r.current).num >= r.attempt - 1)
    && ((r.pc.CheckV? || r.pc.Copy?) && Get(s, r.current).r != 1 ==> s.done >= r.attempt + n - 1)
    && (r.pc.Copy? ==>
          && 0 <= r.pc.c <= s.width == |Get(s, r.current).cells|
          && r.attempt - 1 <= r.seen <= Get(s, r.current).num
          && (Get(s, r.current).r == 1 ==>
                && !MidWrite(s, r.current)
                && r.seen == Get(s, r.current).num
                && r.out == Get(s, r.current).cells[..r.pc.c]))
  }

  ghost predicate ReadsOk(s: State) {
    && (forall i :: 0 <= i < |s.log| ==>
          var x := s.log[i];
          && 0 <= x.seen < |s.updates| && x.out == s.updates[x.seen]
          && x.begin - 1 <= x.seen <= s.done)
    && (forall i :: 0 <= i < |s.log| && !s.reader.pc.RIdle? ==> s.log[i].seen <= s.reader.begin)
    && (forall i, j :: 0 <= i < j < |s.log| ==> s.log[i].seen - 1 <= s.log[j].seen)
  }

  ghost predicate Inv(s: State) {
    && Shape(s)
    && (forall b :: 0 <= b < |s.bufs| ==> BufferOk(s, b))
    && WriterOk(s)
    && ReaderOk(s)
    && ReadsOk(s)
  }

  lemma InitialInv(s: State)
    requires Initial(s)
    ensures Inv(s)
  {
  }

  /** Both processes use existing buffers. */
  lemma CurrentInRange(s: State)
    requires Inv(s)
    ensures !s.writer.pc.WIdle? ==> InRange(s, s.writer.current) && BufferOk(s, s.writer.current)
    ensures Attempting(s.reader.pc) ==> InRange(s, s.reader.current) && BufferOk(s, s.reader.current)
  {
    Fundamental(s.done, |s.bufs|);
    Fundamental(s.reader.attempt - 1, |s.bufs|);
  }

  // ----- The writer's steps

  lemma BeginInv(s: State, msg: Msg)
    requires Inv(s) && s.writer.pc.WIdle? && |msg| == s.width
    ensures Inv(WriterStep(s, msg))
  {
    var s' := WriterStep(s, msg);
    if s.done > 0 { Next(s.done - 1, |s.bufs|); } else { Small(0, |s.bufs|); }
    assert s'.writer.current == s.done % |s.bufs|;
    forall b | 0 <= b < |s'.bufs| ensures BufferOk(s', b) { assert BufferOk(s, b); }
    assert WriterOk(s');
    assert ReaderOk(s');
    assert ReadsOk(s');
  }

  lemma ClearVInv(s: State, msg: Msg)
    requires Inv(s) && s.writer.pc.ClearV?
    ensures Inv(WriterStep(s, msg))
  {
    var s' := WriterStep(s, msg);
    forall b | 0 <= b < |s'.bufs| ensures BufferOk(s', b) { assert BufferOk(s, b); }
  }

  /** Line 72 tells a reader of this buffer to retry; by then numBuffer - 1 further updates are complete. */
  lemma ClearRInv(s: State, msg: Msg)
    requires Inv(s) && s.writer.pc.ClearR?
    ensures Inv(WriterStep(s, msg))
  {
    var s' := WriterStep(s, msg);
    forall b | 0 <= b < |s'.bufs| ensures BufferOk(s', b) { assert BufferOk(s, b); }
    Lapped(s);
    CurrentInRange(s);
    var w := s'.writer;
    assert Get(s', w.current).cells[..0] == w.msg[..0];
  }

  /** A writer that is back at the buffer a reader chose has completed numBuffer - 1 updates in between. */
  lemma Lapped(s: State)
    requires Shape(s) && WriterOk(s) && ReaderOk(s)
    requires !s.writer.pc.WIdle? && !s.writer.pc.Publish?
    ensures Attempting(s.reader.pc) && s.reader.current == s.writer.current ==>
              s.done >= s.reader.attempt + |s.bufs| - 1
  {
    if Attempting(s.reader.pc) && s.reader.current == s.writer.current {
      Apart(s.reader.attempt - 1, s.done, |s.bufs|);
    }
  }

  lemma WriteInv(s: State, msg: Msg)
    requires Inv(s) && s.writer.pc.Write? && s.writer.pc.c < s.width
    ensures Inv(WriterStep(s, msg))
  {
    var w, s' := s.writer, WriterStep(s, msg);
    forall b | 0 <= b < |s'.bufs| ensures BufferOk(s', b) { assert BufferOk(s, b); }
    var d, c := Get(s, w.current).cells, w.pc.c;
    assert SetWord(d, c, w.msg[c])[..c + 1] == d[..c] + [w.msg[c]] == w.msg[..c + 1];
  }

  /** Line 78. */
  lemma SetVInv(s: State, msg: Msg)
    requires Inv(s) && s.writer.pc.Write? && s.writer.pc.c >= s.width
    ensures Inv(WriterStep(s, msg))
  {
    var w, s' := s.writer, WriterStep(s, msg);
    var d := Get(s, w.current).cells;
    assert d[..s.width] == d && w.msg[..s.width] == w.msg;
    CurrentInRange(s);
    forall b | 0 <= b < |s'.bufs| ensures BufferOk(s', b) {
      assert BufferOk(s, b);
      if b != w.current && s.bufs[b].num >= 0 { Round(s.bufs[b].num, |s.bufs|); }
      if b != w.current && s.bufs[b].num < 0 && b == s.done { Small(b, |s.bufs|); }
    }
  }

  lemma PublishInv(s: State, msg: Msg)
    requires Inv(s) && s.writer.pc.Publish?
    ensures Inv(WriterStep(s, msg))
  {
    var s' := WriterStep(s, msg);
    forall b | 0 <= b < |s'.bufs| ensures BufferOk(s', b) { assert BufferOk(s, b); }
  }

  // ----- The reader's steps

  /** The buffer that last_written names holds the last completed update, or a later one. */
  lemma LatestBuffer(s: State)
    requires Inv(s) && s.done > 0
    ensures InRange(s, s.last) && s.bufs[s.last].num >= s.done - 1
  {
    var n := |s.bufs|;
    Fundamental(s.done - 1, n);
    assert BufferOk(s, s.last);
    if s.bufs[s.last].num < 0 {
      LeastPlace(s.done - 1, n);
    } else if s.bufs[s.last].num < s.done - 1 {
      Apart(s.bufs[s.last].num, s.done - 1, n);
    }
  }

  lemma ReadLastInv(s: State)
    requires Inv(s) && (s.reader.pc.RIdle? || s.reader.pc.ReadLast?)
    ensures Inv(ReaderStep(s))
  {
    var s' := ReaderStep(s);
    forall b | 0 <= b < |s'.bufs| ensures BufferOk(s', b) { assert BufferOk(s, b); }
    if s.done > 0 { LatestBuffer(s); }
  }

  lemma SetRInv(s: State)
    requires Inv(s) && s.reader.pc.SetR?
    ensures Inv(ReaderStep(s))
  {
    var s' := ReaderStep(s);
    forall b | 0 <= b < |s'.bufs| ensures BufferOk(s', b) { assert BufferOk(s, b); }
  }

  lemma CheckVInv(s: State)
    requires Inv(s) && s.reader.pc.CheckV?
    ensures Inv(ReaderStep(s))
  {
    var s' := ReaderStep(s);
    forall b | 0 <= b < |s'.bufs| ensures BufferOk(s', b) { assert BufferOk(s, b); }
    assert BufferOk(s, s.reader.current);
    if !s.writer.pc.WIdle? && !s.writer.pc.Publish? { Lapped(s); }
  }

  lemma CopyInv(s: State)
    requires Inv(s) && s.reader.pc.Copy? && s.reader.pc.c < s.width
    ensures Inv(ReaderStep(s))
  {
    var s' := ReaderStep(s);
    forall b | 0 <= b < |s'.bufs| ensures BufferOk(s', b) { assert BufferOk(s, b); }
    var d, c := Get(s, s.reader.current).cells, s.reader.pc.c;
    assert d[..c + 1] == d[..c] + [d[c]];
  }

  /** Line 114: what was copied is the update that was valid at line 107, whole. */
  lemma CheckRInv(s: State)
    requires Inv(s) && s.reader.pc.Copy? && s.reader.pc.c >= s.width
    ensures Inv(ReaderStep(s))
  {
    var s' := ReaderStep(s);
    forall b | 0 <= b < |s'.bufs| ensures BufferOk(s', b) { assert BufferOk(s, b); }
    var buf := Get(s, s.reader.current);
    assert BufferOk(s, s.reader.current);
    assert buf.cells[..s.width] == buf.cells;
  }

  lemma StepInv(s: State, a: Act)
    requires Inv(s) && (a.ByWriter? ==> |a.msg| == s.width)
    ensures Inv(Step(s, a))
  {
    match a
    case ByWriter(msg) =>
      match s.writer.pc {
        case WIdle => BeginInv(s, msg);
        case ClearV => ClearVInv(s, msg);
        case ClearR => ClearRInv(s, msg);
        case Write(c) => if c < s.width { WriteInv(s, msg); } else { SetVInv(s, msg); }
        case Publish => PublishInv(s, msg);
      }
    case ByReader =>
      match s.reader.pc {
        case RIdle => ReadLastInv(s);
        case ReadLast => ReadLastInv(s);
        case SetR => SetRInv(s);
        case CheckV => CheckVInv(s);
        case Copy(c) => if c < s.width { CopyInv(s); } else { CheckRInv(s); }
      }
  }

  lemma {:induction false} RunInv(s: State, acts: seq<Act>)
    requires Initial(s) && ScheduleOk(acts, s.width)
    ensures Inv(Run(s, acts))
  {
    if acts == [] {
      InitialInv(s);
    } else {
      RunInv(s, acts[..|acts| - 1]);
      StepInv(Run(s, acts[..|acts| - 1]), acts[|acts| - 1]);
    }
  }
}
