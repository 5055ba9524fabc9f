/**
 When the reads of Sensorbuffer.dfy never go back: with one buffer always, with more of them not. The bound of
 one update in UntornAndFresh is exact.
 */
module SensorbufferRegress {
  import opened Common
  import opened Cyclic
  import opened Sensorbuffer
  import opened SensorbufferSafety

  /** No read returns an older update than an earlier read. */
  ghost predicate Monotone(s: State) {
    forall i, j :: 0 <= i < j < |s.log| ==> s.log[i].seen <= s.log[j].seen
  }

  // ----- One buffer

  /** With one buffer, what it holds is never older than what was read. */
  ghost predicate OneBufferOk(s: State) {
    && |s.bufs| == 1
    && Monotone(s)
    && (forall i :: 0 <= i < |s.log| ==> s.log[i].seen <= s.bufs[0].num)
    && (s.reader.pc.Copy? ==> forall i :: 0 <= i < |s.log| ==> s.log[i].seen <= s.reader.seen)
  }

  lemma OneBufferStep(s: State, a: Act)
    requires Inv(s) && OneBufferOk(s)
    ensures OneBufferOk(Step(s, a))
  {
    CurrentInRange(s);
  }

  lemma {:induction false} OneBufferMonotone(s: State, acts: seq<Act>)
    requires Initial(s) && |s.bufs| == 1 && ScheduleOk(acts, s.width)
    ensures OneBufferOk(Run(s, acts))
  {
    if acts != [] {
      var before := acts[..|acts| - 1];
      OneBufferMonotone(s, before);
      RunInv(s, before);
      OneBufferStep(Run(s, before), acts[|acts| - 1]);
    }
  }

  // ----- Two buffers or more: a run that goes back by one

  /** acts leads from start to s. */
  ghost predicate Leads(start: State, acts: seq<Act>, s: State) {
    && Initial(start) && ScheduleOk(acts, start.width) && Run(start, acts) == s
    && Inv(s) && s.width == start.width && |s.bufs| == |start.bufs|
  }

  lemma Then(start: State, acts: seq<Act>, s: State, a: Act) returns (acts': seq<Act>, s': State)
    requires Leads(start, acts, s) && (a.ByWriter? ==> |a.msg| == s.width)
    ensures s' == Step(s, a) && Leads(start, acts', s')
  {
    acts', s' := acts + [a], Step(s, a);
    assert acts'[..|acts|] == acts;
    RunInv(start, acts');
  }

  /** The writer has copied some words of the message; nothing else has changed. */
  ghost predicate OnlyWords(s: State, s': State) {
    && InRange(s, s.writer.current) && |s'.bufs| == |s.bufs|
    && s' == s.(writer := s'.writer, bufs := s.bufs[s.writer.current := s'.bufs[s.writer.current]])
    && s'.writer == s.writer.(pc := s'.writer.pc)
    && s'.bufs[s.writer.current].r == s.bufs[s.writer.current].r
  }

  lemma {:induction false} WritesWords(start: State, acts: seq<Act>, s: State, c: nat, msg: Msg)
    returns (acts': seq<Act>, s': State)
    requires Leads(start, acts, s) && s.writer.pc == Write(0) && c <= s.width && |msg| == s.width
    ensures Leads(start, acts', s') && OnlyWords(s, s') && s'.writer.pc == Write(c)
  {
    CurrentInRange(s);
    acts', s' := acts, s;
    if c > 0 {
      acts', s' := WritesWords(start, acts, s, c - 1, msg);
      acts', s' := Then(start, acts', s', ByWriter(msg));
    }
  }

  /** Lines 65-78: v is set, last_written is not. */
  lemma UpdatesUntilValid(start: State, acts: seq<Act>, s: State, msg: Msg) returns (acts': seq<Act>, s': State)
    requires Leads(start, acts, s) && s.writer.pc.WIdle? && |msg| == s.width
    ensures Leads(start, acts', s') && s'.writer.pc.Publish?
    ensures s'.done == s.done && s'.last == s.last && s'.reader == s.reader && s'.log == s.log
    ensures 0 <= s.done % |s.bufs| < |s.bufs|
    ensures var b := s'.bufs[s.done % |s.bufs|]; b.r == 0 && b.v == 1 && b.num == s.done
  {
    Fundamental(s.done, |s.bufs|);
    acts', s' := Then(start, acts, s, ByWriter(msg));
    acts', s' := Then(start, acts', s', ByWriter(msg));
    acts', s' := Then(start, acts', s', ByWriter(msg));
    acts', s' := WritesWords(start, acts', s', s.width, msg);
    acts', s' := Then(start, acts', s', ByWriter(msg));
  }

  lemma Updates(start: State, acts: seq<Act>, s: State, msg: Msg) returns (acts': seq<Act>, s': State)
    requires Leads(start, acts, s) && s.writer.pc.WIdle? && |msg| == s.width
    ensures Leads(start, acts', s') && s'.writer.pc.WIdle?
    ensures s'.done == s.done + 1 && s'.reader == s.reader && s'.log == s.log
  {
    acts', s' := UpdatesUntilValid(start, acts, s, msg);
    acts', s' := Then(start, acts', s', ByWriter(msg));
  }

  lemma {:induction false} UpdatesMore(start: State, acts: seq<Act>, s: State, k: nat, msg: Msg)
    returns (acts': seq<Act>, s': State)
    requires Leads(start, acts, s) && s.writer.pc.WIdle? && |msg| == s.width
    ensures Leads(start, acts', s') && s'.writer.pc.WIdle?
    ensures s'.done == s.done + k && s'.reader == s.reader && s'.log == s.log
  {
    acts', s' := acts, s;
    if k > 0 {
      acts', s' := UpdatesMore(start, acts, s, k - 1, msg);
      acts', s' := Updates(start, acts', s', msg);
    }
  }

  /** Lines 93-95, when there is a last update. */
  lemma Chooses(start: State, acts: seq<Act>, s: State) returns (acts': seq<Act>, s': State)
    requires Leads(start, acts, s) && s.reader.pc.RIdle? && s.last != -1
    ensures Leads(start, acts', s') && s' == s.(reader := s'.reader)
    ensures s'.reader.pc.SetR? && s'.reader.current == s.last
  {
    acts', s' := Then(start, acts, s, ByReader);
    acts', s' := Then(start, acts', s', ByReader);
  }

  lemma {:induction false} CopiesWords(start: State, acts: seq<Act>, s: State, c: nat)
    returns (acts': seq<Act>, s': State)
    requires Leads(start, acts, s) && s.reader.pc == Copy(0) && c <= s.width
    ensures Leads(start, acts', s') && s' == s.(reader := s.reader.(pc := Copy(c), out := s'.reader.out))
  {
    acts', s' := acts, s;
    if c == 0 {
      assert s == s.(reader := s.reader.(pc := Copy(0), out := s.reader.out));
    } else {
      acts', s' := CopiesWords(start, acts, s, c - 1);
      acts', s' := Then(start, acts', s', ByReader);
    }
  }

  /** Lines 104-120 without interruption: the read succeeds if the buffer is valid. */
  lemma Reads(start: State, acts: seq<Act>, s: State) returns (acts': seq<Act>, s': State)
    requires Leads(start, acts, s) && s.reader.pc.SetR? && Get(s, s.reader.current).v == 1
    ensures Leads(start, acts', s') && s'.reader.pc.RIdle? && s'.writer == s.writer
    ensures s'.last == s.last && s'.done == s.done && s'.updates == s.updates
    ensures |s'.log| == |s.log| + 1 && s'.log[..|s.log|] == s.log
    ensures s'.log[|s.log|].seen == Get(s, s.reader.current).num
  {
    CurrentInRange(s);
    acts', s' := Then(start, acts, s, ByReader);
    acts', s' := Then(start, acts', s', ByReader);
    acts', s' := CopiesWords(start, acts', s', s.width);
    acts', s' := Then(start, acts', s', ByReader);
  }

  /** Buffer n - 1 holds update n - 1 when update n has set its v and not yet last_written. */
  lemma BufferBefore(s: State)
    requires Inv(s) && |s.bufs| >= 2 && s.done == |s.bufs| && s.writer.pc.Publish?
    ensures s.last == |s.bufs| - 1 && Get(s, s.last).v == 1 && Get(s, s.last).num == |s.bufs| - 1
  {
    var n := |s.bufs|;
    Cyclic.Small(n - 1, n);
    assert BufferOk(s, n - 1);
    var num := s.bufs[n - 1].num;
    if num != n - 1 {
      if num < n - 1 { Apart(num, n - 1, n); } else { Apart(n - 1, num, n); }
    }
    Round(0, n);
    Cyclic.Small(0, n);
    assert s.writer.current == 0;
  }

  /**
   With two buffers or more there is a run, from any flags, in which a read returns the update after the one
   that the next read returns: the reader stops before line 104 with buffer 0 chosen, meanwhile all the other
   buffers are filled, and update n has set v of buffer 0 and not last_written.
   */
  lemma GoesBackByOne(start: State) returns (acts: seq<Act>)
    requires Initial(start) && |start.bufs| >= 2
    ensures ScheduleOk(acts, start.width)
    ensures var t, n := Run(start, acts), |start.bufs|;
            && |t.log| == 2 && t.log[0].seen == n && t.log[1].seen == n - 1 && |t.updates| == n + 1
            && t.log[0].out == t.updates[n] && t.log[1].out == t.updates[n - 1]
  {
    var n, msg := |start.bufs|, seq(start.width, _ => 0);
    var s := start;
    acts := [];
    InitialInv(start);
    Cyclic.Small(0, n);
    acts, s := Updates(start, acts, s, msg);
    acts, s := Chooses(start, acts, s);
    acts, s := UpdatesMore(start, acts, s, n - 1, msg);
    Round(0, n);
    acts, s := UpdatesUntilValid(start, acts, s, msg);
    acts, s := Reads(start, acts, s);
    BufferBefore(s);
    acts, s := Chooses(start, acts, s);
    acts, s := Reads(start, acts, s);
  }

  // ----- The exact condition

  /** Reads never go back in any interleaving if and only if there is one buffer. */
  lemma MonotoneExactly(start: State)
    requires Initial(start)
    ensures (forall acts: seq<Act> :: ScheduleOk(acts, start.width) ==> Monotone(Run(start, acts)))
            <==> |start.bufs| == 1
  {
    if |start.bufs| == 1 {
      forall acts: seq<Act> | ScheduleOk(acts, start.width) ensures Monotone(Run(start, acts)) {
        OneBufferMonotone(start, acts);
      }
    } else {
      var acts := GoesBackByOne(start);
      assert ScheduleOk(acts, start.width);
    }
  }
}
