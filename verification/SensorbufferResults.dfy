/** What the sensor buffer of Sensorbuffer.dfy guarantees in every interleaving. */
module SensorbufferResults {
  import opened Common
  import opened Sensorbuffer
  import opened SensorbufferSafety

  /**
   Untorn and fresh. In every interleaving, for any number of buffers and any flags at the start, a read
   that succeeds returns the data of one single update, no older than the last one that had set
   last_written when the read began; and a later read goes back by at most one update.
   */
  lemma UntornAndFresh(s: State, acts: seq<Act>)
    requires Initial(s) && ScheduleOk(acts, s.width)
    ensures
      var t := Run(s, acts);
      && (forall i :: 0 <= i < |t.log| ==>
            0 <= t.log[i].seen < |t.updates| && t.log[i].out == t.updates[t.log[i].seen]
            && t.log[i].seen >= t.log[i].begin - 1)
      && (forall i, j :: 0 <= i < j < |t.log| ==> t.log[j].seen >= t.log[i].seen - 1)
  {
    RunInv(s, acts);
  }

  lemma OneMoreFail(f: nat, m: nat)
    ensures (f + 1) * m == f * m + m
  {
  }

  lemma OwedStep(s: State, a: Act)
    requires Shape(s) && s.reader.owed == s.reader.fails * (|s.bufs| - 1)
    ensures var r := Step(s, a).reader; r.owed == r.fails * (|s.bufs| - 1)
  {
    OneMoreFail(s.reader.fails, |s.bufs| - 1);
  }

  lemma {:induction false} OwedIsFails(s: State, acts: seq<Act>)
    requires Initial(s) && s.reader.fails == 0 && s.reader.owed == 0 && ScheduleOk(acts, s.width)
    ensures var r := Run(s, acts).reader; r.owed == r.fails * (|s.bufs| - 1)
  {
    if acts != [] {
      var before := acts[..|acts| - 1];
      OwedIsFails(s, before);
      OwedStep(Run(s, before), acts[|acts| - 1]);
    }
  }

  /**
   Progress. A call of the reader that failed k attempts overlaps at least k * (numBuffer - 1) completed
   updates.
   */
  lemma RetriesBounded(s: State, acts: seq<Act>)
    requires Initial(s) && s.reader.fails == 0 && s.reader.owed == 0 && ScheduleOk(acts, s.width)
    ensures var t := Run(s, acts);
            !t.reader.pc.RIdle? ==> t.reader.fails * (|s.bufs| - 1) <= t.done - t.reader.begin
  {
    RunInv(s, acts);
    OwedIsFails(s, acts);
  }

  /** last_written is -1 exactly while no update is complete. */
  lemma NoDataOnlyAtFirst(s: State, acts: seq<Act>)
    requires Initial(s) && ScheduleOk(acts, s.width)
    ensures var t := Run(s, acts); t.last == -1 <==> t.done == 0
  {
    RunInv(s, acts);
    LastTells(Run(s, acts));
  }

  lemma LastTells(s: State)
    requires Inv(s)
    ensures s.last == -1 <==> s.done == 0
  {
    if s.done > 0 { LatestBuffer(s); }
  }

  // ----- What the calls return

  /**
   sensorbuffer_read returns -1 exactly if no update is complete when it reads last_written; else it ends only
   with one more successful read, the last of log.
   */
  lemma ReadReturns(s: State)
    requires Inv(s) && !s.reader.pc.RIdle?
    ensures var s' := ReaderStep(s);
            && (s.reader.pc.ReadLast? ==> (s'.reader.pc.RIdle? <==> s.done == 0))
            && (if s'.reader.pc.RIdle? && s.done > 0 then |s'.log| == |s.log| + 1 && s'.log[..|s.log|] == s.log
                else s'.log == s.log)
            && (s'.reader.pc.RIdle? && s.done == 0 ==> s.reader.pc.ReadLast?)
  {
    LastTells(s);
  }

  /** The messages with which the schedule began to update. */
  ghost function Begun(s: State, acts: seq<Act>): seq<Msg>
    requires Shape(s) && ScheduleOk(acts, s.width)
  {
    if acts == [] then []
    else
      var a, before := acts[|acts| - 1], acts[..|acts| - 1];
      Begun(s, before) + if a.ByWriter? && Run(s, before).writer.pc.WIdle? then [a.msg] else []
  }

  /** The numbers of reads that began, and of those that returned without data. */
  ghost function ReadsBegun(s: State, acts: seq<Act>): nat
    requires Shape(s) && ScheduleOk(acts, s.width)
  {
    if acts == [] then 0
    else
      var a, before := acts[|acts| - 1], acts[..|acts| - 1];
      ReadsBegun(s, before) + if a.ByReader? && Run(s, before).reader.pc.RIdle? then 1 else 0
  }

  ghost function ReadsWithoutData(s: State, acts: seq<Act>): nat
    requires Shape(s) && ScheduleOk(acts, s.width)
  {
    if acts == [] then 0
    else
      var before := acts[..|acts| - 1];
      var t, t' := Run(s, before), Run(s, acts);
      ReadsWithoutData(s, before)
      + if !t.reader.pc.RIdle? && t'.reader.pc.RIdle? && t'.log == t.log then 1 else 0
  }

  lemma WriterLeaves(s: State, msg: Msg)
    requires Shape(s)
    ensures var s' := WriterStep(s, msg);
            && s'.reader == s.reader && s'.log == s.log
            && s'.updates == s.updates + if s.writer.pc.WIdle? then [msg] else []
  {
  }

  /**
   In every interleaving the updates are those with which the schedule began, in their order, and all but one
   that is running are complete.
   */
  lemma {:induction false} UpdatesAsBegun(s: State, acts: seq<Act>)
    requires Initial(s) && ScheduleOk(acts, s.width)
    ensures var t := Run(s, acts);
            && t.updates == Begun(s, acts)
            && t.done == |t.updates| - if t.writer.pc.WIdle? then 0 else 1
  {
    RunInv(s, acts);
    if acts != [] {
      var a, before := acts[|acts| - 1], acts[..|acts| - 1];
      UpdatesAsBegun(s, before);
      match a {
        case ByWriter(msg) => WriterLeaves(Run(s, before), msg);
        case ByReader => ReaderLeaves(Run(s, before));
      }
    }
  }

  lemma ReaderLeaves(s: State)
    requires Shape(s)
    ensures ReaderStep(s).updates == s.updates
  {
  }

  /** Every read that began succeeded, returned without data, or is running. */
  lemma {:induction false} ReadsAsBegun(s: State, acts: seq<Act>)
    requires Initial(s) && ScheduleOk(acts, s.width)
    ensures var t := Run(s, acts);
            ReadsBegun(s, acts) == |t.log| + ReadsWithoutData(s, acts) + if t.reader.pc.RIdle? then 0 else 1
  {
    if acts != [] {
      var a, before := acts[|acts| - 1], acts[..|acts| - 1];
      ReadsAsBegun(s, before);
      RunInv(s, before);
      var t := Run(s, before);
      match a {
        case ByWriter(msg) => WriterLeaves(t, msg);
        case ByReader => if t.reader.pc.RIdle? { ReadBegins(t); } else { ReadReturns(t); }
      }
    }
  }

  lemma ReadBegins(s: State)
    requires Shape(s) && s.reader.pc.RIdle?
    ensures var s' := ReaderStep(s); s'.log == s.log && !s'.reader.pc.RIdle?
  {
  }

  // ----- How many steps a call takes

  /** The steps that the writer made in its call, or in its last one if it is in none. */
  ghost function WriterSteps(s: State, acts: seq<Act>): nat
    requires Shape(s) && ScheduleOk(acts, s.width)
  {
    if acts == [] then 0
    else
      var a, before := acts[|acts| - 1], acts[..|acts| - 1];
      if a.ByReader? then WriterSteps(s, before)
      else if Run(s, before).writer.pc.WIdle? then 1 else WriterSteps(s, before) + 1
  }

  ghost function ReaderSteps(s: State, acts: seq<Act>): nat
    requires Shape(s) && ScheduleOk(acts, s.width)
  {
    if acts == [] then 0
    else
      var a, before := acts[|acts| - 1], acts[..|acts| - 1];
      if a.ByWriter? then ReaderSteps(s, before)
      else if Run(s, before).reader.pc.RIdle? then 1 else ReaderSteps(s, before) + 1
  }

  /** The steps that an update still needs; and those that a read still needs if its attempt does not fail. */
  function WriterRank(s: State): nat {
    match s.writer.pc
    case WIdle => 0
    case ClearV => s.width + 4
    case ClearR => s.width + 3
    case Write(c) => if c <= s.width then s.width + 2 - c else 0
    case Publish => 1
  }

  function ReaderRank(s: State): nat {
    match s.reader.pc
    case RIdle => 0
    case ReadLast => s.width + 4
    case SetR => s.width + 3
    case CheckV => s.width + 2
    case Copy(c) => if c <= s.width then s.width + 1 - c else 0
  }

  lemma WriterRankStep(s: State, msg: Msg)
    requires Inv(s)
    ensures var s' := WriterStep(s, msg);
            && s'.width == s.width && s'.reader == s.reader
            && if s.writer.pc.WIdle? then WriterRank(s') == s.width + 4 else WriterRank(s') < WriterRank(s)
  {
  }

  lemma ReaderRankStep(s: State)
    requires Inv(s)
    ensures var s' := ReaderStep(s);
            && s'.width == s.width && s'.writer == s.writer
            && if s.reader.pc.RIdle? then ReaderRank(s') == s.width + 4 && s'.reader.fails == 0
               else || (s'.reader.fails == s.reader.fails && ReaderRank(s') < ReaderRank(s))
                    || (s'.reader.fails == s.reader.fails + 1 && ReaderRank(s') == s.width + 4 && ReaderRank(s) > 0)
  {
  }

  /** The steps that a read may take when it failed k attempts. */
  function ReadBudget(width: nat, k: nat): nat {
    (width + 4) * (k + 1) + 1
  }

  lemma ReadBudgetNext(width: nat, k: nat)
    ensures ReadBudget(width, k + 1) == ReadBudget(width, k) + width + 4
    ensures ReadBudget(width, k) >= width + 5
  {
    if k > 0 {
      ReadBudgetNext(width, k - 1);
    }
  }

  /** An update is wait-free: it takes at most width + 5 steps, whatever the reader does. */
  lemma {:induction false} UpdateIsShort(s: State, acts: seq<Act>)
    requires Initial(s) && ScheduleOk(acts, s.width)
    ensures WriterSteps(s, acts) + WriterRank(Run(s, acts)) <= s.width + 5
    ensures Run(s, acts).writer.pc.WIdle? <==> WriterRank(Run(s, acts)) == 0
  {
    RunInv(s, acts);
    if acts != [] {
      var a, before := acts[|acts| - 1], acts[..|acts| - 1];
      UpdateIsShort(s, before);
      RunInv(s, before);
      match a {
        case ByWriter(msg) => WriterRankStep(Run(s, before), msg);
        case ByReader => ReaderRankStep(Run(s, before));
      }
    }
  }

  lemma BudgetStep(s: State, steps: nat)
    requires Inv(s) && steps + ReaderRank(s) <= ReadBudget(s.width, s.reader.fails)
    ensures var s' := ReaderStep(s);
            (if s.reader.pc.RIdle? then 1 else steps + 1) + ReaderRank(s') <= ReadBudget(s'.width, s'.reader.fails)
  {
    ReaderRankStep(s);
    ReadBudgetNext(s.width, s.reader.fails);
    ReadBudgetNext(s.width, 0);
  }

  /** A read takes at most width + 4 steps for each of its attempts. */
  lemma {:induction false} ReadIsShort(s: State, acts: seq<Act>)
    requires Initial(s) && ScheduleOk(acts, s.width)
    ensures ReaderSteps(s, acts) + ReaderRank(Run(s, acts)) <= ReadBudget(s.width, Run(s, acts).reader.fails)
    ensures Run(s, acts).reader.pc.RIdle? <==> ReaderRank(Run(s, acts)) == 0
  {
    RunInv(s, acts);
    if acts != [] {
      var a, before := acts[|acts| - 1], acts[..|acts| - 1];
      ReadIsShort(s, before);
      RunInv(s, before);
      match a {
        case ByWriter(msg) => WriterRankStep(Run(s, before), msg);
        case ByReader => BudgetStep(Run(s, before), ReaderSteps(s, before));
      }
    } else {
      ReadBudgetNext(s.width, s.reader.fails);
    }
  }
}
