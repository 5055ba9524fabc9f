/**
 A run of the queue of Lfmpscq.dfy with four slots and two users is also a run with more slots and more
 users, if the first two users act and the others stay idle.
 */
module LfmpscqEmbedding {
  import opened Common
  import Cyclic
  import opened Lfmpscq

  /** acts leads from the initial state to s. */
  ghost predicate Leads(acts: seq<Act>, s: State) {
    && Shape(s) && ScheduleOk(acts, s.width, |s.procs|)
    && RunFrom(Init(s.width, |s.slots|, |s.procs|), acts) == s
  }

  predicate Inside(n: int) { -1 <= n < 4 }

  /** Every index of v is one of four slots, or undefined. */
  ghost predicate Small(v: State) {
    && Shape(v) && |v.slots| == 4 && |v.procs| == 2
    && Inside(v.head) && Inside(v.tail)
    && (forall i :: 0 <= i < 4 ==> Inside(v.slots[i].next))
    && (forall p :: 0 <= p < 2 ==> SmallProducer(v.procs[p]))
    && Inside(v.cons.h) && Inside(v.cons.hNext) && Inside(v.cons.victim)
    && (forall i :: 0 <= i < |v.cons.rlist| ==> Inside(v.cons.rlist[i]))
    && (forall i :: 0 <= i < |v.cons.todo| ==> Inside(v.cons.todo[i]))
  }

  predicate SmallProducer(r: Producer) {
    Inside(r.node) && Inside(r.t) && Inside(r.tNext) && 0 <= r.cursor < 4
  }

  /** s is v with more slots, and more users that never did anything. */
  ghost predicate Embeds(v: State, s: State) {
    && Shape(v) && Shape(s)
    && |v.slots| == 4 <= |s.slots| && |v.procs| == 2 <= |s.procs|
    && s.width == v.width && s.head == v.head && s.tail == v.tail && s.cons == v.cons && s.got == v.got
    && (forall i :: 0 <= i < 4 ==> s.slots[i] == v.slots[i])
    && (forall p :: 0 <= p < 2 ==> s.procs[p] == v.procs[p] && s.haz[p] == v.haz[p] && s.sent[p] == v.sent[p])
    && (forall p :: 2 <= p < |s.procs| ==> s.procs[p].pc == Idle && s.haz[p] == UNDEFINED_NODE && s.sent[p] == [])
  }

  lemma InitEmbeds(width: nat, numSlots: nat, maxUser: nat)
    requires numSlots >= 4 && maxUser >= 2
    ensures Small(Init(width, 4, 2)) && Embeds(Init(width, 4, 2), Init(width, numSlots, maxUser))
    ensures Leads([], Init(width, numSlots, maxUser))
  {
  }

  /** v and w agree on what the steps read. */
  ghost predicate Like(v: State, w: State) {
    && w.width == v.width && w.head == v.head && w.tail == v.tail && w.cons == v.cons && w.got == v.got
    && w.slots == v.slots && w.procs == v.procs && w.haz == v.haz && w.sent == v.sent
  }

  lemma EmbedsLike(v: State, w: State, s: State)
    requires Embeds(v, s) && Small(v) && Shape(w) && Like(v, w)
    ensures Embeds(w, s) && Small(w)
  {
  }

  // ----- Steps of the producers

  /** getFreeSlot does not look past the fourth slot. */
  predicate ClaimsInside(v: State, p: nat)
    requires p < |v.procs|
  {
    var r := v.procs[p];
    r.pc.Claim? ==> r.pc.cnt < 4 && InRange(v, r.cursor) && (r.cursor < 3 || !v.slots[r.cursor].used)
  }

  lemma EmbedClaim(v: State, s: State, p: nat)
    requires Embeds(v, s) && Small(v) && p < 2 && ClaimsInside(v, p) && v.procs[p].pc.Claim?
    ensures Embeds(StepClaim(v, p), StepClaim(s, p)) && Small(StepClaim(v, p))
  {
    assert SmallProducer(v.procs[p]);
    if v.procs[p].cursor < 3 {
      Cyclic.Small(v.procs[p].cursor + 1, 4);
      Cyclic.Small(v.procs[p].cursor + 1, |s.slots|);
    }
  }

  lemma EmbedSlot(v: State, s: State, n: int, slot: Slot)
    requires Embeds(v, s) && Small(v) && 0 <= n < 4 && Inside(slot.next)
    ensures Embeds(SetSlot(v, n, slot), SetSlot(s, n, slot)) && Small(SetSlot(v, n, slot))
  {
  }

  lemma EmbedProc(v: State, s: State, p: nat, r: Producer)
    requires Embeds(v, s) && Small(v) && p < 2 && SmallProducer(r)
    ensures Embeds(SetProc(v, p, r), SetProc(s, p, r)) && Small(SetProc(v, p, r))
  {
  }

  lemma EmbedFill(v: State, s: State, p: nat)
    requires Embeds(v, s) && Small(v) && p < 2 && v.procs[p].pc.Fill?
    ensures Embeds(StepFill(v, p), StepFill(s, p)) && Small(StepFill(v, p))
  {
    var r := v.procs[p];
    var c := r.pc.c;
    assert SmallProducer(r);
    var slot := if r.node == -1 then v.slots[0] else v.slots[r.node];
    var slot' := if c < v.width then slot.(data := SetWord(slot.data, c, Word(r.msg, c)))
                 else slot.(next := UNDEFINED_NODE);
    if r.node >= 0 {
      EmbedSlot(v, s, r.node, slot');
    }
    var v1 := if r.node >= 0 then SetSlot(v, r.node, slot') else v;
    var s1 := if r.node >= 0 then SetSlot(s, r.node, slot') else s;
    EmbedProc(v1, s1, p, r.(pc := if c < v.width then Fill(c + 1) else ReadTail));
  }

  lemma EmbedProtect(v: State, s: State, p: nat, msg: Msg)
    requires Embeds(v, s) && Small(v) && p < 2
    requires var pc := v.procs[p].pc; pc.ReadTail? || pc.PublishTail? || pc.CheckTail? || pc.ReadTailNext?
    ensures Embeds(Produce(v, p, msg), Produce(s, p, msg)) && Small(Produce(v, p, msg))
  {
    assert SmallProducer(v.procs[p]);
  }

  lemma EmbedHelp(v: State, s: State, p: nat)
    requires Embeds(v, s) && Small(v) && p < 2 && v.procs[p].pc.HelpTail?
    ensures Embeds(StepHelpTail(v, p), StepHelpTail(s, p)) && Small(StepHelpTail(v, p))
  {
    assert SmallProducer(v.procs[p]);
  }

  lemma EmbedLink(v: State, s: State, p: nat)
    requires Embeds(v, s) && Small(v) && p < 2 && v.procs[p].pc.Link?
    ensures Embeds(StepLink(v, p), StepLink(s, p)) && Small(StepLink(v, p))
  {
    var r := v.procs[p];
    assert SmallProducer(r);
    if NextOf(v, r.t) != UNDEFINED_NODE {
      EmbedProc(v, s, p, r.(pc := ReadTail));
    } else {
      EmbedNext(v, s, r.t, r.node);
      EmbedStatus(SetNext(v, r.t, r.node), SetNext(s, r.t, r.node), r.node, Linked);
      EmbedProc(SetStatus(SetNext(v, r.t, r.node), r.node, Linked),
                SetStatus(SetNext(s, r.t, r.node), r.node, Linked), p,
                r.(pc := SwingTail));
    }
  }

  lemma EmbedNext(v: State, s: State, n: int, next: int)
    requires Embeds(v, s) && Small(v) && Inside(n) && Inside(next)
    ensures Embeds(SetNext(v, n, next), SetNext(s, n, next)) && Small(SetNext(v, n, next))
  {
    if n >= 0 { EmbedSlot(v, s, n, v.slots[n].(next := next)); }
  }

  lemma EmbedStatus(v: State, s: State, n: int, st: Status)
    requires Embeds(v, s) && Small(v) && Inside(n)
    ensures Embeds(SetStatus(v, n, st), SetStatus(s, n, st)) && Small(SetStatus(v, n, st))
  {
    if n >= 0 { EmbedSlot(v, s, n, v.slots[n].(st := st)); }
  }

  lemma EmbedSwing(v: State, s: State, p: nat)
    requires Embeds(v, s) && Small(v) && p < 2 && v.procs[p].pc.SwingTail?
    ensures Embeds(StepSwingTail(v, p), StepSwingTail(s, p)) && Small(StepSwingTail(v, p))
  {
    assert SmallProducer(v.procs[p]);
  }

  lemma EmbedBegin(v: State, s: State, p: nat, msg: Msg)
    requires Embeds(v, s) && Small(v) && p < 2 && v.procs[p].pc.Idle?
    ensures Embeds(Produce(v, p, msg), Produce(s, p, msg)) && Small(Produce(v, p, msg))
  {
    assert SmallProducer(v.procs[p]);
  }

  lemma EmbedProduce(v: State, s: State, p: nat, msg: Msg)
    requires Embeds(v, s) && Small(v) && p < 2 && ClaimsInside(v, p)
    ensures Embeds(Produce(v, p, msg), Produce(s, p, msg)) && Small(Produce(v, p, msg))
  {
    match v.procs[p].pc
    case Idle => EmbedBegin(v, s, p, msg);
    case Claim(_) => EmbedClaim(v, s, p);
    case Fill(_) => EmbedFill(v, s, p);
    case HelpTail => EmbedHelp(v, s, p);
    case Link => EmbedLink(v, s, p);
    case SwingTail => EmbedSwing(v, s, p);
    case _ => EmbedProtect(v, s, p, msg);
  }

  /** Producer p takes a step in both. */
  lemma GoProducer(acts: seq<Act>, v: State, s: State, p: nat, msg: Msg) returns (acts': seq<Act>, v': State, s': State)
    requires Leads(acts, s) && Embeds(v, s) && Small(v) && p < 2 && |msg| == v.width && ClaimsInside(v, p)
    ensures v' == Produce(v, p, msg) && Leads(acts', s') && Embeds(v', s') && Small(v')
    ensures |s'.slots| == |s.slots| && |s'.procs| == |s.procs|
  {
    var a := ByProducer(p, msg);
    acts', v', s' := acts + [a], Produce(v, p, msg), Step(s, a);
    assert acts'[..|acts|] == acts;
    EmbedProduce(v, s, p, msg);
  }

  /** The state when producer p has copied the first c words of its message. */
  function Filled(v: State, p: nat, c: nat): State
    requires p < |v.procs| && InRange(v, v.procs[p].node)
    requires |v.procs[p].msg| == |v.slots[v.procs[p].node].data| == v.width && c <= v.width
  {
    var r := v.procs[p];
    var slot := v.slots[r.node];
    v.(slots := v.slots[r.node := slot.(data := r.msg[..c] + slot.data[c..])], procs := v.procs[p := r.(pc := Fill(c))])
  }

  /** Lines 122-123 as a whole. */
  lemma GoFill(acts: seq<Act>, v: State, s: State, p: nat) returns (acts': seq<Act>, v': State, s': State)
    requires Leads(acts, s) && Embeds(v, s) && Small(v) && p < 2
    requires v.procs[p].pc == Fill(0) && InRange(v, v.procs[p].node)
    requires |v.procs[p].msg| == |v.slots[v.procs[p].node].data| == v.width
    ensures var r := v.procs[p];
            v' == v.(slots := v.slots[r.node := v.slots[r.node].(data := r.msg, next := UNDEFINED_NODE)],
                     procs := v.procs[p := r.(pc := ReadTail)])
    ensures Leads(acts', s') && Embeds(v', s') && Small(v')
    ensures |s'.slots| == |s.slots| && |s'.procs| == |s.procs|
  {
    var r, slot := v.procs[p], v.slots[v.procs[p].node];
    assert r.msg[..0] + slot.data[0..] == slot.data;
    assert Filled(v, p, 0) == v;
    acts', s' := FillWords(acts, v, s, p, v.width);
    assert r.msg[..v.width] + slot.data[v.width..] == r.msg;
    acts', v', s' := GoProducer(acts', Filled(v, p, v.width), s', p, r.msg);
  }

  lemma {:induction false} FillWords(acts: seq<Act>, v: State, s: State, p: nat, c: nat)
    returns (acts': seq<Act>, s': State)
    requires Leads(acts, s) && Embeds(v, s) && Small(v) && p < 2
    requires v.procs[p].pc == Fill(0) && InRange(v, v.procs[p].node)
    requires |v.procs[p].msg| == |v.slots[v.procs[p].node].data| == v.width && c <= v.width && Filled(v, p, 0) == v
    ensures Leads(acts', s') && Embeds(Filled(v, p, c), s') && Small(Filled(v, p, c))
    ensures |s'.slots| == |s.slots| && |s'.procs| == |s.procs|
  {
    acts', s' := acts, s;
    if c > 0 {
      acts', s' := FillWords(acts, v, s, p, c - 1);
      var m, d := v.procs[p].msg, v.slots[v.procs[p].node].data;
      assert (m[..c - 1] + d[c - 1..])[c - 1 := m[c - 1]] == m[..c] + d[c..];
      var v';
      acts', v', s' := GoProducer(acts', Filled(v, p, c - 1), s', p, m);
      assert v'.slots == Filled(v, p, c).slots && v'.procs == Filled(v, p, c).procs;
    }
  }

  // ----- Steps of the consumer

  lemma EmbedConsume(v: State, s: State)
    requires Embeds(v, s) && Small(v) && (v.cons.pc.ReadHead? || v.cons.pc.ReadHeadNext? || v.cons.pc.CopyOut?)
    ensures Embeds(Consume(v), Consume(s)) && Small(Consume(v))
  {
  }

  lemma EmbedScan(v: State, s: State)
    requires Embeds(v, s) && Small(v) && (v.cons.pc.Release? || v.cons.pc.Scan?)
    requires v.cons.pc.Scan? && v.cons.todo != [] ==> 0 <= v.cons.pc.k < 2
    ensures Embeds(Consume(v), Consume(s)) && Small(Consume(v))
  {
  }

  /** The consumer takes a step in both; it does not finish a scan. */
  lemma GoConsumer(acts: seq<Act>, v: State, s: State) returns (acts': seq<Act>, v': State, s': State)
    requires Leads(acts, s) && Embeds(v, s) && Small(v)
    requires v.cons.pc.Scan? && v.cons.todo != [] ==> 0 <= v.cons.pc.k < 2
    ensures v' == Consume(v) && Leads(acts', s') && Embeds(v', s') && Small(v')
    ensures |s'.slots| == |s.slots| && |s'.procs| == |s.procs|
  {
    acts', v', s' := acts + [ByConsumer], Consume(v), Step(s, ByConsumer);
    assert acts'[..|acts|] == acts;
    if v.cons.pc.Scan? || v.cons.pc.Release? {
      EmbedScan(v, s);
    } else {
      EmbedConsume(v, s);
    }
  }

  /** Line 213 as a whole. */
  lemma {:induction false} CopyWords(acts: seq<Act>, v: State, s: State, c: nat) returns (acts': seq<Act>, s': State)
    requires Leads(acts, s) && Embeds(v, s) && Small(v)
    requires v.cons.pc == CopyOut(0) && v.cons.out == [] && |DataOf(v, v.cons.hNext)| == v.width && c <= v.width
    ensures var v' := v.(cons := v.cons.(pc := CopyOut(c), out := DataOf(v, v.cons.hNext)[..c]));
            Leads(acts', s') && Embeds(v', s') && Small(v')
    ensures |s'.slots| == |s.slots| && |s'.procs| == |s.procs|
  {
    acts', s' := acts, s;
    var d := DataOf(v, v.cons.hNext);
    if c == 0 {
      assert v == v.(cons := v.cons.(pc := CopyOut(0), out := d[..0]));
    } else {
      acts', s' := CopyWords(acts, v, s, c - 1);
      assert d[..c] == d[..c - 1] + [d[c - 1]];
      var u := v.(cons := v.cons.(pc := CopyOut(c - 1), out := d[..c - 1]));
      assert DataOf(u, u.cons.hNext) == d;
      var v';
      acts', v', s' := GoConsumer(acts', u, s');
      assert v' == v.(cons := v.cons.(pc := CopyOut(c), out := d[..c]));
    }
  }

  /** Lines 213-216: the message of hNext is taken and the old head goes to the retire list. */
  lemma GoTake(acts: seq<Act>, v: State, s: State) returns (acts': seq<Act>, v': State, s': State)
    requires Leads(acts, s) && Embeds(v, s) && Small(v)
    requires v.cons.pc == CopyOut(0) && v.cons.out == [] && |DataOf(v, v.cons.hNext)| == v.width
    ensures var r := v.cons.(pc := CopyOut(v.width), out := DataOf(v, v.cons.hNext));
            v' == StepCopyOut(v.(cons := r))
    ensures Leads(acts', s') && Embeds(v', s') && Small(v')
    ensures |s'.slots| == |s.slots| && |s'.procs| == |s.procs|
  {
    var d := DataOf(v, v.cons.hNext);
    acts', s' := CopyWords(acts, v, s, v.width);
    assert d[..v.width] == d;
    acts', v', s' := GoConsumer(acts', v.(cons := v.cons.(pc := CopyOut(v.width), out := d)), s');
  }

  /** The scan reads the indexes of the idle users, and none of them names a slot. */
  lemma {:induction false} ScanIdle(acts: seq<Act>, v: State, s: State, k: nat) returns (acts': seq<Act>, s': State)
    requires Leads(acts, s) && Embeds(v, s) && v.cons.pc == Scan(2) && v.cons.todo != [] && v.cons.todo[0] >= 0
    requires 2 <= k <= |s.procs|
    ensures Leads(acts', s') && s' == s.(cons := s.cons.(pc := Scan(k)))
  {
    acts', s' := acts, s;
    if k > 2 {
      acts', s' := ScanIdle(acts, v, s, k - 1);
      acts', s' := acts' + [ByConsumer], Step(s', ByConsumer);
      assert acts'[..|acts'| - 1] + [ByConsumer] == acts';
    }
  }

  /** The rest of a scan that found nothing, and line 190. */
  lemma GoClear(acts: seq<Act>, v: State, s: State) returns (acts': seq<Act>, v': State, s': State)
    requires Leads(acts, s) && Embeds(v, s) && Small(v)
    requires v.cons.pc == Scan(2) && v.cons.todo != [] && v.cons.todo[0] >= 0
    ensures v' == StepScan(v) && Leads(acts', s') && Embeds(v', s') && Small(v')
    ensures |s'.slots| == |s.slots| && |s'.procs| == |s.procs|
  {
    acts', s' := ScanIdle(acts, v, s, |s.procs|);
    v' := StepScan(v);
    var s1 := s';
    acts', s' := acts' + [ByConsumer], Step(s', ByConsumer);
    assert acts'[..|acts'| - 1] + [ByConsumer] == acts';
    ClearEmbeds(v, s1);
  }

  lemma ClearEmbeds(v: State, s: State)
    requires Small(v) && v.cons.pc == Scan(2) && v.cons.todo != [] && v.cons.todo[0] >= 0
    requires Shape(s) && s.cons.pc == Scan(|s.procs|) && Embeds(v, s.(cons := s.cons.(pc := Scan(2))))
    ensures Embeds(StepScan(v), StepScan(s)) && Small(StepScan(v))
  {
    assert Inside(v.cons.todo[0]);
  }

  // ----- Moves: a step of each, or a few steps taken together

  datatype Move =
    | Step1(p: nat, msg: Msg) // one step of producer p
    | Fills(p: nat)           // lines 122-123 of producer p
    | Consumes                // one step of the consumer that does not finish a scan
    | Takes                   // lines 213-216
    | Clears                  // the rest of a scan that found nothing, and line 190

  predicate Able(v: State, mv: Move)
    requires Shape(v)
  {
    match mv
    case Step1(p, msg) => p < 2 && p < |v.procs| && |msg| == v.width && ClaimsInside(v, p)
    case Fills(p) =>
      && p < 2 && p < |v.procs| && v.procs[p].pc == Fill(0) && InRange(v, v.procs[p].node)
      && |v.procs[p].msg| == |v.slots[v.procs[p].node].data| == v.width
    case Consumes => v.cons.pc.Scan? && v.cons.todo != [] ==> 0 <= v.cons.pc.k < 2
    case Takes => v.cons.pc == CopyOut(0) && v.cons.out == [] && |DataOf(v, v.cons.hNext)| == v.width
    case Clears => v.cons.pc == Scan(2) && v.cons.todo != [] && v.cons.todo[0] >= 0
  }

  function Apply(v: State, mv: Move): (v': State)
    requires Shape(v) && Able(v, mv)
    ensures Shape(v')
  {
    match mv
    case Step1(p, msg) => Produce(v, p, msg)
    case Fills(p) =>
      var r := v.procs[p];
      v.(slots := v.slots[r.node := v.slots[r.node].(data := r.msg, next := UNDEFINED_NODE)],
         procs := v.procs[p := r.(pc := ReadTail)])
    case Consumes => Consume(v)
    case Takes => StepCopyOut(v.(cons := v.cons.(pc := CopyOut(v.width), out := DataOf(v, v.cons.hNext))))
    case Clears => StepScan(v)
  }

  ghost predicate Next(v: State, mv: Move, v': State) {
    Shape(v) && Able(v, mv) && v' == Apply(v, mv)
  }

  ghost predicate At(acts: seq<Act>, s: State, v: State) {
    Leads(acts, s) && Embeds(v, s) && Small(v)
  }

  ghost predicate SameSize(s: State, s': State) {
    |s'.slots| == |s.slots| && |s'.procs| == |s.procs|
  }

  /** What four slots and two users do, more slots and users can do too. */
  lemma Along(acts: seq<Act>, s: State, v: State, mv: Move, v': State) returns (acts': seq<Act>, s': State)
    requires At(acts, s, v) && Next(v, mv, v')
    ensures At(acts', s', v') && SameSize(s, s')
  {
    var v1;
    match mv
    case Step1(p, msg) => acts', v1, s' := GoProducer(acts, v, s, p, msg);
    case Fills(p) => acts', v1, s' := GoFill(acts, v, s, p);
    case Consumes => acts', v1, s' := GoConsumer(acts, v, s);
    case Takes => acts', v1, s' := GoTake(acts, v, s);
    case Clears => acts', v1, s' := GoClear(acts, v, s);
  }

  lemma AlongLike(acts: seq<Act>, s: State, v: State, w: State)
    requires At(acts, s, v) && Shape(w) && Like(v, w)
    ensures At(acts, s, w)
  {
    EmbedsLike(v, w, s);
  }
}
