/**
 The scan of lfmpscq.c is not atomic, and without that the queue can lose a message: a run with two
 producers and four slots, for messages of any width, and with more users and slots around them.
 */
module LfmpscqLostMessage {
  import opened Common
  import opened Lfmpscq
  import opened LfmpscqDelivery
  import opened LfmpscqEmbedding

  /** Three messages, and what a slot holds at first. */
  datatype Data = Data(z: Msg, a: Msg, b: Msg, c: Msg)

  ghost predicate DataOk(d: Data) { |d.a| == |d.b| == |d.c| == |d.z| }

  /** A state of four slots and two users; what no step reads is left out. */
  function View(d: Data, head: int, tail: int, slots: seq<Slot>, haz: seq<int>, procs: seq<Producer>,
                cons: Consumer, sent: seq<seq<Msg>>, got: seq<Msg>): State
  {
    State(|d.z|, head, tail, slots, haz, procs, cons, [], [false, false], [], sent, got)
  }

  // ----- The run

  /** Nothing happened yet. */
  function Start(d: Data): State {
    View(d, 0, 0,
         [Slot(true, -1, d.z, Linked), Slot(false, -1, d.z, Free),
          Slot(false, -1, d.z, Free), Slot(false, -1, d.z, Free)],
         [-1, -1], [Producer(Idle, [], -1, -1, -1, 0),
           Producer(Idle, [], -1, -1, -1, 0)],
         Consumer(ReadHead, -1, -1, [], [], [], -1), [[], []], [])
  }

  /** Producer 1 begins to enqueue a and claims and fills slot 1. */
  function Filling1(d: Data): State {
    View(d, 0, 0,
         [Slot(true, -1, d.z, Linked), Slot(true, -1, d.a, Claimed(1)),
          Slot(false, -1, d.z, Free), Slot(false, -1, d.z, Free)],
         [-1, -1], [Producer(Idle, [], -1, -1, -1, 0),
           Producer(ReadTail, d.a, 1, -1, -1, 1)],
         Consumer(ReadHead, -1, -1, [], [], [], -1), [[], []], [])
  }

  lemma EvalFilling1(d: Data) returns (v1: State, v2: State, v3: State, v4: State)
    requires DataOk(d)
    ensures Next(Start(d), Step1(1, d.a), v1)
    ensures Next(v1, Step1(1, d.a), v2)
    ensures Next(v2, Step1(1, d.a), v3)
    ensures Next(v3, Fills(1), v4)
    ensures Like(v4, Filling1(d))
  {
    v1 := Apply(Start(d), Step1(1, d.a));
    assert v1.procs[1] == Producer(Claim(0), d.a, -1, -1, -1, 0);
    v2 := Apply(v1, Step1(1, d.a));
    assert v2.procs[1] == Producer(Claim(1), d.a, -1, -1, -1, 1);
    v3 := Apply(v2, Step1(1, d.a));
    assert v3.procs[1] == Producer(Fill(0), d.a, 1, -1, -1, 1);
    v4 := Apply(v3, Fills(1));
  }

  lemma ToFilling1(acts: seq<Act>, s: State, d: Data) returns (acts': seq<Act>, s': State)
    requires DataOk(d) && At(acts, s, Start(d))
    ensures At(acts', s', Filling1(d)) && SameSize(s, s')
  {
    var v1, v2, v3, v4 := EvalFilling1(d);
    acts', s' := Along(acts, s, Start(d), Step1(1, d.a), v1);
    acts', s' := Along(acts', s', v1, Step1(1, d.a), v2);
    acts', s' := Along(acts', s', v2, Step1(1, d.a), v3);
    acts', s' := Along(acts', s', v3, Fills(1), v4);
    AlongLike(acts', s', v4, Filling1(d));
  }

  /** It publishes and validates slot 0, the dummy. */
  function Validated1(d: Data): State {
    View(d, 0, 0,
         [Slot(true, -1, d.z, Linked), Slot(true, -1, d.a, Claimed(1)),
          Slot(false, -1, d.z, Free), Slot(false, -1, d.z, Free)],
         [-1, 0], [Producer(Idle, [], -1, -1, -1, 0),
           Producer(ReadTailNext, d.a, 1, 0, -1, 1)],
         Consumer(ReadHead, -1, -1, [], [], [], -1), [[], []], [])
  }

  lemma EvalValidated1(d: Data) returns (v1: State, v2: State, v3: State)
    requires DataOk(d)
    ensures Next(Filling1(d), Step1(1, d.a), v1)
    ensures Next(v1, Step1(1, d.a), v2)
    ensures Next(v2, Step1(1, d.a), v3)
    ensures Like(v3, Validated1(d))
  {
    v1 := Apply(Filling1(d), Step1(1, d.a));
    assert v1.procs[1] == Producer(PublishTail, d.a, 1, 0, -1, 1);
    v2 := Apply(v1, Step1(1, d.a));
    assert v2.procs[1] == Producer(CheckTail, d.a, 1, 0, -1, 1);
    v3 := Apply(v2, Step1(1, d.a));
  }

  lemma ToValidated1(acts: seq<Act>, s: State, d: Data) returns (acts': seq<Act>, s': State)
    requires DataOk(d) && At(acts, s, Filling1(d))
    ensures At(acts', s', Validated1(d)) && SameSize(s, s')
  {
    var v1, v2, v3 := EvalValidated1(d);
    acts', s' := Along(acts, s, Filling1(d), Step1(1, d.a), v1);
    acts', s' := Along(acts', s', v1, Step1(1, d.a), v2);
    acts', s' := Along(acts', s', v2, Step1(1, d.a), v3);
    AlongLike(acts', s', v3, Validated1(d));
  }

  /** It links slot 1 to slot 0 and stops before line 158: tail still names slot 0. */
  function Linked1(d: Data): State {
    View(d, 0, 0,
         [Slot(true, 1, d.z, Linked), Slot(true, -1, d.a, Linked),
          Slot(false, -1, d.z, Free), Slot(false, -1, d.z, Free)],
         [-1, 0], [Producer(Idle, [], -1, -1, -1, 0),
           Producer(SwingTail, d.a, 1, 0, -1, 1)],
         Consumer(ReadHead, -1, -1, [], [], [], -1), [[], []], [])
  }

  lemma EvalLinked1(d: Data) returns (v1: State, v2: State)
    requires DataOk(d)
    ensures Next(Validated1(d), Step1(1, d.a), v1)
    ensures Next(v1, Step1(1, d.a), v2)
    ensures Like(v2, Linked1(d))
  {
    v1 := Apply(Validated1(d), Step1(1, d.a));
    assert v1.procs[1] == Producer(Link, d.a, 1, 0, -1, 1);
    v2 := Apply(v1, Step1(1, d.a));
  }

  lemma ToLinked1(acts: seq<Act>, s: State, d: Data) returns (acts': seq<Act>, s': State)
    requires DataOk(d) && At(acts, s, Validated1(d))
    ensures At(acts', s', Linked1(d)) && SameSize(s, s')
  {
    var v1, v2 := EvalLinked1(d);
    acts', s' := Along(acts, s, Validated1(d), Step1(1, d.a), v1);
    acts', s' := Along(acts', s', v1, Step1(1, d.a), v2);
    AlongLike(acts', s', v2, Linked1(d));
  }

  /** The consumer takes a, retires slot 0, and reads index 0 on its way to free it. */
  function HalfScanned(d: Data): State {
    View(d, 1, 0,
         [Slot(true, 1, d.z, Retired), Slot(true, -1, d.a, Linked),
          Slot(false, -1, d.z, Free), Slot(false, -1, d.z, Free)],
         [-1, 0], [Producer(Idle, [], -1, -1, -1, 0),
           Producer(SwingTail, d.a, 1, 0, -1, 1)],
         Consumer(Scan(1), 0, 1, d.a, [], [0], -1), [[], []], [d.a])
  }

  lemma EvalHalfScanned(d: Data) returns (v1: State, v2: State, v3: State, v4: State)
    requires DataOk(d)
    ensures Next(Linked1(d), Consumes, v1)
    ensures Next(v1, Consumes, v2)
    ensures Next(v2, Takes, v3)
    ensures Next(v3, Consumes, v4)
    ensures Like(v4, HalfScanned(d))
  {
    v1 := Apply(Linked1(d), Consumes);
    assert v1.cons == Consumer(ReadHeadNext, 0, -1, [], [], [], -1);
    v2 := Apply(v1, Consumes);
    assert v2.cons == Consumer(CopyOut(0), 0, 1, [], [], [], -1);
    v3 := Apply(v2, Takes);
    assert v3.cons == Consumer(Scan(0), 0, 1, d.a, [], [0], -1);
    v4 := Apply(v3, Consumes);
  }

  lemma ToHalfScanned(acts: seq<Act>, s: State, d: Data) returns (acts': seq<Act>, s': State)
    requires DataOk(d) && At(acts, s, Linked1(d))
    ensures At(acts', s', HalfScanned(d)) && SameSize(s, s')
  {
    var v1, v2, v3, v4 := EvalHalfScanned(d);
    acts', s' := Along(acts, s, Linked1(d), Consumes, v1);
    acts', s' := Along(acts', s', v1, Consumes, v2);
    acts', s' := Along(acts', s', v2, Takes, v3);
    acts', s' := Along(acts', s', v3, Consumes, v4);
    AlongLike(acts', s', v4, HalfScanned(d));
  }

  /** Producer 0 begins to enqueue b and claims and fills slot 2. */
  function Filling0(d: Data): State {
    View(d, 1, 0,
         [Slot(true, 1, d.z, Retired), Slot(true, -1, d.a, Linked),
          Slot(true, -1, d.b, Claimed(0)), Slot(false, -1, d.z, Free)],
         [-1, 0], [Producer(ReadTail, d.b, 2, -1, -1, 2),
           Producer(SwingTail, d.a, 1, 0, -1, 1)],
         Consumer(Scan(1), 0, 1, d.a, [], [0], -1), [[], []], [d.a])
  }

  lemma EvalFilling0(d: Data) returns (v1: State, v2: State, v3: State, v4: State, v5: State)
    requires DataOk(d)
    ensures Next(HalfScanned(d), Step1(0, d.b), v1)
    ensures Next(v1, Step1(0, d.b), v2)
    ensures Next(v2, Step1(0, d.b), v3)
    ensures Next(v3, Step1(0, d.b), v4)
    ensures Next(v4, Fills(0), v5)
    ensures Like(v5, Filling0(d))
  {
    v1 := Apply(HalfScanned(d), Step1(0, d.b));
    assert v1.procs[0] == Producer(Claim(0), d.b, -1, -1, -1, 0);
    v2 := Apply(v1, Step1(0, d.b));
    assert v2.procs[0] == Producer(Claim(1), d.b, -1, -1, -1, 1);
    v3 := Apply(v2, Step1(0, d.b));
    assert v3.procs[0] == Producer(Claim(2), d.b, -1, -1, -1, 2);
    v4 := Apply(v3, Step1(0, d.b));
    assert v4.procs[0] == Producer(Fill(0), d.b, 2, -1, -1, 2);
    v5 := Apply(v4, Fills(0));
  }

  lemma ToFilling0(acts: seq<Act>, s: State, d: Data) returns (acts': seq<Act>, s': State)
    requires DataOk(d) && At(acts, s, HalfScanned(d))
    ensures At(acts', s', Filling0(d)) && SameSize(s, s')
  {
    var v1, v2, v3, v4, v5 := EvalFilling0(d);
    acts', s' := Along(acts, s, HalfScanned(d), Step1(0, d.b), v1);
    acts', s' := Along(acts', s', v1, Step1(0, d.b), v2);
    acts', s' := Along(acts', s', v2, Step1(0, d.b), v3);
    acts', s' := Along(acts', s', v3, Step1(0, d.b), v4);
    acts', s' := Along(acts', s', v4, Fills(0), v5);
    AlongLike(acts', s', v5, Filling0(d));
  }

  /** It publishes slot 0, which tail still names, and validates it: a late check. */
  function Validated0(d: Data): State {
    View(d, 1, 0,
         [Slot(true, 1, d.z, Retired), Slot(true, -1, d.a, Linked),
          Slot(true, -1, d.b, Claimed(0)), Slot(false, -1, d.z, Free)],
         [0, 0], [Producer(ReadTailNext, d.b, 2, 0, -1, 2),
           Producer(SwingTail, d.a, 1, 0, -1, 1)],
         Consumer(Scan(1), 0, 1, d.a, [], [0], -1), [[], []], [d.a])
  }

  lemma EvalValidated0(d: Data) returns (v1: State, v2: State, v3: State)
    requires DataOk(d)
    ensures Next(Filling0(d), Step1(0, d.b), v1)
    ensures Next(v1, Step1(0, d.b), v2)
    ensures Next(v2, Step1(0, d.b), v3)
    ensures Like(v3, Validated0(d))
  {
    v1 := Apply(Filling0(d), Step1(0, d.b));
    assert v1.procs[0] == Producer(PublishTail, d.b, 2, 0, -1, 2);
    v2 := Apply(v1, Step1(0, d.b));
    assert v2.procs[0] == Producer(CheckTail, d.b, 2, 0, -1, 2);
    v3 := Apply(v2, Step1(0, d.b));
  }

  lemma ToValidated0(acts: seq<Act>, s: State, d: Data) returns (acts': seq<Act>, s': State)
    requires DataOk(d) && At(acts, s, Filling0(d))
    ensures At(acts', s', Validated0(d)) && SameSize(s, s')
  {
    var v1, v2, v3 := EvalValidated0(d);
    acts', s' := Along(acts, s, Filling0(d), Step1(0, d.b), v1);
    acts', s' := Along(acts', s', v1, Step1(0, d.b), v2);
    acts', s' := Along(acts', s', v2, Step1(0, d.b), v3);
    AlongLike(acts', s', v3, Validated0(d));
  }

  /** Producer 1 finishes its call. */
  function Swung1(d: Data): State {
    View(d, 1, 1,
         [Slot(true, 1, d.z, Retired), Slot(true, -1, d.a, Linked),
          Slot(true, -1, d.b, Claimed(0)), Slot(false, -1, d.z, Free)],
         [0, 0], [Producer(ReadTailNext, d.b, 2, 0, -1, 2),
           Producer(Idle, d.a, 1, 0, -1, 1)],
         Consumer(Scan(1), 0, 1, d.a, [], [0], -1), [[], [d.a]], [d.a])
  }

  lemma EvalSwung1(d: Data) returns (v1: State)
    requires DataOk(d)
    ensures Next(Validated0(d), Step1(1, d.c), v1)
    ensures Like(v1, Swung1(d))
  {
    v1 := Apply(Validated0(d), Step1(1, d.c));
    assert v1.sent[1] == [] + [d.a] == [d.a];
  }

  lemma ToSwung1(acts: seq<Act>, s: State, d: Data) returns (acts': seq<Act>, s': State)
    requires DataOk(d) && At(acts, s, Validated0(d))
    ensures At(acts', s', Swung1(d)) && SameSize(s, s')
  {
    var v1 := EvalSwung1(d);
    acts', s' := Along(acts, s, Validated0(d), Step1(1, d.c), v1);
    AlongLike(acts', s', v1, Swung1(d));
  }

  /** It begins to enqueue c, and claims and fills slot 3. */
  function Filling1Again(d: Data): State {
    View(d, 1, 1,
         [Slot(true, 1, d.z, Retired), Slot(true, -1, d.a, Linked),
          Slot(true, -1, d.b, Claimed(0)), Slot(true, -1, d.c, Claimed(1))],
         [0, 0], [Producer(ReadTailNext, d.b, 2, 0, -1, 2),
           Producer(ReadTail, d.c, 3, 0, -1, 3)],
         Consumer(Scan(1), 0, 1, d.a, [], [0], -1), [[], [d.a]], [d.a])
  }

  lemma EvalFilling1Again(d: Data) returns (v1: State, v2: State, v3: State, v4: State, v5: State)
    requires DataOk(d)
    ensures Next(Swung1(d), Step1(1, d.c), v1)
    ensures Next(v1, Step1(1, d.c), v2)
    ensures Next(v2, Step1(1, d.c), v3)
    ensures Next(v3, Step1(1, d.c), v4)
    ensures Next(v4, Fills(1), v5)
    ensures Like(v5, Filling1Again(d))
  {
    v1 := Apply(Swung1(d), Step1(1, d.c));
    assert v1.procs[1] == Producer(Claim(0), d.c, 1, 0, -1, 1);
    v2 := Apply(v1, Step1(1, d.c));
    assert v2.procs[1] == Producer(Claim(1), d.c, 1, 0, -1, 2);
    v3 := Apply(v2, Step1(1, d.c));
    assert v3.procs[1] == Producer(Claim(2), d.c, 1, 0, -1, 3);
    v4 := Apply(v3, Step1(1, d.c));
    assert v4.procs[1] == Producer(Fill(0), d.c, 3, 0, -1, 3);
    v5 := Apply(v4, Fills(1));
  }

  lemma ToFilling1Again(acts: seq<Act>, s: State, d: Data) returns (acts': seq<Act>, s': State)
    requires DataOk(d) && At(acts, s, Swung1(d))
    ensures At(acts', s', Filling1Again(d)) && SameSize(s, s')
  {
    var v1, v2, v3, v4, v5 := EvalFilling1Again(d);
    acts', s' := Along(acts, s, Swung1(d), Step1(1, d.c), v1);
    acts', s' := Along(acts', s', v1, Step1(1, d.c), v2);
    acts', s' := Along(acts', s', v2, Step1(1, d.c), v3);
    acts', s' := Along(acts', s', v3, Step1(1, d.c), v4);
    acts', s' := Along(acts', s', v4, Fills(1), v5);
    AlongLike(acts', s', v5, Filling1Again(d));
  }

  /** It overwrites its index with slot 1. */
  function Published1(d: Data): State {
    View(d, 1, 1,
         [Slot(true, 1, d.z, Retired), Slot(true, -1, d.a, Linked),
          Slot(true, -1, d.b, Claimed(0)), Slot(true, -1, d.c, Claimed(1))],
         [0, 1], [Producer(ReadTailNext, d.b, 2, 0, -1, 2),
           Producer(CheckTail, d.c, 3, 1, -1, 3)],
         Consumer(Scan(1), 0, 1, d.a, [], [0], -1), [[], [d.a]], [d.a])
  }

  lemma EvalPublished1(d: Data) returns (v1: State, v2: State)
    requires DataOk(d)
    ensures Next(Filling1Again(d), Step1(1, d.c), v1)
    ensures Next(v1, Step1(1, d.c), v2)
    ensures Like(v2, Published1(d))
  {
    v1 := Apply(Filling1Again(d), Step1(1, d.c));
    assert v1.procs[1] == Producer(PublishTail, d.c, 3, 1, -1, 3);
    v2 := Apply(v1, Step1(1, d.c));
  }

  lemma ToPublished1(acts: seq<Act>, s: State, d: Data) returns (acts': seq<Act>, s': State)
    requires DataOk(d) && At(acts, s, Filling1Again(d))
    ensures At(acts', s', Published1(d)) && SameSize(s, s')
  {
    var v1, v2 := EvalPublished1(d);
    acts', s' := Along(acts, s, Filling1Again(d), Step1(1, d.c), v1);
    acts', s' := Along(acts', s', v1, Step1(1, d.c), v2);
    AlongLike(acts', s', v2, Published1(d));
  }

  /** The consumer reads index 1 and the others, finds nobody, and frees slot 0. */
  function Freed(d: Data): State {
    View(d, 1, 1,
         [Slot(false, -1, d.z, Free), Slot(true, -1, d.a, Linked),
          Slot(true, -1, d.b, Claimed(0)), Slot(true, -1, d.c, Claimed(1))],
         [0, 1], [Producer(ReadTailNext, d.b, 2, 0, -1, 2),
           Producer(CheckTail, d.c, 3, 1, -1, 3)],
         Consumer(ReadHeadNext, 1, 1, d.a, [], [], 0), [[], [d.a]], [d.a])
  }

  lemma EvalFreed(d: Data) returns (v1: State, v2: State, v3: State, v4: State, v5: State)
    requires DataOk(d)
    ensures Next(Published1(d), Consumes, v1)
    ensures Next(v1, Clears, v2)
    ensures Next(v2, Consumes, v3)
    ensures Next(v3, Consumes, v4)
    ensures Next(v4, Consumes, v5)
    ensures Like(v5, Freed(d))
  {
    v1 := Apply(Published1(d), Consumes);
    assert v1.cons == Consumer(Scan(2), 0, 1, d.a, [], [0], -1);
    v2 := Apply(v1, Clears);
    assert v2.cons == Consumer(Release, 0, 1, d.a, [], [], 0);
    v3 := Apply(v2, Consumes);
    assert v3.cons == Consumer(Scan(0), 0, 1, d.a, [], [], 0);
    v4 := Apply(v3, Consumes);
    assert v4.cons == Consumer(ReadHead, 0, 1, d.a, [], [], 0);
    v5 := Apply(v4, Consumes);
  }

  lemma ToFreed(acts: seq<Act>, s: State, d: Data) returns (acts': seq<Act>, s': State)
    requires DataOk(d) && At(acts, s, Published1(d))
    ensures At(acts', s', Freed(d)) && SameSize(s, s')
  {
    var v1, v2, v3, v4, v5 := EvalFreed(d);
    acts', s' := Along(acts, s, Published1(d), Consumes, v1);
    acts', s' := Along(acts', s', v1, Clears, v2);
    acts', s' := Along(acts', s', v2, Consumes, v3);
    acts', s' := Along(acts', s', v3, Consumes, v4);
    acts', s' := Along(acts', s', v4, Consumes, v5);
    AlongLike(acts', s', v5, Freed(d));
  }

  /** Producer 0 links slot 2 to the free slot 0 and returns success. */
  function Linked0(d: Data): State {
    View(d, 1, 1,
         [Slot(false, 2, d.z, Free), Slot(true, -1, d.a, Linked),
          Slot(true, -1, d.b, Linked), Slot(true, -1, d.c, Claimed(1))],
         [0, 1], [Producer(Idle, d.b, 2, 0, -1, 2),
           Producer(CheckTail, d.c, 3, 1, -1, 3)],
         Consumer(ReadHeadNext, 1, 1, d.a, [], [], 0), [[d.b], [d.a]], [d.a])
  }

  lemma EvalLinked0(d: Data) returns (v1: State, v2: State, v3: State)
    requires DataOk(d)
    ensures Next(Freed(d), Step1(0, d.b), v1)
    ensures Next(v1, Step1(0, d.b), v2)
    ensures Next(v2, Step1(0, d.b), v3)
    ensures Like(v3, Linked0(d))
  {
    v1 := Apply(Freed(d), Step1(0, d.b));
    assert v1.procs[0] == Producer(Link, d.b, 2, 0, -1, 2);
    v2 := Apply(v1, Step1(0, d.b));
    assert v2.procs[0] == Producer(SwingTail, d.b, 2, 0, -1, 2);
    v3 := Apply(v2, Step1(0, d.b));
    assert v3.sent[0] == [] + [d.b] == [d.b];
  }

  lemma ToLinked0(acts: seq<Act>, s: State, d: Data) returns (acts': seq<Act>, s': State)
    requires DataOk(d) && At(acts, s, Freed(d))
    ensures At(acts', s', Linked0(d)) && SameSize(s, s')
  {
    var v1, v2, v3 := EvalLinked0(d);
    acts', s' := Along(acts, s, Freed(d), Step1(0, d.b), v1);
    acts', s' := Along(acts', s', v1, Step1(0, d.b), v2);
    acts', s' := Along(acts', s', v2, Step1(0, d.b), v3);
    AlongLike(acts', s', v3, Linked0(d));
  }

  /** Producer 1 validates slot 1 and reads its next. */
  function Validated1Again(d: Data): State {
    View(d, 1, 1,
         [Slot(false, 2, d.z, Free), Slot(true, -1, d.a, Linked),
          Slot(true, -1, d.b, Linked), Slot(true, -1, d.c, Claimed(1))],
         [0, 1], [Producer(Idle, d.b, 2, 0, -1, 2),
           Producer(Link, d.c, 3, 1, -1, 3)],
         Consumer(ReadHeadNext, 1, 1, d.a, [], [], 0), [[d.b], [d.a]], [d.a])
  }

  lemma EvalValidated1Again(d: Data) returns (v1: State, v2: State)
    requires DataOk(d)
    ensures Next(Linked0(d), Step1(1, d.c), v1)
    ensures Next(v1, Step1(1, d.c), v2)
    ensures Like(v2, Validated1Again(d))
  {
    v1 := Apply(Linked0(d), Step1(1, d.c));
    assert v1.procs[1] == Producer(ReadTailNext, d.c, 3, 1, -1, 3);
    v2 := Apply(v1, Step1(1, d.c));
  }

  lemma ToValidated1Again(acts: seq<Act>, s: State, d: Data) returns (acts': seq<Act>, s': State)
    requires DataOk(d) && At(acts, s, Linked0(d))
    ensures At(acts', s', Validated1Again(d)) && SameSize(s, s')
  {
    var v1, v2 := EvalValidated1Again(d);
    acts', s' := Along(acts, s, Linked0(d), Step1(1, d.c), v1);
    acts', s' := Along(acts', s', v1, Step1(1, d.c), v2);
    AlongLike(acts', s', v2, Validated1Again(d));
  }

  /** It links c to slot 1, the last node, and returns success. */
  function Linked1Again(d: Data): State {
    View(d, 1, 3,
         [Slot(false, 2, d.z, Free), Slot(true, 3, d.a, Linked),
          Slot(true, -1, d.b, Linked), Slot(true, -1, d.c, Linked)],
         [0, 1], [Producer(Idle, d.b, 2, 0, -1, 2),
           Producer(Idle, d.c, 3, 1, -1, 3)],
         Consumer(ReadHeadNext, 1, 1, d.a, [], [], 0), [[d.b], [d.a, d.c]], [d.a])
  }

  lemma EvalLinked1Again(d: Data) returns (v1: State, v2: State)
    requires DataOk(d)
    ensures Next(Validated1Again(d), Step1(1, d.c), v1)
    ensures Next(v1, Step1(1, d.c), v2)
    ensures Like(v2, Linked1Again(d))
  {
    v1 := Apply(Validated1Again(d), Step1(1, d.c));
    assert v1.procs[1] == Producer(SwingTail, d.c, 3, 1, -1, 3);
    v2 := Apply(v1, Step1(1, d.c));
    assert v2.sent[1] == [d.a] + [d.c] == [d.a, d.c];
  }

  lemma ToLinked1Again(acts: seq<Act>, s: State, d: Data) returns (acts': seq<Act>, s': State)
    requires DataOk(d) && At(acts, s, Validated1Again(d))
    ensures At(acts', s', Linked1Again(d)) && SameSize(s, s')
  {
    var v1, v2 := EvalLinked1Again(d);
    acts', s' := Along(acts, s, Validated1Again(d), Step1(1, d.c), v1);
    acts', s' := Along(acts', s', v1, Step1(1, d.c), v2);
    AlongLike(acts', s', v2, Linked1Again(d));
  }

  /** The consumer takes c. */
  function Took3(d: Data): State {
    View(d, 3, 3,
         [Slot(false, 2, d.z, Free), Slot(true, 3, d.a, Retired),
          Slot(true, -1, d.b, Linked), Slot(true, -1, d.c, Linked)],
         [0, 1], [Producer(Idle, d.b, 2, 0, -1, 2),
           Producer(Idle, d.c, 3, 1, -1, 3)],
         Consumer(Scan(1), 1, 3, d.c, [], [1], 0), [[d.b], [d.a, d.c]], [d.a, d.c])
  }

  lemma EvalTook3(d: Data) returns (v1: State, v2: State, v3: State)
    requires DataOk(d)
    ensures Next(Linked1Again(d), Consumes, v1)
    ensures Next(v1, Takes, v2)
    ensures Next(v2, Consumes, v3)
    ensures Like(v3, Took3(d))
  {
    v1 := Apply(Linked1Again(d), Consumes);
    assert v1.cons == Consumer(CopyOut(0), 1, 3, [], [], [], 0);
    v2 := Apply(v1, Takes);
    assert v2.cons == Consumer(Scan(0), 1, 3, d.c, [], [1], 0);
    v3 := Apply(v2, Consumes);
  }

  lemma ToTook3(acts: seq<Act>, s: State, d: Data) returns (acts': seq<Act>, s': State)
    requires DataOk(d) && At(acts, s, Linked1Again(d))
    ensures At(acts', s', Took3(d)) && SameSize(s, s')
  {
    var v1, v2, v3 := EvalTook3(d);
    acts', s' := Along(acts, s, Linked1Again(d), Consumes, v1);
    acts', s' := Along(acts', s', v1, Takes, v2);
    acts', s' := Along(acts', s', v2, Consumes, v3);
    AlongLike(acts', s', v3, Took3(d));
  }

  /** Its next call reports an empty queue. */
  function Done(d: Data): State {
    View(d, 3, 3,
         [Slot(false, 2, d.z, Free), Slot(true, 3, d.a, Retired),
          Slot(true, -1, d.b, Linked), Slot(true, -1, d.c, Linked)],
         [0, 1], [Producer(Idle, d.b, 2, 0, -1, 2),
           Producer(Idle, d.c, 3, 1, -1, 3)],
         Consumer(ReadHead, 3, -1, [], [1], [], 0), [[d.b], [d.a, d.c]], [d.a, d.c])
  }

  lemma EvalDone(d: Data) returns (v1: State, v2: State, v3: State, v4: State)
    requires DataOk(d)
    ensures Next(Took3(d), Consumes, v1)
    ensures Next(v1, Consumes, v2)
    ensures Next(v2, Consumes, v3)
    ensures Next(v3, Consumes, v4)
    ensures Like(v4, Done(d))
  {
    v1 := Apply(Took3(d), Consumes);
    assert v1.cons == Consumer(Scan(0), 1, 3, d.c, [1], [], 0);
    v2 := Apply(v1, Consumes);
    assert v2.cons == Consumer(ReadHead, 1, 3, d.c, [1], [], 0);
    v3 := Apply(v2, Consumes);
    assert v3.cons == Consumer(ReadHeadNext, 3, 3, d.c, [1], [], 0);
    v4 := Apply(v3, Consumes);
  }

  lemma ToDone(acts: seq<Act>, s: State, d: Data) returns (acts': seq<Act>, s': State)
    requires DataOk(d) && At(acts, s, Took3(d))
    ensures At(acts', s', Done(d)) && SameSize(s, s')
  {
    var v1, v2, v3, v4 := EvalDone(d);
    acts', s' := Along(acts, s, Took3(d), Consumes, v1);
    acts', s' := Along(acts', s', v1, Consumes, v2);
    acts', s' := Along(acts', s', v2, Consumes, v3);
    acts', s' := Along(acts', s', v3, Consumes, v4);
    AlongLike(acts', s', v4, Done(d));
  }

  lemma FirstHalf(acts: seq<Act>, s: State, d: Data) returns (acts': seq<Act>, s': State)
    requires DataOk(d) && At(acts, s, Start(d))
    ensures At(acts', s', Filling1Again(d)) && SameSize(s, s')
  {
    acts', s' := acts, s;
    acts', s' := ToFilling1(acts', s', d);
    acts', s' := ToValidated1(acts', s', d);
    acts', s' := ToLinked1(acts', s', d);
    acts', s' := ToHalfScanned(acts', s', d);
    acts', s' := ToFilling0(acts', s', d);
    acts', s' := ToValidated0(acts', s', d);
    acts', s' := ToSwung1(acts', s', d);
    acts', s' := ToFilling1Again(acts', s', d);
  }

  lemma SecondHalf(acts: seq<Act>, s: State, d: Data) returns (acts': seq<Act>, s': State)
    requires DataOk(d) && At(acts, s, Filling1Again(d))
    ensures At(acts', s', Done(d)) && SameSize(s, s')
  {
    acts', s' := acts, s;
    acts', s' := ToPublished1(acts', s', d);
    acts', s' := ToFreed(acts', s', d);
    acts', s' := ToLinked0(acts', s', d);
    acts', s' := ToValidated1Again(acts', s', d);
    acts', s' := ToLinked1Again(acts', s', d);
    acts', s' := ToTook3(acts', s', d);
    acts', s' := ToDone(acts', s', d);
  }

  /**
   A message can be lost. With the scan split into its single reads, with at least two producers and four slots,
   and for any three messages, there is a run in which the call that enqueued b succeeds, no call is left
   running, the consumer got a and c, and its last call found the queue empty.
   */
  lemma LostMessage(numSlots: nat, maxUser: nat, a: Msg, b: Msg, c: Msg) returns (acts: seq<Act>)
    requires numSlots >= 4 && maxUser >= 2 && |a| == |b| == |c|
    ensures ScheduleOk(acts, |a|, maxUser)
    ensures
      var s := RunFrom(Init(|a|, numSlots, maxUser), acts);
      && Quiet(s) && s.cons.hNext == UNDEFINED_NODE && s.got == [a, c]
      && s.sent[0] == [b] && s.sent[1] == [a, c] && forall p :: 2 <= p < maxUser ==> s.sent[p] == []
  {
    var d := Data(seq(|a|, _ => 0), a, b, c);
    var s := Init(|a|, numSlots, maxUser);
    InitEmbeds(|a|, numSlots, maxUser);
    StartLike(d);
    EmbedsLike(Init(|a|, 4, 2), Start(d), s);
    acts := [];
    acts, s := FirstHalf(acts, s, d);
    acts, s := SecondHalf(acts, s, d);
  }

  lemma StartLike(d: Data)
    requires d.z == seq(|d.z|, _ => 0)
    ensures var v, w := Init(|d.z|, 4, 2), Start(d);
            && v.slots == w.slots && v.procs == w.procs && v.haz == w.haz && v.sent == w.sent
            && v.head == w.head && v.tail == w.tail && v.cons == w.cons && v.got == w.got
  {
    assert forall i :: 0 <= i < 4 ==> InitSlot(|d.z|, i).data == d.z;
  }
}
