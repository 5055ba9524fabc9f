/** Where wfmpscq_get puts the parts of a queue in its segment (src/wfmpscq.c). */
module Layout {
  import opened Shmman
  import C = Cyclic

  const HEAD := 16
  const QUEUE := 8
  const SLOT := 8

  /** A queue of numWriter rings of numSlots messages of nodeDataSize bytes. */
  datatype Shape = Shape(numWriter: nat, numSlots: nat, nodeDataSize: nat)

  /** The head of the queue, the indexes of a ring, the id in slot k of ring w, and the message there. */
  datatype Cell = Head | Ring(w: nat) | Id(w: nat, k: nat) | Data(w: nat, k: nat)

  function RingBase(): nat { HEAD }

  function IdBase(p: Shape): nat { RingBase() + p.numWriter * QUEUE }

  function DataBase(p: Shape): nat { IdBase(p) + p.numWriter * p.numSlots * SLOT }

  function Size(p: Shape): nat {
    HEAD + p.numWriter * QUEUE + p.numWriter * p.numSlots * SLOT + p.numWriter * p.numSlots * p.nodeDataSize
  }

  predicate IsCell(p: Shape, c: Cell) {
    && (c.Head? || c.w < p.numWriter)
    && (c.Id? || c.Data? ==> c.k < p.numSlots)
  }

  function Start(p: Shape, c: Cell): nat {
    match c
    case Head => 0
    case Ring(w) => RingBase() + w * QUEUE
    case Id(w, k) => IdBase(p) + (w * p.numSlots + k) * SLOT
    case Data(w, k) => DataBase(p) + w * p.numSlots * p.nodeDataSize + k * p.nodeDataSize
  }

  function Length(p: Shape, c: Cell): nat {
    match c
    case Head => HEAD
    case Ring(_) => QUEUE
    case Id(_, _) => SLOT
    case Data(_, _) => p.nodeDataSize
  }

  lemma MulMonotone(a: nat, b: nat, n: nat)
    requires a <= b
    ensures a * n <= b * n
  {
    assert b * n == a * n + (b - a) * n;
  }

  /** Row-major: slots of different rings have different numbers, below the number of all slots. */
  lemma Number(p: Shape, w: nat, k: nat)
    requires w < p.numWriter && k < p.numSlots
    ensures w * p.numSlots + k + 1 <= (w + 1) * p.numSlots <= p.numWriter * p.numSlots
  {
    MulMonotone(w + 1, p.numWriter, p.numSlots);
    assert (w + 1) * p.numSlots == w * p.numSlots + p.numSlots;
  }

  lemma DataStart(p: Shape, w: nat, k: nat)
    ensures w * p.numSlots * p.nodeDataSize + k * p.nodeDataSize == (w * p.numSlots + k) * p.nodeDataSize
  {
  }

  lemma DifferentNumbers(p: Shape, w: nat, k: nat, v: nat, l: nat)
    requires w < p.numWriter && k < p.numSlots && v < p.numWriter && l < p.numSlots
    requires (w, k) != (v, l)
    ensures w * p.numSlots + k != v * p.numSlots + l
  {
    Number(p, w, k);
    Number(p, v, l);
    if w < v {
      MulMonotone(w + 1, v, p.numSlots);
    } else if v < w {
      MulMonotone(v + 1, w, p.numSlots);
    }
  }

  /** Blocks of n bytes with different numbers are apart. */
  lemma BlocksApart(a: nat, b: nat, n: nat)
    requires a != b
    ensures a * n + n <= b * n || b * n + n <= a * n
  {
    if a < b {
      MulMonotone(a + 1, b, n);
      assert (a + 1) * n == a * n + n;
    } else {
      MulMonotone(b + 1, a, n);
      assert (b + 1) * n == b * n + n;
    }
  }

  lemma BlockInside(a: nat, b: nat, n: nat)
    requires a + 1 <= b
    ensures a * n + n <= b * n
  {
    MulMonotone(a + 1, b, n);
    assert (a + 1) * n == a * n + n;
  }

  lemma IdInArea(p: Shape, w: nat, k: nat)
    requires w < p.numWriter && k < p.numSlots
    ensures (w * p.numSlots + k) * SLOT + SLOT <= p.numWriter * p.numSlots * SLOT
  {
    Number(p, w, k);
  }

  lemma DataInArea(p: Shape, w: nat, k: nat)
    requires w < p.numWriter && k < p.numSlots
    ensures w * p.numSlots * p.nodeDataSize + k * p.nodeDataSize + p.nodeDataSize
            <= p.numWriter * p.numSlots * p.nodeDataSize
  {
    Number(p, w, k);
    DataStart(p, w, k);
    BlockInside(w * p.numSlots + k, p.numWriter * p.numSlots, p.nodeDataSize);
  }

  /** The areas follow each other. */
  lemma IdInside(p: Shape, c: Cell)
    requires IsCell(p, c) && c.Id?
    ensures IdBase(p) <= Start(p, c) && Start(p, c) + Length(p, c) <= DataBase(p)
  {
    IdInArea(p, c.w, c.k);
  }

  lemma DataInside(p: Shape, c: Cell)
    requires IsCell(p, c) && c.Data?
    ensures DataBase(p) <= Start(p, c) && Start(p, c) + Length(p, c) <= Size(p)
  {
    DataInArea(p, c.w, c.k);
  }

  lemma EarlyInside(p: Shape, c: Cell)
    requires IsCell(p, c) && !c.Data? && !c.Id?
    ensures Start(p, c) + Length(p, c) <= IdBase(p)
  {
  }

  lemma BaseOrder(p: Shape)
    ensures IdBase(p) <= DataBase(p) <= Size(p)
  {
  }

  lemma CellInside(p: Shape, c: Cell)
    requires IsCell(p, c)
    ensures Start(p, c) + Length(p, c) <= Size(p)
  {
    BaseOrder(p);
    if c.Id? {
      IdInside(p, c);
    } else if c.Data? {
      DataInside(p, c);
    } else {
      EarlyInside(p, c);
    }
  }

  lemma IdsApart(p: Shape, w: nat, k: nat, v: nat, l: nat)
    requires w < p.numWriter && k < p.numSlots && v < p.numWriter && l < p.numSlots && (w, k) != (v, l)
    ensures || (w * p.numSlots + k) * SLOT + SLOT <= (v * p.numSlots + l) * SLOT
            || (v * p.numSlots + l) * SLOT + SLOT <= (w * p.numSlots + k) * SLOT
  {
    DifferentNumbers(p, w, k, v, l);
  }

  lemma DataApart(p: Shape, w: nat, k: nat, v: nat, l: nat)
    requires w < p.numWriter && k < p.numSlots && v < p.numWriter && l < p.numSlots && (w, k) != (v, l)
    ensures var n := p.nodeDataSize;
            || w * p.numSlots * n + k * n + n <= v * p.numSlots * n + l * n
            || v * p.numSlots * n + l * n + n <= w * p.numSlots * n + k * n
  {
    DataStart(p, w, k);
    DataStart(p, v, l);
    DifferentNumbers(p, w, k, v, l);
    BlocksApart(w * p.numSlots + k, v * p.numSlots + l, p.nodeDataSize);
  }

  ghost predicate Apart(p: Shape, c: Cell, d: Cell) {
    Start(p, c) + Length(p, c) <= Start(p, d) || Start(p, d) + Length(p, d) <= Start(p, c)
  }

  lemma DataCellsApart(p: Shape, c: Cell, d: Cell)
    requires IsCell(p, c) && IsCell(p, d) && c != d && c.Data? && d.Data?
    ensures Apart(p, c, d)
  {
    DataApart(p, c.w, c.k, d.w, d.k);
  }

  lemma IdCellsApart(p: Shape, c: Cell, d: Cell)
    requires IsCell(p, c) && IsCell(p, d) && c != d && c.Id? && d.Id?
    ensures Apart(p, c, d)
  {
    IdsApart(p, c.w, c.k, d.w, d.k);
  }

  lemma EarlyCellsApart(p: Shape, c: Cell, d: Cell)
    requires IsCell(p, c) && IsCell(p, d) && c != d && !c.Id? && !d.Id? && !c.Data? && !d.Data?
    ensures Apart(p, c, d)
  {
  }

  lemma AreasApart(p: Shape, c: Cell, d: Cell)
    requires IsCell(p, c) && IsCell(p, d)
    requires (c.Data? && !d.Data?) || (c.Id? && !d.Id? && !d.Data?)
    ensures Start(p, d) + Length(p, d) <= Start(p, c)
  {
    BaseOrder(p);
    if c.Data? { DataInside(p, c); } else { IdInside(p, c); }
    if d.Id? { IdInside(p, d); } else { EarlyInside(p, d); }
  }

  /** No two parts of a queue overlap. */
  lemma CellsApart(p: Shape, c: Cell, d: Cell)
    requires IsCell(p, c) && IsCell(p, d) && c != d
    ensures Apart(p, c, d)
  {
    if c.Data? && d.Data? {
      DataCellsApart(p, c, d);
    } else if c.Id? && d.Id? {
      IdCellsApart(p, c, d);
    } else if c.Data? || (c.Id? && !d.Data?) {
      AreasApart(p, c, d);
    } else if d.Data? || d.Id? {
      AreasApart(p, d, c);
    } else {
      EarlyCellsApart(p, c, d);
    }
  }

  /** The parts fill the size that is asked for: every byte belongs to a part, and so to exactly one. */
  lemma EveryByteUsed(p: Shape, x: nat) returns (c: Cell)
    requires x < Size(p)
    ensures IsCell(p, c) && Start(p, c) <= x < Start(p, c) + Length(p, c)
    ensures forall d :: IsCell(p, d) && Start(p, d) <= x < Start(p, d) + Length(p, d) ==> d == c
  {
    if x < HEAD {
      c := Head;
    } else if x < IdBase(p) {
      c := Ring((x - HEAD) / QUEUE);
    } else if x < DataBase(p) {
      var w, k := BlockOf(p, x - IdBase(p), SLOT);
      c := Id(w, k);
    } else {
      var w, k := BlockOf(p, x - DataBase(p), p.nodeDataSize);
      DataStart(p, w, k);
      c := Data(w, k);
    }
    forall d | IsCell(p, d) && Start(p, d) <= x < Start(p, d) + Length(p, d) ensures d == c {
      if d != c { CellsApart(p, c, d); }
    }
  }

  /** Byte x of an area with one block of n bytes for each slot. */
  lemma BlockOf(p: Shape, x: nat, n: nat) returns (w: nat, k: nat)
    requires x < p.numWriter * p.numSlots * n
    ensures w < p.numWriter && k < p.numSlots
    ensures (w * p.numSlots + k) * n <= x < (w * p.numSlots + k) * n + n
  {
    Positive(p.numWriter * p.numSlots, n);
    Positive(p.numWriter, p.numSlots);
    var number := x / n;
    C.Fundamental(x, n);
    if number >= p.numWriter * p.numSlots { MulMonotone(p.numWriter * p.numSlots, number, n); }
    w, k := number / p.numSlots, number % p.numSlots;
    C.Fundamental(number, p.numSlots);
    if w >= p.numWriter { MulMonotone(p.numWriter, w, p.numSlots); }
  }

  lemma Positive(a: nat, b: nat)
    ensures a * b > 0 ==> a > 0 && b > 0
  {
  }

  /**
   For every sequence of calls: no two different parts of queues overlap, whether they are in one queue or in
   two, and each is inside the System V segment it is in.
   */
  lemma PartsNeverOverlap(requests: seq<Request>, pagesize: nat, i: nat, p: Shape, c: Cell, j: nat, q: Shape, d: Cell)
    requires pagesize >= 1 && forall k :: 0 <= k < |requests| ==> requests[k].id < MAX_SHMSEG
    requires i < |Run(requests, pagesize).segments| && Run(requests, pagesize).segments[i].wanted == Size(p)
    requires j < |Run(requests, pagesize).segments| && Run(requests, pagesize).segments[j].wanted == Size(q)
    requires IsCell(p, c) && IsCell(q, d) && (i == j ==> p == q && c != d)
    ensures var b := Run(requests, pagesize);
            var s, t := b.segments[i], b.segments[j];
            && s.region < |b.regions|
            && s.offset + Start(p, c) + Length(p, c) <= b.regions[s.region].size
            && (s.region == t.region ==>
                  || s.offset + Start(p, c) + Length(p, c) <= t.offset + Start(q, d)
                  || t.offset + Start(q, d) + Length(q, d) <= s.offset + Start(p, c))
  {
    Allocation(requests, pagesize, i, j);
    Allocation(requests, pagesize, j, i);
    CellInside(p, c);
    CellInside(q, d);
    if i == j {
      CellsApart(p, c, d);
    }
  }
}
