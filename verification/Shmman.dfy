/**
 The segment allocator (system/linux/src/shmman.c): segments are placed one behind the other in System V
 segments, and the first System V segment with enough room is taken.
 */
module Shmman {
  import opened Counting
  import C = Cyclic

  const MAX_SVSHMSEG := 25
  const MAX_SHMSEG := 1000
  const MIN_SVSHMSEGSIZE := 4

  /** An entry of the table of System V segments: offset is where its unused memory begins. */
  datatype Region = Region(key: int, size: nat, offset: nat)

  /** An entry of the segment table. */
  datatype Entry = Entry(init: bool, region: nat, offset: nat, size: nat)

  /** A segment that was created: its id, the size asked for, and its entry in the table. */
  datatype Segment = Segment(id: nat, wanted: nat, region: nat, offset: nat, size: nat)

  /** The used part of the table of System V segments, and the segments in the order of their creation. */
  datatype Book = Book(regions: seq<Region>, segments: seq<Segment>)

  /** A call of shmman_create_shmseg; key is the System V key it gets if it needs one. */
  datatype Request = Request(id: nat, size: nat, key: int)

  function Rounded(size: nat): nat {
    size + (8 - size % 8)
  }

  function RegionSize(size: nat, pagesize: nat): nat
    requires pagesize >= 1
  {
    var pages := size / pagesize + 1;
    (if pages < MIN_SVSHMSEGSIZE then MIN_SVSHMSEGSIZE else pages) * pagesize
  }

  predicate Fits(r: Region, size: nat) {
    r.key != 0 && r.size - r.offset >= size
  }

  predicate Known(segments: seq<Segment>, id: nat) {
    exists i :: 0 <= i < |segments| && segments[i].id == id
  }

  /** The first region with enough room, or the number of regions. */
  function FirstFit(regions: seq<Region>, size: nat, from: nat): (i: nat)
    requires from <= |regions|
    ensures from <= i <= |regions|
    ensures i < |regions| ==> Fits(regions[i], size)
    ensures forall j :: from <= j < i ==> !Fits(regions[j], size)
    decreases |regions| - from
  {
    if from == |regions| || Fits(regions[from], size) then from else FirstFit(regions, size, from + 1)
  }

  function Place(b: Book, i: nat, q: Request): Book
    requires i < |b.regions|
  {
    var r := b.regions[i];
    Book(b.regions[i := r.(offset := r.offset + Rounded(q.size))],
         b.segments + [Segment(q.id, q.size, i, r.offset, Rounded(q.size))])
  }

  /** What shmman_create_shmseg answers and does to the tables. */
  function Create(b: Book, q: Request, pagesize: nat): (bool, Book)
    requires pagesize >= 1
  {
    if Known(b.segments, q.id) then (true, b)
    else if |b.segments| >= MAX_SHMSEG then (false, b)
    else
      var i := FirstFit(b.regions, Rounded(q.size), 0);
      if i < |b.regions| then (true, Place(b, i, q))
      else if |b.regions| >= MAX_SVSHMSEG then (false, b)
      else (true, Place(b.(regions := b.regions + [Region(q.key, RegionSize(Rounded(q.size), pagesize), 0)]), i, q))
  }

  function Run(requests: seq<Request>, pagesize: nat): Book
    requires pagesize >= 1
  {
    if requests == [] then Book([], [])
    else Create(Run(requests[..|requests| - 1], pagesize), requests[|requests| - 1], pagesize).1
  }

  // ----- The invariant

  /** The bytes that segments take in region r. */
  function Total(segments: seq<Segment>, r: nat): nat {
    if segments == [] then 0
    else
      var last := segments[|segments| - 1];
      Total(segments[..|segments| - 1], r) + if last.region == r then last.size else 0
  }

  ghost predicate SegmentOk(b: Book, i: nat)
    requires i < |b.segments|
  {
    var s := b.segments[i];
    && s.id < MAX_SHMSEG
    && s.region < |b.regions|
    && s.size == Rounded(s.wanted)
    && s.offset == Total(b.segments[..i], s.region)
  }

  ghost predicate BookOk(b: Book) {
    && |b.regions| <= MAX_SVSHMSEG
    && (forall r :: 0 <= r < |b.regions| ==> b.regions[r].offset == Total(b.segments, r) <= b.regions[r].size)
    && (forall i :: 0 <= i < |b.segments| ==> SegmentOk(b, i))
    && (forall i, j :: 0 <= i < j < |b.segments| ==> b.segments[i].id != b.segments[j].id)
  }

  lemma RegionIsLarger(size: nat, pagesize: nat)
    requires pagesize >= 1
    ensures RegionSize(size, pagesize) > size
  {
    var pages := size / pagesize + 1;
    assert pages * pagesize == (size / pagesize) * pagesize + pagesize;
    if pages < MIN_SVSHMSEGSIZE {
      assert MIN_SVSHMSEGSIZE * pagesize == pages * pagesize + (MIN_SVSHMSEGSIZE - pages) * pagesize;
    }
  }

  lemma {:induction false} NothingPlaced(b: Book, k: nat, r: nat)
    requires k <= |b.segments| && forall i :: 0 <= i < |b.segments| ==> SegmentOk(b, i)
    requires r >= |b.regions|
    ensures Total(b.segments[..k], r) == 0
  {
    if k > 0 {
      NothingPlaced(b, k - 1, r);
      assert b.segments[..k][..k - 1] == b.segments[..k - 1];
      assert SegmentOk(b, k - 1);
    }
  }

  lemma PlaceKeeps(b: Book, i: nat, q: Request)
    requires BookOk(b) && i < |b.regions| && q.id < MAX_SHMSEG && !Known(b.segments, q.id)
    requires b.regions[i].offset + Rounded(q.size) <= b.regions[i].size
    ensures BookOk(Place(b, i, q))
  {
    var b', n := Place(b, i, q), |b.segments|;
    assert b'.segments[..n] == b.segments;
    forall k | 0 <= k < n + 1 ensures SegmentOk(b', k) {
      if k < n {
        assert SegmentOk(b, k);
        assert b'.segments[..k] == b.segments[..k];
      }
    }
  }

  lemma NewRegionKeeps(b: Book, r: Region)
    requires BookOk(b) && |b.regions| < MAX_SVSHMSEG && r.offset == 0
    ensures BookOk(b.(regions := b.regions + [r]))
  {
    var b' := b.(regions := b.regions + [r]);
    NothingPlaced(b, |b.segments|, |b.regions|);
    assert b.segments[..|b.segments|] == b.segments;
    forall i | 0 <= i < |b'.segments| ensures SegmentOk(b', i) { assert SegmentOk(b, i); }
  }

  lemma CreateKeeps(b: Book, q: Request, pagesize: nat)
    requires BookOk(b) && q.id < MAX_SHMSEG && pagesize >= 1
    ensures BookOk(Create(b, q, pagesize).1)
  {
    var size := Rounded(q.size);
    var i := FirstFit(b.regions, size, 0);
    if Known(b.segments, q.id) || |b.segments| >= MAX_SHMSEG {
    } else if i < |b.regions| {
      PlaceKeeps(b, i, q);
    } else if |b.regions| < MAX_SVSHMSEG {
      var r := Region(q.key, RegionSize(size, pagesize), 0);
      NewRegionKeeps(b, r);
      RegionIsLarger(size, pagesize);
      PlaceKeeps(b.(regions := b.regions + [r]), i, q);
    }
  }

  lemma {:induction false} RunOk(requests: seq<Request>, pagesize: nat)
    requires pagesize >= 1 && forall k :: 0 <= k < |requests| ==> requests[k].id < MAX_SHMSEG
    ensures BookOk(Run(requests, pagesize))
  {
    if requests != [] {
      RunOk(requests[..|requests| - 1], pagesize);
      CreateKeeps(Run(requests[..|requests| - 1], pagesize), requests[|requests| - 1], pagesize);
    }
  }

  // ----- Where the segments are

  lemma {:induction false} TotalGrows(segments: seq<Segment>, i: nat, j: nat)
    requires i < j <= |segments|
    ensures Total(segments[..i], segments[i].region) + segments[i].size <= Total(segments[..j], segments[i].region)
  {
    assert segments[..j][..j - 1] == segments[..j - 1];
    if i + 1 < j {
      TotalGrows(segments, i, j - 1);
    }
  }

  lemma {:induction false} TotalAligned(b: Book, k: nat, r: nat)
    requires k <= |b.segments| && forall i :: 0 <= i < |b.segments| ==> SegmentOk(b, i)
    ensures Total(b.segments[..k], r) % 8 == 0
  {
    if k > 0 {
      TotalAligned(b, k - 1, r);
      assert b.segments[..k][..k - 1] == b.segments[..k - 1];
      assert SegmentOk(b, k - 1);
    }
  }

  /** Segment i is aligned, larger than what was asked for, and inside its System V segment. */
  lemma SegmentInside(b: Book, i: nat)
    requires BookOk(b) && i < |b.segments|
    ensures var s := b.segments[i];
            && s.offset % 8 == 0 && s.size % 8 == 0
            && s.wanted < s.size <= s.wanted + 8
            && s.region < |b.regions| && s.offset + s.size <= b.regions[s.region].size
  {
    assert SegmentOk(b, i);
    TotalAligned(b, i, b.segments[i].region);
    TotalGrows(b.segments, i, |b.segments|);
    assert b.segments[..|b.segments|] == b.segments;
  }

  /** Of two segments in one System V segment, the older one ends before the other begins. */
  lemma SegmentsApart(b: Book, i: nat, j: nat)
    requires BookOk(b) && i < j < |b.segments| && b.segments[i].region == b.segments[j].region
    ensures b.segments[i].offset + b.segments[i].size <= b.segments[j].offset
  {
    assert SegmentOk(b, i) && SegmentOk(b, j);
    TotalGrows(b.segments, i, j);
  }

  /**
   For every sequence of calls: segments are aligned, larger than what was asked for, inside their System V
   segment and disjoint, and each begins where the sizes of those before it in its System V segment add up to.
   */
  lemma Allocation(requests: seq<Request>, pagesize: nat, i: nat, j: nat)
    requires pagesize >= 1 && forall k :: 0 <= k < |requests| ==> requests[k].id < MAX_SHMSEG
    requires i < |Run(requests, pagesize).segments| && j < |Run(requests, pagesize).segments|
    ensures var b := Run(requests, pagesize);
            var s, t := b.segments[i], b.segments[j];
            && s.offset % 8 == 0 && s.size % 8 == 0
            && s.wanted < s.size <= s.wanted + 8
            && s.offset == Total(b.segments[..i], s.region)
            && s.region < |b.regions| && s.offset + s.size <= b.regions[s.region].size
            && (i != j ==> s.id != t.id)
            && (i != j && s.region == t.region ==> s.offset + s.size <= t.offset || t.offset + t.size <= s.offset)
  {
    var b := Run(requests, pagesize);
    RunOk(requests, pagesize);
    assert SegmentOk(b, i);
    SegmentInside(b, i);
    if i < j && b.segments[i].region == b.segments[j].region { SegmentsApart(b, i, j); }
    if j < i && b.segments[i].region == b.segments[j].region { SegmentsApart(b, j, i); }
  }

  // ----- When a call succeeds

  /** A segment that does not exist yet always finds an entry: the test at line 229 never succeeds. */
  lemma TableNeverFull(b: Book, id: nat)
    requires BookOk(b) && id < MAX_SHMSEG && !Known(b.segments, id)
    ensures |b.segments| < MAX_SHMSEG
  {
    var names := seq(|b.segments|, k requires 0 <= k < |b.segments| => b.segments[k].id) + [id];
    forall k | 0 <= k < |b.segments| ensures b.segments[k].id < MAX_SHMSEG { assert SegmentOk(b, k); }
    Pigeonhole(names, MAX_SHMSEG);
  }

  /** A call fails exactly if its segment is new, no System V segment has room, and all of them are used. */
  lemma FailsExactly(b: Book, q: Request, pagesize: nat)
    requires BookOk(b) && q.id < MAX_SHMSEG && pagesize >= 1
    ensures !Create(b, q, pagesize).0 <==>
              && !Known(b.segments, q.id)
              && |b.regions| == MAX_SVSHMSEG
              && forall r :: 0 <= r < |b.regions| ==> !Fits(b.regions[r], Rounded(q.size))
    ensures !Create(b, q, pagesize).0 ==> Create(b, q, pagesize).1 == b
  {
    if !Known(b.segments, q.id) { TableNeverFull(b, q.id); }
  }

  /**
   After a successful call the segment has the size asked for, unless it existed before and was asked for with
   a smaller size, up to rounding: then it stays as it is.
   */
  lemma LargeEnoughExactly(b: Book, q: Request, pagesize: nat, i: nat)
    requires BookOk(b) && q.id < MAX_SHMSEG && pagesize >= 1 && Create(b, q, pagesize).0
    requires i < |Create(b, q, pagesize).1.segments| && Create(b, q, pagesize).1.segments[i].id == q.id
    ensures Create(b, q, pagesize).1.segments[i].size >= q.size <==>
            !Known(b.segments, q.id) || (i < |b.segments| && q.size <= Rounded(b.segments[i].wanted))
  {
    if Known(b.segments, q.id) {
      assert SegmentOk(b, i);
    } else {
      TableNeverFull(b, q.id);
      assert i == |b.segments|;
    }
  }

  /** A call that asks an existing segment of 8 bytes for 100 bytes succeeds, and the segment has 16 bytes. */
  lemma SmallerThanAskedFor(key: int)
    ensures var q := Request(0, 100, key);
            var b := Run([Request(0, 8, key)], 4096);
            && Create(b, q, 4096) == (true, b)
            && b.segments == [Segment(0, 8, 0, 0, 16)]
  {
    var first := Request(0, 8, key);
    assert [first][..0] == [];
    assert Run([first][..0], 4096) == Book([], []);
    var b := Run([first], 4096);
    assert b == Create(Book([], []), first, 4096).1;
    assert b.segments[0].id == 0;
  }

  // ----- How large the System V segments are, and how much always fits

  /** The least whole number of pages, at least MIN_SVSHMSEGSIZE of them, that is larger than size. */
  lemma RegionSizeExactly(size: nat, pagesize: nat, pages: nat)
    requires pagesize >= 1
    ensures RegionSize(size, pagesize) > size && RegionSize(size, pagesize) >= MIN_SVSHMSEGSIZE * pagesize
    ensures RegionSize(size, pagesize) % pagesize == 0
    ensures pages >= MIN_SVSHMSEGSIZE && pages * pagesize > size ==> pages * pagesize >= RegionSize(size, pagesize)
  {
    var k := size / pagesize + 1;
    RegionIsLarger(size, pagesize);
    C.Fundamental(size, pagesize);
    var least := if k < MIN_SVSHMSEGSIZE then MIN_SVSHMSEGSIZE else k;
    C.Unique(least * pagesize, pagesize, least, 0);
    Scaled(MIN_SVSHMSEGSIZE, least, pagesize);
    if pages < k { Scaled(pages, k - 1, pagesize); } else { Scaled(k, pages, pagesize); }
    if pages >= MIN_SVSHMSEGSIZE { Scaled(MIN_SVSHMSEGSIZE, pages, pagesize); }
  }

  lemma Scaled(a: nat, b: nat, n: nat)
    requires a <= b
    ensures a * n <= b * n
  {
    assert b * n == a * n + (b - a) * n;
  }

  /** System V segment r was made for the segment at its beginning, and has a key. */
  ghost predicate MadeFor(b: Book, r: nat, pagesize: nat)
    requires pagesize >= 1 && r < |b.regions|
  {
    && b.regions[r].key != 0
    && exists i :: && 0 <= i < |b.segments| && b.segments[i].region == r && b.segments[i].offset == 0
                   && b.regions[r].size == RegionSize(b.segments[i].size, pagesize)
  }

  lemma MadeForStays(b: Book, b': Book, r: nat, pagesize: nat)
    requires pagesize >= 1 && r < |b.regions| <= |b'.regions| && MadeFor(b, r, pagesize)
    requires b'.regions[r].key == b.regions[r].key && b'.regions[r].size == b.regions[r].size
    requires b.segments <= b'.segments
    ensures MadeFor(b', r, pagesize)
  {
    var i :| && 0 <= i < |b.segments| && b.segments[i].region == r && b.segments[i].offset == 0
             && b.regions[r].size == RegionSize(b.segments[i].size, pagesize);
    assert b'.segments[i] == b.segments[i];
  }

  lemma CreateMakes(b: Book, q: Request, pagesize: nat, r: nat)
    requires pagesize >= 1 && q.key != 0 && r < |Create(b, q, pagesize).1.regions|
    requires forall k :: 0 <= k < |b.regions| ==> MadeFor(b, k, pagesize)
    ensures MadeFor(Create(b, q, pagesize).1, r, pagesize)
  {
    var b' := Create(b, q, pagesize).1;
    if r < |b.regions| {
      MadeForStays(b, b', r, pagesize);
    } else {
      var s := b'.segments[|b.segments|];
      assert s.region == r && s.offset == 0 && b'.regions[r].size == RegionSize(s.size, pagesize);
    }
  }

  /**
   For every sequence of calls: each System V segment has the size that its first segment asked for, in whole
   pages and at least MIN_SVSHMSEGSIZE of them.
   */
  lemma {:induction false} MadeInPages(requests: seq<Request>, pagesize: nat, r: nat)
    requires pagesize >= 1 && forall k :: 0 <= k < |requests| ==> requests[k].key != 0
    requires r < |Run(requests, pagesize).regions|
    ensures MadeFor(Run(requests, pagesize), r, pagesize)
    ensures Run(requests, pagesize).regions[r].size >= MIN_SVSHMSEGSIZE * pagesize
  {
    var before := requests[..|requests| - 1];
    var b := Run(before, pagesize);
    forall k | 0 <= k < |b.regions| ensures MadeFor(b, k, pagesize) { MadeInPages(before, pagesize, k); }
    CreateMakes(b, requests[|requests| - 1], pagesize, r);
    var b' := Run(requests, pagesize);
    var i :| && 0 <= i < |b'.segments| && b'.segments[i].region == r && b'.segments[i].offset == 0
             && b'.regions[r].size == RegionSize(b'.segments[i].size, pagesize);
    RegionSizeExactly(b'.segments[i].size, pagesize, 0);
  }

  /** How many segments are in System V segment r, and in those before k. */
  function CountIn(segments: seq<Segment>, r: nat): nat {
    if segments == [] then 0
    else
      var last := segments[|segments| - 1];
      CountIn(segments[..|segments| - 1], r) + if last.region == r then 1 else 0
  }

  function CountBelow(segments: seq<Segment>, k: nat): nat {
    if k == 0 then 0 else CountBelow(segments, k - 1) + CountIn(segments, k - 1)
  }

  lemma {:induction false} CountBelowNext(segments: seq<Segment>, k: nat)
    requires segments != []
    ensures CountBelow(segments, k)
         == CountBelow(segments[..|segments| - 1], k) + if segments[|segments| - 1].region < k then 1 else 0
  {
    if k > 0 {
      CountBelowNext(segments, k - 1);
    }
  }

  lemma {:induction false} CountBelowAll(segments: seq<Segment>, k: nat)
    ensures CountBelow(segments, k) <= |segments|
  {
    if segments == [] {
      CountNone(k);
    } else {
      CountBelowNext(segments, k);
      CountBelowAll(segments[..|segments| - 1], k);
    }
  }

  lemma {:induction false} CountNone(k: nat)
    ensures CountBelow([], k) == 0
  {
    if k > 0 {
      CountNone(k - 1);
    }
  }

  lemma {:induction false} CountAtLeast(segments: seq<Segment>, k: nat, c: nat)
    requires forall r :: 0 <= r < k ==> CountIn(segments, r) >= c
    ensures CountBelow(segments, k) >= k * c
  {
    if k > 0 {
      CountAtLeast(segments, k - 1, c);
      assert k * c == (k - 1) * c + c;
    }
  }

  lemma {:induction false} TotalAtMost(segments: seq<Segment>, r: nat, most: nat)
    requires forall i :: 0 <= i < |segments| ==> segments[i].size <= most
    ensures Total(segments, r) <= CountIn(segments, r) * most
  {
    if segments != [] {
      var before := segments[..|segments| - 1];
      TotalAtMost(before, r, most);
      assert (CountIn(before, r) + 1) * most == CountIn(before, r) * most + most;
    }
  }

  /** A System V segment with no room for most bytes holds as many segments as fit into its least size. */
  lemma FullHolds(b: Book, r: nat, size: nat, most: nat, pagesize: nat)
    requires BookOk(b) && r < |b.regions| && 1 <= size <= most && b.regions[r].key != 0
    requires !Fits(b.regions[r], size) && b.regions[r].size >= MIN_SVSHMSEGSIZE * pagesize
    requires forall i :: 0 <= i < |b.segments| ==> b.segments[i].size <= most
    ensures CountIn(b.segments, r) >= MIN_SVSHMSEGSIZE * pagesize / most
  {
    var n, c := CountIn(b.segments, r), MIN_SVSHMSEGSIZE * pagesize / most;
    TotalAtMost(b.segments, r, most);
    C.Fundamental(MIN_SVSHMSEGSIZE * pagesize, most);
    assert (n + 1) * most == n * most + most;
    if n + 1 <= c { Scaled(n + 1, c, most); }
  }

  lemma {:induction false} SizesAtMost(requests: seq<Request>, pagesize: nat, most: nat, i: nat)
    requires pagesize >= 1 && forall k :: 0 <= k < |requests| ==> Rounded(requests[k].size) <= most
    requires i < |Run(requests, pagesize).segments|
    ensures Run(requests, pagesize).segments[i].size <= most
  {
    var before := requests[..|requests| - 1];
    if i < |Run(before, pagesize).segments| {
      SizesAtMost(before, pagesize, most, i);
    }
  }

  /**
   How much always fits. If no call asks for more than most bytes, rounded up, then a call succeeds as long as
   there are fewer than MAX_SVSHMSEG * (MIN_SVSHMSEGSIZE * pagesize / most) segments, whatever their sizes and
   their order.
   */
  lemma AlwaysFits(requests: seq<Request>, q: Request, pagesize: nat, most: nat)
    requires pagesize >= 1 && q.id < MAX_SHMSEG && Rounded(q.size) <= most
    requires forall k :: 0 <= k < |requests| ==>
               requests[k].id < MAX_SHMSEG && requests[k].key != 0 && Rounded(requests[k].size) <= most
    requires |Run(requests, pagesize).segments| < MAX_SVSHMSEG * (MIN_SVSHMSEGSIZE * pagesize / most)
    ensures Create(Run(requests, pagesize), q, pagesize).0
  {
    var b, c := Run(requests, pagesize), MIN_SVSHMSEGSIZE * pagesize / most;
    RunOk(requests, pagesize);
    FailsExactly(b, q, pagesize);
    if !Create(b, q, pagesize).0 {
      forall i | 0 <= i < |b.segments| ensures b.segments[i].size <= most { SizesAtMost(requests, pagesize, most, i); }
      forall r | 0 <= r < MAX_SVSHMSEG ensures CountIn(b.segments, r) >= c {
        MadeInPages(requests, pagesize, r);
        FullHolds(b, r, Rounded(q.size), most, pagesize);
      }
      CountAtLeast(b.segments, MAX_SVSHMSEG, c);
      CountBelowAll(b.segments, MAX_SVSHMSEG);
    }
  }

  // ----- The shared tables

  class Manager {
    const pagesize: nat
    const regions: array<Region>
    const table: array<Entry>
    var regionCount: nat
    var segmentCount: nat

    /** The created segments, in the order of their creation. */
    ghost var segments: seq<Segment>

    ghost function Contents(): Book
      requires regionCount <= regions.Length
      reads this, regions
    {
      Book(regions[..regionCount], segments)
    }

    ghost predicate Tables() {
      pagesize >= 1 && regions.Length == MAX_SVSHMSEG && table.Length == MAX_SHMSEG
    }

    ghost predicate Valid()
      requires Tables()
      reads this, regions, table
    {
      && regionCount <= MAX_SVSHMSEG
      && (forall r :: regionCount <= r < MAX_SVSHMSEG ==> regions[r].key == 0)
      && BookOk(Contents())
      && TableOk()
    }

    /** The segment table holds the created segments. */
    ghost predicate TableOk()
      requires Tables()
      reads this`segments, this`segmentCount, table
    {
      && segmentCount == |segments|
      && (forall id: nat :: id < MAX_SHMSEG ==> (table[id].init <==> Known(segments, id)))
      && (forall i :: 0 <= i < |segments| ==> segments[i].id < MAX_SHMSEG && Recorded(segments[i]))
    }

    ghost predicate Recorded(s: Segment)
      requires Tables() && s.id < MAX_SHMSEG
      reads table
    {
      table[s.id] == Entry(true, s.region, s.offset, s.size)
    }

    constructor (pagesize: nat)
      requires pagesize >= 1
      ensures Tables() && Valid() && Contents() == Book([], []) && this.pagesize == pagesize
      ensures fresh(regions) && fresh(table)
    {
      this.pagesize, regionCount, segmentCount, segments := pagesize, 0, 0, [];
      regions := new Region[MAX_SVSHMSEG](_ => Region(0, 0, 0));
      table := new Entry[MAX_SHMSEG](_ => Entry(false, 0, 0, 0));
    }

    /** Lines 236-241. */
    method FindRoom(size: nat) returns (i: nat)
      requires Tables() && Valid()
      ensures i <= MAX_SVSHMSEG
      ensures var first := FirstFit(regions[..regionCount], size, 0);
              i == if first < regionCount then first else MAX_SVSHMSEG
    {
      i := 0;
      while i < MAX_SVSHMSEG
        invariant i <= MAX_SVSHMSEG
        invariant forall r :: 0 <= r < i ==> !Fits(regions[r], size)
      {
        if regions[i].key != 0 && regions[i].size - regions[i].offset >= size {
          return;
        }
        i := i + 1;
      }
    }

    /** shmman_create_shmseg. */
    method CreateShmseg(shmid: nat, size: nat, key: int) returns (ok: bool)
      requires Tables() && Valid() && shmid < MAX_SHMSEG
      modifies this, regions, table
      ensures Valid()
      ensures (ok, Contents()) == Create(old(Contents()), Request(shmid, size, key), pagesize)
    {
      ghost var q := Request(shmid, size, key);
      CreateKeeps(Contents(), q, pagesize);
      var shmSize := size + (8 - size % 8);
      if table[shmid].init {
        return true;
      }
      if segmentCount >= MAX_SHMSEG {
        return false;
      }
      var index := FindRoom(shmSize);
      if index == MAX_SVSHMSEG {
        index := regionCount;
        if index >= MAX_SVSHMSEG {
          return false;
        }
        NewRegion(shmSize, key);
      }
      AddEntry(q, shmid, index, shmSize);
      return true;
    }

    /** Lines 261-290: the next System V segment. */
    method NewRegion(shmSize: nat, key: int)
      requires Tables() && regionCount < MAX_SVSHMSEG
      modifies this`regionCount, regions
      ensures regionCount == old(regionCount) + 1
      ensures regions[..regionCount] == old(regions[..regionCount]) + [Region(key, RegionSize(shmSize, pagesize), 0)]
      ensures regions[regionCount..] == old(regions[regionCount + 1..])
    {
      var pages := shmSize / pagesize + 1;
      if pages < MIN_SVSHMSEGSIZE {
        pages := MIN_SVSHMSEGSIZE;
      }
      regions[regionCount] := Region(key, pages * pagesize, 0);
      regionCount := regionCount + 1;
    }

    /** Lines 294-308: segment shmid begins at the unused memory of region index. */
    method AddEntry(ghost q: Request, shmid: nat, index: nat, shmSize: nat)
      requires Tables() && regionCount <= MAX_SVSHMSEG && index < regionCount
      requires q.id == shmid < MAX_SHMSEG && shmSize == Rounded(q.size)
      requires TableOk() && !Known(segments, shmid)
      modifies this`segmentCount, this`segments, regions, table
      ensures Contents() == Place(old(Contents()), index, q)
      ensures TableOk()
      ensures regions[regionCount..] == old(regions[regionCount..])
    {
      var offset := regions[index].offset;
      table[shmid] := Entry(true, index, offset, shmSize);
      regions[index] := regions[index].(offset := offset + shmSize);
      segmentCount := segmentCount + 1;
      segments := segments + [Segment(shmid, q.size, index, offset, shmSize)];
      forall id: nat | id < MAX_SHMSEG ensures table[id].init <==> Known(segments, id) {
        assert old(table[id].init <==> Known(segments, id));
        AppendKnown(old(segments), segments[|segments| - 1], id);
      }
    }
  }

  lemma AppendKnown(segments: seq<Segment>, s: Segment, id: nat)
    ensures Known(segments + [s], id) <==> Known(segments, id) || s.id == id
  {
    var both := segments + [s];
    if i :| 0 <= i < |segments| && segments[i].id == id {
      assert both[i].id == id;
    }
    assert both[|segments|] == s;
  }
}
