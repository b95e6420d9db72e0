/**
 * The `Graphics` class of DisplayWindow.cs: every clear and line drawn during a
 * game is appended to an in-memory recording, which `SaveVideo` writes out and
 * `DrawRecordedFrame` plays back one frame at a time.
 */
module Recordings {
  import opened Wrappers
  import opened Vectors
  import opened Drawing

  /** Bytes per record: three colour bytes and four float32 coordinates. */
  const RecordSize: nat := 3 + 4 * 4

  /** The recording stops growing once it holds 1 GiB. */
  const Cap: nat := 1024 * 1024 * 1024

  /** One record of the stream; the coordinates are fractions of the renderer's width and height. */
  datatype Entry = Entry(color: Color, p1x: real, p1y: real, p2x: real, p2y: real)

  /** A recording opened for playback; `truncated` when it ends in a partial record. */
  datatype Capture = Capture(records: seq<Entry>, truncated: bool)

  /** What reaches the SDL renderer. */
  datatype SurfaceOp = Filled(color: Color) | Segment(p1: Point, p2: Point, color: Color)

  /** A drawing call as the recording can express it. */
  datatype Command = ClearCommand(color: Color) | LineCommand(p1: Point, p2: Point, color: Color)

  /** `LineTools.LineIntersect` on two segments, with both segments bounded. */
  type Intersects = (Vec2, Vec2, Vec2, Vec2) -> bool

  /** An endpoint on the renderer: [0, W) × [0, H). */
  predicate OnScreen(p: Point, w: int, h: int) {
    0 <= p.x < w && 0 <= p.y < h
  }

  /** The test in `Line`: an endpoint is on screen, or the segment crosses the left, right, top or bottom edge. */
  predicate Visible(p1: Point, p2: Point, w: int, h: int, intersects: Intersects) {
    var a, b := VectorOf(p1), VectorOf(p2);
    var wr, hr := w as real, h as real;
    || OnScreen(p1, w, h) || OnScreen(p2, w, h)
    || intersects(a, b, Vec2(0.0, 0.0), Vec2(0.0, hr))
    || intersects(a, b, Vec2(wr, 0.0), Vec2(wr, hr))
    || intersects(a, b, Vec2(0.0, 0.0), Vec2(wr, 0.0))
    || intersects(a, b, Vec2(0.0, hr), Vec2(wr, hr))
  }

  /** `Record(r, g, b, p1x, p1y, p2x, p2y)`: each pixel coordinate over the width or height. */
  function Encode(c: Command, w: int, h: int): (rec: Entry)
    requires w > 0 && h > 0
    ensures rec.color == c.color
  {
    match c
    case ClearCommand(color) => Entry(color, 0.0, 0.0, 0.0, 0.0)
    case LineCommand(p1, p2, color) =>
      Entry(color, p1.x as real / w as real, p1.y as real / h as real, p2.x as real / w as real, p2.y as real / h as real)
  }

  /** `MarkEndOfFrame`: all zero. */
  const EndOfFrameRecord: Entry := Entry(Black, 0.0, 0.0, 0.0, 0.0)

  /** A black clear is recorded exactly as an end-of-frame mark, so playback cannot tell them apart. */
  lemma BlackClearIsEndOfFrame(w: int, h: int)
    requires w > 0 && h > 0
    ensures Encode(ClearCommand(Black), w, h) == EndOfFrameRecord
  {
  }

  function EncodeAll(cs: seq<Command>, w: int, h: int): (recs: seq<Entry>)
    requires w > 0 && h > 0
    ensures |recs| == |cs|
    ensures forall i :: 0 <= i < |cs| ==> recs[i] == Encode(cs[i], w, h)
  {
    seq(|cs|, i requires 0 <= i < |cs| => Encode(cs[i], w, h))
  }

  predicate AllZero(rec: Entry) {
    rec.p1x == 0.0 && rec.p1y == 0.0 && rec.p2x == 0.0 && rec.p2y == 0.0
  }

  /** How playback reads a record that is not an end-of-frame mark: zero coordinates clear, others draw. */
  function Decode(rec: Entry, w: int, h: int): Command {
    if AllZero(rec) then ClearCommand(rec.color)
    else LineCommand(Start(rec, w, h), End(rec, w, h), rec.color)
  }

  /** The pixel a stored fraction pair lands on: each fraction times the current size, floored. */
  function Pixel(fx: real, fy: real, w: int, h: int): Point {
    PointOf(Vec2(fx * w as real, fy * h as real))
  }

  function Start(rec: Entry, w: int, h: int): Point { Pixel(rec.p1x, rec.p1y, w, h) }

  function End(rec: Entry, w: int, h: int): Point { Pixel(rec.p2x, rec.p2y, w, h) }

  predicate IsEndOfFrame(rec: Entry) {
    AllZero(rec) && rec.color == Black
  }

  /**
   * Playback of the records `recs` up to and including the first end-of-frame
   * mark: the commands replayed, the records read, and whether a mark was met.
   */
  function Replay(recs: seq<Entry>, w: int, h: int): (r: (seq<Command>, nat, bool))
    ensures r.1 <= |recs|
    ensures !r.2 ==> r.1 == |recs|
    decreases |recs|
  {
    if |recs| == 0 then ([], 0, false)
    else if IsEndOfFrame(recs[0]) then ([], 1, true)
    else
      var rest := Replay(recs[1..], w, h);
      ([Decode(recs[0], w, h)] + rest.0, rest.1 + 1, rest.2)
  }

  lemma ReplayStep(recs: seq<Entry>, c: nat, w: int, h: int)
    requires c < |recs| && !IsEndOfFrame(recs[c])
    ensures Replay(recs[c..], w, h).0 == [Decode(recs[c], w, h)] + Replay(recs[c + 1..], w, h).0
    ensures Replay(recs[c..], w, h).1 == Replay(recs[c + 1..], w, h).1 + 1
    ensures Replay(recs[c..], w, h).2 == Replay(recs[c + 1..], w, h).2
  {
    assert recs[c..][1..] == recs[c + 1..];
  }

  /** After replaying `recs[start..c]` as `done`, what is left of the whole replay `total` is the replay from `c`. */
  ghost predicate ReplayedSoFar(total: (seq<Command>, nat, bool), done: seq<Command>, recs: seq<Entry>, start: nat, c: nat, w: int, h: int)
    requires start <= c <= |recs|
  {
    var rest := Replay(recs[c..], w, h);
    total.0 == done + rest.0 && total.1 == c - start + rest.1 && total.2 == rest.2
  }

  lemma ReplayAdvances(total: (seq<Command>, nat, bool), done: seq<Command>, recs: seq<Entry>, start: nat, c: nat, w: int, h: int)
    requires start <= c < |recs| && !IsEndOfFrame(recs[c])
    requires ReplayedSoFar(total, done, recs, start, c, w, h)
    ensures ReplayedSoFar(total, done + [Decode(recs[c], w, h)], recs, start, c + 1, w, h)
  {
    ReplayStep(recs, c, w, h);
    var rest := Replay(recs[c + 1..], w, h).0;
    assert done + [Decode(recs[c], w, h)] + rest == done + ([Decode(recs[c], w, h)] + rest);
  }

  /** At an end-of-frame mark, or at the end of the records, everything replayed is `done`. */
  lemma ReplayStops(total: (seq<Command>, nat, bool), done: seq<Command>, recs: seq<Entry>, start: nat, c: nat, w: int, h: int)
    requires start <= c <= |recs| && (c < |recs| ==> IsEndOfFrame(recs[c]))
    requires ReplayedSoFar(total, done, recs, start, c, w, h)
    ensures total.0 == done
    ensures c < |recs| ==> total.1 == c + 1 - start && total.2
    ensures c == |recs| ==> total.1 == c - start && !total.2
  {
    if c == |recs| {
      assert recs[c..] == [];
    }
    assert done + [] == done;
  }

  /** The commands a recording can carry unchanged: no black clear, no line with every coordinate zero. */
  predicate Recordable(c: Command) {
    match c
    case ClearCommand(color) => color != Black
    case LineCommand(p1, p2, _) => !(p1 == Point(0, 0) && p2 == Point(0, 0))
  }

  lemma FractionRoundTrip(p: int, w: int)
    requires w > 0
    ensures (p as real / w as real) * w as real == p as real
    ensures p as real / w as real == 0.0 <==> p == 0
  {
  }

  /** Every recordable command replays as itself under the same renderer size. */
  lemma DecodeEncode(c: Command, w: int, h: int)
    requires w > 0 && h > 0 && Recordable(c)
    ensures !IsEndOfFrame(Encode(c, w, h)) && Decode(Encode(c, w, h), w, h) == c
  {
    if c.LineCommand? {
      FractionRoundTrip(c.p1.x, w);
      FractionRoundTrip(c.p1.y, h);
      FractionRoundTrip(c.p2.x, w);
      FractionRoundTrip(c.p2.y, h);
      PointVectorRoundTrip(c.p1);
      PointVectorRoundTrip(c.p2);
    }
  }

  /**
   * The codec's round trip: a frame of recordable commands followed by the
   * end-of-frame mark plays back as the same commands, reading exactly that frame,
   * and reports the mark (so `DrawRecordedFrame` returns false).
   */
  lemma {:induction false} FrameRoundTrip(cs: seq<Command>, rest: seq<Entry>, w: int, h: int)
    requires w > 0 && h > 0
    requires forall i :: 0 <= i < |cs| ==> Recordable(cs[i])
    ensures Replay(EncodeAll(cs, w, h) + [EndOfFrameRecord] + rest, w, h) == (cs, |cs| + 1, true)
    decreases |cs|
  {
    var recs := EncodeAll(cs, w, h) + [EndOfFrameRecord] + rest;
    if |cs| > 0 {
      DecodeEncode(cs[0], w, h);
      assert recs[1..] == EncodeAll(cs[1..], w, h) + [EndOfFrameRecord] + rest;
      FrameRoundTrip(cs[1..], rest, w, h);
      assert cs == [cs[0]] + cs[1..];
    } else {
      assert recs[0] == EndOfFrameRecord;
    }
  }

  /** What the replayed commands put on the renderer: clears always, lines only when visible. */
  function Render(cs: seq<Command>, w: int, h: int, intersects: Intersects): seq<SurfaceOp>
    decreases |cs|
  {
    if |cs| == 0 then []
    else RenderOne(cs[0], w, h, intersects) + Render(cs[1..], w, h, intersects)
  }

  function RenderOne(c: Command, w: int, h: int, intersects: Intersects): seq<SurfaceOp> {
    match c
    case ClearCommand(color) => [Filled(color)]
    case LineCommand(p1, p2, color) => if Visible(p1, p2, w, h, intersects) then [Segment(p1, p2, color)] else []
  }

  lemma {:induction false} RenderAppend(a: seq<Command>, c: Command, w: int, h: int, intersects: Intersects)
    ensures Render(a + [c], w, h, intersects) == Render(a, w, h, intersects) + RenderOne(c, w, h, intersects)
    decreases |a|
  {
    if |a| == 0 {
      assert a + [c] == [c];
    } else {
      assert (a + [c])[1..] == a[1..] + [c];
      RenderAppend(a[1..], c, w, h, intersects);
    }
  }

  /** `SaveVideo`'s candidate file names: name.srv3, name_1.srv3, name_2.srv3, … */
  function SaveName(name: string, i: nat): string {
    name + (if i == 0 then "" else "_" + Digits(i)) + ".srv3"
  }

  /** `int.ToString()` of a natural number: its decimal digits, most significant first. */
  function Digits(n: nat): (s: string)
    ensures |s| >= 1
    ensures forall k :: 0 <= k < |s| ==> '0' <= s[k] <= '9'
    ensures n < 10 <==> |s| == 1
    decreases n
  {
    var last := ['0' + ((n % 10) as char)];
    if n < 10 then last else Digits(n / 10) + last
  }

  /** Different numbers have different decimal forms. */
  lemma {:induction false} DigitsInjective(m: nat, n: nat)
    requires Digits(m) == Digits(n)
    ensures m == n
    decreases m
  {
    var dm, dn := Digits(m), Digits(n);
    assert dm[|dm| - 1] == dn[|dn| - 1];
    assert m % 10 == n % 10 by {
      assert dm[|dm| - 1] == '0' + ((m % 10) as char);
      assert dn[|dn| - 1] == '0' + ((n % 10) as char);
    }
    if m >= 10 {
      assert n >= 10;
      assert Digits(m / 10) == dm[..|dm| - 1] == dn[..|dn| - 1] == Digits(n / 10);
      DigitsInjective(m / 10, n / 10);
    }
  }

  /** Different indices give different file names, so the name search meets each existing file at most once. */
  lemma SaveNameInjective(name: string, i: nat, j: nat)
    requires SaveName(name, i) == SaveName(name, j)
    ensures i == j
  {
    var a, b := SaveName(name, i), SaveName(name, j);
    if i != 0 && j != 0 {
      assert a[|name| + 1..|a| - 5] == Digits(i);
      assert b[|name| + 1..|b| - 5] == Digits(j);
      DigitsInjective(i, j);
    }
  }

  /** The first `n` candidate names, as a set, has `n` members. */
  lemma {:induction false} SaveNamesCount(name: string, n: nat)
    ensures |set k | 0 <= k < n :: SaveName(name, k)| == n
    decreases n
  {
    if n > 0 {
      var before := set k | 0 <= k < n - 1 :: SaveName(name, k);
      SaveNamesCount(name, n - 1);
      assert (set k | 0 <= k < n :: SaveName(name, k)) == before + {SaveName(name, n - 1)};
      if SaveName(name, n - 1) in before {
        var k :| 0 <= k < n - 1 && SaveName(name, k) == SaveName(name, n - 1);
        SaveNameInjective(name, k, n - 1);
      }
    }
  }

  class Graphics {
    /** The `MemoryStream` the writer appends to: its position is always `RecordSize·|records|`. */
    var records: seq<Entry>
    /** The playback stream, attached at construction, and the number of records read from it. */
    const reader: Option<Capture>
    var cursor: nat
    /** The renderer's output size, as last read. */
    var width: int
    var height: int
    var surface: seq<SurfaceOp>

    constructor(reader: Option<Capture>)
      ensures this.reader == reader && records == [] && cursor == 0
      ensures width == 0 && height == 0 && surface == []
    {
      this.reader := reader;
      records := [];
      cursor := 0;
      width, height := 0, 0;
      surface := [];
    }

    /** `Recording`: no reader is attached and the stream is still below the cap. */
    predicate Recording()
      reads this
    {
      RecordSize * |records| < Cap && reader.None?
    }

    /** The stream never outgrows the cap by more than one record. */
    ghost predicate Valid()
      reads this
    {
      RecordSize * |records| < Cap + RecordSize && (reader.Some? ==> cursor <= |reader.value.records|)
    }

    predicate SizeKnown()
      reads this
    {
      width > 0 && height > 0
    }

    /** `Clear`: read the renderer size, fill the surface, and record the colour with zero coordinates. */
    method Clear(color: Color, w: int, h: int)
      requires Valid() && (Recording() ==> w > 0 && h > 0)
      modifies this
      ensures Valid() && width == w && height == h
      ensures surface == old(surface) + [Filled(color)]
      ensures records == old(records) + (if old(Recording()) then [Encode(ClearCommand(color), w, h)] else [])
      ensures cursor == old(cursor)
    {
      width, height := w, h;
      surface := surface + [Filled(color)];
      if Recording() {
        Record(color, 0, 0, 0, 0);
      }
    }

    /** `MarkEndOfFrame` */
    method MarkEndOfFrame()
      requires Valid() && (Recording() ==> SizeKnown())
      modifies this
      ensures Valid()
      ensures records == old(records) + (if old(Recording()) then [EndOfFrameRecord] else [])
      ensures surface == old(surface) && width == old(width) && height == old(height) && cursor == old(cursor)
    {
      if Recording() {
        Record(Black, 0, 0, 0, 0);
      }
    }

    /** `Record`: one record, the pixel coordinates as fractions of the size. */
    method Record(color: Color, p1x: int, p1y: int, p2x: int, p2y: int)
      requires SizeKnown() && Recording() && Valid()
      modifies this
      ensures Valid() && surface == old(surface) && width == old(width) && height == old(height) && cursor == old(cursor)
      ensures records == old(records) + [Entry(color, p1x as real / width as real, p1y as real / height as real,
                                               p2x as real / width as real, p2y as real / height as real)]
    {
      records := records + [Entry(color, p1x as real / width as real, p1y as real / height as real,
                                  p2x as real / width as real, p2y as real / height as real)];
    }

    /** The private `Line`: draw when visible, and record too when asked and recording. */
    method DrawLine(p1: Point, p2: Point, color: Color, record: bool, intersects: Intersects)
      requires Valid() && (record && Recording() ==> SizeKnown())
      modifies this
      ensures width == old(width) && height == old(height) && cursor == old(cursor)
      ensures Valid() && surface == old(surface) + RenderOne(LineCommand(p1, p2, color), width, height, intersects)
      ensures records == old(records) +
        (if record && old(Recording()) && Visible(p1, p2, width, height, intersects)
         then [Encode(LineCommand(p1, p2, color), width, height)] else [])
    {
      var draw := OnScreen(p1, width, height) || OnScreen(p2, width, height);
      if !draw {
        var a, b := VectorOf(p1), VectorOf(p2);
        var wr, hr := width as real, height as real;
        var left := intersects(a, b, Vec2(0.0, 0.0), Vec2(0.0, hr));
        var right := intersects(a, b, Vec2(wr, 0.0), Vec2(wr, hr));
        var up := intersects(a, b, Vec2(0.0, 0.0), Vec2(wr, 0.0));
        var down := intersects(a, b, Vec2(0.0, hr), Vec2(wr, hr));
        draw := left || right || up || down;
      }
      if draw {
        surface := surface + [Segment(p1, p2, color)];
        if record && Recording() {
          Record(color, p1.x, p1.y, p2.x, p2.y);
        }
      }
    }

    /** The public `Line` records what it draws. */
    method Line(p1: Point, p2: Point, color: Color, intersects: Intersects)
      requires Valid() && (Recording() ==> SizeKnown())
      modifies this
      ensures width == old(width) && height == old(height) && cursor == old(cursor)
      ensures Valid() && surface == old(surface) + RenderOne(LineCommand(p1, p2, color), width, height, intersects)
      ensures records == old(records) +
        (if old(Recording()) && Visible(p1, p2, width, height, intersects)
         then [Encode(LineCommand(p1, p2, color), width, height)] else [])
    {
      DrawLine(p1, p2, color, true, intersects);
    }

    /**
     * `Arc`: chords of π/64 from `radStart` over `radAmount`, then one closing
     * chord to the end angle; none of them is recorded. `cos` and `sin` are oracles.
     */
    method Arc(center: Vec2, radius: real, radStart: real, radAmount: real, color: Color,
               cos: real -> real, sin: real -> real, intersects: Intersects)
      requires Valid()
      modifies this
      ensures Valid() && records == old(records) && width == old(width) && height == old(height) && cursor == old(cursor)
      ensures |surface| >= |old(surface)| && surface[..|old(surface)|] == old(surface)
      ensures forall i :: |old(surface)| <= i < |surface| ==> surface[i].Segment? && surface[i].color == color
    {
      var rot := 0.0;
      var inc := ArcStep;
      ghost var start := surface;
      while rot + inc < radAmount
        invariant Valid() && records == old(records) && width == old(width) && height == old(height) && cursor == old(cursor)
        invariant |surface| >= |start| && surface[..|start|] == start
        invariant forall i :: |start| <= i < |surface| ==> surface[i].Segment? && surface[i].color == color
        decreases ((radAmount - rot) / ArcStep).Floor
      {
        var one := Add(center, ScaleLeft(radius, Vec2(cos(radStart + rot), sin(radStart + rot))));
        var two := Add(center, ScaleLeft(radius, Vec2(cos(radStart + rot + inc), sin(radStart + rot + inc))));
        DrawLine(PointOf(one), PointOf(two), color, false, intersects);
        rot := rot + inc;
      }
      var onef := Add(center, ScaleLeft(radius, Vec2(cos(radStart + rot), sin(radStart + rot))));
      var twof := Add(center, ScaleLeft(radius, Vec2(cos(radStart + radAmount), sin(radStart + radAmount))));
      DrawLine(PointOf(onef), PointOf(twof), color, false, intersects);
    }

    /**
     * `DrawRecordedFrame`: with no reader it throws; otherwise it replays records
     * until an end-of-frame mark (false) or the end of the stream (true). A partial
     * record at the end makes the reader throw.
     */
    method DrawRecordedFrame(w: int, h: int, intersects: Intersects) returns (r: Result<bool, string>)
      requires Valid()
      modifies this
      ensures Valid() && records == old(records)
      ensures reader.None? ==>
        && r == Err(NoReader) && surface == old(surface) && cursor == old(cursor)
        && width == old(width) && height == old(height)
      ensures reader.Some? ==>
        var (cs, n, ended) := Replay(reader.value.records[old(cursor)..], w, h);
        && width == w && height == h
        && cursor == old(cursor) + n
        && surface == old(surface) + Render(cs, w, h, intersects)
        && r == (if ended then Ok(false) else if reader.value.truncated then Err(EndOfStream) else Ok(true))
    {
      if reader.None? {
        return Err(NoReader);
      }
      width, height := w, h;
      var ended := PlayFrame(intersects);
      if ended {
        return Ok(false);
      }
      if reader.value.truncated {
        return Err(EndOfStream);
      }
      r := Ok(true);
    }

    /** The playback loop: records in order until a mark or the end of the records. */
    method PlayFrame(intersects: Intersects) returns (ended: bool)
      requires reader.Some? && Valid()
      modifies this
      ensures Valid() && records == old(records) && width == old(width) && height == old(height)
      ensures var rp := Replay(reader.value.records[old(cursor)..], width, height);
        && cursor == old(cursor) + rp.1
        && surface == old(surface) + Render(rp.0, width, height, intersects)
        && ended == rp.2
    {
      var recs := reader.value.records;
      var w, h := width, height;
      var c := cursor;
      ghost var done: seq<Command> := [];
      ghost var before := surface;
      ghost var total := Replay(recs[c..], w, h);
      assert ReplayedSoFar(total, done, recs, c, c, w, h) by {
        assert done + total.0 == total.0;
      }
      while c < |recs|
        invariant Valid() && records == old(records) && cursor == old(cursor) && width == w && height == h
        invariant old(cursor) <= c <= |recs|
        invariant surface == before + Render(done, w, h, intersects)
        invariant ReplayedSoFar(total, done, recs, old(cursor), c, w, h)
        decreases |recs| - c
      {
        var rec := recs[c];
        if IsEndOfFrame(rec) {
          ReplayStops(total, done, recs, old(cursor), c, w, h);
          cursor := c + 1;
          return true;
        }
        ReplayAdvances(total, done, recs, old(cursor), c, w, h);
        PlayNext(rec, done, before, intersects);
        done := done + [Decode(rec, w, h)];
        c := c + 1;
      }
      ReplayStops(total, done, recs, old(cursor), c, w, h);
      cursor := c;
      ended := false;
    }

    /** One step of the playback loop: the record's rendering follows what was rendered so far. */
    method PlayNext(rec: Entry, ghost done: seq<Command>, ghost before: seq<SurfaceOp>, intersects: Intersects)
      requires !IsEndOfFrame(rec) && Valid() && reader.Some?
      requires surface == before + Render(done, width, height, intersects)
      modifies this
      ensures Valid() && records == old(records) && width == old(width) && height == old(height) && cursor == old(cursor)
      ensures surface == before + Render(done + [Decode(rec, width, height)], width, height, intersects)
    {
      PlayRecord(rec, intersects);
      RenderAppend(done, Decode(rec, width, height), width, height, intersects);
    }

    /** One record that is not an end-of-frame mark: a zero-coordinate record clears, any other draws (unrecorded). */
    method PlayRecord(rec: Entry, intersects: Intersects)
      requires !IsEndOfFrame(rec) && Valid() && reader.Some?
      modifies this
      ensures Valid() && records == old(records) && width == old(width) && height == old(height) && cursor == old(cursor)
      ensures surface == old(surface) + RenderOne(Decode(rec, width, height), width, height, intersects)
    {
      if AllZero(rec) {
        Clear(rec.color, width, height);
      } else {
        DrawLine(Start(rec, width, height), End(rec, width, height), rec.color, false, intersects);
      }
    }

    /**
     * `SaveVideo`: the first name in name.srv3, name_1.srv3, … that is not among
     * the `existing` files gets the whole recording; the recording itself is unchanged.
     */
    method SaveVideo(name: string, existing: set<string>) returns (filename: string, contents: seq<Entry>)
      ensures filename !in existing
      ensures exists i: nat :: filename == SaveName(name, i) && forall k :: 0 <= k < i ==> SaveName(name, k) in existing
      ensures contents == records
    {
      var fileIndex := 0;
      filename := SaveName(name, fileIndex);
      fileIndex := fileIndex + 1;
      while filename in existing
        invariant fileIndex >= 1 && filename == SaveName(name, fileIndex - 1)
        invariant forall k :: 0 <= k < fileIndex - 1 ==> SaveName(name, k) in existing
        decreases |existing| - (fileIndex - 1)
      {
        SaveNamesCount(name, fileIndex);
        assert (set k | 0 <= k < fileIndex :: SaveName(name, k)) <= existing;
        SetSizeBound(set k | 0 <= k < fileIndex :: SaveName(name, k), existing);
        filename := SaveName(name, fileIndex);
        fileIndex := fileIndex + 1;
      }
      contents := records;
    }

    /** `ResetVideo`: the recording is emptied and recording resumes from the start. */
    method ResetVideo()
      modifies this
      ensures records == [] && surface == old(surface) && cursor == old(cursor)
      ensures width == old(width) && height == old(height)
      ensures Valid() <==> (reader.Some? ==> cursor <= |reader.value.records|)
    {
      records := [];
    }
  }

  const ArcStep: real := 3.141592653589793115997963468544185161590576171875 / 64.0

  const NoReader: string := "Cannot use DrawRecordedFrame without a reader"
  const EndOfStream: string := "Unable to read beyond the end of the stream."

  lemma SetSizeBound(a: set<string>, b: set<string>)
    requires a <= b
    ensures |a| <= |b|
  {
    assert b == a + (b - a);
  }
}
