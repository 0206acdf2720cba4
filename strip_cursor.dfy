/**
 * The `Strip` cursor: a state machine over the lengths that are left, which
 * hands out one length per cell, in order, and drains what is left as empty
 * cells when it is dropped.
 *
 * `Trace` is the reference semantics: the log of layout calls that a strip
 * makes for a given callback. The lemmas below state what that log is; the
 * class `Strip` is proved to produce it step by step.
 */
module StripCursor {
  import opened Layout

  /** The length used for a cell that was never sized (release builds only). */
  const FALLBACK_SIZE: real := 8.0

  /**
   * One call that the caller's strip callback makes on the cursor:
   * `cell` with some contents, `empty`, or `strip` with a nested builder callback.
   */
  datatype Call = AddCell(contents: nat) | AddEmpty | AddStrip(builder: nat)

  function Max(a: int, b: int): int
  {
    if a < b then b else a
  }

  /** The (width, height) pair of a cell whose primary-axis length is `s`. */
  function CellSizes(d: CellDirection, s: real): (r: (CellSize, CellSize))
    ensures Primary(d, r.0, r.1) == Absolute(s)
    ensures Cross(d, r.0, r.1) == Remainder
  {
    match d
    case Horizontal => (Absolute(s), Remainder)
    case Vertical => (Remainder, Absolute(s))
  }

  /** The length the next cell gets and the lengths left after it. */
  function NextSize(rest: seq<real>): (real, seq<real>)
  {
    if rest == [] then (FALLBACK_SIZE, []) else (rest[0], rest[1..])
  }

  /** The layout call a cursor makes for one caller call, given the cell's length. */
  function Emit(d: CellDirection, clip: bool, call: Call, s: real): Event
  {
    var (w, h) := CellSizes(d, s);
    match call
    case AddCell(c) => Event.Add(w, h, User(c))
    case AddEmpty => Event.Empty(w, h)
    case AddStrip(b) => Event.Add(w, h, Nested(clip, b))
  }

  /** The empty cells that dropping a cursor with `rest` left produces. */
  function Drain(d: CellDirection, rest: seq<real>): (r: seq<Event>)
    ensures |r| == |rest|
  {
    seq(|rest|, i requires 0 <= i < |rest| => Emit(d, false, AddEmpty, rest[i]))
  }

  /**
   * The layout calls of a strip in direction `d` whose layout clips when
   * `clip`, over the lengths `rest`, when the callback makes `calls` and the
   * cursor is then dropped.
   */
  function Trace(d: CellDirection, clip: bool, calls: seq<Call>, rest: seq<real>): seq<Event>
    decreases |calls|
  {
    if calls == [] then Drain(d, rest)
    else
      var (s, rest') := NextSize(rest);
      [Emit(d, clip, calls[0], s)] + Trace(d, clip, calls[1..], rest')
  }

  /** The call a strip makes at position `i`: the caller's, or a drained empty cell. */
  function CallAt(calls: seq<Call>, i: nat): Call
  {
    if i < |calls| then calls[i] else AddEmpty
  }

  /** The length of the cell at position `i`: the resolved one, or the fallback. */
  function LengthAt(rest: seq<real>, i: nat): real
  {
    if i < |rest| then rest[i] else FALLBACK_SIZE
  }

  /** A strip lays out one cell per caller call or per resolved length, whichever is more. */
  lemma {:induction false} TraceLength(d: CellDirection, clip: bool, calls: seq<Call>, rest: seq<real>)
    ensures |Trace(d, clip, calls, rest)| == Max(|calls|, |rest|)
    decreases |calls|
  {
    if calls != [] {
      TraceLength(d, clip, calls[1..], NextSize(rest).1);
    }
  }

  /**
   * Cell `i` of a strip takes the `i`-th caller call (or is drained as an empty
   * cell) and the `i`-th resolved length (or the fallback): lengths are taken
   * in order, one per cell.
   */
  lemma {:induction false} TraceAt(d: CellDirection, clip: bool, calls: seq<Call>, rest: seq<real>, i: nat)
    requires i < Max(|calls|, |rest|)
    ensures |Trace(d, clip, calls, rest)| == Max(|calls|, |rest|)
    ensures Trace(d, clip, calls, rest)[i] == Emit(d, clip, CallAt(calls, i), LengthAt(rest, i))
    decreases |calls|
  {
    TraceLength(d, clip, calls, rest);
    if calls != [] && i > 0 {
      TraceAt(d, clip, calls[1..], NextSize(rest).1, i - 1);
    }
  }

  /** Every cell of a strip is fixed on the primary axis and fills the cross axis. */
  lemma {:induction false} TraceCross(d: CellDirection, clip: bool, calls: seq<Call>, rest: seq<real>, i: nat)
    requires i < |Trace(d, clip, calls, rest)|
    ensures Cross(d, Trace(d, clip, calls, rest)[i].width, Trace(d, clip, calls, rest)[i].height) == Remainder
  {
    TraceLength(d, clip, calls, rest);
    TraceAt(d, clip, calls, rest, i);
  }

  /**
   * The first cells are the caller's, one per call and in the same order:
   * `cell` adds its contents, `strip` adds a nested builder with the layout's
   * clip setting, and `empty` adds an empty cell.
   */
  lemma {:induction false} TraceFollowsCalls(d: CellDirection, clip: bool, calls: seq<Call>, rest: seq<real>, i: nat)
    requires i < |calls|
    ensures i < |Trace(d, clip, calls, rest)|
    ensures Trace(d, clip, calls, rest)[i].Empty? <==> calls[i].AddEmpty?
    ensures calls[i].AddCell? ==> Trace(d, clip, calls, rest)[i].contents == User(calls[i].contents)
    ensures calls[i].AddStrip? ==> Trace(d, clip, calls, rest)[i].contents == Nested(clip, calls[i].builder)
  {
    TraceAt(d, clip, calls, rest, i);
  }

  /**
   * When the caller makes k <= N calls on N lengths, dropping the cursor adds
   * exactly the N - k empty cells of the lengths not taken.
   */
  lemma {:induction false} DrainCompletes(d: CellDirection, clip: bool, calls: seq<Call>, rest: seq<real>)
    requires |calls| <= |rest|
    ensures |Trace(d, clip, calls, rest)| == |rest|
    ensures Trace(d, clip, calls, rest)[|calls|..] == Drain(d, rest[|calls|..])
    ensures forall j :: |calls| <= j < |rest| ==> Trace(d, clip, calls, rest)[j].Empty?
  {
    var t := Trace(d, clip, calls, rest);
    TraceLength(d, clip, calls, rest);
    forall j | |calls| <= j < |rest|
      ensures t[j] == Emit(d, false, AddEmpty, rest[j])
    {
      TraceAt(d, clip, calls, rest, j);
    }
    assert t[|calls|..] == Drain(d, rest[|calls|..]);
  }

  /**
   * When the caller makes no more calls than there are lengths, the cells'
   * primary-axis lengths are exactly the resolved lengths, in order.
   */
  lemma {:induction false} TracePrimaryLengths(d: CellDirection, clip: bool, calls: seq<Call>, rest: seq<real>)
    requires |calls| <= |rest|
    ensures PrimaryLengths(d, Trace(d, clip, calls, rest)) == rest
  {
    var t := Trace(d, clip, calls, rest);
    TraceLength(d, clip, calls, rest);
    forall j | 0 <= j < |rest|
      ensures PrimaryLength(d, t[j]) == rest[j]
    {
      TraceAt(d, clip, calls, rest, j);
    }
  }

  /**
   * When the caller makes more calls than there are lengths, every call still
   * gets a cell; the lengths run out in order and each extra cell gets the
   * fallback length. Nothing is drained.
   */
  lemma {:induction false} TraceOverConsumption(d: CellDirection, clip: bool, calls: seq<Call>, rest: seq<real>)
    requires |rest| < |calls|
    ensures |Trace(d, clip, calls, rest)| == |calls|
    ensures PrimaryLengths(d, Trace(d, clip, calls, rest))
         == rest + seq(|calls| - |rest|, _ => FALLBACK_SIZE)
  {
    var t := Trace(d, clip, calls, rest);
    var expected := rest + seq(|calls| - |rest|, _ => FALLBACK_SIZE);
    TraceLength(d, clip, calls, rest);
    forall j | 0 <= j < |calls|
      ensures PrimaryLength(d, t[j]) == expected[j]
    {
      TraceAt(d, clip, calls, rest, j);
    }
  }

  /**
   * The cursor handed to a strip callback. It owns the lengths not yet taken;
   * each cell takes the front one. `strict` stands for a debug build, where
   * taking a cell past the end aborts; otherwise the cell gets
   * FALLBACK_SIZE and a diagnostic is emitted.
   */
  class Strip {
    const layout: StripLayout
    const direction: CellDirection
    const strict: bool
    var sizes: seq<real>
    ghost var diagnostics: nat

    constructor (layout: StripLayout, direction: CellDirection, sizes: seq<real>, strict: bool)
      ensures this.layout == layout && this.direction == direction && this.strict == strict
      ensures this.sizes == sizes && diagnostics == 0
    {
      this.layout := layout;
      this.direction := direction;
      this.strict := strict;
      this.sizes := sizes;
      diagnostics := 0;
    }

    /**
     * Takes the front length and gives the size pair for the next cell. Past
     * the end, a strict cursor may not be asked; a lenient one gives the
     * fallback and counts a diagnostic.
     */
    method NextCellSize() returns (width: CellSize, height: CellSize)
      requires strict ==> sizes != []
      modifies this
      ensures old(sizes) != [] ==>
        && sizes == old(sizes)[1..]
        && (width, height) == CellSizes(direction, old(sizes)[0])
        && diagnostics == old(diagnostics)
      ensures old(sizes) == [] ==>
        && sizes == []
        && (width, height) == CellSizes(direction, FALLBACK_SIZE)
        && diagnostics == old(diagnostics) + 1
    {
      var size: real;
      if sizes == [] {
        assert !strict;
        diagnostics := diagnostics + 1;
        size := FALLBACK_SIZE;
      } else {
        size := sizes[0];
        sizes := sizes[1..];
      }
      match direction
      case Horizontal =>
        width, height := Absolute(size), Remainder;
      case Vertical =>
        width, height := Remainder, Absolute(size);
    }

    /** Adds one cell with the given contents, taking one length. */
    method Cell(contents: Contents)
      requires !layout.finalized && (strict ==> sizes != [])
      modifies this, layout
      ensures !layout.finalized && layout.allocations == old(layout.allocations)
      ensures sizes == NextSize(old(sizes)).1
      ensures diagnostics == old(diagnostics) + (if old(sizes) == [] then 1 else 0)
      ensures var (w, h) := CellSizes(direction, NextSize(old(sizes)).0);
        layout.events == old(layout.events) + [Event.Add(w, h, contents)]
    {
      var width, height := NextCellSize();
      layout.Add(width, height, contents);
    }

    /** Adds one empty cell, taking one length. */
    method Empty()
      requires !layout.finalized && (strict ==> sizes != [])
      modifies this, layout
      ensures !layout.finalized && layout.allocations == old(layout.allocations)
      ensures sizes == NextSize(old(sizes)).1
      ensures diagnostics == old(diagnostics) + (if old(sizes) == [] then 1 else 0)
      ensures layout.events == old(layout.events) + [Emit(direction, layout.clip, AddEmpty, NextSize(old(sizes)).0)]
    {
      var width, height := NextCellSize();
      layout.Empty(width, height);
    }

    /**
     * Adds one cell whose contents build a nested strip; the nested builder
     * gets the clip setting of this strip's layout.
     */
    method Strip(builder: nat)
      requires !layout.finalized && (strict ==> sizes != [])
      modifies this, layout
      ensures !layout.finalized && layout.allocations == old(layout.allocations)
      ensures sizes == NextSize(old(sizes)).1
      ensures diagnostics == old(diagnostics) + (if old(sizes) == [] then 1 else 0)
      ensures layout.events == old(layout.events) + [Emit(direction, layout.clip, AddStrip(builder), NextSize(old(sizes)).0)]
    {
      var clip := layout.clip;
      Cell(Nested(clip, builder));
    }

    /** Carries out one call of the caller's strip callback. */
    method Perform(call: Call)
      requires !layout.finalized && (strict ==> sizes != [])
      modifies this, layout
      ensures !layout.finalized && layout.allocations == old(layout.allocations)
      ensures sizes == NextSize(old(sizes)).1
      ensures diagnostics == old(diagnostics) + (if old(sizes) == [] then 1 else 0)
      ensures layout.events == old(layout.events) + [Emit(direction, layout.clip, call, NextSize(old(sizes)).0)]
    {
      match call
      case AddCell(c) => Cell(User(c));
      case AddEmpty => Empty();
      case AddStrip(b) => Strip(b);
    }

    /** Dropping the cursor: every length left is used for an empty cell. */
    method Finish()
      requires !layout.finalized
      modifies this, layout
      ensures !layout.finalized && layout.allocations == old(layout.allocations)
      ensures sizes == [] && diagnostics == old(diagnostics)
      ensures layout.events == old(layout.events) + Drain(direction, old(sizes))
    {
      ghost var start := sizes;
      while sizes != []
        invariant !layout.finalized && layout.allocations == old(layout.allocations)
        invariant diagnostics == old(diagnostics)
        invariant |sizes| <= |start| && sizes == start[|start| - |sizes|..]
        invariant layout.events == old(layout.events) + Drain(direction, start[..|start| - |sizes|])
        decreases |sizes|
      {
        ghost var taken := |start| - |sizes|;
        Empty();
        assert start[..taken + 1] == start[..taken] + [start[taken]];
        assert Drain(direction, start[..taken + 1])
            == Drain(direction, start[..taken]) + [Emit(direction, false, AddEmpty, start[taken])];
      }
      assert start[..|start|] == start;
    }
  }
}
