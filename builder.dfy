/**
 * `StripBuilder`: collects size requests, then on `Horizontal` or `Vertical`
 * resolves them to lengths, hands the caller a `Strip` cursor over those
 * lengths, drops the cursor (draining what it left) and allocates the strip's
 * region exactly once.
 *
 * The resolver from size requests to lengths is a parameter: its algorithm is
 * not part of this model. The UI is an opaque value of what the builder reads
 * from it, and the caller's strip callback is the sequence of calls it makes
 * on the cursor.
 */
module Builder {
  import opened Layout
  import opened StripCursor

  /** An opaque size request (exact, relative, remainder, ...). */
  datatype Size = Size(id: nat)

  /** What the builder reads from the UI it is given. */
  datatype Ui = Ui(
    layout: UiLayout,
    availableWidth: real,
    availableHeight: real,
    itemSpacingX: real,
    itemSpacingY: real)

  /** Turns size requests into lengths, given the available length and the spacing. */
  type Resolver = (seq<Size>, real, real) -> seq<real>

  /** `count` copies of `size`. */
  function Repeat(size: Size, count: nat): (r: seq<Size>)
    ensures |r| == count && forall i :: 0 <= i < count ==> r[i] == size
  {
    seq(count, _ => size)
  }

  class StripBuilder {
    const ui: Ui
    var sizing: seq<Size>
    var clip: bool
    var cellLayout: UiLayout

    /** A new builder clips, lays out cells as the UI does, and has no sizes yet. */
    constructor (ui: Ui)
      ensures this.ui == ui
      ensures sizing == [] && clip && cellLayout == ui.layout
    {
      this.ui := ui;
      sizing := [];
      cellLayout := ui.layout;
      clip := true;
    }

    /** Whether the contents of each cell are clipped. */
    method Clip(clip: bool)
      modifies this
      ensures this.clip == clip
      ensures sizing == old(sizing) && cellLayout == old(cellLayout)
    {
      this.clip := clip;
    }

    /** The layout for the cells' contents. */
    method CellLayout(cellLayout: UiLayout)
      modifies this
      ensures this.cellLayout == cellLayout
      ensures sizing == old(sizing) && clip == old(clip)
    {
      this.cellLayout := cellLayout;
    }

    /** Asks for one more cell, after the ones asked for so far. */
    method Size(size: Size)
      modifies this
      ensures sizing == old(sizing) + [size]
      ensures clip == old(clip) && cellLayout == old(cellLayout)
    {
      sizing := sizing + [size];
    }

    /** Asks for `count` more cells of the same size, after the ones asked for so far. */
    method Sizes(size: Size, count: nat)
      modifies this
      ensures sizing == old(sizing) + Repeat(size, count)
      ensures |sizing| == |old(sizing)| + count && sizing[..|old(sizing)|] == old(sizing)
      ensures forall i :: |old(sizing)| <= i < |sizing| ==> sizing[i] == size
      ensures clip == old(clip) && cellLayout == old(cellLayout)
    {
      for n := 0 to count
        invariant sizing == old(sizing) + Repeat(size, n)
        invariant clip == old(clip) && cellLayout == old(cellLayout)
      {
        sizing := sizing + [size];
        assert Repeat(size, n + 1) == Repeat(size, n) + [size];
      }
    }

    /**
     * The lengths resolved for the cells on the primary axis of direction `d`:
     * from the available width and the horizontal item spacing, or from the
     * available height and the vertical item spacing.
     */
    function Lengths(d: CellDirection, toLengths: Resolver): seq<real>
      reads this
    {
      match d
      case Horizontal => toLengths(sizing, ui.availableWidth, ui.itemSpacingX)
      case Vertical => toLengths(sizing, ui.availableHeight, ui.itemSpacingY)
    }

    /**
     * Runs a strip in direction `d` over `lengths`: a layout and a cursor are
     * made, the callback makes its calls, the cursor is dropped, and then, once,
     * the region is allocated.
     */
    method Build(d: CellDirection, lengths: seq<real>, strict: bool, callback: seq<Call>)
      returns (response: Response, ghost diagnostics: nat, ghost engine: StripLayout)
      requires strict ==> |callback| <= |lengths|
      ensures fresh(engine) && engine.finalized && engine.allocations == 1
      ensures response == Response(engine.direction, engine.clip, engine.cellLayout, engine.events)
      ensures response.direction == d && response.clip == clip && response.cellLayout == cellLayout
      ensures response.cells == Trace(d, clip, callback, lengths)
      ensures diagnostics == Max(0, |callback| - |lengths|)
    {
      var layout := new StripLayout(d, clip, cellLayout);
      var strip := new Strip(layout, d, lengths, strict);
      for i := 0 to |callback|
        invariant !layout.finalized && layout.allocations == 0
        invariant layout.clip == clip && layout.cellLayout == cellLayout && layout.direction == d
        invariant |strip.sizes| == Max(0, |lengths| - i)
        invariant strip.diagnostics == Max(0, i - |lengths|)
        invariant layout.events + Trace(d, clip, callback[i..], strip.sizes) == Trace(d, clip, callback, lengths)
      {
        ghost var before := layout.events;
        ghost var rest := strip.sizes;
        assert callback[i..][1..] == callback[i + 1..];
        strip.Perform(callback[i]);
        assert before + Trace(d, clip, callback[i..], rest)
            == before + [Emit(d, clip, callback[i], NextSize(rest).0)] + Trace(d, clip, callback[i + 1..], strip.sizes);
      }
      assert callback[|callback|..] == [];
      strip.Finish();
      diagnostics := strip.diagnostics;
      response := layout.AllocateRect();
      engine := layout;
    }

    /**
     * Lays out a strip left to right over the available width: widths are resolved
     * with the horizontal item spacing, and each cell's width is its length.
     */
    method Horizontal(toLengths: Resolver, strict: bool, callback: seq<Call>)
      returns (response: Response, ghost diagnostics: nat, ghost engine: StripLayout)
      requires strict ==> |callback| <= |Lengths(CellDirection.Horizontal, toLengths)|
      ensures fresh(engine) && engine.finalized && engine.allocations == 1
      ensures response == Response(engine.direction, engine.clip, engine.cellLayout, engine.events)
      ensures response.direction == CellDirection.Horizontal && response.clip == clip && response.cellLayout == cellLayout
      ensures response.cells == Trace(CellDirection.Horizontal, clip, callback, Lengths(CellDirection.Horizontal, toLengths))
      ensures |response.cells| == Max(|callback|, |Lengths(CellDirection.Horizontal, toLengths)|)
      ensures |callback| <= |Lengths(CellDirection.Horizontal, toLengths)| ==> PrimaryLengths(CellDirection.Horizontal, response.cells) == Lengths(CellDirection.Horizontal, toLengths)
      ensures forall j :: |callback| <= j < |response.cells| ==> response.cells[j].Empty?
      ensures diagnostics == Max(0, |callback| - |Lengths(CellDirection.Horizontal, toLengths)|)
    {
      var widths := Lengths(CellDirection.Horizontal, toLengths);
      response, diagnostics, engine := Build(CellDirection.Horizontal, widths, strict, callback);
      TraceLength(CellDirection.Horizontal, clip, callback, widths);
      if |callback| <= |widths| {
        TracePrimaryLengths(CellDirection.Horizontal, clip, callback, widths);
        DrainCompletes(CellDirection.Horizontal, clip, callback, widths);
      }
    }

    /**
     * Lays out a strip top to bottom over the available height: heights are resolved
     * with the vertical item spacing, and each cell's height is its length.
     */
    method Vertical(toLengths: Resolver, strict: bool, callback: seq<Call>)
      returns (response: Response, ghost diagnostics: nat, ghost engine: StripLayout)
      requires strict ==> |callback| <= |Lengths(CellDirection.Vertical, toLengths)|
      ensures fresh(engine) && engine.finalized && engine.allocations == 1
      ensures response == Response(engine.direction, engine.clip, engine.cellLayout, engine.events)
      ensures response.direction == CellDirection.Vertical && response.clip == clip && response.cellLayout == cellLayout
      ensures response.cells == Trace(CellDirection.Vertical, clip, callback, Lengths(CellDirection.Vertical, toLengths))
      ensures |response.cells| == Max(|callback|, |Lengths(CellDirection.Vertical, toLengths)|)
      ensures |callback| <= |Lengths(CellDirection.Vertical, toLengths)| ==> PrimaryLengths(CellDirection.Vertical, response.cells) == Lengths(CellDirection.Vertical, toLengths)
      ensures forall j :: |callback| <= j < |response.cells| ==> response.cells[j].Empty?
      ensures diagnostics == Max(0, |callback| - |Lengths(CellDirection.Vertical, toLengths)|)
    {
      var heights := Lengths(CellDirection.Vertical, toLengths);
      response, diagnostics, engine := Build(CellDirection.Vertical, heights, strict, callback);
      TraceLength(CellDirection.Vertical, clip, callback, heights);
      if |callback| <= |heights| {
        TracePrimaryLengths(CellDirection.Vertical, clip, callback, heights);
        DrainCompletes(CellDirection.Vertical, clip, callback, heights);
      }
    }
  }

  /**
   * What the contents of a nested strip's cell do with the cell's UI: make a
   * new builder on it with the clip setting recorded in the contents.
   */
  method NestedBuilder(cellUi: Ui, contents: Contents) returns (builder: StripBuilder)
    requires contents.Nested?
    ensures fresh(builder)
    ensures builder.ui == cellUi && builder.sizing == [] && builder.cellLayout == cellUi.layout
    ensures builder.clip == contents.clip
  {
    builder := new StripBuilder(cellUi);
    builder.Clip(contents.clip);
  }
}
