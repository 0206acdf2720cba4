/**
 * The strip layout engine as the strip cursor sees it.
 *
 * The rectangles, clipping and cursor advancement of the real engine are not
 * part of this model; what a strip does to the engine is recorded instead as a
 * log of `add` and `empty` calls, and the final allocation hands back that log
 * as the region it claims.
 */
module Layout {

  /** The direction of a strip: cells go left to right or top to bottom. */
  datatype CellDirection = Horizontal | Vertical

  /** The size of a cell along one axis: a fixed length, or all that is left. */
  datatype CellSize = Absolute(length: real) | Remainder

  /** An opaque stand-in for the UI's layout policy (`egui::Layout`). */
  datatype UiLayout = UiLayout(id: nat)

  /**
   * What a cell's content callback does: a user callback (an opaque token),
   * or a nested strip builder that receives the given clip setting.
   */
  datatype Contents = User(id: nat) | Nested(clip: bool, builder: nat)

  /** One call a strip made on the layout engine. */
  datatype Event =
    | Add(width: CellSize, height: CellSize, contents: Contents)
    | Empty(width: CellSize, height: CellSize)

  /**
   * What the final allocation returns: the engine's direction, clip flag and
   * cell layout, and every cell it covers.
   */
  datatype Response = Response(direction: CellDirection, clip: bool, cellLayout: UiLayout, cells: seq<Event>)

  /** The component of a (width, height) pair that lies on the primary axis. */
  function Primary(d: CellDirection, width: CellSize, height: CellSize): CellSize
  {
    if d.Horizontal? then width else height
  }

  /** The component of a (width, height) pair that lies on the cross axis. */
  function Cross(d: CellDirection, width: CellSize, height: CellSize): CellSize
  {
    if d.Horizontal? then height else width
  }

  /** The primary-axis length of an event (0 when it is not a fixed length). */
  function PrimaryLength(d: CellDirection, e: Event): real
  {
    match Primary(d, e.width, e.height)
    case Absolute(x) => x
    case Remainder => 0.0
  }

  /** The primary-axis lengths of a log of events, in order. */
  function PrimaryLengths(d: CellDirection, events: seq<Event>): (r: seq<real>)
    ensures |r| == |events|
    ensures forall i :: 0 <= i < |events| ==> r[i] == PrimaryLength(d, events[i])
  {
    seq(|events|, i requires 0 <= i < |events| => PrimaryLength(d, events[i]))
  }

  /**
   * The layout engine of one strip. It is Open (accepting `Add` and `Empty`)
   * until `AllocateRect` finalizes it, which can happen only once;
   * `allocations` counts the calls of `AllocateRect`.
   */
  class StripLayout {
    const direction: CellDirection
    const clip: bool
    const cellLayout: UiLayout
    var events: seq<Event>
    var finalized: bool
    ghost var allocations: nat

    constructor (direction: CellDirection, clip: bool, cellLayout: UiLayout)
      ensures this.direction == direction && this.clip == clip && this.cellLayout == cellLayout
      ensures events == [] && !finalized && allocations == 0
    {
      this.direction := direction;
      this.clip := clip;
      this.cellLayout := cellLayout;
      events := [];
      finalized := false;
      allocations := 0;
    }

    /** Lays out one cell and runs its contents in it. */
    method Add(width: CellSize, height: CellSize, contents: Contents)
      requires !finalized
      modifies this
      ensures events == old(events) + [Event.Add(width, height, contents)]
      ensures !finalized && allocations == old(allocations)
    {
      events := events + [Event.Add(width, height, contents)];
    }

    /** Lays out one cell with nothing in it. */
    method Empty(width: CellSize, height: CellSize)
      requires !finalized
      modifies this
      ensures events == old(events) + [Event.Empty(width, height)]
      ensures !finalized && allocations == old(allocations)
    {
      events := events + [Event.Empty(width, height)];
    }

    /** Claims the region of every cell laid out so far; the engine is finalized. */
    method AllocateRect() returns (response: Response)
      requires !finalized
      modifies this
      ensures finalized && events == old(events) && allocations == old(allocations) + 1
      ensures response.direction == direction && response.cells == events
      ensures response.clip == clip && response.cellLayout == cellLayout
    {
      finalized := true;
      allocations := allocations + 1;
      response := Response(direction, clip, cellLayout, events);
    }
  }
}
