# Strip builder and cursor of egui_extras, in Dafny

This project models the cell-consumption protocol of egui_extras' strip
primitive (`egui_extras/src/strip.rs`). It covers the part that does not
depend on drawing.

- `StripBuilder` collects an ordered list of size requests. Its `clip` flag
  starts as `true` and its cell layout starts as the UI's layout.
- `horizontal` / `vertical` resolve the requests to lengths on the matching
  axis. They hand the caller a `Strip` cursor over those lengths, drop the
  cursor and then call `allocate_rect` once.
- The `Strip` cursor gives each `cell`, `empty` or `strip` call the front
  length. It maps that length to a (width, height) pair for its direction and
  forwards one `add` or `empty` call to the layout engine. When dropped, it
  turns every length still left into an empty cell.

Files:

- `layout.dfy`, module `Layout`: the layout engine as an event log.
  `StripLayout` records each `Add` / `Empty` call. `AllocateRect` returns the
  logged cells as the claimed region. It can be called only once, and a ghost
  counter records that call.
- `strip_cursor.dfy`, module `StripCursor`: the reference semantics `Trace`.
  This is the log a strip produces for a given sequence of caller calls over
  given lengths. Lemmas state what that log is. The class `Strip` is the
  cursor, proved to produce the log one call at a time. `Finish` is the drop.
- `builder.dfy`, module `Builder`: the class `StripBuilder`. `Build` is the
  shared body of `Horizontal` and `Vertical`.

Modelling choices:

- Lengths are `real`. They are only moved around, never computed on.
- The debug/release split is the `strict` flag. A strict cursor has a
  precondition: it is never asked for a cell past the end, because a debug
  build panics there. A lenient cursor uses `FALLBACK_SIZE` (8.0) instead and
  counts a diagnostic in the ghost field `diagnostics`. `Horizontal` and
  `Vertical` return that count as a ghost result.
- The caller's strip callback is the sequence of calls it makes on the cursor
  (`Call`). `Strip.Perform` carries out one such call by calling `Cell`,
  `Empty` or `Strip`. Each cell's content callback is an opaque token stored in the
  logged event.
- For `strip`, the token records the clip setting that the nested builder
  receives. `NestedBuilder` is what that token's callback does with the cell's
  UI.
- The size resolver is a function parameter (`Resolver`). `Horizontal` applies
  it to the available width and horizontal spacing. `Vertical` applies it to
  the available height and vertical spacing.

## Model

| member | source | states |
|---|---|---|
| Layout.StripLayout.constructor | egui_extras/src/strip.rs:101-106 | a new layout engine has the strip's direction, clip flag and cell layout, is open, and has logged nothing |
| Layout.StripLayout.Add | egui_extras/src/strip.rs:177 | `add` appends exactly one Add event with the given sizes and contents; the engine stays open |
| Layout.StripLayout.Empty | egui_extras/src/strip.rs:183 | `empty` appends exactly one Empty event with the given sizes; the engine stays open |
| Layout.StripLayout.AllocateRect | egui_extras/src/strip.rs:112 | allocation finalizes the engine, which can happen only once, and counts one allocation; the response covers every cell logged before it and carries the engine's direction, clip flag and cell layout |
| StripCursor.CellSizes | egui_extras/src/strip.rs:168-171 | the primary-axis component of the pair is `Absolute` of the consumed length; the cross-axis component is `Remainder` |
| StripCursor.TraceLength | egui_extras/src/strip.rs:151-200 | a strip lays out max(number of caller calls, number of lengths) cells |
| StripCursor.TraceAt | egui_extras/src/strip.rs:162-166 | cell i uses the i-th caller call, or an empty cell once the calls run out; it uses the i-th resolved length, or 8.0 once the lengths run out; so lengths are taken in order, one per cell |
| StripCursor.TraceCross | egui_extras/src/strip.rs:168-171 | every cell a strip lays out fills the cross axis |
| StripCursor.TraceFollowsCalls | egui_extras/src/strip.rs:175-192 | the first cells follow the caller's calls in order. `cell` gives an Add event with its contents, and `strip` gives an Add event whose nested builder receives the layout's clip. `empty` gives an Empty event, and only `empty` does |
| StripCursor.DrainCompletes | egui_extras/src/strip.rs:195-201 | after k <= N calls on N lengths, dropping appends exactly N - k empty cells, holding the lengths not taken, in order |
| StripCursor.TracePrimaryLengths | egui_extras/src/strip.rs:195-201 | after at most N calls, the primary-axis lengths of all cells, in order, equal the resolved list |
| StripCursor.TraceOverConsumption | egui_extras/src/strip.rs:152-161 | after more calls than lengths, there is one cell per call; the cells' primary-axis lengths are the resolved list followed by 8.0 for each extra call |
| StripCursor.Strip.constructor | egui_extras/src/strip.rs:107-111 | a cursor starts over the whole resolved list, bound to the layout and direction it is given |
| StripCursor.Strip.NextCellSize | egui_extras/src/strip.rs:151-172 | when lengths remain, returns the front length mapped by direction, and the remaining list becomes its tail. When none remain, strict mode must not get here; lenient mode uses 8.0, keeps the list empty and counts one diagnostic |
| StripCursor.Strip.Cell | egui_extras/src/strip.rs:175-178 | takes one length and appends exactly one Add event with it and the contents |
| StripCursor.Strip.Empty | egui_extras/src/strip.rs:181-184 | takes one length and appends exactly one Empty event with it |
| StripCursor.Strip.Strip | egui_extras/src/strip.rs:187-192 | a cell whose contents are a nested builder that gets the current layout's clip value |
| StripCursor.Strip.Perform | egui_extras/src/strip.rs:107-111 | stands for the caller's closure calling `cell`, `empty` or `strip` on the cursor it was handed: one call takes one length and appends exactly the event that call gives |
| StripCursor.Strip.Finish | egui_extras/src/strip.rs:195-201 | drop leaves no length unconsumed; it appends one Empty event per length left, in order, and emits no diagnostic |
| Builder.StripBuilder.constructor | egui_extras/src/strip.rs:53-61 | a new builder has `clip == true`, the UI's layout as its cell layout, and an empty sizing list |
| Builder.StripBuilder.Clip | egui_extras/src/strip.rs:64-67 | sets the clip flag; sizing and cell layout are unchanged |
| Builder.StripBuilder.CellLayout | egui_extras/src/strip.rs:70-73 | sets the cell layout; sizing and clip are unchanged |
| Builder.StripBuilder.Size | egui_extras/src/strip.rs:76-79 | appends exactly one size to the end of the sizing list |
| Builder.StripBuilder.Sizes | egui_extras/src/strip.rs:82-87 | appends exactly `count` copies of the size after the existing entries, which are unchanged |
| Builder.StripBuilder.Build | egui_extras/src/strip.rs:101-112 | returns, as a ghost result, the fresh engine it made. That engine is finalized after exactly one allocation, and the response is that engine's: its direction, clip flag, cell layout and full log. The allocation comes after the callback and the cursor's drain. The response covers exactly the strip's trace for the callback's calls over the lengths, and the engine it comes from had the given direction and the builder's clip flag and cell layout. The lenient cursor emitted max(0, calls - lengths) diagnostics |
| Builder.StripBuilder.Horizontal | egui_extras/src/strip.rs:93-113 | returns, as a ghost result, the fresh engine, allocated exactly once, whose response it returns. The strip is horizontal, over the widths resolved from the available width and horizontal spacing. It has max(calls, widths) cells. The engine gets the builder's clip flag and cell layout. Under-consumed, the cells' widths are exactly the resolved widths and every cell after the caller's is empty. Over-consumed, max(0, calls - widths) diagnostics are emitted |
| Builder.StripBuilder.Vertical | egui_extras/src/strip.rs:119-139 | the same over the heights resolved from the available height and vertical spacing, in the vertical direction, with the response coming from the fresh engine's one allocation, with the builder's clip flag and cell layout and max(0, calls - heights) diagnostics |
| Builder.NestedBuilder | egui_extras/src/strip.rs:190 | a nested strip's cell makes a fresh builder on the cell's UI with the inherited clip value, the UI's layout and no sizes |

## Left out

- `Sizing::to_lengths`: it lives in sizing.rs, which is not part of this model. The builder takes the resolver as a function parameter.
- The internals of `StripLayout::{new, add, empty, allocate_rect}` (rectangles, clipping, cursor advancement): layout.rs is not part of this model. An event log replaces them. `allocate_rect`'s response is the list of logged cells, not a rectangle with hover state.
- The `egui::Ui` surface: the available rectangle, item spacing and layout are plain input values (`Ui`). Drawing, hit-testing and the UI cursor are not modelled.
- The `tracing::error!` / `eprintln!` diagnostics are I/O. Only a ghost count of them is kept.
- `f32` arithmetic: lengths are reals, and no operation on them is modelled.
- `cfg!(debug_assertions)` is the `strict` flag. The debug-build panic is a precondition of the strict cursor, so what a panic would do is not modelled. That includes a drop that runs while unwinding.
- Closures and lifetimes: the strip callback is a finite sequence of calls on the cursor. A content callback is an opaque token, and what it draws is not modelled.
- Builders are consumed by value in the source. Here `Horizontal` and `Vertical` leave the builder unchanged, and nothing stops a second call on the same builder.
