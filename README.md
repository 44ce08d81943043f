# st_graph bookkeeping core, in Dafny

st_graph is a plotting library that hides one graphics toolkit behind the interfaces
`Engine`, `IFrame`, `IPlot` and `PlotHist`. Almost everything it does is a call into that
toolkit. This project models the bookkeeping that the library does itself and proves properties
of it:

- **Histogram plotter** (`RootPlotHist`). The plotter converts bin intervals into the toolkit's
  edge array. It maps 0-based user bin indices onto the toolkit's numbering, where bin 0 is the
  underflow and bin N + 1 is the overflow. It also reports its dimensionality. Bin contents are
  an `array<real>` of N + 2 cells; in 2-D they are an `array2<real>` of (Nx + 2) x (Ny + 2) cells.
- **ValueSet**. This is the paired values and spreads container. Its constructor pads missing
  spreads with zeros and rejects more spreads than values. The subset type `ValueSet` carries the
  resulting invariant: there is one spread per value.
- **Engine frame registry** (`RootEngine`). This is the ordered `std::list` of frames.
  `addFrame` appends, `removeFrame` erases every occurrence, `run` displays the frames front to
  back and `hideFrames` hides them back to front. The display and hide loops return the frames
  they visit, in call order.
- **Frame lifecycle** (`RootFrame`). A frame is created only under a `RootFrame` parent, and it
  registers with its engine. It unregisters when it is destroyed. `ancestor()` is one shared
  object without an engine, a parent or a widget. `display` and `unDisplay` return the widget calls
  they make, and they make none when there is no widget.
- **Plot construction** (`RootPlot`). The constructor checks that x and y have the same size. It
  lower-cases the style and builds a graph only in the 2-D case. It then registers with its parent
  and unregisters on destruction.

Exceptions (`std::logic_error`) are modelled as the `Err`/`Fail` cases of `Result` and `Outcome`,
with the source's messages. Object addresses are `Handle` values. Doubles are only copied, never
computed with, so they are modelled as `real`. A constructor that can throw becomes a module-level
method (`Create`, `Create1D`, `Create2D`, `Construct`). That method returns the object or the
error. `RootFrames.Create`, `RootPlots.Create` and `ValueSets.Construct` keep the C++ constructor's
order. `RootPlotHists.Create1D` and `RootPlotHists.Create2D` use the corrected order described
under "## Findings": they register the plot only once construction has succeeded.
`Create1DAsWritten` and `Create2DAsWritten` keep the source's order.

The code sometimes disagrees with its own declarations. The engine's header takes `IFrame *`
frames, while the implementation takes `PlotHist1D *`. The parent of a `RootPlot` is declared with
`addFrame`/`removeFrame`, while `addPlot`/`removePlot` are called. The model follows the calls
in the implementation files and treats every frame and plot as an opaque address.

## Model

| member | source | states |
|---|---|---|
| `ValueSets.Construct` | src/ValueSet.cxx:7-18 | fails with the source's logic error exactly when there are more spreads than values; otherwise the values are kept as given and the spreads are the given spreads followed by zeros up to the number of values, so both have the same length and equal-length inputs are stored unchanged |
| `ValueSets.GetValues` | src/ValueSet.cxx:20 | returns as many values as `getSpreads` returns spreads |
| `ValueSets.GetSpreads` | src/ValueSet.cxx:22 | returns one spread per stored value |
| `ValueSets.IsEmpty` | st_graph/ValueSet.h:20 | a set is empty exactly when it holds no values and no spreads |
| `ValueSets.Size` | st_graph/ValueSet.h:18 | the number of points is the length of both the values and the spreads |
| `FrameLists.WithoutCounts` | src/RootEngine.cxx:42-44 | `list::remove(x)` erases every copy of x and keeps every other element exactly as many times as before |
| `FrameLists.WithoutAppend` | src/RootEngine.cxx:42-44 | removal works piecewise over a concatenation, so the remaining frames keep their relative order |
| `FrameLists.WithoutAbsent` | src/RootEngine.cxx:42-44 | removing a frame that is not registered leaves the registry unchanged |
| `FrameLists.RegisterThenUnregister` | src/RootFrame.cxx:26-29 | appending a frame that is not yet registered and then removing it restores the registry |
| `FrameLists.ReversedAt` | src/RootEngine.cxx:46-49 | the k-th frame that a reverse walk visits is the k-th frame from the end |
| `FrameLists.ReversedCounts` | src/RootEngine.cxx:46-49 | a reverse walk visits every registered frame exactly as often as it is registered |
| `RootEngines.RootEngine.constructor` | src/RootEngine.cxx:16-22 | a new engine has no frames registered |
| `RootEngines.RootEngine.AddFrame` | src/RootEngine.cxx:38-40 | the frame is appended at the end and the earlier entries are unchanged |
| `RootEngines.RootEngine.RemoveFrame` | src/RootEngine.cxx:42-44 | the registry becomes the old registry without the frame: no copy of the frame remains, other frames keep their counts and order, and an unregistered frame changes nothing |
| `RootEngines.RootEngine.Run` | src/RootEngine.cxx:24-30 | `display` is called once on each registered frame, in registration order, and the registry is not changed |
| `RootEngines.RootEngine.HideFrames` | src/RootEngine.cxx:46-49 | `unDisplay` is called once on each registered frame, in reverse registration order, and the registry is not changed |
| `RootFrames.RootFrame.Init` | src/RootFrame.cxx:20-22 | the frame keeps the given engine, RootFrame parent and widget |
| `RootFrames.RootFrame.Detached` | src/RootFrame.cxx:46 | the private default constructor gives a frame with no engine, no parent and no widget |
| `RootFrames.RootFrame.Display` | src/RootFrame.cxx:31-37 | with no widget nothing is called; otherwise the widget's sub-windows are mapped, it is laid out and then mapped, in that order |
| `RootFrames.RootFrame.UnDisplay` | src/RootFrame.cxx:39-42 | with no widget nothing is called; otherwise the widget is unmapped |
| `RootFrames.RootFrame.Destroy` | src/RootFrame.cxx:29 | a frame with an engine is removed from that engine's registry; the ancestor, which has no engine, touches no registry |
| `RootFrames.Create` | src/RootFrame.cxx:20-27 | fails with the source's logic error, leaving the registry alone, exactly when the parent is not a RootFrame (null included); otherwise it builds a new frame with the given engine, parent and widget and appends it to the engine's registry |
| `RootFrames.AncestorStorage.constructor` | src/RootFrame.cxx:16 | the function-static ancestor does not exist before the first call |
| `RootFrames.AncestorStorage.Ancestor` | src/RootFrame.cxx:15-18 | the first call creates the ancestor and every later call returns that same object, which has no engine, no parent and no widget |
| `RootFrames.AncestorIsShared` | src/RootFrame.cxx:15-18 | two calls of `ancestor()` return the same frame, and that frame has no engine |
| `RootFrames.FrameLifetime` | src/RootFrame.cxx:20-29 | a frame built under the ancestor and then destroyed leaves its engine's registry as it was |
| `RootPlotHists.CreateIntervals` | src/RootPlotHist.cxx:98-117 | no intervals is a logic error; otherwise a fresh array of n + 1 edges holds each interval's low end and then the last interval's high end |
| `RootPlotHists.EdgesRoundTrip` | src/RootPlotHist.cxx:103-113 | the bins the toolkit reads back from the edges are the user's intervals if and only if each interval ends where the next begins |
| `RootPlotHists.EdgesIgnoreInnerHighEnds` | src/RootPlotHist.cxx:108-113 | only the low ends and the last high end reach the edge array; the other intervals' high ends do not affect it |
| `RootPlotHists.RootPlotHist.Init1D` | src/RootPlotHist.cxx:19-21 | a 1-D plot has edges and a bin array of N + 2 cells, and no 2-D histogram |
| `RootPlotHists.RootPlotHist.Init2D` | src/RootPlotHist.cxx:32-35 | a 2-D plot has edges on both axes and an (Nx + 2) x (Ny + 2) bin array, and no 1-D histogram |
| `RootPlotHists.RootPlotHist.Set` | src/RootPlotHist.cxx:86-90 | without a 1-D histogram this is a logic error and nothing changes; otherwise exactly bin index + 1 is written, so a non-negative index never touches the underflow bin |
| `RootPlotHists.RootPlotHist.Set2D` | src/RootPlotHist.cxx:92-96 | without a 2-D histogram this is a logic error and nothing changes; otherwise exactly bin (x + 1, y + 1) is written |
| `RootPlotHists.RootPlotHist.Dimensionality` | src/RootPlotHist.cxx:133-136 | returns 2 exactly when the 2-D histogram exists and 1 exactly when it does not |
| `RootPlotHists.RootPlotHist.Destroy` | src/RootPlotHist.cxx:47-48 | the plot is removed from its engine's registry |
| `RootPlotHists.Create1D` | src/RootPlotHist.cxx:19-30 | the 1-D constructor in the corrected order (the source registers first, see "## Findings"): fails with `createIntervals`' logic error exactly on empty intervals and then leaves the registry unchanged; otherwise it appends the plot to the registry and gives a 1-D plot whose edges are those of the intervals and whose N + 2 bins are all zero |
| `RootPlotHists.Create2D` | src/RootPlotHist.cxx:32-45 | the 2-D constructor in the corrected order (the source registers first, see "## Findings"): fails exactly when either axis has no intervals, leaving the registry unchanged; otherwise it appends the plot and gives a 2-D plot with both axes' edges and (Nx + 2) x (Ny + 2) bins, all zero |
| `RootPlotHists.Create1DAsWritten` | src/RootPlotHist.cxx:19-30 | as written, the plot is registered with the engine whether or not construction then fails on empty intervals |
| `RootPlotHists.Create2DAsWritten` | src/RootPlotHist.cxx:32-45 | as written, the 2-D plot is registered with the engine on every path, including when construction then fails because either axis has no intervals |
| `RootPlotHists.DanglingRegistration` | src/RootPlotHist.cxx:23-26 | on empty intervals the constructor as written fails, yet the engine still lists the plot |
| `RootPlotHists.NoDanglingRegistration` | src/RootPlotHist.cxx:23-26 | on the same input the corrected constructor fails and leaves the registry empty |
| `RootPlotHists.PlotHistLifetime` | src/RootPlotHist.cxx:47-48 | a 1-D or 2-D plot constructed in the corrected order and then destroyed leaves its engine's registry as it was, and a failed construction leaves it untouched |
| `RootPlots.ToLower` | src/RootPlot.cxx:22 | the result is never an upper-case letter; upper-case letters become the matching lower-case letter and every other character is kept |
| `RootPlots.LowerCase` | src/RootPlot.cxx:21-22 | the lower-cased style has the input's length, each character is the `tolower` of the input character at that position, and no upper-case letter remains |
| `RootPlots.LowerCaseIdempotent` | src/RootPlot.cxx:21-22 | lower-casing an already lower-cased style changes nothing |
| `RootPlots.PlotFrame.constructor` | src/RootPlotFrame.h:49 | a new plot frame lists no plots |
| `RootPlots.PlotFrame.AddPlot` | src/RootPlotFrame.h:39 | the plot is appended to the parent's list |
| `RootPlots.PlotFrame.RemovePlot` | src/RootPlotFrame.h:41 | every listing of the plot is erased and the other plots keep their order |
| `RootPlots.RootPlot.Init` | src/RootPlot.cxx:14-15 | the plot keeps the given parent and graph |
| `RootPlots.RootPlot.Destroy` | src/RootPlot.cxx:42-45 | a plot with a non-null parent is erased from that parent's list |
| `RootPlots.Create` | src/RootPlot.cxx:14-40 | x and y of different sizes give the size error; otherwise a non-empty z gives the style error naming the style as given; both leave the parent alone; otherwise the graph has x's size, x and y's values and spreads, and four arrays of exactly that size, and the plot is appended once to a non-null parent |
| `RootPlots.PlotLifetime` | src/RootPlot.cxx:39-44 | a plot created under a parent and then destroyed leaves the parent's list as it was |

## Left out

- All drawing and windowing is left out because it is done by the toolkit. This covers the
  histogram and plot `display`/`unDisplay` bodies, the `gPad` swapping, embedded canvases, main
  frames, multigraphs, and `MapWindow`/`Layout` beyond the call trace of `RootFrame`.
- `RootEngine`'s creation of the toolkit application object and the toolkit event loop that
  `run()` starts after its display loop are left out. Both are foreign calls.
- The engine's factory methods are left out. Of them only `createPlotHist1D` has a body in the
  source (src/RootEngine.cxx:32-36), which constructs a `RootPlotHist`; the others are only
  declared (src/RootEngine.h:36-60).
- The `Engine::instance()` lazy singleton (src/Engine.cxx:14-17) and `Axis` are left out. They
  only choose and construct the engine and carry axis labels, and hold no bookkeeping of their own.
- RootPlotHists.RootPlotHist.Set requires the index to land inside the bin array, from -1 for
  the underflow bin to N for the overflow bin. The source passes any index on to the toolkit, and
  what the toolkit does with a bin outside the array is not part of this model.
- RootPlotHists.RootPlotHist.Set2D has the same restriction on each of its two indices.
- The toolkit's entry counts and statistics, which `SetBinContent` also updates, are not modelled.
  Only the bin contents are.
- `init()` also creates the plot's main window and canvas, and the constructors store the title,
  width and height for the toolkit. Only the registration and the title are modelled.
- The conversion of `intervals.size()` to `int` in `createIntervals` is not modelled. Integers
  are unbounded here, so more than 2^31 - 1 intervals do not overflow.
- Memory management is not modelled. This covers the `delete` of edge arrays, histograms, graphs
  and widgets, and the leaks when a constructor throws part-way.
- Addresses (`Handle`) are parameters. The model does not enforce that two live objects have
  different addresses.
- The ValueSet constructor truncates the spreads just before it throws. That truncation has no
  visible effect, because the object is never constructed, so it is not modelled.
- The default `ValueSet()` constructor and `empty()`/`size()` are declared, but their bodies are
  not part of this model. `Size` and `IsEmpty` take them to count the values; by the subset type's
  invariant, that is also the number of spreads.
- RootPlots.PlotFrame.AddPlot is only declared in the parent frame's header, and its body is not
  part of this model. It is taken to append, like `std::list::push_back`.
- RootPlots.PlotFrame.RemovePlot is likewise only declared, and it is taken to erase every
  occurrence, like `std::list::remove`.
- `RootPlot::display` (a logic error when no canvas is attached), `unDisplay` (empty) and
  `setCanvas` are left out. They belong to drawing.
- The lower-cased style is computed and then never used: the error message names the style as
  given. The model computes it and does not use it either.
- When x is empty, the source takes the address of the first element of an empty vector. The model
  simply builds a graph of zero points.
- `tolower` is modelled for the "C" locale: only `A`-`Z` change.
- The widget-ownership code of `RootTabFolder` and `RootPlotFrame`, the main-window close
  handling and layout callbacks, the incomplete `Placer` header, and the command-line tool and
  interactive test that read files and draw are left out. None of them is part of the bookkeeping
  modelled here.

## Findings

| source | as written | input that shows it | evidently intended | confidence | as-written member | corrected member |
|---|---|---|---|---|---|---|
| src/RootPlotHist.cxx:19-30 | `init()` registers the plot with the engine before `createIntervals` can throw; a constructor that throws never runs its destructor, so the engine keeps the address of an object that was never built, and the next `run()` or `hideFrames()` would call through it (the 2-D constructor at lines 32-45 has the same order) | the 1-D constructor called with an empty interval vector | a failed construction leaves the engine's registry unchanged | high, not executed | `RootPlotHists.Create1DAsWritten`, `RootPlotHists.Create2DAsWritten`, `RootPlotHists.DanglingRegistration` | `RootPlotHists.Create1D`, `RootPlotHists.Create2D`, `RootPlotHists.NoDanglingRegistration` |
