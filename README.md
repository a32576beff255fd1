# SmartMeter graph engine and power-profile handler, in Dafny

SmartMeter is an iOS app that polls a home power meter and draws a scrolling
graph of the wattage. This project models two parts of it and proves what they
guarantee.

**The graph viewport engine** (`PowerGraphEngine`, module `GraphEngine`). It
holds a zoom factor `scaleX` and a pan offset `offsetX`, both counted in
samples. Both lie over the sample history `PowerMeter.History`. Each assignment
to either field runs a Swift `didSet` observer that clamps the stored value.
The `scaleX` observer also assigns `offsetX` to re-centre the window, and that
assignment runs the `offsetX` observer in turn. The class's setters are these
assignments. Pure functions give the value each setter stores:

- `ClampedScale` is the zoom stored for a request.
- `ZoomedOffset` is the re-centred offset the zoom then requests.
- `ClampedOffset` is the offset stored for a request.

The read side gives the graph view three things:

- the visible sample count;
- the sample at a viewport-relative position;
- the ceiling of the value axis.

`Double` is modelled as `real`. `Int(round(x))` is Swift's rounding, with
halfway cases going away from zero. `Int` division by 2 truncates toward zero.

Two facts were proved about the code as written:

- The re-centring after a zoom keeps the middle of the window in place only
  when the zoom starts from scale 1 (`ZoomKeepsMidpointIff`). From any other
  scale the window drifts by `count (old - 1) (new - old) / (2 old new)`
  samples (`ZoomMidpointShift`, example in `ZoomDriftExample`). The comment
  on line 22 says the zoom centres the graph. `CentredOffset` is the offset
  that would do so: it moves the old offset by half the change of the window
  width, and it is proved to keep the middle. The engine keeps the code's
  formula.
- The rounded offset plus a visible position can reach one past the end of the
  history (`HistoryIndexAtMostCount`, `HistoryIndexPastEndExample`). The last
  visible column then reads no sample.

**The power-profile XML handler** (`PowerProfile`, module `Profile`). It is the
parser delegate that collects the readings `v` and the start time `startts`
from the meter's XML response. It uses two more fields: the text buffer
`input` and the flag `inHeader`. Each of its three callbacks (start of an
element, character data, end of an element) is a method. Each method is proved
to have the effect `Step` gives for the matching `Event`. Lemmas over event
sequences (`Run`) prove these facts:

- readings are only ever appended;
- the header leaves them alone;
- split character data adds up;
- a whole response (root element, header, body and the character data
  between elements) yields exactly its parseable `<v>` values, in order.

The number parsing (`NSNumberFormatter`) is a function `parseInt` supplied to
the delegate's constructor.

`PowerMeter.History` appears only through what the engine reads from it (module
`PowerHistory`): the sample count and the plain lookup by index. The plain
lookup returns no sample at or past the end. A sample's timestamp is the
history's start time plus its index, in seconds.

Three details of the code the model keeps:

- The code never floor-clamps `maxY`.
- The code caps the visible count only from above, at the history size.
- The zoom re-centring uses the unrounded width `count / newScale`. It centres
  exactly only from scale 1.

## Model

| member | source | states |
|---|---|---|
| `Numerics.Round` | SmartMeter/PowerGraphEngine.swift:46 | `Int(round(x))` is within 0.5 of `x`, and a halfway case rounds away from zero |
| `Numerics.Half` | SmartMeter/PowerGraphEngine.swift:21 | `graphViewgetSampleCount()/2` on `Int` is truncated toward zero, for negative counts too |
| `GraphEngine.VisibleSampleCount` | SmartMeter/PowerGraphEngine.swift:44-47 | the visible count is never above the history size. It is never negative at a positive scale. At scale >= 1 it is within 0.5 of `count / scale` |
| `GraphEngine.VisibleSampleCountIsRoundedWidth` | SmartMeter/PowerGraphEngine.swift:44-47 | at scale >= 1 the `min` with `history.count` never bites: the count is `round(count / scale)` |
| `GraphEngine.WidthAtMostCount` | SmartMeter/PowerGraphEngine.swift:36-38 | at scale >= 1, `numVisibleSamples` lies between 0 and `history.count` |
| `GraphEngine.ClampedScale` | SmartMeter/PowerGraphEngine.swift:19-21 | the stored scale is always >= 1, even when the upper limit is below 1. It is never above the request unless it is 1. A request in `[1, limit]` is stored as it is. A request above the limit stores `max(1, limit)`. The limit is `Double(visibleCount / 2)`, taken at the requested scale |
| `GraphEngine.ResetScaleIsOne` | SmartMeter/PowerGraphEngine.swift:21 | assigning 1.0 (the zoom reset) always stores 1.0 |
| `GraphEngine.ShortHistoryCannotZoom` | SmartMeter/PowerGraphEngine.swift:21 | with fewer than 4 samples the upper limit is at most 1, so every non-zero request stores exactly 1 |
| `GraphEngine.ClampedScaleIdempotent` | SmartMeter/PowerGraphEngine.swift:19-21 | assigning a stored scale again stores the same scale, although the limit depends on the request |
| `GraphEngine.ClampedOffset` | SmartMeter/PowerGraphEngine.swift:27-32 | at scale >= 1 the stored offset is >= 0 and `offset + count/scale <= count` (right padding >= 0). A request in `[0, count - count/scale]` is stored unchanged. A negative request stores exactly 0. An overshooting request lands exactly on `count - count/scale` |
| `GraphEngine.ClampedOffsetIdempotent` | SmartMeter/PowerGraphEngine.swift:27-32 | assigning a stored offset again keeps it |
| `GraphEngine.ZoomDirection` | SmartMeter/PowerGraphEngine.swift:23 | the re-centred offset moves right when zooming in, left when zooming out, and stays when the scale is unchanged |
| `GraphEngine.ZoomMidpointShift` | SmartMeter/PowerGraphEngine.swift:22-23 | the window's middle moves by `count (old-1)(new-old) / (2 old new)` under the re-centring of line 23 |
| `GraphEngine.ZoomKeepsMidpointIff` | SmartMeter/PowerGraphEngine.swift:22-23 | the re-centring keeps the window's middle if and only if the old scale is 1 or the scale does not change |
| `GraphEngine.CentredOffset` | SmartMeter/PowerGraphEngine.swift:22 | the offset that centres the graph after scaling, as the comment asks, keeps the window's middle for every pair of non-zero scales. It is a reference for the formula on line 23, which `ZoomKeepsMidpointIff` shows matches it only from scale 1 |
| `GraphEngine.ZoomDriftExample` | SmartMeter/PowerGraphEngine.swift:19-32 | 100 samples at scale 2 and offset 0, zoomed to 4, store offset 25. The middle moves from 25 to 37.5 |
| `GraphEngine.HistoryIndexAtMostCount` | SmartMeter/PowerGraphEngine.swift:44-53 | in a clamped state, every visible position `0 <= x < graphViewgetSampleCount()` reads an index between 0 and `history.count` inclusive |
| `GraphEngine.HistoryIndexPastEndExample` | SmartMeter/PowerGraphEngine.swift:27-53 | 9 samples at scale 2, panned fully right: the last visible position reads index 9, one past the end |
| `GraphEngine.PowerGraphEngine.constructor` | SmartMeter/PowerGraphEngine.swift:13-34 | a new engine reads the given history, with `scaleX = 1`, `offsetX = 0`, `maxY = 2000` |
| `GraphEngine.PowerGraphEngine.NumVisibleSamples` | SmartMeter/PowerGraphEngine.swift:36-38 | at scale >= 1 the window width lies between 0 and `history.count` |
| `GraphEngine.PowerGraphEngine.RightPadding` | SmartMeter/PowerGraphEngine.swift:40-42 | the padding is negative exactly when the window runs past the end of the history |
| `GraphEngine.PowerGraphEngine.GraphViewGetSampleCount` | SmartMeter/PowerGraphEngine.swift:44-47 | the count is `VisibleSampleCount` of the history size and the current scale. It is never above `history.count`. At scale >= 1 it is non-negative and is the rounded window width |
| `GraphEngine.PowerGraphEngine.GraphViewGetSample` | SmartMeter/PowerGraphEngine.swift:49-53 | the lookup reads absolute index `x + round(offsetX)`. With block size 1 it uses the plain lookup: a sample exists exactly when the index is below `history.count`, and it carries `history.data` at that index. Any other block size asks the resampled lookup for the same index |
| `GraphEngine.PowerGraphEngine.GraphViewGetMaxY` | SmartMeter/PowerGraphEngine.swift:55-57 | returns `maxY` as stored |
| `GraphEngine.PowerGraphEngine.SetOffsetX` | SmartMeter/PowerGraphEngine.swift:27-32 | assigning `offsetX` stores `ClampedOffset` of the request. It keeps `scaleX >= 1` and `offsetX >= 0`, leaves right padding >= 0, and changes neither `scaleX`, `maxY` nor the history |
| `GraphEngine.PowerGraphEngine.SetScaleX` | SmartMeter/PowerGraphEngine.swift:19-25 | assigning `scaleX` (request non-zero) stores `ClampedScale` of the request. The offset becomes `ClampedOffset` of `ZoomedOffset` from the old scale and offset to the new scale. Right padding stays >= 0, and `maxY` and the history are unchanged |
| `GraphEngine.PowerGraphEngine.SetMaxY` | SmartMeter/PowerGraphEngine.swift:34 | `maxY` is stored with no clamp, and the viewport is unchanged |
| `Profile.StepChanges` | SmartMeter/PowerMeter.swift:79-115 | one callback appends at most one reading, only at the end of `v` outside the header, and that reading is the parsed `input`. It changes `startts` only at the end of `startts` inside the header, to the parsed value. Only `header` elements change the header flag. `input` only grows by character data or is cleared |
| `Profile.RunOnlyAppends` | SmartMeter/PowerMeter.swift:104-107 | over any sequence of callbacks the old readings stay a prefix of the new ones |
| `Profile.HeaderKeepsReadings` | SmartMeter/PowerMeter.swift:101-107 | inside the header, until `header` ends, the readings do not change |
| `Profile.TextAccumulates` | SmartMeter/PowerMeter.swift:79-81 | character data split over several callbacks ends up concatenated in `input`, and nothing else changes |
| `Profile.ValueElement` | SmartMeter/PowerMeter.swift:92-107 | `<v>` text `</v>` outside the header appends the parsed text, or nothing when it does not parse. `input` then holds the text, and nothing else changes |
| `Profile.ValueElementAppends` | SmartMeter/PowerMeter.swift:92-107 | outside the header, start(`v`), characters(s), end(`v`) with `s` parsing as `n` extend `v` by exactly `[n]` |
| `Profile.StartTimeElement` | SmartMeter/PowerMeter.swift:92-111 | inside the header, `<startts>`text`</startts>` sets `startts` to the parsed text, or keeps it when the text does not parse. `input` is left holding the text, and `v` and the header flag are unchanged |
| `Profile.HeaderStartTime` | SmartMeter/PowerMeter.swift:92-111 | a header holding `startts` text, with any character data before and after it (such as indentation), sets `startts` to the parsed value, or keeps it when the text does not parse. It leaves `v` unchanged and ends outside the header |
| `Profile.OtherElement` | SmartMeter/PowerMeter.swift:92-115 | any other element outside the header changes neither `v`, `startts` nor the flag. Its end clears `input`, except `startts`, whose end does nothing there |
| `Profile.BodyCollectsReadings` | SmartMeter/PowerMeter.swift:92-115 | over a body outside the header, `v` gains exactly the parseable `<v>` values, in document order. The body may mix `<v>` elements, other text-only elements, character data between elements, and starts and ends of enclosing elements. `startts` is unchanged and the parser stays outside the header |
| `Profile.DocumentCollectsReadings` | SmartMeter/PowerMeter.swift:92-115 | over a whole response (body items before the header, such as the root's start, then the header with its `startts` and any character data around it, then body items up to the root's end), `v` gains exactly the parseable `<v>` values outside the header, in document order. `startts` becomes the header's parsed value, or stays when it does not parse, and the parser ends outside the header |
| `Profile.AnyHeaderCollectsReadings` | SmartMeter/PowerMeter.swift:101-107 | whatever the header holds (any elements, `v` among them, and any character data, as long as nothing ends the header early), `v` gains over a response exactly the parseable `<v>` values outside the header, in document order, and the parser ends outside the header |
| `Profile.PowerProfile.constructor` | SmartMeter/PowerMeter.swift:39-77 | a new delegate has no readings, `startts = 0` (defaults at lines 39-40), empty `input` and is outside the header (defaults at lines 76-77) |
| `Profile.PowerProfile.FoundCharacters` | SmartMeter/PowerMeter.swift:79-81 | appends the text to `input` and changes no other field |
| `Profile.PowerProfile.DidStartElement` | SmartMeter/PowerMeter.swift:92-99 | `header` sets `inHeader` and keeps `input`. Any other element clears `input` and changes nothing else |
| `Profile.PowerProfile.DidEndElement` | SmartMeter/PowerMeter.swift:101-115 | `header` clears `inHeader` and nothing else; it keeps `input`. `v` outside the header appends the parsed `input` when it parses; otherwise, or inside the header, `v` is unchanged. `startts` inside the header with parseable `input` overwrites `startts`. Both keep the other fields. Any other element clears `input` only |

## Left out

- `PowerMeter.History` itself (`add`, `prepend`, `purge`, `size`, resampling) is not part of this model. Its source is not among the modelled files, and the engine only reads it. Only its count and plain lookup are modelled.
- GraphEngine.PowerGraphEngine.GraphViewGetSample: for a block size other than 1 it only states which index and block size the resampled lookup is asked for. That lookup is a parameter because its implementation is not part of this model.
- Floating point: `real` has no rounding error, no infinity and no NaN. So `SetScaleX` requires a non-zero request: at zero, Swift's `Int(round(count / 0))` traps. Overflow of `Int(round(x))` for huge values is not modelled either.
- `PowerProfile.parse`, `NSXMLParser`, the `dispatch_async` hand-offs, `complete(success:)` and the end-of-document and error callbacks (SmartMeter/PowerMeter.swift:52-74, 83-90). They are the foreign parser and thread hand-off. The callbacks arrive here as a sequence of `Event`s.
- `NSNumberFormatter().numberFromString(...)?.integerValue` is the abstract `parseInt` function. Its locale-dependent parsing is not modelled.
- `foundCharacters` force-unwraps its optional string, which traps on nil. The model's handler takes a plain string.
- `readCurrentWattage` is HTTP I/O. `select` only prints.
- The drawing code, gesture handling and view controllers (`GraphView`, `AxesDrawer`, `GraphViewController`, `WattageViewController`, the table views) are UI. The gestures appear only as assignments to `scaleX`, `offsetX` and `maxY`.
