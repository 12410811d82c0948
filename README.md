# Map explorer page state, in Dafny

A model of the small amount of state logic in a browser map explorer.
The rest of the application is glue over a mapping SDK and a language-model backend.
Three parts are modelled:

- **The measurement tool** of the map page (`src/app/page.tsx`). Clicks
  accumulate into a point list. A click near the first point, once at least
  two points exist, re-appends the first point and closes the shape. The
  displayed distance, the displayed area and the map overlay (points, line,
  segment labels, polygon) are recomputed after every click. Clear and the
  measuring toggle reset the tool. `MeasurementTool` is a class whose
  invariant `Valid()` says that the totals and the overlay are always those
  of the current point list.
- **The page's other toggles**: the saved-places toggle (unsave every place
  with the same name, or append), the bottom-panel selector, and the
  traffic button, which only works on the `standard` and `streets-v12`
  styles. These are pure functions, because the source updates them with
  expressions.
- **The analytics panel's category tally** (`src/components/analytics-panel.tsx`):
  a one-pass group-by-count that keeps first-occurrence order and files
  places with no category under `Uncategorized`. There is also the 6-colour
  palette indexing.
- **The chat panel's send** (`src/components/chat-panel.tsx`). Blank input is
  ignored. Otherwise the user message is appended, the input is cleared,
  loading is switched on, and the chat flow is called with the transcript.
  Exactly one model message (the reply, or a fixed apology) is appended and
  loading is switched off.

The geometry library and the chat backend are parameters.
The library is `Measurement.Turf`: a distance in metres, a line length in
km and a polygon area in m². The backend is a function from the history to
`Replied(text)` or `Failed`. Map points are pairs of integers compared
exactly, as the source compares coordinates with `===`. The closing
threshold `20 * (zoom / 10)` metres and the m²-to-km² divisor are kept.
A place is modelled as a name plus an optional category. These are the only
two fields the modelled logic reads.

Files: `schemas.dfy` (shared data), `measurement.dfy`, `page_state.dfy`,
`analytics.dfy`, `chat.dfy`.

## Model

| member | source | states |
|---|---|---|
| `Measurement.AppendClick` | src/app/page.tsx:208-222 | A click grows the point list by exactly one and keeps the earlier points. With two or more points and the click near the first, the first point is appended again and the shape is closed (more than 2 points, last equals first). Otherwise the raw click is appended, and the first click gives `[click]`. |
| `Measurement.TotalDistance` | src/app/page.tsx:229-259 | The displayed distance is 0 whenever there is at most one point. |
| `Measurement.TotalArea` | src/app/page.tsx:247-259 | The displayed area is non-zero only for a closed shape (more than 2 points, first equals last), and it is 0 with at most one point. |
| `Measurement.OverlayComposition` | src/app/page.tsx:226-252 | The overlay has n point features, one line when n > 1, n − 1 segment labels, and one polygon exactly when the shape is closed. Its size is the sum of these. |
| `Measurement.BuildOverlay` | src/app/page.tsx:226-260 | The step-by-step assembly, including the label loop, yields exactly `Overlay` of the points together with the two displayed totals. |
| `Measurement.MeasurementTool.constructor` | src/app/page.tsx:46-49 | The tool starts not measuring, with no points, zero totals and an empty overlay. |
| `Measurement.MeasurementTool.HandleMapClick` | src/app/page.tsx:204-266 | When not measuring, or with no map, nothing changes. Otherwise the point list becomes `AppendClick` of the old one, using the source's distance-to-first-point test, and the totals and overlay are those of the new list. |
| `Measurement.MeasurementTool.ClearMeasurement` | src/app/page.tsx:287-297 | Clearing empties the points and the overlay, zeroes both totals and keeps the mode. |
| `Measurement.MeasurementTool.ToggleMeasurement` | src/app/page.tsx:309-316 | The toggle flips the measuring flag. It clears everything when switching off and changes nothing else when switching on. |
| `PageState.PanelChange` | src/app/page.tsx:65-71 | The result is no panel exactly when the requested panel is already active, or when null is requested. Otherwise it is the requested panel. |
| `PageState.PanelChangeTwice` | src/app/page.tsx:65-71 | Picking the same panel twice closes the sheet, unless that panel was already open. |
| `PageState.WithoutName` | src/app/page.tsx:77 | After the filter, no place with the name remains and the list is no longer than before. |
| `PageState.WithoutNameConcat` | src/app/page.tsx:77 | The filter distributes over concatenation, so the kept places stay in their order. |
| `PageState.WithoutNameMembers` | src/app/page.tsx:77 | A place survives the filter iff it was in the list and has another name. |
| `PageState.ToggleSaved` | src/app/page.tsx:73-82 | The saved status of the name flips (a place is saved iff one with its name is in the list). Places with other names are kept in order. An unsaved place is appended at the end, and a saved name loses at least one entry. |
| `PageState.ToggleSavedTwice` | src/app/page.tsx:73-82 | Toggling an unsaved place twice restores the list. Toggling a saved one twice leaves the others followed by one copy of the place. |
| `PageState.ToggleTraffic` | src/app/page.tsx:299-307 | The switch flips iff the style is `standard` or `streets-v12`. Otherwise it stays, and only a notice is shown. |
| `PageState.ToggleTrafficTwice` | src/app/page.tsx:299-307 | Pressing the traffic button twice on one style restores the switch. |
| `Analytics.CategoryOf` | src/components/analytics-panel.tsx:21 | The bucket is never empty. A missing or empty category gives `Uncategorized`, and any other category is used as is. |
| `Analytics.FindEntry` | src/components/analytics-panel.tsx:22 | The result is the position of the first entry with the name, or none when no entry has it. |
| `Analytics.CountPlace` | src/components/analytics-panel.tsx:20-28 | The reducer step increments the bucket's entry, or appends `{name, 1}`. |
| `Analytics.TallyCorrect` | src/components/analytics-panel.tsx:20-29 | The tally has distinct names, exactly one per bucket that occurs. Each count equals the number of places in the bucket, the entries follow first-occurrence order, and the counts sum to the number of places. |
| `Analytics.CategoryTally` | src/components/analytics-panel.tsx:20-29 | The one-pass loop computes `Tally`. Its result has distinct names and one entry per occurring bucket, each with the occurrence count and at least 1. Entries are in first-occurrence order, the counts sum to the number of places, and the result is empty iff there are no places (the no-data message, lines 40 and 64-66). |
| `Analytics.CellColor` | src/components/analytics-panel.tsx:56 | The colour of cell i is always one of the six palette entries (line 17). The first six cells get them in order. |
| `Analytics.CellColorRepeats` | src/components/analytics-panel.tsx:56 | The palette repeats every six cells. |
| `Chat.LeadingWhitespace` | src/components/chat-panel.tsx:20 | This counts the white-space prefix: all of it is white space, and the next character is not. |
| `Chat.TrailingWhitespace` | src/components/chat-panel.tsx:20 | This counts the white-space suffix: all of it is white space, and the character before it is not. |
| `Chat.Trim` | src/components/chat-panel.tsx:20 | `trim()` is empty iff the input is all white space. Otherwise it starts and ends with a visible character. |
| `Chat.ChatPanel.constructor` | src/components/chat-panel.tsx:14-16 | The panel starts with an empty transcript, empty input and not loading. |
| `Chat.ChatPanel.SetInput` | src/components/chat-panel.tsx:75 | Typing sets the input and leaves the transcript and loading flag alone. |
| `Chat.ChatPanel.BeginSend` | src/components/chat-panel.tsx:19-26 | Blank input changes nothing and sends no history. Otherwise a user message with exactly the input text is appended, the input is cleared, loading is switched on, and the history sent is the old transcript plus that message. |
| `Chat.ChatPanel.CompleteSend` | src/components/chat-panel.tsx:28-38 | Exactly one model message is appended: the reply, or the apology on failure. Loading is off afterwards in both cases. |
| `Chat.ChatPanel.HandleSend` | src/components/chat-panel.tsx:19-39 | For blank input nothing changes and the flow is not called. Otherwise the flow gets the old transcript plus the user message. The transcript becomes that history plus one model message, the input is empty, and loading is off. Earlier messages are never changed. |

## Left out

- Mapbox map lifecycle (src/app/page.tsx:84-173, 175-192, 268-285): map creation, terrain, sources and layers, cursor changes, click registration and the place-marker data are SDK calls with no domain logic.
- Measurement.MeasurementTool.HandleMapClick: the `if (source)` guard around `setData` (src/app/page.tsx:262-265, 291-296) is not modelled. The overlay always stands for the data of the measurement source, which is created at style load.
- Measurement.Turf: distance, length and area are opaque functions. The great-circle and planar-area maths, the midpoint averaging of label positions and the `toFixed(2)` text are floating point inside the library (src/app/page.tsx:213, 234-242, 252). A label carries its segment's endpoints and length instead.
- Measurement.TotalArea: the library's `polygon` refuses rings with fewer than 4 positions. A shape closed after only two points (`[a, b, a]`) passes the page's `> 2` guard and would make that library call throw. The model treats the library as total and follows the guard as written.
- The traffic-layer effect (src/app/page.tsx:195-202) and `setStyle` (59-63) only forward values to the SDK. `ToggleTraffic` models the switch they read.
- `handleExplore` (src/app/page.tsx:318-338), the directions panel, and all AI flows and schemas are network calls or prompt templates sent to an external model.
- The weather flow and weather service are random mock data or an HTTP fetch.
- The style-control, directions-panel and sheet open/close toggles (src/app/page.tsx:343-348, 356) are one-line boolean flips with no rule.
- The presentational components and the static sample data are also left out.
- Asynchrony: each chat call, and each click, completes before the next event is handled. A slow reply landing after a later one (src/components/chat-panel.tsx:31) is a race outside the model. `CompleteSend` therefore appends to the transcript as it stands.
- Chat.ChatPanel.HandleSend: the input and button are disabled while loading (src/components/chat-panel.tsx:79-80). The model does not forbid a send while loading, because sequential completion means loading is always off between sends.
- Place: only `name` and `category` are kept. The source's drafts disagree on the other fields (`location` at src/app/page.tsx:183, `coordinates`/`type` in src/lib/data.ts), and no modelled rule reads them.
- Characters are Dafny `char`s rather than UTF-16 code units. Every code point `trim` removes is a single code unit, so blankness is the same.
- Counts are unbounded naturals. JavaScript numbers are exact far beyond any list length.
