# Production-machine dashboard: view logic

A Dafny model of the deterministic logic inside five React components of a
dashboard that monitors production machines:

- **ErrorChart** (`ErrorChart.dfy`): the error-count bar chart. The selected
  time range becomes a `date_from` lower bound. One error-list request goes
  out per part. Each reply becomes a count. The bars are sorted in place by
  the number written in the part name. The chart width follows the bar count.
- **PartsCounters** (`PartsCounters.dfy`): the inventory-counter tiles. A
  three-way status rule ("BRAK", "MAŁO", "OK") decides the status and the
  colour, with the tile's display conditions. A refresh rule replaces or
  keeps the counters list after each request.
- **Configuration** (`Configuration.dfy`): the tag/aggregation editor. It sets
  tag values, adds, changes and removes aggregations, toggles tags, and
  builds the tile text.
- **MachineChart** (`MachineChart.dfy`): the axis labels. Default labels are
  overridden key by key by fetched labels. A tick is the time of day cut out
  of a timestamp.
- **MachinesList** (`MachinesList.dfy`): the machines list view as a class.
  Its fields are the component's state fields. Its methods are the click
  handlers and the completions of the three requests. A function gives the
  screen that is shown.

`Wrappers.dfy` holds the `Option` and `Result` types.

The network is replaced by abstract replies. A reply is a rejected request,
or an HTTP status with a body that is a JSON array, other JSON, or text
that does not parse. Instants and offsets are whole minutes. Where a
component keeps state, the model is a class whose methods change the same
fields in the same order. Pure expressions are functions, and the
properties are function contracts and lemmas.

No view discards a late reply. A detail reply is stored whatever is
selected when it arrives. After Back and a click on another machine, the
first machine's rows can appear under the second machine's heading
(`MachinesList.StaleDetailShown`).

JavaScript truthiness is kept where the views test it. A selected machine
id of `0` is falsy, so the tile list stays on screen (`CardClick`'s last
ensures). An error message `""` is falsy as well.

## Model

| member | source | states |
|---|---|---|
| `ErrorChart.OffsetMinutes` | src/ErrorChart.jsx:12-20 | each range label has a fixed offset (1m→1, 10m→10, 1h→60, 2h→120, 3h→180, 1d→1440 minutes); every offset is positive and at most a day; any label outside the selector's list falls back to one hour |
| `ErrorChart.TimeOptionsIncreasing` | src/ErrorChart.jsx:75-80 | the default selector lists its windows strictly from the shortest to the longest |
| `ErrorChart.ErrorChartView.ResolveDateFrom` | src/ErrorChart.jsx:9-22 | the lower bound is now minus the selected range's offset, so it is strictly earlier than now |
| `ErrorChart.PartCount` | src/ErrorChart.jsx:36-38 | a non-OK reply counts 0; an OK array body counts its length; other OK JSON counts 0; a rejected request or an unparsable OK body throws |
| `ErrorChart.Tally` | src/ErrorChart.jsx:30-40 | before sorting there is exactly one entry per part, in part order, with that part's name and its reply's count |
| `ErrorChart.DigitsOf` | src/ErrorChart.jsx:44-45 | the result holds only digits and is never longer than the name (which characters survive is stated by the three lemmas below and `DigitsOfConcat`) |
| `ErrorChart.DigitsOfConcat` | src/ErrorChart.jsx:44 | the characters are filtered one by one: the digits of a concatenation are the concatenation of the digits, so their order is kept |
| `ErrorChart.DigitsOfChar` | src/ErrorChart.jsx:44 | a single character is kept when it is a digit and dropped otherwise |
| `ErrorChart.DigitsOfCount` | src/ErrorChart.jsx:44 | every digit of the name survives as often as it occurs and no non-digit survives; with `DigitsOfConcat` and `DigitsOfChar` this is `replace(/\D/g, "")` |
| `ErrorChart.DigitsOfDigitFree` | src/ErrorChart.jsx:44 | nothing is left exactly when the name contains no digit |
| `ErrorChart.SortKey` | src/ErrorChart.jsx:44-45 | the sort key is the value of all the name's digits read as one number, and 0 when there are none |
| `ErrorChart.KeyOfDigitFreeName` | src/ErrorChart.jsx:44-45 | a name without any digit sorts with key 0 |
| `ErrorChart.KeyOfNumberedName` | src/ErrorChart.jsx:44-45 | a prefix with no digit character followed by the decimal text of n has key n ("Part 12" sorts as 12) |
| `ErrorChart.InsertDown` | src/ErrorChart.jsx:43-47 | one insertion step extends the sorted prefix by one entry, keeps the array a permutation and leaves the rest untouched |
| `ErrorChart.SortByPartNumber` | src/ErrorChart.jsx:43-47 | the in-place sort leaves the entries non-decreasing in the key and a permutation of what they were |
| `ErrorChart.ChartWidth` | src/ErrorChart.jsx:63 | the width is max(40 × number of bars, 800) |
| `ErrorChart.ErrorChartView.constructor` | src/ErrorChart.jsx:5-7 | the range starts at "1h", with no data and not loading |
| `ErrorChart.ErrorChartView.SelectTimeRange` | src/ErrorChart.jsx:70 | the selector sets the range and nothing else |
| `ErrorChart.ErrorChartView.FetchData` | src/ErrorChart.jsx:24-56 | missing or empty parts: no request and no state change; otherwise one request per part carrying its id and the resolved bound; if any part throws the data becomes empty, else it is the per-part entries sorted by key (sorted and a permutation of `Tally`); loading is false afterwards |
| `PartsCounters.StatusText` | src/PartsCountersTiles.jsx:43-47 | "BRAK" exactly when empty, whatever the counter; "MAŁO" exactly when not empty and counter is -1; "OK" in every other case, including 0 and other negative counters |
| `PartsCounters.TileColor` | src/PartsCountersTiles.jsx:37-41 | red exactly for "BRAK", orange exactly for "MAŁO", green exactly for "OK" |
| `PartsCounters.RenderTile` | src/PartsCountersTiles.jsx:62-99 | a tile shows name, colour and status; the number exactly when counter > 0; the "niski stan" note exactly when counter is -1, even on an empty ("BRAK") tile |
| `PartsCounters.CountAndLowNoteExclusive` | src/PartsCountersTiles.jsx:88-98 | the number and the low note never appear together, and a zero counter shows neither |
| `PartsCounters.NextCounters` | src/PartsCountersTiles.jsx:17-26 | an OK array body replaces the list; an OK non-array JSON body empties it; a non-OK reply, a rejected request or an unparsable body keeps it |
| `PartsCounters.NextCountersIdempotent` | src/PartsCountersTiles.jsx:17-26 | applying the same reply twice gives what applying it once gives |
| `PartsCounters.CountersView.constructor` | src/PartsCountersTiles.jsx:11-12 | no counters and not loading at first |
| `PartsCounters.CountersView.StartFetch` | src/PartsCountersTiles.jsx:14-15 | a refresh raises loading and keeps the list until its reply arrives |
| `PartsCounters.CountersView.CountersArrived` | src/PartsCountersTiles.jsx:16-29 | the list becomes `NextCounters` of the old list, and loading is false after every outcome (success, non-OK, bad body, rejection) |
| `Configuration.InitialTagValues` | src/Configuration.jsx:8-13 | the keys are tag1..tag4 and each value is "0" |
| `Configuration.WithTagValue` | src/Configuration.jsx:17-22 | the edited key takes the value; every other key keeps its value; no other key appears |
| `Configuration.TagKeysStable` | src/Configuration.jsx:44-53 | editing one of the four tag inputs keeps the key set tag1..tag4 |
| `Configuration.WithAggregationAdded` | src/Configuration.jsx:24-26 | exactly one `{sum, []}` entry is appended and the earlier entries are unchanged |
| `Configuration.RemoveAt` | src/Configuration.jsx:34-36 | a valid index drops exactly that element and keeps the others in order; any other index leaves the list unchanged |
| `Configuration.AddThenRemoveLast` | src/Configuration.jsx:24-36 | adding and then removing the last index restores the list |
| `Configuration.Without` | src/Configuration.jsx:84 | unticking removes every occurrence of the tag and keeps every other tag with its multiplicity |
| `Configuration.WithoutConcat` | src/Configuration.jsx:84 | unticking works element by element: on a concatenation it is the concatenation of the two results, so the surviving tags keep their order |
| `Configuration.Toggled` | src/Configuration.jsx:81-85 | the type is kept; ticking appends the tag; unticking removes all its occurrences |
| `Configuration.WithoutAbsent` | src/Configuration.jsx:84 | unticking a tag that is not there changes nothing |
| `Configuration.TickThenUntick` | src/Configuration.jsx:81-85 | ticking an unticked tag and unticking it again restores the aggregation |
| `Configuration.TileText` | src/Configuration.jsx:109 | "Brak tagów" when no tag is ticked, otherwise the tags joined with ", " |
| `Configuration.TileTextRoundTrip` | src/Configuration.jsx:109 | splitting the tile text of comma-free tags at ", " gives back exactly the tags |
| `Configuration.TagNamesCommaFree` | src/Configuration.jsx:4 | the four offered tags contain no comma |
| `Configuration.OfferedTagsRoundTrip` | src/Configuration.jsx:76-86 | a non-empty tile whose tags all come from the four checkboxes splits back at ", " into exactly those tags (an empty tile shows "Brak tagów", which does not split back to no tags) |
| `Configuration.ConfigurationEditor.constructor` | src/Configuration.jsx:8-15 | tag1..tag4 at "0" and no aggregations |
| `Configuration.ConfigurationEditor.SetTagValue` | src/Configuration.jsx:17-22 | only the edited tag's value changes; aggregations are untouched |
| `Configuration.ConfigurationEditor.AddAggregation` | src/Configuration.jsx:24-26 | the list becomes `WithAggregationAdded` of the old one |
| `Configuration.ConfigurationEditor.ChangeAggregation` | src/Configuration.jsx:28-32 | only position i is replaced and the length is unchanged |
| `Configuration.ConfigurationEditor.RemoveAggregation` | src/Configuration.jsx:34-36 | the list becomes `RemoveAt` of the old one at that index |
| `Configuration.ConfigurationEditor.SelectType` | src/Configuration.jsx:62-66 | only the type of the aggregation at i changes |
| `Configuration.ConfigurationEditor.ToggleTag` | src/Configuration.jsx:79-86 | only the aggregation at i changes, to its `Toggled` form |
| `MachineChart.DefaultTagLabels` | src/MachineChart.jsx:7-12 | tag1..tag4, each labelled with its own name |
| `MachineChart.MergedLabels` | src/MachineChart.jsx:20-22 | every fetched key overrides the default and fetched keys outside the defaults are kept; default keys absent from the fetched map keep their default; a missing or falsy `tags` gives exactly the defaults |
| `MachineChart.MergedLabelsCoverBars` | src/MachineChart.jsx:39-42 | each of the four bars has a label after a merge |
| `MachineChart.TickLabel` | src/MachineChart.jsx:35 | the tick is characters 11 to 18 of the timestamp with the slice clamped to its length: at most 8 characters, empty for a text of 11 characters or fewer |
| `MachineChart.TickOfIsoTimestamp` | src/MachineChart.jsx:35 | for "YYYY-MM-DDTHH:MM:SS…" the tick is exactly "HH:MM:SS" |
| `MachineChart.MachineChartView.constructor` | src/MachineChart.jsx:15 | labels start as the defaults |
| `MachineChart.MachineChartView.LabelsFetched` | src/MachineChart.jsx:17-28 | a reply sets the labels to the defaults merged with the fetched tags; a failed request leaves them unchanged |
| `MachinesList.Settle` | src/MachinesList.jsx:22-26 | a rejected request keeps its message; a non-success status rejects with the request's own message; a success status yields the parsed body or the parse error |
| `MachinesList.MachinesListView.constructor` | src/MachinesList.jsx:5-18 | loading at first; no machines, no error, nothing selected, no data, all-data mode off |
| `MachinesList.MachinesListView.LoadMachines` | src/MachinesList.jsx:20-22 | loading is raised and the company's machines are requested; nothing else changes |
| `MachinesList.MachinesListView.MachinesLoaded` | src/MachinesList.jsx:22-34 | success stores the machines, failure stores the message; loading is cleared either way |
| `MachinesList.MachinesListView.CardClick` | src/MachinesList.jsx:37-43 | the id is selected, all-data mode is off, detail loading is set and the detail error cleared; the detail view then shows "loading" under that machine's heading, unless the id is 0 |
| `MachinesList.MachinesListView.AllDataClick` | src/MachinesList.jsx:61-67 | the selection is cleared, all-data mode is on, detail loading is set and the detail error cleared |
| `MachinesList.MachinesListView.MachineDataLoaded` | src/MachinesList.jsx:43-58 | success stores the data and clears loading; failure empties the data, stores the message and clears loading; selection and mode are not consulted |
| `MachinesList.MachinesListView.BackClick` | src/MachinesList.jsx:85-90 | selection, all-data mode, data and error are cleared; detail loading is left as it was; the tile list is shown |
| `MachinesList.MachinesListView.DetailContent` | src/MachinesList.jsx:107-113 | inside the detail view: loading, then error, then "Brak danych" for empty data, then the table |
| `MachinesList.MachinesListView.CurrentScreen` | src/MachinesList.jsx:92-106 | loading, then error, then the detail view only if the selected id is truthy or all-data mode is on, then the tile list; the heading names all machines or the selected id |
| `MachinesList.StaleDetailShown` | src/MachinesList.jsx:49-58 | for any two distinct non-zero machine ids, after a card click, Back and a second card click, the reply to the first click arriving last is displayed under the second machine's heading |

Every method of `MachinesListView` keeps `Valid()`: a machine is never
selected while all-data mode is on.

## Left out

- No component tags a request so that a late reply can be recognised and dropped; the model has nothing of the kind either.
- `ErrorChart.SortByPartNumber`: does not state stability. JavaScript's sort keeps entries with equal keys in their order; the insertion sort does so too, but no contract states it.
- `ErrorChart.SortKey`: `parseInt` loses precision past 2^53 on very long digit strings; the key is an unbounded natural number.
- `ErrorChart.ErrorChartView.ResolveDateFrom`: the source's `setMinutes`, `setHours` and `setDate` (src/ErrorChart.jsx:13-19) work in local time for every label, not only "1d". Around a daylight-saving change the bound can be off by the shift: in a skipped hour, "1h" may give a bound equal to now and "1m" one after now. Instants are plain minutes here, so "strictly earlier than now" holds in that model only. `toISOString` formatting is not modelled.
- The `timeOptions` prop of the chart, which may replace the default option list, is not modelled; any label is accepted and unknown ones fall back to one hour.
- `fetch`, `axios`, `Promise.all` concurrency, React effects and the 3-second `setInterval` polling are replaced by a caller that invokes the methods with abstract replies. Within one chart refresh the per-part requests run concurrently; the model processes them in list order, and `Promise.all` makes the result independent of arrival order.
- Overlapping refreshes are not modelled. A counters poll slower than the 3-second interval, or a range change during a chart fetch, leaves two requests in flight. In the source the last reply to land wins even if it answers the older request, and `loading` drops to false when the first one finishes. The model runs each refresh to completion before the next starts.
- `Configuration.ConfigurationEditor.ChangeAggregation`: an index past the end is excluded. JavaScript would extend the copy with holes, but every caller passes the index of an existing entry.
- The tag-value tiles (`Object.entries` in insertion order) are not modelled.
- `Configuration.ConfigurationEditor.ToggleTag`: accepts any tag, while the source's checkboxes pass only tag1..tag4; `OfferedTagsRoundTrip` states the round trip for those four.
- `MachineChart.MergedLabels`: a truthy `tags` that is not an object is not modelled (a string would spread into index keys); label values are taken as strings.
- A successful reply whose body is not an array is not modelled, for the machines list and for the detail data. The source stores it as it is (src/MachinesList.jsx:28, :50, :74), and rendering then throws on `.map` (src/MachinesList.jsx:156 for the machines, :133 for the rows). Bodies are lists of machines or rows here. The row cells ("Tak"/"Nie" and the other columns) are not modelled.
- Console logging, CSS, inline styles and the recharts rendering.
- src/Login.jsx, src/ErrorDetails.jsx, src/MachineErrors.jsx, src/MachineTable.jsx, src/DateFilter.jsx, src/TopActions.jsx, src/MachineCard.jsx and src/App.js are not part of this model. They are authentication, thin fetch-and-render wrappers or pure markup.
