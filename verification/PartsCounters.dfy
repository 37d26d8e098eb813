/**
 * The inventory-counter tiles: one tile per counter, coloured and labelled
 * by a three-way status rule, and a refresh that replaces or keeps the list
 * of counters after each request.
 */
module PartsCounters {

  /** One inventory counter. `counter == -1` is the "low" sentinel. */
  datatype Counter = Counter(partId: int, name: string, counter: int, isEmpty: bool)

  // ---------------------------------------------------------------------------
  // Status, colour and what a tile shows
  // ---------------------------------------------------------------------------

  const LowSentinel: int := -1

  const StatusEmpty: string := "BRAK"
  const StatusLow: string := "MAŁO"
  const StatusOk: string := "OK"

  const Red: string := "#e63946"
  const Orange: string := "#f4a261"
  const Green: string := "#2a9d8f"

  /** The status word of a tile: being empty wins over the low sentinel. */
  function StatusText(c: Counter): (s: string)
    ensures s == StatusEmpty <==> c.isEmpty
    ensures s == StatusLow <==> !c.isEmpty && c.counter == LowSentinel
    ensures s == StatusOk <==> !c.isEmpty && c.counter != LowSentinel
  {
    if c.isEmpty then StatusEmpty
    else if c.counter == LowSentinel then StatusLow
    else StatusOk
  }

  /** The background colour of a tile, decided by the same two tests in the same order. */
  function TileColor(c: Counter): (col: string)
    ensures col == Red <==> StatusText(c) == StatusEmpty
    ensures col == Orange <==> StatusText(c) == StatusLow
    ensures col == Green <==> StatusText(c) == StatusOk
  {
    if c.isEmpty then Red
    else if c.counter == LowSentinel then Orange
    else Green
  }

  /** Everything one tile displays. */
  datatype Tile = Tile(
    name: string,
    color: string,
    status: string,
    shownCount: int,   // meaningful only when `countShown`
    countShown: bool,
    lowNote: bool)     // the "niski stan" line

  /** The tile of one counter. */
  function RenderTile(c: Counter): (t: Tile)
    ensures t.name == c.name && t.color == TileColor(c) && t.status == StatusText(c)
    ensures t.countShown <==> c.counter > 0
    ensures t.countShown ==> t.shownCount == c.counter
    ensures t.lowNote <==> c.counter == LowSentinel
    ensures c.isEmpty && c.counter == LowSentinel ==> t.status == StatusEmpty && t.lowNote
  {
    Tile(c.name, TileColor(c), StatusText(c), c.counter, c.counter > 0, c.counter == LowSentinel)
  }

  /** The count is shown only for a positive counter, and never together with the low note. */
  lemma CountAndLowNoteExclusive(c: Counter)
    ensures !(RenderTile(c).countShown && RenderTile(c).lowNote)
    ensures c.counter == 0 ==> !RenderTile(c).countShown && !RenderTile(c).lowNote
  {
  }

  // ---------------------------------------------------------------------------
  // Refresh
  // ---------------------------------------------------------------------------

  /** The body of the counters reply. */
  datatype Body =
    | CounterArray(items: seq<Counter>)  // a JSON array
    | JsonOther                          // any other JSON value
    | NotJson                            // a body that does not parse: reading it throws

  datatype Reply =
    | NetworkFailure
    | Response(ok: bool, body: Body)

  /** The counters list after one request, given the list before it. */
  function NextCounters(prev: seq<Counter>, r: Reply): (next: seq<Counter>)
    ensures r.Response? && r.ok && r.body.CounterArray? ==> next == r.body.items
    ensures r.Response? && r.ok && r.body.JsonOther? ==> next == []
    ensures r.NetworkFailure? || !r.ok || r.body.NotJson? ==> next == prev
  {
    match r
    case NetworkFailure => prev
    case Response(ok, body) =>
      if !ok then prev
      else match body
        case CounterArray(items) => items
        case JsonOther => []
        case NotJson => prev
  }

  /** Repeating the same reply changes nothing more: the rule replaces or keeps, it never accumulates. */
  lemma NextCountersIdempotent(prev: seq<Counter>, r: Reply)
    ensures NextCounters(NextCounters(prev, r), r) == NextCounters(prev, r)
  {
  }

  class CountersView {
    var counters: seq<Counter>
    var loading: bool

    constructor ()
      ensures counters == [] && !loading
    {
      counters := [];
      loading := false;
    }

    /** A refresh begins: loading is raised and the list is kept until the reply arrives. */
    method StartFetch()
      modifies this
      ensures loading
      ensures counters == old(counters)
    {
      loading := true;
    }

    /** The reply settles: the list follows the replace-or-keep rule and loading is lowered whatever the outcome. */
    method CountersArrived(r: Reply)
      modifies this
      ensures counters == NextCounters(old(counters), r)
      ensures !loading
    {
      match r {
        case NetworkFailure =>
        case Response(ok, body) =>
          if ok {
            match body {
              case CounterArray(items) => counters := items;
              case JsonOther => counters := [];
              case NotJson =>
            }
          }
      }
      loading := false;
    }
  }
}
