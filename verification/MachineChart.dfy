/**
 * The machine bar chart's axis labels: the default label of each tag,
 * overridden key by key by the labels fetched from the configuration
 * endpoint, and the time-of-day tick text cut out of a timestamp.
 */
module MachineChart {
  import opened Wrappers

  /** tag1..tag4, each labelled with its own name. */
  function DefaultTagLabels(): (m: map<string, string>)
    ensures m.Keys == {"tag1", "tag2", "tag3", "tag4"}
    ensures forall k :: k in m ==> m[k] == k
  {
    map["tag1" := "tag1", "tag2" := "tag2", "tag3" := "tag3", "tag4" := "tag4"]
  }

  /**
   * The outcome of the labels request. `tags` is None when the reply has no
   * `tags` field or it is falsy (then the reply stands for an empty object).
   */
  datatype LabelsReply =
    | RequestFailed
    | Received(tags: Option<map<string, string>>)

  /** The defaults with every fetched key laid over them. */
  function MergedLabels(tags: Option<map<string, string>>): (r: map<string, string>)
    ensures tags.None? ==> r == DefaultTagLabels()
    ensures tags.Some? ==> r.Keys == DefaultTagLabels().Keys + tags.value.Keys
    ensures tags.Some? ==> forall k :: k in tags.value ==> r[k] == tags.value[k]
    ensures tags.Some? ==> forall k :: k in DefaultTagLabels() && k !in tags.value ==> r[k] == k
  {
    var fetched := if tags.Some? then tags.value else map[];
    DefaultTagLabels() + fetched
  }

  /** Every label used for a bar comes from somewhere: the fetched map or the default. */
  lemma MergedLabelsCoverBars(tags: Option<map<string, string>>)
    ensures forall k :: k in DefaultTagLabels() ==> k in MergedLabels(tags)
  {
  }

  // ---------------------------------------------------------------------------
  // Tick text
  // ---------------------------------------------------------------------------

  const TickStart: nat := 11
  const TickEnd: nat := 19

  /** `tick.slice(11, 19)`: the slice bounds are clamped to the length of the text. */
  function TickLabel(tick: string): (r: string)
    ensures |r| <= TickEnd - TickStart
    ensures |tick| <= TickStart ==> r == []
    ensures TickStart < |tick| ==> |r| == (if |tick| < TickEnd then |tick| else TickEnd) - TickStart
    ensures forall k :: 0 <= k < |r| ==> r[k] == tick[TickStart + k]
  {
    if |tick| <= TickStart then []
    else if |tick| < TickEnd then tick[TickStart..]
    else tick[TickStart..TickEnd]
  }

  /**
   * For an ISO timestamp "YYYY-MM-DDTHH:MM:SS…" (ten characters of date, the
   * separator, eight of time, then anything) the tick is the eight-character time.
   */
  lemma TickOfIsoTimestamp(date: string, sep: char, time: string, rest: string)
    requires |date| == 10 && |time| == 8
    ensures TickLabel(date + [sep] + time + rest) == time
  {
    var s := date + [sep] + time + rest;
    assert s[TickStart..TickEnd] == time;
  }

  class MachineChartView {
    var tagLabels: map<string, string>

    constructor ()
      ensures tagLabels == DefaultTagLabels()
    {
      tagLabels := DefaultTagLabels();
    }

    /** The labels effect: a reply merges into the defaults; a failure keeps the current labels. */
    method LabelsFetched(reply: LabelsReply)
      modifies this
      ensures reply.Received? ==> tagLabels == MergedLabels(reply.tags)
      ensures reply.RequestFailed? ==> tagLabels == old(tagLabels)
    {
      match reply {
        case RequestFailed =>
        case Received(tags) =>
          var fetched := if tags.Some? then tags.value else map[];
          tagLabels := DefaultTagLabels() + fetched;
      }
    }
  }
}
