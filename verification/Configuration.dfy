/**
 * The tag and aggregation editor: a value per tag, a list of aggregations
 * (a type and a set of ticked tags) edited by add, change, remove and tag
 * toggles, and the text of each aggregation tile.
 */
module Configuration {

  const TagNames: seq<string> := ["tag1", "tag2", "tag3", "tag4"]
  const AggregationTypes: seq<string> := ["sum", "avg", "min", "max"]
  const DefaultTagValue: string := "0"

  /** What an aggregation tile shows when no tag is ticked. */
  const NoTagsText: string := "Brak tagów"

  datatype Aggregation = Aggregation(aggType: string, tags: seq<string>)

  /** The entry the add button appends. */
  const NewAggregation: Aggregation := Aggregation("sum", [])

  // ---------------------------------------------------------------------------
  // Tag values
  // ---------------------------------------------------------------------------

  /** Every tag starts at "0". */
  function InitialTagValues(): (m: map<string, string>)
    ensures m.Keys == set t | t in TagNames
    ensures forall t :: t in m ==> m[t] == DefaultTagValue
  {
    map["tag1" := DefaultTagValue, "tag2" := DefaultTagValue,
        "tag3" := DefaultTagValue, "tag4" := DefaultTagValue]
  }

  /** Setting one tag's value: that key takes the value, every other key keeps its own. */
  function WithTagValue(values: map<string, string>, tag: string, value: string): (r: map<string, string>)
    ensures r.Keys == values.Keys + {tag}
    ensures r[tag] == value
    ensures forall k :: k in values && k != tag ==> r[k] == values[k]
  {
    values[tag := value]
  }

  /** Editing one of the four tags keeps the set of keys the editor started with. */
  lemma TagKeysStable(values: map<string, string>, tag: string, value: string)
    requires values.Keys == InitialTagValues().Keys && tag in TagNames
    ensures WithTagValue(values, tag, value).Keys == InitialTagValues().Keys
  {
  }

  // ---------------------------------------------------------------------------
  // The aggregation list
  // ---------------------------------------------------------------------------

  /** Adding: exactly one new entry at the end, the earlier ones untouched. */
  function WithAggregationAdded(aggs: seq<Aggregation>): (r: seq<Aggregation>)
    ensures |r| == |aggs| + 1
    ensures r[..|aggs|] == aggs && r[|aggs|] == NewAggregation
  {
    aggs + [NewAggregation]
  }

  /**
   * Keeps every element whose position differs from `index`, in order. An
   * index that names no element leaves the list as it is.
   */
  function RemoveAt<T>(s: seq<T>, index: int): (r: seq<T>)
    ensures 0 <= index < |s| ==>
      && |r| == |s| - 1
      && (forall k :: 0 <= k < index ==> r[k] == s[k])
      && (forall k :: index <= k < |r| ==> r[k] == s[k + 1])
    ensures !(0 <= index < |s|) ==> r == s
    decreases |s|
  {
    if s == [] then []
    else RemoveAt(s[..|s| - 1], index) + (if index == |s| - 1 then [] else [s[|s| - 1]])
  }

  /** Adding an aggregation and then removing the last one gives back the list. */
  lemma AddThenRemoveLast(aggs: seq<Aggregation>)
    ensures RemoveAt(WithAggregationAdded(aggs), |aggs|) == aggs
  {
  }

  // ---------------------------------------------------------------------------
  // Ticking and unticking a tag
  // ---------------------------------------------------------------------------

  /** The tags with every occurrence of `tag` removed, the rest in order. */
  function Without(tags: seq<string>, tag: string): (r: seq<string>)
    ensures multiset(r) == multiset(tags)[tag := 0]
    ensures forall t :: t in r <==> t in tags && t != tag
    decreases |tags|
  {
    if tags == [] then []
    else
      assert tags == tags[..|tags| - 1] + [tags[|tags| - 1]];
      Without(tags[..|tags| - 1], tag) + (if tags[|tags| - 1] == tag then [] else [tags[|tags| - 1]])
  }

  /** Unticking works element by element, so the surviving tags keep their order. */
  lemma {:induction false} WithoutConcat(a: seq<string>, b: seq<string>, tag: string)
    ensures Without(a + b, tag) == Without(a, tag) + Without(b, tag)
    decreases |b|
  {
    if b == [] {
      assert a + b == a;
    } else {
      var b' := b[..|b| - 1];
      assert (a + b)[..|a + b| - 1] == a + b';
      assert (a + b)[|a + b| - 1] == b[|b| - 1];
      WithoutConcat(a, b', tag);
    }
  }

  /** The aggregation after its checkbox for `tag` is set to `checked`. */
  function Toggled(agg: Aggregation, tag: string, checked: bool): (r: Aggregation)
    ensures r.aggType == agg.aggType
    ensures checked ==> r.tags == agg.tags + [tag]
    ensures !checked ==> tag !in r.tags && multiset(r.tags) == multiset(agg.tags)[tag := 0]
  {
    agg.(tags := if checked then agg.tags + [tag] else Without(agg.tags, tag))
  }

  lemma {:induction false} WithoutAbsent(tags: seq<string>, tag: string)
    requires tag !in tags
    ensures Without(tags, tag) == tags
    decreases |tags|
  {
    if tags != [] {
      WithoutAbsent(tags[..|tags| - 1], tag);
      assert tags[..|tags| - 1] + [tags[|tags| - 1]] == tags;
    }
  }

  /** Ticking a tag that was not ticked and unticking it again restores the aggregation. */
  lemma {:induction false} TickThenUntick(agg: Aggregation, tag: string)
    requires tag !in agg.tags
    ensures Toggled(Toggled(agg, tag, true), tag, false) == agg
  {
    var ticked := agg.tags + [tag];
    assert ticked[..|ticked| - 1] == agg.tags;
    WithoutAbsent(agg.tags, tag);
  }

  // ---------------------------------------------------------------------------
  // Tile text
  // ---------------------------------------------------------------------------

  const Separator: string := ", "

  /** The tags joined with ", " (JavaScript's `join`). */
  function Join(parts: seq<string>): string
    decreases |parts|
  {
    if |parts| == 0 then ""
    else if |parts| == 1 then parts[0]
    else parts[0] + Separator + Join(parts[1..])
  }

  /** The text of an aggregation tile. */
  function TileText(agg: Aggregation): (text: string)
    ensures agg.tags == [] ==> text == NoTagsText
    ensures agg.tags != [] ==> text == Join(agg.tags)
  {
    if |agg.tags| > 0 then Join(agg.tags) else NoTagsText
  }

  /** Cuts a text at every ", " (the inverse of `Join` for comma-free tags). */
  function SplitAtSeparator(s: string): (parts: seq<string>)
    ensures |parts| >= 1
    decreases |s|
  {
    if |s| == 0 then [""]
    else if |s| >= 2 && s[0] == ',' && s[1] == ' ' then [""] + SplitAtSeparator(s[2..])
    else
      var rest := SplitAtSeparator(s[1..]);
      [[s[0]] + rest[0]] + rest[1..]
  }

  predicate CommaFree(t: string) {
    ',' !in t
  }

  lemma {:induction false} SplitCommaFree(t: string)
    requires CommaFree(t)
    ensures SplitAtSeparator(t) == [t]
    decreases |t|
  {
    if t != [] {
      SplitCommaFree(t[1..]);
      assert [t[0]] + t[1..] == t;
    }
  }

  lemma {:induction false} SplitAfterField(t: string, rest: string)
    requires CommaFree(t)
    ensures SplitAtSeparator(t + Separator + rest) == [t] + SplitAtSeparator(rest)
    decreases |t|
  {
    var s := t + Separator + rest;
    if t == [] {
      assert s == Separator + rest;
      assert s[2..] == rest;
    } else {
      assert s[0] == t[0] && t[0] != ',';
      assert s[1..] == t[1..] + Separator + rest;
      SplitAfterField(t[1..], rest);
      assert [t[0]] + t[1..] == t;
    }
  }

  /** The tile text of ticked, comma-free tags splits back into exactly those tags. */
  lemma {:induction false} TileTextRoundTrip(agg: Aggregation)
    requires agg.tags != []
    requires forall i :: 0 <= i < |agg.tags| ==> CommaFree(agg.tags[i])
    ensures SplitAtSeparator(TileText(agg)) == agg.tags
    decreases |agg.tags|
  {
    var tags := agg.tags;
    if |tags| == 1 {
      SplitCommaFree(tags[0]);
    } else {
      TileTextRoundTrip(agg.(tags := tags[1..]));
      SplitAfterField(tags[0], Join(tags[1..]));
      assert [tags[0]] + tags[1..] == tags;
    }
  }

  /** The four tags the checkboxes offer are comma-free. */
  lemma TagNamesCommaFree()
    ensures forall i :: 0 <= i < |TagNames| ==> CommaFree(TagNames[i])
  {
  }

  /**
   * A tile whose ticked tags all come from the checkboxes, at least one of
   * them, shows a text that splits back into exactly those tags.
   */
  lemma OfferedTagsRoundTrip(agg: Aggregation)
    requires agg.tags != []
    requires forall i :: 0 <= i < |agg.tags| ==> agg.tags[i] in TagNames
    ensures SplitAtSeparator(TileText(agg)) == agg.tags
  {
    TagNamesCommaFree();
    forall i | 0 <= i < |agg.tags|
      ensures CommaFree(agg.tags[i])
    {
      var k :| 0 <= k < |TagNames| && TagNames[k] == agg.tags[i];
    }
    TileTextRoundTrip(agg);
  }

  // ---------------------------------------------------------------------------
  // The editor's state
  // ---------------------------------------------------------------------------

  class ConfigurationEditor {
    var tagValues: map<string, string>
    var aggregations: seq<Aggregation>

    constructor ()
      ensures tagValues == InitialTagValues() && aggregations == []
    {
      tagValues := InitialTagValues();
      aggregations := [];
    }

    method SetTagValue(tag: string, value: string)
      modifies this
      ensures tagValues == WithTagValue(old(tagValues), tag, value)
      ensures aggregations == old(aggregations)
    {
      tagValues := tagValues[tag := value];
    }

    method AddAggregation()
      modifies this
      ensures aggregations == WithAggregationAdded(old(aggregations))
      ensures tagValues == old(tagValues)
    {
      aggregations := aggregations + [NewAggregation];
    }

    /** Copies the list, overwrites one slot of the copy, and stores the copy. */
    method ChangeAggregation(index: nat, updated: Aggregation)
      requires index < |aggregations|
      modifies this
      ensures |aggregations| == |old(aggregations)|
      ensures aggregations == old(aggregations)[index := updated]
      ensures tagValues == old(tagValues)
    {
      var copy := new Aggregation[|aggregations|](i requires 0 <= i < |aggregations| reads this => aggregations[i]);
      copy[index] := updated;
      aggregations := copy[..];
    }

    method RemoveAggregation(index: int)
      modifies this
      ensures aggregations == RemoveAt(old(aggregations), index)
      ensures tagValues == old(tagValues)
    {
      aggregations := RemoveAt(aggregations, index);
    }

    /** The type selector of the aggregation at `index`. */
    method SelectType(index: nat, aggType: string)
      requires index < |aggregations|
      modifies this
      ensures aggregations == old(aggregations)[index := old(aggregations)[index].(aggType := aggType)]
      ensures tagValues == old(tagValues)
    {
      ChangeAggregation(index, aggregations[index].(aggType := aggType));
    }

    /** The checkbox for `tag` in the aggregation at `index`. */
    method ToggleTag(index: nat, tag: string, checked: bool)
      requires index < |aggregations|
      modifies this
      ensures aggregations == old(aggregations)[index := Toggled(old(aggregations)[index], tag, checked)]
      ensures tagValues == old(tagValues)
    {
      var agg := aggregations[index];
      var newTags := if checked then agg.tags + [tag] else Without(agg.tags, tag);
      ChangeAggregation(index, agg.(tags := newTags));
    }
  }
}
