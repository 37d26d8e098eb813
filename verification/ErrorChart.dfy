/**
 * The error-count bar chart: resolving the selected time range to a lower
 * bound, one error-list request per part, reducing each reply to a count,
 * ordering the bars by the number in the part name, and sizing the chart.
 *
 * Instants and offsets are whole minutes; the network is replaced by one
 * abstract reply per part.
 */
module ErrorChart {
  import opened Wrappers

  // ---------------------------------------------------------------------------
  // Time range
  // ---------------------------------------------------------------------------

  const MinutesPerHour: nat := 60
  const MinutesPerDay: nat := 1440

  /** The labels offered by the time-range selector when no options are passed in. */
  const TimeOptions: seq<string> := ["1m", "10m", "1h", "2h", "3h", "1d"]

  /** How far before "now" the window of a range label starts; an unknown label means one hour. */
  function OffsetMinutes(range: string): (m: nat)
    ensures 0 < m <= MinutesPerDay
    ensures range !in TimeOptions ==> m == MinutesPerHour
  {
    if range == "1m" then 1
    else if range == "10m" then 10
    else if range == "1h" then MinutesPerHour
    else if range == "2h" then 2 * MinutesPerHour
    else if range == "3h" then 3 * MinutesPerHour
    else if range == "1d" then MinutesPerDay
    else MinutesPerHour
  }

  /** The selector lists its windows from the shortest to the longest. */
  lemma TimeOptionsIncreasing()
    ensures forall i, j :: 0 <= i < j < |TimeOptions| ==>
      OffsetMinutes(TimeOptions[i]) < OffsetMinutes(TimeOptions[j])
  {
  }

  // ---------------------------------------------------------------------------
  // Replies and per-part counts
  // ---------------------------------------------------------------------------

  /** The body of an HTTP reply, as far as the chart looks at it. */
  datatype Body =
    | JsonArray(length: nat)   // a JSON array with that many elements
    | JsonOther                // any other JSON value
    | NotJson                  // a body that does not parse: reading it throws

  /** What one error-list request yields. */
  datatype Reply =
    | NetworkFailure                  // the request itself rejects
    | Response(ok: bool, body: Body)  // an HTTP reply; `ok` is a 2xx status

  /** The outcome for one part: a number of errors, or an exception. */
  datatype Count = Counted(errors: nat) | Threw

  datatype Part = Part(id: int, name: string)

  /** One bar of the chart. */
  datatype Entry = Entry(partName: string, errors: nat)

  /** One request the chart issues: the part and the `date_from` lower bound. */
  datatype Request = Request(partId: int, dateFrom: int)

  /** The count one reply contributes. */
  function PartCount(r: Reply): (c: Count)
    ensures c.Threw? <==> (r.NetworkFailure? || (r.ok && r.body.NotJson?))
    ensures r.Response? && !r.ok ==> c == Counted(0)
    ensures r.Response? && r.ok && r.body.JsonArray? ==> c == Counted(r.body.length)
    ensures r.Response? && r.ok && r.body.JsonOther? ==> c == Counted(0)
  {
    match r
    case NetworkFailure => Threw
    case Response(ok, body) =>
      if !ok then Counted(0)
      else match body
        case JsonArray(n) => Counted(n)
        case JsonOther => Counted(0)
        case NotJson => Threw
  }

  predicate AnyThrows(replies: seq<Reply>) {
    exists i :: 0 <= i < |replies| && PartCount(replies[i]).Threw?
  }

  /** The entries before sorting: one per part, in part order. */
  function Tally(parts: seq<Part>, replies: seq<Reply>): (r: seq<Entry>)
    requires |replies| == |parts| && !AnyThrows(replies)
    ensures |r| == |parts|
    ensures forall i :: 0 <= i < |r| ==>
      r[i].partName == parts[i].name && Counted(r[i].errors) == PartCount(replies[i])
    decreases |parts|
  {
    if parts == [] then []
    else
      assert PartCount(replies[0]).Counted?;
      [Entry(parts[0].name, PartCount(replies[0]).errors)] + Tally(parts[1..], replies[1..])
  }

  // ---------------------------------------------------------------------------
  // Sort key: the number written in the part name
  // ---------------------------------------------------------------------------

  predicate IsDigit(c: char) {
    '0' <= c <= '9'
  }

  /** The digits of `s`, in order (the name with every non-digit removed). */
  function DigitsOf(s: string): (ds: string)
    ensures forall i :: 0 <= i < |ds| ==> IsDigit(ds[i])
    ensures |ds| <= |s|
  {
    if s == [] then []
    else DigitsOf(s[..|s| - 1]) + (if IsDigit(s[|s| - 1]) then [s[|s| - 1]] else [])
  }

  function DigitValue(c: char): nat
    requires IsDigit(c)
  {
    c as int - '0' as int
  }

  /** The base-ten value of a string of digits; the empty string is worth 0. */
  function DecimalValue(ds: string): nat
    requires forall i :: 0 <= i < |ds| ==> IsDigit(ds[i])
  {
    if ds == [] then 0
    else 10 * DecimalValue(ds[..|ds| - 1]) + DigitValue(ds[|ds| - 1])
  }

  /** The comparison key of a part name: its digits read as one number, or 0 without digits. */
  function SortKey(name: string): (k: nat)
    ensures DigitsOf(name) == [] ==> k == 0
  {
    DecimalValue(DigitsOf(name))
  }

  /** The decimal notation of `n`, without leading zeros. */
  function DecimalText(n: nat): (s: string)
    ensures |s| > 0 && forall i :: 0 <= i < |s| ==> IsDigit(s[i])
  {
    if n < 10 then [('0' as int + n) as char]
    else DecimalText(n / 10) + [('0' as int + n % 10) as char]
  }

  lemma {:induction false} DigitsOfConcat(a: string, b: string)
    ensures DigitsOf(a + b) == DigitsOf(a) + DigitsOf(b)
    decreases |b|
  {
    if b == [] {
      assert a + b == a;
    } else {
      var b' := b[..|b| - 1];
      assert (a + b)[..|a + b| - 1] == a + b';
      assert (a + b)[|a + b| - 1] == b[|b| - 1];
      DigitsOfConcat(a, b');
    }
  }

  /** Each character by itself: a digit is kept, anything else is dropped. */
  lemma DigitsOfChar(c: char)
    ensures DigitsOf([c]) == if IsDigit(c) then [c] else []
  {
    assert [c][..0] == [];
  }

  /**
   * Every digit of the name is kept as often as it occurs, and nothing else
   * is: with `DigitsOfConcat`, the result is the name with its non-digits removed.
   */
  lemma {:induction false} DigitsOfCount(s: string)
    ensures forall c :: multiset(DigitsOf(s))[c] == if IsDigit(c) then multiset(s)[c] else 0
    decreases |s|
  {
    if s != [] {
      var init, last := s[..|s| - 1], s[|s| - 1];
      assert s == init + [last];
      DigitsOfCount(init);
    }
  }

  /** A name has no digits to keep exactly when it contains no digit. */
  lemma {:induction false} DigitsOfDigitFree(s: string)
    ensures DigitsOf(s) == [] <==> forall i :: 0 <= i < |s| ==> !IsDigit(s[i])
    decreases |s|
  {
    if s != [] {
      DigitsOfDigitFree(s[..|s| - 1]);
      if DigitsOf(s) == [] {
        forall i | 0 <= i < |s|
          ensures !IsDigit(s[i])
        {
          if i < |s| - 1 {
            assert s[i] == s[..|s| - 1][i];
          }
        }
      }
    }
  }

  /** A name without any digit sorts with key 0. */
  lemma KeyOfDigitFreeName(name: string)
    requires forall i :: 0 <= i < |name| ==> !IsDigit(name[i])
    ensures SortKey(name) == 0
  {
    DigitsOfDigitFree(name);
  }

  lemma {:induction false} DigitsOfDigits(ds: string)
    requires forall i :: 0 <= i < |ds| ==> IsDigit(ds[i])
    ensures DigitsOf(ds) == ds
    decreases |ds|
  {
    if ds != [] {
      DigitsOfDigits(ds[..|ds| - 1]);
      assert ds[..|ds| - 1] + [ds[|ds| - 1]] == ds;
    }
  }

  lemma {:induction false} DecimalRoundTrip(n: nat)
    ensures DecimalValue(DecimalText(n)) == n
  {
    if n >= 10 {
      DecimalRoundTrip(n / 10);
      var s := DecimalText(n);
      assert s[..|s| - 1] == DecimalText(n / 10);
    }
  }

  /**
   * A name made of a digit-free prefix followed by a number is keyed by that
   * number: "Part 12" sorts as 12.
   */
  lemma KeyOfNumberedName(prefix: string, n: nat)
    requires forall i :: 0 <= i < |prefix| ==> !IsDigit(prefix[i])
    ensures SortKey(prefix + DecimalText(n)) == n
  {
    DigitsOfDigitFree(prefix);
    var t := DecimalText(n);
    DigitsOfConcat(prefix, t);
    DigitsOfDigits(t);
    assert DigitsOf(prefix + t) == t;
    DecimalRoundTrip(n);
  }

  // ---------------------------------------------------------------------------
  // In-place sort of the entries
  // ---------------------------------------------------------------------------

  function Key(e: Entry): nat {
    SortKey(e.partName)
  }

  predicate SortedByKey(s: seq<Entry>) {
    forall p, q :: 0 <= p < q < |s| ==> Key(s[p]) <= Key(s[q])
  }

  /** Exchanges two neighbouring entries. */
  method SwapDown(a: array<Entry>, j: int)
    requires 0 < j < a.Length
    modifies a
    ensures a[..] == old(a[..])[j - 1 := old(a[j])][j := old(a[j - 1])]
    ensures multiset(a[..]) == multiset(old(a[..]))
  {
    a[j - 1], a[j] := a[j], a[j - 1];
  }

  /**
   * Moves `a[i]` down into the sorted prefix `a[..i]`, past every entry with a
   * larger key; entries with equal keys keep their order.
   */
  method InsertDown(a: array<Entry>, i: int)
    requires 0 <= i < a.Length && SortedByKey(a[..i])
    modifies a
    ensures SortedByKey(a[..i + 1])
    ensures a[i + 1..] == old(a[i + 1..])
    ensures multiset(a[..]) == multiset(old(a[..]))
  {
    var j := i;
    while j > 0 && Key(a[j - 1]) > Key(a[j])
      invariant 0 <= j <= i
      invariant forall p, q :: 0 <= p < q <= i && p != j && q != j ==> Key(a[p]) <= Key(a[q])
      invariant forall q :: j < q <= i ==> Key(a[j]) < Key(a[q])
      invariant a[i + 1..] == old(a[i + 1..])
      invariant multiset(a[..]) == multiset(old(a[..]))
    {
      SwapDown(a, j);
      j := j - 1;
    }
  }

  /** Orders the bars by the number in the part name, in place (an insertion sort). */
  method SortByPartNumber(a: array<Entry>)
    modifies a
    ensures SortedByKey(a[..])
    ensures multiset(a[..]) == multiset(old(a[..]))
  {
    var i := 0;
    while i < a.Length
      invariant 0 <= i <= a.Length
      invariant SortedByKey(a[..i])
      invariant multiset(a[..]) == multiset(old(a[..]))
    {
      InsertDown(a, i);
      i := i + 1;
    }
    assert a[..a.Length] == a[..];
  }

  /** The chart is 40 pixels per bar, and never narrower than 800 pixels. */
  const BarWidth: nat := 40
  const MinChartWidth: nat := 800

  function ChartWidth(bars: nat): (w: nat)
    ensures w >= MinChartWidth && w >= BarWidth * bars
    ensures w == MinChartWidth || w == BarWidth * bars
  {
    if bars * BarWidth > MinChartWidth then bars * BarWidth else MinChartWidth
  }

  // ---------------------------------------------------------------------------
  // The chart component's state
  // ---------------------------------------------------------------------------

  class ErrorChartView {
    var timeRange: string
    var chartData: seq<Entry>
    var loading: bool

    constructor ()
      ensures timeRange == "1h" && chartData == [] && !loading
    {
      timeRange := "1h";
      chartData := [];
      loading := false;
    }

    /** The selector's change handler. */
    method SelectTimeRange(range: string)
      modifies this
      ensures timeRange == range
      ensures chartData == old(chartData) && loading == old(loading)
    {
      timeRange := range;
    }

    /** The lower bound of the window, `now` minus the selected range's offset. */
    method ResolveDateFrom(now: int) returns (from: int)
      ensures from == now - OffsetMinutes(timeRange)
      ensures from < now
    {
      from := now;
      if timeRange == "1m" {
        from := from - 1;
      } else if timeRange == "10m" {
        from := from - 10;
      } else if timeRange == "1h" {
        from := from - MinutesPerHour;
      } else if timeRange == "2h" {
        from := from - 2 * MinutesPerHour;
      } else if timeRange == "3h" {
        from := from - 3 * MinutesPerHour;
      } else if timeRange == "1d" {
        from := from - MinutesPerDay;
      } else {
        from := from - MinutesPerHour;
      }
    }

    /**
     * One refresh of the chart. `replies[i]` is what the request for part i
     * yields; the requests issued are returned.
     */
    method FetchData(parts: Option<seq<Part>>, replies: seq<Reply>, now: int)
      returns (requests: seq<Request>)
      requires parts.Some? ==> |replies| == |parts.value|
      modifies this
      ensures timeRange == old(timeRange)
      ensures parts.None? || parts.value == [] ==>
        requests == [] && chartData == old(chartData) && loading == old(loading)
      ensures parts.Some? && parts.value != [] ==>
        && !loading
        && |requests| == |parts.value|
        && (forall i :: 0 <= i < |requests| ==>
              requests[i] == Request(parts.value[i].id, now - OffsetMinutes(timeRange)))
      ensures parts.Some? && parts.value != [] && AnyThrows(replies) ==> chartData == []
      ensures parts.Some? && parts.value != [] && !AnyThrows(replies) ==>
        SortedByKey(chartData) && multiset(chartData) == multiset(Tally(parts.value, replies))
    {
      requests := [];
      if parts.None? || parts.value == [] {
        return;
      }
      var ps := parts.value;
      loading := true;
      var dateFrom := ResolveDateFrom(now);
      var entries := new Entry[|ps|];
      var threw := false;
      var i := 0;
      while i < |ps|
        invariant 0 <= i <= |ps|
        invariant timeRange == old(timeRange)
        invariant |requests| == i
        invariant forall k :: 0 <= k < i ==> requests[k] == Request(ps[k].id, dateFrom)
        invariant threw <==> exists k :: 0 <= k < i && PartCount(replies[k]).Threw?
        invariant forall k :: 0 <= k < i && PartCount(replies[k]).Counted? ==>
          entries[k] == Entry(ps[k].name, PartCount(replies[k]).errors)
      {
        requests := requests + [Request(ps[i].id, dateFrom)];
        match PartCount(replies[i]) {
          case Threw =>
            threw := true;
          case Counted(n) =>
            entries[i] := Entry(ps[i].name, n);
        }
        i := i + 1;
      }
      if threw {
        chartData := [];
      } else {
        assert entries[..] == Tally(ps, replies);
        SortByPartNumber(entries);
        chartData := entries[..];
      }
      loading := false;
    }
  }
}
