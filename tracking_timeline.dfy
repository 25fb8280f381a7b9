/** The history timeline: a sorted copy of the order's history, newest first,
    one row per entry with an icon, the 'Latest' tag on the first row only,
    and a location line. Timestamps are milliseconds. */
module TrackingTimeline {
  import opened Common

  datatype Entry = Entry(status: Option<string>, location: Option<string>, timestamp: int)

  datatype Icon = ClipboardList | BoxIcon | TruckIcon | HomeIcon | CheckCircle

  /** `statusIcons[status] || FaCheckCircle`. */
  function IconFor(status: Option<string>): (icon: Icon)
    ensures status == Some("Ordered") <==> icon == ClipboardList
    ensures status == Some("Packed") <==> icon == BoxIcon
    ensures status == Some("Shipped") || status == Some("Out for Delivery") <==> icon == TruckIcon
    ensures status == Some("Delivered") <==> icon == HomeIcon
  {
    match status
    case Some("Ordered") => ClipboardList
    case Some("Packed") => BoxIcon
    case Some("Shipped") => TruckIcon
    case Some("Out for Delivery") => TruckIcon
    case Some("Delivered") => HomeIcon
    case _ => CheckCircle
  }

  const LocationPrefix: string := "Location: "
  const Processing: string := "Processing..."

  function LocationText(location: Option<string>): (text: string)
    ensures Truthy(location) ==> text == LocationPrefix + location.value
    ensures !Truthy(location) ==> text == Processing
  {
    if Truthy(location) then LocationPrefix + location.value else Processing
  }

  function Timestamp(e: Entry): int {
    e.timestamp
  }

  /** `[...history].sort((a, b) => b.timestamp - a.timestamp)`: a stable sort
      on a copy. */
  function Shown(history: seq<Entry>): (shown: seq<Entry>)
    ensures NewestFirst(shown, Timestamp)
    ensures multiset(shown) == multiset(history)
    ensures |shown| == |history|
  {
    SortNewestFirst(history, Timestamp)
  }

  /** The test "was recorded at time `t`". */
  function At(t: int): Entry -> bool {
    (e: Entry) => e.timestamp == t
  }

  /** Entries recorded at the same time are shown in the order the history
      holds them. */
  lemma SameTimeKeepsHistoryOrder(history: seq<Entry>, t: int)
    ensures Filter(Shown(history), At(t)) == Filter(history, At(t))
  {
    SortIsStable(history, Timestamp, t, At(t));
  }

  datatype Row = Row(entry: Entry, icon: Icon, latest: bool, locationText: string)

  /** `None` is the component rendering nothing. */
  function Render(history: Option<seq<Entry>>): (rows: Option<seq<Row>>)
    ensures rows.None? <==> history.None? || |history.value| == 0
    ensures rows.Some? ==>
      && |rows.value| == |history.value|
      && forall i :: 0 <= i < |rows.value| ==>
           && rows.value[i].entry == Shown(history.value)[i]
           && rows.value[i].icon == IconFor(rows.value[i].entry.status)
           && (rows.value[i].latest <==> i == 0)
           && rows.value[i].locationText == LocationText(rows.value[i].entry.location)
  {
    if history.None? || |history.value| == 0 then None
    else
      var shown := Shown(history.value);
      Some(seq(|shown|, i requires 0 <= i < |shown| =>
        Row(shown[i], IconFor(shown[i].status), i == 0, LocationText(shown[i].location))))
  }

  /** Every entry of the history is shown once, whatever the order it came
      in, and the row tagged 'Latest' holds the greatest timestamp. */
  lemma LatestIsNewest(history: seq<Entry>)
    requires |history| > 0
    ensures var rows := Render(Some(history)).value;
      rows[0].latest &&
      (forall i :: 0 <= i < |history| ==> history[i].timestamp <= rows[0].entry.timestamp)
  {
    var shown := Shown(history);
    forall i | 0 <= i < |history| ensures history[i].timestamp <= shown[0].timestamp {
      assert history[i] in multiset(shown);
      var k :| 0 <= k < |shown| && shown[k] == history[i];
      if k > 0 {
        assert Timestamp(shown[0]) >= Timestamp(shown[k]);
      }
    }
  }

  /** The rows are the history's entries, each as often as it occurs. */
  lemma RowsArePermutation(history: seq<Entry>)
    requires |history| > 0
    ensures var rows := Render(Some(history)).value;
      multiset(seq(|rows|, i requires 0 <= i < |rows| => rows[i].entry)) == multiset(history)
  {
    var rows := Render(Some(history)).value;
    assert seq(|rows|, i requires 0 <= i < |rows| => rows[i].entry) == Shown(history);
  }
}
