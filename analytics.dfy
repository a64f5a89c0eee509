/** The analytics page: the status distribution, the event-type histogram and
    the chart rows built from it, the conversion rate and the active-account
    count. */
module Analytics {
  import opened Types
  import opened Seqs
  import opened Dashboards
  import Calendar

  /** One slice of the status pie chart. */
  datatype Slice = Slice(name: string, value: nat, colour: string)

  /** The pie chart's slices, one per status in life-cycle order, each the
      number of bookings in that status; together they cover every booking. */
  function StatusSlices(bs: seq<Booking>): (slices: seq<Slice>)
    ensures |slices| == 3
    ensures slices[0].name == "Inquiries" && slices[0].value == CountStatus(bs, Inquiry)
    ensures slices[1].name == "Confirmed" && slices[1].value == CountStatus(bs, Confirmed)
    ensures slices[2].name == "Cleared" && slices[2].value == CountStatus(bs, Cleared)
    ensures slices[0].value + slices[1].value + slices[2].value == |bs|
  {
    StatusCountsSum(bs);
    [ Slice("Inquiries", CountStatus(bs, Inquiry), "#F59E0B"),
      Slice("Confirmed", CountStatus(bs, Confirmed), "#059669"),
      Slice("Cleared", CountStatus(bs, Cleared), "#7C3AED") ]
  }

  /** The pie chart and the calendar agree on the colour of each status. */
  lemma SliceColoursMatchCalendar(bs: seq<Booking>)
    ensures StatusSlices(bs)[0].colour == Calendar.StatusColour(Inquiry)
    ensures StatusSlices(bs)[1].colour == Calendar.StatusColour(Confirmed)
    ensures StatusSlices(bs)[2].colour == Calendar.StatusColour(Cleared)
  {
  }

  /** Bookings of one event type. */
  function CountType(bs: seq<Booking>, t: string): nat
  {
    |Filter(bs, (b: Booking) => b.eventType == t)|
  }

  /** The `reduce` over the bookings, as a specification: each booking adds
      one to the entry of its own event type, starting from an empty record. */
  function Histogram(bs: seq<Booking>): map<string, nat>
    decreases |bs|
  {
    if bs == [] then map[]
    else
      var h := Histogram(bs[..|bs| - 1]);
      var t := bs[|bs| - 1].eventType;
      h[t := (if t in h then h[t] else 0) + 1]
  }

  /** The histogram's keys are exactly the event types that occur, and each
      entry is the number of bookings of that type. */
  lemma {:induction false} HistogramCounts(bs: seq<Booking>, t: string)
    ensures t in Histogram(bs) <==> exists b :: b in bs && b.eventType == t
    ensures t in Histogram(bs) ==> Histogram(bs)[t] == CountType(bs, t)
    ensures t !in Histogram(bs) ==> CountType(bs, t) == 0
    decreases |bs|
  {
    if bs != [] {
      var init, last := bs[..|bs| - 1], bs[|bs| - 1];
      assert bs == init + [last];
      HistogramCounts(init, t);
      FilterConcat(init, [last], (b: Booking) => b.eventType == t);
      assert forall b :: b in bs <==> b in init || b == last;
    }
  }

  /** The page's accumulation loop, which updates one dictionary entry per
      booking. */
  method EventTypeData(bs: seq<Booking>) returns (acc: map<string, nat>)
    ensures acc == Histogram(bs)
  {
    acc := map[];
    for i := 0 to |bs|
      invariant acc == Histogram(bs[..i])
    {
      var t := bs[i].eventType;
      acc := acc[t := (if t in acc then acc[t] else 0) + 1];
      assert bs[..i + 1][..i] == bs[..i];
    }
    assert bs[..|bs|] == bs;
  }

  /** The event types in order of first occurrence (the key order of the
      accumulated record). */
  function DistinctTypes(bs: seq<Booking>): (ts: seq<string>)
    decreases |bs|
  {
    if bs == [] then []
    else
      var ts := DistinctTypes(bs[..|bs| - 1]);
      var t := bs[|bs| - 1].eventType;
      if t in ts then ts else ts + [t]
  }

  predicate NoDuplicates(ts: seq<string>)
  {
    forall i, j :: 0 <= i < j < |ts| ==> ts[i] != ts[j]
  }

  lemma {:induction false} DistinctTypesFacts(bs: seq<Booking>)
    ensures NoDuplicates(DistinctTypes(bs))
    ensures forall t :: t in DistinctTypes(bs) <==> t in Histogram(bs)
    decreases |bs|
  {
    if bs != [] {
      var init := bs[..|bs| - 1];
      DistinctTypesFacts(init);
      forall t
        ensures t in DistinctTypes(bs) <==> t in Histogram(bs)
      {
        HistogramCounts(init, t);
        HistogramCounts(bs, t);
      }
    }
  }

  datatype TypeCount = TypeCount(eventType: string, count: nat)

  /** `Object.entries` of the histogram: one row per event type. */
  function ChartData(bs: seq<Booking>): (rows: seq<TypeCount>)
    ensures |rows| == |DistinctTypes(bs)|
    ensures forall i :: 0 <= i < |rows| ==> rows[i].eventType == DistinctTypes(bs)[i]
    ensures forall i :: 0 <= i < |rows| ==> rows[i].count == CountType(bs, rows[i].eventType)
  {
    var ts := DistinctTypes(bs);
    var h := Histogram(bs);
    DistinctTypesFacts(bs);
    var rows := seq(|ts|, i requires 0 <= i < |ts| => TypeCount(ts[i], h[ts[i]]));
    assert forall i :: 0 <= i < |rows| ==> rows[i].count == CountType(bs, rows[i].eventType) by {
      forall i | 0 <= i < |rows| ensures rows[i].count == CountType(bs, rows[i].eventType) {
        HistogramCounts(bs, ts[i]);
      }
    }
    rows
  }

  function SumCounts(rows: seq<TypeCount>): nat
  {
    if rows == [] then 0 else rows[0].count + SumCounts(rows[1..])
  }

  /** The chart has exactly one row per distinct event type that occurs (its
      rows follow `DistinctTypes`), no type twice, each with its count, and the
      counts add up to the number of bookings. */
  lemma ChartDataFacts(bs: seq<Booking>)
    ensures forall t :: t in DistinctTypes(bs) <==> exists b :: b in bs && b.eventType == t
    ensures NoDuplicates(DistinctTypes(bs))
    ensures SumCounts(ChartData(bs)) == |bs|
  {
    var rows, ts := ChartData(bs), DistinctTypes(bs);
    DistinctTypesFacts(bs);
    forall t
      ensures t in ts <==> exists b :: b in bs && b.eventType == t
    {
      HistogramCounts(bs, t);
    }
    TypeCountsSum(bs, ts);
    SumOverIsSumCounts(bs, ts, rows);
  }

  /** Sum of the counts of the listed types. */
  function SumOver(bs: seq<Booking>, ts: seq<string>): nat
  {
    if ts == [] then 0 else CountType(bs, ts[0]) + SumOver(bs, ts[1..])
  }

  lemma {:induction false} SumOverIsSumCounts(bs: seq<Booking>, ts: seq<string>, rows: seq<TypeCount>)
    requires |rows| == |ts|
    requires forall i :: 0 <= i < |rows| ==> rows[i].eventType == ts[i] && rows[i].count == CountType(bs, ts[i])
    ensures SumCounts(rows) == SumOver(bs, ts)
  {
    if rows != [] {
      SumOverIsSumCounts(bs, ts[1..], rows[1..]);
    }
  }

  /** Counting over a list of distinct types that covers every booking's type
      counts every booking once. */
  lemma {:induction false} TypeCountsSum(bs: seq<Booking>, ts: seq<string>)
    requires NoDuplicates(ts)
    requires forall b :: b in bs ==> b.eventType in ts
    ensures SumOver(bs, ts) == |bs|
    decreases |bs|
  {
    if bs == [] {
      SumOverEmpty(ts);
    }
    else {
      var init, last := bs[..|bs| - 1], bs[|bs| - 1];
      assert bs == init + [last];
      assert forall b :: b in init ==> b in bs;
      TypeCountsSum(init, ts);
      SumOverSnoc(init, last, ts);
    }
  }

  lemma {:induction false} SumOverEmpty(ts: seq<string>)
    ensures SumOver([], ts) == 0
  {
    if ts != [] {
      SumOverEmpty(ts[1..]);
    }
  }

  /** One more booking adds one to the sum when its type is listed once. */
  lemma {:induction false} SumOverSnoc(bs: seq<Booking>, b: Booking, ts: seq<string>)
    requires NoDuplicates(ts)
    ensures SumOver(bs + [b], ts) == SumOver(bs, ts) + (if b.eventType in ts then 1 else 0)
  {
    if ts != [] {
      SumOverSnoc(bs, b, ts[1..]);
      FilterConcat(bs, [b], (x: Booking) => x.eventType == ts[0]);
      assert CountType(bs + [b], ts[0]) == CountType(bs, ts[0]) + (if b.eventType == ts[0] then 1 else 0);
      assert b.eventType == ts[0] ==> b.eventType !in ts[1..];
      assert b.eventType in ts <==> b.eventType == ts[0] || b.eventType in ts[1..];
    }
  }

  /** The page's conversion rate: 0 without bookings, otherwise the rounded
      share of bookings past the inquiry stage; the same figure as the
      super-admin dashboard's. */
  function AnalyticsConversionRate(bs: seq<Booking>): (r: nat)
    ensures r <= 100
    ensures |bs| == 0 ==> r == 0
    ensures |bs| > 0 ==> 2 * |bs| * r <= 200 * |Converted(bs)| + |bs| < 2 * |bs| * r + 2 * |bs|
    ensures |bs| > 0 && CountStatus(bs, Inquiry) == 0 ==> r == 100
    ensures r == SuperAdminStats(bs).conversionRate
  {
    ConversionRate(bs)
  }

  /** "Active Admins": every active profile, the super-admin included; zero
      exactly when no profile is active. */
  function ActiveAccounts(ps: seq<UserProfile>): (n: nat)
    ensures n <= |ps|
    ensures n == 0 <==> forall p :: p in ps ==> p.status != Active
  {
    var active := Filter(ps, (p: UserProfile) => p.status == Active);
    assert active != [] ==> active[0] in active;
    |active|
  }

  /** The page's count differs from the dashboard's assignee list exactly by
      the active super-admins. */
  lemma {:induction false} ActiveAccountsVersusAssignable(ps: seq<UserProfile>)
    ensures ActiveAccounts(ps) ==
              |ActiveAdmins(ps)| + |Filter(ps, (p: UserProfile) => p.status == Active && p.role == SuperAdmin)|
    ensures |ActiveAdmins(ps)| <= ActiveAccounts(ps)
    ensures ActiveAccounts(ps) == |ActiveAdmins(ps)| <==>
              forall p :: p in ps ==> !(p.status == Active && p.role == SuperAdmin)
  {
    if ps != [] {
      ActiveAccountsVersusAssignable(ps[1..]);
    }
  }
}
