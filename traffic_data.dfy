/** Traffic estimation (lib/trafficData.ts): a rank, exact or derived from a bucket label
    or from the hostname, is turned into formatted visitor, page-view, reach and
    share-rate figures, tagged with where the rank came from. */
module TrafficData {
  import opened Wrappers
  import opened JsStrings
  import opened JsNumber
  import opened Types

  /** A draw of `Math.random()`. */
  type Draw = r: real | 0.0 <= r < 1.0

  /** The three draws one estimate consumes, in the order the code makes them. */
  datatype Draws = Draws(pageViews: Draw, reach: Draw, shareRate: Draw)

  datatype TrafficData = TrafficData(
    reach: string,
    uniqueVisitors: string,
    pageViews: string,
    shareRate: string,
    rank: Option<int>,
    bucket: Option<string>,
    source: DataSource)

  /** `n.toFixed(1)` for a non-negative value: shown to the nearest tenth. */
  function ToFixed1(x: real): (s: string)
    requires x >= 0.0
    ensures exists t: nat :: s == FixedOne(t) && x * 10.0 - 0.5 < t as real <= x * 10.0 + 0.5
  {
    var t := Round(x * 10.0);
    FixedOne(t)
  }

  /** `formatNumber`: one decimal and a B, M or K suffix from a thousand upward, the
      plain digits below. */
  function FormatNumber(num: nat): (s: string)
    ensures |s| >= 1 && IsDigit(s[0])
    ensures s[|s| - 1] == 'B' <==> num >= 1000000000
    ensures s[|s| - 1] == 'M' <==> 1000000 <= num < 1000000000
    ensures s[|s| - 1] == 'K' <==> 1000 <= num < 1000000
    ensures num < 1000 ==> s == NatToString(num)
  {
    if num >= 1000000000 then ToFixed1(num as real / 1000000000.0) + "B"
    else if num >= 1000000 then ToFixed1(num as real / 1000000.0) + "M"
    else if num >= 1000 then
      var k := Round(num as real / 1000.0);
      NatToString(k) + "K"
    else NatToString(num)
  }

  /** The thousands shown for a count in [1000, 1000000) are the count to the nearest thousand. */
  lemma FormatNumberThousands(num: nat)
    requires 1000 <= num < 1000000
    ensures exists k: nat :: FormatNumber(num) == NatToString(k) + "K"
                          && num as real / 1000.0 - 0.5 < k as real <= num as real / 1000.0 + 0.5
  {
    var k := Round(num as real / 1000.0);
    assert FormatNumber(num) == NatToString(k) + "K";
  }

  /** Upper ends of the bucket ranges, and the rank reported for each range. */
  const BucketBounds: seq<int> := [200, 500, 1000, 2000, 5000, 10000, 20000, 50000, 100000, 200000, 500000, 1000000]
  const BucketMidpoints: seq<int> := [100, 350, 750, 1500, 3500, 7500, 15000, 35000, 75000, 150000, 350000, 750000]

  /** Each reported rank is the midpoint of its range; the first range starts at 0. */
  lemma BucketMidpointsAreMidpoints()
    ensures |BucketBounds| == |BucketMidpoints| == 12
    ensures BucketMidpoints[0] == BucketBounds[0] / 2
    ensures forall k :: 0 < k < 12 ==> BucketMidpoints[k] == (BucketBounds[k - 1] + BucketBounds[k]) / 2
  {
  }

  /** The step table of `bucketToRank`, on an already parsed bucket number. */
  function BucketNumberToRank(n: int): (rank: int)
    ensures rank >= 100
    ensures n > 1000000 ==> rank == n
    ensures forall k :: 0 <= k < |BucketBounds| && (k == 0 || BucketBounds[k - 1] < n) && n <= BucketBounds[k]
                        ==> rank == BucketMidpoints[k]
  {
    if n <= 200 then 100
    else if n <= 500 then 350
    else if n <= 1000 then 750
    else if n <= 2000 then 1500
    else if n <= 5000 then 3500
    else if n <= 10000 then 7500
    else if n <= 20000 then 15000
    else if n <= 50000 then 35000
    else if n <= 100000 then 75000
    else if n <= 200000 then 150000
    else if n <= 500000 then 350000
    else if n <= 1000000 then 750000
    else n
  }

  /** A larger bucket number never gives a better (smaller) rank. */
  lemma BucketNumberToRankMonotone(a: int, b: int)
    requires a <= b
    ensures BucketNumberToRank(a) <= BucketNumberToRank(b)
  {
  }

  /** `bucketToRank`: 500000 when the label has no leading number, else the step table. */
  function BucketToRank(bucket: string): (rank: int)
    ensures rank >= 100
    ensures ParseInt(bucket).None? ==> rank == 500000
    ensures ParseInt(bucket).Some? ==> rank == BucketNumberToRank(ParseInt(bucket).value)
  {
    match ParseInt(bucket)
    case None => 500000
    case Some(n) => BucketNumberToRank(n)
  }

  /** A bucket label that is a plain number goes through the step table. */
  lemma BucketToRankOfNumber(n: nat)
    ensures BucketToRank(NatToString(n)) == BucketNumberToRank(n)
  {
    ParseIntNatToString(n);
  }

  /** Bucket "500" stands for rank 350. */
  lemma BucketFiveHundred()
    ensures BucketToRank("500") == 350
  {
    var text := NatToString(500);
    assert text == "500";
    BucketToRankOfNumber(500);
    assert BucketNumberToRank(500) == 350;
  }

  /** Bucket "50000" stands for rank 35000. */
  lemma BucketFiftyThousand()
    ensures BucketToRank("50000") == 35000
  {
    var text := NatToString(50000);
    assert text == "50000";
    BucketToRankOfNumber(50000);
    assert BucketNumberToRank(50000) == 35000;
  }

  /** A label whose first character is no space, sign or digit stands for rank 500000. */
  lemma BucketNotANumber(bucket: string)
    requires |bucket| > 0 && !IsWhitespace(bucket[0]) && !IsDigit(bucket[0])
    requires bucket[0] != '-' && bucket[0] != '+'
    ensures BucketToRank(bucket) == 500000
  {
    assert TrimStart(bucket) == bucket;
    assert Unsigned(bucket) == bucket;
    assert DigitPrefix(bucket) == "";
  }

  /** The visitors figure `Math.round(5e9 / rank ** 0.7)` as a function of the rank:
      five billion at rank 1, never larger at a larger positive rank. */
  ghost predicate DecayCurve(curve: int -> nat) {
    && curve(1) == 5000000000
    && forall a, b :: 0 < a <= b ==> curve(b) <= curve(a)
  }

  datatype Estimate = Estimate(visitors: nat, pageViews: nat, reach: nat)

  lemma ProductNonNegative(x: real, y: real)
    requires x >= 0.0 && y >= 0.0
    ensures x * y >= 0.0
  {
  }

  lemma CastProduct(a: nat, b: nat)
    ensures (a * b) as real == a as real * b as real
  {
  }

  /** `v * (lo + r * span)` lies between `lo * v` and `(lo + span) * v`. */
  lemma SpreadBounds(v: nat, lo: nat, span: nat, r: Draw)
    ensures (lo * v) as real <= v as real * (lo as real + r * span as real) <= ((lo + span) * v) as real
  {
    var vr: real := v as real;
    var lr: real := lo as real;
    var sr: real := span as real;
    var a: real := r * sr;
    ProductNonNegative(r, sr);
    ProductNonNegative(1.0 - r, sr);
    assert sr - a == (1.0 - r) * sr;
    ProductNonNegative(vr, a);
    ProductNonNegative(vr, sr - a);
    assert vr * (lr + a) == vr * lr + vr * a;
    assert vr * (lr + sr) == vr * (lr + a) + vr * (sr - a);
    CastProduct(lo, v);
    CastProduct(lo + span, v);
  }

  /** `Math.round(v * (lo + r * span))`: a whole number in [lo * v, (lo + span) * v]. */
  function Spread(v: nat, lo: nat, span: nat, r: Draw): (n: nat)
    ensures lo * v <= n <= (lo + span) * v
  {
    var low, high := lo * v, (lo + span) * v;
    var x := v as real * (lo as real + r * span as real);
    SpreadBounds(v, lo, span, r);
    assert low as real <= x <= high as real;
    var n := Round(x);
    assert low as real - 0.5 < n as real <= high as real + 0.5;
    n
  }

  /** `estimateTrafficFromRank`, with the two `Math.random()` draws as parameters. */
  function EstimateTrafficFromRank(rank: int, curve: int -> nat, pageViewsDraw: Draw, reachDraw: Draw): (e: Estimate)
    ensures rank <= 0 ==> e == Estimate(0, 0, 0)
    ensures rank > 0 ==> e.visitors == curve(rank)
    ensures 2 * e.visitors <= e.pageViews <= 4 * e.visitors
    ensures 3 * e.visitors <= e.reach <= 5 * e.visitors
  {
    if rank <= 0 then Estimate(0, 0, 0)
    else
      var visitors := curve(rank);
      Estimate(visitors, Spread(visitors, 2, 2, pageViewsDraw), Spread(visitors, 3, 2, reachDraw))
  }

  /** Visitors decay with the rank: a better rank never gets fewer visitors. */
  lemma VisitorsDecay(curve: int -> nat, r1: int, r2: int, d1: Draw, d2: Draw, d3: Draw, d4: Draw)
    requires DecayCurve(curve)
    requires 0 < r1 <= r2
    ensures EstimateTrafficFromRank(r1, curve, d1, d2).visitors >= EstimateTrafficFromRank(r2, curve, d3, d4).visitors
  {
  }

  /** At rank 1 the visitors figure reads "5.0B", whatever the draws. */
  lemma RankOneVisitors(curve: int -> nat, d1: Draw, d2: Draw)
    requires DecayCurve(curve)
    ensures FormatNumber(EstimateTrafficFromRank(1, curve, d1, d2).visitors) == "5.0B"
  {
    assert Round(5000000000 as real / 1000000000.0 * 10.0) == 50;
    assert NatToString(5) == "5";
    assert FixedOne(50) == "5" + "." + "0";
  }

  /** `estimateShareRate` in tenths of a percent, with its `Math.random()` draw as a parameter. */
  function EstimateShareRate(rank: int, r: Draw): (tenths: nat)
    ensures rank <= 100 ==> 80 <= tenths <= 150
    ensures 100 < rank <= 1000 ==> 50 <= tenths <= 100
    ensures 1000 < rank <= 10000 ==> 30 <= tenths <= 70
    ensures 10000 < rank <= 100000 ==> 10 <= tenths <= 40
    ensures 100000 < rank ==> 5 <= tenths <= 25
  {
    if rank <= 100 then Round((8.0 + r * 7.0) * 10.0)
    else if rank <= 1000 then Round((5.0 + r * 5.0) * 10.0)
    else if rank <= 10000 then Round((3.0 + r * 4.0) * 10.0)
    else if rank <= 100000 then Round((1.0 + r * 3.0) * 10.0)
    else Round((0.5 + r * 2.0) * 10.0)
  }

  /** `${shareRate}%`: the rate's shortest decimal text and a percent sign. */
  function ShareRateText(tenths: nat): (s: string)
    ensures |s| >= 2 && s[|s| - 1] == '%' && s[..|s| - 1] == TenthsToString(tenths)
  {
    TenthsToString(tenths) + "%"
  }

  /** The share-rate text reads back: `parseInt` gives the whole percent; a whole rate has
      only digits before the sign, any other rate one fraction digit after a point. */
  lemma {:induction false} ShareRateReadsBack(tenths: nat)
    ensures var s := ShareRateText(tenths);
      && ParseInt(s) == Some(tenths / 10)
      && (tenths % 10 == 0 ==> AllDigits(s[..|s| - 1]))
      && (tenths % 10 != 0 ==> |s| >= 4 && s[|s| - 3] == '.' && s[|s| - 2] == DigitChar(tenths % 10))
  {
    var whole := NatToString(tenths / 10);
    if tenths % 10 == 0 {
      assert ShareRateText(tenths) == whole + "%";
      assert ParseInt(whole + "%") == Some(tenths / 10) by {
        ParseIntStopsAfter(tenths / 10, "%");
      }
    } else {
      var rest := "." + [DigitChar(tenths % 10)] + "%";
      assert ShareRateText(tenths) == whole + rest;
      assert ParseInt(whole + rest) == Some(tenths / 10) by {
        ParseIntStopsAfter(tenths / 10, rest);
      }
    }
  }

  /** `hostname.replace('www.', '')`: the first "www." anywhere in the name is dropped. */
  function StripWww(hostname: string): (h: string)
    ensures (forall k: nat :: !OccursAt(hostname, "www.", k)) ==> h == hostname
    ensures forall k: nat :: OccursAt(hostname, "www.", k) && (forall j: nat :: j < k ==> !OccursAt(hostname, "www.", j))
                             ==> h == hostname[..k] + hostname[k + 4..]
  {
    ReplaceWithNothing(hostname, "www.");
    assert |"www."| == 4;
    ReplaceFirst(hostname, "www.", "")
  }

  predicate GovOrEdu(host: string) { EndsWith(host, ".gov") || EndsWith(host, ".edu") }

  /** The rank guessed from the hostname when no ranking is available. */
  function HeuristicRank(host: string): (rank: int)
    ensures rank == 50000 <==> GovOrEdu(host)
    ensures rank == 100000 <==> !GovOrEdu(host) && EndsWith(host, ".org")
    ensures rank == 200000 <==> !GovOrEdu(host) && !EndsWith(host, ".org") && |host| < 10
    ensures rank == 500000 <==> !GovOrEdu(host) && !EndsWith(host, ".org") && |host| >= 10
  {
    if GovOrEdu(host) then 50000
    else if EndsWith(host, ".org") then 100000
    else if |host| < 10 then 200000
    else 500000
  }

  /** The figures for a rank, with the marker the estimated path puts in front of counts. */
  function Figures(rank: int, curve: int -> nat, draws: Draws, marker: string): (t: (string, string, string, string))
    ensures var e := EstimateTrafficFromRank(rank, curve, draws.pageViews, draws.reach);
      && t.0 == marker + FormatNumber(e.reach)
      && t.1 == marker + FormatNumber(e.visitors) + "/month"
      && t.2 == marker + FormatNumber(e.pageViews) + "/month"
      && t.3 == ShareRateText(EstimateShareRate(rank, draws.shareRate))
    ensures |t.0| > |marker| && t.0[..|marker|] == marker && IsDigit(t.0[|marker|])
  {
    var e := EstimateTrafficFromRank(rank, curve, draws.pageViews, draws.reach);
    (marker + FormatNumber(e.reach),
     marker + FormatNumber(e.visitors) + "/month",
     marker + FormatNumber(e.pageViews) + "/month",
     ShareRateText(EstimateShareRate(rank, draws.shareRate)))
  }

  /** `getEstimatedTrafficData` for a URL whose hostname is `hostname`. */
  function GetEstimatedTrafficData(hostname: string, curve: int -> nat, draws: Draws): (t: TrafficData)
    ensures t.source == Estimated && t.rank.None? && t.bucket.None?
    ensures var (reach, visitors, views, share) := Figures(HeuristicRank(StripWww(hostname)), curve, draws, "~");
            t.reach == reach && t.uniqueVisitors == visitors && t.pageViews == views && t.shareRate == share
  {
    var (reach, visitors, views, share) := Figures(HeuristicRank(StripWww(hostname)), curve, draws, "~");
    TrafficData(reach, visitors, views, share, None, None, Estimated)
  }

  /** The `details_0` record of a Radar ranking response. */
  datatype Ranking = Ranking(bucket: string, rank: Option<int>)

  /** The outcome of the Radar ranking request: the fetch or its JSON threw, the status
      was not ok, or a parsed body. */
  datatype RadarReply = RadarThrew | RadarNotOk | RadarBody(success: bool, details: Option<Ranking>)

  predicate Ranked(reply: RadarReply) {
    reply.RadarBody? && reply.success && reply.details.Some?
  }

  /** `ranking.rank ?? bucketToRank(bucket)`: the exact rank when there is one. */
  function EffectiveRank(ranking: Ranking): (rank: int)
    ensures ranking.rank.Some? ==> rank == ranking.rank.value
    ensures ranking.rank.None? ==> rank == BucketToRank(ranking.bucket)
  {
    ranking.rank.GetOr(BucketToRank(ranking.bucket))
  }

  /** `getTrafficData`. `hostname` is what `new URL(url).hostname` gives, or the message
      it throws; `reply` is consulted only when there is an API token. */
  function GetTrafficData(hasToken: bool, hostname: Result<string>, reply: RadarReply,
                          curve: int -> nat, draws: Draws): (r: Result<TrafficData>)
    ensures hostname.Failure? ==> r == Failure(hostname.error)
    ensures hostname.Success? && !(hasToken && Ranked(reply))
            ==> r == Success(GetEstimatedTrafficData(hostname.value, curve, draws))
    ensures hostname.Success? && hasToken && Ranked(reply) ==>
            var ranking := reply.details.value;
            var (reach, visitors, views, share) := Figures(EffectiveRank(ranking), curve, draws, "");
            && r.Success? && r.value.source == Cloudflare
            && r.value.rank == ranking.rank && r.value.bucket == Some("Top " + ranking.bucket)
            && r.value.reach == reach && r.value.uniqueVisitors == visitors
            && r.value.pageViews == views && r.value.shareRate == share
  {
    match hostname
    case Failure(message) => Failure(message)
    case Success(host) =>
      if hasToken && Ranked(reply) then
        var ranking := reply.details.value;
        var (reach, visitors, views, share) := Figures(EffectiveRank(ranking), curve, draws, "");
        Success(TrafficData(reach, visitors, views, share, ranking.rank, Some("Top " + ranking.bucket), Cloudflare))
      else Success(GetEstimatedTrafficData(host, curve, draws))
  }

  /** The provenance is visible in the figures: estimated counts, and only they, start with "~". */
  lemma ProvenanceVisible(hasToken: bool, hostname: Result<string>, reply: RadarReply, curve: int -> nat, draws: Draws)
    requires GetTrafficData(hasToken, hostname, reply, curve, draws).Success?
    ensures var t := GetTrafficData(hasToken, hostname, reply, curve, draws).value;
            |t.reach| > 0 && (t.source == Estimated <==> t.reach[0] == '~')
  {
  }
}
