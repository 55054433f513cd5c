/**
 * The relay display: it finds the relay's per-packet CSV log in an
 * experiment directory and plots, per second of send time, the bits sent
 * as media, retransmission and probing, and per packet the RTT and the
 * minimum RTT.
 */
module Medooze {
  import opened Wrappers
  import opened Paths
  import Csv
  import opened DisplayBase

  // The display's statistic keys (the relay log's columns, then computed ones).
  const BWE: Key := 9
  const TARGET: Key := 10
  const AVAILABLE_BITRATE: Key := 11
  const RTT: Key := 12
  const RTX: Key := 14
  const PROBING: Key := 15
  const MEDIA: Key := 16
  const LOSS: Key := 17
  const MINRTT: Key := 18

  /** The chart a metric is drawn on: RTT, loss and min RTT on the RTT chart, the rest on the bitrate chart. */
  function ChartOf(k: Key, bitrate: ChartId, rtt: ChartId): ChartId
  {
    if k == RTT || k == LOSS || k == MINRTT then rtt else bitrate
  }

  /** The legend name `init_map` gives each metric. */
  function MetricName(k: Key): string
  {
    if k == BWE then "Bwe"
    else if k == TARGET then "Target"
    else if k == AVAILABLE_BITRATE then "Available bitrate"
    else if k == RTT then "RTT"
    else if k == RTX then "RTX"
    else if k == PROBING then "Probing"
    else if k == MEDIA then "Media"
    else if k == LOSS then "Loss"
    else "Min rtt"
  }

  const Metrics: set<Key> := {BWE, TARGET, AVAILABLE_BITRATE, RTT, RTX, PROBING, MEDIA, LOSS, MINRTT}

  /** The keys whose series `load` creates, in creation order. */
  const Order: seq<Key> := [MEDIA, RTX, PROBING, RTT, MINRTT]

  /**
   * In the stored map `m` and the arena `series`, the first `i` keys of
   * `Order` hold the ids from `n` on, each an empty series named after its
   * metric and the experiment directory `dir`.
   */
  ghost predicate CreatedIn(m: StatMap, series: map<SeriesId, Series>, dir: string, n: SeriesId, i: nat)
    requires i <= |Order|
  {
    forall j :: 0 <= j < i ==>
      && Lookup(m, Order[j]).serie == Some(n + j) && n + j in series
      && series[n + j] == Series(SerieName(MetricName(Order[j]), dir), [], DefaultPen, [])
  }

  /**
   * One more `create_serie`, for the `i`-th key of `Order` with id `n + i`,
   * extends what `CreatedIn` says.
   */
  lemma CreatedStep(m: StatMap, table: StatMap, series: map<SeriesId, Series>, dir: string, n: SeriesId, i: nat,
                    key: Key, id: SeriesId, m': StatMap, series': map<SeriesId, Series>)
    requires i < |Order| && key == Order[i] && id == n + i && CreatedIn(m, series, dir, n, i)
    requires i > 0 ==> |m| != 0
    requires forall j :: j in series ==> j < id
    requires var filled := if |m| == 0 then table else m;
      && Lookup(filled, key).name == MetricName(key)
      && m' == Store(filled, key, id)
      && series' == series[id := Series(SerieName(Lookup(filled, key).name, dir), [], DefaultPen, [])]
    ensures CreatedIn(m', series', dir, n, i + 1)
  {
    var filled := if |m| == 0 then table else m;
    forall j | 0 <= j < i
      ensures Lookup(m', Order[j]).serie == Some(n + j) && n + j in series'
      ensures series'[n + j] == Series(SerieName(MetricName(Order[j]), dir), [], DefaultPen, [])
    {
      OrderDistinct(j, i);
      assert filled == m;
      assert Lookup(m', Order[j]) == Lookup(m, Order[j]);
    }
  }

  /** Once all of `Order` is created, each of the five series is there, empty and named. */
  lemma CreatedAll(m: StatMap, series: map<SeriesId, Series>, dir: string, n: SeriesId)
    requires CreatedIn(m, series, dir, n, |Order|)
    ensures Lookup(m, MEDIA).serie == Some(n) && Lookup(m, RTX).serie == Some(n + 1)
    ensures Lookup(m, PROBING).serie == Some(n + 2) && Lookup(m, RTT).serie == Some(n + 3)
    ensures Lookup(m, MINRTT).serie == Some(n + 4)
    ensures n in series && series[n] == Series(SerieName("Media", dir), [], DefaultPen, [])
    ensures n + 1 in series && series[n + 1] == Series(SerieName("RTX", dir), [], DefaultPen, [])
    ensures n + 2 in series && series[n + 2] == Series(SerieName("Probing", dir), [], DefaultPen, [])
    ensures n + 3 in series && series[n + 3] == Series(SerieName("RTT", dir), [], DefaultPen, [])
    ensures n + 4 in series && series[n + 4] == Series(SerieName("Min rtt", dir), [], DefaultPen, [])
  {
    assert Order[0] == MEDIA && Order[1] == RTX && Order[2] == PROBING && Order[3] == RTT && Order[4] == MINRTT;
  }

  lemma OrderDistinct(j: nat, k: nat)
    requires j < k < |Order|
    ensures Order[j] != Order[k]
  {
  }

  /** `init_map`: the metrics shown, their names and charts, with no series yet. */
  function Table(bitrate: ChartId, rtt: ChartId): StatMap
  {
    map k | k in Metrics :: Entry(MetricName(k), None, Some(ChartOf(k, bitrate, rtt)), DefaultInfo)
  }

  /** `t` is `init_map`: the nine metrics, each named, on its chart, with default info and no series yet. */
  predicate Tabled(t: StatMap, bitrate: ChartId, rtt: ChartId)
  {
    && t.Keys == Metrics
    && t[BWE] == Entry("Bwe", None, Some(bitrate), DefaultInfo)
    && t[TARGET] == Entry("Target", None, Some(bitrate), DefaultInfo)
    && t[AVAILABLE_BITRATE] == Entry("Available bitrate", None, Some(bitrate), DefaultInfo)
    && t[RTT] == Entry("RTT", None, Some(rtt), DefaultInfo)
    && t[RTX] == Entry("RTX", None, Some(bitrate), DefaultInfo)
    && t[PROBING] == Entry("Probing", None, Some(bitrate), DefaultInfo)
    && t[MEDIA] == Entry("Media", None, Some(bitrate), DefaultInfo)
    && t[LOSS] == Entry("Loss", None, Some(rtt), DefaultInfo)
    && t[MINRTT] == Entry("Min rtt", None, Some(rtt), DefaultInfo)
  }

  /** The comprehension in `Table` builds exactly that table. */
  lemma TableIsTabled(bitrate: ChartId, rtt: ChartId)
    ensures Tabled(Table(bitrate, rtt), bitrate, rtt)
  {
  }

  /** Each entry of the table carries its metric's name and chart. */
  lemma TabledAt(t: StatMap, bitrate: ChartId, rtt: ChartId, k: Key)
    requires Tabled(t, bitrate, rtt) && k in t
    ensures t[k] == Entry(MetricName(k), None, Some(ChartOf(k, bitrate, rtt)), DefaultInfo)
  {
  }

  // ---------------------------------------------------------------------
  // The relay log.

  /** A relay log file: named `quic-relay-*` with the extension `.csv`. */
  predicate IsRelayCsv(p: Path)
  {
    StartsWith(Filename(p), "quic-relay-") && Extension(Filename(p)) == ".csv"
  }

  /** The first relay log among the directory entries, or the empty path. */
  function RelayFile(entries: seq<Path>): (p: Path)
  {
    First(entries, IsRelayCsv)
  }

  /** The first entry that is a relay log is the relay file, and it is not the empty path. */
  lemma RelayFileAt(entries: seq<Path>, i: nat)
    requires i < |entries| && IsRelayCsv(entries[i])
    requires forall j :: 0 <= j < i ==> !IsRelayCsv(entries[j])
    ensures RelayFile(entries) == entries[i] != ""
  {
    FirstAt(entries, IsRelayCsv, i);
    RelayNonEmpty(entries[i]);
  }

  lemma RelayNonEmpty(p: Path)
    requires IsRelayCsv(p)
    ensures p != ""
  {
    StartsWithNonEmpty(p, "quic-relay-");
  }

  /** With no relay log among the entries the relay file is the empty path. */
  lemma RelayFileNone(entries: seq<Path>)
    requires forall j :: 0 <= j < |entries| ==> !IsRelayCsv(entries[j])
    ensures RelayFile(entries) == ""
  {
    FirstNone(entries, IsRelayCsv);
  }

  // Columns of a relay log record (17 ints).
  predicate Arity(rs: seq<seq<int>>)
  {
    forall k :: 0 <= k < |rs| ==> |rs[k]| == 17
  }

  function PacketSize(r: seq<int>): int requires |r| == 17 { r[3] }
  function SentTime(r: seq<int>): int requires |r| == 17 { r[4] }
  function RttOf(r: seq<int>): int requires |r| == 17 { r[12] }
  function MinRttOf(r: seq<int>): int requires |r| == 17 { r[13] }
  function RtxFlag(r: seq<int>): int requires |r| == 17 { r[15] }
  function ProbingFlag(r: seq<int>): int requires |r| == 17 { r[16] }

  /** `sent_time / 1000000` in C++: whole seconds, truncated toward zero. */
  function TimeKey(sentTime: int): (key: int)
    ensures sentTime >= 0 ==> 0 <= key * 1000000 <= sentTime < key * 1000000 + 1000000
    ensures sentTime < 0 ==> key * 1000000 - 1000000 < sentTime <= key * 1000000 <= 0
  {
    if sentTime >= 0 then sentTime / 1000000 else -((-sentTime) / 1000000)
  }

  // ---------------------------------------------------------------------
  // Per-second buckets.

  datatype Channel = MediaCh | RtxCh | ProbingCh

  /** The channel a packet's bits count for: (rtx, probing) = (0,0) media, (1,0) rtx, (0,1) probing. */
  function ChannelOf(r: seq<int>): Option<Channel>
    requires |r| == 17
  {
    if RtxFlag(r) == 0 && ProbingFlag(r) == 0 then Some(MediaCh)
    else if RtxFlag(r) == 1 && ProbingFlag(r) == 0 then Some(RtxCh)
    else if RtxFlag(r) == 0 && ProbingFlag(r) == 1 then Some(ProbingCh)
    else None
  }

  /** One second of sending: its key and the bits of each channel. */
  datatype Bucket = Bucket(x: int, media: int, rtx: int, probing: int)

  function Value(b: Bucket, ch: Channel): int
  {
    match ch
    case MediaCh => b.media
    case RtxCh => b.rtx
    case ProbingCh => b.probing
  }

  function Total(b: Bucket): int
  {
    b.media + b.rtx + b.probing
  }

  /** The bits a packet adds to its bucket: 8 per byte to its channel, none if unclassified. */
  function Bits(r: seq<int>): int
    requires |r| == 17
  {
    if ChannelOf(r).Some? then PacketSize(r) * 8 else 0
  }

  function Add(b: Bucket, r: seq<int>): (c: Bucket)
    requires |r| == 17
    ensures c.x == b.x && Total(c) == Total(b) + Bits(r)
    ensures forall ch :: Value(c, ch) == Value(b, ch) + (if ChannelOf(r) == Some(ch) then PacketSize(r) * 8 else 0)
  {
    var bits := PacketSize(r) * 8;
    b.(media := b.media + (if ChannelOf(r) == Some(MediaCh) then bits else 0),
       rtx := b.rtx + (if ChannelOf(r) == Some(RtxCh) then bits else 0),
       probing := b.probing + (if ChannelOf(r) == Some(ProbingCh) then bits else 0))
  }

  /** The buckets already plotted, and the one still open. */
  datatype Buckets = Buckets(emitted: seq<Bucket>, open: Option<Bucket>)

  /**
   * Grouping records by send second, in order: a record whose key differs
   * from the open bucket's closes it and opens a new one.
   */
  function Bucketize(rs: seq<seq<int>>): Buckets
    requires Arity(rs)
  {
    if rs == [] then Buckets([], None)
    else
      var prev := Bucketize(rs[..|rs| - 1]);
      var r := rs[|rs| - 1];
      var key := TimeKey(SentTime(r));
      if prev.open.Some? && prev.open.value.x == key then Buckets(prev.emitted, Some(Add(prev.open.value, r)))
      else Buckets(prev.emitted + (if prev.open.Some? then [prev.open.value] else []), Some(Add(Bucket(key, 0, 0, 0), r)))
  }

  lemma BucketizeStep(rs: seq<seq<int>>, r: seq<int>)
    requires Arity(rs) && |r| == 17
    ensures Arity(rs + [r])
    ensures var prev, key := Bucketize(rs), TimeKey(SentTime(r));
      Bucketize(rs + [r]) ==
        if prev.open.Some? && prev.open.value.x == key then Buckets(prev.emitted, Some(Add(prev.open.value, r)))
        else Buckets(prev.emitted + (if prev.open.Some? then [prev.open.value] else []), Some(Add(Bucket(key, 0, 0, 0), r)))
  {
    assert (rs + [r])[..|rs|] == rs;
  }

  /** The number of records whose key differs from the previous record's. */
  function Changes(rs: seq<seq<int>>): nat
    requires Arity(rs)
  {
    if |rs| <= 1 then 0
    else Changes(rs[..|rs| - 1]) + if TimeKey(SentTime(rs[|rs| - 1])) != TimeKey(SentTime(rs[|rs| - 2])) then 1 else 0
  }

  /**
   * A bucket is open exactly when a record was read, and its key is the
   * last record's; one bucket is plotted per change of key, so the last
   * open bucket is never plotted.
   */
  lemma {:induction false} BucketCount(rs: seq<seq<int>>)
    requires Arity(rs)
    ensures Bucketize(rs).open.Some? <==> rs != []
    ensures rs != [] ==> Bucketize(rs).open.value.x == TimeKey(SentTime(rs[|rs| - 1]))
    ensures |Bucketize(rs).emitted| == Changes(rs)
  {
    if rs != [] {
      BucketCount(rs[..|rs| - 1]);
      if |rs| >= 2 {
        assert rs[..|rs| - 1][|rs| - 2] == rs[|rs| - 2];
      }
    }
  }

  /** Consecutive buckets have different keys, the open one included. */
  predicate KeysChange(b: Buckets)
  {
    && (forall i :: 0 < i < |b.emitted| ==> b.emitted[i - 1].x != b.emitted[i].x)
    && (b.open.Some? && b.emitted != [] ==> b.emitted[|b.emitted| - 1].x != b.open.value.x)
  }

  lemma {:induction false} BucketKeysChange(rs: seq<seq<int>>)
    requires Arity(rs)
    ensures KeysChange(Bucketize(rs))
  {
    if rs != [] {
      BucketKeysChange(rs[..|rs| - 1]);
    }
  }

  function SumTotals(bs: seq<Bucket>): int
  {
    if bs == [] then 0 else SumTotals(bs[..|bs| - 1]) + Total(bs[|bs| - 1])
  }

  /** The bits of all classified packets of the records. */
  function SumBits(rs: seq<seq<int>>): int
    requires Arity(rs)
  {
    if rs == [] then 0 else SumBits(rs[..|rs| - 1]) + Bits(rs[|rs| - 1])
  }

  lemma SumTotalsAppend(bs: seq<Bucket>, b: Bucket)
    ensures SumTotals(bs + [b]) == SumTotals(bs) + Total(b)
  {
    assert (bs + [b])[..|bs|] == bs;
  }

  /** Conservation: the plotted buckets and the open one hold 8 bits per byte of every classified packet. */
  lemma {:induction false} Conservation(rs: seq<seq<int>>)
    requires Arity(rs)
    ensures var b := Bucketize(rs);
      SumTotals(b.emitted) + (if b.open.Some? then Total(b.open.value) else 0) == SumBits(rs)
  {
    if rs != [] {
      var prev := Bucketize(rs[..|rs| - 1]);
      Conservation(rs[..|rs| - 1]);
      if prev.open.Some? {
        SumTotalsAppend(prev.emitted, prev.open.value);
      }
    }
  }

  /** The points of one channel: one per plotted bucket, at its key. */
  function Plot(bs: seq<Bucket>, ch: Channel): (ps: seq<Point>)
    ensures |ps| == |bs|
  {
    if bs == [] then [] else Plot(bs[..|bs| - 1], ch) + [Point(bs[|bs| - 1].x as real, Value(bs[|bs| - 1], ch) as real)]
  }

  lemma PlotAppend(bs: seq<Bucket>, b: Bucket, ch: Channel)
    ensures Plot(bs + [b], ch) == Plot(bs, ch) + [Point(b.x as real, Value(b, ch) as real)]
  {
    assert (bs + [b])[..|bs|] == bs;
  }

  /** The i-th point of a channel is the i-th bucket's key and that channel's bits. */
  lemma {:induction false} PlotAt(bs: seq<Bucket>, ch: Channel, i: nat)
    requires i < |bs|
    ensures Plot(bs, ch)[i] == Point(bs[i].x as real, Value(bs[i], ch) as real)
  {
    if i < |bs| - 1 {
      PlotAt(bs[..|bs| - 1], ch, i);
    }
  }

  /** Media, rtx and probing are plotted at the same x positions. */
  lemma PlotsAligned(bs: seq<Bucket>, a: Channel, c: Channel)
    ensures |Plot(bs, a)| == |Plot(bs, c)|
    ensures forall i :: 0 <= i < |bs| ==> Plot(bs, a)[i].x == Plot(bs, c)[i].x
  {
    forall i | 0 <= i < |bs| ensures Plot(bs, a)[i].x == Plot(bs, c)[i].x {
      PlotAt(bs, a, i);
      PlotAt(bs, c, i);
    }
  }

  /** Send time in seconds (`sent_time / 1000000.f`, without float rounding). */
  function Seconds(r: seq<int>): real
    requires |r| == 17
  {
    SentTime(r) as real / 1000000.0
  }

  /** The RTT points: one per record, in order. */
  function RttPlot(rs: seq<seq<int>>): (ps: seq<Point>)
    requires Arity(rs)
    ensures |ps| == |rs|
  {
    if rs == [] then [] else RttPlot(rs[..|rs| - 1]) + [Point(Seconds(rs[|rs| - 1]), RttOf(rs[|rs| - 1]) as real)]
  }

  /** The min-RTT points: one per record, in order. */
  function MinRttPlot(rs: seq<seq<int>>): (ps: seq<Point>)
    requires Arity(rs)
    ensures |ps| == |rs|
  {
    if rs == [] then [] else MinRttPlot(rs[..|rs| - 1]) + [Point(Seconds(rs[|rs| - 1]), MinRttOf(rs[|rs| - 1]) as real)]
  }

  lemma RttPlotAppend(rs: seq<seq<int>>, r: seq<int>)
    requires Arity(rs) && |r| == 17
    ensures Arity(rs + [r])
    ensures RttPlot(rs + [r]) == RttPlot(rs) + [Point(Seconds(r), RttOf(r) as real)]
    ensures MinRttPlot(rs + [r]) == MinRttPlot(rs) + [Point(Seconds(r), MinRttOf(r) as real)]
  {
    assert (rs + [r])[..|rs|] == rs;
  }

  /** The i-th RTT and min-RTT points come from the i-th record. */
  lemma {:induction false} RttPlotAt(rs: seq<seq<int>>, i: nat)
    requires Arity(rs) && i < |rs|
    ensures RttPlot(rs)[i] == Point(Seconds(rs[i]), RttOf(rs[i]) as real)
    ensures MinRttPlot(rs)[i] == Point(Seconds(rs[i]), MinRttOf(rs[i]) as real)
  {
    if i < |rs| - 1 {
      RttPlotAt(rs[..|rs| - 1], i);
    }
  }

  // ---------------------------------------------------------------------
  // The display.

  /** `QPoint`: integer coordinates. */
  datatype IntPoint = IntPoint(x: int, y: int)

  function ToPoint(p: IntPoint): Point
  {
    Point(p.x as real, p.y as real)
  }

  /** The loop's locals: `start` and the three open points. */
  datatype Acc = Acc(start: bool, media: IntPoint, rtx: IntPoint, probing: IntPoint)

  /** The locals hold the open bucket, if any. */
  predicate Tracks(a: Acc, b: Buckets)
  {
    && (a.start <==> b.open.None?)
    && (!a.start ==>
          && a.media.x == b.open.value.x && a.rtx.x == b.open.value.x && a.probing.x == b.open.value.x
          && a.media.y == b.open.value.media && a.rtx.y == b.open.value.rtx && a.probing.y == b.open.value.probing)
  }

  /** The series `load` creates, by key. */
  datatype Ids = Ids(media: SeriesId, rtx: SeriesId, probing: SeriesId, rtt: SeriesId, minRtt: SeriesId)

  /** The five ids, as a set. */
  function IdSet(ids: Ids): set<SeriesId>
  {
    {ids.media, ids.rtx, ids.probing, ids.rtt, ids.minRtt}
  }

  /** Every series of `s0` is in `s1`, unchanged. */
  ghost predicate Extends(s0: map<SeriesId, Series>, s1: map<SeriesId, Series>)
  {
    forall j :: j in s0 ==> j in s1 && s1[j] == s0[j]
  }

  /** Every series of `s0` other than the five of `ids` is in `s1`, unchanged: other experiments keep their curves. */
  ghost predicate KeepsOthers(s0: map<SeriesId, Series>, s1: map<SeriesId, Series>, ids: Ids)
  {
    forall j :: j in s0 && j !in IdSet(ids) ==> j in s1 && s1[j] == s0[j]
  }

  /** `b` is `a` with other points: the same name, pen and axes. */
  predicate Repointed(a: Series, b: Series)
  {
    b.name == a.name && b.pen == a.pen && b.axes == a.axes
  }

  /** From `s0` to `s1` the five series of `ids` change at most their points. */
  ghost predicate KeepsLooks(s0: map<SeriesId, Series>, s1: map<SeriesId, Series>, ids: Ids)
  {
    && ids.media in s0 && ids.media in s1 && Repointed(s0[ids.media], s1[ids.media])
    && ids.rtx in s0 && ids.rtx in s1 && Repointed(s0[ids.rtx], s1[ids.rtx])
    && ids.probing in s0 && ids.probing in s1 && Repointed(s0[ids.probing], s1[ids.probing])
    && ids.rtt in s0 && ids.rtt in s1 && Repointed(s0[ids.rtt], s1[ids.rtt])
    && ids.minRtt in s0 && ids.minRtt in s1 && Repointed(s0[ids.minRtt], s1[ids.minRtt])
  }

  lemma KeepsLooksTrans(s0: map<SeriesId, Series>, s1: map<SeriesId, Series>, s2: map<SeriesId, Series>, ids: Ids)
    requires KeepsLooks(s0, s1, ids) && KeepsLooks(s1, s2, ids)
    ensures KeepsLooks(s0, s2, ids)
  {
  }

  /** A series as `add_serie` leaves it under the default experiment info: its pen restyled, all else as it was. */
  function Dot(a: Series): Series
  {
    a.(pen := StyledPen(a.pen, DefaultInfo))
  }

  /** From `s0` to `s1` each of the five series of `ids` is charted under the default info. */
  ghost predicate Dotted(s0: map<SeriesId, Series>, s1: map<SeriesId, Series>, ids: Ids)
  {
    && ids.media in s0 && ids.media in s1 && s1[ids.media] == Dot(s0[ids.media])
    && ids.rtx in s0 && ids.rtx in s1 && s1[ids.rtx] == Dot(s0[ids.rtx])
    && ids.probing in s0 && ids.probing in s1 && s1[ids.probing] == Dot(s0[ids.probing])
    && ids.rtt in s0 && ids.rtt in s1 && s1[ids.rtt] == Dot(s0[ids.rtt])
    && ids.minRtt in s0 && ids.minRtt in s1 && s1[ids.minRtt] == Dot(s0[ids.minRtt])
  }

  /**
   * The five series of `ids` carry the names `create_serie` gives them for
   * the experiment directory `dir`, the pen `pen`, and no axis.
   */
  ghost predicate Dressed(s: map<SeriesId, Series>, ids: Ids, dir: string, pen: Pen)
  {
    && ids.media in s && s[ids.media].name == SerieName("Media", dir)
    && ids.rtx in s && s[ids.rtx].name == SerieName("RTX", dir)
    && ids.probing in s && s[ids.probing].name == SerieName("Probing", dir)
    && ids.rtt in s && s[ids.rtt].name == SerieName("RTT", dir)
    && ids.minRtt in s && s[ids.minRtt].name == SerieName("Min rtt", dir)
    && s[ids.media].pen == pen && s[ids.rtx].pen == pen && s[ids.probing].pen == pen
    && s[ids.rtt].pen == pen && s[ids.minRtt].pen == pen
    && s[ids.media].axes == [] && s[ids.rtx].axes == [] && s[ids.probing].axes == []
    && s[ids.rtt].axes == [] && s[ids.minRtt].axes == []
  }

  /**
   * Series created with the default pen, then drawn, then charted under the
   * default info keep their names and end up dotted in the theme colour.
   */
  lemma DressedDotted(s0: map<SeriesId, Series>, s1: map<SeriesId, Series>, s2: map<SeriesId, Series>, ids: Ids, dir: string)
    requires Dressed(s0, ids, dir, DefaultPen) && KeepsLooks(s0, s1, ids) && Dotted(s1, s2, ids)
    ensures Dressed(s2, ids, dir, Pen(ThemeColor, DotLine))
  {
    DefaultInfoDotted(DefaultPen);
  }

  /** Adding a series under a fresh id keeps every other. */
  lemma FreshExtends(s0: map<SeriesId, Series>, s1: map<SeriesId, Series>, id: SeriesId, v: Series)
    requires id !in s0 && s1 == s0[id := v]
    ensures Extends(s0, s1)
  {
  }

  lemma ExtendsTrans(s0: map<SeriesId, Series>, s1: map<SeriesId, Series>, s2: map<SeriesId, Series>)
    requires Extends(s0, s1) && Extends(s1, s2)
    ensures Extends(s0, s2)
  {
  }

  /** Two writes of the entry at `p` leave the other paths' maps as they were. */
  lemma RewrittenAt(k0: map<Path, StatMap>, k1: map<Path, StatMap>, k2: map<Path, StatMap>, p: Path)
    requires p in k2 && k2 == k1[p := k2[p]]
    requires k1 == k0 || (p in k1 && k1 == k0[p := k1[p]])
    ensures k2 == k0[p := k2[p]]
  {
  }

  /** Series kept unchanged through a step that changes only the five of `ids` are kept through both steps. */
  lemma ExtendsThrough(s0: map<SeriesId, Series>, s1: map<SeriesId, Series>, s2: map<SeriesId, Series>, ids: Ids)
    requires Extends(s0, s1) && KeepsOthers(s1, s2, ids)
    requires forall j :: j in s0 ==> j !in IdSet(ids)
    ensures Extends(s0, s2)
  {
  }

  lemma KeepsOthersTrans(s0: map<SeriesId, Series>, s1: map<SeriesId, Series>, s2: map<SeriesId, Series>, ids: Ids)
    requires KeepsOthers(s0, s1, ids) && KeepsOthers(s1, s2, ids)
    ensures KeepsOthers(s0, s2, ids)
  {
  }

  /** Series allocated before `n` are none of the five created from `n` on. */
  lemma FreshIds(s0: map<SeriesId, Series>, n: SeriesId, ids: Ids)
    requires forall j :: j in s0 ==> j < n
    requires ids == Ids(n, n + 1, n + 2, n + 3, n + 4)
    ensures forall j :: j in s0 ==> j !in IdSet(ids)
  {
  }

  /**
   * The charts after the five `add_serie` calls of `load`: media, rtx and
   * probing added to the bitrate chart, RTT and min RTT to the RTT chart.
   */
  function ShownCharts(c: map<ChartId, seq<SeriesId>>, ids: Ids, bitrate: ChartId, rtt: ChartId): map<ChartId, seq<SeriesId>>
    requires bitrate in c && rtt in c
  {
    c[bitrate := Attach(Attach(Attach(c[bitrate], ids.media), ids.rtx), ids.probing)]
     [rtt := Attach(Attach(c[rtt], ids.rtt), ids.minRtt)]
  }

  /** Two updates of one chart are the second update. */
  lemma Rechart(c0: map<ChartId, seq<SeriesId>>, c1: map<ChartId, seq<SeriesId>>, c2: map<ChartId, seq<SeriesId>>,
                k: ChartId, a: seq<SeriesId>, b: seq<SeriesId>)
    requires c1 == c0[k := a] && c2 == c1[k := b]
    ensures c2 == c0[k := b]
  {
  }

  /** The five series of `ids` are in `s`. */
  predicate Present(s: map<SeriesId, Series>, ids: Ids)
  {
    ids.media in s && ids.rtx in s && ids.probing in s && ids.rtt in s && ids.minRtt in s
  }

  /** The series after the five `add_serie` calls of `load`: each of the five dotted, in turn. */
  function ShownSeries(s: map<SeriesId, Series>, ids: Ids): map<SeriesId, Series>
    requires Present(s, ids)
  {
    var s3 := s[ids.media := Dot(s[ids.media])][ids.rtx := Dot(s[ids.rtx])][ids.probing := Dot(s[ids.probing])];
    s3[ids.rtt := Dot(s3[ids.rtt])][ids.minRtt := Dot(s3[ids.minRtt])]
  }

  /** The five `add_serie` calls dot each of the five series and keep every other. */
  lemma ShownSeriesSpec(s: map<SeriesId, Series>, ids: Ids)
    requires Apart(ids) && Present(s, ids)
    ensures ShownSeries(s, ids).Keys == s.Keys
    ensures KeepsOthers(s, ShownSeries(s, ids), ids) && Dotted(s, ShownSeries(s, ids), ids)
  {
  }

  predicate Apart(ids: Ids)
  {
    && ids.media != ids.rtx && ids.media != ids.probing && ids.media != ids.rtt && ids.media != ids.minRtt
    && ids.rtx != ids.probing && ids.rtx != ids.rtt && ids.rtx != ids.minRtt
    && ids.probing != ids.rtt && ids.probing != ids.minRtt && ids.rtt != ids.minRtt
  }

  /** A stored map holds the table's entries, each with whatever series was last created for it. */
  predicate Shaped(m: StatMap, table: StatMap)
  {
    || |m| == 0
    || (&& m.Keys == table.Keys
        && forall k :: k in m ==> m[k].name == table[k].name && m[k].chart == table[k].chart && m[k].info == table[k].info)
  }

  /** `create_serie` keeps a stored map in the table's shape, and names the series after the table. */
  lemma ShapedStore(m: StatMap, table: StatMap, key: Key, id: SeriesId)
    requires Shaped(m, table) && key in table
    ensures var f := if |m| == 0 then table else m;
      && Shaped(Store(f, key, id), table)
      && Lookup(f, key).name == table[key].name
  {
  }

  class MedoozeDisplay {
    const base: Display
    const bitrate: ChartId
    const rtt: ChartId

    predicate Valid()
      reads this, base
    {
      && base.Valid() && Tabled(base.table, bitrate, rtt) && bitrate != rtt
      && bitrate in base.charts && rtt in base.charts
      && forall q :: q in base.pathKeys ==> Shaped(base.pathKeys[q], base.table)
    }

    constructor()
      ensures Valid() && fresh(base)
      ensures base.pathKeys == map[] && base.series == map[] && base.charts == map[bitrate := [], rtt := []]
    {
      bitrate := 0;
      rtt := 1;
      base := new Display(Table(0, 1), {0, 1});
      TableIsTabled(0, 1);
    }

    /** The five series of `p` are the ones in `ids`, alive and distinct. */
    predicate Holds(p: Path, ids: Ids)
      reads this, base
    {
      && Apart(ids)
      && base.SerieAt(p, MEDIA) == Some(ids.media) && base.SerieAt(p, RTX) == Some(ids.rtx)
      && base.SerieAt(p, PROBING) == Some(ids.probing) && base.SerieAt(p, RTT) == Some(ids.rtt)
      && base.SerieAt(p, MINRTT) == Some(ids.minRtt)
      && ids.media in base.series && ids.rtx in base.series && ids.probing in base.series
      && ids.rtt in base.series && ids.minRtt in base.series
    }

    /** The media, rtx and probing series show the plotted buckets. */
    predicate DrawnBuckets(p: Path, ids: Ids, bs: seq<Bucket>)
      requires Holds(p, ids)
      reads this, base
    {
      && base.series[ids.media].points == Plot(bs, MediaCh)
      && base.series[ids.rtx].points == Plot(bs, RtxCh)
      && base.series[ids.probing].points == Plot(bs, ProbingCh)
    }

    /** The RTT and min-RTT series show one point per record of `rs`. */
    predicate DrawnRtt(p: Path, ids: Ids, rs: seq<seq<int>>)
      requires Holds(p, ids) && Arity(rs)
      reads this, base
    {
      && base.series[ids.rtt].points == RttPlot(rs)
      && base.series[ids.minRtt].points == MinRttPlot(rs)
    }

    /** The five series show what the records `rs` produce. */
    predicate Drawn(p: Path, ids: Ids, rs: seq<seq<int>>)
      requires Holds(p, ids) && Arity(rs)
      reads this, base
    {
      DrawnBuckets(p, ids, Bucketize(rs).emitted) && DrawnRtt(p, ids, rs)
    }

    /** The closing of a bucket: its three points, media, rtx, probing. */
    method Flush(p: Path, ids: Ids, a: Acc)
      requires Holds(p, ids)
      modifies base
      ensures Holds(p, ids)
      ensures base.series == old(base.series)[
                ids.media := old(base.series)[ids.media].(points := old(base.series)[ids.media].points + [ToPoint(a.media)])][
                ids.rtx := old(base.series)[ids.rtx].(points := old(base.series)[ids.rtx].points + [ToPoint(a.rtx)])][
                ids.probing := old(base.series)[ids.probing].(points := old(base.series)[ids.probing].points + [ToPoint(a.probing)])]
      ensures KeepsLooks(old(base.series), base.series, ids)
      ensures base.pathKeys == old(base.pathKeys) && base.charts == old(base.charts)
      ensures base.nextId == old(base.nextId) && base.infoItems == old(base.infoItems)
    {
      base.AddPoint(p, MEDIA, ToPoint(a.media));
      base.AddPoint(p, RTX, ToPoint(a.rtx));
      base.AddPoint(p, PROBING, ToPoint(a.probing));
    }

    /** The per-record RTT and min-RTT points. */
    method PlotRtt(p: Path, ids: Ids, r: seq<int>)
      requires Holds(p, ids) && |r| == 17
      modifies base
      ensures Holds(p, ids)
      ensures base.series == old(base.series)[
                ids.rtt := old(base.series)[ids.rtt].(points := old(base.series)[ids.rtt].points + [Point(Seconds(r), RttOf(r) as real)])][
                ids.minRtt := old(base.series)[ids.minRtt].(points := old(base.series)[ids.minRtt].points + [Point(Seconds(r), MinRttOf(r) as real)])]
      ensures KeepsLooks(old(base.series), base.series, ids)
      ensures base.pathKeys == old(base.pathKeys) && base.charts == old(base.charts)
      ensures base.nextId == old(base.nextId) && base.infoItems == old(base.infoItems)
    {
      base.AddPoint(p, RTT, Point(Seconds(r), RttOf(r) as real));
      base.AddPoint(p, MINRTT, Point(Seconds(r), MinRttOf(r) as real));
    }

    /**
     * A record with a new key (or the first record): the open bucket, if
     * any, is plotted, and a new one opens at the key with nothing in it.
     */
    method Reopen(p: Path, ids: Ids, a: Acc, key: int, ghost bs: seq<Bucket>, ghost open: Option<Bucket>) returns (next: Acc)
      requires Holds(p, ids) && DrawnBuckets(p, ids, bs) && Tracks(a, Buckets(bs, open))
      modifies base
      ensures Holds(p, ids)
      ensures DrawnBuckets(p, ids, bs + if open.Some? then [open.value] else [])
      ensures next == Acc(false, IntPoint(key, 0), IntPoint(key, 0), IntPoint(key, 0))
      ensures base.series[ids.rtt] == old(base.series[ids.rtt]) && base.series[ids.minRtt] == old(base.series[ids.minRtt])
      ensures base.pathKeys == old(base.pathKeys) && base.charts == old(base.charts)
      ensures base.nextId == old(base.nextId) && base.infoItems == old(base.infoItems)
      ensures base.series.Keys == old(base.series).Keys && KeepsOthers(old(base.series), base.series, ids)
      ensures KeepsLooks(old(base.series), base.series, ids)
    {
      if !a.start {
        Flush(p, ids, a);
        PlotAppend(bs, open.value, MediaCh);
        PlotAppend(bs, open.value, RtxCh);
        PlotAppend(bs, open.value, ProbingCh);
      } else {
        assert bs + [] == bs;
      }
      next := Acc(false, IntPoint(key, 0), IntPoint(key, 0), IntPoint(key, 0));
    }

    /**
     * The bucket a record goes into: the open one if the record's key is its
     * key, otherwise a new one, after the open one is plotted.
     */
    method Open(p: Path, ids: Ids, r: seq<int>, a: Acc, ghost done: seq<seq<int>>) returns (next: Acc)
      requires Holds(p, ids) && Arity(done) && |r| == 17
      requires DrawnBuckets(p, ids, Bucketize(done).emitted) && Tracks(a, Bucketize(done))
      modifies base
      ensures Arity(done + [r]) && Holds(p, ids)
      ensures DrawnBuckets(p, ids, Bucketize(done + [r]).emitted) && Tracks(Accumulate(next, r), Bucketize(done + [r]))
      ensures base.series[ids.rtt] == old(base.series[ids.rtt]) && base.series[ids.minRtt] == old(base.series[ids.minRtt])
      ensures base.pathKeys == old(base.pathKeys) && base.charts == old(base.charts)
      ensures base.nextId == old(base.nextId) && base.infoItems == old(base.infoItems)
      ensures base.series.Keys == old(base.series).Keys && KeepsOthers(old(base.series), base.series, ids)
      ensures KeepsLooks(old(base.series), base.series, ids)
    {
      BucketizeStep(done, r);
      var timestamp := TimeKey(SentTime(r));
      next := a;
      if a.start || timestamp != a.media.x {
        next := Reopen(p, ids, a, timestamp, Bucketize(done).emitted, Bucketize(done).open);
      }
    }

    /** One turn of the record loop. */
    method Consume(p: Path, ids: Ids, r: seq<int>, a: Acc, ghost done: seq<seq<int>>) returns (next: Acc)
      requires Holds(p, ids) && Arity(done) && |r| == 17
      requires Drawn(p, ids, done) && Tracks(a, Bucketize(done))
      modifies base
      ensures Arity(done + [r]) && Holds(p, ids)
      ensures Drawn(p, ids, done + [r]) && Tracks(next, Bucketize(done + [r]))
      ensures base.pathKeys == old(base.pathKeys) && base.charts == old(base.charts)
      ensures base.nextId == old(base.nextId) && base.infoItems == old(base.infoItems)
      ensures base.series.Keys == old(base.series).Keys && KeepsOthers(old(base.series), base.series, ids)
      ensures KeepsLooks(old(base.series), base.series, ids)
    {
      RttPlotAppend(done, r);
      var current := Open(p, ids, r, a, done);
      ghost var reopened := base.series;
      next := Accumulate(current, r);
      PlotRtt(p, ids, r);
      KeepsLooksTrans(old(base.series), reopened, base.series, ids);
    }

    /** `create_serie` on this display for the `i`-th key of `Order`, keeping its maps in the table's shape. */
    method Create(p: Path, key: Key, ghost n: SeriesId, ghost i: nat)
      requires Valid() && i < |Order| && key == Order[i]
      requires base.nextId == n + i && Created(p, n, i)
      requires i > 0 ==> p in base.pathKeys && |base.pathKeys[p]| != 0
      modifies base
      ensures Valid() && base.nextId == old(base.nextId) + 1 && Created(p, n, i + 1)
      ensures p in base.pathKeys && |base.pathKeys[p]| != 0
      ensures base.pathKeys == old(base.pathKeys)[p := base.pathKeys[p]]
      ensures Extends(old(base.series), base.series)
      ensures base.charts == old(base.charts) && base.infoItems == old(base.infoItems)
    {
      ShapedStore(MapOf(base.pathKeys, p), base.table, key, base.nextId);
      TabledAt(base.table, bitrate, rtt, key);
      base.CreateSerie(p, key);
      FreshExtends(old(base.series), base.series, old(base.nextId), base.series[old(base.nextId)]);
      CreatedStep(old(MapOf(base.pathKeys, p)), base.table, old(base.series), Filename(p), n, i,
                  key, old(base.nextId), MapOf(base.pathKeys, p), base.series);
    }

    /** The series of the first `i` keys of `Order` were created for `p` from id `n` on. */
    ghost predicate Created(p: Path, n: SeriesId, i: nat)
      requires i <= |Order|
      reads this, base
    {
      CreatedIn(MapOf(base.pathKeys, p), base.series, Filename(p), n, i)
    }

    /** The five series as `create_serie` leaves them: empty, named after metric and experiment, default pen. */
    predicate Blank(p: Path, ids: Ids)
      requires Holds(p, ids)
      reads this, base
    {
      && base.series[ids.media] == Series(SerieName("Media", Filename(p)), [], DefaultPen, [])
      && base.series[ids.rtx] == Series(SerieName("RTX", Filename(p)), [], DefaultPen, [])
      && base.series[ids.probing] == Series(SerieName("Probing", Filename(p)), [], DefaultPen, [])
      && base.series[ids.rtt] == Series(SerieName("RTT", Filename(p)), [], DefaultPen, [])
      && base.series[ids.minRtt] == Series(SerieName("Min rtt", Filename(p)), [], DefaultPen, [])
    }

    /** The five `create_serie` calls of `load`: media, rtx, probing, RTT, min RTT. */
    method CreateAll(p: Path) returns (ids: Ids)
      requires Valid()
      modifies base
      ensures Valid() && Holds(p, ids)
      ensures var n := old(base.nextId); ids == Ids(n, n + 1, n + 2, n + 3, n + 4) && base.nextId == n + 5
      ensures Blank(p, ids)
      ensures p in base.pathKeys && |base.pathKeys[p]| != 0
      ensures base.pathKeys == old(base.pathKeys)[p := base.pathKeys[p]]
      ensures Extends(old(base.series), base.series) && forall j :: j in old(base.series) ==> j !in IdSet(ids)
      ensures base.charts == old(base.charts) && base.infoItems == old(base.infoItems)
    {
      var n := base.nextId;
      FreshIds(base.series, n, Ids(n, n + 1, n + 2, n + 3, n + 4));
      for i := 0 to |Order|
        invariant Valid() && base.nextId == n + i && Created(p, n, i)
        invariant i > 0 ==> p in base.pathKeys && |base.pathKeys[p]| != 0
        invariant base.pathKeys == if i == 0 then old(base.pathKeys) else old(base.pathKeys)[p := base.pathKeys[p]]
        invariant Extends(old(base.series), base.series)
        invariant base.charts == old(base.charts) && base.infoItems == old(base.infoItems)
      {
        ghost var k0, s0 := base.pathKeys, base.series;
        Create(p, Order[i], n, i);
        ExtendsTrans(old(base.series), s0, base.series);
        RewrittenAt(old(base.pathKeys), k0, base.pathKeys, p);
      }
      ids := Ids(n, n + 1, n + 2, n + 3, n + 4);
      CreatedAll(MapOf(base.pathKeys, p), base.series, Filename(p), n);
    }

    /** The series are in their charts and drawn with their pens. */
    predicate Charted(ids: Ids)
      reads this, base
    {
      && bitrate in base.charts && rtt in base.charts
      && ids.media in base.charts[bitrate] && ids.rtx in base.charts[bitrate] && ids.probing in base.charts[bitrate]
      && ids.rtt in base.charts[rtt] && ids.minRtt in base.charts[rtt]
    }

    /** `add_serie` on one of the five series: charted and dotted, its points untouched. */
    method Show(p: Path, key: Key, id: SeriesId)
      requires Valid() && key in Metrics && base.SerieAt(p, key) == Some(id) && id in base.series
      requires p in base.pathKeys && |base.pathKeys[p]| != 0
      modifies base
      ensures Valid() && p in base.pathKeys && base.pathKeys[p] == old(base.pathKeys[p])
      ensures base.pathKeys == old(base.pathKeys) && base.nextId == old(base.nextId) && base.infoItems == old(base.infoItems)
      ensures base.series == old(base.series)[id := Dot(old(base.series)[id])]
      ensures base.charts.Keys == old(base.charts).Keys
      ensures var c := ChartOf(key, bitrate, rtt); base.charts == old(base.charts)[c := Attach(old(base.charts)[c], id)]
    {
      TabledAt(base.table, bitrate, rtt, key);
      base.AddSerie(p, key, None, None);
    }

    /** The `add_serie` calls for media, RTX and probing, onto the bitrate chart. */
    method ShowBitrate(p: Path, ids: Ids)
      requires Valid() && Holds(p, ids) && p in base.pathKeys && |base.pathKeys[p]| != 0
      modifies base
      ensures Valid() && Holds(p, ids)
      ensures base.charts == old(base.charts)[bitrate := Attach(Attach(Attach(old(base.charts)[bitrate], ids.media), ids.rtx), ids.probing)]
      ensures base.series == old(base.series)[ids.media := Dot(old(base.series)[ids.media])]
                [ids.rtx := Dot(old(base.series)[ids.rtx])][ids.probing := Dot(old(base.series)[ids.probing])]
      ensures base.pathKeys == old(base.pathKeys) && base.nextId == old(base.nextId) && base.infoItems == old(base.infoItems)
    {
      ghost var c0 := base.charts;
      Show(p, MEDIA, ids.media);
      ghost var c1 := base.charts;
      Show(p, RTX, ids.rtx);
      ghost var c2 := base.charts;
      Show(p, PROBING, ids.probing);
      Rechart(c0, c1, c2, bitrate, Attach(c0[bitrate], ids.media), Attach(c1[bitrate], ids.rtx));
      Rechart(c0, c2, base.charts, bitrate, Attach(c1[bitrate], ids.rtx), Attach(c2[bitrate], ids.probing));
    }

    /** The `add_serie` calls for RTT and min RTT, onto the RTT chart. */
    method ShowRtt(p: Path, ids: Ids)
      requires Valid() && Holds(p, ids) && p in base.pathKeys && |base.pathKeys[p]| != 0
      modifies base
      ensures Valid() && Holds(p, ids)
      ensures base.charts == old(base.charts)[rtt := Attach(Attach(old(base.charts)[rtt], ids.rtt), ids.minRtt)]
      ensures base.series == old(base.series)[ids.rtt := Dot(old(base.series)[ids.rtt])][ids.minRtt := Dot(old(base.series)[ids.minRtt])]
      ensures base.pathKeys == old(base.pathKeys) && base.nextId == old(base.nextId) && base.infoItems == old(base.infoItems)
    {
      ghost var c0 := base.charts;
      Show(p, RTT, ids.rtt);
      ghost var c1 := base.charts;
      Show(p, MINRTT, ids.minRtt);
      Rechart(c0, c1, base.charts, rtt, Attach(c0[rtt], ids.rtt), Attach(c1[rtt], ids.minRtt));
    }

    /** The five `add_serie` calls at the end of `load`. */
    method ShowAll(p: Path, ids: Ids)
      requires Valid() && Holds(p, ids) && p in base.pathKeys && |base.pathKeys[p]| != 0
      modifies base
      ensures Valid() && Holds(p, ids) && Charted(ids)
      ensures base.charts == ShownCharts(old(base.charts), ids, bitrate, rtt)
      ensures base.series == ShownSeries(old(base.series), ids)
      ensures base.pathKeys == old(base.pathKeys) && base.nextId == old(base.nextId) && base.infoItems == old(base.infoItems)
    {
      ShowBitrate(p, ids);
      ShowRtt(p, ids);
    }

    /** The loop over the relay log's records, from a fresh start. */
    method PlotRecords(p: Path, ids: Ids, rs: seq<seq<int>>)
      requires Holds(p, ids) && Arity(rs)
      requires base.series[ids.media].points == [] && base.series[ids.rtx].points == []
      requires base.series[ids.probing].points == [] && base.series[ids.rtt].points == []
      requires base.series[ids.minRtt].points == []
      modifies base
      ensures Holds(p, ids) && Drawn(p, ids, rs)
      ensures base.pathKeys == old(base.pathKeys) && base.charts == old(base.charts)
      ensures base.nextId == old(base.nextId) && base.infoItems == old(base.infoItems)
      ensures base.series.Keys == old(base.series).Keys && KeepsOthers(old(base.series), base.series, ids)
      ensures KeepsLooks(old(base.series), base.series, ids)
    {
      var a := Acc(true, IntPoint(0, 0), IntPoint(0, 0), IntPoint(0, 0));
      assert rs[..0] == [];
      for i := 0 to |rs|
        invariant Arity(rs[..i]) && Holds(p, ids) && Drawn(p, ids, rs[..i]) && Tracks(a, Bucketize(rs[..i]))
        invariant base.pathKeys == old(base.pathKeys) && base.charts == old(base.charts)
        invariant base.nextId == old(base.nextId) && base.infoItems == old(base.infoItems)
        invariant base.series.Keys == old(base.series).Keys && KeepsOthers(old(base.series), base.series, ids)
        invariant KeepsLooks(old(base.series), base.series, ids)
      {
        assert rs[..i + 1] == rs[..i] + [rs[i]];
        ghost var before := base.series;
        a := Consume(p, ids, rs[i], a, rs[..i]);
        KeepsLooksTrans(old(base.series), before, base.series, ids);
      }
      assert rs[..|rs|] == rs;
    }

    /** The record loop and the five `add_serie` calls, on the five new series. */
    method Fill(p: Path, ids: Ids, rs: seq<seq<int>>)
      requires Valid() && Holds(p, ids) && Arity(rs) && Blank(p, ids)
      requires p in base.pathKeys && |base.pathKeys[p]| != 0
      modifies base
      ensures Valid() && Holds(p, ids) && Drawn(p, ids, rs) && Charted(ids)
      ensures Dressed(base.series, ids, Filename(p), Pen(ThemeColor, DotLine))
      ensures base.charts == ShownCharts(old(base.charts), ids, bitrate, rtt)
      ensures base.series.Keys == old(base.series).Keys && KeepsOthers(old(base.series), base.series, ids)
      ensures base.pathKeys == old(base.pathKeys) && base.nextId == old(base.nextId) && base.infoItems == old(base.infoItems)
    {
      PlotRecords(p, ids, rs);
      ghost var plotted := base.series;
      ShowAll(p, ids);
      ShownSeriesSpec(plotted, ids);
      KeepsOthersTrans(old(base.series), plotted, base.series, ids);
      DressedDotted(old(base.series), plotted, base.series, ids, Filename(p));
    }

    /**
     * The reading of the relay log at `path` into the five new series: a
     * reader of 17 ints per line, then `Fill`; if the file cannot be opened
     * the reader throws and nothing changes.
     */
    method Read(p: Path, ids: Ids, path: Path, fs: Csv.FileSystem) returns (r: Outcome<string>)
      requires Valid() && Holds(p, ids) && Blank(p, ids)
      requires p in base.pathKeys && |base.pathKeys[p]| != 0
      modifies base
      ensures Valid() && Holds(p, ids)
      ensures r == (if Csv.Openable(fs, path) then Pass else Fail(Csv.OpenError))
      ensures r.Fail? ==> base.charts == old(base.charts) && base.series == old(base.series)
      ensures r.Pass? ==>
        var rs := Csv.Records(Csv.Start(fs[path], ',', 17), ',');
        Arity(rs) && Drawn(p, ids, rs) && Charted(ids)
      ensures r.Pass? ==> Dressed(base.series, ids, Filename(p), Pen(ThemeColor, DotLine))
      ensures r.Pass? ==> base.charts == ShownCharts(old(base.charts), ids, bitrate, rtt)
      ensures base.series.Keys == old(base.series).Keys && KeepsOthers(old(base.series), base.series, ids)
      ensures base.pathKeys == old(base.pathKeys) && base.nextId == old(base.nextId) && base.infoItems == old(base.infoItems)
    {
      var reader := Csv.TypeRepeat('|', 0, 17);
      Csv.TypeRepeatIsCommaReader('|', 0, 17);
      var read := Csv.ReadAll(fs, path, reader.delimiter, |reader.fields|);
      if read.Failure? {
        return Fail(read.error);
      }
      ghost var c := Csv.Start(fs[path], ',', 17);
      assert |c.line| == 17;
      Fill(p, ids, read.value);
      r := Pass;
    }

    /**
     * `load`: the first relay CSV among the experiment's entries is read as
     * 17 ints per line; the five series are created, filled and charted. If
     * the file cannot be opened the reader throws, after the series were
     * created and before any was charted.
     */
    method Load(p: Path, entries: seq<Path>, fs: Csv.FileSystem) returns (r: Outcome<string>, ids: Ids)
      requires Valid()
      modifies base
      ensures Valid() && Holds(p, ids)
      ensures var n := old(base.nextId); ids == Ids(n, n + 1, n + 2, n + 3, n + 4) && base.nextId == n + 5
      ensures r == (if Csv.Openable(fs, RelayFile(entries)) then Pass else Fail(Csv.OpenError))
      ensures r.Fail? ==> base.charts == old(base.charts) && Blank(p, ids)
      ensures r.Pass? ==>
        var rs := Csv.Records(Csv.Start(fs[RelayFile(entries)], ',', 17), ',');
        Arity(rs) && Drawn(p, ids, rs) && Charted(ids)
      ensures r.Pass? ==> Dressed(base.series, ids, Filename(p), Pen(ThemeColor, DotLine))
      ensures r.Pass? ==> base.charts == ShownCharts(old(base.charts), ids, bitrate, rtt)
      ensures base.pathKeys == old(base.pathKeys)[p := base.pathKeys[p]]
      ensures Extends(old(base.series), base.series)
      ensures base.infoItems == old(base.infoItems)
    {
      var path := FindFirst(entries, IsRelayCsv);
      ids := CreateAll(p);
      ghost var created := base.series;
      r := Read(p, ids, path, fs);
      ExtendsThrough(old(base.series), created, base.series, ids);
    }
  }

  /** The three flag-guarded additions of a packet's bits to the open points. */
  function Accumulate(a: Acc, r: seq<int>): (next: Acc)
    requires |r| == 17
    ensures next.start == a.start && next.media.x == a.media.x && next.rtx.x == a.rtx.x && next.probing.x == a.probing.x
    ensures !a.start ==> Bucket(next.media.x, next.media.y, next.rtx.y, next.probing.y)
                         == Add(Bucket(a.media.x, a.media.y, a.rtx.y, a.probing.y), r)
  {
    var bits := PacketSize(r) * 8;
    a.(media := a.media.(y := a.media.y + (if RtxFlag(r) == 0 && ProbingFlag(r) == 0 then bits else 0)),
       probing := a.probing.(y := a.probing.y + (if RtxFlag(r) == 0 && ProbingFlag(r) == 1 then bits else 0)),
       rtx := a.rtx.(y := a.rtx.y + (if RtxFlag(r) == 1 && ProbingFlag(r) == 0 then bits else 0)))
  }
}
