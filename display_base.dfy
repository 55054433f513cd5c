/**
 * The bookkeeping every chart display shares: for each loaded experiment
 * (by path) a statistics map from key to (name, series, chart, info), the
 * series and charts those entries point to, and the experiment info items.
 *
 * Qt objects are modelled by identity: a `QLineSeries*` is a `SeriesId`
 * into the display's `series` store (absent once deleted), a `QChart*` a
 * `ChartId` whose value is the list of series it shows.
 */
module DisplayBase {
  import opened Wrappers
  import opened Paths
  import opened TextStream

  /** A statistic key (`uint8_t`). */
  type Key = k: int | 0 <= k < 256

  type SeriesId = nat
  type ChartId = nat
  type AxisId = nat

  datatype Point = Point(x: real, y: real)

  datatype Color = ThemeColor | Black | Blue | Red | DarkRed | DarkYellow | DarkCyan | DarkMagenta

  datatype PenStyle = SolidLine | DotLine

  datatype Pen = Pen(color: Color, style: PenStyle)

  /** The pen of a new line series: the theme's colour, a solid line. */
  const DefaultPen: Pen := Pen(ThemeColor, SolidLine)

  /** A line series: its legend name, its points in order, its pen and its attached axes. */
  datatype Series = Series(name: string, points: seq<Point>, pen: Pen, axes: seq<AxisId>)

  datatype QuicImpl = Mvfst | QuicGo | MsQuic | Quiche | Udp | NoImpl

  datatype CcAlgo = Bbr | Cubic | NewReno | Copa | NoCc

  /**
   * What is known of an experiment. `color` is the field the combined
   * display writes; `impl` and `cc` have no initialiser in the source and
   * are `NoImpl`/`NoCc` here.
   */
  datatype ExpInfo = ExpInfo(stream: bool, impl: QuicImpl, cc: CcAlgo, editable: bool,
                             shouldBeBlack: bool, implStr: string, ccStr: string, color: Color)

  /** The member initialisers: a streamed, editable experiment not drawn in black. */
  const DefaultInfo: ExpInfo := ExpInfo(true, NoImpl, NoCc, true, false, "", "", ThemeColor)

  /** One StatMap entry: (NAME, SERIE, CHART, INFO). */
  datatype Entry = Entry(name: string, serie: Option<SeriesId>, chart: Option<ChartId>, info: ExpInfo)

  /** The value-initialised tuple a QMap lookup of a missing key yields. */
  const EmptyEntry: Entry := Entry("", None, None, DefaultInfo)

  type StatMap = map<Key, Entry>

  function Lookup(m: StatMap, k: Key): Entry
  {
    if k in m then m[k] else EmptyEntry
  }

  function MapOf(keys: map<Path, StatMap>, p: Path): StatMap
  {
    if p in keys then keys[p] else map[]
  }

  /** The entry of `key` with its SERIE slot set to `id`. */
  function Store(m: StatMap, key: Key, id: SeriesId): (r: StatMap)
    ensures key in r && r[key].serie == Some(id)
  {
    m[key := Lookup(m, key).(serie := Some(id))]
  }

  // ---------------------------------------------------------------------
  // Qt lists that ignore duplicates and removals.

  /** Adding `x` to a list that refuses duplicates (`addSeries`, `attachAxis`). */
  function Attach(l: seq<nat>, x: nat): (r: seq<nat>)
    ensures forall y :: y in r <==> y in l || y == x
    ensures x in l ==> r == l
    ensures x !in l ==> r == l + [x]
  {
    if x in l then l else l + [x]
  }

  predicate Distinct(l: seq<nat>)
  {
    forall i, j :: 0 <= i < j < |l| ==> l[i] != l[j]
  }

  /** A list built with `Attach` holds each element once. */
  lemma AttachDistinct(l: seq<nat>, x: nat)
    requires Distinct(l)
    ensures Distinct(Attach(l, x))
  {
    if x !in l {
      var r := l + [x];
      forall i, j | 0 <= i < j < |r| ensures r[i] != r[j] {
        if j == |l| { assert r[i] == l[i]; }
      }
    }
  }

  /** `l` without any element of `ids`, in order (`removeSeries`, `detachAxis`). */
  function Detach(l: seq<nat>, ids: set<nat>): (r: seq<nat>)
    ensures forall y :: y in r <==> y in l && y !in ids
    ensures |r| <= |l|
  {
    if l == [] then []
    else (if l[0] in ids then [] else [l[0]]) + Detach(l[1..], ids)
  }

  /** Removing two sets one after the other removes their union. */
  lemma {:induction false} DetachTwice(l: seq<nat>, a: set<nat>, b: set<nat>)
    ensures Detach(Detach(l, a), b) == Detach(l, a + b)
  {
    if l != [] {
      DetachTwice(l[1..], a, b);
      var head := if l[0] in a then [] else [l[0]];
      assert Detach(l, a) == head + Detach(l[1..], a);
      if l[0] !in a {
        assert Detach(l, a)[1..] == Detach(l[1..], a);
      } else {
        assert Detach(l, a) == Detach(l[1..], a);
      }
    }
  }

  // ---------------------------------------------------------------------
  // The series pen and the series name.

  /**
   * The pen `add_serie` leaves on a charted series: a streamed experiment
   * is dotted, and one that should be black is solid black whatever else.
   */
  function StyledPen(pen: Pen, info: ExpInfo): (r: Pen)
    ensures info.shouldBeBlack ==> r == Pen(Black, SolidLine)
    ensures !info.shouldBeBlack ==> r.color == pen.color
    ensures !info.shouldBeBlack && info.stream ==> r.style == DotLine
    ensures !info.shouldBeBlack && !info.stream ==> r == pen
  {
    var dotted := if info.stream then pen.(style := DotLine) else pen;
    if info.shouldBeBlack then dotted.(color := Black, style := SolidLine) else dotted
  }

  /** Styling twice is styling once: charting a series again leaves its pen alone. */
  lemma StyledPenIdempotent(pen: Pen, info: ExpInfo)
    ensures StyledPen(StyledPen(pen, info), info) == StyledPen(pen, info)
  {
  }

  /** With the default info every charted series is drawn dotted in its own colour. */
  lemma DefaultInfoDotted(pen: Pen)
    ensures StyledPen(pen, DefaultInfo) == pen.(style := DotLine)
  {
  }

  /** The first `i` `'_'`-separated tokens of `dir`, written with '_' between them. */
  function ExpTag(dir: string, i: nat): string
  {
    if i == 0 then ""
    else if i == 1 then Field(dir, '_', 0)
    else ExpTag(dir, i - 1) + "_" + Field(dir, '_', i - 1)
  }

  /** The legend name of a series: the metric, then the experiment's first three tokens. */
  function SerieName(metric: string, dir: string): string
  {
    metric + " (" + ExpTag(dir, 3) + ")"
  }

  /** The token at `i`, or the empty string where the name has fewer tokens. */
  function TokenOrEmpty(tokens: seq<string>, i: nat): string
  {
    if i < |tokens| then tokens[i] else ""
  }

  lemma FieldOfTokens(tokens: seq<string>, i: nat)
    requires 1 <= |tokens| && forall k :: 0 <= k < |tokens| ==> Free(tokens[k], '_')
    ensures Field(JoinFields(tokens, '_'), '_', i) == TokenOrEmpty(tokens, i)
  {
    if i < |tokens| {
      FieldOfJoin(tokens, '_', i);
    } else {
      FieldPastJoin(tokens, '_', i);
    }
  }

  /** The name's tag is the first three fields, '_' between them. */
  lemma ExpTagOfThree(dir: string)
    ensures ExpTag(dir, 3) == Field(dir, '_', 0) + "_" + Field(dir, '_', 1) + "_" + Field(dir, '_', 2)
  {
    assert ExpTag(dir, 2) == Field(dir, '_', 0) + "_" + Field(dir, '_', 1);
  }

  /**
   * For a directory named `t0_t1_..._tn`, the series name is
   * "metric (t0_t1_t2)": later tokens are dropped, and missing ones are
   * empty with their separators still written ("a" gives "(a__)").
   */
  lemma SerieNameOfTokens(metric: string, tokens: seq<string>)
    requires 1 <= |tokens| && forall k :: 0 <= k < |tokens| ==> Free(tokens[k], '_')
    ensures SerieName(metric, JoinFields(tokens, '_'))
         == metric + " (" + (TokenOrEmpty(tokens, 0) + "_" + TokenOrEmpty(tokens, 1) + "_" + TokenOrEmpty(tokens, 2)) + ")"
  {
    var dir := JoinFields(tokens, '_');
    FieldOfTokens(tokens, 0);
    FieldOfTokens(tokens, 1);
    FieldOfTokens(tokens, 2);
    ExpTagOfThree(dir);
  }

  /**
   * The name-building loop of `create_serie`: three reads of a '_' token
   * from a string stream over the directory name, with '_' written before
   * the second and the third.
   */
  method FormatSerieName(metric: string, dir: string) returns (name: string)
    ensures name == SerieName(metric, dir)
  {
    name := metric + " " + "(";
    var expName := Good(dir, 0);
    StreamAtStart(dir, '_');
    for i := 0 to 3
      invariant expName == StreamAt(dir, '_', i)
      invariant name == metric + " (" + ExpTag(dir, i)
    {
      ReadField(dir, '_', i);
      var token := GetToken(expName, '_');
      if i != 0 {
        name := name + "_";
      }
      name := name + token.0;
      expName := token.1;
    }
    name := name + ")";
  }

  // ---------------------------------------------------------------------
  // What `unload` deletes.

  predicate Charted(e: Entry)
  {
    e.chart.Some? && e.serie.Some?
  }

  /** The series of the entries below key `n` that are both charted and stored. */
  function Deleted(m: StatMap, n: nat): set<SeriesId>
    requires n <= 256
  {
    if n == 0 then {}
    else
      var last := if n - 1 in m && Charted(m[n - 1]) then {m[n - 1].serie.value} else {};
      Deleted(m, n - 1) + last
  }

  /** A series is among them exactly when some entry below key `n` charts and stores it. */
  lemma {:induction false} DeletedSpec(m: StatMap, n: nat, x: SeriesId)
    requires n <= 256
    ensures x in Deleted(m, n) <==> exists k: Key :: k < n && k in m && Charted(m[k]) && m[k].serie.value == x
  {
    if n > 0 {
      DeletedSpec(m, n - 1, x);
      if (n - 1) in m && Charted(m[n - 1]) && m[n - 1].serie.value == x {
        var k: Key := n - 1;
        assert k < n && k in m && Charted(m[k]) && m[k].serie.value == x;
      }
    }
  }

  /** Those of them that chart `c` shows. */
  function DeletedFrom(m: StatMap, c: ChartId, n: nat): set<SeriesId>
    requires n <= 256
  {
    if n == 0 then {}
    else
      var last := if n - 1 in m && Charted(m[n - 1]) && m[n - 1].chart.value == c then {m[n - 1].serie.value} else {};
      DeletedFrom(m, c, n - 1) + last
  }

  /** The charts once the series of the entries below key `n` are removed from their own charts. */
  function ChartsAfter(c0: map<ChartId, seq<SeriesId>>, m: StatMap, n: nat): map<ChartId, seq<SeriesId>>
    requires n <= 256
  {
    map c | c in c0 :: Detach(c0[c], DeletedFrom(m, c, n))
  }

  lemma DetachNothing(l: seq<nat>)
    ensures Detach(l, {}) == l
  {
  }

  lemma ChartsAtStart(c0: map<ChartId, seq<SeriesId>>, m: StatMap)
    ensures ChartsAfter(c0, m, 0) == c0
  {
    forall c | c in c0 ensures Detach(c0[c], {}) == c0[c] { DetachNothing(c0[c]); }
  }

  lemma ChartsStep(c0: map<ChartId, seq<SeriesId>>, m: StatMap, k: nat)
    requires k < 256
    ensures ChartsAfter(c0, m, k + 1) ==
              if k in m && Charted(m[k]) && m[k].chart.value in c0 then
                var c := m[k].chart.value;
                ChartsAfter(c0, m, k)[c := Detach(ChartsAfter(c0, m, k)[c], {m[k].serie.value})]
              else ChartsAfter(c0, m, k)
  {
    forall c | c in c0
      ensures Detach(c0[c], DeletedFrom(m, c, k + 1)) ==
              if k in m && Charted(m[k]) && m[k].chart.value == c
              then Detach(Detach(c0[c], DeletedFrom(m, c, k)), {m[k].serie.value})
              else Detach(c0[c], DeletedFrom(m, c, k))
    {
      if k in m && Charted(m[k]) && m[k].chart.value == c {
        assert DeletedFrom(m, c, k + 1) == DeletedFrom(m, c, k) + {m[k].serie.value};
        DetachTwice(c0[c], DeletedFrom(m, c, k), {m[k].serie.value});
      } else {
        assert DeletedFrom(m, c, k + 1) == DeletedFrom(m, c, k);
      }
    }
  }

  lemma SeriesStep(s0: map<SeriesId, Series>, m: StatMap, k: nat)
    requires k < 256
    ensures s0 - Deleted(m, k + 1) == (s0 - Deleted(m, k)) - if k in m && Charted(m[k]) then {m[k].serie.value} else {}
  {
  }

  /** The info item texts without those equal to `text`, in order. */
  function RemoveItems(items: seq<string>, text: string): (r: seq<string>)
    ensures forall t :: t in r <==> t in items && t != text
    ensures |r| <= |items|
  {
    if items == [] then []
    else (if items[0] == text then [] else [items[0]]) + RemoveItems(items[1..], text)
  }

  // ---------------------------------------------------------------------

  class Display {
    /** `_path_keys`: the statistics map of each experiment, by path. */
    var pathKeys: map<Path, StatMap>
    /** The line series alive, by identity. */
    var series: map<SeriesId, Series>
    /** The series each chart shows, in the order they were added. */
    var charts: map<ChartId, seq<SeriesId>>
    /** The texts of the experiment info items. */
    var infoItems: seq<string>
    /** The identity the next new series gets. */
    var nextId: SeriesId
    /** What the concrete display's `init_map` writes into an empty map. */
    const table: StatMap

    /** Every stored series was allocated before `nextId`. */
    predicate Valid()
      reads this`series, this`nextId
    {
      forall id :: id in series ==> id < nextId
    }

    constructor(table: StatMap, chartIds: set<ChartId>)
      ensures Valid() && this.table == table
      ensures pathKeys == map[] && series == map[] && infoItems == [] && nextId == 0
      ensures charts == map c | c in chartIds :: []
    {
      this.table := table;
      pathKeys := map[];
      series := map[];
      charts := map c | c in chartIds :: [];
      infoItems := [];
      nextId := 0;
    }

    /** The series stored at (path, key), if any. */
    function SerieAt(path: Path, key: Key): Option<SeriesId>
      reads this`pathKeys
    {
      Lookup(MapOf(pathKeys, path), key).serie
    }

    /**
     * `add_point`: one point appended to the series stored at (path, key),
     * which must exist; nothing else changes.
     */
    method AddPoint(path: Path, key: Key, pt: Point)
      requires SerieAt(path, key).Some? && SerieAt(path, key).value in series
      modifies this
      ensures pathKeys == old(pathKeys) && charts == old(charts)
      ensures var id := SerieAt(path, key).value;
        series == old(series)[id := old(series)[id].(points := old(series)[id].points + [pt])]
      ensures infoItems == old(infoItems) && nextId == old(nextId)
    {
      var id := SerieAt(path, key).value;
      var s := series[id];
      series := series[id := s.(points := s.points + [pt])];
    }

    /** A charted entry has a live series and a known chart. */
    predicate Chartable(path: Path, key: Key)
      reads this
    {
      var e := Lookup(MapOf(pathKeys, path), key);
      e.chart.Some? ==> e.serie.Some? && e.serie.value in series && e.chart.value in charts
    }

    /**
     * `add_serie`: a charted entry's series is added to its chart once,
     * gets the pen its info calls for, and is attached to both axes when
     * an x axis is given; an entry without a chart changes nothing. The
     * path gets an empty map if it had none.
     */
    method AddSerie(path: Path, key: Key, xAxis: Option<AxisId>, yAxis: Option<AxisId>)
      requires Chartable(path, key)
      modifies this
      ensures pathKeys == old(pathKeys)[path := MapOf(old(pathKeys), path)]
      ensures var e := Lookup(MapOf(old(pathKeys), path), key);
        e.chart.None? ==> series == old(series) && charts == old(charts)
      ensures var e := Lookup(MapOf(old(pathKeys), path), key);
        e.chart.Some? ==>
          var id, c := e.serie.value, e.chart.value;
          var axes := old(series)[id].axes;
          && charts == old(charts)[c := Attach(old(charts)[c], id)]
          && id in series && series == old(series)[id := series[id]]
          && series[id].name == old(series)[id].name && series[id].points == old(series)[id].points
          && series[id].pen == StyledPen(old(series)[id].pen, e.info)
          && series[id].axes == (if xAxis.None? then axes
                                 else if yAxis.None? then Attach(axes, xAxis.value)
                                 else Attach(Attach(axes, xAxis.value), yAxis.value))
      ensures infoItems == old(infoItems) && nextId == old(nextId)
    {
      var m := MapOf(pathKeys, path);
      pathKeys := pathKeys[path := m];
      var e := Lookup(m, key);
      if e.chart.Some? {
        var id, c := e.serie.value, e.chart.value;
        charts := charts[c := Attach(charts[c], id)];
        var s := series[id];
        if e.info.stream {
          s := s.(pen := s.pen.(style := DotLine));
        }
        if e.info.shouldBeBlack {
          s := s.(pen := s.pen.(color := Black, style := SolidLine));
        }
        if xAxis.Some? {
          s := s.(axes := Attach(s.axes, xAxis.value));
          if yAxis.Some? {
            s := s.(axes := Attach(s.axes, yAxis.value));
          }
        }
        series := series[id := s];
      }
    }

    /** The map `create_serie` writes into: the stored one, or the display's table when empty. */
    function Filled(path: Path): StatMap
      reads this`pathKeys
    {
      var m := MapOf(pathKeys, path);
      if |m| == 0 then table else m
    }

    /**
     * `create_serie`: a new, empty series named after the key's metric and
     * the experiment directory, stored in the SERIE slot of `key` only; the
     * path's map is first filled from the table if it was empty.
     */
    method CreateSerie(p: Path, key: Key)
      requires Valid()
      modifies this
      ensures Valid() && nextId == old(nextId) + 1 && old(nextId) !in old(series)
      ensures pathKeys == old(pathKeys)[p := Store(old(Filled(p)), key, old(nextId))]
      ensures MapOf(pathKeys, p) == Store(old(Filled(p)), key, old(nextId))
      ensures series == old(series)[old(nextId) :=
                Series(SerieName(Lookup(old(Filled(p)), key).name, Filename(p)), [], DefaultPen, [])]
      ensures charts == old(charts) && infoItems == old(infoItems)
    {
      var id := nextId;
      nextId := nextId + 1;
      var map_ := MapOf(pathKeys, p);
      if |map_| == 0 {
        map_ := table;
      }
      var name := FormatSerieName(Lookup(map_, key).name, Filename(p));
      map_ := map_[key := Lookup(map_, key).(serie := Some(id))];
      pathKeys := pathKeys[p := map_];
      series := series[id := Series(name, [], DefaultPen, [])];
    }

    /** Every charted entry of the path's map points at a live series and a known chart. */
    predicate Unloadable(path: Path)
      reads this
    {
      var m := MapOf(pathKeys, path);
      forall k :: k in m && Charted(m[k]) ==> m[k].chart.value in charts && m[k].serie.value in series
    }

    /**
     * `unload`: every charted series of the path is removed from its chart
     * and deleted, and the info items named after the experiment go. The
     * clearing of the SERIE slots happens on a copy, so the stored map is
     * left as it was, still naming the deleted series.
     */
    method Unload(path: Path)
      requires Unloadable(path)
      modifies this
      ensures pathKeys == old(pathKeys)[path := MapOf(old(pathKeys), path)]
      ensures series == old(series) - Deleted(MapOf(old(pathKeys), path), 256)
      ensures charts == ChartsAfter(old(charts), MapOf(old(pathKeys), path), 256)
      ensures infoItems == RemoveItems(old(infoItems), Filename(path))
      ensures nextId == old(nextId)
    {
      var m := MapOf(pathKeys, path);
      pathKeys := pathKeys[path := m];
      ChartsAtStart(charts, m);
      assert series - Deleted(m, 0) == series;
      for k := 0 to 256
        invariant pathKeys == old(pathKeys)[path := m] && infoItems == old(infoItems) && nextId == old(nextId)
        invariant series == old(series) - Deleted(m, k)
        invariant charts == ChartsAfter(old(charts), m, k)
      {
        ChartsStep(old(charts), m, k);
        SeriesStep(old(series), m, k);
        UnloadEntry(m, k);
      }
      infoItems := RemoveItems(infoItems, Filename(path));
    }

    /** One step of the `unload` loop: the entry at key `k` of the copied map. */
    method UnloadEntry(m: StatMap, k: Key)
      requires k in m && Charted(m[k]) ==> m[k].chart.value in charts
      modifies this
      ensures charts == if k in m && Charted(m[k]) then
                var c := m[k].chart.value; old(charts)[c := Detach(old(charts)[c], {m[k].serie.value})]
              else old(charts)
      ensures series == old(series) - if k in m && Charted(m[k]) then {m[k].serie.value} else {}
      ensures pathKeys == old(pathKeys) && infoItems == old(infoItems) && nextId == old(nextId)
    {
      if k in m && Charted(m[k]) {
        var c, s := m[k].chart.value, m[k].serie.value;
        charts := charts[c := Detach(charts[c], {s})];
        series := series - {s};
      } else {
        assert series - {} == series;
      }
    }
  }
}
