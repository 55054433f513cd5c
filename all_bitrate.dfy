/**
 * The combined bitrate display: series handed over from the other displays
 * are copied into one chart, each in the next colour of a fixed palette,
 * with the two loss series on an axis of their own.
 */
module AllBitrate {
  import opened Wrappers
  import opened Paths
  import opened DisplayBase

  // The keys the display renames or rescales (positions in its StatKey enum).
  const CWND: Key := 9
  const QUIC_LOSS: Key := 11
  const MEDOOZE_LOSS: Key := 29
  const TOTAL: Key := 32

  /** The palette `add_stats` walks through, one colour per call. */
  const Colors: seq<Color> := [Blue, DarkYellow, DarkRed, Red, DarkCyan, DarkMagenta]

  /** The name stored for `key`: three keys get a fixed name, the others keep the incoming one. */
  function Renamed(key: Key, name: string): string
  {
    if key == QUIC_LOSS then "Quic Loss"
    else if key == MEDOOZE_LOSS then "Medooze Loss"
    else if key == TOTAL then "Medooze sent"
    else name
  }

  /** A copied point: CWND values go from bytes to kilobits, x is kept. */
  function Copy(key: Key, pt: Point): Point
  {
    if key == CWND then Point(pt.x, pt.y * 8.0 / 1000.0) else pt
  }

  /** The first `i` points of `pts`, copied. */
  function Copied(key: Key, pts: seq<Point>, i: nat): seq<Point>
    requires i <= |pts|
  {
    if i == 0 then [] else Copied(key, pts, i - 1) + [Copy(key, pts[i - 1])]
  }

  /**
   * Copying keeps the count, the order and every x, and scales y by 8/1000
   * for CWND only.
   */
  lemma {:induction false} CopiedSpec(key: Key, pts: seq<Point>, i: nat)
    requires i <= |pts|
    ensures |Copied(key, pts, i)| == i
    ensures forall j :: 0 <= j < i ==> Copied(key, pts, i)[j].x == pts[j].x
    ensures forall j :: 0 <= j < i ==>
      Copied(key, pts, i)[j].y == if key == CWND then pts[j].y * 8.0 / 1000.0 else pts[j].y
    decreases i
  {
    if i > 0 {
      CopiedSpec(key, pts, i - 1);
      var c := Copied(key, pts, i);
      assert c == Copied(key, pts, i - 1) + [Copy(key, pts[i - 1])];
      forall j | 0 <= j < i - 1
        ensures c[j] == Copied(key, pts, i - 1)[j]
      {
      }
    }
  }

  /** The entry `add_stats` stores: renamed, charted here, continuous, in the palette colour. */
  function Stored(key: Key, s: Entry, color: Color, id: SeriesId, chart: ChartId): Entry
  {
    Entry(Renamed(key, s.name), Some(id), Some(chart), s.info.(stream := false, color := color))
  }

  /**
   * The loss axis's upper bound: the larger of the last QUIC and Medooze
   * loss values, and only when both series have points (the range starts
   * at 0).
   */
  function LossTop(quic: seq<Point>, medooze: seq<Point>): (r: Option<real>)
    ensures r.Some? <==> quic != [] && medooze != []
    ensures r.Some? ==>
      && r.value >= quic[|quic| - 1].y && r.value >= medooze[|medooze| - 1].y
      && (r.value == quic[|quic| - 1].y || r.value == medooze[|medooze| - 1].y)
  {
    if quic != [] && medooze != [] then
      var a, b := quic[|quic| - 1].y, medooze[|medooze| - 1].y;
      Some(if a > b then a else b)
    else None
  }

  // ---------------------------------------------------------------------
  // The `add_serie` loop of `load`.

  /** Each key of the map names its own series. */
  predicate Apart(m: StatMap)
  {
    forall k1, k2 :: k1 in m && k2 in m && k1 != k2 && m[k1].serie.Some? ==> m[k1].serie != m[k2].serie
  }

  /**
   * A path's map as `add_stats` leaves it: each entry names a series below
   * `bound`, is charted on `chart`, and has a series of its own.
   */
  predicate OwnedMap(m: StatMap, bound: nat, chart: ChartId)
  {
    && Apart(m)
    && forall k :: k in m ==> m[k].serie.Some? && m[k].serie.value < bound && m[k].chart == Some(chart)
  }

  /** Every path's map is owned. */
  predicate Owned(pk: map<Path, StatMap>, bound: nat, chart: ChartId)
  {
    forall p :: p in pk ==> OwnedMap(pk[p], bound, chart)
  }

  /** Storing an owned map for one path keeps every map owned, under a bound that may grow. */
  lemma OwnedPut(pk: map<Path, StatMap>, path: Path, m: StatMap, bound: nat, bound': nat, chart: ChartId)
    requires Owned(pk, bound, chart) && OwnedMap(m, bound', chart) && bound <= bound'
    ensures Owned(pk[path := m], bound', chart)
  {
    var pk' := pk[path := m];
    forall p | p in pk'
      ensures OwnedMap(pk'[p], bound', chart)
    {
      if p != path {
        assert OwnedMap(pk[p], bound, chart);
      }
    }
  }

  /** A path without a map reads as an empty one, which is owned. */
  lemma OwnedAt(pk: map<Path, StatMap>, path: Path, bound: nat, chart: ChartId)
    requires Owned(pk, bound, chart)
    ensures OwnedMap(MapOf(pk, path), bound, chart)
  {
    if path in pk {
      assert OwnedMap(pk[path], bound, chart);
    }
  }

  /** An entry with a new series, charted here, keeps a map owned. */
  lemma OwnedStore(m: StatMap, key: Key, e: Entry, bound: nat, chart: ChartId)
    requires OwnedMap(m, bound, chart) && e.serie == Some(bound) && e.chart == Some(chart)
    ensures OwnedMap(m[key := e], bound + 1, chart)
  {
    var m' := m[key := e];
    forall k1, k2 | k1 in m' && k2 in m' && k1 != k2 && m'[k1].serie.Some?
      ensures m'[k1].serie != m'[k2].serie
    {
      if k1 != key && k2 != key {
        assert m'[k1] == m[k1] && m'[k2] == m[k2];
      }
    }
  }

  /** The chart after `add_serie` on the keys of `m` below `n`, in ascending order. */
  function Shown(c0: seq<SeriesId>, m: StatMap, n: nat): seq<SeriesId>
    requires n <= 256
  {
    if n == 0 then c0
    else
      var c := Shown(c0, m, n - 1);
      if n - 1 in m && Charted(m[n - 1]) then Attach(c, m[n - 1].serie.value) else c
  }

  /** The series after `add_serie` on the keys of `m` below `n`: each charted one restyled. */
  function Restyled(s0: map<SeriesId, Series>, m: StatMap, n: nat): map<SeriesId, Series>
    requires n <= 256
  {
    if n == 0 then s0
    else
      var s := Restyled(s0, m, n - 1);
      if n - 1 in m && Charted(m[n - 1]) && m[n - 1].serie.value in s then
        var id := m[n - 1].serie.value;
        s[id := s[id].(pen := StyledPen(s[id].pen, m[n - 1].info))]
      else s
  }

  /**
   * After the loop the chart still shows what it showed, now shows every
   * charted series of the map, and holds each series once.
   */
  lemma {:induction false} ShownHas(c0: seq<SeriesId>, m: StatMap, n: nat)
    requires n <= 256
    ensures forall x :: x in c0 ==> x in Shown(c0, m, n)
    ensures forall k :: 0 <= k < n && k in m && Charted(m[k]) ==> m[k].serie.value in Shown(c0, m, n)
    ensures Distinct(c0) ==> Distinct(Shown(c0, m, n))
    decreases n
  {
    if n > 0 {
      ShownHas(c0, m, n - 1);
      var c := Shown(c0, m, n - 1);
      if n - 1 in m && Charted(m[n - 1]) && Distinct(c0) {
        AttachDistinct(c, m[n - 1].serie.value);
      }
    }
  }

  /**
   * After the loop every charted series has the pen its entry's info calls
   * for and keeps its name and points; series no entry names are untouched.
   */
  lemma {:induction false} RestyledAt(s0: map<SeriesId, Series>, m: StatMap, n: nat, id: SeriesId)
    requires n <= 256 && Apart(m) && id in s0
    ensures Restyled(s0, m, n).Keys == s0.Keys
    ensures forall k :: 0 <= k < n && k in m && Charted(m[k]) && m[k].serie.value == id ==>
      Restyled(s0, m, n)[id] == s0[id].(pen := StyledPen(s0[id].pen, m[k].info))
    ensures (forall k :: 0 <= k < n && k in m ==> m[k].serie != Some(id)) ==> Restyled(s0, m, n)[id] == s0[id]
    decreases n
  {
    if n > 0 {
      RestyledAt(s0, m, n - 1, id);
      var s := Restyled(s0, m, n - 1);
      if n - 1 in m && Charted(m[n - 1]) && m[n - 1].serie.value == id {
        forall k | 0 <= k < n - 1 && k in m && Charted(m[k])
          ensures m[k].serie.value != id
        {
        }
      }
    }
  }

  // ---------------------------------------------------------------------
  // Geometry.

  /** A widget's geometry. */
  datatype Rect = Rect(x: int, y: int, width: int, height: int)

  /** The square branch of `set_geometry`: the longer side is cut to the shorter one. */
  function Squared(g: Rect): (r: Rect)
    ensures r.width == r.height
    ensures r.width <= g.width && r.height <= g.height && (r.width == g.width || r.height == g.height)
    ensures r.x == g.x && r.y == g.y
  {
    if g.width > g.height then g.(width := g.height) else g.(height := g.width)
  }

  /** Conversion of a non-negative product to `int`, which truncates. */
  function Truncated(v: real): int
  {
    if v >= 0.0 then v.Floor else -((-v).Floor)
  }

  // ---------------------------------------------------------------------

  class AllBitrateDisplay {
    const base: Display
    /** The display's only chart. */
    const chart: ChartId
    /** `current_color`: how many times `add_stats` has run. */
    var currentColor: nat
    /** The upper bound the last `load` gave the loss axis, when it set one. */
    var lossTop: Option<real>
    /** The chart view's geometry. */
    var geometry: Rect

    /**
     * Every stored entry names a series allocated by this display, is
     * charted here, and no two keys of a path share a series.
     */
    predicate Valid()
      reads this, base
    {
      && base.Valid() && base.table == map[] && chart in base.charts
      && Owned(base.pathKeys, base.nextId, chart)
    }

    constructor(geometry: Rect)
      ensures Valid() && fresh(base) && currentColor == 0 && lossTop == None && this.geometry == geometry
      ensures base.pathKeys == map[] && base.series == map[] && base.charts == map[chart := []]
    {
      chart := 0;
      base := new Display(map[], {0});
      currentColor := 0;
      lossTop := None;
      this.geometry := geometry;
    }

    /** The first half of `add_stats`: the entry is overwritten and the colour counter moves on. */
    method Insert(path: Path, key: Key, s: Entry)
      requires Valid() && currentColor < |Colors|
      modifies this, base
      ensures currentColor == old(currentColor) + 1
      ensures base.pathKeys == old(base.pathKeys)[path := MapOf(old(base.pathKeys), path)[key :=
                Stored(key, s, Colors[old(currentColor)], 0, chart).(serie := None)]]
      ensures base.series == old(base.series) && base.charts == old(base.charts)
      ensures base.infoItems == old(base.infoItems) && base.nextId == old(base.nextId)
      ensures lossTop == old(lossTop) && geometry == old(geometry)
    {
      var m: StatMap := MapOf(base.pathKeys, path);
      var info := s.info.(stream := false, color := Colors[currentColor]);
      currentColor := currentColor + 1;
      base.pathKeys := base.pathKeys[path := m[key := Entry(Renamed(key, s.name), None, Some(chart), info)]];
    }

    /** The copy loop of `add_stats`: every point of the incoming series, in order. */
    method CopyPoints(path: Path, key: Key, pts: seq<Point>, ghost id: SeriesId)
      requires base.SerieAt(path, key) == Some(id) && id in base.series
      modifies base
      ensures base.pathKeys == old(base.pathKeys) && base.charts == old(base.charts)
      ensures base.series == old(base.series)[id := old(base.series)[id].(points := old(base.series)[id].points + Copied(key, pts, |pts|))]
      ensures base.infoItems == old(base.infoItems) && base.nextId == old(base.nextId)
    {
      ghost var s0 := old(base.series)[id];
      assert s0.points + Copied(key, pts, 0) == s0.points;
      assert base.series == base.series[id := s0.(points := s0.points + Copied(key, pts, 0))];
      for i := 0 to |pts|
        invariant base.pathKeys == old(base.pathKeys) && base.charts == old(base.charts)
        invariant base.infoItems == old(base.infoItems) && base.nextId == old(base.nextId)
        invariant base.series == old(base.series)[id := old(base.series)[id].(points := old(base.series)[id].points + Copied(key, pts, i))]
      {
        assert s0.points + Copied(key, pts, i) + [Copy(key, pts[i])] == s0.points + Copied(key, pts, i + 1);
        base.AddPoint(path, key, Copy(key, pts[i]));
      }
    }

    /**
     * `add_stats`: the incoming series `s`, whose points are `pts`, is
     * stored for (path, key) over whatever was there, charted here,
     * continuous and in the next palette colour, under its fixed name for
     * the three renamed keys; it gets a new series of its own holding a
     * copy of the points.
     */
    method AddStats(path: Path, key: Key, s: Entry, pts: seq<Point>)
      requires Valid() && currentColor < |Colors|
      modifies this, base
      ensures Valid()
      ensures currentColor == old(currentColor) + 1 && base.nextId == old(base.nextId) + 1
      ensures base.pathKeys == old(base.pathKeys)[path := MapOf(old(base.pathKeys), path)[key :=
                Stored(key, s, Colors[old(currentColor)], old(base.nextId), chart)]]
      ensures base.series == old(base.series)[old(base.nextId) :=
                Series(SerieName(Renamed(key, s.name), Filename(path)), Copied(key, pts, |pts|), DefaultPen, [])]
      ensures base.charts == old(base.charts) && base.infoItems == old(base.infoItems)
      ensures lossTop == old(lossTop) && geometry == old(geometry)
    {
      ghost var m0 := MapOf(base.pathKeys, path);
      ghost var n := base.nextId;
      ghost var e := Stored(key, s, Colors[currentColor], n, chart);
      Insert(path, key, s);
      assert key in MapOf(base.pathKeys, path);
      assert base.Filled(path) == m0[key := e.(serie := None)];
      base.CreateSerie(path, key);
      assert Store(m0[key := e.(serie := None)], key, n) == m0[key := e];
      assert base.pathKeys == old(base.pathKeys)[path := m0[key := e]];
      ghost var blank := Series(SerieName(Renamed(key, s.name), Filename(path)), [], DefaultPen, []);
      assert base.series == old(base.series)[n := blank];
      CopyPoints(path, key, pts, n);
      assert blank.points + Copied(key, pts, |pts|) == Copied(key, pts, |pts|);
      OwnedAt(old(base.pathKeys), path, old(base.nextId), chart);
      OwnedStore(MapOf(old(base.pathKeys), path), key, Stored(key, s, Colors[old(currentColor)], old(base.nextId), chart),
                 old(base.nextId), chart);
      OwnedPut(old(base.pathKeys), path, MapOf(old(base.pathKeys), path)[key :=
                 Stored(key, s, Colors[old(currentColor)], old(base.nextId), chart)], old(base.nextId), base.nextId, chart);
    }

    /** One step of the `add_serie` loop of `load`, at key `k` of the path's map `m`. */
    method ShowEntry(path: Path, m: StatMap, k: Key)
      requires MapOf(base.pathKeys, path) == m && path in base.pathKeys
      requires forall j :: j in m ==> m[j].serie.Some? && m[j].serie.value in base.series && m[j].chart == Some(chart)
      requires chart in base.charts
      modifies base
      ensures base.pathKeys == old(base.pathKeys) && base.infoItems == old(base.infoItems) && base.nextId == old(base.nextId)
      ensures base.charts == old(base.charts)[chart := if k in m then Attach(old(base.charts)[chart], m[k].serie.value) else old(base.charts)[chart]]
      ensures base.series == if k in m then
                var id := m[k].serie.value;
                old(base.series)[id := old(base.series)[id].(pen := StyledPen(old(base.series)[id].pen, m[k].info))]
              else old(base.series)
    {
      if k in m {
        base.AddSerie(path, k, None, None);
      }
    }

    /**
     * `load`: the path gets an (empty if new) map; every entry's series is
     * added to the chart in ascending key order; and the loss axis's upper
     * bound comes from the two loss series, which must exist.
     */
    method Load(path: Path)
      requires Valid()
      requires forall k :: k in MapOf(base.pathKeys, path) ==> MapOf(base.pathKeys, path)[k].serie.value in base.series
      requires QUIC_LOSS in MapOf(base.pathKeys, path) && MEDOOZE_LOSS in MapOf(base.pathKeys, path)
      modifies this, base
      ensures Valid()
      ensures base.pathKeys == old(base.pathKeys)[path := MapOf(old(base.pathKeys), path)]
      ensures base.charts == old(base.charts)[chart := Shown(old(base.charts)[chart], MapOf(old(base.pathKeys), path), 256)]
      ensures base.series == Restyled(old(base.series), MapOf(old(base.pathKeys), path), 256)
      ensures base.series.Keys == old(base.series).Keys
      ensures var m := MapOf(old(base.pathKeys), path);
        lossTop == LossTop(base.series[m[QUIC_LOSS].serie.value].points, base.series[m[MEDOOZE_LOSS].serie.value].points)
      ensures base.infoItems == old(base.infoItems) && base.nextId == old(base.nextId)
      ensures currentColor == old(currentColor) && geometry == old(geometry)
    {
      var m: StatMap := MapOf(base.pathKeys, path);
      OwnedAt(base.pathKeys, path, base.nextId, chart);
      OwnedPut(base.pathKeys, path, m, base.nextId, base.nextId, chart);
      base.pathKeys := base.pathKeys[path := m];
      for k := 0 to 256
        invariant base.pathKeys == old(base.pathKeys)[path := m]
        invariant base.infoItems == old(base.infoItems) && base.nextId == old(base.nextId)
        invariant base.charts == old(base.charts)[chart := Shown(old(base.charts)[chart], m, k)]
        invariant base.series == Restyled(old(base.series), m, k)
        invariant base.series.Keys == old(base.series).Keys
        invariant currentColor == old(currentColor) && geometry == old(geometry)
      {
        ShowEntry(path, m, k);
      }
      var quic := base.series[m[QUIC_LOSS].serie.value].points;
      var medooze := base.series[m[MEDOOZE_LOSS].serie.value].points;
      lossTop := LossTop(quic, medooze);
    }

    /** `unload`: the shared unloading of every display. */
    method Unload(path: Path)
      requires Valid() && base.Unloadable(path)
      modifies base
      ensures Valid()
      ensures base.pathKeys == old(base.pathKeys)[path := MapOf(old(base.pathKeys), path)]
      ensures base.series == old(base.series) - Deleted(MapOf(old(base.pathKeys), path), 256)
      ensures base.charts == ChartsAfter(old(base.charts), MapOf(old(base.pathKeys), path), 256)
      ensures base.infoItems == RemoveItems(old(base.infoItems), Filename(path))
      ensures base.nextId == old(base.nextId)
    {
      OwnedAt(base.pathKeys, path, base.nextId, chart);
      OwnedPut(base.pathKeys, path, MapOf(base.pathKeys, path), base.nextId, base.nextId, chart);
      base.Unload(path);
    }

    /**
     * `set_geometry`: with equal ratios the view becomes a square on its
     * shorter side; otherwise its height becomes its width times `ratioH`.
     */
    method SetGeometry(ratioW: real, ratioH: real)
      modifies this
      ensures geometry == if ratioW == ratioH then Squared(old(geometry))
                          else old(geometry).(height := Truncated(old(geometry).width as real * ratioH))
      ensures currentColor == old(currentColor) && lossTop == old(lossTop)
    {
      var g := geometry;
      if ratioW == ratioH {
        if g.width > g.height {
          g := g.(width := g.height);
        } else {
          g := g.(height := g.width);
        }
      } else {
        g := g.(height := Truncated(g.width as real * ratioH));
      }
      geometry := g;
    }
  }
}
