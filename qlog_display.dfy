/**
 * The qlog display. For an experiment it picks the first `.qlog` file
 * found. When that file comes from mvfst, its "recovery:metrics_updated"
 * events give three curves: the congestion window and the bytes in flight
 * on the bitrate chart, and the latest RTT on the RTT chart.
 *
 * The JSON document is given already parsed, as its traces of events. Each
 * event carries only the fields the display reads. A field that is absent,
 * or of a type `get<>` refuses, is `None`.
 */
module Qlog {
  import opened Wrappers
  import opened Paths
  import opened DisplayBase

  const BYTES_IN_FLIGHT: Key := 0
  const CWND: Key := 1
  const RTT: Key := 2

  /** One `_map` entry: (NAME, COLOR, SERIE). */
  datatype Line = Line(name: string, color: Color, serie: Option<SeriesId>)

  /** The names and colours the constructor gives the three keys. */
  predicate Styled(lines: map<Key, Line>)
  {
    && lines.Keys == {BYTES_IN_FLIGHT, CWND, RTT}
    && lines[CWND].name == "Cwnd" && lines[CWND].color == Red
    && lines[BYTES_IN_FLIGHT].name == "Bytes in flight" && lines[BYTES_IN_FLIGHT].color == Blue
    && lines[RTT].name == "RTT" && lines[RTT].color == DarkYellow
  }

  // ---------------------------------------------------------------------
  // The qlog file.

  predicate IsQlog(p: Path)
  {
    Extension(Filename(p)) == ".qlog"
  }

  /** The first `.qlog` file among the entries, or the empty path. */
  function QlogFile(entries: seq<Path>): Path
  {
    First(entries, IsQlog)
  }

  /** The first `.qlog` entry is the one chosen, and it is not the empty path. */
  lemma QlogFileAt(entries: seq<Path>, i: nat)
    requires i < |entries| && IsQlog(entries[i])
    requires forall j :: 0 <= j < i ==> !IsQlog(entries[j])
    ensures QlogFile(entries) == entries[i] != ""
  {
    FirstAt(entries, IsQlog, i);
    QlogNonEmpty(entries[i]);
  }

  lemma QlogNonEmpty(p: Path)
    requires IsQlog(p)
    ensures p != ""
  {
    ExtensionSpec(Filename(p));
    FilenameSpec(p);
  }

  /** Without a `.qlog` entry the path stays empty, and `load` stops there. */
  lemma QlogFileNone(entries: seq<Path>)
    requires forall j :: 0 <= j < |entries| ==> !IsQlog(entries[j])
    ensures QlogFile(entries) == ""
  {
    FirstNone(entries, IsQlog);
  }

  /** The file is parsed only when its directory's name starts with "mvfst". */
  predicate FromMvfst(path: Path)
  {
    StartsWith(Filename(Parent(path)), "mvfst")
  }

  // ---------------------------------------------------------------------
  // Events and the curves they give.

  /**
   * A qlog event: its "name", "time" (integer microseconds) and the
   * "congestion_window", "bytes_in_flight" and "latest_rtt" of its "data".
   */
  datatype Event = Event(name: Option<string>, time: Option<int>, cwnd: Option<real>, bif: Option<real>, rtt: Option<real>)

  const METRICS_UPDATED: string := "recovery:metrics_updated"

  /** What `get<std::string>()` throws when an event's "name" is not a string. */
  const NameError: string := "type must be string"

  predicate IsMetric(e: Event)
  {
    e.name == Some(METRICS_UPDATED)
  }

  /** `time_0` and the three curves drawn so far. */
  datatype Curves = Curves(time0: int, cwnd: seq<Point>, bif: seq<Point>, rtt: seq<Point>)

  /** `time_0` once an event at `t` is read: set when it is still the sentinel -1. */
  function Origin(time0: int, t: int): int
  {
    if time0 == -1 then t else time0
  }

  /** `(time - time_0) / 1000000.f`: microseconds since `time_0`, in seconds. */
  function Seconds(t: int, time0: int): real
  {
    (t - time0) as real / 1000000.0
  }

  /** The first `try` block: both the CWND and the bytes-in-flight point, or neither. */
  function PairStep(c: Curves, e: Event): Curves
  {
    if e.time.None? then c
    else
      var t0 := Origin(c.time0, e.time.value);
      var x := Seconds(e.time.value, t0);
      if e.cwnd.Some? && e.bif.Some? then Curves(t0, c.cwnd + [Point(x, e.cwnd.value)], c.bif + [Point(x, e.bif.value)], c.rtt)
      else c.(time0 := t0)
  }

  /** The second `try` block: the RTT point, whatever the first block did. */
  function RttStep(c: Curves, e: Event): Curves
  {
    if e.time.None? then c
    else
      var t0 := Origin(c.time0, e.time.value);
      if e.rtt.Some? then c.(time0 := t0, rtt := c.rtt + [Point(Seconds(e.time.value, t0), e.rtt.value)])
      else c.(time0 := t0)
  }

  /** A named event: only "recovery:metrics_updated" goes through the two blocks. */
  function Step(c: Curves, e: Event): Curves
  {
    if IsMetric(e) then RttStep(PairStep(c, e), e) else c
  }

  /** The curves, and whether an event without a name stopped the parse. */
  datatype Parse = Parse(curves: Curves, aborted: bool)

  /**
   * `parse_mvfst` over the events in order, from the curves `c`: the first
   * event without a name throws out of the loops, and nothing after it is read.
   */
  function Run(c: Curves, es: seq<Event>): Parse
  {
    if es == [] then Parse(c, false)
    else
      var prev := Run(c, es[..|es| - 1]);
      var e := es[|es| - 1];
      if prev.aborted then prev
      else if e.name.None? then Parse(prev.curves, true)
      else Parse(Step(prev.curves, e), false)
  }

  /** The events of all traces, trace after trace. */
  function Flat(traces: seq<seq<Event>>): seq<Event>
  {
    if traces == [] then [] else Flat(traces[..|traces| - 1]) + traces[|traces| - 1]
  }

  lemma {:induction false} FlatAppend(a: seq<seq<Event>>, b: seq<seq<Event>>)
    ensures Flat(a + b) == Flat(a) + Flat(b)
    decreases |b|
  {
    if b != [] {
      var b' := b[..|b| - 1];
      FlatAppend(a, b');
      assert (a + b)[..|a + b| - 1] == a + b';
      assert (a + b)[|a + b| - 1] == b[|b| - 1];
      assert Flat(b) == Flat(b') + b[|b| - 1];
    } else {
      assert a + b == a;
    }
  }

  lemma RunNext(c: Curves, done: seq<Event>, events: seq<Event>, j: nat)
    requires j < |events|
    ensures var prev, e := Run(c, done + events[..j]), events[j];
      Run(c, done + events[..j + 1]) ==
        if prev.aborted then prev
        else if e.name.None? then Parse(prev.curves, true)
        else Parse(Step(prev.curves, e), false)
  {
    assert (done + events[..j + 1])[..|done| + j] == done + events[..j];
  }

  /** Reading one more event first: a nameless one stops at once, any other is a step. */
  lemma {:induction false} RunCons(c: Curves, e: Event, es: seq<Event>)
    ensures Run(c, [e] + es) == if e.name.None? then Parse(c, true) else Run(Step(c, e), es)
    decreases |es|
  {
    if es == [] {
      assert ([e] + es)[..0] == [];
    } else {
      var es' := es[..|es| - 1];
      RunCons(c, e, es');
      assert ([e] + es)[..|es|] == [e] + es';
    }
  }

  /** Once stopped, the parse reads nothing more. */
  lemma {:induction false} RunStopped(c: Curves, es: seq<Event>, more: seq<Event>)
    requires Run(c, es).aborted
    ensures Run(c, es + more) == Run(c, es)
    decreases |more|
  {
    if more != [] {
      var more' := more[..|more| - 1];
      RunStopped(c, es, more');
      assert (es + more)[..|es + more| - 1] == es + more';
      assert Run(c, es + more) == Run(c, es + more');
    } else {
      assert es + more == es;
    }
  }

  /** The parse stops exactly when some event has no name. */
  lemma {:induction false} RunAborts(c: Curves, es: seq<Event>)
    ensures Run(c, es).aborted <==> exists k :: 0 <= k < |es| && es[k].name.None?
  {
    if es != [] {
      var es' := es[..|es| - 1];
      RunAborts(c, es');
      if exists k :: 0 <= k < |es'| && es'[k].name.None? {
        var k :| 0 <= k < |es'| && es'[k].name.None?;
        assert es[k] == es'[k];
      }
      if exists k :: 0 <= k < |es| && es[k].name.None? {
        var k :| 0 <= k < |es| && es[k].name.None?;
        if k < |es'| {
          assert es'[k] == es[k];
        }
      }
    }
  }

  /**
   * The events without the named ones other than "recovery:metrics_updated":
   * every kept event is nameless or a metric event, and every such event is
   * kept.
   */
  function Kept(es: seq<Event>): (r: seq<Event>)
    ensures |r| <= |es|
    ensures forall k :: 0 <= k < |r| ==> r[k].name.None? || IsMetric(r[k])
    ensures forall k :: 0 <= k < |es| && (es[k].name.None? || IsMetric(es[k])) ==> es[k] in r
  {
    if es == [] then []
    else
      var e := es[|es| - 1];
      var r := Kept(es[..|es| - 1]) + if e.name.Some? && !IsMetric(e) then [] else [e];
      assert forall k :: 0 <= k < |es| - 1 ==> es[k] == es[..|es| - 1][k];
      r
  }

  /** Filtering keeps the order: the kept events of two runs of events, one after the other. */
  lemma {:induction false} KeptAppend(a: seq<Event>, b: seq<Event>)
    ensures Kept(a + b) == Kept(a) + Kept(b)
    decreases |b|
  {
    if b == [] {
      assert a + b == a;
    } else {
      var b', e := b[..|b| - 1], b[|b| - 1];
      KeptAppend(a, b');
      assert (a + b)[..|a + b| - 1] == a + b';
      assert (a + b)[|a + b| - 1] == e;
    }
  }

  /** Only "recovery:metrics_updated" events contribute: dropping every other named event changes nothing. */
  lemma {:induction false} RunKept(c: Curves, es: seq<Event>)
    ensures Run(c, Kept(es)) == Run(c, es)
  {
    if es != [] {
      var es', e := es[..|es| - 1], es[|es| - 1];
      RunKept(c, es');
      var prev := Run(c, es');
      if e.name.Some? && !IsMetric(e) {
        assert Kept(es) == Kept(es') + [];
        assert Kept(es') + [] == Kept(es');
        assert Run(c, es) == prev;
      } else {
        assert Kept(es) == Kept(es') + [e];
        assert (Kept(es') + [e])[..|Kept(es')|] == Kept(es');
      }
    }
  }

  /** The CWND and bytes-in-flight curves have as many points, at the same times. */
  predicate Paired(c: Curves)
  {
    |c.cwnd| == |c.bif| && forall k :: 0 <= k < |c.cwnd| ==> c.cwnd[k].x == c.bif[k].x
  }

  lemma {:induction false} RunPaired(c: Curves, es: seq<Event>)
    requires Paired(c)
    ensures Paired(Run(c, es).curves)
  {
    if es != [] {
      RunPaired(c, es[..|es| - 1]);
    }
  }

  /**
   * The time of the first "recovery:metrics_updated" event that has one,
   * before any nameless event; -1 if there is none. A time of -1 is the
   * sentinel itself, so such an event does not fix the origin.
   */
  function FirstTime(es: seq<Event>): int
  {
    if es == [] || es[0].name.None? then -1
    else if IsMetric(es[0]) && es[0].time.Some? && es[0].time.value != -1 then es[0].time.value
    else FirstTime(es[1..])
  }

  /** `time_0` is the first contributing event's time, and never changes after it is set. */
  lemma {:induction false} RunOrigin(c: Curves, es: seq<Event>)
    ensures Run(c, es).curves.time0 == if c.time0 != -1 then c.time0 else FirstTime(es)
    decreases |es|
  {
    if es != [] {
      RunCons(c, es[0], es[1..]);
      assert [es[0]] + es[1..] == es;
      if es[0].name.Some? {
        RunOrigin(Step(c, es[0]), es[1..]);
      }
    }
  }

  /** The metric events, before any nameless one, that give a CWND and a bytes-in-flight point. */
  function PairCount(es: seq<Event>): nat
  {
    if es == [] || es[0].name.None? then 0
    else (if IsMetric(es[0]) && es[0].time.Some? && es[0].cwnd.Some? && es[0].bif.Some? then 1 else 0) + PairCount(es[1..])
  }

  /** The metric events, before any nameless one, that give an RTT point. */
  function RttCount(es: seq<Event>): nat
  {
    if es == [] || es[0].name.None? then 0
    else (if IsMetric(es[0]) && es[0].time.Some? && es[0].rtt.Some? then 1 else 0) + RttCount(es[1..])
  }

  /**
   * One CWND and one bytes-in-flight point per event with a time and both
   * values; one RTT point per event with a time and an RTT, whether or not
   * the pair was drawn.
   */
  lemma {:induction false} RunCounts(c: Curves, es: seq<Event>)
    ensures |Run(c, es).curves.cwnd| == |c.cwnd| + PairCount(es)
    ensures |Run(c, es).curves.bif| == |c.bif| + PairCount(es)
    ensures |Run(c, es).curves.rtt| == |c.rtt| + RttCount(es)
    decreases |es|
  {
    if es != [] {
      RunCons(c, es[0], es[1..]);
      assert [es[0]] + es[1..] == es;
      if es[0].name.Some? {
        RunCounts(Step(c, es[0]), es[1..]);
      }
    }
  }

  /** The event that sets `time_0` is drawn at time 0. */
  lemma OriginAtZero(c: Curves, e: Event)
    requires c.time0 == -1 && IsMetric(e) && e.time.Some? && e.rtt.Some?
    ensures Step(c, e).time0 == e.time.value
    ensures Step(c, e).rtt == c.rtt + [Point(0.0, e.rtt.value)]
  {
  }

  // ---------------------------------------------------------------------
  // The display.

  /** The ids of the three series of one `load`. */
  datatype Trio = Trio(bif: SeriesId, cwnd: SeriesId, rtt: SeriesId)

  /** The points of the three series, with `time_0`. */
  function CurvesOf(s: map<SeriesId, Series>, ids: Trio, time0: int): Curves
    requires ids.bif in s && ids.cwnd in s && ids.rtt in s
  {
    Curves(time0, s[ids.cwnd].points, s[ids.bif].points, s[ids.rtt].points)
  }

  /** The series `s0` plus the three series of a load numbered from `n`, drawing `c`. */
  function Drawn(s0: map<SeriesId, Series>, n: SeriesId, c: Curves): map<SeriesId, Series>
  {
    s0[n := Series("Bytes in flight", c.bif, Pen(Blue, SolidLine), [])]
      [n + 1 := Series("Cwnd", c.cwnd, Pen(Red, SolidLine), [])]
      [n + 2 := Series("RTT", c.rtt, Pen(DarkYellow, SolidLine), [])]
  }

  /** Parsing into freshly drawn series only gives them their points. */
  lemma Redrawn(s0: map<SeriesId, Series>, s2: map<SeriesId, Series>, n: SeriesId, c: Curves)
    requires Retouched(Drawn(s0, n, Curves(-1, [], [], [])), s2, Trio(n, n + 1, n + 2))
    requires n + 2 in s2 && s2[n].points == c.bif && s2[n + 1].points == c.cwnd && s2[n + 2].points == c.rtt
    ensures s2 == Drawn(s0, n, c)
  {
    var s1 := Drawn(s0, n, Curves(-1, [], [], []));
    assert s2.Keys == Drawn(s0, n, c).Keys;
    forall id | id in s2
      ensures s2[id] == Drawn(s0, n, c)[id]
    {
      assert id in s1;
    }
  }

  /** `s1` is `s0` with at most the points of the three series changed. */
  predicate Retouched(s0: map<SeriesId, Series>, s1: map<SeriesId, Series>, ids: Trio)
  {
    && s1.Keys == s0.Keys
    && forall id :: id in s0 ==>
         if id == ids.bif || id == ids.cwnd || id == ids.rtt then s1[id] == s0[id].(points := s1[id].points)
         else s1[id] == s0[id]
  }

  /** The two charts of the display. */
  datatype Chart = BitrateChart | RttChart

  /** `_path_keys[p]`, empty when the path has no entry. */
  function Vector(keys: map<Path, seq<SeriesId>>, p: Path): seq<SeriesId>
  {
    if p in keys then keys[p] else []
  }

  function Elems(l: seq<SeriesId>): set<SeriesId>
  {
    set x | x in l
  }

  class QlogDisplay {
    /** `_map`: name, colour and latest series of each key. */
    var lines: map<Key, Line>
    /** `_path_keys`: the series created for each experiment, in order. */
    var pathKeys: map<Path, seq<SeriesId>>
    /** The line series alive, by identity. */
    var series: map<SeriesId, Series>
    /** The series shown by the bitrate chart and by the RTT chart. */
    var bitrate: seq<SeriesId>
    var rtt: seq<SeriesId>
    /** The identity the next new series gets. */
    var nextId: SeriesId

    predicate Valid()
      reads this
    {
      Styled(lines) && forall id :: id in series ==> id < nextId
    }

    constructor()
      ensures Valid() && pathKeys == map[] && series == map[] && bitrate == [] && rtt == [] && nextId == 0
      ensures forall k :: k in lines ==> lines[k].serie.None?
    {
      lines := map[CWND := Line("Cwnd", Red, None),
                   BYTES_IN_FLIGHT := Line("Bytes in flight", Blue, None),
                   RTT := Line("RTT", DarkYellow, None)];
      pathKeys := map[];
      series := map[];
      bitrate := [];
      rtt := [];
      nextId := 0;
    }

    /** `_map` points at the three series of `ids`, which are alive and distinct. */
    predicate Holds(ids: Trio)
      reads this
    {
      && BYTES_IN_FLIGHT in lines && CWND in lines && RTT in lines
      && lines[BYTES_IN_FLIGHT].serie == Some(ids.bif) && lines[CWND].serie == Some(ids.cwnd)
      && lines[RTT].serie == Some(ids.rtt)
      && ids.bif in series && ids.cwnd in series && ids.rtt in series
      && ids.bif != ids.cwnd && ids.bif != ids.rtt && ids.cwnd != ids.rtt
    }

    /**
     * `create_serie`: a new empty series with the key's name and colour,
     * which becomes the key's SERIE and is appended to the path's list.
     */
    method CreateSerie(p: Path, key: Key) returns (id: SeriesId)
      requires Valid() && key in lines
      modifies this
      ensures Valid() && id == old(nextId) && nextId == id + 1 && id !in old(series)
      ensures lines == old(lines)[key := old(lines)[key].(serie := Some(id))]
      ensures pathKeys == old(pathKeys)[p := Vector(old(pathKeys), p) + [id]]
      ensures series == old(series)[id := Series(old(lines)[key].name, [], Pen(old(lines)[key].color, SolidLine), [])]
      ensures bitrate == old(bitrate) && rtt == old(rtt)
    {
      id := nextId;
      nextId := nextId + 1;
      series := series[id := Series(lines[key].name, [], Pen(lines[key].color, SolidLine), [])];
      lines := lines[key := lines[key].(serie := Some(id))];
      pathKeys := pathKeys[p := Vector(pathKeys, p) + [id]];
    }

    /** `add_point`: one point appended to the key's series, which must exist. */
    method AddPoint(key: Key, pt: Point)
      requires key in lines && lines[key].serie.Some? && lines[key].serie.value in series
      modifies this
      ensures lines == old(lines) && pathKeys == old(pathKeys) && bitrate == old(bitrate) && rtt == old(rtt)
      ensures nextId == old(nextId)
      ensures var id := lines[key].serie.value;
        series == old(series)[id := old(series)[id].(points := old(series)[id].points + [pt])]
    {
      var id := lines[key].serie.value;
      series := series[id := series[id].(points := series[id].points + [pt])];
    }

    /** `add_serie(key, chart)`: the key's series is added to the chart, once. */
    method AddSerie(key: Key, chart: Chart)
      requires key in lines && lines[key].serie.Some?
      modifies this
      ensures lines == old(lines) && pathKeys == old(pathKeys) && series == old(series) && nextId == old(nextId)
      ensures var id := lines[key].serie.value;
        && bitrate == (if chart == BitrateChart then Attach(old(bitrate), id) else old(bitrate))
        && rtt == (if chart == RttChart then Attach(old(rtt), id) else old(rtt))
    {
      var id := lines[key].serie.value;
      if chart == BitrateChart {
        bitrate := Attach(bitrate, id);
      } else {
        rtt := Attach(rtt, id);
      }
    }

    /** The three `create_serie` calls of `load`: bytes in flight, CWND, RTT. */
    method CreateAll(p: Path) returns (ids: Trio)
      requires Valid()
      modifies this
      ensures Valid() && Holds(ids)
      ensures var n := old(nextId); ids == Trio(n, n + 1, n + 2) && nextId == n + 3
      ensures pathKeys == old(pathKeys)[p := Vector(old(pathKeys), p) + [ids.bif, ids.cwnd, ids.rtt]]
      ensures series == Drawn(old(series), old(nextId), Curves(-1, [], [], []))
      ensures bitrate == old(bitrate) && rtt == old(rtt)
    {
      var bif := CreateSerie(p, BYTES_IN_FLIGHT);
      var cwnd := CreateSerie(p, CWND);
      var rttId := CreateSerie(p, RTT);
      ids := Trio(bif, cwnd, rttId);
      assert Vector(old(pathKeys), p) + [bif] + [cwnd] + [rttId] == Vector(old(pathKeys), p) + [bif, cwnd, rttId];
    }

    /** The three `add_serie` calls of `load`. */
    method ShowAll(ids: Trio)
      requires Holds(ids)
      modifies this
      ensures lines == old(lines) && pathKeys == old(pathKeys) && series == old(series) && nextId == old(nextId)
      ensures bitrate == Attach(Attach(old(bitrate), ids.bif), ids.cwnd) && rtt == Attach(old(rtt), ids.rtt)
    {
      AddSerie(BYTES_IN_FLIGHT, BitrateChart);
      AddSerie(CWND, BitrateChart);
      AddSerie(RTT, RttChart);
    }

    /**
     * `load` for the experiment `p`, whose walk gives `entries`, and whose
     * chosen file holds `traces`. Without a `.qlog` file nothing happens.
     * Otherwise the three series are created; they are parsed into when
     * the file comes from mvfst; and unless the parse throws, they are
     * added to their charts.
     */
    method Load(p: Path, entries: seq<Path>, traces: seq<seq<Event>>) returns (r: Outcome<string>, ghost ids: Trio)
      requires Valid()
      modifies this
      ensures Valid()
      ensures QlogFile(entries) == "" ==>
        && r == Pass && lines == old(lines) && pathKeys == old(pathKeys) && series == old(series)
        && bitrate == old(bitrate) && rtt == old(rtt) && nextId == old(nextId)
      ensures QlogFile(entries) != "" ==>
        var n, run := old(nextId), Parsed(QlogFile(entries), traces);
        && ids == Trio(n, n + 1, n + 2) && nextId == n + 3 && Holds(ids)
        && pathKeys == old(pathKeys)[p := Vector(old(pathKeys), p) + [n, n + 1, n + 2]]
        && series == Drawn(old(series), n, run.curves)
        && r == (if run.aborted then Fail(NameError) else Pass)
        && (r.Pass? ==> bitrate == Attach(Attach(old(bitrate), n), n + 1) && rtt == Attach(old(rtt), n + 2))
        && (r.Fail? ==> bitrate == old(bitrate) && rtt == old(rtt))
    {
      var path := FindFirst(entries, IsQlog);
      if path == "" {
        return Pass, Trio(0, 0, 0);
      }
      var made := CreateAll(p);
      ids := made;
      r := Fill(path, traces, made, old(series));
    }

    /**
     * What `load` does once the three series exist: the parse into them when
     * the file comes from mvfst, then, unless the parse threw, the three
     * `add_serie` calls.
     */
    method Fill(path: Path, traces: seq<seq<Event>>, ids: Trio, ghost s0: map<SeriesId, Series>) returns (r: Outcome<string>)
      requires Holds(ids) && ids == Trio(ids.bif, ids.bif + 1, ids.bif + 2)
      requires series == Drawn(s0, ids.bif, Curves(-1, [], [], []))
      modifies this
      ensures lines == old(lines) && pathKeys == old(pathKeys) && nextId == old(nextId)
      ensures Holds(ids) && series.Keys == old(series).Keys
      ensures var run := Parsed(path, traces);
        && series == Drawn(s0, ids.bif, run.curves)
        && r == (if run.aborted then Fail(NameError) else Pass)
        && (r.Pass? ==> bitrate == Attach(Attach(old(bitrate), ids.bif), ids.cwnd) && rtt == Attach(old(rtt), ids.rtt))
        && (r.Fail? ==> bitrate == old(bitrate) && rtt == old(rtt))
    {
      r := Pass;
      if FromMvfst(path) {
        ghost var created := series;
        assert CurvesOf(created, ids, -1) == Curves(-1, [], [], []);
        r := ParseMvfst(traces, ids);
        Redrawn(s0, series, ids.bif, Run(Curves(-1, [], [], []), Flat(traces)).curves);
        if r.Fail? {
          return;
        }
      }
      ShowAll(ids);
    }

    /**
     * `unload`: every series created for the path is removed from both
     * charts and deleted, and the path's list is emptied. `_map` is left
     * naming the deleted series.
     */
    method Unload(path: Path)
      requires Valid()
      modifies this
      ensures Valid()
      ensures lines == old(lines) && nextId == old(nextId)
      ensures pathKeys == old(pathKeys)[path := []]
      ensures var gone := Elems(Vector(old(pathKeys), path));
        && series == old(series) - gone
        && bitrate == Detach(old(bitrate), gone) && rtt == Detach(old(rtt), gone)
      ensures forall id :: id in Vector(old(pathKeys), path) ==> id !in series && id !in bitrate && id !in rtt
    {
      var vec := Vector(pathKeys, path);
      DetachNothing(bitrate);
      DetachNothing(rtt);
      assert Elems(vec[..0]) == {};
      for i := 0 to |vec|
        invariant lines == old(lines) && nextId == old(nextId) && pathKeys == old(pathKeys)
        invariant series == old(series) - Elems(vec[..i])
        invariant bitrate == Detach(old(bitrate), Elems(vec[..i])) && rtt == Detach(old(rtt), Elems(vec[..i]))
      {
        RemovedStep(old(bitrate), old(rtt), vec, i);
        var s := vec[i];
        bitrate := Detach(bitrate, {s});
        rtt := Detach(rtt, {s});
        series := series - {s};
      }
      assert vec[..|vec|] == vec;
      pathKeys := pathKeys[path := []];
    }

    /** The first `try` block of the event loop. */
    method TryPair(e: Event, time0: int, ghost ids: Trio) returns (t: int)
      requires Holds(ids)
      modifies this
      ensures Holds(ids) && Retouched(old(series), series, ids)
      ensures CurvesOf(series, ids, t) == PairStep(CurvesOf(old(series), ids, time0), e)
      ensures lines == old(lines) && pathKeys == old(pathKeys) && bitrate == old(bitrate) && rtt == old(rtt)
      ensures nextId == old(nextId)
    {
      if e.time.None? {
        return time0;
      }
      t := Origin(time0, e.time.value);
      var x := Seconds(e.time.value, t);
      if e.cwnd.Some? && e.bif.Some? {
        var pCwnd := Point(x, e.cwnd.value);
        var pBif := Point(x, e.bif.value);
        AddPoint(CWND, pCwnd);
        AddPoint(BYTES_IN_FLIGHT, pBif);
      }
    }

    /** The second `try` block of the event loop. */
    method TryRtt(e: Event, time0: int, ghost ids: Trio) returns (t: int)
      requires Holds(ids)
      modifies this
      ensures Holds(ids) && Retouched(old(series), series, ids)
      ensures CurvesOf(series, ids, t) == RttStep(CurvesOf(old(series), ids, time0), e)
      ensures lines == old(lines) && pathKeys == old(pathKeys) && bitrate == old(bitrate) && rtt == old(rtt)
      ensures nextId == old(nextId)
    {
      if e.time.None? {
        return time0;
      }
      t := Origin(time0, e.time.value);
      if e.rtt.Some? {
        AddPoint(RTT, Point(Seconds(e.time.value, t), e.rtt.value));
      }
    }

    /** One event: a nameless one throws; one with another name is skipped. */
    method Visit(e: Event, time0: int, ghost ids: Trio) returns (t: int, stop: bool)
      requires Holds(ids)
      modifies this
      ensures Holds(ids) && Retouched(old(series), series, ids)
      ensures Parse(CurvesOf(series, ids, t), stop) ==
                if e.name.None? then Parse(CurvesOf(old(series), ids, time0), true)
                else Parse(Step(CurvesOf(old(series), ids, time0), e), false)
      ensures lines == old(lines) && pathKeys == old(pathKeys) && bitrate == old(bitrate) && rtt == old(rtt)
      ensures nextId == old(nextId)
    {
      t, stop := time0, e.name.None?;
      if e.name.None? || e.name.value != METRICS_UPDATED {
        return;
      }
      t := TryPair(e, t, ids);
      t := TryRtt(e, t, ids);
    }

    /**
     * `parse_mvfst`: the events of every trace in order, from `time_0 = -1`;
     * the curves end as `Run` says, and a nameless event throws.
     */
    method ParseMvfst(traces: seq<seq<Event>>, ghost ids: Trio) returns (r: Outcome<string>)
      requires Holds(ids)
      modifies this
      ensures Holds(ids) && Retouched(old(series), series, ids)
      ensures var run := Run(CurvesOf(old(series), ids, -1), Flat(traces));
        && series[ids.cwnd].points == run.curves.cwnd && series[ids.bif].points == run.curves.bif
        && series[ids.rtt].points == run.curves.rtt
        && r == if run.aborted then Fail(NameError) else Pass
      ensures lines == old(lines) && pathKeys == old(pathKeys) && bitrate == old(bitrate) && rtt == old(rtt)
      ensures nextId == old(nextId)
    {
      ghost var start := CurvesOf(series, ids, -1);
      var time0 := -1;
      var stop := false;
      var i := 0;
      while i < |traces| && !stop
        invariant 0 <= i <= |traces|
        invariant Holds(ids) && Retouched(old(series), series, ids)
        invariant Run(start, Flat(traces[..i])) == Parse(CurvesOf(series, ids, time0), stop)
        invariant lines == old(lines) && pathKeys == old(pathKeys) && bitrate == old(bitrate) && rtt == old(rtt)
        invariant nextId == old(nextId)
      {
        var events := traces[i];
        ghost var done := Flat(traces[..i]);
        var j := 0;
        assert done + events[..0] == done;
        while j < |events| && !stop
          invariant 0 <= j <= |events|
          invariant Holds(ids) && Retouched(old(series), series, ids)
          invariant Run(start, done + events[..j]) == Parse(CurvesOf(series, ids, time0), stop)
          invariant lines == old(lines) && pathKeys == old(pathKeys) && bitrate == old(bitrate) && rtt == old(rtt)
          invariant nextId == old(nextId)
        {
          RunNext(start, done, events, j);
          time0, stop := Visit(events[j], time0, ids);
          j := j + 1;
        }
        TraceDone(start, traces, i, j);
        i := i + 1;
      }
      ParseDone(start, traces, i);
      r := if stop then Fail(NameError) else Pass;
    }
  }

  /** What parsing the chosen file gives: nothing unless it comes from mvfst. */
  function Parsed(path: Path, traces: seq<seq<Event>>): Parse
  {
    if FromMvfst(path) then Run(Curves(-1, [], [], []), Flat(traces)) else Parse(Curves(-1, [], [], []), false)
  }

  /** One more series of the list removed from both charts. */
  lemma RemovedStep(b0: seq<SeriesId>, r0: seq<SeriesId>, vec: seq<SeriesId>, i: nat)
    requires i < |vec|
    ensures Elems(vec[..i + 1]) == Elems(vec[..i]) + {vec[i]}
    ensures Detach(Detach(b0, Elems(vec[..i])), {vec[i]}) == Detach(b0, Elems(vec[..i + 1]))
    ensures Detach(Detach(r0, Elems(vec[..i])), {vec[i]}) == Detach(r0, Elems(vec[..i + 1]))
  {
    assert vec[..i + 1] == vec[..i] + [vec[i]];
    assert Elems(vec[..i + 1]) == Elems(vec[..i]) + {vec[i]};
    DetachTwice(b0, Elems(vec[..i]), {vec[i]});
    DetachTwice(r0, Elems(vec[..i]), {vec[i]});
  }

  /** After the inner loop, whether it ran to the end or stopped, the trace is done. */
  lemma TraceDone(c: Curves, traces: seq<seq<Event>>, i: nat, j: nat)
    requires i < |traces| && j <= |traces[i]|
    requires j < |traces[i]| ==> Run(c, Flat(traces[..i]) + traces[i][..j]).aborted
    ensures Run(c, Flat(traces[..i + 1])) == Run(c, Flat(traces[..i]) + traces[i][..j])
  {
    assert traces[..i + 1][..i] == traces[..i];
    assert Flat(traces[..i + 1]) == Flat(traces[..i]) + traces[i];
    if j < |traces[i]| {
      RunStopped(c, Flat(traces[..i]) + traces[i][..j], traces[i][j..]);
      assert Flat(traces[..i]) + traces[i][..j] + traces[i][j..] == Flat(traces[..i]) + traces[i];
    } else {
      assert traces[i][..j] == traces[i];
    }
  }

  /** After the outer loop, whether it ran to the end or stopped, every trace is done. */
  lemma ParseDone(c: Curves, traces: seq<seq<Event>>, i: nat)
    requires i <= |traces|
    requires i < |traces| ==> Run(c, Flat(traces[..i])).aborted
    ensures Run(c, Flat(traces)) == Run(c, Flat(traces[..i]))
  {
    if i < |traces| {
      FlatAppend(traces[..i], traces[i..]);
      assert traces[..i] + traces[i..] == traces;
      RunStopped(c, Flat(traces[..i]), Flat(traces[i..]));
    } else {
      assert traces[..i] == traces;
    }
  }
}
