/**
 * The sent / loss display: one percent bar series per experiment, to which
 * every loss notification appends a "sent" and a "loss" bar set.
 */
module SentLoss {
  import opened Wrappers
  import opened Paths

  type AxisId = nat

  /** A bar set: its label (name) and its values. */
  datatype BarSet = BarSet(name: string, values: seq<int>)

  /** A percent bar series: its bar sets in order, and the axes attached to it. */
  datatype BarSeries = BarSeries(sets: seq<BarSet>, axes: seq<AxisId>)

  /** Which display a notification comes from. */
  datatype Source = MedoozeLoss | QuicLoss

  function SentLabel(src: Source): string
  {
    if src == MedoozeLoss then "Medooze sent" else "Quic sent"
  }

  function LossLabel(src: Source): string
  {
    if src == MedoozeLoss then "Medooze loss" else "Quic loss"
  }

  /** The two bar sets one notification appends, sent first. */
  function Bars(src: Source, loss: int, sent: int): seq<BarSet>
  {
    [BarSet(SentLabel(src), [sent]), BarSet(LossLabel(src), [loss])]
  }

  /** `l` without `p` (`removeSeries`, which ignores a series the chart does not hold). */
  function Without<T(==,!new)>(l: seq<T>, p: T): (r: seq<T>)
    ensures forall q :: q in r <==> q in l && q != p
  {
    if l == [] then []
    else (if l[0] == p then [] else [l[0]]) + Without(l[1..], p)
  }

  /** Removing then adding (`removeSeries` then `addSeries`). */
  function Readded<T(==,!new)>(l: seq<T>, p: T): seq<T>
  {
    Without(l, p) + [p]
  }

  /** After re-adding, `p` is last and held exactly once, and the rest stays as it was. */
  lemma ReaddedSpec<T(!new)>(l: seq<T>, p: T)
    ensures var r := Readded(l, p);
      |r| > 0 && r[|r| - 1] == p && multiset(r)[p] == 1 && p in r
    ensures forall q :: q != p ==> (q in Readded(l, p) <==> q in l)
  {
    var rest := Without(l, p);
    assert p !in rest;
    assert multiset(rest)[p] == 0;
  }

  /** Counting the bar sets: every notification adds two. */
  lemma {:induction false} BarsAccumulate(sets: seq<BarSet>, notes: seq<(Source, int, int)>)
    ensures |Replayed(sets, notes)| == |sets| + 2 * |notes|
    ensures Replayed(sets, notes)[..|sets|] == sets
    decreases |notes|
  {
    if notes != [] {
      var n := notes[|notes| - 1];
      BarsAccumulate(sets, notes[..|notes| - 1]);
      var before := Replayed(sets, notes[..|notes| - 1]);
      assert Replayed(sets, notes) == before + Bars(n.0, n.1, n.2);
      assert Replayed(sets, notes)[..|sets|] == before[..|sets|];
    }
  }

  /** The bar sets of a series after a run of notifications for its path. */
  function Replayed(sets: seq<BarSet>, notes: seq<(Source, int, int)>): seq<BarSet>
    decreases |notes|
  {
    if notes == [] then sets
    else
      var n := notes[|notes| - 1];
      Replayed(sets, notes[..|notes| - 1]) + Bars(n.0, n.1, n.2)
  }

  /** One more notification on a replayed series replays one more note. */
  lemma GrownReplayed(sets: seq<BarSet>, axes: seq<AxisId>, notes: seq<(Source, int, int)>,
                      n: (Source, int, int), axis: AxisId)
    ensures Grown(BarSeries(Replayed(sets, notes), axes), n.0, n.1, n.2, axis).sets
         == Replayed(sets, notes + [n])
  {
    assert (notes + [n])[..|notes|] == notes;
  }

  /** A path's series before a notification: the stored one, or an empty one for a new path. */
  function Prior(m: map<Path, BarSeries>, path: Path): (r: BarSeries)
    ensures path !in m ==> r == BarSeries([], [])
    ensures path in m ==> r == m[path]
  {
    if path in m then m[path] else BarSeries([], [])
  }

  /**
   * A series after one notification: the two bar sets appended, and the
   * axes as remove, add, detach and attach of `axis` leave them. Removing a
   * series from the chart detaches every axis it had, so the re-added
   * series starts with none and ends with `axis` alone.
   */
  function Grown(before: BarSeries, src: Source, loss: int, sent: int, axis: AxisId): BarSeries
  {
    BarSeries(before.sets + Bars(src, loss, sent), [axis])
  }

  /**
   * After a notification, the two bar sets come after all earlier ones, and
   * the series is attached to `axis` only, whatever axes it had before.
   */
  lemma GrownSpec(before: BarSeries, src: Source, loss: int, sent: int, axis: AxisId)
    ensures var r := Grown(before, src, loss, sent, axis);
      && |r.sets| == |before.sets| + 2
      && r.sets[..|before.sets|] == before.sets && r.sets[|before.sets|..] == Bars(src, loss, sent)
      && r.axes == [axis]
    ensures forall a :: a in Grown(before, src, loss, sent, axis).axes <==> a == axis
  {
  }

  /**
   * A series notified while another path's axis is `_axis_y` loses the axis
   * it was created with: it ends up attached to the newer axis only.
   */
  lemma AxisTakenOver(before: BarSeries, own: AxisId, newer: AxisId, src: Source, loss: int, sent: int)
    requires own in before.axes && own != newer
    ensures own !in Grown(before, src, loss, sent, newer).axes
    ensures Grown(before, src, loss, sent, newer).axes == [newer]
  {
  }

  /** Overwriting a fresh entry is writing it once. */
  lemma Overwritten(m: map<Path, BarSeries>, path: Path, a: BarSeries, b: BarSeries)
    ensures m[path := a][path := b] == m[path := b]
  {
  }

  class SentLossDisplay {
    /** `_series`: the bar series of each experiment path. */
    var series: map<Path, BarSeries>
    /** The series the chart shows, by path, in the order they were added. */
    var chart: seq<Path>
    /** The axes added to the chart, in order. */
    var axes: seq<AxisId>
    /** `_axis_y`: the most recently created axis (unset before the first). */
    var axisY: Option<AxisId>
    /** The identity the next new axis gets. */
    var nextAxis: AxisId

    /** One axis per path, created with it, and `_axis_y` the newest. */
    predicate AxesValid()
      reads this
    {
      && |series| == nextAxis && |axes| == nextAxis
      && (forall i :: 0 <= i < |axes| ==> axes[i] == i)
      && axisY == (if nextAxis == 0 then None else Some(nextAxis - 1))
    }

    /** The axes are as created, and the chart shows every series. */
    predicate Valid()
      reads this
    {
      AxesValid() && forall p :: p in series ==> p in chart
    }

    constructor()
      ensures Valid() && series == map[] && chart == [] && axes == []
    {
      series := map[];
      chart := [];
      axes := [];
      axisY := None;
      nextAxis := 0;
    }

    /** The first notification for a path: an empty series and a new axis, which becomes `_axis_y`. */
    method Open(path: Path)
      requires AxesValid() && path !in series
      modifies this
      ensures AxesValid() && axisY == Some(old(nextAxis))
      ensures series == old(series)[path := BarSeries([], [])] && chart == old(chart)
      ensures axes == old(axes) + [old(nextAxis)] && nextAxis == old(nextAxis) + 1
    {
      series := series[path := BarSeries([], [])];
      axisY := Some(nextAxis);
      axes := axes + [nextAxis];
      nextAxis := nextAxis + 1;
    }

    /**
     * The body shared by both notification slots: the series and axis are
     * updated by `Record`, then the series is removed from and re-added to
     * the chart.
     */
    method Notify(path: Path, loss: int, sent: int, src: Source)
      requires Valid()
      modifies this
      ensures Valid() && axisY.Some?
      ensures nextAxis == old(nextAxis) + (if path in old(series) then 0 else 1)
      ensures axes == old(axes) + (if path in old(series) then [] else [old(nextAxis)])
      ensures series == old(series)[path := Grown(Prior(old(series), path), src, loss, sent, axisY.value)]
      ensures chart == Readded(old(chart), path)
      ensures path in series && series[path].axes == [axisY.value]
    {
      Record(path, loss, sent, src);
      ReaddedSpec(chart, path);
      chart := Readded(chart, path);
      assert forall p :: p in series ==> p in old(series) || p == path;
    }

    /** A new path gets an empty series and a new axis; then the bar sets are appended. */
    method Record(path: Path, loss: int, sent: int, src: Source)
      requires AxesValid()
      modifies this
      ensures AxesValid() && axisY.Some? && chart == old(chart)
      ensures nextAxis == old(nextAxis) + (if path in old(series) then 0 else 1)
      ensures axes == old(axes) + (if path in old(series) then [] else [old(nextAxis)])
      ensures series == old(series)[path := Grown(Prior(old(series), path), src, loss, sent, axisY.value)]
    {
      if path !in series {
        Open(path);
        Append(path, loss, sent, src);
        Overwritten(old(series), path, BarSeries([], []), Grown(BarSeries([], []), src, loss, sent, axisY.value));
      } else {
        Append(path, loss, sent, src);
      }
    }

    /** The bar sets appended to the path's series, which is re-attached to `_axis_y`. */
    method Append(path: Path, loss: int, sent: int, src: Source)
      requires AxesValid() && path in series && axisY.Some?
      modifies this
      ensures AxesValid() && axisY == old(axisY) && axes == old(axes) && nextAxis == old(nextAxis) && chart == old(chart)
      ensures series == old(series)[path := Grown(old(series)[path], src, loss, sent, axisY.value)]
    {
      var s := Grown(series[path], src, loss, sent, axisY.value);
      ghost var current := series;
      series := series[path := s];
      assert series.Keys == current.Keys;
    }

    /** `on_medooze_loss_stats`. */
    method OnMedoozeLossStats(path: Path, loss: int, sent: int)
      requires Valid()
      modifies this
      ensures Valid() && axisY.Some?
      ensures nextAxis == old(nextAxis) + (if path in old(series) then 0 else 1)
      ensures series == old(series)[path := Grown(Prior(old(series), path), MedoozeLoss, loss, sent, axisY.value)]
      ensures chart == Readded(old(chart), path)
      ensures path in series && series[path].axes == [axisY.value]
    {
      Notify(path, loss, sent, MedoozeLoss);
    }

    /** `on_quic_loss_stats`. */
    method OnQuicLossStats(path: Path, loss: int, sent: int)
      requires Valid()
      modifies this
      ensures Valid() && axisY.Some?
      ensures nextAxis == old(nextAxis) + (if path in old(series) then 0 else 1)
      ensures series == old(series)[path := Grown(Prior(old(series), path), QuicLoss, loss, sent, axisY.value)]
      ensures chart == Readded(old(chart), path)
      ensures path in series && series[path].axes == [axisY.value]
    {
      Notify(path, loss, sent, QuicLoss);
    }
  }
}
