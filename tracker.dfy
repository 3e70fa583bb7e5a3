/**
 * Per-track position history and the loitering / running classifier.
 *
 * The history is a dictionary from tracking id to a bounded queue of
 * (centroid, timestamp) samples. Dictionary iteration order matters to the
 * callers (the adapter lists its records in that order), so a history is
 * modelled as its keys in insertion order together with the map itself.
 * The clock is an explicit parameter `now`.
 */
module Tracker {
  import opened Options

  type TrackId = int

  /** A pixel position. */
  datatype Point = Point(x: int, y: int)

  /** A bounding box [x1, y1, x2, y2] in integer pixels. */
  datatype BBox = BBox(x1: int, y1: int, x2: int, y2: int)

  /** One detection of a frame; `trackId` is None when the tracker assigned no id. */
  datatype Detection = Detection(classId: int, bbox: BBox, conf: real, trackId: Option<TrackId>)

  /** One history entry: a centroid and the time it was observed at. */
  datatype Sample = Sample(pos: Point, time: real)

  /** The history dictionary: its keys in insertion order, and the samples of each key. */
  datatype Store = Store(ids: seq<TrackId>, tracks: map<TrackId, seq<Sample>>)

  /** The two activity labels; `Name` is the string the source uses for each. */
  datatype Label = Loitering | Running
  {
    function Name(): string
    {
      match this
      case Loitering => "loitering"
      case Running => "running"
    }
  }

  /** The result entry of one track: its labels, in the order they were found. */
  datatype Activity = Activity(trackId: TrackId, labels: seq<Label>)

  const DefaultMaxHistory: nat := 30
  const StationaryThreshold: int := 20       // pixels of net movement
  const LoiterTimeThreshold: real := 5.0     // seconds
  const RunSpeedThreshold: real := 200.0     // pixels per second (the literal the classifier uses)
  const SpeedEpsilon: real := 0.00001        // added to the time difference of the speed window
  const MinSamples: nat := 10                // fewer samples than this: no classification
  const RunWindow: nat := 5                  // the speed window starts 5 samples from the end
  const EvictionWindow: real := 5.0          // seconds without a sample before an absent id is dropped

  // ---------------------------------------------------------------------------
  // Geometry

  /** The centroid of a box, by floor division of the coordinate sums by 2. */
  function Centroid(b: BBox): (c: Point)
    ensures 2 * c.x <= b.x1 + b.x2 < 2 * c.x + 2
    ensures 2 * c.y <= b.y1 + b.y2 < 2 * c.y + 2
  {
    Point((b.x1 + b.x2) / 2, (b.y1 + b.y2) / 2)
  }

  /** The squared Euclidean distance between two positions. */
  function SqDist(a: Point, b: Point): int
  {
    (a.x - b.x) * (a.x - b.x) + (a.y - b.y) * (a.y - b.y)
  }

  // ---------------------------------------------------------------------------
  // Bounded queues

  /** Appending to a queue of capacity `cap`: the oldest sample drops on overflow. */
  function Push(q: seq<Sample>, x: Sample, cap: nat): (r: seq<Sample>)
    requires cap > 0
    ensures 0 < |r| <= cap && r[|r| - 1] == x
    ensures |q| < cap ==> r == q + [x]
    ensures |q| >= cap ==> |r| == cap && r[..cap - 1] == q[|q| - cap + 1..]
  {
    if |q| < cap then q + [x] else (q + [x])[|q| + 1 - cap..]
  }

  function Newest(q: seq<Sample>): Sample
    requires |q| > 0
  {
    q[|q| - 1]
  }

  /** Samples are in non-decreasing time order. */
  predicate Chronological(q: seq<Sample>)
  {
    forall i, j :: 0 <= i < j < |q| ==> q[i].time <= q[j].time
  }

  /** No sample is later than `now`. */
  predicate NotAfter(q: seq<Sample>, now: real)
  {
    forall i :: 0 <= i < |q| ==> q[i].time <= now
  }

  // ---------------------------------------------------------------------------
  // The history dictionary

  predicate Distinct(xs: seq<TrackId>)
  {
    forall i, j :: 0 <= i < j < |xs| ==> xs[i] != xs[j]
  }

  /** The key order lists each key once, and every queue is non-empty and within capacity. */
  predicate WellFormed(s: Store, cap: nat)
  {
    && Distinct(s.ids)
    && (forall i :: 0 <= i < |s.ids| ==> s.ids[i] in s.tracks)
    && (forall t :: t in s.tracks ==> t in s.ids)
    && (forall t :: t in s.tracks ==> 0 < |s.tracks[t]| <= cap)
  }

  /** Every queue is in time order and none holds a sample later than `now`. */
  predicate ClockOrdered(s: Store, now: real)
  {
    forall t :: t in s.tracks ==> Chronological(s.tracks[t]) && NotAfter(s.tracks[t], now)
  }

  /** The elements of `xs` that are in `keep`, in their order. */
  function FilterIn(xs: seq<TrackId>, keep: set<TrackId>): seq<TrackId>
  {
    if xs == [] then []
    else FilterIn(xs[..|xs| - 1], keep) + (if xs[|xs| - 1] in keep then [xs[|xs| - 1]] else [])
  }

  /** `xs` without the element `t`, the order of the rest kept. */
  function Without(xs: seq<TrackId>, t: TrackId): seq<TrackId>
  {
    if xs == [] then []
    else Without(xs[..|xs| - 1], t) + (if xs[|xs| - 1] == t then [] else [xs[|xs| - 1]])
  }

  /** The ids the detections carry. */
  function ActiveIds(dets: seq<Detection>): set<TrackId>
  {
    if dets == [] then {}
    else
      var d := dets[|dets| - 1];
      ActiveIds(dets[..|dets| - 1]) + (if d.trackId.Some? then {d.trackId.value} else {})
  }

  /** The box of the last detection that carries id `t`. */
  function LastBox(dets: seq<Detection>, t: TrackId): BBox
    requires t in ActiveIds(dets)
  {
    var d := dets[|dets| - 1];
    if d.trackId == Some(t) then d.bbox else LastBox(dets[..|dets| - 1], t)
  }

  /** The detections that carry an id, in order. */
  function TrackedOnly(dets: seq<Detection>): seq<Detection>
  {
    if dets == [] then []
    else
      var d := dets[|dets| - 1];
      TrackedOnly(dets[..|dets| - 1]) + (if d.trackId.Some? then [d] else [])
  }

  /** One step of the detection loop: a detection with an id appends its centroid at `now`. */
  function Observe(s: Store, d: Detection, now: real, cap: nat): (r: Store)
    requires cap > 0 && WellFormed(s, cap)
    ensures WellFormed(r, cap)
    ensures |s.ids| <= |r.ids| && r.ids[..|s.ids|] == s.ids
    ensures forall t :: t in r.tracks <==> t in s.tracks || d.trackId == Some(t)
    ensures forall t :: t in s.tracks && d.trackId != Some(t) ==> r.tracks[t] == s.tracks[t]
    ensures d.trackId.Some? ==>
      d.trackId.value in r.tracks && |r.tracks[d.trackId.value]| > 0
      && Newest(r.tracks[d.trackId.value]) == Sample(Centroid(d.bbox), now)
  {
    match d.trackId
    case None => s
    case Some(t) =>
      var q := if t in s.tracks then s.tracks[t] else [];
      Store(if t in s.tracks then s.ids else s.ids + [t],
            s.tracks[t := Push(q, Sample(Centroid(d.bbox), now), cap)])
  }

  /** The whole detection loop. */
  function ObserveAll(s: Store, dets: seq<Detection>, now: real, cap: nat): (r: Store)
    requires cap > 0 && WellFormed(s, cap)
    ensures WellFormed(r, cap)
    ensures |s.ids| <= |r.ids| && r.ids[..|s.ids|] == s.ids
  {
    if dets == [] then s
    else Observe(ObserveAll(s, dets[..|dets| - 1], now, cap), dets[|dets| - 1], now, cap)
  }

  /** An id whose newest sample is more than the eviction window older than `now`. */
  predicate Stale(q: seq<Sample>, now: real)
    requires |q| > 0
    ensures Chronological(q) ==>
      (Stale(q, now) <==> forall i :: 0 <= i < |q| ==> now - q[i].time > EvictionWindow)
  {
    now - Newest(q).time > EvictionWindow
  }

  /** The clean-up loop: ids not in `active` whose newest sample is stale are deleted. */
  function Evict(s: Store, active: set<TrackId>, now: real, cap: nat): (r: Store)
    requires WellFormed(s, cap)
    ensures WellFormed(r, cap)
    ensures forall t :: t in r.tracks <==> t in s.tracks && (t in active || !Stale(s.tracks[t], now))
    ensures forall t :: t in r.tracks ==> r.tracks[t] == s.tracks[t]
    ensures r.ids == FilterIn(s.ids, r.tracks.Keys)
  {
    var kept := map t | t in s.tracks && (t in active || !Stale(s.tracks[t], now)) :: s.tracks[t];
    FilterInFacts(s.ids, kept.Keys);
    Store(FilterIn(s.ids, kept.Keys), kept)
  }

  /** The history after one call of the update operation at time `now`. */
  function Updated(s: Store, dets: seq<Detection>, now: real, cap: nat): (r: Store)
    requires cap > 0 && WellFormed(s, cap)
    ensures WellFormed(r, cap)
  {
    Evict(ObserveAll(s, dets, now, cap), ActiveIds(dets), now, cap)
  }

  // ---------------------------------------------------------------------------
  // Classification

  /** Long dwell with little net movement: more than 5 s between the oldest and newest
      sample, and less than 20 px between their positions (compared squared). */
  predicate Loiters(q: seq<Sample>)
    requires |q| > 0
    ensures Loiters(q) ==> |q| >= 2
  {
    var start, curr := q[0], q[|q| - 1];
    && curr.time - start.time > LoiterTimeThreshold
    && SqDist(curr.pos, start.pos) < StationaryThreshold * StationaryThreshold
  }

  /** The denominator of the speed estimate: the time across the window, plus epsilon. */
  function SpeedDenominator(q: seq<Sample>): (r: real)
    requires |q| >= RunWindow
    ensures Chronological(q) ==> r >= SpeedEpsilon
  {
    q[|q| - 1].time - q[|q| - RunWindow].time + SpeedEpsilon
  }

  /** Distance across the window over its denominator is above 200 px/s (compared squared). */
  predicate Runs(q: seq<Sample>)
    requires |q| >= RunWindow
    ensures Runs(q) ==> q[|q| - 1].pos != q[|q| - RunWindow].pos
  {
    var prev, curr := q[|q| - RunWindow], q[|q| - 1];
    var dt := SpeedDenominator(q);
    var bound := RunSpeedThreshold * dt;
    dt > 0.0 && (SqDist(curr.pos, prev.pos) as real) > bound * bound
  }

  /** The labels of one track's queue. */
  function Labels(q: seq<Sample>): (r: seq<Label>)
    requires |q| > 0
    ensures Loitering in r <==> Loiters(q)
    ensures Running in r <==> |q| >= RunWindow && Runs(q)
    ensures |r| <= 2 && (|r| == 2 ==> r == [Loitering, Running])
  {
    (if Loiters(q) then [Loitering] else [])
    + (if |q| >= RunWindow && Runs(q) then [Running] else [])
  }

  /** Whether a key qualifies for the result: enough samples and at least one label. */
  predicate Reported(q: seq<Sample>)
  {
    |q| >= MinSamples && Labels(q) != []
  }

  /** The result over the keys `ids`, in their order. */
  function AnalysisOf(ids: seq<TrackId>, tracks: map<TrackId, seq<Sample>>): (r: seq<Activity>)
    requires forall t :: t in ids ==> t in tracks && |tracks[t]| > 0
    ensures |r| <= |ids|
  {
    if ids == [] then []
    else
      var p, t := ids[..|ids| - 1], ids[|ids| - 1];
      assert forall x :: x in p ==> x in ids;
      AnalysisOf(p, tracks) + (if Reported(tracks[t]) then [Activity(t, Labels(tracks[t]))] else [])
  }

  /** What the analysis returns for a history. */
  function Analysis(s: Store): (r: seq<Activity>)
    requires forall t :: t in s.ids ==> t in s.tracks && |s.tracks[t]| > 0
    ensures |r| <= |s.ids|
  {
    AnalysisOf(s.ids, s.tracks)
  }

  // ---------------------------------------------------------------------------
  // The history object

  class TrackHistory {
    const maxHistory: nat
    var ids: seq<TrackId>
    var tracks: map<TrackId, seq<Sample>>

    function State(): Store
      reads this
    {
      Store(ids, tracks)
    }

    predicate Valid()
      reads this
    {
      maxHistory > 0 && WellFormed(State(), maxHistory)
    }

    constructor (maxHistory: nat := DefaultMaxHistory)
      requires maxHistory > 0
      ensures Valid() && this.maxHistory == maxHistory
      ensures ids == [] && tracks == map[]
    {
      this.maxHistory := maxHistory;
      ids := [];
      tracks := map[];
    }

    /** Records the frame's detections at time `now`, then deletes stale absent ids. */
    method Update(dets: seq<Detection>, now: real)
      requires Valid()
      modifies this
      ensures Valid()
      ensures State() == Updated(old(State()), dets, now, maxHistory)
    {
      var active := RecordDetections(dets, now);
      EvictStale(active, now);
    }

    /** The detection loop of the update operation; returns the ids it saw. */
    method RecordDetections(dets: seq<Detection>, now: real) returns (active: set<TrackId>)
      requires Valid()
      modifies this
      ensures Valid()
      ensures State() == ObserveAll(old(State()), dets, now, maxHistory)
      ensures active == ActiveIds(dets)
    {
      active := {};
      ghost var start := State();
      for i := 0 to |dets|
        invariant Valid()
        invariant State() == ObserveAll(start, dets[..i], now, maxHistory)
        invariant active == ActiveIds(dets[..i])
      {
        ObserveAllStep(start, dets, now, maxHistory, i);
        var d := dets[i];
        if d.trackId.Some? {
          active := active + {d.trackId.value};
          Record(d, now);
        }
      }
      assert dets[..|dets|] == dets;
    }

    /** The body of the detection loop for a detection that carries an id: a new id gets
        an empty queue at the end of the key order, then the centroid is pushed. */
    method Record(d: Detection, now: real)
      requires Valid() && d.trackId.Some?
      modifies this
      ensures Valid()
      ensures State() == Observe(old(State()), d, now, maxHistory)
    {
      var tid := d.trackId.value;
      var centroid := Centroid(d.bbox);
      if tid !in tracks {
        tracks := tracks[tid := []];
        ids := ids + [tid];
      }
      tracks := tracks[tid := Push(tracks[tid], Sample(centroid, now), maxHistory)];
      assert tracks == old(tracks)[tid := Push(if tid in old(tracks) then old(tracks)[tid] else [],
                                               Sample(centroid, now), maxHistory)];
    }

    /** The clean-up loop of the update operation: an id not in `active` whose newest
        sample is more than 5 s old is deleted. */
    method EvictStale(active: set<TrackId>, now: real)
      requires Valid()
      modifies this
      ensures Valid()
      ensures State() == Evict(old(State()), active, now, maxHistory)
    {
      ghost var start := State();
      var keys := ids;
      EvictStart(start, active, now, maxHistory);
      for i := 0 to |keys|
        invariant EvictedUpTo(start, active, now, maxHistory, State(), i)
      {
        var tid := keys[i];
        EvictStep(start, active, now, maxHistory, State(), i);
        if tid !in active && Stale(tracks[tid], now) {
          tracks := tracks - {tid};
          ids := Without(ids, tid);
        }
      }
      EvictDone(start, active, now, maxHistory, State());
    }

    /** The two tests of the classification loop on one queue: loitering between the
        oldest and newest sample, then running across the last five samples. */
    static method Classify(points: seq<Sample>) returns (labels: seq<Label>)
      requires |points| > 0
      ensures labels == Labels(points)
    {
      var start, curr := points[0], points[|points| - 1];
      labels := [];
      var duration := curr.time - start.time;
      var displacement := SqDist(curr.pos, start.pos);
      if duration > LoiterTimeThreshold && displacement < StationaryThreshold * StationaryThreshold {
        labels := labels + [Loitering];
      }
      if |points| >= RunWindow {
        var prev := points[|points| - RunWindow];
        var dist := SqDist(curr.pos, prev.pos);
        var dt := curr.time - prev.time + SpeedEpsilon;
        if dt > 0.0 && (dist as real) > (RunSpeedThreshold * dt) * (RunSpeedThreshold * dt) {
          labels := labels + [Running];
        }
      }
    }

    /** Classifies every key with enough samples; reads the history only. */
    method Analyze() returns (acts: seq<Activity>)
      requires Valid()
      ensures acts == Analysis(State())
    {
      acts := [];
      for i := 0 to |ids|
        invariant acts == AnalysisOf(ids[..i], tracks)
      {
        AnalysisOfStep(ids, tracks, i);
        var tid := ids[i];
        var points := tracks[tid];
        if |points| < MinSamples {
          continue;
        }
        var labels := Classify(points);
        if labels != [] {
          acts := acts + [Activity(tid, labels)];
        }
      }
      assert ids[..|ids|] == ids;
    }
  }

  // ---------------------------------------------------------------------------
  // The clean-up loop, one key at a time

  /** One more detection of the detection loop. */
  lemma ObserveAllStep(s: Store, dets: seq<Detection>, now: real, cap: nat, i: nat)
    requires cap > 0 && WellFormed(s, cap) && i < |dets|
    ensures ObserveAll(s, dets[..i + 1], now, cap)
      == Observe(ObserveAll(s, dets[..i], now, cap), dets[i], now, cap)
    ensures ActiveIds(dets[..i + 1])
      == ActiveIds(dets[..i]) + (if dets[i].trackId.Some? then {dets[i].trackId.value} else {})
  {
    assert dets[..i + 1][..i] == dets[..i];
  }

  /** One more key of the classification loop. */
  lemma AnalysisOfStep(ids: seq<TrackId>, tracks: map<TrackId, seq<Sample>>, i: nat)
    requires forall t :: t in ids ==> t in tracks && |tracks[t]| > 0
    requires i < |ids|
    ensures AnalysisOf(ids[..i + 1], tracks) == AnalysisOf(ids[..i], tracks)
      + (if Reported(tracks[ids[i]]) then [Activity(ids[i], Labels(tracks[ids[i]]))] else [])
  {
    assert ids[..i + 1][..i] == ids[..i];
  }

  /** The clean-up loop has visited the first `i` keys of `start`: each visited key is
      still present iff it is active or not stale, each unvisited key is present, every
      present key keeps its samples, and the key order is that of `start` restricted to
      the present keys. */
  ghost predicate EvictedUpTo(start: Store, active: set<TrackId>, now: real, cap: nat,
                              cur: Store, i: nat)
  {
    && WellFormed(start, cap)
    && (forall t :: t in start.tracks ==> |start.tracks[t]| > 0)
    && i <= |start.ids|
    && cur.ids == FilterIn(start.ids, cur.tracks.Keys)
    && (forall t :: t in cur.tracks ==> t in start.tracks && cur.tracks[t] == start.tracks[t])
    && (forall k :: 0 <= k < |start.ids| ==>
          start.ids[k] in start.tracks
          && (start.ids[k] in cur.tracks <==>
                k >= i || start.ids[k] in active || !Stale(start.tracks[start.ids[k]], now)))
  }

  lemma EvictStart(start: Store, active: set<TrackId>, now: real, cap: nat)
    requires WellFormed(start, cap)
    ensures EvictedUpTo(start, active, now, cap, start, 0)
    ensures FilterIn(start.ids, start.tracks.Keys) == start.ids
  {
    FilterInAll(start.ids, start.tracks.Keys);
  }

  /** Visiting key `i`: it is present with its original samples, and deleting it exactly
      when it is inactive and stale moves the loop state on by one key. */
  lemma EvictStep(start: Store, active: set<TrackId>, now: real, cap: nat, cur: Store, i: nat)
    requires EvictedUpTo(start, active, now, cap, cur, i) && i < |start.ids|
    ensures var t := start.ids[i];
      && t in cur.tracks && cur.tracks[t] == start.tracks[t] && |cur.tracks[t]| > 0
      && EvictedUpTo(start, active, now, cap,
           if t !in active && Stale(cur.tracks[t], now)
           then Store(Without(cur.ids, t), cur.tracks - {t}) else cur, i + 1)
  {
    var t := start.ids[i];
    assert forall k :: 0 <= k < |start.ids| && k != i ==> start.ids[k] != t;
    FilterInWithout(start.ids, cur.tracks, t);
  }

  lemma EvictDone(start: Store, active: set<TrackId>, now: real, cap: nat, cur: Store)
    requires EvictedUpTo(start, active, now, cap, cur, |start.ids|)
    ensures cur == Evict(start, active, now, cap)
  {
    var e := Evict(start, active, now, cap);
    forall t | t in e.tracks ensures t in cur.tracks {
      var k :| 0 <= k < |start.ids| && start.ids[k] == t;
    }
    assert forall t :: t in cur.tracks <==> t in e.tracks;
    assert forall t :: t in cur.tracks ==> cur.tracks[t] == e.tracks[t];
    assert cur.tracks == e.tracks;
  }

  // ---------------------------------------------------------------------------
  // Lemmas about sequences of ids

  /** Filtering keeps exactly the listed keys that are in `keep`, each once. */
  lemma {:induction false} FilterInFacts(xs: seq<TrackId>, keep: set<TrackId>)
    ensures forall x :: x in FilterIn(xs, keep) <==> x in xs && x in keep
    ensures Distinct(xs) ==> Distinct(FilterIn(xs, keep))
  {
    if xs != [] {
      var p, last := xs[..|xs| - 1], xs[|xs| - 1];
      FilterInFacts(p, keep);
      assert xs == p + [last];
      if Distinct(xs) {
        assert Distinct(p);
        assert last !in p;
      }
    }
  }

  /** Every reported key is listed, has at least 10 samples and carries exactly its
      labels; with distinct keys, no key is reported twice. */
  lemma {:induction false} AnalysisOfSound(ids: seq<TrackId>, tracks: map<TrackId, seq<Sample>>)
    requires forall t :: t in ids ==> t in tracks && |tracks[t]| > 0
    ensures var r := AnalysisOf(ids, tracks);
      && (forall a :: a in r ==>
            a.trackId in ids && Reported(tracks[a.trackId]) && a.labels == Labels(tracks[a.trackId]))
      && (Distinct(ids) ==> forall i, j :: 0 <= i < j < |r| ==> r[i].trackId != r[j].trackId)
  {
    if ids != [] {
      var p, last := ids[..|ids| - 1], ids[|ids| - 1];
      assert ids == p + [last];
      AnalysisOfSound(p, tracks);
      if Distinct(ids) {
        assert Distinct(p);
        assert last !in p;
      }
    }
  }

  /** Every key with at least 10 samples and some label is reported. */
  lemma {:induction false} AnalysisOfComplete(ids: seq<TrackId>, tracks: map<TrackId, seq<Sample>>, t: TrackId)
    requires forall x :: x in ids ==> x in tracks && |tracks[x]| > 0
    requires t in ids
    ensures Reported(tracks[t]) ==>
      exists k :: 0 <= k < |AnalysisOf(ids, tracks)| && AnalysisOf(ids, tracks)[k].trackId == t
  {
    if !Reported(tracks[t]) {
      return;
    }
    var p, last := ids[..|ids| - 1], ids[|ids| - 1];
    assert forall x :: x in p ==> x in ids;
    var rest := AnalysisOf(p, tracks);
    var r := AnalysisOf(ids, tracks);
    assert r == rest + (if Reported(tracks[last]) then [Activity(last, Labels(tracks[last]))] else []);
    if t == last {
      assert r[|rest|].trackId == t;
    } else {
      assert t in p by {
        assert ids == p + [last];
      }
      AnalysisOfComplete(p, tracks, t);
      var k :| 0 <= k < |rest| && rest[k].trackId == t;
      assert r[k] == rest[k];
    }
  }

  lemma {:induction false} FilterInAll(xs: seq<TrackId>, keep: set<TrackId>)
    requires forall i :: 0 <= i < |xs| ==> xs[i] in keep
    ensures FilterIn(xs, keep) == xs
  {
    if xs != [] {
      var p, x := xs[..|xs| - 1], xs[|xs| - 1];
      forall i | 0 <= i < |p| ensures p[i] in keep {
        assert p[i] == xs[i];
      }
      FilterInAll(p, keep);
      assert xs == p + [x];
    }
  }

  lemma FilterInWithout(xs: seq<TrackId>, tracks: map<TrackId, seq<Sample>>, t: TrackId)
    ensures FilterIn(xs, (tracks - {t}).Keys) == Without(FilterIn(xs, tracks.Keys), t)
  {
    assert (tracks - {t}).Keys == tracks.Keys - {t};
    FilterInWithoutKey(xs, tracks.Keys, t);
  }

  lemma {:induction false} FilterInWithoutKey(xs: seq<TrackId>, keep: set<TrackId>, t: TrackId)
    ensures FilterIn(xs, keep - {t}) == Without(FilterIn(xs, keep), t)
  {
    if xs != [] {
      var p, x := xs[..|xs| - 1], xs[|xs| - 1];
      FilterInWithoutKey(p, keep, t);
      var f := FilterIn(p, keep);
      if x in keep {
        assert (f + [x])[..|f + [x]| - 1] == f;
      } else {
        assert f + [] == f;
      }
    }
  }

  // ---------------------------------------------------------------------------
  // Lemmas about the update operation

  /** The detection loop: the keys grow by exactly the detected ids, an undetected key
      keeps its samples, and a detected key's newest sample is the centroid of the last
      box that carried it, stamped `now`. */
  lemma {:induction false} ObserveAllEffect(s: Store, dets: seq<Detection>, now: real, cap: nat)
    requires cap > 0 && WellFormed(s, cap)
    ensures var r := ObserveAll(s, dets, now, cap);
      && (forall t :: t in r.tracks <==> t in s.tracks || t in ActiveIds(dets))
      && (forall t :: t in s.tracks && t !in ActiveIds(dets) ==> r.tracks[t] == s.tracks[t])
      && (forall t :: t in ActiveIds(dets) ==>
            Newest(r.tracks[t]) == Sample(Centroid(LastBox(dets, t)), now))
  {
    if dets != [] {
      ObserveAllEffect(s, dets[..|dets| - 1], now, cap);
    }
  }

  /** Every id detected in the call is kept, and its newest sample is the floor-midpoint
      centroid of its (last) box at time `now`. */
  lemma UpdatedKeepsDetected(s: Store, dets: seq<Detection>, now: real, cap: nat, t: TrackId)
    requires cap > 0 && WellFormed(s, cap)
    requires t in ActiveIds(dets)
    ensures var r := Updated(s, dets, now, cap);
      t in r.tracks && Newest(r.tracks[t]) == Sample(Centroid(LastBox(dets, t)), now)
  {
    ObserveAllEffect(s, dets, now, cap);
  }

  /** An id absent from the call is deleted iff its newest sample is more than 5 s old;
      if kept, its samples are unchanged. An id that was neither stored nor detected
      does not appear. */
  lemma UpdatedAbsent(s: Store, dets: seq<Detection>, now: real, cap: nat, t: TrackId)
    requires cap > 0 && WellFormed(s, cap)
    requires t !in ActiveIds(dets)
    ensures var r := Updated(s, dets, now, cap);
      && (t in r.tracks <==> t in s.tracks && !Stale(s.tracks[t], now))
      && (t in r.tracks ==> r.tracks[t] == s.tracks[t])
  {
    ObserveAllEffect(s, dets, now, cap);
  }

  /** No key is created except by a detection. */
  lemma UpdatedCreatesOnlyDetected(s: Store, dets: seq<Detection>, now: real, cap: nat)
    requires cap > 0 && WellFormed(s, cap)
    ensures Updated(s, dets, now, cap).tracks.Keys <= s.tracks.Keys + ActiveIds(dets)
  {
    ObserveAllEffect(s, dets, now, cap);
    var m := ObserveAll(s, dets, now, cap);
    var r := Updated(s, dets, now, cap);
    forall t | t in r.tracks
      ensures t in s.tracks.Keys + ActiveIds(dets)
    {
      assert t in m.tracks;
    }
  }

  lemma PushClockOrdered(q: seq<Sample>, x: Sample, cap: nat)
    requires cap > 0
    requires Chronological(q) && NotAfter(q, x.time)
    ensures Chronological(Push(q, x, cap)) && NotAfter(Push(q, x, cap), x.time)
  {
    var e := q + [x];
    assert Chronological(e);
    assert NotAfter(e, x.time);
  }

  lemma {:induction false} ObserveAllClockOrdered(s: Store, dets: seq<Detection>, now: real, cap: nat)
    requires cap > 0 && WellFormed(s, cap)
    requires ClockOrdered(s, now)
    ensures ClockOrdered(ObserveAll(s, dets, now, cap), now)
  {
    if dets != [] {
      var m := ObserveAll(s, dets[..|dets| - 1], now, cap);
      ObserveAllClockOrdered(s, dets[..|dets| - 1], now, cap);
      var d := dets[|dets| - 1];
      if d.trackId.Some? {
        var t := d.trackId.value;
        var q := if t in m.tracks then m.tracks[t] else [];
        PushClockOrdered(q, Sample(Centroid(d.bbox), now), cap);
      }
    }
  }

  /** With a clock that does not run backwards (no stored sample is later than `now`),
      every queue stays in non-decreasing time order. */
  lemma UpdatedClockOrdered(s: Store, dets: seq<Detection>, now: real, cap: nat)
    requires cap > 0 && WellFormed(s, cap)
    requires ClockOrdered(s, now)
    ensures ClockOrdered(Updated(s, dets, now, cap), now)
  {
    ObserveAllClockOrdered(s, dets, now, cap);
  }

  lemma {:induction false} ObserveAllUntracked(s: Store, dets: seq<Detection>, now: real, cap: nat)
    requires cap > 0 && WellFormed(s, cap)
    ensures ObserveAll(s, dets, now, cap) == ObserveAll(s, TrackedOnly(dets), now, cap)
    ensures ActiveIds(dets) == ActiveIds(TrackedOnly(dets))
  {
    if dets != [] {
      var p, d := dets[..|dets| - 1], dets[|dets| - 1];
      ObserveAllUntracked(s, p, now, cap);
      var tp := TrackedOnly(p);
      if d.trackId.Some? {
        assert (tp + [d])[..|tp + [d]| - 1] == tp;
      } else {
        assert tp + [] == tp;
      }
    }
  }

  /** Detections without an id contribute nothing: dropping them gives the same history. */
  lemma UpdatedIgnoresUntracked(s: Store, dets: seq<Detection>, now: real, cap: nat)
    requires cap > 0 && WellFormed(s, cap)
    ensures Updated(s, dets, now, cap) == Updated(s, TrackedOnly(dets), now, cap)
  {
    ObserveAllUntracked(s, dets, now, cap);
  }

  lemma {:induction false} NoIdsObserveNothing(s: Store, dets: seq<Detection>, now: real, cap: nat)
    requires cap > 0 && WellFormed(s, cap)
    requires forall i :: 0 <= i < |dets| ==> dets[i].trackId.None?
    ensures ObserveAll(s, dets, now, cap) == s && ActiveIds(dets) == {}
  {
    if dets != [] {
      NoIdsObserveNothing(s, dets[..|dets| - 1], now, cap);
    }
  }

  /** A frame without ids, when no stored id is stale, leaves the history exactly as it was. */
  lemma UpdatedQuietFrame(s: Store, dets: seq<Detection>, now: real, cap: nat)
    requires cap > 0 && WellFormed(s, cap)
    requires forall i :: 0 <= i < |dets| ==> dets[i].trackId.None?
    requires forall t :: t in s.tracks ==> !Stale(s.tracks[t], now)
    ensures Updated(s, dets, now, cap) == s
  {
    NoIdsObserveNothing(s, dets, now, cap);
    EvictStart(s, {}, now, cap);
    var r := Evict(s, {}, now, cap);
    assert forall t :: t in r.tracks <==> t in s.tracks;
    assert r.tracks == s.tracks;
  }

  // ---------------------------------------------------------------------------
  // Lemmas about the classifier

  /** Multiplying by a positive factor preserves the strict order, and squaring
      preserves it on non-negative reals. */
  lemma SquareMonotone(a: real, b: real)
    requires a >= 0.0 && b >= 0.0
    ensures a < b <==> a * a < b * b
  {
    if a < b {
      calc {
        a * a;
      <= a * b;
      <  b * b;
      }
    } else {
      calc {
        b * b;
      <= b * a;
      <= a * a;
      }
    }
  }

  /** For a displacement `disp` with disp² equal to the squared distance, the squared
      comparison is the one on distances: disp < 20. */
  lemma LoitersMeansDwellAndStill(q: seq<Sample>, disp: real)
    requires |q| > 0 && disp >= 0.0
    ensures disp * disp == SqDist(q[|q| - 1].pos, q[0].pos) as real ==>
      (Loiters(q) <==>
         q[|q| - 1].time - q[0].time > LoiterTimeThreshold && disp < StationaryThreshold as real)
  {
    SquareMonotone(disp, 20.0);
  }

  /** For a distance `dist` with dist² equal to the squared distance across the window,
      the squared comparison is the speed test: the denominator is non-zero and
      dist / denominator > 200. */
  lemma RunsMeansFast(q: seq<Sample>, dist: real)
    requires |q| >= RunWindow && dist >= 0.0
    ensures dist * dist == SqDist(q[|q| - 1].pos, q[|q| - RunWindow].pos) as real ==>
      (Runs(q) <==> SpeedDenominator(q) != 0.0 && dist / SpeedDenominator(q) > RunSpeedThreshold)
  {
    var dt := SpeedDenominator(q);
    if dist * dist == SqDist(q[|q| - 1].pos, q[|q| - RunWindow].pos) as real {
      if dt > 0.0 {
        var bound := RunSpeedThreshold * dt;
        SquareMonotone(bound, dist);
        assert dist / dt > RunSpeedThreshold <==> dist > bound by {
          assert dist == (dist / dt) * dt;
        }
      } else if dt < 0.0 {
        assert dist / dt <= 0.0 by {
          assert dist == (dist / dt) * dt;
        }
      }
    }
  }

  /** The speed threshold is strict: a window whose distance is exactly 200 px/s times
      its denominator does not count as running. */
  lemma RunningThresholdIsStrict(q: seq<Sample>)
    requires |q| >= RunWindow
    ensures SqDist(q[|q| - 1].pos, q[|q| - RunWindow].pos) as real
      == (RunSpeedThreshold * SpeedDenominator(q)) * (RunSpeedThreshold * SpeedDenominator(q))
      ==> !Runs(q)
  {
  }

  /** Classification reads the history only: every reported key is stored, has at least
      10 samples and carries exactly its labels, and no key is reported twice. */
  lemma AnalysisSound(s: Store, cap: nat)
    requires WellFormed(s, cap)
    ensures forall a :: a in Analysis(s) ==>
      && a.trackId in s.tracks && |s.tracks[a.trackId]| >= MinSamples
      && a.labels == Labels(s.tracks[a.trackId]) && a.labels != []
    ensures forall i, j :: 0 <= i < j < |Analysis(s)| ==> Analysis(s)[i].trackId != Analysis(s)[j].trackId
  {
    AnalysisOfSound(s.ids, s.tracks);
  }

  /** A stored key has an entry iff it has at least 10 samples and at least one label. */
  lemma AnalysisComplete(s: Store, cap: nat, t: TrackId)
    requires WellFormed(s, cap) && t in s.tracks
    ensures (exists k :: 0 <= k < |Analysis(s)| && Analysis(s)[k].trackId == t)
      <==> |s.tracks[t]| >= MinSamples && Labels(s.tracks[t]) != []
  {
    assert t in s.ids;
    var r := Analysis(s);
    assert r == AnalysisOf(s.ids, s.tracks);
    if exists k :: 0 <= k < |r| && r[k].trackId == t {
      var k :| 0 <= k < |r| && r[k].trackId == t;
      AnalysisOfSound(s.ids, s.tracks);
      assert r[k] in r;
      assert Reported(s.tracks[t]);
    } else {
      AnalysisOfComplete(s.ids, s.tracks, t);
      assert !Reported(s.tracks[t]);
    }
  }
}
