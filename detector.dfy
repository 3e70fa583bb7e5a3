/**
 * The activity adapter: it updates the shared track history with a frame's
 * detections, classifies the history, and flattens the classification into one
 * record per (track, label) pair, in the order of the classification.
 */
module Detector {
  import opened Tracker

  /** One output record: the label's name as class id, its track, and confidence 1.0. */
  datatype ActivityRecord = ActivityRecord(classId: string, trackId: TrackId, conf: real)

  const ActivityConfidence: real := 1.0

  /** The records of one track's labels, in label order. */
  function RecordsOf(trackId: TrackId, labels: seq<Label>): (r: seq<ActivityRecord>)
    ensures |r| == |labels|
  {
    if labels == [] then []
    else
      RecordsOf(trackId, labels[..|labels| - 1])
      + [ActivityRecord(labels[|labels| - 1].Name(), trackId, ActivityConfidence)]
  }

  /** The records of a whole classification, track by track. */
  function Flatten(acts: seq<Activity>): (r: seq<ActivityRecord>)
    ensures |r| == LabelCount(acts)
  {
    if acts == [] then []
    else
      var a := acts[|acts| - 1];
      Flatten(acts[..|acts| - 1]) + RecordsOf(a.trackId, a.labels)
  }

  /** The number of labels in a classification. */
  function LabelCount(acts: seq<Activity>): nat
  {
    if acts == [] then 0 else LabelCount(acts[..|acts| - 1]) + |acts[|acts| - 1].labels|
  }

  /** The names of a label list. */
  function Names(labels: seq<Label>): seq<string>
  {
    if labels == [] then [] else Names(labels[..|labels| - 1]) + [labels[|labels| - 1].Name()]
  }

  /** The class ids of the records of track `t`, in record order. */
  function ClassIdsOf(recs: seq<ActivityRecord>, t: TrackId): seq<string>
  {
    if recs == [] then []
    else
      var r := recs[|recs| - 1];
      ClassIdsOf(recs[..|recs| - 1], t) + (if r.trackId == t then [r.classId] else [])
  }

  class ActivityDetector {
    const history: TrackHistory

    constructor (history: TrackHistory)
      ensures this.history == history
    {
      this.history := history;
    }

    /** Updates the history with the frame's detections at `now`, then classifies it and
        lists one record per (track, label). */
    method Detect(dets: seq<Detection>, now: real) returns (results: seq<ActivityRecord>)
      requires history.Valid()
      modifies history
      ensures history.Valid()
      ensures history.State() == Updated(old(history.State()), dets, now, history.maxHistory)
      ensures results == Flatten(Analysis(history.State()))
    {
      history.Update(dets, now);
      var activities := history.Analyze();
      results := Records(activities);
    }

    /** The nested loop of the detection operation: one record per (track, label), in order. */
    static method Records(activities: seq<Activity>) returns (results: seq<ActivityRecord>)
      ensures results == Flatten(activities)
    {
      results := [];
      for i := 0 to |activities|
        invariant results == Flatten(activities[..i])
      {
        var a := activities[i];
        FlattenStep(activities, i);
        ghost var prefix := results;
        for j := 0 to |a.labels|
          invariant results == prefix + RecordsOf(a.trackId, a.labels[..j])
        {
          RecordsOfStep(a.trackId, a.labels, j);
          results := results + [ActivityRecord(a.labels[j].Name(), a.trackId, ActivityConfidence)];
        }
        assert a.labels[..|a.labels|] == a.labels;
      }
      assert activities[..|activities|] == activities;
    }
  }

  // ---------------------------------------------------------------------------
  // Lemmas about the flattening

  lemma RecordsOfStep(trackId: TrackId, labels: seq<Label>, j: nat)
    requires j < |labels|
    ensures RecordsOf(trackId, labels[..j + 1])
      == RecordsOf(trackId, labels[..j]) + [ActivityRecord(labels[j].Name(), trackId, ActivityConfidence)]
  {
    assert labels[..j + 1][..j] == labels[..j];
  }

  lemma FlattenStep(acts: seq<Activity>, i: nat)
    requires i < |acts|
    ensures Flatten(acts[..i + 1]) == Flatten(acts[..i]) + RecordsOf(acts[i].trackId, acts[i].labels)
  {
    assert acts[..i + 1][..i] == acts[..i];
  }

  /** Record `i` of a track is the name of its label `i`, for that track, at confidence 1.0. */
  lemma {:induction false} RecordsOfAt(trackId: TrackId, labels: seq<Label>, i: nat)
    requires i < |labels|
    ensures RecordsOf(trackId, labels)[i] == ActivityRecord(labels[i].Name(), trackId, ActivityConfidence)
  {
    if i < |labels| - 1 {
      RecordsOfAt(trackId, labels[..|labels| - 1], i);
    }
  }

  lemma {:induction false} RecordsOfFacts(trackId: TrackId, labels: seq<Label>, t: TrackId)
    ensures forall r :: r in RecordsOf(trackId, labels) ==>
      r.trackId == trackId && r.conf == 1.0 && (r.classId == "loitering" || r.classId == "running")
    ensures ClassIdsOf(RecordsOf(trackId, labels), t) == if trackId == t then Names(labels) else []
  {
    if labels != [] {
      RecordsOfFacts(trackId, labels[..|labels| - 1], t);
    }
  }

  lemma {:induction false} ClassIdsOfAppend(x: seq<ActivityRecord>, y: seq<ActivityRecord>, t: TrackId)
    ensures ClassIdsOf(x + y, t) == ClassIdsOf(x, t) + ClassIdsOf(y, t)
  {
    if y == [] {
      assert x + y == x;
    } else {
      ClassIdsOfAppend(x, y[..|y| - 1], t);
      assert (x + y)[..|x + y| - 1] == x + y[..|y| - 1];
      assert (x + y)[|x + y| - 1] == y[|y| - 1];
    }
  }

  /** Every record has confidence 1.0, a class id that is "loitering" or "running", and
      the id of a track of the classification. */
  lemma {:induction false} FlattenRecords(acts: seq<Activity>)
    ensures forall r :: r in Flatten(acts) ==>
      && r.conf == 1.0
      && (r.classId == "loitering" || r.classId == "running")
      && exists k :: 0 <= k < |acts| && acts[k].trackId == r.trackId
  {
    if acts != [] {
      var p, a := acts[..|acts| - 1], acts[|acts| - 1];
      FlattenRecords(p);
      RecordsOfFacts(a.trackId, a.labels, a.trackId);
      forall r | r in Flatten(acts)
        ensures exists k :: 0 <= k < |acts| && acts[k].trackId == r.trackId
      {
        if r in Flatten(p) {
          var k :| 0 <= k < |p| && p[k].trackId == r.trackId;
          assert acts[k] == p[k];
        } else {
          assert acts[|acts| - 1].trackId == r.trackId;
        }
      }
    }
  }

  /** No record is for a track that has no entry. */
  lemma {:induction false} FlattenAbsent(acts: seq<Activity>, t: TrackId)
    requires forall k :: 0 <= k < |acts| ==> acts[k].trackId != t
    ensures ClassIdsOf(Flatten(acts), t) == []
  {
    if acts != [] {
      var p, a := acts[..|acts| - 1], acts[|acts| - 1];
      FlattenAbsent(p, t);
      ClassIdsOfAppend(Flatten(p), RecordsOf(a.trackId, a.labels), t);
      RecordsOfFacts(a.trackId, a.labels, t);
    }
  }

  /** With one entry per track, the class ids recorded for the track of entry `k` are the
      names of that entry's labels, in order. */
  lemma {:induction false} FlattenPerTrack(acts: seq<Activity>, k: nat)
    requires forall i, j :: 0 <= i < j < |acts| ==> acts[i].trackId != acts[j].trackId
    requires k < |acts|
    ensures ClassIdsOf(Flatten(acts), acts[k].trackId) == Names(acts[k].labels)
  {
    var t := acts[k].trackId;
    var p, a := acts[..|acts| - 1], acts[|acts| - 1];
    ClassIdsOfAppend(Flatten(p), RecordsOf(a.trackId, a.labels), t);
    RecordsOfFacts(a.trackId, a.labels, t);
    if k == |acts| - 1 {
      FlattenAbsent(p, t);
      assert [] + Names(a.labels) == Names(a.labels);
    } else {
      FlattenPerTrack(p, k);
    }
  }

  /** With every entry carrying a label, the output is empty iff the classification is. */
  lemma FlattenEmpty(acts: seq<Activity>)
    requires forall k :: 0 <= k < |acts| ==> acts[k].labels != []
    ensures Flatten(acts) == [] <==> acts == []
  {
    if acts != [] {
      var a := acts[|acts| - 1];
      RecordsOfFacts(a.trackId, a.labels, a.trackId);
    }
  }

  /** What one detection call returns, in terms of the history after the update: one
      record per (track, label); each record has confidence 1.0, a label name as class
      id and the id of a track kept in the history; for each kept track, its records list
      the names of its labels in order if it has at least 10 samples, and there are none
      otherwise; the output is empty iff no track is reported. */
  lemma DetectOutput(s: Store, dets: seq<Detection>, now: real, cap: nat)
    requires cap > 0 && WellFormed(s, cap)
    ensures var h := Updated(s, dets, now, cap);
      var recs := Flatten(Analysis(h));
      && |recs| == LabelCount(Analysis(h))
      && (recs == [] <==> Analysis(h) == [])
      && (forall r :: r in recs ==>
            r.conf == 1.0 && (r.classId == "loitering" || r.classId == "running")
            && r.trackId in h.tracks)
      && (forall t :: t in h.tracks ==>
            ClassIdsOf(recs, t) == if |h.tracks[t]| >= MinSamples then Names(Labels(h.tracks[t])) else [])
  {
    var h := Updated(s, dets, now, cap);
    AnalysisRecords(h, cap);
    forall t | t in h.tracks
      ensures ClassIdsOf(Flatten(Analysis(h)), t)
        == if |h.tracks[t]| >= MinSamples then Names(Labels(h.tracks[t])) else []
    {
      AnalysisRecordsOf(h, cap, t);
    }
  }

  /** The records of a history's classification: each has confidence 1.0, a label name and
      the id of a stored track, and there are none iff the classification is empty. */
  lemma AnalysisRecords(h: Store, cap: nat)
    requires WellFormed(h, cap)
    ensures var recs := Flatten(Analysis(h));
      && (recs == [] <==> Analysis(h) == [])
      && (forall r :: r in recs ==>
            r.conf == 1.0 && (r.classId == "loitering" || r.classId == "running")
            && r.trackId in h.tracks)
  {
    var acts := Analysis(h);
    AnalysisSound(h, cap);
    FlattenRecords(acts);
    FlattenEmpty(acts);
    forall r | r in Flatten(acts) ensures r.trackId in h.tracks {
      var k :| 0 <= k < |acts| && acts[k].trackId == r.trackId;
      assert acts[k] in acts;
    }
  }

  /** The class ids recorded for a stored track: the names of its labels, in order, when it
      has at least 10 samples; none otherwise. */
  lemma AnalysisRecordsOf(h: Store, cap: nat, t: TrackId)
    requires WellFormed(h, cap) && t in h.tracks
    ensures ClassIdsOf(Flatten(Analysis(h)), t)
      == if |h.tracks[t]| >= MinSamples then Names(Labels(h.tracks[t])) else []
  {
    var acts := Analysis(h);
    AnalysisSound(h, cap);
    AnalysisComplete(h, cap, t);
    if |h.tracks[t]| >= MinSamples && Labels(h.tracks[t]) != [] {
      var k :| 0 <= k < |acts| && acts[k].trackId == t;
      assert acts[k] in acts;
      FlattenPerTrack(acts, k);
    } else {
      FlattenAbsent(acts, t);
    }
  }
}
