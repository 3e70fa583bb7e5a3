# Surveillance activity core, modelled in Dafny

This project models the in-memory core of a video-surveillance pipeline. It has three parts.

- **The track history** (`Tracker`, tracker/track_history.py). This is a dictionary from tracking id to a bounded queue of (centroid, timestamp) samples.
  - `update` appends the centroid of every detection that carries an id. It then deletes the ids that were absent from the call and whose newest sample is more than 5 s old.
  - `analyze` classifies every id with at least 10 samples, giving it the labels "loitering" and/or "running".
- **The alert cooldown gate** (`Alerts`, alerts/alert_manager.py). For each event type it records the time of the last accepted alert. An alert is accepted iff its type has no entry or the shared cooldown has fully elapsed.
- **The activity adapter** (`Detector`, detector/activity_detector.py). It updates the history, analyzes it, and flattens the result into one record `(class id, track id, confidence 1.0)` per (track, label) pair.

Modelling choices:

- **Clock.** The clock is an explicit parameter `now: real`.
- **Distances.** They are compared squared, so no square root is needed. `RunsMeansFast` and `LoitersMeansDwellAndStill` show that the squared tests are exactly the source's tests, for any non-negative distance whose square is the squared distance.
- **Dictionary order.** The history's iteration order decides the order of the adapter's output. The history is therefore a key list in insertion order plus a map.
  - New keys are appended to the key list.
  - Deleted keys leave the list.
  - An existing key keeps its place.
- **Bounded queue.** A bounded `deque` is a sequence together with `Push`, which drops the oldest sample on overflow.
- **Mutable objects.** `TrackHistory`, `AlertManager` and `ActivityDetector` are classes whose methods update their fields. Each method is proved to produce the state a specification function computes (`Updated`, `Gate`, `Analysis`, `Flatten`). The properties are proved as lemmas about those functions.

Two details of the running test follow the code as written:

- The running window starts at `points[-5]`. That is the fifth sample from the end, four intervals back from the latest sample.
- The running threshold is the literal 200 px/s in tracker/track_history.py:83. The field `run_speed_threshold = 15.0`, commented as pixels per frame (tracker/track_history.py:17), suggests another threshold, but it is never read. Neither is the `frame_fps` parameter (line 46).

## Model

| member | source | states |
|---|---|---|
| Tracker.Centroid | tracker/track_history.py:33 | The centroid is the floor of half of each coordinate sum: `2*c.x <= x1+x2 < 2*c.x+2`, and likewise for y (Python `//` by 2, negative sums included). |
| Tracker.Push | tracker/track_history.py:35-38 | Appending to a queue of capacity `maxlen`. The result is non-empty, within capacity, and ends with the new sample. Below capacity it is the queue plus the sample. At capacity the oldest sample is dropped and the others keep their order. |
| Tracker.Observe | tracker/track_history.py:26-38 | One step of the detection loop. The old key order is a prefix of the new one, so a new id goes to the end and existing keys keep their places. The keys grow by the detection's id, if it has one. Other keys keep their samples. The id's newest sample is its box's centroid at `now`. |
| Tracker.ObserveAll | tracker/track_history.py:26-38 | The whole detection loop keeps the history well formed. The old key order is a prefix of the new one. |
| Tracker.Stale | tracker/track_history.py:43 | For a time-ordered queue, stale (newest sample more than 5 s old) means every sample is more than 5 s old. |
| Tracker.Evict | tracker/track_history.py:42-44 | A key survives the clean-up iff it was present and is active or its newest sample is at most 5 s old. Survivors keep their samples. The key order is the old order restricted to the survivors, and it stays distinct and complete. |
| Tracker.Updated | tracker/track_history.py:19-44 | After an update the key list still lists each key once and exactly the keys of the map. Every queue is non-empty and holds at most `max_history` samples. |
| Tracker.Loiters | tracker/track_history.py:60-67 | A queue with a single sample never loiters: its duration is 0. |
| Tracker.SpeedDenominator | tracker/track_history.py:73-81 | For a time-ordered queue, the denominator `Δt + 1e-5` of the window is at least 1e-5, so the division cannot fail. |
| Tracker.Runs | tracker/track_history.py:73-85 | A window whose first and last positions coincide is never running. |
| Tracker.Labels | tracker/track_history.py:62-85 | "loitering" is present iff duration > 5.0 and displacement² < 20². "running" is present iff the queue has ≥ 5 samples and the window test passes. There are at most two labels, and loitering comes first. |
| Tracker.TrackHistory.constructor | tracker/track_history.py:6-17 | A new history is empty, valid, and keeps the given `max_history`. The parameter defaults to `DefaultMaxHistory` (30). |
| Tracker.TrackHistory.Update | tracker/track_history.py:19-44 | Updates the history in place so that it equals `Updated(old state, dets, now, max_history)`, and it stays valid. |
| Tracker.TrackHistory.RecordDetections | tracker/track_history.py:23-38 | The detection loop leaves the history equal to `ObserveAll(old state, dets, now)`. It returns exactly the set of ids the detections carry. |
| Tracker.TrackHistory.Record | tracker/track_history.py:30-38 | One detection with an id: a new id gets an empty queue at the end of the key order, then its centroid at `now` is pushed. The result is the `Observe` step. |
| Tracker.TrackHistory.EvictStale | tracker/track_history.py:40-44 | The deletion loop over a snapshot of the keys leaves the history equal to `Evict(old state, active, now)`. |
| Tracker.TrackHistory.Classify | tracker/track_history.py:59-85 | The two threshold tests on one queue return exactly `Labels(points)`. |
| Tracker.TrackHistory.Analyze | tracker/track_history.py:46-87 | Reads the history only (no `modifies`) and returns exactly `Analysis(state)`: the keys in dictionary order that have ≥ 10 samples and some label, each with its labels. |
| Tracker.ObserveAllEffect | tracker/track_history.py:26-38 | After the detection loop, the keys are the old keys plus the detected ids. An undetected key keeps its samples. A detected key's newest sample is the centroid of the last box carrying it, stamped `now`. |
| Tracker.UpdatedKeepsDetected | tracker/track_history.py:30-38 | Every id in the call is retained, and its newest sample is (floor-midpoint centroid of its last box, `now`). |
| Tracker.UpdatedAbsent | tracker/track_history.py:42-44 | An id absent from the call is kept iff it was stored and `now - last timestamp <= 5.0`. If kept, its samples are unchanged. An id neither stored nor detected does not appear. |
| Tracker.UpdatedCreatesOnlyDetected | tracker/track_history.py:35-36 | After an update, the keys are a subset of the old keys plus the detected ids. |
| Tracker.ObserveAllClockOrdered | tracker/track_history.py:23-38 | If no stored sample is later than `now`, every queue stays in non-decreasing time order through the detection loop. |
| Tracker.UpdatedClockOrdered | tracker/track_history.py:23-44 | With a clock that does not run backwards, every queue stays in non-decreasing time order after `update`. |
| Tracker.ObserveAllUntracked | tracker/track_history.py:26-28 | Dropping the detections without an id changes neither the detection loop's result nor the active ids. |
| Tracker.UpdatedIgnoresUntracked | tracker/track_history.py:27-28 | Detections without `track_id` contribute nothing: the update with and without them gives the same history. |
| Tracker.NoIdsObserveNothing | tracker/track_history.py:26-28 | If no detection carries an id, the detection loop leaves the history unchanged and no id is active. |
| Tracker.UpdatedQuietFrame | tracker/track_history.py:26-44 | A call without ids, when no stored id is stale, leaves the history exactly as it was, key order included. |
| Tracker.LoitersMeansDwellAndStill | tracker/track_history.py:64-69 | The squared loitering test holds iff duration > 5.0 and displacement < 20, for the displacement whose square is the squared distance. |
| Tracker.RunsMeansFast | tracker/track_history.py:73-85 | The squared running test holds iff the denominator `Δt + 1e-5` is non-zero and distance / denominator > 200. |
| Tracker.RunningThresholdIsStrict | tracker/track_history.py:83 | A window whose speed is exactly 200 px/s is not labelled running. |
| Tracker.AnalysisOf | tracker/track_history.py:53-87 | Classification over a key list in order: at most one entry per listed key. Its entries are given by `AnalysisSound` and `AnalysisComplete`. |
| Tracker.Analysis | tracker/track_history.py:46-87 | The classification of a history: at most one entry per key. |
| Tracker.AnalysisSound | tracker/track_history.py:53-57 | Every entry of the analysis is a stored key with ≥ 10 samples and a non-empty label list equal to `Labels` of its queue. No key appears twice. |
| Tracker.AnalysisComplete | tracker/track_history.py:55-85 | A stored key has an entry iff it has ≥ 10 samples and at least one label. |
| Alerts.Gate | alerts/alert_manager.py:35-39 | One gate decision. The keys grow by the event type iff the alert is accepted, and other types' entries are untouched. An accepted type is set to `now`. A suppressed call returns the map unchanged. |
| Alerts.Replay | alerts/alert_manager.py:32-39 | The decisions for a run of alerts of one event type give one decision per alert, and the first alert of a type without an entry is accepted. |
| Alerts.AlertManager.constructor | alerts/alert_manager.py:8-18 | A new gate has no entries and one cooldown, fixed for all event types. The cooldown defaults to `AlertCooldownSeconds` (5 s). |
| Alerts.AlertManager.TriggerAlert | alerts/alert_manager.py:32-39 | Accepted iff the type is absent or `now - last >= cooldown`. On acceptance only this type's entry changes, to `now`. Otherwise the map is unchanged. This is exactly `Gate`. |
| Alerts.GateAcceptsIff | alerts/alert_manager.py:35-37 | Accepted iff the type is absent or the cooldown has elapsed. Suppressed iff the type is present and `now - last < cooldown`. |
| Alerts.FirstAlertAccepted | alerts/alert_manager.py:35-39 | The first alert of a type is accepted and recorded at `now`. |
| Alerts.AcceptedAtCooldownBoundary | alerts/alert_manager.py:36 | An alert exactly `cooldown` after the last one is accepted, because the comparison is strict. |
| Alerts.SameInstantTwice | alerts/alert_manager.py:36-39 | With a positive cooldown, two alerts of a new type at one instant are accepted, then suppressed. |
| Alerts.SuppressedWithinCooldown | alerts/alert_manager.py:35-37 | Every alert within the cooldown after the recorded time is suppressed. |
| Alerts.BurstAcceptedOnce | alerts/alert_manager.py:35-39 | A burst that the gate admits and that stays within one cooldown of its first alert is accepted exactly once, at its first alert. |
| Alerts.CooldownScenario | alerts/alert_manager.py:35-39 | Alerts at `t0`, `t0 + cooldown - 1` and `t0 + cooldown + 1` are accepted, suppressed and accepted. |
| Detector.ActivityDetector.constructor | detector/activity_detector.py:4-11 | The adapter shares the history it is given. |
| Detector.ActivityDetector.Detect | detector/activity_detector.py:13-34 | It updates the history first, so the new state is `Updated(old state, dets, now)`. It returns `Flatten(Analysis(new state))`, so classification sees this frame's samples. |
| Detector.ActivityDetector.Records | detector/activity_detector.py:26-33 | The nested append loop returns exactly `Flatten(activities)`. |
| Detector.RecordsOf | detector/activity_detector.py:28-33 | One track's records: one record per label. |
| Detector.RecordsOfAt | detector/activity_detector.py:28-33 | Record `i` of a track is (name of label `i`, the track's id, 1.0). |
| Detector.RecordsOfFacts | detector/activity_detector.py:28-33 | One track's records: one per label, each for that track with confidence 1.0 and a label name as class id, in label order. |
| Detector.Flatten | detector/activity_detector.py:26-33 | There is one record per (track, label) pair, so the output length is the total number of labels. |
| Detector.FlattenRecords | detector/activity_detector.py:29-33 | Every record has confidence 1.0, class id "loitering" or "running", and the track id of an analysis entry. |
| Detector.FlattenAbsent | detector/activity_detector.py:27-33 | A track without an analysis entry has no records. |
| Detector.FlattenPerTrack | detector/activity_detector.py:27-33 | With one entry per track, a track's class ids appear in the order of its label list. |
| Detector.FlattenEmpty | detector/activity_detector.py:26-34 | When every entry carries a label, the output is empty iff the analysis is empty. |
| Detector.AnalysisRecords | detector/activity_detector.py:26-34 | Over any well-formed history, each record has confidence 1.0, a label name as class id and the id of a stored track. The records are empty iff the classification is. |
| Detector.AnalysisRecordsOf | detector/activity_detector.py:27-33 | Over any well-formed history, a stored track's class ids are its label names in order when it has ≥ 10 samples, and none otherwise. |
| Detector.DetectOutput | detector/activity_detector.py:19-34 | It applies to what `detect` returns. Its length is the total number of labels, and it is empty iff the analysis is. Each record has confidence 1.0, a label name as class id, and the id of a track kept by the update. Each kept track's class ids are its label names, in order, when it has ≥ 10 samples; otherwise it has none. |

## Left out

- **Clock.** `time.time()` is replaced by the parameter `now`. Timestamps and thresholds are exact reals, not IEEE doubles, and `math.sqrt` is replaced by squared comparisons.
- Tracker.SpeedDenominator: if the clock ran backwards by exactly 1e-5 s inside the window, the denominator would be zero and Python would raise `ZeroDivisionError`. The model then labels nothing; `Runs` requires a positive denominator.
- Tracker.Runs: a negative denominator with a positive distance gives a negative speed in the source, which never exceeds 200. The model treats it the same way.
- Tracker.TrackHistory.constructor: requires `max_history > 0`. With `deque(maxlen=0)` the source would keep empty queues and fail on `[-1]`; that path is not modelled.
- **Detections.**
  - A detection "without `track_id`" is one whose `trackId` is `None`. A dictionary holding the key with the value `None` is not distinguished.
  - The detection's class id and confidence are carried but unused, as in the source.
- **The rest of `trigger_alert`.** Only the cooldown check-and-set is modelled. The console message (`print`, `datetime.now()`), the snapshot thread `_save_snapshot` with its disk write, and the `frame` and `details` parameters are I/O and are left out. So is the `os.makedirs` call in the constructor, together with `snapshots_dir`.
- **Concurrency.** The gate is called from one thread only, so it is modelled sequentially.
- **Default cooldown.** The configured value, 5 s, is the constructor's default `Alerts.AlertCooldownSeconds`. The lemmas hold for any cooldown.
- **Unused inputs.** `run_speed_threshold = 15.0` and `frame_fps` are unused by the source and are not modelled.
- **Out of scope.** The application loop in main.py is not part of this model; its per-frame `trigger_alert` calls are a sequence of `Gate` steps. They interleave event types, and a step leaves the other types' entries untouched (the second ensures of `Gate`). `Replay` covers runs of a single type. The object detector, the fire detector, the visualizer, the event logger, the installation check, the abstract base detector and the configuration file are not part of this model either.
