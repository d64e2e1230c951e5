/**
 * The audio-retention lifecycle of a recording (`AudioRetentionService`): a Pro user's audio
 * is kept for 10 days so that summaries can be regenerated, everybody else's is due for
 * deletion at once, and a periodic sweep removes the files whose time has come. The database
 * rows are `Recording` objects; the storage directory is a `FileSystem` object whose `stuck`
 * paths are those whose removal raises.
 */
module AudioRetention {
  import opened Wrappers
  import opened Clock
  import opened Accounts

  const RetentionDays: int := 10

  /** The retention columns of a recording. */
  datatype RetentionState = RetentionState(audioDeleteAt: Option<Instant>, canRegenerate: bool,
                                           retentionEnabled: bool)

  class Recording {
    const id: string
    const userId: Option<string>
    const filePath: string
    const fileSize: nat
    var audioDeleteAt: Option<Instant>
    var canRegenerate: bool
    var audioRetentionEnabled: bool

    function State(): RetentionState
      reads this
    {
      RetentionState(audioDeleteAt, canRegenerate, audioRetentionEnabled)
    }

    constructor (id: string, userId: Option<string>, filePath: string, fileSize: nat)
      ensures this.id == id && this.userId == userId
      ensures this.filePath == filePath && this.fileSize == fileSize
      ensures State() == RetentionState(None, false, false)
    {
      this.id := id;
      this.userId := userId;
      this.filePath := filePath;
      this.fileSize := fileSize;
      audioDeleteAt := None;
      canRegenerate := false;
      audioRetentionEnabled := false;
    }
  }

  /** The audio files on disk; removing a path in `stuck` raises and leaves it in place. */
  class FileSystem {
    var files: set<string>
    const stuck: set<string>

    constructor (files: set<string>, stuck: set<string>)
      ensures this.files == files && this.stuck == stuck
    {
      this.files := files;
      this.stuck := stuck;
    }

    /** `os.remove(path)`, reporting whether it succeeded. */
    method Remove(path: string) returns (removed: bool)
      modifies this
      ensures removed <==> path in old(files) && path !in stuck
      ensures files == if removed then old(files) - {path} else old(files)
    {
      if path in files && path !in stuck {
        files := files - {path};
        removed := true;
      } else {
        removed := false;
      }
    }
  }

  function RecordingRow(recordings: map<string, Recording>, recordingId: string): set<Recording> {
    if recordingId in recordings then {recordings[recordingId]} else {}
  }

  function NotFound(recordingId: string): string {
    "Recording " + recordingId + " not found"
  }

  /** The retention columns are consistent: both flags agree, and retained audio has a
      deletion time. Every operation here keeps this. */
  predicate Consistent(s: RetentionState) {
    s.canRegenerate == s.retentionEnabled && (s.canRegenerate ==> s.audioDeleteAt.Some?)
  }

  /** The 10-day retention a Pro recording gets at `now`. */
  function Retained(now: Instant): (s: RetentionState)
    ensures Consistent(s) && s.canRegenerate && Before(now, s.audioDeleteAt.value)
  {
    RetentionState(Some(AddMicros(now, Days(RetentionDays))), true, true)
  }

  /** Immediate deletion at `now`: the default of the policy, and the state of a recording
      whose audio was deleted. */
  function Released(now: Instant): (s: RetentionState)
    ensures Consistent(s) && !s.canRegenerate && !Expired(s, now)
  {
    RetentionState(Some(now), false, false)
  }

  /** The dictionary `set_retention_policy` returns. */
  datatype PolicyInfo = PolicyInfo(retentionEnabled: bool, tier: string, audioDeleteAt: Instant,
                                   daysRemaining: nat, canRegenerate: bool, message: Option<string>)

  const UpgradeForRetention := "Upgrade to Pro to enable 10-day audio retention"

  /** `set_retention_policy(recording, user)`: `user` is null for an anonymous upload. */
  method SetRetentionPolicy(recording: Recording, user: User?, now: Instant) returns (info: PolicyInfo)
    modifies recording
    ensures user != null && user.tier == Pro ==>
              recording.State() == Retained(now)
              && info == PolicyInfo(true, "pro", AddMicros(now, Days(RetentionDays)), 10, true, None)
    ensures user != null && user.tier != Pro ==>
              recording.State() == Released(now)
              && info == PolicyInfo(false, TierValue(user.tier), now, 0, false, Some(UpgradeForRetention))
    ensures user == null ==>
              recording.State() == Released(now)
              && info == PolicyInfo(false, "anonymous", now, 0, false, None)
    ensures Consistent(recording.State())
  {
    recording.audioDeleteAt := Some(now);
    recording.canRegenerate := false;
    recording.audioRetentionEnabled := false;
    if user != null && user.tier == Pro {
      var deleteAt := AddMicros(now, Days(RetentionDays));
      recording.audioDeleteAt := Some(deleteAt);
      recording.canRegenerate := true;
      recording.audioRetentionEnabled := true;
      info := PolicyInfo(true, "pro", deleteAt, 10, true, None);
    } else if user != null {
      info := PolicyInfo(false, TierValue(user.tier), now, 0, false, Some(UpgradeForRetention));
    } else {
      info := PolicyInfo(false, "anonymous", now, 0, false, None);
    }
  }

  /** `days_remaining` of `check_retention_status`: the timedelta's days, plus one when its
      seconds part is not zero; 0 unless the deletion time is still ahead. */
  function DaysRemaining(deleteAt: Option<Instant>, now: Instant): (days: nat)
    // The whole seconds left, rounded up to whole days; microseconds are ignored.
    ensures deleteAt.Some? && Before(now, deleteAt.value) ==>
              var seconds := (Micros(deleteAt.value) - Micros(now)) / MicrosPerSecond;
              (days - 1) * 86_400 < seconds <= days * 86_400
    ensures deleteAt.None? || AtMost(deleteAt.value, now) ==> days == 0
  {
    if deleteAt.Some? && Before(now, deleteAt.value) then
      var left := Micros(deleteAt.value) - Micros(now);
      var days := DeltaDays(deleteAt.value, now) + if DeltaSeconds(deleteAt.value, now) > 0 then 1 else 0;
      WholeDaysRoundUp(left);
      days
    else 0
  }

  /** The timedelta of `left` microseconds, split into days and seconds, rounds its whole
      seconds up to days. */
  lemma WholeDaysRoundUp(left: int)
    requires 0 < left
    ensures var seconds := left / MicrosPerSecond;
            var days := left / MicrosPerDay + if (left % MicrosPerDay) / MicrosPerSecond > 0 then 1 else 0;
            (days - 1) * 86_400 < seconds <= days * 86_400
  {
    var q := left / MicrosPerDay;
    var rem := left % MicrosPerDay;
    var s := rem / MicrosPerSecond;
    assert left == q * MicrosPerDay + rem;
    assert 0 <= s < 86_400 && rem == s * MicrosPerSecond + rem % MicrosPerSecond;
    assert left == (q * 86_400 + s) * MicrosPerSecond + rem % MicrosPerSecond;
    assert left / MicrosPerSecond == q * 86_400 + s;
  }

  /** The dictionary `check_retention_status` returns. */
  datatype RetentionStatus = RetentionStatus(recordingId: string, retentionEnabled: bool,
                                             audioDeleteAt: Option<Instant>, canRegenerate: bool,
                                             audioExists: bool, daysRemaining: nat,
                                             scheduledForDeletion: bool)

  /** `check_retention_status(recording_id)` with the files on disk and the time `now`. */
  function CheckRetentionStatus(recordings: map<string, Recording>, recordingId: string,
                                files: set<string>, now: Instant): (r: Result<RetentionStatus, string>)
    reads recordings.Values
    ensures recordingId !in recordings <==> r == Err(NotFound(recordingId))
    ensures r.Ok? ==>
              var rec := recordings[recordingId];
              r.value.recordingId == recordingId
              && r.value.retentionEnabled == rec.audioRetentionEnabled
              && r.value.canRegenerate == rec.canRegenerate
              && r.value.audioDeleteAt == rec.audioDeleteAt
              && (r.value.audioExists <==> rec.filePath != "" && rec.filePath in files)
              // Scheduled exactly when a deletion time is set and has come.
              && (r.value.scheduledForDeletion <==>
                    rec.audioDeleteAt.Some? && AtMost(rec.audioDeleteAt.value, now))
              && r.value.daysRemaining == DaysRemaining(rec.audioDeleteAt, now)
              // A recording has days left or is scheduled, never both.
              && !(r.value.scheduledForDeletion && r.value.daysRemaining > 0)
  {
    if recordingId !in recordings then Err(NotFound(recordingId))
    else
      var rec := recordings[recordingId];
      var exists_ := if rec.filePath != "" then rec.filePath in files else false;
      var scheduled := if rec.audioDeleteAt.Some? then AtMost(rec.audioDeleteAt.value, now) else false;
      Ok(RetentionStatus(recordingId, rec.audioRetentionEnabled, rec.audioDeleteAt, rec.canRegenerate,
                         exists_, DaysRemaining(rec.audioDeleteAt, now), scheduled))
  }

  /** Right after the policy is applied, a Pro recording reports 10 days left and any other
      recording is already scheduled for deletion. */
  lemma StatusAfterPolicy(s: RetentionState, now: Instant, pro: bool)
    requires s == if pro then Retained(now) else Released(now)
    ensures pro ==> DaysRemaining(s.audioDeleteAt, now) == 10
    ensures !pro ==> DaysRemaining(s.audioDeleteAt, now) == 0 && AtMost(s.audioDeleteAt.value, now)
  {
    if pro {
      var left := Micros(s.audioDeleteAt.value) - Micros(now);
      assert left == 10 * MicrosPerDay;
      assert DeltaDays(s.audioDeleteAt.value, now) == 10;
      assert DeltaSeconds(s.audioDeleteAt.value, now) == 0;
    }
  }

  /** The dictionary `enable_retention` returns. */
  datatype EnableInfo = EnableInfo(recordingId: string, audioDeleteAt: Instant, daysRemaining: nat)

  const ProOnly := "Audio retention is only available for Pro users"
  const NotOwnerOfRetention := "You can only manage retention for your own recordings"

  /** `enable_retention(recording_id, user)`. */
  method EnableRetention(recordings: map<string, Recording>, recordingId: string, user: User, now: Instant)
    returns (r: Result<EnableInfo, string>)
    modifies RecordingRow(recordings, recordingId)
    // Refused, in this order, to a non-Pro user, for a missing recording and to a non-owner;
    // a refusal changes nothing.
    ensures user.tier != Pro ==> r == Err(ProOnly)
    ensures user.tier == Pro && recordingId !in recordings ==> r == Err(NotFound(recordingId))
    ensures user.tier == Pro && recordingId in recordings && recordings[recordingId].userId != Some(user.id) ==>
              r == Err(NotOwnerOfRetention)
    ensures r.Err? && recordingId in recordings ==>
              recordings[recordingId].State() == old(recordings[recordingId].State())
    // Otherwise the owner's recording is retained for 10 days from now.
    ensures r.Ok? <==> user.tier == Pro && recordingId in recordings
                       && recordings[recordingId].userId == Some(user.id)
    ensures r.Ok? ==> recordings[recordingId].State() == Retained(now)
                      && r.value == EnableInfo(recordingId, AddMicros(now, Days(RetentionDays)), 10)
  {
    if user.tier != Pro {
      return Err(ProOnly);
    }
    if recordingId !in recordings {
      return Err(NotFound(recordingId));
    }
    var rec := recordings[recordingId];
    if rec.userId != Some(user.id) {
      return Err(NotOwnerOfRetention);
    }
    var deleteAt := AddMicros(now, Days(RetentionDays));
    rec.audioRetentionEnabled := true;
    rec.audioDeleteAt := Some(deleteAt);
    rec.canRegenerate := true;
    r := Ok(EnableInfo(recordingId, deleteAt, 10));
  }

  /** The dictionary `delete_audio_file` returns. */
  datatype DeleteInfo = DeleteInfo(recordingId: string, fileDeleted: bool)

  const NotOwnerOfAudio := "You can only delete audio for your own recordings"

  /** `delete_audio_file(recording_id, user, force)`: `user` is null for the system. */
  method DeleteAudioFile(recordings: map<string, Recording>, recordingId: string, user: User?,
                         fs: FileSystem, force: bool, now: Instant)
    returns (r: Result<DeleteInfo, string>)
    modifies RecordingRow(recordings, recordingId), fs
    ensures recordingId !in recordings ==> r == Err(NotFound(recordingId)) && fs.files == old(fs.files)
    // Ownership is checked only when not forced and a user is given.
    ensures recordingId in recordings ==>
              var rec := recordings[recordingId];
              (r.Err? <==> !force && user != null && rec.userId != Some(user.id))
              && (r.Err? ==> r.error == NotOwnerOfAudio && rec.State() == old(rec.State())
                             && fs.files == old(fs.files))
              // Whether or not a file was removed, the audio counts as deleted now.
              && (r.Ok? ==> rec.State() == Released(now)
                            && r.value.recordingId == recordingId
                            && (r.value.fileDeleted <==>
                                  rec.filePath != "" && rec.filePath in old(fs.files) && rec.filePath !in fs.stuck)
                            && fs.files == if r.value.fileDeleted then old(fs.files) - {rec.filePath}
                                           else old(fs.files))
  {
    if recordingId !in recordings {
      return Err(NotFound(recordingId));
    }
    var rec := recordings[recordingId];
    if !force && user != null && rec.userId != Some(user.id) {
      return Err(NotOwnerOfAudio);
    }
    var fileDeleted := false;
    if rec.filePath != "" && rec.filePath in fs.files {
      fileDeleted := fs.Remove(rec.filePath);
    }
    rec.canRegenerate := false;
    rec.audioRetentionEnabled := false;
    rec.audioDeleteAt := Some(now);
    r := Ok(DeleteInfo(recordingId, fileDeleted));
  }

  /** The recordings `cleanup_expired_audio` selects: a deletion time that has come, and audio
      not yet cleaned up. */
  predicate Expired(s: RetentionState, now: Instant) {
    s.audioDeleteAt.Some? && AtMost(s.audioDeleteAt.value, now) && s.canRegenerate
  }

  /** Distinct database rows. */
  predicate Distinct(rows: seq<Recording>) {
    forall i, j :: 0 <= i < j < |rows| ==> rows[i] != rows[j]
  }

  /** The query of `cleanup_expired_audio`, in row order. */
  function Select(rows: seq<Recording>, now: Instant): (selected: seq<Recording>)
    reads set k | 0 <= k < |rows| :: rows[k]
    ensures forall k :: 0 <= k < |selected| ==> selected[k] in rows && Expired(selected[k].State(), now)
    ensures forall k :: 0 <= k < |rows| && Expired(rows[k].State(), now) ==> rows[k] in selected
    ensures Distinct(rows) ==> Distinct(selected)
  {
    if rows == [] then []
    else
      var rest := Select(rows[1..], now);
      if Expired(rows[0].State(), now) then [rows[0]] + rest else rest
  }

  /** What the sweep does with one selected recording. */
  datatype Outcome = Deleted | Missing | Failed

  /** The outcome for a recording whose file is `path`, with `files` on disk: a file that
      exists is removed unless its removal raises; a missing file or an empty path only
      updates the row. */
  function OutcomeOf(path: string, files: set<string>, stuck: set<string>): Outcome {
    if path != "" && path in files then (if path in stuck then Failed else Deleted) else Missing
  }

  /** The statistics `cleanup_expired_audio` returns. */
  datatype CleanupStats = CleanupStats(deletedCount: nat, failedCount: nat, totalSizeFreed: nat)

  /** The sweep so far: the outcome of each recording, the files left, the statistics. */
  datatype Sweep = Sweep(outcomes: seq<Outcome>, files: set<string>, stats: CleanupStats)

  /** The counters after one more recording: a deleted file adds its size to the bytes
      freed. */
  function Tally(s: CleanupStats, o: Outcome, size: nat): CleanupStats {
    match o
    case Deleted => s.(deletedCount := s.deletedCount + 1, totalSizeFreed := s.totalSizeFreed + size)
    case Failed => s.(failedCount := s.failedCount + 1)
    case Missing => s
  }

  /** The sweep after one more recording, with file `path` of `size` bytes. */
  function Step(w: Sweep, path: string, size: nat, stuck: set<string>): Sweep {
    var o := OutcomeOf(path, w.files, stuck);
    Sweep(w.outcomes + [o], if o == Deleted then w.files - {path} else w.files, Tally(w.stats, o, size))
  }

  /** The sweep over `paths` (with sizes `sizes`) in order, starting from `files`. */
  function SweepOf(paths: seq<string>, sizes: seq<nat>, files: set<string>, stuck: set<string>): Sweep
    requires |paths| == |sizes|
  {
    if paths == [] then Sweep([], files, CleanupStats(0, 0, 0))
    else
      var n := |paths| - 1;
      Step(SweepOf(paths[..n], sizes[..n], files, stuck), paths[n], sizes[n], stuck)
  }

  function Paths(recs: seq<Recording>): (paths: seq<string>)
    ensures |paths| == |recs| && forall k :: 0 <= k < |recs| ==> paths[k] == recs[k].filePath
  {
    if recs == [] then [] else Paths(recs[..|recs| - 1]) + [recs[|recs| - 1].filePath]
  }

  function Sizes(recs: seq<Recording>): (sizes: seq<nat>)
    ensures |sizes| == |recs| && forall k :: 0 <= k < |recs| ==> sizes[k] == recs[k].fileSize
  {
    if recs == [] then [] else Sizes(recs[..|recs| - 1]) + [recs[|recs| - 1].fileSize]
  }

  function Count(o: seq<Outcome>, which: Outcome): nat {
    if o == [] then 0 else Count(o[..|o| - 1], which) + if o[|o| - 1] == which then 1 else 0
  }

  /** The bytes of the recordings whose file was deleted. */
  function Freed(o: seq<Outcome>, sizes: seq<nat>): nat
    requires |o| == |sizes|
  {
    if o == [] then 0
    else Freed(o[..|o| - 1], sizes[..|o| - 1]) + if o[|o| - 1] == Deleted then sizes[|o| - 1] else 0
  }

  /** What the sweep promises: one outcome per selected recording; the counts are those of
      the deleted and failed outcomes and never exceed the number selected; the bytes freed
      are the sizes of the deleted files; and files only disappear, never the stuck ones. */
  lemma {:induction false} SweepFacts(paths: seq<string>, sizes: seq<nat>, files: set<string>, stuck: set<string>)
    requires |paths| == |sizes|
    ensures var w := SweepOf(paths, sizes, files, stuck);
            |w.outcomes| == |paths|
            && w.stats.deletedCount == Count(w.outcomes, Deleted)
            && w.stats.failedCount == Count(w.outcomes, Failed)
            && w.stats.deletedCount + w.stats.failedCount <= |paths|
            && w.stats.totalSizeFreed == Freed(w.outcomes, sizes)
            && w.files <= files
            && files * stuck <= w.files
  {
    if paths != [] {
      var n := |paths| - 1;
      SweepFacts(paths[..n], sizes[..n], files, stuck);
      var w := SweepOf(paths[..n], sizes[..n], files, stuck);
      var o := OutcomeOf(paths[n], w.files, stuck);
      assert (w.outcomes + [o])[..n] == w.outcomes;
    }
  }

  /** A file is gone after the sweep exactly when some selected recording's outcome was
      Deleted for it. */
  lemma {:induction false} SweepRemovesDeleted(paths: seq<string>, sizes: seq<nat>, files: set<string>,
                                               stuck: set<string>, p: string)
    requires |paths| == |sizes|
    ensures var w := SweepOf(paths, sizes, files, stuck);
            (p in files && p !in w.files) <==>
              exists k :: 0 <= k < |w.outcomes| && k < |paths| && paths[k] == p && w.outcomes[k] == Deleted
  {
    if paths != [] {
      var n := |paths| - 1;
      SweepRemovesDeleted(paths[..n], sizes[..n], files, stuck, p);
      SweepFacts(paths[..n], sizes[..n], files, stuck);
      SweepFacts(paths, sizes, files, stuck);
      var w := SweepOf(paths[..n], sizes[..n], files, stuck);
      var o := OutcomeOf(paths[n], w.files, stuck);
      var w' := SweepOf(paths, sizes, files, stuck);
      assert w'.outcomes == w.outcomes + [o];
      assert forall k :: 0 <= k < n ==> paths[..n][k] == paths[k] && w'.outcomes[k] == w.outcomes[k];
      if p in files && p !in w'.files {
        if p in w.files {
          assert paths[n] == p && w'.outcomes[n] == Deleted;
        }
      }
      if exists k :: 0 <= k < |w'.outcomes| && k < |paths| && paths[k] == p && w'.outcomes[k] == Deleted {
        var k :| 0 <= k < |w'.outcomes| && k < |paths| && paths[k] == p && w'.outcomes[k] == Deleted;
        if k == n {
          assert p in w.files && p !in w'.files;
        } else {
          assert paths[..n][k] == p && w.outcomes[k] == Deleted;
        }
      }
    }
  }

  lemma SweepPrefix(paths: seq<string>, sizes: seq<nat>, i: nat, files: set<string>, stuck: set<string>)
    requires i < |paths| == |sizes|
    ensures SweepOf(paths[..i + 1], sizes[..i + 1], files, stuck)
            == Step(SweepOf(paths[..i], sizes[..i], files, stuck), paths[i], sizes[i], stuck)
  {
    assert paths[..i + 1][..i] == paths[..i];
    assert sizes[..i + 1][..i] == sizes[..i];
  }

  /** The state a selected recording is left in by its outcome. */
  function Cleaned(s: RetentionState, o: Outcome): (c: RetentionState)
    // Cleaning keeps the columns consistent, and a cleaned recording is not selected again.
    ensures Consistent(s) ==> Consistent(c)
    ensures o != Failed ==> !c.canRegenerate && c.audioDeleteAt == s.audioDeleteAt
    ensures o == Failed ==> c == s
  {
    if o == Failed then s else s.(canRegenerate := false, retentionEnabled := false)
  }

  /** One step of the sweep, on one selected recording. */
  method SweepOne(rec: Recording, fs: FileSystem) returns (outcome: Outcome)
    modifies rec, fs
    ensures outcome == OutcomeOf(rec.filePath, old(fs.files), fs.stuck)
    ensures fs.files == if outcome == Deleted then old(fs.files) - {rec.filePath} else old(fs.files)
    ensures rec.State() == Cleaned(old(rec.State()), outcome)
  {
    if rec.filePath != "" && rec.filePath in fs.files {
      var removed := fs.Remove(rec.filePath);
      if !removed {
        return Failed;
      }
      outcome := Deleted;
    } else {
      outcome := Missing;
    }
    rec.canRegenerate := false;
    rec.audioRetentionEnabled := false;
  }

  /** The sweep of the `i`-th selected recording, extending the sweep of those before it. */
  method SweepNext(selected: seq<Recording>, fs: FileSystem, i: nat, stats: CleanupStats, ghost outcomes: seq<Outcome>,
                   ghost files0: set<string>)
    returns (stats': CleanupStats, ghost outcomes': seq<Outcome>)
    requires i < |selected| && |outcomes| == i
    requires SweepOf(Paths(selected)[..i], Sizes(selected)[..i], files0, fs.stuck) == Sweep(outcomes, fs.files, stats)
    modifies selected[i], fs
    ensures |outcomes'| == i + 1 && forall k :: 0 <= k < i ==> outcomes'[k] == outcomes[k]
    ensures SweepOf(Paths(selected)[..i + 1], Sizes(selected)[..i + 1], files0, fs.stuck) == Sweep(outcomes', fs.files, stats')
    ensures selected[i].State() == Cleaned(old(selected[i].State()), outcomes'[i])
  {
    SweepPrefix(Paths(selected), Sizes(selected), i, files0, fs.stuck);
    var outcome := SweepOne(selected[i], fs);
    outcomes' := outcomes + [outcome];
    stats' := Tally(stats, outcome, selected[i].fileSize);
    assert outcomes'[..i] == outcomes;
  }

  /** The loop of `cleanup_expired_audio` over the selected recordings, in order. */
  method SweepAll(selected: seq<Recording>, fs: FileSystem)
    returns (stats: CleanupStats, ghost outcomes: seq<Outcome>)
    requires Distinct(selected)
    modifies set k | 0 <= k < |selected| :: selected[k], fs
    ensures |outcomes| == |selected|
    ensures SweepOf(Paths(selected), Sizes(selected), old(fs.files), fs.stuck) == Sweep(outcomes, fs.files, stats)
    ensures forall k :: 0 <= k < |selected| ==> selected[k].State() == Cleaned(old(selected[k].State()), outcomes[k])
  {
    ghost var files0 := fs.files;
    stats := CleanupStats(0, 0, 0);
    outcomes := [];
    var i := 0;
    while i < |selected|
      invariant 0 <= i <= |selected| && |outcomes| == i
      invariant SweepOf(Paths(selected)[..i], Sizes(selected)[..i], files0, fs.stuck) == Sweep(outcomes, fs.files, stats)
      invariant forall k :: 0 <= k < i ==> selected[k].State() == Cleaned(old(selected[k].State()), outcomes[k])
      invariant forall k :: i <= k < |selected| ==> selected[k].State() == old(selected[k].State())
    {
      assert forall k :: 0 <= k < |selected| && k != i ==> selected[k] != selected[i];
      stats, outcomes := SweepNext(selected, fs, i, stats, outcomes, files0);
      i := i + 1;
    }
    assert Paths(selected)[..i] == Paths(selected) && Sizes(selected)[..i] == Sizes(selected);
  }

  /** `cleanup_expired_audio()` at time `now`, over the recording rows `rows`. */
  method CleanupExpiredAudio(rows: seq<Recording>, fs: FileSystem, now: Instant)
    returns (stats: CleanupStats, selected: seq<Recording>, ghost outcomes: seq<Outcome>)
    requires Distinct(rows)
    modifies set k | 0 <= k < |rows| :: rows[k], fs
    ensures selected == old(Select(rows, now)) && |outcomes| == |selected|
    ensures SweepOf(Paths(selected), Sizes(selected), old(fs.files), fs.stuck) == Sweep(outcomes, fs.files, stats)
    // Each selected recording is marked cleaned up unless its removal failed; only the
    // flags change, and no other row is touched.
    ensures forall k :: 0 <= k < |selected| ==> selected[k].State() == Cleaned(old(selected[k].State()), outcomes[k])
    ensures forall r :: r in rows && r !in selected ==> r.State() == old(r.State())
  {
    selected := Select(rows, now);
    stats, outcomes := SweepAll(selected, fs);
  }

  /** Whether `cleanup_expired_audio` commits: only when some file was deleted or some
      removal failed. */
  predicate Commits(stats: CleanupStats) {
    stats.deletedCount > 0 || stats.failedCount > 0
  }

  /** No outcome is Deleted or Failed exactly when every outcome is Missing. */
  lemma {:induction false} NoneCountedIffAllMissing(o: seq<Outcome>)
    ensures Count(o, Deleted) + Count(o, Failed) == 0 <==> forall k :: 0 <= k < |o| ==> o[k] == Missing
  {
    if o != [] {
      var n := |o| - 1;
      NoneCountedIffAllMissing(o[..n]);
      assert forall k :: 0 <= k < n ==> o[..n][k] == o[k];
    }
  }

  /** The sweep commits exactly when some selected recording's file existed, whether its
      removal then succeeded or raised. */
  lemma CommitsIffSomeFileFound(paths: seq<string>, sizes: seq<nat>, files: set<string>, stuck: set<string>)
    requires |paths| == |sizes|
    ensures var w := SweepOf(paths, sizes, files, stuck);
            |w.outcomes| == |paths|
            && (Commits(w.stats) <==> exists k :: 0 <= k < |w.outcomes| && w.outcomes[k] != Missing)
  {
    SweepFacts(paths, sizes, files, stuck);
    NoneCountedIffAllMissing(SweepOf(paths, sizes, files, stuck).outcomes);
  }

  /** The stored columns of each recording, in order. */
  method Snapshot(recs: seq<Recording>) returns (stored: seq<RetentionState>)
    ensures |stored| == |recs| && forall k :: 0 <= k < |recs| ==> stored[k] == recs[k].State()
  {
    stored := [];
    var i := 0;
    while i < |recs|
      invariant 0 <= i <= |recs| && |stored| == i
      invariant forall k :: 0 <= k < i ==> stored[k] == recs[k].State()
    {
      stored := stored + [recs[i].State()];
      i := i + 1;
    }
  }

  /** The end of a session without a commit: each recording reverts to its stored columns. */
  method Discard(recs: seq<Recording>, stored: seq<RetentionState>)
    requires Distinct(recs) && |stored| == |recs|
    modifies set k | 0 <= k < |recs| :: recs[k]
    ensures forall k :: 0 <= k < |recs| ==> recs[k].State() == stored[k]
  {
    var i := 0;
    while i < |recs|
      invariant 0 <= i <= |recs|
      invariant forall k :: 0 <= k < i ==> recs[k].State() == stored[k]
    {
      assert forall k :: 0 <= k < i ==> recs[k] != recs[i];
      recs[i].audioDeleteAt := stored[i].audioDeleteAt;
      recs[i].canRegenerate := stored[i].canRegenerate;
      recs[i].audioRetentionEnabled := stored[i].retentionEnabled;
      i := i + 1;
    }
  }

  /** The sweep as written: the flag updates of the loop are kept only when the session is
      committed. */
  method SweepCommitted(selected: seq<Recording>, fs: FileSystem)
    returns (stats: CleanupStats, ghost outcomes: seq<Outcome>)
    requires Distinct(selected)
    modifies set k | 0 <= k < |selected| :: selected[k], fs
    ensures |outcomes| == |selected|
    ensures SweepOf(Paths(selected), Sizes(selected), old(fs.files), fs.stuck) == Sweep(outcomes, fs.files, stats)
    ensures forall k :: 0 <= k < |selected| ==>
              selected[k].State() == if Commits(stats) then Cleaned(old(selected[k].State()), outcomes[k])
                                     else old(selected[k].State())
  {
    var stored := Snapshot(selected);
    stats, outcomes := SweepAll(selected, fs);
    if !Commits(stats) {
      Discard(selected, stored);
    }
  }

  /** `cleanup_expired_audio()` as written: the flag updates are committed only when some
      file was deleted or some removal failed, so a sweep that finds only missing files
      leaves every row as it was. */
  method CleanupExpiredAudioAsWritten(rows: seq<Recording>, fs: FileSystem, now: Instant)
    returns (stats: CleanupStats, selected: seq<Recording>, ghost outcomes: seq<Outcome>)
    requires Distinct(rows)
    modifies set k | 0 <= k < |rows| :: rows[k], fs
    ensures selected == old(Select(rows, now)) && |outcomes| == |selected|
    ensures SweepOf(Paths(selected), Sizes(selected), old(fs.files), fs.stuck) == Sweep(outcomes, fs.files, stats)
    ensures forall k :: 0 <= k < |selected| ==>
              selected[k].State() == if Commits(stats) then Cleaned(old(selected[k].State()), outcomes[k])
                                     else old(selected[k].State())
    ensures forall r :: r in rows && r !in selected ==> r.State() == old(r.State())
  {
    selected := Select(rows, now);
    stats, outcomes := SweepCommitted(selected, fs);
  }

  /** A recording due for deletion whose file is already gone is never cleaned up by the
      sweep as written: its sweep commits nothing, so the row keeps its columns and the next
      sweep selects it again, while the flags the loop assigned would have stopped that. */
  lemma MissingFileSelectedAgain(s: RetentionState, now: Instant, path: string, size: nat,
                                 files: set<string>, stuck: set<string>)
    requires Expired(s, now) && path !in files
    ensures var w := SweepOf([path], [size], files, stuck);
            w.outcomes == [Missing] && !Commits(w.stats) && !Expired(Cleaned(s, w.outcomes[0]), now)
  {
    assert [path][..0] == [] && [size][..0] == [];
  }
}
