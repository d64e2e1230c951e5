/**
 * `TranscriptionService`: the pipeline around the two recognisers. It returns an
 * existing transcription instead of transcribing twice, validates the duration,
 * falls back from enhanced to basic preprocessing, calls the legacy transcriber
 * or the production service, and stores the result, treating a duplicate-key
 * error at commit as "someone else stored it first".
 *
 * The database session is a `Database` object whose rows are keyed by recording
 * id (the table's unique constraint). What the audio analyser, the enhancer,
 * basic preprocessing and the commit do are inputs. Every external call is
 * recorded in a trace, so the order of the calls can be stated.
 */
module TranscriptionService {
  import opened Wrappers
  import opened PyStr
  import AudioPreprocessor
  import ProductionWhisper
  import WhisperTranscriber

  /** A stored `Transcription` row. */
  datatype Transcription = Transcription(
    recordingId: string,
    text: string,
    language: Option<string>,
    confidence: real,
    provider: string)

  /** The external calls the pipeline makes, in the order it makes them. */
  datatype Stage =
    | Lookup                                  // select the transcription of the recording
    | Analyze(path: string)                   // audio analysis
    | Enhance(input: string, output: string)  // enhancement (noise reduction, normalisation)
    | Basic(input: string, output: string)    // basic preprocessing
    | Whisper(path: string)                   // the legacy transcriber
    | Production(path: string)                // the production service
    | Commit
    | Rollback
    | Requery                                 // select again after a rollback

  /** The message every raised error is wrapped in. */
  const FailurePrefix: string := "Failed to transcribe audio: "

  /** Python's `f"{x}"` of an optional message. */
  function ErrorText(e: Option<string>): string {
    if e.Some? then e.value else "None"
  }

  // ---------------------------------------------------------------------
  // Duration bounds and the processed-file name.

  const MinDurationSeconds: real := 1.0
  const MaxDurationSeconds: real := 7200.0

  /** The duration check of the legacy path: the message raised, or None when the audio is
      between one second and two hours inclusive. */
  function DurationProblem(durationSeconds: real): (problem: Option<string>)
    ensures problem.None? <==> MinDurationSeconds <= durationSeconds <= MaxDurationSeconds
    ensures durationSeconds < MinDurationSeconds ==> problem == Some("Audio too short (< 1 second)")
    ensures durationSeconds > MaxDurationSeconds ==>
              problem == Some("Audio too long (> 2 hours). Please split into smaller files.")
  {
    if durationSeconds < MinDurationSeconds then Some("Audio too short (< 1 second)")
    else if durationSeconds > MaxDurationSeconds then
      Some("Audio too long (> 2 hours). Please split into smaller files.")
    else None
  }

  /** `os.path.splitext(path)[0]`: the path without the extension that starts at the last '.'
      of the file name, unless every character before that '.' in the file name is a '.'. */
  function SplitextRoot(path: string): (root: string)
    ensures |root| <= |path| && root == path[..|root|]
    ensures root == path || path[|root|] == '.'
  {
    match LastIndexOf(path, '.')
    case None => path
    case Some(dot) =>
      var start := match LastIndexOf(path, '/') case None => 0 case Some(sep) => sep + 1;
      if start <= dot && exists k :: start <= k < dot && path[k] != '.' then path[..dot] else path
  }

  /** The name of the processed file of the legacy path. */
  function TempPath(path: string): string {
    SplitextRoot(path) + "_processed.mp3"
  }

  /** The processed file never has the name of the upload, so preprocessing never overwrites it. */
  lemma TempPathDiffers(path: string)
    ensures TempPath(path) != path
  {
    var root := SplitextRoot(path);
    if root != path {
      assert TempPath(path)[|root|] == '_';
    }
  }

  // ---------------------------------------------------------------------
  // Preprocessing with fallback.

  /** What the enhancer does: succeed, report `success` False, or raise. */
  datatype Enhancement = Enhanced | EnhancementUnsuccessful | EnhancementRaised(message: string)

  /** What one call of basic preprocessing returns; `error` is None when the result has no
      `error` entry. */
  datatype BasicOutcome = Normalised(normalized: bool) | BasicFailed(error: Option<string>)

  /** The outcome of the preprocessing step, with the calls it made. */
  datatype Preparation = PrepDone(calls: seq<Stage>) | PrepFailed(message: string, calls: seq<Stage>)

  /** Call number `k` of basic preprocessing, after `calls`; a failure raises. */
  function BasicAttempt(input: string, output: string, basic: nat -> BasicOutcome, k: nat,
                        calls: seq<Stage>): Preparation
  {
    match basic(k)
    case Normalised(_) => PrepDone(calls + [Basic(input, output)])
    case BasicFailed(e) => PrepFailed("Audio preprocessing failed: " + ErrorText(e), calls + [Basic(input, output)])
  }

  /** The enhancement step and its fallbacks; `basic(k)` is what basic preprocessing returns the
      `k`-th time it is called. An unsuccessful enhancement calls basic preprocessing inside the
      handler, so when that call fails too, the handler calls it a second time. */
  function Fallback(input: string, output: string, enhancement: Enhancement,
                    basic: nat -> BasicOutcome): (p: Preparation)
    ensures 1 <= |p.calls| <= 3 && p.calls[0] == Enhance(input, output)
    ensures forall k :: 1 <= k < |p.calls| ==> p.calls[k] == Basic(input, output)
    // Basic preprocessing runs exactly when the enhancement did not succeed ...
    ensures |p.calls| == 1 <==> enhancement.Enhanced?
    ensures p.PrepFailed? ==> !enhancement.Enhanced?
    // ... and runs twice only after an unsuccessful enhancement and a failed first call.
    ensures |p.calls| == 3 <==> enhancement.EnhancementUnsuccessful? && basic(0).BasicFailed?
    // The step fails only when every call of basic preprocessing failed, with the last error.
    ensures p.PrepFailed? ==> forall k :: 0 <= k < |p.calls| - 1 ==> basic(k).BasicFailed?
    ensures p.PrepFailed? ==>
              p.message == "Audio preprocessing failed: " + ErrorText(basic(|p.calls| - 2).error)
    ensures p.PrepDone? && |p.calls| > 1 ==> basic(|p.calls| - 2).Normalised?
  {
    match enhancement
    case Enhanced => PrepDone([Enhance(input, output)])
    case EnhancementUnsuccessful =>
      if basic(0).Normalised? then PrepDone([Enhance(input, output), Basic(input, output)])
      else BasicAttempt(input, output, basic, 1, [Enhance(input, output), Basic(input, output)])
    case EnhancementRaised(_) => BasicAttempt(input, output, basic, 0, [Enhance(input, output)])
  }

  /** When basic preprocessing answers the same way each time, the fallback amounts to "the
      enhancement, or else basic preprocessing", whichever way the enhancement failed. */
  lemma FallbackDeterministic(input: string, output: string, enhancement: Enhancement,
                              basic: nat -> BasicOutcome)
    requires basic(0) == basic(1)
    ensures Fallback(input, output, enhancement, basic).PrepFailed? <==>
              !enhancement.Enhanced? && basic(0).BasicFailed?
    ensures Fallback(input, output, enhancement, basic).PrepFailed? ==>
              Fallback(input, output, enhancement, basic).message ==
                "Audio preprocessing failed: " + ErrorText(basic(0).error)
  {
  }

  // ---------------------------------------------------------------------
  // Storing a row.

  /** What the commit does: succeed, or raise with a message. `requery` is what selecting the
      recording's transcription again finds after a rollback. */
  datatype Store = Store(commit: CommitOutcome, requery: Option<Transcription>)
  datatype CommitOutcome = Committed | CommitRaised(message: string)

  /** The error is taken for a violated uniqueness constraint. */
  predicate Duplicate(message: string) {
    Contains(Lower(message), "duplicate key") || Contains(Lower(message), "unique constraint")
  }

  /** What saving `record` returns: the record, the row found again after a duplicate-key
      error, or the wrapped error. */
  function CommitResult(record: Transcription, store: Store): (r: Result<Transcription, string>)
    requires store.requery.Some? ==> store.requery.value.recordingId == record.recordingId
    ensures r.Ok? ==> r.value.recordingId == record.recordingId
    ensures r.Err? <==> store.commit.CommitRaised? && !(Duplicate(store.commit.message) && store.requery.Some?)
    ensures r.Err? ==> r.error == FailurePrefix + store.commit.message
    ensures store.commit.Committed? ==> r == Ok(record)
  {
    match store.commit
    case Committed => Ok(record)
    case CommitRaised(m) =>
      if Duplicate(m) && store.requery.Some? then Ok(store.requery.value) else Err(FailurePrefix + m)
  }

  /** The calls saving makes: the commit, then on a duplicate-key error a rollback and a requery. */
  function CommitSteps(store: Store): seq<Stage> {
    if store.commit.CommitRaised? && Duplicate(store.commit.message) then [Commit, Rollback, Requery]
    else [Commit]
  }

  /** The rows after saving `record`: only a successful commit adds it. */
  function AfterCommit(rows: map<string, Transcription>, record: Transcription, store: Store)
    : map<string, Transcription>
  {
    if store.commit.Committed? then rows[record.recordingId := record] else rows
  }

  /** Saving can only add rows: every earlier row is kept as it was, and a new row can only be
      the one for `recordingId`. */
  predicate OnlyAdds(before: map<string, Transcription>, after: map<string, Transcription>, recordingId: string) {
    (forall id :: id in before ==> id in after && after[id] == before[id])
    && (forall id :: id in after && id !in before ==> id == recordingId)
  }

  /** Committing a record for a recording without a row only adds that row. */
  lemma AfterCommitOnlyAdds(rows: map<string, Transcription>, record: Transcription, store: Store)
    requires record.recordingId !in rows
    ensures OnlyAdds(rows, AfterCommit(rows, record, store), record.recordingId)
    ensures store.commit.Committed? ==> AfterCommit(rows, record, store)[record.recordingId] == record
  {
  }

  /** Duplicate detection ignores letter case. */
  lemma DuplicateIgnoresCase(message: string)
    ensures Duplicate(message) <==> Duplicate(Lower(message))
  {
    LowerIdempotent(message);
  }

  /** The session: the transcription rows, keyed by recording id. */
  class Database {
    var rows: map<string, Transcription>

    /** Every row is stored under its own recording id. */
    predicate Valid()
      reads this
    {
      forall id :: id in rows ==> rows[id].recordingId == id
    }

    constructor (initial: map<string, Transcription>)
      requires forall id :: id in initial ==> initial[id].recordingId == id
      ensures rows == initial && Valid()
    {
      rows := initial;
    }

    /** `select(Transcription).filter(Transcription.recording_id == recording_id)`, one or none. */
    function Find(recordingId: string): (t: Option<Transcription>)
      reads this
      requires Valid()
      ensures t.Some? ==> t.value.recordingId == recordingId
      ensures t.None? <==> recordingId !in rows
    {
      if recordingId in rows then Some(rows[recordingId]) else None
    }

    /** `db.add`, `commit` and, on a duplicate-key error, `rollback` and the second select. */
    method Save(record: Transcription, store: Store) returns (r: Result<Transcription, string>, steps: seq<Stage>)
      requires Valid()
      requires store.requery.Some? ==> store.requery.value.recordingId == record.recordingId
      modifies this
      ensures Valid()
      ensures rows == AfterCommit(old(rows), record, store)
      ensures r == CommitResult(record, store) && steps == CommitSteps(store)
    {
      match store.commit
      case Committed =>
        rows := rows[record.recordingId := record];
        return Ok(record), [Commit];
      case CommitRaised(message) =>
        if Duplicate(message) {
          steps := [Commit, Rollback, Requery];
          if store.requery.Some? {
            return Ok(store.requery.value), steps;
          }
        } else {
          steps := [Commit];
        }
        r := Err(FailurePrefix + message);
    }
  }

  // ---------------------------------------------------------------------
  // The two pipelines.

  /** What the audio analyser reports; sample rate and channels are only logged. */
  datatype AudioStats = AudioStats(durationSeconds: real, dbfs: real)

  /** The inputs of the legacy path. */
  datatype LegacyInputs = LegacyInputs(
    analysis: Result<AudioStats, string>,
    enhancement: Enhancement,
    basic: nat -> BasicOutcome,
    api: (nat, int) -> WhisperTranscriber.Attempt)

  /** The inputs of the production path; see `ProductionWhisper.Transcribe`. */
  datatype ProductionInputs = ProductionInputs(
    file: AudioPreprocessor.SourceFile,
    tempPath: string,
    exportSucceeds: bool,
    processedMs: Option<nat>,
    recognize: (nat, int) -> ProductionWhisper.CallOutcome)

  /** Below this confidence the legacy path warns. */
  const LowConfidence: real := 0.3

  /** The row the legacy path stores. */
  function LegacyRecord(recordingId: string, t: WhisperTranscriber.Transcript): Transcription {
    Transcription(recordingId, t.text, Some(t.language), t.confidence, "whisper")
  }

  /** The row the production path stores. */
  function ProductionRecord(recordingId: string, res: ProductionWhisper.TranscriptionResult): Transcription
    requires res.transcript.Some?
  {
    Transcription(recordingId, res.transcript.value, res.language, res.confidence, "whisper-production")
  }

  /** What the legacy path of `transcribe_audio` does for a recording with no transcription:
      `before` and `after` are the table around the call, `heard` and `waits` what the legacy
      transcriber returned when it was called. */
  ghost predicate LegacyOutcome(before: map<string, Transcription>, after: map<string, Transcription>,
                                recordingId: string, audioPath: string, inputs: LegacyInputs, store: Store,
                                heard: Result<WhisperTranscriber.Transcript, string>, waits: seq<nat>,
                                r: Result<Transcription, string>, lowConfidence: bool, trace: seq<Stage>)
    requires store.requery.Some? ==> store.requery.value.recordingId == recordingId
  {
    // An analysis failure or a duration out of bounds is raised before any preprocessing.
    (inputs.analysis.Err? ==>
       r == Err(FailurePrefix + inputs.analysis.error) && trace == [Analyze(audioPath)] && after == before)
    && (inputs.analysis.Ok? && DurationProblem(inputs.analysis.value.durationSeconds).Some? ==>
          r == Err(FailurePrefix + DurationProblem(inputs.analysis.value.durationSeconds).value)
          && trace == [Analyze(audioPath)] && after == before)
    // Otherwise preprocessing writes the processed file, falling back as `Fallback` says ...
    && (inputs.analysis.Ok? && DurationProblem(inputs.analysis.value.durationSeconds).None? ==>
          var prep := Fallback(audioPath, TempPath(audioPath), inputs.enhancement, inputs.basic);
          [Analyze(audioPath)] + prep.calls <= trace
          && (prep.PrepFailed? ==>
                r == Err(FailurePrefix + prep.message) && trace == [Analyze(audioPath)] + prep.calls
                && after == before))
    // ... and the legacy transcriber reads it; its answer is stored.
    && (inputs.analysis.Ok? && DurationProblem(inputs.analysis.value.durationSeconds).None? ==>
          var d := inputs.analysis.value.durationSeconds;
          var prep := Fallback(audioPath, TempPath(audioPath), inputs.enhancement, inputs.basic);
          prep.PrepDone? ==>
            WhisperTranscriber.Outcome(inputs.api, WhisperTranscriber.QualityIssues,
                                       WhisperTranscriber.BuildRequest(Some(d)).temperatureTenths,
                                       Some(d), heard, waits)
            && (heard.Err? ==>
                  r == Err(FailurePrefix + heard.error)
                  && trace == [Analyze(audioPath)] + prep.calls + [Whisper(TempPath(audioPath))]
                  && after == before)
            && (heard.Ok? ==>
                  r == CommitResult(LegacyRecord(recordingId, heard.value), store)
                  && after == AfterCommit(before, LegacyRecord(recordingId, heard.value), store)
                  && trace == [Analyze(audioPath)] + prep.calls + [Whisper(TempPath(audioPath))]
                              + CommitSteps(store)))
    // The low-confidence warning is given for a transcript under 0.3, and only then.
    && (lowConfidence <==>
          inputs.analysis.Ok? && DurationProblem(inputs.analysis.value.durationSeconds).None?
          && Fallback(audioPath, TempPath(audioPath), inputs.enhancement, inputs.basic).PrepDone?
          && heard.Ok? && heard.value.confidence < LowConfidence)
  }

  /** What the production path does for a recording with no transcription: `graded` is what the
      production service returned. */
  ghost predicate ProductionOutcome(before: map<string, Transcription>, after: map<string, Transcription>,
                                    recordingId: string, audioPath: string, inputs: ProductionInputs,
                                    store: Store, graded: ProductionWhisper.TranscriptionResult,
                                    r: Result<Transcription, string>, trace: seq<Stage>)
    requires store.requery.Some? ==> store.requery.value.recordingId == recordingId
  {
    // The service runs with automatic language detection and five tries ...
    ProductionWhisper.Produced(audioPath, inputs.file, inputs.exportSucceeds, inputs.processedMs,
                               5, inputs.recognize, graded)
    // ... an unsuccessful result is raised ...
    && (!graded.Success() ==>
          r == Err(FailurePrefix + "Transcription failed: " + ErrorText(graded.error))
          && trace == [Lookup, Production(audioPath)] && after == before)
    // ... and a successful one is stored with its confidence score.
    && (graded.Success() ==>
          0.0 < graded.confidence <= 1.0
          && r == CommitResult(ProductionRecord(recordingId, graded), store)
          && after == AfterCommit(before, ProductionRecord(recordingId, graded), store)
          && trace == [Lookup, Production(audioPath)] + CommitSteps(store))
  }

  /** `transcribe_audio` after the existence check, with the production service disabled.
      `heard` and `waits` are what the legacy transcriber returned, when it was called. */
  method TranscribeLegacy(db: Database, recordingId: string, audioPath: string, inputs: LegacyInputs,
                          store: Store)
    returns (r: Result<Transcription, string>, lowConfidence: bool, trace: seq<Stage>,
             ghost heard: Result<WhisperTranscriber.Transcript, string>, ghost waits: seq<nat>)
    requires db.Valid() && recordingId !in db.rows
    requires store.requery.Some? ==> store.requery.value.recordingId == recordingId
    modifies db
    ensures db.Valid() && OnlyAdds(old(db.rows), db.rows, recordingId)
    ensures |trace| >= 1 && trace[0] == Analyze(audioPath)
    ensures r.Ok? ==> r.value.recordingId == recordingId
    ensures LegacyOutcome(old(db.rows), db.rows, recordingId, audioPath, inputs, store,
                          heard, waits, r, lowConfidence, trace)
  {
    heard, waits := Err(""), [];
    lowConfidence := false;
    trace := [Analyze(audioPath)];
    if inputs.analysis.Err? {
      return Err(FailurePrefix + inputs.analysis.error), false, trace, heard, waits;
    }
    var stats := inputs.analysis.value;
    var problem := DurationProblem(stats.durationSeconds);
    if problem.Some? {
      return Err(FailurePrefix + problem.value), false, trace, heard, waits;
    }
    var tempProcessed := TempPath(audioPath);
    var prep := Fallback(audioPath, tempProcessed, inputs.enhancement, inputs.basic);
    trace := trace + prep.calls;
    if prep.PrepFailed? {
      return Err(FailurePrefix + prep.message), false, trace, heard, waits;
    }
    trace := trace + [Whisper(tempProcessed)];
    var result, sleeps := WhisperTranscriber.Transcribe(Some(stats.durationSeconds), inputs.api);
    heard, waits := result, sleeps;
    if result.Err? {
      return Err(FailurePrefix + result.error), false, trace, heard, waits;
    }
    var transcript := result.value;
    lowConfidence := transcript.confidence < LowConfidence;
    AfterCommitOnlyAdds(db.rows, LegacyRecord(recordingId, transcript), store);
    var steps;
    r, steps := db.Save(LegacyRecord(recordingId, transcript), store);
    trace := trace + steps;
  }

  /** `transcribe_audio_production`. `graded` is what the production service returned, when it
      was called. */
  method TranscribeAudioProduction(db: Database, recordingId: string, audioPath: string,
                                   inputs: ProductionInputs, store: Store)
    returns (r: Result<Transcription, string>, trace: seq<Stage>,
             ghost graded: ProductionWhisper.TranscriptionResult)
    requires db.Valid()
    requires store.requery.Some? ==> store.requery.value.recordingId == recordingId
    modifies db
    ensures db.Valid() && OnlyAdds(old(db.rows), db.rows, recordingId)
    ensures r.Ok? ==> r.value.recordingId == recordingId
    // An existing transcription is returned as it is.
    ensures recordingId in old(db.rows) ==>
              r == Ok(old(db.rows)[recordingId]) && trace == [Lookup] && db.rows == old(db.rows)
    // Otherwise the production service runs and its result decides the answer and the table.
    ensures recordingId !in old(db.rows) ==> |trace| >= 2 && trace[..2] == [Lookup, Production(audioPath)]
    ensures recordingId !in old(db.rows) ==>
              ProductionOutcome(old(db.rows), db.rows, recordingId, audioPath, inputs, store, graded, r, trace)
  {
    trace := [Lookup];
    graded := ProductionWhisper.TranscriptionResult(None, None, ProductionWhisper.Failed, 0.0, 0.0, 0, 0, [], None);
    var existing := db.Find(recordingId);
    if existing.Some? {
      return Ok(existing.value), trace, graded;
    }
    trace := [Lookup, Production(audioPath)];
    var result := ProductionWhisper.Transcribe(audioPath, inputs.file, inputs.tempPath, inputs.exportSucceeds,
                                               inputs.processedMs, 5, inputs.recognize);
    graded := result;
    if !result.Success() {
      return Err(FailurePrefix + "Transcription failed: " + ErrorText(result.error)), trace, graded;
    }
    AfterCommitOnlyAdds(db.rows, ProductionRecord(recordingId, result), store);
    var steps;
    r, steps := db.Save(ProductionRecord(recordingId, result), store);
    trace := trace + steps;
  }

  /** `transcribe_audio(audio_file_path, recording_id, db)`. */
  method TranscribeAudio(db: Database, useProductionService: bool, recordingId: string, audioPath: string,
                         legacy: LegacyInputs, production: ProductionInputs, store: Store)
    returns (r: Result<Transcription, string>, lowConfidence: bool, trace: seq<Stage>,
             ghost graded: ProductionWhisper.TranscriptionResult,
             ghost heard: Result<WhisperTranscriber.Transcript, string>, ghost waits: seq<nat>)
    requires db.Valid()
    requires store.requery.Some? ==> store.requery.value.recordingId == recordingId
    modifies db
    ensures db.Valid()
    ensures r.Ok? ==> r.value.recordingId == recordingId
    // A recording is never transcribed twice: an existing transcription is returned at once.
    ensures recordingId in old(db.rows) ==>
              r == Ok(old(db.rows)[recordingId]) && trace == [Lookup] && db.rows == old(db.rows)
    // Only the recording's own row can change, and only by being added.
    ensures OnlyAdds(old(db.rows), db.rows, recordingId)
    ensures lowConfidence ==> !useProductionService && recordingId !in old(db.rows)
    ensures |trace| >= 1 && trace[0] == Lookup
    // A fresh recording goes to the production service when it is enabled, and to the
    // legacy pipeline, which starts with the audio analysis, otherwise.
    ensures recordingId !in old(db.rows) && useProductionService ==>
              |trace| >= 3 && trace[1..3] == [Lookup, Production(audioPath)]
    ensures recordingId !in old(db.rows) && !useProductionService ==>
              |trace| >= 2 && trace[1] == Analyze(audioPath)
    // What each path answers and stores is what that path promises on its own.
    ensures recordingId !in old(db.rows) && useProductionService ==>
              ProductionOutcome(old(db.rows), db.rows, recordingId, audioPath, production, store,
                                graded, r, trace[1..])
    ensures recordingId !in old(db.rows) && !useProductionService ==>
              LegacyOutcome(old(db.rows), db.rows, recordingId, audioPath, legacy, store,
                            heard, waits, r, lowConfidence, trace[1..])
  {
    trace := [Lookup];
    lowConfidence := false;
    graded := ProductionWhisper.TranscriptionResult(None, None, ProductionWhisper.Failed, 0.0, 0.0, 0, 0, [], None);
    heard, waits := Err(""), [];
    var existing := db.Find(recordingId);
    if existing.Some? {
      return Ok(existing.value), false, trace, graded, heard, waits;
    }
    ghost var before := db.rows;
    if useProductionService {
      var steps;
      r, steps, graded := TranscribeAudioProduction(db, recordingId, audioPath, production, store);
      assert ProductionOutcome(before, db.rows, recordingId, audioPath, production, store, graded, r, steps);
      trace := trace + steps;
      assert trace[1..] == steps && trace[1..3] == steps[..2];
      return;
    }
    var steps;
    r, lowConfidence, steps, heard, waits := TranscribeLegacy(db, recordingId, audioPath, legacy, store);
    assert LegacyOutcome(before, db.rows, recordingId, audioPath, legacy, store, heard, waits, r,
                         lowConfidence, steps);
    trace := trace + steps;
    assert trace[1..] == steps && trace[1] == steps[0];
  }

  // ---------------------------------------------------------------------
  // `get_transcription_stats`.

  /** The predicted settings for a file. */
  datatype Stats = Stats(
    audio: AudioStats,
    predictedTemperatureTenths: int,
    willNormalize: bool,
    estimatedProcessingSeconds: real)

  /** `get_transcription_stats(audio_file_path)`, given what the analyser reports. */
  function TranscriptionStats(analysis: Result<AudioStats, string>): (r: Result<Stats, string>)
    ensures r.Ok? <==> analysis.Ok?
    ensures r.Err? ==> r.error == "Failed to analyze audio: " + analysis.error
    ensures r.Ok? ==> r.value.audio == analysis.value
  {
    match analysis
    case Err(e) => Err("Failed to analyze audio: " + e)
    case Ok(a) =>
      Ok(Stats(a, WhisperTranscriber.DetermineTemperature(a.durationSeconds),
               a.dbfs < -20.0 || a.dbfs > -3.0, a.durationSeconds * 0.25))
  }

  /** The prediction: the temperature is the one the legacy transcriber's first request uses,
      normalisation is predicted exactly outside [-20, -3] dBFS, and the estimate is a quarter of
      the duration. */
  lemma StatsPredictions(a: AudioStats)
    ensures var s := TranscriptionStats(Ok(a)).value;
            s.predictedTemperatureTenths == WhisperTranscriber.BuildRequest(Some(a.durationSeconds)).temperatureTenths
            && (s.willNormalize <==> !(-20.0 <= a.dbfs <= -3.0))
            && 4.0 * s.estimatedProcessingSeconds == a.durationSeconds
  {
  }

  /** Audio quiet enough for the production preprocessor to normalise it is predicted to be
      normalised; the converse fails between -30 and -20 dBFS. */
  lemma QuietAudioPredicted(a: AudioStats)
    ensures a.dbfs < AudioPreprocessor.QuietThreshold ==> TranscriptionStats(Ok(a)).value.willNormalize
    ensures AudioPreprocessor.QuietThreshold <= a.dbfs < -20.0 ==>
              TranscriptionStats(Ok(a)).value.willNormalize && !(a.dbfs < AudioPreprocessor.QuietThreshold)
  {
  }
}
