/**
 * The production transcription service (`ProductionWhisperService` in
 * app/services/production_whisper_service.py): preprocess the audio only if
 * needed, ask the recogniser at up to five temperatures, keep the best-scoring
 * transcript, stop early on an acceptable one, and map the best score to a
 * quality level.
 *
 * The recogniser is an oracle: given the attempt index and the temperature (in
 * tenths) it either hears a transcript and a language, returns nothing, or
 * fails with an error message.
 */
module ProductionWhisper {
  import opened Wrappers
  import opened PyStr
  import opened RepetitionDetector
  import AudioPreprocessor

  datatype Quality = Excellent | Good | Fair | Poor | Failed

  /** The messages the service appends to `warnings`. */
  datatype Warning =
    | Preprocessed(steps: seq<AudioPreprocessor.Step>)
    | RepetitionAt(temperatureTenths: int)
    | ApiErrorAt(temperatureTenths: int, message: string)
    | FairQuality
    | PoorQuality
    | RepetitionInBest

  /** One recogniser call: `(transcript, language)`, `None`, or a raised exception. */
  datatype CallOutcome = Heard(text: string, language: Option<string>) | NoResponse | CallFailed(message: string)

  /** `TranscriptionResult`, without the wall-clock processing time. */
  datatype TranscriptionResult = TranscriptionResult(
    transcript: Option<string>,
    language: Option<string>,
    quality: Quality,
    confidence: real,
    durationSeconds: real,
    temperatureTenths: int,
    attempts: nat,
    warnings: seq<Warning>,
    error: Option<string>)
  {
    /** `TranscriptionResult.success` */
    predicate Success() {
      transcript.Some? && quality != Failed
    }
  }

  /** `TEMPERATURE_SEQUENCE`, in tenths: 0.2, 0.0, 0.4, 0.3, 0.6. */
  const TemperatureSequence: seq<int> := [2, 0, 4, 3, 6]

  /** Scores at or above this, without repetition, end the retries. */
  const AcceptScore: real := 0.8

  /** Used when the duration can be read neither from preprocessing nor from the file. */
  const DefaultDurationSeconds: real := 60.0

  /** `TEMPERATURE_SEQUENCE[:max_retries]`, negative counts included. */
  function TemperaturesToTry(maxRetries: int): (temps: seq<int>)
    ensures |temps| <= |TemperatureSequence|
    ensures 0 <= maxRetries ==> |temps| == if maxRetries < 5 then maxRetries else 5
    ensures temps == TemperatureSequence[..|temps|]
  {
    Prefix(TemperatureSequence, maxRetries)
  }

  /** What the recogniser answers at each attempt of the sequence. */
  function Outcomes(recognize: (nat, int) -> CallOutcome, temps: seq<int>): (os: seq<CallOutcome>)
    ensures |os| == |temps|
    ensures forall k :: 0 <= k < |temps| ==> os[k] == recognize(k, temps[k])
  {
    seq(|temps|, k requires 0 <= k < |temps| => recognize(k, temps[k]))
  }

  /** What the service learns from a transcript: its quality score and whether it repeats. */
  datatype Assessment = Assessment(score: real, repeated: bool)

  /** `calculate_quality_score` and `detect` of a transcript. The retry loop is verified for
      any assessment function and used with this one. */
  function Assess(text: string): (a: Assessment)
    ensures 0.0 <= a.score <= 1.0
    ensures a.repeated ==> a.score <= 0.5
    ensures a == Assessment(QualityScore(text), Detect(text).Repeated?)
  {
    RepetitionCapsScore(text);
    Assessment(QualityScore(text), Detect(text).Repeated?)
  }

  /** The quality score of an attempt; attempts without a transcript count as 0. */
  function Score(o: CallOutcome, assess: string -> Assessment): real {
    if o.Heard? then assess(o.text).score else 0.0
  }

  /** An attempt that ends the retries. */
  predicate Accepted(o: CallOutcome, assess: string -> Assessment) {
    o.Heard? && assess(o.text).score >= AcceptScore && !assess(o.text).repeated
  }

  /** With the service's assessment, a transcript scoring at least 0.8 never shows repetition,
      so acceptance is the score alone. */
  lemma AcceptedIffScore(o: CallOutcome)
    ensures Accepted(o, Assess) <==> o.Heard? && Score(o, Assess) >= AcceptScore
  {
  }

  /** The running `best_score` after `n` attempts: 0.0 raised to every larger score seen. */
  function BestScore(os: seq<CallOutcome>, n: nat, assess: string -> Assessment): (b: real)
    requires n <= |os|
    ensures b >= 0.0
    ensures forall k :: 0 <= k < n ==> Score(os[k], assess) <= b
    ensures b == 0.0 || exists k :: 0 <= k < n && Score(os[k], assess) == b
  {
    if n == 0 then 0.0
    else
      var prev := BestScore(os, n - 1, assess);
      var x := Score(os[n - 1], assess);
      if x > prev then x else prev
  }

  /** The best score never decreases as attempts are added. */
  lemma {:induction false} BestScoreMonotone(os: seq<CallOutcome>, m: nat, n: nat, assess: string -> Assessment)
    requires m <= n <= |os|
    ensures BestScore(os, m, assess) <= BestScore(os, n, assess)
    decreases n - m
  {
    if m < n {
      BestScoreMonotone(os, m, n - 1, assess);
    }
  }

  /** Attempt `b` of the first `n` is the one kept: a positive score, strictly higher than
      every earlier one and at least as high as every later one. */
  ghost predicate IsBest(os: seq<CallOutcome>, n: nat, b: nat, assess: string -> Assessment)
    requires n <= |os|
  {
    b < n && Score(os[b], assess) > 0.0
    && (forall j :: 0 <= j < b ==> Score(os[j], assess) < Score(os[b], assess))
    && (forall j :: b < j < n ==> Score(os[j], assess) <= Score(os[b], assess))
  }

  /** The warning an attempt that does not end the retries leaves behind. */
  function AttemptWarnings(o: CallOutcome, temp: int, assess: string -> Assessment): seq<Warning> {
    match o
    case Heard(text, _) => if assess(text).repeated then [RepetitionAt(temp)] else []
    case NoResponse => []
    case CallFailed(m) => [ApiErrorAt(temp, Prefix(m, 50))]
  }

  /** The warnings of the first `n` attempts, in order. */
  function LoopWarnings(os: seq<CallOutcome>, temps: seq<int>, n: nat, assess: string -> Assessment): seq<Warning>
    requires n <= |os| == |temps|
  {
    if n == 0 then []
    else LoopWarnings(os, temps, n - 1, assess) + AttemptWarnings(os[n - 1], temps[n - 1], assess)
  }

  /** The quality level for the best score and whether the best transcript repeats itself. */
  function Level(score: real, repeated: bool): (q: Quality)
    ensures q != Failed
    ensures q == Excellent <==> score >= 0.9 && !repeated
    ensures q == Good <==> 0.7 <= score && !(score >= 0.9) && !repeated
    ensures q == Fair <==> score >= 0.5 && (repeated || score < 0.7)
    ensures q == Poor <==> score < 0.5
  {
    if score >= 0.9 && !repeated then Excellent
    else if score >= 0.7 && !repeated then Good
    else if score >= 0.5 then Fair
    else Poor
  }

  /** The warnings added once the level is known. */
  function LevelWarnings(q: Quality, repeated: bool): seq<Warning> {
    (if q == Fair then [FairQuality] else if q == Poor then [PoorQuality] else [])
    + (if repeated then [RepetitionInBest] else [])
  }

  /** `duration_seconds` from preprocessing when it is there and non-zero, else the processed
      file's own duration, else 60 s. */
  function Duration(prepared: Option<AudioPreprocessor.AudioInfo>, processedMs: Option<nat>): real {
    if prepared.Some? && prepared.value.durationMs != 0 then prepared.value.durationMs as real / 1000.0
    else if processedMs.Some? then processedMs.value as real / 1000.0
    else DefaultDurationSeconds
  }

  /** What preprocessing learns about the audio: the decoded properties, when it decodes. */
  function PreparedAudio(path: string, file: AudioPreprocessor.SourceFile): Option<AudioPreprocessor.AudioInfo> {
    if AudioPreprocessor.NeedsProcessing(file.sizeBytes, path) then file.decoded else None
  }

  /** The "Audio preprocessed" warning, present when the file was re-encoded. */
  function PrepWarnings(path: string, file: AudioPreprocessor.SourceFile, exportSucceeds: bool): seq<Warning> {
    if AudioPreprocessor.Reencodes(file, path, exportSucceeds)
    then [Preprocessed(AudioPreprocessor.ReasonSteps(file.sizeBytes, path) + AudioPreprocessor.AudioSteps(file.decoded.value))]
    else []
  }

  /** The `best_result` dictionary: which attempt it came from and what was recorded of it. */
  datatype BestAttempt = BestAttempt(
    index: nat,
    text: string,
    language: Option<string>,
    temperatureTenths: int,
    score: real,
    repeated: bool)

  /** `best_score`, which is 0.0 until a transcript scores higher. */
  function ScoreOf(best: Option<BestAttempt>): real {
    if best.Some? then best.value.score else 0.0
  }

  /** What `best_result` holds after the first `n` attempts: nothing while no attempt scored
      above 0, otherwise the first attempt with the highest score, as it was heard. */
  ghost predicate BestOK(temps: seq<int>, os: seq<CallOutcome>, n: nat, assess: string -> Assessment,
                         best: Option<BestAttempt>)
    requires n <= |os| == |temps|
  {
    match best
    case None => forall j :: 0 <= j < n ==> Score(os[j], assess) <= 0.0
    case Some(b) =>
      IsBest(os, n, b.index, assess) && os[b.index] == Heard(b.text, b.language)
      && b.temperatureTenths == temps[b.index]
      && b.score == assess(b.text).score && b.repeated == assess(b.text).repeated
  }

  /** The kept score is the running maximum. */
  lemma BestOKScore(temps: seq<int>, os: seq<CallOutcome>, n: nat, assess: string -> Assessment,
                    best: Option<BestAttempt>)
    requires n <= |os| == |temps| && BestOK(temps, os, n, assess, best)
    ensures ScoreOf(best) == BestScore(os, n, assess)
    ensures best.None? <==> BestScore(os, n, assess) == 0.0
  {
    var m := BestScore(os, n, assess);
    if best.Some? {
      var b := best.value;
      assert Score(os[b.index], assess) == b.score;
      assert b.score <= m;
      if m != 0.0 {
        var k :| 0 <= k < n && Score(os[k], assess) == m;
        assert Score(os[k], assess) <= b.score;
      }
    }
  }

  /** The best attempt after one more, as the loop body updates it. */
  function NextBest(best: Option<BestAttempt>, n: nat, o: CallOutcome, temp: int,
                    assess: string -> Assessment): Option<BestAttempt>
  {
    if o.Heard? && assess(o.text).score > ScoreOf(best)
    then Some(BestAttempt(n, o.text, o.language, temp, assess(o.text).score, assess(o.text).repeated))
    else best
  }

  /** Recording attempt `n` keeps `BestOK`. */
  lemma NextBestOK(temps: seq<int>, os: seq<CallOutcome>, n: nat, assess: string -> Assessment,
                   best: Option<BestAttempt>)
    requires n < |os| == |temps| && BestOK(temps, os, n, assess, best)
    ensures BestOK(temps, os, n + 1, assess, NextBest(best, n, os[n], temps[n], assess))
  {
    var o := os[n];
    if o.Heard? && assess(o.text).score > ScoreOf(best) {
      assert forall j :: 0 <= j < n ==> Score(os[j], assess) <= ScoreOf(best);
      assert IsBest(os, n + 1, n, assess);
    } else if best.Some? {
      IsBestExtends(os, n, best.value.index, assess);
    }
  }

  lemma IsBestExtends(os: seq<CallOutcome>, n: nat, b: nat, assess: string -> Assessment)
    requires n < |os| && IsBest(os, n, b, assess) && Score(os[n], assess) <= Score(os[b], assess)
    ensures IsBest(os, n + 1, b, assess)
  {
  }

  /** The body of the `for temp in temperatures_to_try` loop for attempt `i`, which the recogniser
      answered with `outcome`: track the best result, report whether to stop, and otherwise
      add the attempt's warning. */
  method RecordAttempt(temps: seq<int>, ghost os: seq<CallOutcome>, assess: string -> Assessment, i: nat,
                       outcome: CallOutcome, best: Option<BestAttempt>, bestScore: real, warnings: seq<Warning>)
    returns (best': Option<BestAttempt>, bestScore': real, warnings': seq<Warning>, accepted: bool)
    requires i < |os| == |temps| && outcome == os[i]
    requires BestOK(temps, os, i, assess, best) && bestScore == ScoreOf(best)
    requires warnings == LoopWarnings(os, temps, i, assess)
    ensures BestOK(temps, os, i + 1, assess, best') && bestScore' == ScoreOf(best')
    ensures accepted == Accepted(os[i], assess)
    ensures warnings' == LoopWarnings(os, temps, i + 1, assess)
  {
    NextBestOK(temps, os, i, assess, best);
    best', bestScore', warnings', accepted := best, bestScore, warnings, false;
    var temp := temps[i];
    match outcome {
      case NoResponse =>
      case CallFailed(message) =>
        warnings' := warnings + [ApiErrorAt(temp, Prefix(message, 50))];
      case Heard(transcript, language) =>
        var a := assess(transcript);
        if a.score > bestScore {
          bestScore' := a.score;
          best' := Some(BestAttempt(i, transcript, language, temp, a.score, a.repeated));
        }
        if a.score >= AcceptScore && !a.repeated {
          accepted := true;
        } else if a.repeated {
          warnings' := warnings + [RepetitionAt(temp)];
        }
    }
  }

  /** The `for temp in temperatures_to_try` loop: attempts are made in order, the best one is
      kept, and the loop stops right after the first accepted one. */
  method TryTemperatures(temps: seq<int>, recognize: (nat, int) -> CallOutcome, assess: string -> Assessment)
    returns (best: Option<BestAttempt>, bestScore: real, attempts: nat, warnings: seq<Warning>)
    ensures attempts <= |temps|
    ensures BestOK(temps, Outcomes(recognize, temps), attempts, assess, best)
    ensures bestScore == ScoreOf(best) == BestScore(Outcomes(recognize, temps), attempts, assess)
    ensures best.None? <==> bestScore == 0.0
    ensures warnings == LoopWarnings(Outcomes(recognize, temps), temps, attempts, assess)
    ensures forall j :: 0 <= j < attempts - 1 ==> !Accepted(Outcomes(recognize, temps)[j], assess)
    ensures attempts < |temps| ==> 0 < attempts && Accepted(Outcomes(recognize, temps)[attempts - 1], assess)
  {
    ghost var os := Outcomes(recognize, temps);
    best, bestScore, attempts, warnings := None, 0.0, 0, [];
    while attempts < |temps|
      invariant attempts <= |temps|
      invariant BestOK(temps, os, attempts, assess, best) && bestScore == ScoreOf(best)
      invariant warnings == LoopWarnings(os, temps, attempts, assess)
      invariant forall j :: 0 <= j < attempts ==> !Accepted(os[j], assess)
    {
      var i := attempts;
      attempts := attempts + 1;
      var outcome := recognize(i, temps[i]);
      var accepted;
      best, bestScore, warnings, accepted := RecordAttempt(temps, os, assess, i, outcome, best, bestScore, warnings);
      if accepted {
        break;
      }
    }
    BestOKScore(temps, os, attempts, assess, best);
  }

  /** What the recogniser answers, attempt by attempt, for a given `max_retries`. */
  function Attempted(recognize: (nat, int) -> CallOutcome, maxRetries: int): (os: seq<CallOutcome>)
    ensures |os| == |TemperaturesToTry(maxRetries)| <= 5
  {
    Outcomes(recognize, TemperaturesToTry(maxRetries))
  }

  /** A recorded best attempt `b` as `TranscriptionResult` reports it: its transcript, language and
      temperature, graded by its score and whether it repeats, after the level warnings. */
  ghost predicate ReportsBest(temps: seq<int>, os: seq<CallOutcome>, assess: string -> Assessment,
                              prepWarnings: seq<Warning>, res: TranscriptionResult, b: nat)
    requires res.attempts <= |os| == |temps|
  {
    IsBest(os, res.attempts, b, assess)
    && res.transcript.Some? && os[b] == Heard(res.transcript.value, res.language)
    && res.temperatureTenths == temps[b]
    && res.quality == Level(res.confidence, assess(os[b].text).repeated)
    && res.warnings == prepWarnings + LoopWarnings(os, temps, res.attempts, assess)
                       + LevelWarnings(res.quality, assess(os[b].text).repeated)
  }

  /** What steps 2 and 3 of `transcribe` report after trying `temps`, which the recogniser
      answers with `os`. */
  ghost predicate Reported(temps: seq<int>, os: seq<CallOutcome>, assess: string -> Assessment,
                           prepWarnings: seq<Warning>, duration: real, res: TranscriptionResult)
    requires |os| == |temps|
  {
    res.attempts <= |os| && res.durationSeconds == duration
    // No attempt before the last was good enough; stopping early means the last one was.
    && (forall j :: 0 <= j < res.attempts - 1 ==> !Accepted(os[j], assess))
    && (res.attempts < |os| ==> 0 < res.attempts && Accepted(os[res.attempts - 1], assess))
    && res.confidence == BestScore(os, res.attempts, assess)
    // Failure means that no attempt produced a transcript scoring above zero.
    && (res.quality == Failed <==> forall j :: 0 <= j < res.attempts ==> Score(os[j], assess) == 0.0)
    && (res.quality == Failed ==>
          res == TranscriptionResult(None, None, Failed, 0.0, duration, 0, res.attempts,
                                     prepWarnings + LoopWarnings(os, temps, res.attempts, assess),
                                     Some("All transcription attempts failed")))
    // Otherwise the reported transcript is the first best-scoring one.
    && (res.quality != Failed ==>
          res.error == None && exists b: nat :: ReportsBest(temps, os, assess, prepWarnings, res, b))
  }

  /** Steps 2 and 3 of `transcribe`: the retries, then the grading of the best attempt. */
  method RetryAndGrade(temps: seq<int>, recognize: (nat, int) -> CallOutcome, assess: string -> Assessment,
                       prepWarnings: seq<Warning>, duration: real)
    returns (res: TranscriptionResult)
    requires forall t :: 0.0 <= assess(t).score <= 1.0
    ensures Reported(temps, Outcomes(recognize, temps), assess, prepWarnings, duration, res)
    ensures res.Success() <==> res.quality != Failed
    ensures res.Success() <==> res.transcript.Some?
    ensures 0.0 <= res.confidence <= 1.0
    ensures res.Success() ==> 0.0 < res.confidence
  {
    var best, bestScore, attempts, loopWarnings := TryTemperatures(temps, recognize, assess);
    ghost var os := Outcomes(recognize, temps);
    var warnings := prepWarnings + loopWarnings;
    if best.None? {
      return TranscriptionResult(None, None, Failed, 0.0, duration, 0, attempts, warnings,
                                 Some("All transcription attempts failed"));
    }
    var b := best.value;
    var quality := Level(bestScore, b.repeated);
    warnings := warnings + LevelWarnings(quality, b.repeated);
    res := TranscriptionResult(Some(b.text), b.language, quality, bestScore, duration,
                               b.temperatureTenths, attempts, warnings, None);
    assert ReportsBest(temps, os, assess, prepWarnings, res, b.index);
  }

  /** What `transcribe` reports for an audio file: a missing file raises inside the outer
      handler, which reports a failed result; otherwise the attempts are graded as `Reported`
      describes. */
  ghost predicate Produced(audioPath: string, file: AudioPreprocessor.SourceFile, exportSucceeds: bool,
                           processedMs: Option<nat>, maxRetries: int,
                           recognize: (nat, int) -> CallOutcome, res: TranscriptionResult)
  {
    (!file.present ==>
       res == TranscriptionResult(None, None, Failed, 0.0, 0.0, 0, 0, [],
                                  Some("Audio file not found: " + audioPath)))
    && (file.present ==>
          Reported(TemperaturesToTry(maxRetries), Attempted(recognize, maxRetries), Assess,
                   PrepWarnings(audioPath, file, exportSucceeds),
                   Duration(PreparedAudio(audioPath, file), processedMs), res))
  }

  /** `transcribe(audio_path, language, max_retries)`. The file system, the decoder, the export and
      the recogniser are inputs; `processedMs` is the duration read back from the file to be sent,
      None when it cannot be read. */
  method Transcribe(audioPath: string, file: AudioPreprocessor.SourceFile, tempPath: string,
                    exportSucceeds: bool, processedMs: Option<nat>, maxRetries: int,
                    recognize: (nat, int) -> CallOutcome)
    returns (res: TranscriptionResult)
    ensures Produced(audioPath, file, exportSucceeds, processedMs, maxRetries, recognize, res)
    ensures res.Success() <==> res.quality != Failed
    ensures res.Success() <==> res.transcript.Some?
    ensures 0.0 <= res.confidence <= 1.0
    ensures res.Success() ==> 0.0 < res.confidence
  {
    var prep := AudioPreprocessor.PrepareAudio(audioPath, file, None, tempPath, exportSucceeds);
    if prep.Err? {
      return TranscriptionResult(None, None, Failed, 0.0, 0.0, 0, 0, [], Some(prep.error));
    }
    var meta := prep.value.meta;
    var warnings: seq<Warning> := [];
    if meta.wasProcessed {
      warnings := warnings + [Preprocessed(meta.steps)];
    }
    assert warnings == PrepWarnings(audioPath, file, exportSucceeds);
    var duration := Duration(meta.audio, processedMs);
    res := RetryAndGrade(TemperaturesToTry(maxRetries), recognize, Assess, warnings, duration);
  }
}
