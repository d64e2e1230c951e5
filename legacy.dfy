/**
 * The legacy transcriber (`WhisperTranscriber` in app/services/whisper_transcriber.py):
 * a temperature chosen from the audio's duration, at most three recogniser calls
 * with exponential backoff, a temperature bump after a transcript with quality
 * issues, a confidence derived from the segments' log-probabilities, and a
 * quality check of its own.
 *
 * The recogniser is an oracle taking the attempt index and the temperature (in
 * tenths) and either answering or raising. Waiting is not performed; the wait
 * times are returned instead.
 */
module WhisperTranscriber {
  import opened Wrappers
  import opened PyStr
  import RepetitionDetector

  /** `self.max_retries` */
  const MaxRetries: nat := 3
  /** `self.base_retry_delay`, in seconds. */
  const BaseRetryDelay: nat := 2

  // ---------------------------------------------------------------------
  // Request parameters.

  /** `_determine_temperature`, in tenths: 0.0 below 30 s, 0.2 below 300 s, 0.3 otherwise. */
  function DetermineTemperature(durationSeconds: real): (t: int)
    ensures t == 0 <==> durationSeconds < 30.0
    ensures t == 2 <==> 30.0 <= durationSeconds < 300.0
    ensures t == 3 <==> 300.0 <= durationSeconds
  {
    if durationSeconds < 30.0 then 0
    else if durationSeconds < 300.0 then 2
    else 3
  }

  /** Longer audio never gets a lower temperature. */
  lemma TemperatureMonotone(shorter: real, longer: real)
    requires shorter <= longer
    ensures DetermineTemperature(shorter) <= DetermineTemperature(longer)
  {
  }

  /** The request parameters; there is no language and no prompt field, so neither is ever sent. */
  datatype Request = Request(model: string, responseFormat: string, temperatureTenths: int)

  /** `_build_whisper_request(audio_metadata)`; `durationSeconds` is the metadata's
      `duration_seconds` entry, None when it is missing. */
  function BuildRequest(durationSeconds: Option<real>): (req: Request)
    ensures req.model == "whisper-1" && req.responseFormat == "verbose_json"
    ensures req.temperatureTenths in {0, 2, 3}
    ensures durationSeconds.None? ==> req.temperatureTenths == 0
    ensures durationSeconds.Some? ==> req.temperatureTenths == DetermineTemperature(durationSeconds.value)
  {
    Request("whisper-1", "verbose_json", DetermineTemperature(durationSeconds.GetOr(0.0)))
  }

  // ---------------------------------------------------------------------
  // Confidence.

  /** A response segment; `avgLogprob` is None when the segment has no `avg_logprob` attribute. */
  datatype Segment = Segment(avgLogprob: Option<real>)

  /** The `avg_logprob` values of the segments that have one, in order. */
  function LogProbs(segments: seq<Segment>): (ps: seq<real>)
    ensures |ps| <= |segments|
    ensures forall x :: x in ps ==> exists k :: 0 <= k < |segments| && segments[k].avgLogprob == Some(x)
  {
    if segments == [] then []
    else
      var last := segments[|segments| - 1];
      LogProbs(segments[..|segments| - 1]) + (if last.avgLogprob.Some? then [last.avgLogprob.value] else [])
  }

  function Sum(xs: seq<real>): real {
    if xs == [] then 0.0 else Sum(xs[..|xs| - 1]) + xs[|xs| - 1]
  }

  /** `_calculate_confidence`: 0.5 when no segment carries a log-probability, otherwise the mean
      log-probability plus one, clamped to [0, 1]. */
  function Confidence(segments: seq<Segment>): (c: real)
    ensures 0.0 <= c <= 1.0
    ensures LogProbs(segments) == [] ==> c == 0.5
  {
    var ps := LogProbs(segments);
    if ps == [] then 0.5 else RepetitionDetector.Clamp01(Sum(ps) / |ps| as real + 1.0)
  }

  /** An upper bound on every element bounds the sum. */
  lemma {:induction false} SumAtMost(xs: seq<real>, hi: real)
    requires forall x :: x in xs ==> x <= hi
    ensures Sum(xs) <= |xs| as real * hi
  {
    if xs != [] {
      var init := xs[..|xs| - 1];
      assert forall x :: x in init ==> x in xs;
      SumAtMost(init, hi);
      assert xs[|xs| - 1] in xs;
    }
  }

  /** A lower bound on every element bounds the sum. */
  lemma {:induction false} SumAtLeast(xs: seq<real>, lo: real)
    requires forall x :: x in xs ==> lo <= x
    ensures |xs| as real * lo <= Sum(xs)
  {
    if xs != [] {
      var init := xs[..|xs| - 1];
      assert forall x :: x in init ==> x in xs;
      SumAtLeast(init, lo);
      assert xs[|xs| - 1] in xs;
    }
  }

  /** A sum of `n` values at most −1 has a mean at most −1. */
  lemma MeanAtMostMinusOne(s: real, n: real)
    requires n > 0.0 && s <= -n
    ensures s / n <= -1.0
  {
    assert s / n * n == s;
  }

  /** A non-negative sum has a non-negative mean. */
  lemma MeanNonNegative(s: real, n: real)
    requires n > 0.0 && 0.0 <= s
    ensures 0.0 <= s / n
  {
    assert s / n * n == s;
  }

  /** Segments all at log-probability −1 or below give confidence 0; all at 0 or above give 1. */
  lemma ConfidenceExtremes(segments: seq<Segment>)
    requires LogProbs(segments) != []
    ensures (forall x :: x in LogProbs(segments) ==> x <= -1.0) ==> Confidence(segments) == 0.0
    ensures (forall x :: x in LogProbs(segments) ==> x >= 0.0) ==> Confidence(segments) == 1.0
  {
    var ps := LogProbs(segments);
    var n := |ps| as real;
    assert n > 0.0;
    var mean := Sum(ps) / n;
    assert Confidence(segments) == RepetitionDetector.Clamp01(mean + 1.0);
    if forall x :: x in ps ==> x <= -1.0 {
      SumAtMost(ps, -1.0);
      MeanAtMostMinusOne(Sum(ps), n);
    }
    if forall x :: x in ps ==> x >= 0.0 {
      SumAtLeast(ps, 0.0);
      MeanNonNegative(Sum(ps), n);
    }
  }

  /** `_calculate_confidence(response)`, given the response's segments (`[]` when it has none). */
  method CalculateConfidence(segments: seq<Segment>) returns (c: real)
    ensures c == Confidence(segments)
  {
    if |segments| == 0 {
      return 0.5;
    }
    var confidences: seq<real> := [];
    var i := 0;
    while i < |segments|
      invariant i <= |segments|
      invariant confidences == LogProbs(segments[..i])
    {
      assert segments[..i + 1][..i] == segments[..i];
      if segments[i].avgLogprob.Some? {
        confidences := confidences + [segments[i].avgLogprob.value];
      }
      i := i + 1;
    }
    assert segments[..i] == segments;
    if |confidences| > 0 {
      var avgConfidence := Sum(confidences) / |confidences| as real;
      c := RepetitionDetector.Clamp01(avgConfidence + 1.0);
    } else {
      c := 0.5;
    }
  }

  // ---------------------------------------------------------------------
  // Quality issues.

  /** `min(len(words) - 6, 50)`, the exclusive bound on phrase starts. */
  function PhraseBound(words: seq<string>): int {
    if |words| - 6 < 50 then |words| - 6 else 50
  }

  /** The three-word phrase at `i` occurs three or more times, non-overlapping, in the joined
      text of the words after it. */
  predicate TriRepeatsAt(words: seq<string>, i: nat)
    requires i + 3 <= |words|
  {
    Count(RepetitionDetector.Rest(words, 3, i), RepetitionDetector.Phrase(words, 3, i)) >= 3
  }

  /** Some phrase start below the bound repeats. */
  predicate PhraseRepeats(words: seq<string>) {
    exists i: nat :: i < PhraseBound(words) && TriRepeatsAt(words, i)
  }

  /** How many of the words are `k` once lower-cased. */
  function CountLowered(words: seq<string>, k: string): nat {
    if words == [] then 0
    else CountLowered(words[..|words| - 1], k) + (if Lower(words[|words| - 1]) == k then 1 else 0)
  }

  /** The `word_freq` dictionary after counting `words` in order. */
  function Tally(words: seq<string>): map<string, nat> {
    if words == [] then map[]
    else
      var m := Tally(words[..|words| - 1]);
      var w := Lower(words[|words| - 1]);
      m[w := (if w in m then m[w] else 0) + 1]
  }

  /** `word_freq` maps each lower-cased word that occurs to its number of occurrences. */
  lemma {:induction false} TallyCounts(words: seq<string>, k: string)
    ensures k in Tally(words) <==> CountLowered(words, k) > 0
    ensures k in Tally(words) ==> Tally(words)[k] == CountLowered(words, k)
  {
    if words != [] {
      TallyCounts(words[..|words| - 1], k);
    }
  }

  lemma {:induction false} CountLoweredFirst(words: seq<string>)
    requires words != []
    ensures CountLowered(words, Lower(words[0])) > 0
  {
    if |words| > 1 {
      CountLoweredFirst(words[..|words| - 1]);
    }
  }

  /** The most frequent lower-cased word makes up more than 10% of the words and occurs more
      than 5 times. */
  predicate WordDominates(words: seq<string>) {
    exists k :: k in Tally(words) && 10 * Tally(words)[k] > |words| && Tally(words)[k] > 5
  }

  /** `_has_quality_issues`: near-empty text always has issues; fewer than ten words never do;
      otherwise a repeating three-word phrase or a dominating word is an issue. */
  predicate QualityIssues(text: string) {
    var words := Split(text);
    |Strip(text)| < 10 || (|words| >= 10 && (PhraseRepeats(words) || WordDominates(words)))
  }

  /** `_has_quality_issues(text)` */
  method HasQualityIssues(text: string) returns (issues: bool)
    ensures issues == QualityIssues(text)
  {
    if |text| == 0 || |Strip(text)| < 10 {
      return true;
    }
    var words := Split(text);
    if |words| < 10 {
      return false;
    }
    var repeated := FindRepeatedPhrase(words);
    if repeated {
      return true;
    }
    var wordFreq := CountWords(words);
    var maxFreq := MaxValue(wordFreq);
    issues := 10 * maxFreq > |words| && maxFreq > 5;
    if issues {
      var k :| k in wordFreq && wordFreq[k] == maxFreq;
      assert WordDominates(words);
    }
  }

  /** The phrase loop of `_has_quality_issues`: `for i in range(min(len(words) - 6, 50))`. */
  method FindRepeatedPhrase(words: seq<string>) returns (found: bool)
    ensures found == PhraseRepeats(words)
  {
    var bound := PhraseBound(words);
    var i := 0;
    while i < bound
      invariant 0 <= i
      invariant bound > 0 ==> i <= bound
      invariant forall j: nat :: j < i ==> j < bound && !TriRepeatsAt(words, j)
    {
      var phrase := Join(words[i..i + 3]);
      var rest := Join(words[i + 3..]);
      var occurrences := Count(rest, phrase);
      if occurrences >= 3 {
        assert TriRepeatsAt(words, i);
        return true;
      }
      i := i + 1;
    }
    return false;
  }

  /** The `word_freq` loop of `_has_quality_issues`. */
  method CountWords(words: seq<string>) returns (wordFreq: map<string, nat>)
    ensures wordFreq == Tally(words)
    ensures words != [] ==> wordFreq != map[]
  {
    wordFreq := map[];
    var n := 0;
    while n < |words|
      invariant n <= |words|
      invariant wordFreq == Tally(words[..n])
    {
      assert words[..n + 1][..n] == words[..n];
      var wordLower := Lower(words[n]);
      wordFreq := wordFreq[wordLower := (if wordLower in wordFreq then wordFreq[wordLower] else 0) + 1];
      n := n + 1;
    }
    assert words[..n] == words;
    if words != [] {
      TallyCounts(words, Lower(words[0]));
      CountLoweredFirst(words);
    }
  }

  /** `max(word_freq.values())`, going through the keys one at a time. The map is never empty
      where it is called, and Python's `max` would raise on an empty one. */
  method MaxValue(m: map<string, nat>) returns (top: nat)
    requires m != map[]
    ensures top in m.Values
    ensures forall k :: k in m ==> m[k] <= top
  {
    var first :| first in m;
    top := m[first];
    var left := m.Keys - {first};
    while left != {}
      invariant left <= m.Keys
      invariant top in m.Values
      invariant forall k :: k in m.Keys - left ==> m[k] <= top
      decreases |left|
    {
      var k :| k in left;
      if m[k] > top {
        top := m[k];
      }
      left := left - {k};
    }
  }

  // ---------------------------------------------------------------------
  // The retry loop.

  /** The parts of a recogniser response the transcriber reads; missing attributes are None
      (for `segments`, the empty list). */
  datatype Response = Response(text: string, language: Option<string>, duration: Option<real>,
                               segments: seq<Segment>)

  /** One call: a response, or an exception with its message. */
  datatype Attempt = Answered(response: Response) | Raised(message: string)

  /** The dictionary `transcribe` returns. */
  datatype Transcript = Transcript(text: string, language: string, durationSeconds: real,
                                   segments: seq<Segment>, confidence: real, attempts: nat,
                                   temperatureTenths: int)

  /** `min(temperature + 0.2, 1.0)`, in tenths. */
  function Bumped(t: int): (u: int)
    ensures u <= 10 && (t < 8 ==> u == t + 2) && (t >= 8 ==> u == 10)
  {
    if t + 2 < 10 then t + 2 else 10
  }

  function Pow2(k: nat): (p: nat)
    ensures p >= 1
  {
    if k == 0 then 1 else 2 * Pow2(k - 1)
  }

  /** The wait before retrying after attempt `k`: `base_retry_delay * 2 ** k` seconds. */
  function Backoff(k: nat): nat {
    BaseRetryDelay * Pow2(k)
  }

  /** The temperature of attempt `k` when the first call is made at `t0` and transcripts are
      judged by `hasIssues`: raised after every answered attempt whose transcript has quality
      issues, unchanged after an exception. */
  ghost function TemperatureAt(api: (nat, int) -> Attempt, hasIssues: string -> bool, t0: int, k: nat): int {
    if k == 0 then t0
    else
      var t := TemperatureAt(api, hasIssues, t0, k - 1);
      match api(k - 1, t)
      case Answered(resp) => if hasIssues(resp.text) then Bumped(t) else t
      case Raised(_) => t
  }

  /** Attempt `k` led to another attempt: it raised, or its transcript had quality issues. */
  ghost predicate Retried(api: (nat, int) -> Attempt, hasIssues: string -> bool, t0: int, k: nat) {
    match api(k, TemperatureAt(api, hasIssues, t0, k))
    case Answered(resp) => hasIssues(resp.text)
    case Raised(_) => true
  }

  /** The temperature only rises, by 0.2 per retry, and never beyond 1.0. */
  lemma {:induction false} TemperatureAtBounds(api: (nat, int) -> Attempt, hasIssues: string -> bool, t0: int, k: nat)
    requires 0 <= t0 <= 10
    ensures t0 <= TemperatureAt(api, hasIssues, t0, k) <= 10
    ensures TemperatureAt(api, hasIssues, t0, k) <= t0 + 2 * k
  {
    if k > 0 {
      TemperatureAtBounds(api, hasIssues, t0, k - 1);
    }
  }

  /** The dictionary built from an accepted response on attempt number `attempts` (counted
      from 1) at temperature `t`: missing language and duration fall back to "unknown" and to
      the metadata's duration. */
  function TranscriptOf(resp: Response, durationSeconds: Option<real>, attempts: nat, t: int): (tr: Transcript)
    ensures tr.text == resp.text && tr.segments == resp.segments && tr.confidence == Confidence(resp.segments)
    ensures tr.language == resp.language.GetOr("unknown")
    ensures tr.durationSeconds == resp.duration.GetOr(durationSeconds.GetOr(0.0))
    ensures tr.attempts == attempts && tr.temperatureTenths == t
  {
    Transcript(resp.text, resp.language.GetOr("unknown"), resp.duration.GetOr(durationSeconds.GetOr(0.0)),
               resp.segments, Confidence(resp.segments), attempts, t)
  }

  /** What `transcribe` returns after starting at temperature `t0`, for a quality check
      `hasIssues`: the first answer without issues, or the third answer whatever its quality, or
      the failure after three exceptions. `waits` lists the backoff sleeps in order. */
  ghost predicate Outcome(api: (nat, int) -> Attempt, hasIssues: string -> bool, t0: int,
                          durationSeconds: Option<real>, r: Result<Transcript, string>, waits: seq<nat>)
  {
    (r.Ok? ==>
       1 <= r.value.attempts <= MaxRetries
       && var k := r.value.attempts - 1;
       var t := TemperatureAt(api, hasIssues, t0, k);
       (forall j :: 0 <= j < k ==> Retried(api, hasIssues, t0, j))
       && api(k, t).Answered? && (k < MaxRetries - 1 ==> !hasIssues(api(k, t).response.text))
       && r.value == TranscriptOf(api(k, t).response, durationSeconds, k + 1, t))
    && (r.Err? ==>
          (forall j :: 0 <= j < MaxRetries - 1 ==> Retried(api, hasIssues, t0, j))
          && api(MaxRetries - 1, TemperatureAt(api, hasIssues, t0, MaxRetries - 1)).Raised?
          && r.error == "Whisper API failed after 3 attempts: "
                        + api(MaxRetries - 1, TemperatureAt(api, hasIssues, t0, MaxRetries - 1)).message)
    && |waits| == (if r.Ok? then r.value.attempts - 1 else MaxRetries - 1)
    && (forall j :: 0 <= j < |waits| ==> waits[j] == Backoff(j))
  }

  /** Accepting the answer of attempt `k` ends `transcribe` as its outcome says. */
  lemma AcceptedOutcome(api: (nat, int) -> Attempt, hasIssues: string -> bool, t0: int,
                        durationSeconds: Option<real>, k: nat, waits: seq<nat>)
    requires k < MaxRetries
    requires forall j :: 0 <= j < k ==> Retried(api, hasIssues, t0, j)
    requires api(k, TemperatureAt(api, hasIssues, t0, k)).Answered?
    requires k < MaxRetries - 1 ==> !hasIssues(api(k, TemperatureAt(api, hasIssues, t0, k)).response.text)
    requires |waits| == k && forall j :: 0 <= j < k ==> waits[j] == Backoff(j)
    ensures var t := TemperatureAt(api, hasIssues, t0, k);
            Outcome(api, hasIssues, t0, durationSeconds, Ok(TranscriptOf(api(k, t).response, durationSeconds, k + 1, t)),
                    waits)
  {
  }

  /** An exception on the last attempt ends `transcribe` as its outcome says. */
  lemma FailedOutcome(api: (nat, int) -> Attempt, hasIssues: string -> bool, t0: int,
                      durationSeconds: Option<real>, waits: seq<nat>)
    requires forall j :: 0 <= j < MaxRetries - 1 ==> Retried(api, hasIssues, t0, j)
    requires api(MaxRetries - 1, TemperatureAt(api, hasIssues, t0, MaxRetries - 1)).Raised?
    requires |waits| == MaxRetries - 1 && forall j :: 0 <= j < MaxRetries - 1 ==> waits[j] == Backoff(j)
    ensures Outcome(api, hasIssues, t0, durationSeconds,
                    Err("Whisper API failed after 3 attempts: "
                        + api(MaxRetries - 1, TemperatureAt(api, hasIssues, t0, MaxRetries - 1)).message), waits)
  {
  }

  /** `transcribe(audio_file_path, audio_metadata)`; `durationSeconds` is the metadata's
      `duration_seconds` entry. */
  method Transcribe(durationSeconds: Option<real>, api: (nat, int) -> Attempt)
    returns (r: Result<Transcript, string>, waits: seq<nat>)
    ensures Outcome(api, QualityIssues, BuildRequest(durationSeconds).temperatureTenths, durationSeconds, r, waits)
    ensures r.Ok? ==> 1 <= r.value.attempts <= MaxRetries && 0.0 <= r.value.confidence <= 1.0
                      && BuildRequest(durationSeconds).temperatureTenths <= r.value.temperatureTenths
                      && r.value.temperatureTenths <= BuildRequest(durationSeconds).temperatureTenths + 4
    ensures |waits| <= MaxRetries - 1
  {
    var requestParams := BuildRequest(durationSeconds);
    r, waits := Retry(requestParams.temperatureTenths, durationSeconds, api, QualityIssues);
    OutcomeBounds(api, QualityIssues, requestParams.temperatureTenths, durationSeconds, r, waits);
  }

  /** Any outcome takes at most three attempts and two waits, reports a confidence in [0, 1],
      and ends at most two raises above the starting temperature. */
  lemma OutcomeBounds(api: (nat, int) -> Attempt, hasIssues: string -> bool, t0: int,
                      durationSeconds: Option<real>, r: Result<Transcript, string>, waits: seq<nat>)
    requires 0 <= t0 <= 10
    requires Outcome(api, hasIssues, t0, durationSeconds, r, waits)
    ensures r.Ok? ==> 1 <= r.value.attempts <= MaxRetries && 0.0 <= r.value.confidence <= 1.0
                      && t0 <= r.value.temperatureTenths <= t0 + 4
    ensures |waits| <= MaxRetries - 1
  {
    if r.Ok? {
      TemperatureAtBounds(api, hasIssues, t0, r.value.attempts - 1);
    }
  }

  /** The `for attempt in range(self.max_retries)` loop, for the quality check `hasIssues`
      (`_has_quality_issues`, whose loops `HasQualityIssues` carries out). */
  method Retry(t0: int, durationSeconds: Option<real>, api: (nat, int) -> Attempt, hasIssues: string -> bool)
    returns (r: Result<Transcript, string>, waits: seq<nat>)
    ensures Outcome(api, hasIssues, t0, durationSeconds, r, waits)
  {
    var temperature := t0;
    waits := [];
    var attempt: nat := 0;
    while attempt < MaxRetries
      invariant attempt < MaxRetries
      invariant temperature == TemperatureAt(api, hasIssues, t0, attempt)
      invariant forall j :: 0 <= j < attempt ==> Retried(api, hasIssues, t0, j)
      invariant |waits| == attempt && forall j :: 0 <= j < attempt ==> waits[j] == Backoff(j)
      decreases MaxRetries - attempt
    {
      match api(attempt, temperature) {
        case Answered(response) =>
          var confidence := CalculateConfidence(response.segments);
          if hasIssues(response.text) && attempt < MaxRetries - 1 {
            temperature := Bumped(temperature);
            waits := waits + [Backoff(attempt)];
            attempt := attempt + 1;
            continue;
          }
          AcceptedOutcome(api, hasIssues, t0, durationSeconds, attempt, waits);
          return Ok(Transcript(response.text, response.language.GetOr("unknown"),
                               response.duration.GetOr(durationSeconds.GetOr(0.0)),
                               response.segments, confidence, attempt + 1, temperature)), waits;
        case Raised(message) =>
          if attempt < MaxRetries - 1 {
            waits := waits + [Backoff(attempt)];
          } else {
            FailedOutcome(api, hasIssues, t0, durationSeconds, waits);
            return Err("Whisper API failed after 3 attempts: " + message), waits;
          }
      }
      attempt := attempt + 1;
    }
    assert false;
  }
}
