/**
 * The repetition detector and quality score of the production transcription
 * service (`RepetitionDetector` in app/services/production_whisper_service.py).
 *
 * Whisper sometimes gets stuck and repeats a phrase; `Detect` looks for that
 * with three string heuristics tried in a fixed order, and `QualityScore`
 * turns the verdict, the vocabulary diversity and the share of unusual
 * characters into a score in [0, 1].
 */
module RepetitionDetector {
  import opened Wrappers
  import opened PyStr

  /** `(has_repetition, repeated_phrase)` of the source: `Clean` is `(False, None)`. */
  datatype Detection = Clean | Repeated(phrase: string)

  /** Texts shorter than this are never flagged. */
  const MinTextLength: nat := 50
  /** Texts with fewer words than this are never flagged. */
  const MinWords: nat := 12
  /** The n-gram sizes, in the order they are tried. */
  const NgramOrders: seq<nat> := [4, 3, 5]
  /** The prefix lengths of the last 50 characters tried by the ending heuristic. */
  const EndingLengths: seq<nat> := [30, 40, 50]

  // ---------------------------------------------------------------------
  // Strategy 1: an n-word phrase that occurs at least twice more after itself.

  /** `' '.join(words[i:i+n])` */
  function Phrase(words: seq<string>, n: nat, i: nat): string
    requires i + n <= |words|
  {
    Join(words[i..i + n])
  }

  /** `' '.join(words[i+n:])` */
  function Rest(words: seq<string>, n: nat, i: nat): string
    requires i + n <= |words|
  {
    Join(words[i + n..])
  }

  /** The phrase at `i` occurs two or more times, non-overlapping, in the joined text after it. */
  predicate NgramRepeatsAt(words: seq<string>, n: nat, i: nat)
    requires i + n <= |words|
  {
    Count(Rest(words, n, i), Phrase(words, n, i)) >= 2
  }

  /** `for i in range(len(words) - n*3)` from index `i` on: the first start that repeats. */
  function ScanNgram(words: seq<string>, n: nat, i: nat): (r: Option<nat>)
    ensures r.Some? ==> i <= r.value && r.value + 3 * n < |words| && NgramRepeatsAt(words, n, r.value)
    ensures r.Some? ==> forall k :: i <= k < r.value ==> !NgramRepeatsAt(words, n, k)
    ensures r.None? ==> forall k :: i <= k && k + 3 * n < |words| ==> !NgramRepeatsAt(words, n, k)
    decreases |words| - i
  {
    if i + 3 * n >= |words| then None
    else if NgramRepeatsAt(words, n, i) then Some(i)
    else ScanNgram(words, n, i + 1)
  }

  /** The outer `for n in [4, 3, 5]` loop: the first order with a repeating start, and that start. */
  function NgramHit(words: seq<string>, orders: seq<nat>): (r: Option<(nat, nat)>)
    ensures r.Some? ==> r.value.0 in orders && r.value.1 + 3 * r.value.0 < |words|
                        && NgramRepeatsAt(words, r.value.0, r.value.1)
  {
    if orders == [] then None
    else match ScanNgram(words, orders[0], 0)
      case Some(i) => Some((orders[0], i))
      case None => NgramHit(words, orders[1..])
  }

  /** The n-gram heuristic stays silent exactly when no start of any order repeats. */
  lemma {:induction false} NgramHitNoneIff(words: seq<string>, orders: seq<nat>)
    ensures NgramHit(words, orders).None? <==>
              forall j: nat, k: nat :: j < |orders| && k + 3 * orders[j] < |words|
                                  ==> !NgramRepeatsAt(words, orders[j], k)
  {
    if orders != [] {
      match ScanNgram(words, orders[0], 0)
      case Some(i) =>
        assert NgramRepeatsAt(words, orders[0], i);
      case None =>
        NgramHitNoneIff(words, orders[1..]);
        assert forall j :: 1 <= j < |orders| ==> orders[j] == orders[1..][j - 1];
    }
  }

  /** Reference definition: no phrase of any of the three orders repeats. */
  ghost predicate NoRepeatedNgram(words: seq<string>) {
    forall j: nat, k: nat :: j < |NgramOrders| && k + 3 * NgramOrders[j] < |words|
                   ==> !NgramRepeatsAt(words, NgramOrders[j], k)
  }

  // ---------------------------------------------------------------------
  // Strategy 2: a 15-character chunk of the last quarter that occurs three times.

  /** `int(len(text) * 0.75)`, which is exactly ⌊3·len/4⌋. */
  function TailStart(text: string): (k: nat)
    ensures k <= |text|
  {
    (3 * |text|) / 4
  }

  /** `text[int(len(text) * 0.75):]` */
  function LastQuarter(text: string): string {
    text[TailStart(text)..]
  }

  /** `min(len(last_quarter) - 30, 100)`, the exclusive bound on chunk offsets. */
  function TailBound(q: string): int {
    if |q| - 30 < 100 then |q| - 30 else 100
  }

  /** The 15-character chunk at offset `i` occurs three or more times in the last quarter. */
  predicate ChunkLoopsAt(q: string, i: nat)
    requires i + 15 <= |q|
  {
    Count(q, q[i..i + 15]) >= 3
  }

  /** `for i in range(0, min(len(q) - 30, 100), 5)` from offset `i` on. */
  function ScanTail(q: string, i: nat): (r: Option<nat>)
    requires i % 5 == 0
    ensures r.Some? ==> i <= r.value < TailBound(q) && r.value % 5 == 0 && ChunkLoopsAt(q, r.value)
    ensures r.Some? ==> forall k :: i <= k < r.value && k % 5 == 0 ==> !ChunkLoopsAt(q, k)
    ensures r.None? ==> forall k :: i <= k < TailBound(q) && k % 5 == 0 ==> !ChunkLoopsAt(q, k)
    decreases 100 - i
  {
    if i >= TailBound(q) then None
    else if ChunkLoopsAt(q, i) then Some(i)
    else FiveApart(i); ScanTail(q, i + 5)
  }

  /** No multiple of five lies strictly between two consecutive ones. */
  lemma FiveApart(i: nat)
    requires i % 5 == 0
    ensures (i + 1) % 5 != 0 && (i + 2) % 5 != 0 && (i + 3) % 5 != 0 && (i + 4) % 5 != 0
    ensures (i + 5) % 5 == 0
  {
  }

  /** The tail heuristic, which only runs when the last quarter is longer than 40 characters. */
  function TailHit(text: string): (r: Option<nat>)
    ensures r.Some? ==> |LastQuarter(text)| > 40 && r.value + 15 <= |LastQuarter(text)|
  {
    var q := LastQuarter(text);
    if |q| > 40 then ScanTail(q, 0) else None
  }

  /** Reference definition: some chunk offset 0, 5, 10, … below the bound loops. */
  ghost predicate TailLoops(text: string) {
    var q := LastQuarter(text);
    |q| > 40 && exists k :: 0 <= k < TailBound(q) && k % 5 == 0 && ChunkLoopsAt(q, k)
  }

  /** The tail heuristic stays silent exactly when no chunk loops. */
  lemma TailHitNoneIff(text: string)
    ensures TailHit(text).None? <==> !TailLoops(text)
  {
    var q := LastQuarter(text);
    if |q| > 40 {
      var r := ScanTail(q, 0);
      if r.Some? {
        assert ChunkLoopsAt(q, r.value);
      }
    }
  }

  // ---------------------------------------------------------------------
  // Strategy 3: the text ends with something it already said just before.

  /** `text[-50:]` */
  function LastFifty(text: string): string {
    SliceFrom(text, -50)
  }

  /** `text[-150:-50]` */
  function PrevHundred(text: string): string {
    Slice(text, -150, -50)
  }

  /** The `for length in [30, 40, 50]` loop: the first prefix of the last 50 characters found earlier. */
  function EndingHit(text: string, lengths: seq<nat>): (r: Option<nat>)
    requires |text| > 100
    requires forall j :: 0 <= j < |lengths| ==> lengths[j] <= 50
    ensures r.Some? ==> r.value in lengths && Contains(PrevHundred(text), LastFifty(text)[..r.value])
  {
    if lengths == [] then None
    else if Contains(PrevHundred(text), LastFifty(text)[..lengths[0]]) then Some(lengths[0])
    else EndingHit(text, lengths[1..])
  }

  /** Reference definition: the first 30 of the last 50 characters occur in the 100 before them. */
  ghost predicate EndingRepeats(text: string) {
    |text| > 100 && Contains(PrevHundred(text), LastFifty(text)[..30])
  }

  // ---------------------------------------------------------------------
  // The detector.

  /** `RepetitionDetector.detect` */
  function Detect(text: string): (d: Detection)
    ensures |text| < MinTextLength ==> d == Clean
    ensures |Split(text)| < MinWords ==> d == Clean
    ensures d.Repeated? ==> 0 < |d.phrase| <= 50
  {
    if |text| < MinTextLength then Clean
    else
      var words := Split(text);
      if |words| < MinWords then Clean
      else match NgramHit(words, NgramOrders)
        case Some(hit) =>
          var p := Phrase(words, hit.0, hit.1);
          assert |words[hit.1..hit.1 + hit.0][0]| <= |p|;
          Repeated(Prefix(p, 50))
        case None =>
          match TailHit(text)
          case Some(i) => Repeated(LastQuarter(text)[i..i + 15])
          case None =>
            if |text| <= 100 then Clean
            else match EndingHit(text, EndingLengths)
              case Some(len) => Repeated(Prefix(LastFifty(text)[..len], 30))
              case None => Clean
  }

  /** Only the first 30 characters matter to the ending heuristic: a longer prefix is found
      only if the 30-character one is, and the phrase reported is always those 30 characters. */
  lemma {:induction false} EndingDependsOnThirty(text: string)
    requires |text| > 100
    ensures EndingHit(text, EndingLengths).Some? <==> EndingRepeats(text)
    ensures EndingHit(text, EndingLengths).Some? ==>
              Prefix(LastFifty(text)[..EndingHit(text, EndingLengths).value], 30) == LastFifty(text)[..30]
              && |LastFifty(text)[..30]| == 30
  {
    var l := LastFifty(text);
    var h := EndingHit(text, EndingLengths);
    assert |l| == 50;
    if h.Some? {
      ContainsPrefix(PrevHundred(text), l[..h.value], 30);
      assert l[..h.value][..30] == l[..30];
    }
  }

  /** `Detect` is `Clean` exactly when the text is too short, has too few words, and none
      of the three heuristics fires. */
  lemma DetectCleanIff(text: string)
    ensures Detect(text) == Clean <==>
              |text| < MinTextLength || |Split(text)| < MinWords
              || (NoRepeatedNgram(Split(text)) && !TailLoops(text) && !EndingRepeats(text))
  {
    if |text| >= MinTextLength && |Split(text)| >= MinWords {
      NgramHitNoneIff(Split(text), NgramOrders);
      TailHitNoneIff(text);
      if |text| > 100 {
        EndingDependsOnThirty(text);
      }
    }
  }

  /** When the n-gram heuristic fires, the phrase reported is the first 50 characters of the
      first repeating phrase: orders in the sequence 4, 3, 5, and within an order the earliest start. */
  lemma NgramPhraseReported(text: string)
    requires |text| >= MinTextLength && |Split(text)| >= MinWords
    requires !NoRepeatedNgram(Split(text))
    ensures NgramHit(Split(text), NgramOrders).Some?
    ensures var hit := NgramHit(Split(text), NgramOrders).value;
            Detect(text) == Repeated(Prefix(Phrase(Split(text), hit.0, hit.1), 50))
  {
    NgramHitNoneIff(Split(text), NgramOrders);
  }

  /** The hit is the first one in the order of the loops: orders 4, 3, 5, and within an
      order the earliest start. */
  lemma NgramHitIsFirst(words: seq<string>)
    requires NgramHit(words, NgramOrders).Some?
    ensures var hit := NgramHit(words, NgramOrders).value;
            hit.0 in NgramOrders && NgramRepeatsAt(words, hit.0, hit.1)
            && (forall k: nat :: k < hit.1 ==> !NgramRepeatsAt(words, hit.0, k))
            && (hit.0 != 4 ==> forall k: nat :: k + 12 < |words| ==> !NgramRepeatsAt(words, 4, k))
            && (hit.0 == 5 ==> forall k: nat :: k + 9 < |words| ==> !NgramRepeatsAt(words, 3, k))
  {
    NgramHitUnfolded(words);
    var s4, s3 := ScanNgram(words, 4, 0), ScanNgram(words, 3, 0);
    if s4.Some? {
      assert NgramHit(words, NgramOrders).value == (4, s4.value);
    } else if s3.Some? {
      assert NgramHit(words, NgramOrders).value == (3, s3.value);
    } else {
      assert NgramHit(words, NgramOrders).value == (5, ScanNgram(words, 5, 0).value);
    }
  }

  /** The orders 4, 3, 5 tried one after the other. */
  lemma NgramHitUnfolded(words: seq<string>)
    ensures NgramHit(words, NgramOrders) ==
              if ScanNgram(words, 4, 0).Some? then Some((4, ScanNgram(words, 4, 0).value))
              else if ScanNgram(words, 3, 0).Some? then Some((3, ScanNgram(words, 3, 0).value))
              else if ScanNgram(words, 5, 0).Some? then Some((5, ScanNgram(words, 5, 0).value))
              else None
  {
    var s4, s3, s5 := ScanNgram(words, 4, 0), ScanNgram(words, 3, 0), ScanNgram(words, 5, 0);
    assert NgramOrders[1..] == [3, 5] && [3, 5][1..] == [5] && [5][1..] == [];
    assert NgramHit(words, [5]) == if s5.Some? then Some((5, s5.value)) else NgramHit(words, []);
    assert NgramHit(words, [3, 5]) == if s3.Some? then Some((3, s3.value)) else NgramHit(words, [5]);
    assert NgramHit(words, NgramOrders) == if s4.Some? then Some((4, s4.value)) else NgramHit(words, [3, 5]);
  }

  /** When only the tail heuristic fires, the phrase is the 15-character looping chunk. */
  lemma TailChunkReported(text: string)
    requires |text| >= MinTextLength && |Split(text)| >= MinWords
    requires NoRepeatedNgram(Split(text)) && TailLoops(text)
    ensures var q := LastQuarter(text);
            exists k :: 0 <= k < TailBound(q) && k % 5 == 0 && ChunkLoopsAt(q, k)
                        && Detect(text) == Repeated(q[k..k + 15])
    ensures |Detect(text).phrase| == 15
  {
    var q := LastQuarter(text);
    var i := TailHit(text).value;
    assert Detect(text) == Repeated(q[i..i + 15]);
  }

  /** When only the ending heuristic fires, the phrase is the first 30 of the last 50 characters. */
  lemma EndingChunkReported(text: string)
    requires |text| >= MinTextLength && |Split(text)| >= MinWords
    requires NoRepeatedNgram(Split(text)) && !TailLoops(text) && EndingRepeats(text)
    ensures Detect(text) == Repeated(LastFifty(text)[..30])
  {
    EndingDependsOnThirty(text);
    DetectCleanIff(text);
  }

  // ---------------------------------------------------------------------
  // The quality score.

  /** Characters above U+FFFF, which the score treats as garbled output. */
  function AstralCount(s: string): (n: nat)
    ensures n <= |s|
  {
    if s == [] then 0 else (if s[0] as int > 0xFFFF then 1 else 0) + AstralCount(s[1..])
  }

  /** `set(words)` */
  function Distinct(words: seq<string>): set<string> {
    set w | w in words
  }

  /** The vocabulary deduction: with more than 10 words, 0.3 when fewer than 30% of them are
      distinct, else 0.1 when fewer than 50% are (case-sensitive). */
  function DiversityPenalty(words: seq<string>): (p: real)
    ensures p == 0.0 || p == 0.1 || p == 0.3
    ensures |words| <= 10 ==> p == 0.0
  {
    if |words| <= 10 then 0.0
    else if 10 * |Distinct(words)| < 3 * |words| then 0.3
    else if 2 * |Distinct(words)| < |words| then 0.1
    else 0.0
  }

  /** More than 10% of the characters lie above U+FFFF. */
  predicate Garbled(text: string) {
    10 * AstralCount(text) > |text|
  }

  /** `1.0` minus the deductions, evaluated as the source's binary64 arithmetic does: every
      combination gives the decimal value except 1.0 − 0.3 − 0.2, which rounds to the double
      just below 0.5. */
  function Deducted(rep: bool, diversity: real, garbled: bool): real {
    if !rep && diversity == 0.3 && garbled then 0.49999999999999994
    else 1.0 - (if rep then 0.5 else 0.0) - diversity - (if garbled then 0.2 else 0.0)
  }

  /** `max(0.0, min(1.0, x))`, shared with the legacy transcriber's confidence. */
  function Clamp01(x: real): (r: real)
    ensures 0.0 <= r <= 1.0
    ensures 0.0 <= x <= 1.0 ==> r == x
  {
    if x < 0.0 then 0.0 else if x > 1.0 then 1.0 else x
  }

  /** `RepetitionDetector.calculate_quality_score` */
  function QualityScore(text: string): (score: real)
    ensures 0.0 <= score <= 1.0
    ensures text == [] ==> score == 0.0
  {
    if text == [] then 0.0
    else Clamp01(Deducted(Detect(text).Repeated?, DiversityPenalty(Split(text)), Garbled(text)))
  }

  /** A non-empty text scores exactly 1.0 minus its deductions; the clamp to [0, 1] never bites,
      so the score is 1.0 exactly when nothing is deducted. */
  lemma QualityScoreDeductions(text: string)
    requires text != []
    ensures var rep, div, g := Detect(text).Repeated?, DiversityPenalty(Split(text)), Garbled(text);
            QualityScore(text) == Deducted(rep, div, g)
            && (QualityScore(text) == 1.0 <==> !rep && div == 0.0 && !g)
  {
  }

  /** A detected repetition caps the score at 0.5, so a score of 0.8 or more — the production
      acceptance threshold — implies that no repetition was detected. */
  lemma RepetitionCapsScore(text: string)
    ensures Detect(text).Repeated? ==> QualityScore(text) <= 0.5
    ensures QualityScore(text) >= 0.8 ==> Detect(text) == Clean
  {
  }

  /** Text with more than 10 words, under 30% of them distinct, no repetition and no garbling
      scores 0.7, which the production thresholds class as GOOD. */
  lemma LowDiversityScoresSeventenths(text: string)
    requires Detect(text) == Clean && !Garbled(text)
    requires |Split(text)| > 10 && 10 * |Distinct(Split(text))| < 3 * |Split(text)|
    ensures QualityScore(text) == 0.7
  {
  }
}
