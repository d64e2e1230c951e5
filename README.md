# take-my-dictation, verified core

A Dafny model of the core of *take-my-dictation*, a FastAPI service that records audio,
transcribes it with Whisper, summarises the transcript with a language model, and sells
Basic and Pro subscriptions with a free 10-minute trial. The model covers:

- **the transcription pipeline**:
  - the production preprocessor's decision;
  - the repetition detector and the quality score;
  - the multi-temperature retry loop and its grading;
  - the legacy transcriber's temperature, retry, confidence and quality-issue checks;
  - the orchestration around both (duration bounds, enhancement fallback, duplicate-safe commit, statistics).
- **the account rules**:
  - trial and monthly quota checks;
  - usage tracking with the monthly reset;
  - trial sign-up;
  - the request gates by tier;
  - the audio-retention lifecycle and its cleanup sweep;
  - checkout, plan changes, the payment webhook and manual activation.
- **the small validators**:
  - the sliding-window rate limiter;
  - email syntax and input sanitising;
  - the password policy and the token guard;
  - the one-shot email verification codes;
  - the fenced-JSON extraction of the summary service.

The speech recogniser, the language model, the payment provider and the mail service are
parameters: their answers are function arguments or explicit `Result` values. So are the
clock (`now`, an `Instant` in the `Clock` module), the file system (sets of paths) and the
random draw. Database tables are maps or sequences of `class` objects whose fields the
operations assign, as the services assign the SQLAlchemy rows. Scores, minutes and hours
are exact `real`s. Temperatures are whole tenths.

Modules, one per source file:
- `AudioPreprocessor`, `RepetitionDetector` and `ProductionWhisper`: `production_whisper_service.py`.
- `WhisperTranscriber`: `whisper_transcriber.py`.
- `TranscriptionService`: `transcription_service.py`.
- `TrialLimits`: `trial_limits.py`.
- `UsageTracking`: `usage_tracking_service.py`.
- `Trials`: `trials.py`.
- `Gates`: `dependencies.py`.
- `AudioRetention`: `audio_retention_service.py`.
- `Payments`: `payments.py`.
- `Auth`: `auth.py`.
- `Security`: `security.py`.
- `EmailVerifications`: `email_verification.py`.
- `Summaries`: `summary_service.py`.

Support modules:
- `PyStr`: Python's `split`, `join`, `count`, `find`, `strip` and `lower`.
- `Clock`: civil date-times with `timedelta` arithmetic and `replace`.
- `Accounts`: the `users` row.
- `Http`: status codes.
- `Wrappers`: `Option` and `Result`.

## Notes on the source

- `require_basic_or_higher` refuses a tier that is FREE or None
  (`app/core/dependencies.py:155`). The `subscription_tier` column is declared
  `nullable=False` (`app/models/user.py:38`), so the model's tier is never missing and
  only FREE is refused.
- The `email` column is declared `nullable=False` too (`app/models/user.py:26`), yet
  `start_trial` inserts a trial account with `email=None` (`app/api/trials.py:96`). The
  model follows the insert, not the declaration: a trial account's email is None and the
  insert succeeds (see `Trials.StartTrial` under "Left out").
- Two warning rules for trial accounts coexist. The usage service warns from 80% of the
  10 free minutes (`app/services/usage_tracking_service.py:160`). `check_usage_limits` and
  the trial-usage endpoint warn below 2 minutes remaining (`app/core/trial_limits.py:82`,
  `app/api/trials.py:161`). Each rule is modelled where it occurs.

## Model

| member | source | states |
|---|---|---|
| AudioPreprocessor.Extension | app/services/production_whisper_service.py:103 | the extension is the lower-cased text after the last '.', empty when there is none, and never contains a '.' |
| AudioPreprocessor.CompressedBitrate | app/services/production_whisper_service.py:156-161 | the bitrate for an oversize file is ⌊20·2²⁰·8 / duration / 1000⌋ kbps clamped to [64, 128] |
| AudioPreprocessor.CompressedBitrateMonotone | app/services/production_whisper_service.py:158-161 | a longer recording never gets a higher bitrate |
| AudioPreprocessor.DivisionAntitone | app/services/production_whisper_service.py:159 | dividing by a larger duration gives a smaller or equal quotient |
| AudioPreprocessor.PrepareAudio | app/services/production_whisper_service.py:80-184 | a missing file is an error naming the path; a file that is neither over 25 MB nor in an unsupported format comes back unchanged and unprocessed; re-encoding succeeds exactly when it is needed and decoding, the bitrate and the export all work; any failure returns the original path with the reason recorded; the steps are the reasons followed by the loudness and channel changes; the bitrate is the clamped one for oversize files, else 128 |
| AudioPreprocessor.StepOrder | app/services/production_whisper_service.py:112-151 | each step is recorded at most once, `compress_size` first when present; volume is normalised exactly when dBFS < −30 and stereo is downmixed exactly when there is more than one channel |
| AudioPreprocessor.NoDotMeansConvert | app/services/production_whisper_service.py:103-119 | a path with no '.' has the empty extension and is always converted |
| RepetitionDetector.ScanNgram | app/services/production_whisper_service.py:216-221 | the first start `i` with `i + 3n < len(words)` whose n-word phrase occurs at least twice in the joined words after it; no earlier start qualifies; `None` only when no start qualifies |
| RepetitionDetector.NgramHit | app/services/production_whisper_service.py:215-221 | a hit names one of the orders tried, a start in range, and a phrase that repeats |
| RepetitionDetector.NgramHitNoneIff | app/services/production_whisper_service.py:215-221 | the n-gram strategy stays silent exactly when no start of any order repeats |
| RepetitionDetector.NgramHitIsFirst | app/services/production_whisper_service.py:215-221 | the hit is the first in loop order: order 4, then 3, then 5, and the earliest start within its order |
| RepetitionDetector.NgramHitUnfolded | app/services/production_whisper_service.py:215 | the three orders are tried in the sequence 4, 3, 5 |
| RepetitionDetector.TailStart | app/services/production_whisper_service.py:224 | `int(len * 0.75)` is ⌊3·len/4⌋ and lies within the text |
| RepetitionDetector.ScanTail | app/services/production_whisper_service.py:227-230 | the first offset that is a multiple of 5 below `min(len - 30, 100)` whose 15-character chunk occurs 3 or more times; `None` only when no such offset exists |
| RepetitionDetector.TailHit | app/services/production_whisper_service.py:224-230 | the tail strategy fires only when the last quarter is longer than 40 characters, and at a chunk that lies inside it |
| RepetitionDetector.TailHitNoneIff | app/services/production_whisper_service.py:224-230 | the tail strategy stays silent exactly when no chunk offset loops |
| RepetitionDetector.EndingHit | app/services/production_whisper_service.py:237-242 | a hit is a length from [30, 40, 50] whose prefix of the last 50 characters occurs in `text[-150:-50]` |
| RepetitionDetector.EndingDependsOnThirty | app/services/production_whisper_service.py:233-242 | the ending strategy fires exactly when the first 30 of the last 50 characters occur in the 100 before, and it reports exactly those 30 characters |
| RepetitionDetector.Detect | app/services/production_whisper_service.py:198-244 | texts under 50 characters or under 12 words are clean; a reported phrase is non-empty and at most 50 characters |
| RepetitionDetector.DetectCleanIff | app/services/production_whisper_service.py:205-244 | the result is clean exactly when the text is too short, has too few words, or no strategy fires |
| RepetitionDetector.NgramPhraseReported | app/services/production_whisper_service.py:215-221 | when some n-gram repeats, the phrase returned is the first 50 characters of the first repeating phrase |
| RepetitionDetector.TailChunkReported | app/services/production_whisper_service.py:223-230 | when only the tail strategy fires, the phrase is a looping 15-character chunk at a scanned offset |
| RepetitionDetector.EndingChunkReported | app/services/production_whisper_service.py:232-242 | when only the ending strategy fires, the phrase is the first 30 of the last 50 characters |
| RepetitionDetector.AstralCount | app/services/production_whisper_service.py:277 | the number of characters above U+FFFF, at most the length of the text |
| RepetitionDetector.DiversityPenalty | app/services/production_whisper_service.py:267-273 | the vocabulary deduction is 0, 0.1 or 0.3, and 0 for 10 words or fewer |
| RepetitionDetector.Clamp01 | app/services/production_whisper_service.py:281 | the clamp lands in [0, 1] and leaves values already there unchanged |
| RepetitionDetector.QualityScore | app/services/production_whisper_service.py:247-281 | the score lies in [0, 1] and is 0.0 for empty text |
| RepetitionDetector.QualityScoreDeductions | app/services/production_whisper_service.py:259-281 | a non-empty text scores 1.0 minus its deductions, the clamp never bites, and the score is 1.0 exactly when nothing is deducted |
| RepetitionDetector.RepetitionCapsScore | app/services/production_whisper_service.py:262-264 | a detected repetition caps the score at 0.5, so a score of 0.8 or more means no repetition |
| RepetitionDetector.LowDiversityScoresSeventenths | app/services/production_whisper_service.py:268-271 | a clean, ungarbled text of more than 10 words with under 30% distinct words scores exactly 0.7 |
| ProductionWhisper.TemperaturesToTry | app/services/production_whisper_service.py:298-357 | the temperatures tried are a prefix of 0.2, 0.0, 0.4, 0.3, 0.6 of length min(max_retries, 5) |
| ProductionWhisper.Outcomes | app/services/production_whisper_service.py:361-371 | attempt `k` asks the recogniser at the `k`-th temperature |
| ProductionWhisper.Assess | app/services/production_whisper_service.py:379-380 | an attempt's score lies in [0, 1] and is at most 0.5 when it repeats |
| ProductionWhisper.AcceptedIffScore | app/services/production_whisper_service.py:396 | with the service's own scoring, a transcript is accepted exactly when it scores at least 0.8 |
| ProductionWhisper.BestScore | app/services/production_whisper_service.py:354-386 | the running best score is at least every attempt's score and is either 0.0 or the score of some attempt |
| ProductionWhisper.BestScoreMonotone | app/services/production_whisper_service.py:385-386 | the best score never decreases as attempts are added |
| ProductionWhisper.Level | app/services/production_whisper_service.py:428-437 | EXCELLENT exactly at ≥ 0.9 without repetition, GOOD at ≥ 0.7 otherwise without repetition, FAIR at ≥ 0.5 otherwise, POOR below 0.5; never FAILED |
| ProductionWhisper.BestOKScore | app/services/production_whisper_service.py:385-393 | the kept attempt's score is the running best, and no attempt is kept exactly when the best is 0.0 |
| ProductionWhisper.NextBestOK | app/services/production_whisper_service.py:385-393 | one loop step keeps the earliest attempt with the strictly highest score |
| ProductionWhisper.IsBestExtends | app/services/production_whisper_service.py:385 | an attempt that does not beat the kept one leaves it kept |
| ProductionWhisper.RecordAttempt | app/services/production_whisper_service.py:362-410 | one attempt: the best is updated only on a strictly higher score, the step reports acceptance exactly at ≥ 0.8 without repetition, and a repetition or an API error adds its warning |
| ProductionWhisper.TryTemperatures | app/services/production_whisper_service.py:353-410 | attempts never exceed the temperatures given; the best kept is the first with the highest score and is absent only when the best is 0.0; no attempt before the last was accepted; stopping early means the last one was |
| ProductionWhisper.Attempted | app/services/production_whisper_service.py:357-361 | at most five attempts are made |
| ProductionWhisper.RetryAndGrade | app/services/production_whisper_service.py:353-460 | when no attempt scored above 0.0 the result is FAILED with no transcript, confidence 0.0 and the error message; otherwise the first best transcript is reported with its language and temperature, the confidence is the best score, and the level and warnings follow the thresholds; success holds exactly when a transcript is reported |
| ProductionWhisper.Transcribe | app/services/production_whisper_service.py:310-475 | a missing file gives a FAILED result with the error text and no attempts; otherwise the preprocessed file is retried and graded as above, with the preprocessing warning first and the duration taken from preprocessing, then the file, then 60 s; the confidence lies in [0, 1] and is positive on success |
| WhisperTranscriber.DetermineTemperature | app/services/whisper_transcriber.py:44-49 | 0.0 exactly below 30 s, 0.2 exactly from 30 s to below 300 s, 0.3 exactly from 300 s |
| WhisperTranscriber.TemperatureMonotone | app/services/whisper_transcriber.py:44-49 | longer audio never gets a lower temperature |
| WhisperTranscriber.BuildRequest | app/services/whisper_transcriber.py:64-81 | the request asks for `whisper-1` with `verbose_json`, carries no language or prompt, and uses the temperature for the metadata duration, 0.0 when it is missing |
| WhisperTranscriber.LogProbs | app/services/whisper_transcriber.py:189-192 | the collected values are at most one per segment and each is some segment's `avg_logprob` |
| WhisperTranscriber.Confidence | app/services/whisper_transcriber.py:183-202 | the confidence lies in [0, 1] and is 0.5 when no segment carries a log-probability |
| WhisperTranscriber.SumAtMost | app/services/whisper_transcriber.py:197 | an upper bound on every log-probability bounds their sum |
| WhisperTranscriber.SumAtLeast | app/services/whisper_transcriber.py:197 | a lower bound on every log-probability bounds their sum |
| WhisperTranscriber.MeanAtMostMinusOne | app/services/whisper_transcriber.py:197 | a sum of n values at most −1 has a mean at most −1 |
| WhisperTranscriber.MeanNonNegative | app/services/whisper_transcriber.py:197 | a non-negative sum has a non-negative mean |
| WhisperTranscriber.ConfidenceExtremes | app/services/whisper_transcriber.py:194-198 | segments all at −1 or below give confidence 0, and all at 0 or above give 1 |
| WhisperTranscriber.CalculateConfidence | app/services/whisper_transcriber.py:168-202 | the loop returns exactly the confidence defined above |
| WhisperTranscriber.TallyCounts | app/services/whisper_transcriber.py:241-244 | `word_freq` holds exactly the lower-cased words that occur, each with its number of occurrences |
| WhisperTranscriber.CountLoweredFirst | app/services/whisper_transcriber.py:242-244 | the first word is counted |
| WhisperTranscriber.HasQualityIssues | app/services/whisper_transcriber.py:204-252 | the method decides exactly the quality-issue predicate: near-empty text (under 10 characters stripped) has issues, fewer than 10 words never do, otherwise a 3-word phrase repeating 3 or more times or a word making up over 10% and over 5 occurrences is an issue |
| WhisperTranscriber.FindRepeatedPhrase | app/services/whisper_transcriber.py:229-237 | the phrase loop finds a repeating 3-word phrase exactly when one starts below min(len(words) − 6, 50) |
| WhisperTranscriber.CountWords | app/services/whisper_transcriber.py:240-244 | the counting loop builds exactly the tally of lower-cased words, non-empty for non-empty input |
| WhisperTranscriber.MaxValue | app/services/whisper_transcriber.py:246 | the maximum is one of the counts and no count exceeds it |
| WhisperTranscriber.Bumped | app/services/whisper_transcriber.py:139 | the temperature rises by 0.2, capped at 1.0 |
| WhisperTranscriber.TemperatureAtBounds | app/services/whisper_transcriber.py:135-141 | the temperature only rises, by at most 0.2 per attempt, and never beyond 1.0 |
| WhisperTranscriber.TranscriptOf | app/services/whisper_transcriber.py:144-152 | the returned dictionary holds the response text and segments, the language or "unknown", the response duration or the metadata's or 0, the attempt number counted from 1 and the temperature used |
| WhisperTranscriber.AcceptedOutcome | app/services/whisper_transcriber.py:143-152 | accepting an answer ends the loop with that answer's dictionary |
| WhisperTranscriber.FailedOutcome | app/services/whisper_transcriber.py:160-161 | an exception on the third attempt ends with "Whisper API failed after 3 attempts: " and its message |
| WhisperTranscriber.Retry | app/services/whisper_transcriber.py:115-161 | the first answer without issues, or the third answer whatever its quality, is returned; three exceptions raise; every earlier attempt raised or had issues; the waits are 2·2^k seconds, one per retry |
| WhisperTranscriber.OutcomeBounds | app/services/whisper_transcriber.py:115-150 | at most three attempts and two waits; `attempts` lies in [1, 3]; the confidence lies in [0, 1]; the temperature ends at most two raises above the start |
| WhisperTranscriber.Transcribe | app/services/whisper_transcriber.py:83-161 | the retry loop runs from the temperature of the request built from the metadata and judges answers by the quality-issue check, with the bounds above |
| TranscriptionService.DurationProblem | app/services/transcription_service.py:92-96 | audio passes exactly when its duration lies in [1, 7200] seconds; shorter and longer audio get their own messages |
| TranscriptionService.SplitextRoot | app/services/transcription_service.py:100 | `os.path.splitext(path)[0]` is a prefix of the path, either the whole path or cut at a '.' |
| TranscriptionService.TempPathDiffers | app/services/transcription_service.py:100 | the processed file's name is never the upload's own name |
| TranscriptionService.Fallback | app/services/transcription_service.py:102-135 | the enhancer runs first; basic preprocessing runs exactly when the enhancement did not succeed, twice only after an unsuccessful enhancement whose fallback also failed; the step fails only when every basic call failed, with the last call's error |
| TranscriptionService.FallbackDeterministic | app/services/transcription_service.py:110-135 | when basic preprocessing answers the same each time, the step fails exactly when the enhancement did not succeed and basic preprocessing failed |
| TranscriptionService.CommitResult | app/services/transcription_service.py:166-190 | a commit returns the record; a duplicate-key or unique-constraint error returns the row found again; any other error, or no row found, is raised wrapped |
| TranscriptionService.AfterCommitOnlyAdds | app/services/transcription_service.py:166-171 | committing a record for a recording without a row only adds that row |
| TranscriptionService.DuplicateIgnoresCase | app/services/transcription_service.py:174 | duplicate detection ignores letter case |
| TranscriptionService.Database.constructor | app/services/transcription_service.py:64-67 | the session starts with the given rows, each under its own recording id |
| TranscriptionService.Database.Find | app/services/transcription_service.py:64-67 | the lookup finds the recording's row, and nothing exactly when there is none |
| TranscriptionService.Database.Save | app/services/transcription_service.py:166-295 | only a successful commit adds the row; the result and the calls made follow the duplicate-key rule |
| TranscriptionService.TranscribeLegacy | app/services/transcription_service.py:78-190 | an analysis error or a duration out of bounds is raised before any preprocessing; a preprocessing failure is raised wrapped; otherwise the legacy transcriber reads the processed file and its answer is stored with provider "whisper"; the low-confidence warning fires exactly below 0.3; rows are only ever added |
| TranscriptionService.TranscribeAudioProduction | app/services/transcription_service.py:201-299 | an existing transcription is returned at once; otherwise the production service runs with auto-detected language and five tries; an unsuccessful result is raised with its error, a successful one is stored with its confidence score and provider "whisper-production" |
| TranscriptionService.TranscribeAudio | app/services/transcription_service.py:39-76 | a recording is never transcribed twice: an existing row is returned before anything else; a fresh recording goes to the production service when it is enabled and otherwise to the legacy pipeline, which starts with the audio analysis; its answer and stored row are exactly those that path promises on its own (`ProductionOutcome`, `LegacyOutcome`, shared with the two methods above); only the recording's own row can be added; the production path never warns about low confidence |
| TranscriptionService.TranscriptionStats | app/services/transcription_service.py:369-395 | an analysis failure is reported as "Failed to analyze audio: "; otherwise the stats carry the analysis |
| TranscriptionService.StatsPredictions | app/services/transcription_service.py:383-391 | the predicted temperature is the legacy transcriber's, `will_normalize` holds exactly outside [−20, −3] dBFS, and the estimate is a quarter of the duration |
| TranscriptionService.QuietAudioPredicted | app/services/transcription_service.py:383-391 | audio quiet enough for the production preprocessor to normalise is predicted to be normalised, and the prediction also covers −30 to −20 dBFS where that preprocessor does nothing |
| TrialLimits.CheckTrialLimits | app/core/trial_limits.py:10-55 | non-trial users always pass; a trial user with 10 or more minutes used gets `trial_limit_exceeded`; otherwise a trial user passes exactly when the recording fits into the remaining minutes, and `trial_limit_would_exceed` reports remaining = 10 − used, below the duration |
| TrialLimits.LandingOnLimitAllowed | app/core/trial_limits.py:40-42 | a recording that uses up the trial exactly is allowed |
| TrialLimits.CheckMonthlyLimit | app/core/trial_limits.py:91-146 | a subscriber is rejected exactly when the limit is reached or the recording would pass it, with `monthly_limit_exceeded` first; otherwise the limit is positive, hours remain, the percentage is used/limit·100 in [0, 100), and the warning is the percentage at ≥ 90% or the last-hour text when under 1 hour remains |
| TrialLimits.CheckUsageLimits | app/core/trial_limits.py:58-149 | trial users are decided by the trial rule and get remaining = 10 − used (positive), warned exactly below 2 minutes; subscribers without a limit are unlimited, with one the monthly rule decides; free users get "Subscribe to start recording" |
| TrialLimits.PercentBelowHundred | app/core/trial_limits.py:129 | within the limit the percentage lies in [0, 100) |
| TrialLimits.CheckUsageLimitsAsWritten | app/core/trial_limits.py:95-106 | the code as written: a monthly rejection whose reset date is missing crashes with the `strftime` AttributeError |
| TrialLimits.ResetDateCrash | app/core/trial_limits.py:100 | a Basic subscriber at 10 of 10 hours with no reset date crashes, where the intended check rejects with `monthly_limit_exceeded` |
| TrialLimits.AsWrittenAgreesWithReset | app/core/trial_limits.py:58-149 | with a reset date set, the code as written and the corrected check agree |
| Accounts.User.Trial | app/api/trials.py:95-107 | a new trial account: trial flag set, 0 minutes used, FREE tier, unverified, active, no login email or password, every other column at its default |
| Trials.UserStore.constructor | app/api/trials.py:68-92 | the users table holds the given users |
| Trials.TrialRefusal | app/api/trials.py:57-92 | after lower-casing and stripping, an empty address or one without '@' is invalid; an address already used as a trial email is refused before a registered one; an address passes exactly when it is well formed, never trialled and not registered |
| Trials.AddTrialUser | app/api/trials.py:95-108 | one new row, the trial account for the address, is added and nothing else changes |
| Trials.StartTrial | app/api/trials.py:48-136 | a refused address creates nothing and returns its refusal; an accepted one adds exactly one trial account tracked by the normalised address and returns a 24-hour token with 10 minutes remaining, or 500 when signing fails after the commit |
| Trials.GetTrialUsage | app/api/trials.py:140-171 | non-trial users get 400; remaining is max(0, 10 − used); expired exactly when 10 minutes are used, which is exactly when none remain; the ended text when expired, else the running-low text below 2 minutes, else none |
| Trials.CheckTrialEligibility | app/api/trials.py:175-216 | eligible exactly when the normalised address is neither a trial email nor a registered email, with the trial reason first; it reads the table and creates nothing |
| Gates.GetCurrentUser | app/core/dependencies.py:18-52 | 401 with the credentials message when the token does not decode, lacks a user id or names no user; 403 for an inactive user; otherwise that user, who is active |
| Gates.GetOptionalUser | app/core/dependencies.py:67-91 | yields a user exactly when credentials were sent and authentication would succeed, and then the same user; never an error |
| Gates.CheckUsageGate | app/core/dependencies.py:94-135 | refuses exactly when the usage check reports the limit exceeded; a trial account with its minutes used, a subscriber with hours used, limit and reset date, offered an upgrade exactly on Basic |
| Gates.RequireBasicOrHigher | app/core/dependencies.py:142-180 | admits exactly the non-free tiers; a refused trial account is told trial users cannot save, others that a subscription is required |
| Gates.CurrentPlan | app/core/dependencies.py:196-206 | the reported plan is trial for trial accounts, otherwise basic or free by tier |
| Gates.RequirePro | app/core/dependencies.py:183-220 | admits exactly Pro; trial and Basic accounts are told to upgrade, free ones to subscribe, with the plan name |
| Gates.RequireCanRegenerate | app/core/dependencies.py:223-262 | admits exactly Pro; only a Basic subscriber gets the longer upgrade text |
| Gates.RequirePaidUser | app/core/dependencies.py:265-290 | admits exactly the non-trial accounts; trial accounts are told registration is required |
| Gates.GatesNested | app/core/dependencies.py:142-262 | whoever passes the Pro gate passes the Basic gate, and the Pro and regeneration gates admit the same users |
| Security.AnyDigitIffExists | app/core/security.py:40-42 | the left-to-right digit scan succeeds exactly when some character is a digit |
| Security.AnyAlphaIffExists | app/core/security.py:44-46 | the left-to-right letter scan succeeds exactly when some character is a letter |
| Security.ValidatePasswordStrength | app/core/security.py:27-48 | accepted, with an empty message, exactly when the length is within 8 to 128 and the password has a digit and a letter; the rules are checked in order (length, then digit, then letter), each refusal carrying its own message |
| Security.DigitsOnlyRejected | app/core/security.py:40-46 | an all-digit password of valid length is refused for lacking a letter |
| Security.CreateAccessToken | app/core/security.py:70-93 | fails exactly when the secret key is shorter than 32 characters; otherwise the token keeps the claims, is issued now and expires after the given delta, or after 7 days when none or a zero one is given |
| EmailVerifications.DecimalStringFacts | app/models/email_verification.py:26-28 | reading back the decimal digits of a number gives the number, only 0 has a leading zero digit, and a number in [10^(k−1), 10^k) has k digits |
| EmailVerifications.GenerateCode | app/models/email_verification.py:26-28 | for a draw in [100000, 999999] the code is six decimal digits, has no leading zero and denotes the draw |
| EmailVerifications.Verified | app/models/email_verification.py:41-57 | verifying succeeds exactly when the code is valid (unused, never verified, not past expiry); a failure changes nothing; a success records the time and marks the code used |
| EmailVerifications.OneShot | app/models/email_verification.py:51-57 | after a successful verification the code is invalid at every later time and a second verification fails without change |
| EmailVerifications.FreshValidFor15Minutes | app/models/email_verification.py:31-49 | a fresh code is valid exactly up to 15 minutes after its creation |
| EmailVerifications.EmailVerification.Create | app/models/email_verification.py:31-39 | the row holds the lower-cased email, the six-digit code, expiry 15 minutes after now, unverified and unused, and is valid now |
| EmailVerifications.EmailVerification.Verify | app/models/email_verification.py:51-57 | returns whether the row was valid and leaves exactly the state the verification function gives |
| UsageTracking.AtLeastZero | app/services/usage_tracking_service.py:59 | `max(0, x)` is non-negative, at least x, and either x or 0 |
| UsageTracking.TrackRecordingUsage | app/services/usage_tracking_service.py:18-86 | an unknown user is an error; a trial account gains seconds/60 minutes, any other account seconds/3600 hours, and nothing else about the user changes; the report carries the new usage, the non-negative remainder and the percentage of the configured limit |
| UsageTracking.UsageCheck | app/services/usage_tracking_service.py:112-144 | a trial account is over its limit exactly from 10 minutes; a subscriber exactly when a positive limit is used up, a missing or zero limit never; the 80% and 100% warnings split the percentage at 80 and 100 and never hold together |
| UsageTracking.CheckUsageLimit | app/services/usage_tracking_service.py:89-144 | an error exactly for an unknown user, otherwise the usage check of that user |
| UsageTracking.FullWarningIffExceeded | app/services/usage_tracking_service.py:130-143 | for a subscriber with non-negative usage the 100% warning is raised exactly when the limit counts as exceeded |
| UsageTracking.WarningMessage | app/services/usage_tracking_service.py:147-179 | an exhausted trial or a full quota takes precedence over the 80% warning; below 80% there is no message |
| UsageTracking.TrialWarningRange | app/services/usage_tracking_service.py:157-163 | a trial account is told its trial is used up exactly from 10 minutes and is warned it runs low exactly from 8 to 10 minutes |
| UsageTracking.MonthlyWarningAtLimit | app/services/usage_tracking_service.py:165-171 | a subscriber with a positive limit gets the limit-reached message exactly once the limit is used up |
| UsageTracking.EndOfMonthResetFails | app/services/usage_tracking_service.py:219-226 | the month-advance as written raises for a reset date of 31 January |
| UsageTracking.NextMonth | app/services/usage_tracking_service.py:222-225 | the month after December is January of the next year, otherwise the next month of the same year |
| UsageTracking.NextReset | app/services/usage_tracking_service.py:219-226 | the corrected next reset falls in the next month at the same time of day, on the same day or, when that month is shorter, on its last day |
| UsageTracking.NextResetAgrees | app/services/usage_tracking_service.py:219-226 | wherever the month-advance as written succeeds, the corrected one gives the same date |
| UsageTracking.NextResetAdvances | app/services/usage_tracking_service.py:219-226 | the reset date always moves forward, by 28 to 31 days |
| UsageTracking.ResetMonthlyUsage | app/services/usage_tracking_service.py:182-242 | an unknown user is an error; a trial account is skipped and unchanged; any other account starts at zero hours with the reset date moved one month on, or to 30 days from now when it had none, and nothing else changes |
| UsageTracking.GetUsageHistory | app/services/usage_tracking_service.py:245-293 | an error exactly for an unknown user, otherwise the history of that user |
| UsageTracking.HistoryMatchesCheck | app/services/usage_tracking_service.py:245-293 | the history reports the same kind, usage, limit, remainder and percentage as the limit check, with a non-negative remainder |
| Clock.ReplaceYearMonth | app/services/usage_tracking_service.py:223-225 | replacing year and month succeeds exactly when the day exists in the new month, keeping day and time of day, and otherwise raises |
| AudioRetention.Recording.constructor | app/services/audio_retention_service.py:22-93 | a new recording has no deletion time and neither retention flag set |
| AudioRetention.FileSystem.Remove | app/services/audio_retention_service.py:226-230 | removal succeeds exactly for an existing path whose removal does not raise, and then exactly that path is gone |
| AudioRetention.Retained | app/services/audio_retention_service.py:50-57 | the Pro retention is consistent, allows regeneration and deletes after now |
| AudioRetention.Released | app/services/audio_retention_service.py:45-48 | immediate deletion is consistent, forbids regeneration and is not picked up by the sweep |
| AudioRetention.SetRetentionPolicy | app/services/audio_retention_service.py:22-93 | a Pro user's recording is retained for 10 days with 10 days reported; any other user's or an anonymous recording is due for deletion now, a registered non-Pro user being told to upgrade; the columns stay consistent |
| AudioRetention.WholeDaysRoundUp | app/services/audio_retention_service.py:121-125 | the timedelta's days plus one when its seconds part is non-zero is the whole seconds left rounded up to whole days |
| AudioRetention.DaysRemaining | app/services/audio_retention_service.py:121-125 | with the deletion time ahead, the seconds left lie in the last of the reported days; otherwise no days remain |
| AudioRetention.CheckRetentionStatus | app/services/audio_retention_service.py:96-136 | a missing recording is an error; otherwise the columns are reported as stored, the audio exists exactly when its non-empty path is on disk, it is scheduled exactly when its deletion time has come, and never both scheduled and with days left |
| AudioRetention.StatusAfterPolicy | app/services/audio_retention_service.py:43-134 | right after the policy, a Pro recording reports 10 days left and any other is already scheduled for deletion |
| AudioRetention.EnableRetention | app/services/audio_retention_service.py:138-191 | refused, in this order, to a non-Pro user, for a missing recording and to a non-owner, changing nothing; otherwise the owner's recording is retained for 10 days from now |
| AudioRetention.DeleteAudioFile | app/services/audio_retention_service.py:193-248 | a missing recording is an error; ownership is checked only when not forced and a user is given; otherwise the audio counts as deleted now whether or not a file was removed, and exactly the recording's file is removed when it exists and its removal does not raise |
| AudioRetention.Select | app/services/audio_retention_service.py:262-272 | the sweep selects exactly the rows whose deletion time has come and that can still regenerate, without repeats |
| AudioRetention.SweepFacts | app/services/audio_retention_service.py:276-335 | one outcome per selected recording; the counts are those of the deleted and failed outcomes and at most the number selected; the bytes freed are the sizes of the deleted files; files only disappear, never those whose removal raises |
| AudioRetention.SweepRemovesDeleted | app/services/audio_retention_service.py:280-314 | a file is gone after the sweep exactly when some selected recording's outcome deleted it |
| AudioRetention.Cleaned | app/services/audio_retention_service.py:298-314 | a recording whose file was deleted or missing is marked so that it is not selected again, keeping its deletion time; a failed one is left as it was; consistency is kept |
| AudioRetention.SweepOne | app/services/audio_retention_service.py:280-314 | one recording's outcome, files and columns are those of the sweep definition |
| AudioRetention.SweepAll | app/services/audio_retention_service.py:276-315 | the loop over the selected recordings leaves exactly the files, statistics and rows of the sweep definition |
| AudioRetention.CleanupExpiredAudio | app/services/audio_retention_service.py:250-335 | the corrected member of Findings row 4: selects the expired rows, sweeps them in order as the definition says, keeps every flag update it makes, and touches no other row |
| AudioRetention.NoneCountedIffAllMissing | app/services/audio_retention_service.py:317 | no outcome is counted as deleted or failed exactly when every outcome is a missing file |
| AudioRetention.CommitsIffSomeFileFound | app/services/audio_retention_service.py:276-319 | the sweep commits exactly when some selected recording's file existed, whether its removal succeeded or raised |
| AudioRetention.Discard | app/services/audio_retention_service.py:317-319 | without a commit every swept row reverts to its stored columns |
| AudioRetention.SweepCommitted | app/services/audio_retention_service.py:280-319 | the loop as written: files and statistics as the sweep definition says, and the loop's flag updates kept exactly when the sweep commits, every row left as stored otherwise |
| AudioRetention.CleanupExpiredAudioAsWritten | app/services/audio_retention_service.py:250-335 | as written: the selection and sweep as above, the flag updates kept only when some file was deleted or some removal failed, and every row left as stored otherwise |
| AudioRetention.MissingFileSelectedAgain | app/services/audio_retention_service.py:300-319 | an expired recording whose file is already gone gives a sweep that commits nothing, so its row stays selectable, although the flags the loop assigned would have retired it |
| Payments.ParsePlan | app/api/payments.py:25-57 | the pricing table has exactly the keys "basic" and "pro" |
| Payments.PlanTier | app/api/payments.py:309-316 | a plan grants a paid tier |
| Payments.PlanHours | app/api/payments.py:309-316 | a plan grants a positive number of monthly hours |
| Payments.ParsePlanKey | app/api/payments.py:25-57 | each plan's key reads back as that plan and is the value of the tier it grants |
| Payments.ValidatePlan | app/api/payments.py:81-86 | the plan parameter, lower-cased and stripped, is accepted exactly when it names a plan, and is otherwise refused with 400 |
| Payments.ParseInterval | app/api/payments.py:90 | the accepted intervals are exactly "month" and "year" |
| Payments.ValidateInterval | app/api/payments.py:89-94 | the interval parameter, lower-cased and stripped, is accepted exactly when it is "month" or "year", and is otherwise refused with 400 |
| Payments.PlanOfId | app/api/payments.py:25-57 | a recognised provider plan id is the id of the plan and interval it is recognised as |
| Payments.PlanIdsDistinct | app/api/payments.py:132-133 | each plan and interval has its own provider plan id |
| Payments.ProviderResponse | app/api/payments.py:175-185 | a provider bad request becomes 400 with its text, any other failure 500 with the endpoint's prefix |
| Payments.CheckoutChecks | app/api/payments.py:80-109 | in order: invalid plan, invalid interval, then 503 without a provider key of at least 10 characters, then 400 while a paid subscription has not expired; otherwise the validated plan and interval |
| Payments.RequestFor | app/api/payments.py:132-159 | the subscription asked for uses the plan's monthly or annual provider id, 120 cycles for a month and 12 for a year, the customer and the user |
| Payments.CreateCheckoutSession | app/api/payments.py:69-185 | a failed check changes nothing; otherwise a missing customer is created and kept even when the subscription then fails, and a created subscription is recorded with its provider plan |
| Payments.Subscribe | app/api/payments.py:111-185 | the provider calls after the checks reach exactly the account and answer that checkout describes |
| Payments.Activation | app/api/payments.py:296-331 | an activated plan sets its tier and hours, restarts the month's usage from today, and takes the period end as expiry and reset time when the provider gives one |
| Payments.ActivationAllowsRecording | app/api/payments.py:306-331 | a subscriber who was just activated is within the monthly limit at 0% |
| Payments.Cancelled | app/api/payments.py:386-409 | cancellation returns the account to FREE without subscription, plan, expiry or limit and with no hours used, and changes nothing else |
| Payments.Halted | app/api/payments.py:412-432 | a halt sets the expiry one day before now and changes nothing else |
| Payments.Charged | app/api/payments.py:339-360 | a charge with a period end takes it as expiry and reset time, and otherwise changes nothing |
| Payments.Updated | app/api/payments.py:363-383 | an update with a period end takes it as expiry, and otherwise changes nothing |
| Payments.EndedSubscriptionsInactive | app/api/payments.py:104-109 | after a cancellation or a halt the account holds no running subscription, so checkout is not refused for it |
| Payments.CancelledStopsPaidUsage | app/api/payments.py:401-407 | a cancelled subscriber has FREE tier and a zero limit, which never counts as exceeded |
| Payments.Activate | app/api/payments.py:306-331 | the shared assignments leave exactly the activated account |
| Payments.HandleActivated | app/api/payments.py:270-336 | a missing customer id or an invalid note plan raises and an unknown customer is ignored, none of them changing anything; otherwise the customer is activated on the note plan with the new subscription id |
| Payments.HandleCharged | app/api/payments.py:339-360 | a known customer ends in the charged state |
| Payments.HandleUpdated | app/api/payments.py:363-383 | a known customer ends in the updated state |
| Payments.HandleCancelled | app/api/payments.py:386-409 | a known customer ends in the cancelled state |
| Payments.HandleHalted | app/api/payments.py:412-432 | a known customer ends in the halted state |
| Payments.WebhookRefusal | app/api/payments.py:197-234 | a request is accepted exactly with a secret of at least 10 characters, a signature header that verifies and a JSON body; a short secret is 503 |
| Payments.Webhook | app/api/payments.py:188-267 | refused requests change nothing; accepted ones are always acknowledged, with an error status when handling raised; a handled event with a missing or unknown customer id changes nothing and is answered "success", except an activation with no customer id, which raises and is answered "error"; each handled event brings its customer to its transition's state and other events change nothing |
| Payments.ChangePlanChecks | app/api/payments.py:446-474 | in order: no subscription, invalid plan, invalid interval, then the same tier as now are refused with 400; otherwise the validated plan and interval |
| Payments.PlanChanged | app/api/payments.py:510-527 | a plan change sets the new tier, hours, subscription and provider plan and the new period end as expiry, and keeps the usage and reset time |
| Payments.ChangePlan | app/api/payments.py:435-546 | a failed check changes nothing; otherwise the new subscription is requested for the account's customer and only a created one changes the account |
| Payments.Switch | app/api/payments.py:476-546 | the provider calls after the checks reach exactly the account and answer that a plan change describes |
| Payments.PlanChangeSwitchesTier | app/api/payments.py:468-474 | a successful plan change always moves to another paid tier and records the new subscription |
| Payments.Verify | app/api/payments.py:549-649 | no subscription is 400 and a provider failure follows the provider rule; only an active subscription of an account that still needs it is activated; an active one otherwise is already active, a non-active one is reported so, and neither changes the account; an invalid note plan is 400 |
| Payments.VerifyOnce | app/api/payments.py:576-636 | verifying again right after an activation reports the subscription already active and changes nothing |
| Payments.VerifyAsWritten | app/api/payments.py:581-585 | as written, the only 400 answers are the missing subscription and a provider bad request |
| Payments.InvalidPlanAnswered500 | app/api/payments.py:581-585 | a FREE user whose active subscription carries an unknown note plan gets 500 as written, where 400 is intended |
| Payments.VerifyAndActivate | app/api/payments.py:549-649 | the method answers and leaves the account exactly as the verification decision says |
| Auth.Recent | app/api/auth.py:40-44 | the attempts kept are exactly the recorded ones still inside the window, in order, never more than were recorded |
| Auth.Attempt | app/api/auth.py:36-52 | a call is allowed exactly when fewer than the maximum recorded attempts are inside the window; old attempts are dropped and only an allowed call is recorded, so an allowed call leaves at most the maximum |
| Auth.RateLimiter.constructor | app/api/auth.py:28 | the limiter starts with no recorded attempts |
| Auth.RateLimiter.CheckRateLimit | app/api/auth.py:31-52 | one call decides and records exactly as a single limiter step on that identifier's history, and no other identifier's record changes |
| Auth.RecentAppend | app/api/auth.py:41-44 | filtering a concatenation filters each part |
| Auth.RecentOfAllowed | app/api/auth.py:41-44 | filtering at a later time what was kept at an earlier one keeps what is still in the later window |
| Auth.RateLimitHolds | app/api/auth.py:31-52 | for chronological calls with a positive window the record is exactly the allowed calls still in the window, no window ending at a call holds more than the maximum allowed calls, and a call is refused exactly when the maximum is already reached in its window |
| Auth.Body | app/api/auth.py:57-58 | the text the pattern covers is the address, or the address without one final newline |
| Auth.SplitForced | app/api/auth.py:57 | any split matching the pattern is at the first '@' and at the last '.' after it |
| Auth.ValidateEmailMatchesPattern | app/api/auth.py:55-58 | the address is accepted exactly when it matches `local@domain.tld` with the pattern's character classes and at least two letters after the dot |
| Auth.TrailingNewline | app/api/auth.py:57-58 | one final newline is ignored by the match and a second one makes it fail |
| Auth.SanitizeInput | app/api/auth.py:61-68 | the empty text gives the empty text; otherwise the result is a contiguous piece of the NUL-free text cut to the length limit, with only whitespace dropped around it; it has no NUL, is at most the length limit and neither starts nor ends with whitespace |
| Auth.SanitizeDetermined | app/api/auth.py:61-68 | the contract of SanitizeInput admits exactly one result, so it pins the sanitised text ("  ab  " can only become "ab") |
| PyStr.RemoveCharAppend | app/api/auth.py:65 | `replace(c, '')` works piece by piece: it drops every `c` and keeps every other character in its order |
| PyStr.RemoveCharCounts | app/api/auth.py:65 | `replace(c, '')` keeps every other character as often as it occurs |
| PyStr.StripTrims | app/api/auth.py:67 | `strip()` keeps one contiguous piece and drops only whitespace around it |
| PyStr.TrimmedUnique | app/api/auth.py:67 | that piece is unique once its ends are not whitespace |
| Auth.SanitizeClean | app/api/auth.py:61-68 | text that is already clean is returned unchanged |
| Auth.RemoveAbsent | app/api/auth.py:66 | removing a character that does not occur changes nothing |
| Auth.SanitizeIdempotent | app/api/auth.py:61-68 | sanitising twice is sanitising once |
| Auth.CutBeforeStrip | app/api/auth.py:68 | the text is cut before it is stripped, so a cut that ends in whitespace gives a result shorter than the limit |
| Auth.StripShortens | app/api/auth.py:68 | stripping text that ends in whitespace shortens it |
| Auth.Matching | app/api/auth.py:335-342 | the lookup finds exactly the unused rows with this address and code, in table order |
| Auth.AtMostOneMatch | app/api/auth.py:335-342 | while every address has at most one unused code, the lookup finds at most one row |
| Auth.Invalidated | app/api/auth.py:264-272 | every code of the address is marked used and every other row is unchanged |
| Auth.IssueKeepsOneUnused | app/api/auth.py:264-278 | issuing keeps at most one unused code per address; the new code is valid now and is the only unused one of its address |
| Auth.RedeemedOutcome | app/api/auth.py:335-376 | a failed lookup or check changes nothing; a success uses up exactly the one matching row, which was valid now |
| Auth.UseKeepsOneUnused | app/api/auth.py:358-363 | using up a row keeps at most one unused code per address |
| Auth.NoMatchAfterUse | app/api/auth.py:335-363 | once an address's only unused code is used, the lookup for it finds nothing |
| Auth.RedeemOnce | app/api/auth.py:314-385 | the server-error case of the lookup never arises, redeeming keeps one unused code per address, and a code just redeemed is refused as invalid if presented again |
| Auth.CodeTable.constructor | app/models/email_verification.py:12-23 | the table starts empty, with at most one unused code per address |
| Auth.CodeTable.InvalidateUnused | app/api/auth.py:264-272 | the loop leaves exactly the table with every code of the address used |
| Auth.CodeTable.Redeem | app/api/auth.py:335-363 | the lookup, the validity check and the verification leave exactly the answer and table of the redeeming decision |
| Auth.CodeTable.Issue | app/api/auth.py:264-278 | the older codes of the address are invalidated and one fresh code, expiring in 15 minutes, is added |
| Auth.ExpiresIn | app/api/auth.py:292-298 | the seconds reported are the whole seconds left, and zero once the expiry has passed |
| Auth.ExpiresInAtMost15Minutes | app/api/auth.py:292-298 | a response computed no earlier than the code's creation promises at most 900 seconds |
| Auth.KeysDiffer | app/api/auth.py:240-248 | rate-limit keys with different prefixes never collide |
| Auth.TwoLimits | app/api/auth.py:240-255 | the first limit decides alone; the second is consulted, and counts the call, only when the first admits it; no other identifier's record changes |
| Auth.SendAnswer | app/api/auth.py:240-310 | success exactly when both limits admit the call, the address is unverified and the mail went out or no mail service is configured; the refusals come in source order, with a 500 exactly when a code was issued but the mail step failed |
| Auth.SendVerificationCode | app/api/auth.py:229-310 | the answer is exactly the cascade of the client limit, the address limit (consulted only when the client limit admits), the verified-address check and the mail step; the limiter records are those of the two checks; a code is issued and committed exactly when both limits admit an unverified address, whatever the mail service then does; the table keeps one unused code per address |
| Auth.ResendVerificationCode | app/api/auth.py:388-414 | refused first by its own client limit and then by its own address limit, each with its message and no code touched; past them the answer, the limiter records and the table are exactly those of sending, on the records the resend limits left |
| Auth.VerifyEmailCode | app/api/auth.py:314-385 | the limiter counts the call under the client's key only; refused by that limit with no code touched; otherwise it succeeds exactly when the one unused row with this address and code is valid now, and uses it up; the table keeps one unused code per address |
| Summaries.UserPrompt | app/services/summary_service.py:84-87 | the message is the fixed header followed by the transcript and, only for a non-empty custom prompt, the instructions header and the custom prompt |
| Summaries.UserPromptInjective | app/services/summary_service.py:84-87 | for transcripts of equal length, equal messages come from the same transcript and the same custom instructions |
| Summaries.JsonCandidate | app/services/summary_service.py:104-111 | a reply without a fence is decoded whole; otherwise the text decoded contains no fence and is stripped (the lemmas below pin which block it is) |
| Summaries.AfterFirstIffContains | app/services/summary_service.py:106-108 | splitting on a separator yields a second piece exactly when the reply contains it |
| Summaries.FenceInJsonFence | app/services/summary_service.py:106-108 | a reply with a fence tagged JSON contains a bare fence |
| Summaries.StripKeepsAbsent | app/services/summary_service.py:107-109 | stripping cannot create a fence |
| Summaries.FirstOccurrence | app/services/summary_service.py:106-109 | the first occurrence is at a position where the separator occurs and nowhere earlier |
| Summaries.NoFenceWhole | app/services/summary_service.py:107-109 | a text without a fence is its own first piece for both separators |
| Summaries.JsonFenceFirstAt | app/services/summary_service.py:106-107 | with no fence tagged JSON before it, the tag written after a text is the first one, even when the text ends in backticks |
| Summaries.FenceFirstAt | app/services/summary_service.py:107-109 | a bare fence after a text without a fence and not ending in a backtick is the first one, and that text is the first piece |
| Summaries.ClosingFence | app/services/summary_service.py:107 | the piece after the tag, cut at its first bare fence, is the block up to the closing fence, even when a later tag follows at once |
| Summaries.JsonBlock | app/services/summary_service.py:106-107 | the first block tagged JSON and closed by a bare fence is decoded, stripped, whatever bare blocks precede it and whatever follows it |
| Summaries.UnclosedJsonBlock | app/services/summary_service.py:106-107 | an unclosed fence tagged JSON yields the rest of the reply, stripped |
| Summaries.PlainBlock | app/services/summary_service.py:108-109 | without a fence tagged JSON, the block between the first two bare fences is decoded, stripped, whatever follows |
| Summaries.UnclosedPlainBlock | app/services/summary_service.py:108-109 | without a fence tagged JSON, a single unclosed bare fence yields the rest of the reply, stripped |
| Summaries.ListOr | app/services/summary_service.py:129-130 | a missing list is empty, an explicit null stays null, a present list is kept |
| Summaries.Extract | app/services/summary_service.py:113-133 | an undecodable candidate gives the whole reply, untruncated, as summary with empty lists and category "unknown"; a decoded non-object fails; an object's missing summary is empty, missing lists are empty, a missing category stays unset, and a null summary cannot be stored |
| Summaries.FencedReply | app/services/summary_service.py:104-133 | a fenced JSON reply decoding to an object with a summary yields that summary, and an undecodable one falls back to the whole reply, fences included |
| Summaries.Summary.constructor | app/services/summary_service.py:125-133 | the new row holds the recording, the transcription, the extracted fields and the model name |
| Summaries.Summary.RegenerateSummary | app/services/summary_service.py:144-236 | the prompt is built as for generation; a failed model call or extraction changes nothing; otherwise exactly the generated columns and the model name are replaced |
| Summaries.SummaryStore.constructor | app/models/summary.py:12-25 | the table starts empty |
| Summaries.SummaryStore.GenerateSummary | app/services/summary_service.py:22-142 | a failed model call or extraction, or a recording that already has a summary, stores nothing; otherwise exactly one fresh row with the extracted fields, the ids and the model name is appended |

## Left out

- The speech recogniser, the language model, the payment provider and the mail service are not modelled. Their replies are parameters, and their HTTP traffic, SDKs and the webhook signature algorithm are outside the model.
- Audio decoding and encoding (pydub, ffmpeg) are not modelled. The preprocessor takes the size, duration, channel count, dBFS and the outcome of each export as inputs.
- Temporary-file naming beyond the name clash, file deletion in `finally` blocks, and logging are not modelled.
- SQLAlchemy sessions are not modelled as such. The model's state changes where the source assigns a column; a commit makes those assignments durable, and a rollback or a session that ends without a commit is modelled as the assignments not happening, where the source has one (`AudioRetention.CleanupExpiredAudioAsWritten`, `TranscriptionService.Database.Save`). Queries are lookups in maps or filters over sequences.
- Concurrency and the async event loop are not modelled, because each request runs sequentially.
- The APScheduler wiring that calls the sweep and the monthly reset is not modelled.
- `transcribe_with_timestamps` (`app/services/transcription_service.py:301`) is not modelled. It is one recogniser call asking for word timestamps.
- The recogniser call `_call_whisper` is not modelled; the production loop receives its outcomes as a parameter.
- The legacy backoff sleeps are not performed: each wait is recorded, in order, as its length in seconds (`waits`).
- IEEE floating point is not modelled; the model uses exact reals. The one binary64 rounding that changes a quality score (1.0 − 0.3 − 0.2) is written out explicitly. Rounding for display (`:.1f`, `round(..., 2)`) is left out.
- Python's Unicode tables are approximated by ASCII:
  - `str.lower` changes only A–Z;
  - `isdigit` accepts only 0–9;
  - `isalpha` accepts only A–Z and a–z.

  `split` and `strip` use Python's exact whitespace set.
- Auth.InWindow: it compares whole microseconds. The source compares `total_seconds()` as a float, which is the same for the 15- and 30-minute windows up to float rounding.
- Auth.ExpiresIn: it computes on whole microseconds rather than with `int(float)`.
- Token signing, decoding, bcrypt hashing and the random `jti` of `create_access_token` are not modelled. A token is its claims with issue and expiry times.
- The register, login and trial-conversion endpoints of `auth.py` (and `convert_trial_to_paid` in `trials.py`) are not modelled. They are account plumbing around the validators, which are modelled.
- Auth.VerifyEmailCode: it does not set `is_verified` and `email_verified_at` on a user with the address. The user table is not part of that model; the codes table is.
- The `email_verifications` rows are values (`Auth.RowView`) inside one `CodeTable` object rather than one object per row. Aliasing between row objects is therefore not modelled.
- `cancel_subscription` and `get_pricing_plans` are not modelled. They are a provider call and a constant.
- The `REPLACE_WITH` placeholder checks are not modelled, because the configured plan ids contain no placeholder.
- Looking up a customer is not modelled in full. The webhook handlers find the user by customer id in a map; several users sharing a customer id are not modelled.
- Payments.ChangePlan: the provider's two calls, cancelling the old subscription and creating the new one, are merged into one reply. A cancellation that succeeds before a failed creation is not distinguished.
- The payment events' JSON is decoded by a parameter, so only the fields the handlers read are modelled.
- The JSON decoder of the summary service is a parameter (`decode`), so JSON syntax is not modelled. Decoded values other than objects, strings and string lists (numbers as summaries, nested objects as key points) are not modelled.
- The summary service's exception text is a `Cause` value. The `str(e)` text and the "Failed to generate summary:" and "Failed to regenerate summary:" prefixes are left out.
- Summaries.Summary.RegenerateSummary: for a reply whose `summary` is an explicit null, the source assigns None and then fails at the commit. The model reports `SummaryNull` and leaves the row unchanged, which is the state after the rollback.
- UsageTracking.TrackRecordingUsage: the trial branch of the source assigns the trial minutes without committing them, while the paid branch commits. The model shows the assignment; it does not show that the trial minutes last only if the caller commits the same session later.
- The `User` columns the core never assigns (id, email, password hash, name, active, verified, trial flags) are `const` fields of `Accounts.User`.
- Trials.StartTrial: it assumes the deployed `users` table accepts a NULL `email`, as the comment at `app/api/trials.py:96` intends. The declared column is `nullable=False` (`app/models/user.py:26`); under that declaration every accepted trial start would fail at the commit and be answered 500 "Failed to start trial" (`app/api/trials.py:128-136`). The model lets the insert succeed.
- AudioPreprocessor.CompressedBitrate: it uses exact division for the bitrate, with the duration in milliseconds. The source divides in floating point before `int()`.

## Findings

| source | as written | input that shows it | evidently intended | confidence | as-written member | corrected member |
|---|---|---|---|---|---|---|
| app/core/trial_limits.py:100 | the monthly-limit rejection formats `user.usage_reset_at.strftime(...)` before testing whether the reset date is set | a Basic subscriber with 10 of 10 hours used and no `usage_reset_at` crashes with AttributeError | reject with `monthly_limit_exceeded` and no reset date | not executed | TrialLimits.ResetDateCrash | TrialLimits.CheckUsageLimits |
| app/services/usage_tracking_service.py:219-226 | the next reset is `replace(month=month+1)` on the same day | a reset date of 31 January raises ValueError, because 31 February does not exist, and the monthly reset fails | the same day next month, or the last day of a shorter month | not executed | UsageTracking.EndOfMonthResetFails | UsageTracking.NextReset |
| app/api/payments.py:581-585 | the 400 for an invalid note plan is raised inside a `try` whose generic handler (lines 643-648) turns it into a 500 | a FREE user whose active subscription carries the note plan "enterprise" gets 500 | 400 "Invalid plan configuration" | not executed | Payments.InvalidPlanAnswered500 | Payments.Verify |
| app/services/audio_retention_service.py:317-319 | the flag updates of the sweep are committed only `if deleted_count > 0 or failed_count > 0` | one expired Pro recording whose file is already gone: nothing is committed, so the row keeps `can_regenerate` and is selected again by every sweep | the row is marked as cleaned up ("updating database only") | not executed | AudioRetention.CleanupExpiredAudioAsWritten | AudioRetention.CleanupExpiredAudio |
