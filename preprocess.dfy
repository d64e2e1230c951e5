/**
 * The minimal-intervention preprocessing decision of the production service
 * (`AudioPreprocessor.prepare_audio`): a file is only re-encoded when it is
 * too large for the recognition API or in a format the API does not accept,
 * and re-encoding only normalises extremely quiet audio and downmixes stereo.
 *
 * Decoding and exporting are done by an audio library; here the decoded
 * properties (duration, channels, frame rate, loudness) and whether the
 * export succeeds are inputs.
 */
module AudioPreprocessor {
  import opened Wrappers
  import opened PyStr

  /** Formats the recognition API accepts without conversion. */
  const NativeFormats: set<string> := {"mp3", "mp4", "m4a", "wav", "webm", "mpeg", "mpga"}

  /** The API's upload limit, 25 MB of 1024 × 1024 bytes. */
  const MaxFileSizeBytes: nat := 25 * 1024 * 1024

  /** The export size aimed at when compressing, 20 MB, in bits. */
  const TargetSizeBits: nat := 20 * 1024 * 1024 * 8

  /** Loudness below which audio is normalised, in dBFS. */
  const QuietThreshold: real := -30.0

  datatype Step = CompressSize | ConvertFormat | NormalizeVolume | ConvertToMono

  /** What decoding the file reveals. */
  datatype AudioInfo = AudioInfo(durationMs: nat, channels: nat, frameRate: nat, dbfs: real)

  /** The input file as the file system and the decoder see it; `decoded` is None when decoding fails. */
  datatype SourceFile = SourceFile(present: bool, sizeBytes: nat, decoded: Option<AudioInfo>)

  /** Why re-encoding was abandoned: the decoder failed, the duration was zero (a division
      by zero in the bitrate computation), or the export failed. */
  datatype Failure = DecodeFailed | ZeroDuration | ExportFailed

  /** The metadata dictionary built alongside the decision. */
  datatype Metadata = Metadata(
    originalPath: string,
    wasProcessed: bool,
    steps: seq<Step>,
    originalFormat: string,
    audio: Option<AudioInfo>,
    bitrateKbps: Option<nat>,
    error: Option<Failure>)

  datatype Prepared = Prepared(path: string, meta: Metadata)

  /** `path.rsplit('.', 1)[-1].lower() if '.' in path else ''`: everything after the last '.'
      of the whole path, lower-cased. */
  function Extension(path: string): (ext: string)
    ensures '.' !in ext
  {
    match LastIndexOf(path, '.')
    case None => ""
    case Some(i) =>
      var e := Lower(path[i + 1..]);
      assert forall k :: 0 <= k < |e| ==> e[k] == LowerChar(path[i + 1 + k]);
      e
  }

  predicate Oversize(sizeBytes: nat) {
    sizeBytes > MaxFileSizeBytes
  }

  /** The reasons to re-encode, in the order they are recorded. */
  function ReasonSteps(sizeBytes: nat, path: string): seq<Step> {
    (if Oversize(sizeBytes) then [CompressSize] else [])
    + (if Extension(path) !in NativeFormats then [ConvertFormat] else [])
  }

  predicate NeedsProcessing(sizeBytes: nat, path: string) {
    ReasonSteps(sizeBytes, path) != []
  }

  /** Re-encoding is needed, the file decodes, the bitrate can be computed and the export works. */
  predicate Reencodes(file: SourceFile, path: string, exportSucceeds: bool) {
    NeedsProcessing(file.sizeBytes, path) && file.decoded.Some?
    && (Oversize(file.sizeBytes) ==> file.decoded.value.durationMs > 0)
    && exportSucceeds
  }

  /** The changes made while re-encoding, in the order they are recorded. */
  function AudioSteps(info: AudioInfo): seq<Step> {
    (if info.dbfs < QuietThreshold then [NormalizeVolume] else [])
    + (if info.channels > 1 then [ConvertToMono] else [])
  }

  /** `int(20*1024*1024*8 / (ms/1000) / 1000)` clamped to [64, 128] kbps. */
  function CompressedBitrate(durationMs: nat): (kbps: nat)
    requires durationMs > 0
    ensures 64 <= kbps <= 128
  {
    var raw := TargetSizeBits / durationMs;
    if raw < 64 then 64 else if raw > 128 then 128 else raw
  }

  /** Longer recordings never get a higher bitrate. */
  lemma CompressedBitrateMonotone(shorter: nat, longer: nat)
    requires 0 < shorter <= longer
    ensures CompressedBitrate(longer) <= CompressedBitrate(shorter)
  {
    DivisionAntitone(TargetSizeBits, shorter, longer);
  }

  lemma DivisionAntitone(n: nat, a: nat, b: nat)
    requires 0 < a <= b
    ensures n / b <= n / a
  {
    var q := n / b;
    assert (b - a) * q >= 0;
    assert a * q <= b * q <= n;
    var p := n / a;
    var d := q - p;
    assert a * q == a * p + a * d;
    assert a * p + n % a == n;
    assert a * d < a;
    assert d < 1;
  }

  /** `prepare_audio(input_path, output_path)`; `tempPath` is the temporary file name used
      when no output path is given. */
  method PrepareAudio(inputPath: string, file: SourceFile, outputPath: Option<string>,
                      tempPath: string, exportSucceeds: bool)
    returns (r: Result<Prepared, string>)
    ensures r.Err? <==> !file.present
    ensures r.Err? ==> r.error == "Audio file not found: " + inputPath
    ensures r.Ok? ==> r.value.meta.originalPath == inputPath
                      && r.value.meta.originalFormat == Extension(inputPath)
    ensures r.Ok? ==> ReasonSteps(file.sizeBytes, inputPath) <= r.value.meta.steps
    // Files the API accepts as they are come back untouched.
    ensures r.Ok? && !NeedsProcessing(file.sizeBytes, inputPath) ==>
              r.value.path == inputPath && !r.value.meta.wasProcessed && r.value.meta.steps == []
    // Re-encoding succeeds exactly when it is needed, decoding works, the bitrate can be
    // computed and the export works; then the output path is returned.
    ensures r.Ok? ==> (r.value.meta.wasProcessed <==> Reencodes(file, inputPath, exportSucceeds))
    ensures r.Ok? ==> r.value.meta.audio == if NeedsProcessing(file.sizeBytes, inputPath) then file.decoded else None
    ensures r.Ok? && r.value.meta.wasProcessed ==> r.value.path == outputPath.GetOr(tempPath)
    // Any failure falls back to the original file and records why.
    ensures r.Ok? && !r.value.meta.wasProcessed ==> r.value.path == inputPath
    ensures r.Ok? && !r.value.meta.wasProcessed && NeedsProcessing(file.sizeBytes, inputPath) ==>
              r.value.meta.error.Some?
    ensures r.Ok? && NeedsProcessing(file.sizeBytes, inputPath) && file.decoded.Some? ==>
              r.value.meta.steps == ReasonSteps(file.sizeBytes, inputPath) + AudioSteps(file.decoded.value)
    ensures r.Ok? && r.value.meta.wasProcessed ==>
              r.value.meta.bitrateKbps ==
                Some(if Oversize(file.sizeBytes) then CompressedBitrate(file.decoded.value.durationMs) else 128)
  {
    if !file.present {
      return Err("Audio file not found: " + inputPath);
    }
    var ext := Extension(inputPath);
    var steps: seq<Step> := [];
    var needsProcessing := false;
    if Oversize(file.sizeBytes) {
      needsProcessing := true;
      steps := steps + [CompressSize];
    }
    if ext !in NativeFormats {
      needsProcessing := true;
      steps := steps + [ConvertFormat];
    }
    assert steps == ReasonSteps(file.sizeBytes, inputPath);
    assert needsProcessing == NeedsProcessing(file.sizeBytes, inputPath);
    var meta := Metadata(inputPath, false, steps, ext, None, None, None);
    if !needsProcessing {
      return Ok(Prepared(inputPath, meta));
    }
    var output := outputPath.GetOr(tempPath);
    if file.decoded.None? {
      return Ok(Prepared(inputPath, meta.(error := Some(DecodeFailed))));
    }
    var info := file.decoded.value;
    meta := meta.(audio := Some(info));
    if info.dbfs < QuietThreshold {
      steps := steps + [NormalizeVolume];
    }
    if info.channels > 1 {
      steps := steps + [ConvertToMono];
    }
    assert steps == ReasonSteps(file.sizeBytes, inputPath) + AudioSteps(info);
    meta := meta.(steps := steps);
    var bitrate: nat;
    if Oversize(file.sizeBytes) {
      if info.durationMs == 0 {
        return Ok(Prepared(inputPath, meta.(error := Some(ZeroDuration))));
      }
      bitrate := CompressedBitrate(info.durationMs);
    } else {
      bitrate := 128;
    }
    meta := meta.(bitrateKbps := Some(bitrate));
    if !exportSucceeds {
      return Ok(Prepared(inputPath, meta.(error := Some(ExportFailed))));
    }
    return Ok(Prepared(output, meta.(wasProcessed := true)));
  }

  /** Steps are recorded in a fixed order and each at most once: size before format, and
      both before the loudness and channel changes. */
  lemma StepOrder(sizeBytes: nat, path: string, info: AudioInfo)
    ensures var s := ReasonSteps(sizeBytes, path) + AudioSteps(info);
            forall i, j :: 0 <= i < j < |s| ==> s[i] != s[j]
    ensures var s := ReasonSteps(sizeBytes, path) + AudioSteps(info);
            CompressSize in s ==> s[0] == CompressSize
    ensures NormalizeVolume in AudioSteps(info) <==> info.dbfs < QuietThreshold
    ensures ConvertToMono in AudioSteps(info) <==> info.channels > 1
    ensures CompressSize in ReasonSteps(sizeBytes, path) <==> Oversize(sizeBytes)
    ensures ConvertFormat in ReasonSteps(sizeBytes, path) <==> Extension(path) !in NativeFormats
  {
  }

  /** A path without any '.' has the empty extension and is therefore always converted. */
  lemma NoDotMeansConvert(sizeBytes: nat, path: string)
    requires '.' !in path
    ensures Extension(path) == ""
    ensures NeedsProcessing(sizeBytes, path)
  {
    assert LastIndexOf(path, '.').None?;
  }
}
