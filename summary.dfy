/**
 * AI summaries of a transcript (`app/services/summary_service.py`): the prompt sent to the
 * language model, the extraction of a JSON object from its reply (which may wrap it in a
 * Markdown code fence), the fallback when the reply is not JSON, the field defaults, and the
 * creation or in-place update of a `summaries` row. The model's reply and the JSON decoder
 * are parameters.
 */
module Summaries {
  import opened Wrappers
  import opened PyStr

  const ModelName := "claude-3-haiku-20240307"
  const PromptHeader := "Transcription:\n\n"
  const InstructionsHeader := "\n\nAdditional instructions: "
  /** The opening of a fence tagged as JSON, and a bare fence. */
  const JsonFence := "```json"
  const Fence := "```"
  const FallbackCategory := "unknown"

  /** `if custom_prompt:` — a missing or empty custom prompt adds nothing. */
  predicate Present(custom: Option<string>) {
    custom.Some? && custom.value != []
  }

  /** The user message: the transcript after a fixed header, then the custom instructions. */
  function UserPrompt(transcript: string, custom: Option<string>): (p: string)
    ensures |p| >= |PromptHeader| + |transcript|
    ensures p[..|PromptHeader|] == PromptHeader
    ensures p[|PromptHeader|..|PromptHeader| + |transcript|] == transcript
    ensures !Present(custom) ==> |p| == |PromptHeader| + |transcript|
    ensures Present(custom) ==>
              |p| == |PromptHeader| + |transcript| + |InstructionsHeader| + |custom.value|
              && p[|PromptHeader| + |transcript|..|p| - |custom.value|] == InstructionsHeader
              && p[|p| - |custom.value|..] == custom.value
  {
    var base := PromptHeader + transcript;
    assert base[..|PromptHeader|] == PromptHeader;
    if Present(custom) then
      var p := base + InstructionsHeader + custom.value;
      assert p[..|base|] == base;
      p
    else base
  }

  /** The prompt determines the transcript and the custom instructions that were used. */
  lemma UserPromptInjective(t1: string, c1: Option<string>, t2: string, c2: Option<string>)
    requires UserPrompt(t1, c1) == UserPrompt(t2, c2)
    requires |t1| == |t2|
    ensures t1 == t2
    ensures Present(c1) <==> Present(c2)
    ensures Present(c1) ==> c1.value == c2.value
  {
    var p := UserPrompt(t1, c1);
    assert t1 == p[|PromptHeader|..|PromptHeader| + |t1|];
    if Present(c1) && Present(c2) {
      assert c1.value == p[|p| - |c1.value|..];
    }
  }

  /** The text handed to `json.loads`: the stripped contents of the first fence tagged JSON,
      else of the first bare fence, else the whole reply. */
  function JsonCandidate(response: string): (c: string)
    ensures !Contains(response, Fence) ==> c == response
    ensures Contains(response, Fence) ==> !Contains(c, Fence) && (c == [] || (!IsSpace(c[0]) && !IsSpace(c[|c| - 1])))
  {
    AfterFirstIffContains(response, JsonFence);
    AfterFirstIffContains(response, Fence);
    FenceInJsonFence(response);
    match AfterFirst(response, JsonFence)
    case Some(piece) =>
      StripKeepsAbsent(BeforeFirst(piece, Fence), Fence);
      Strip(BeforeFirst(piece, Fence))
    case None =>
      match AfterFirst(response, Fence)
      case Some(piece) =>
        StripKeepsAbsent(BeforeFirst(piece, Fence), Fence);
        Strip(BeforeFirst(piece, Fence))
      case None => response
  }

  lemma AfterFirstIffContains(s: string, sep: string)
    requires |sep| > 0
    ensures AfterFirst(s, sep).Some? <==> Contains(s, sep)
  {
    if Contains(s, sep) {
      var i: nat :| i <= |s| && OccursAt(s, sep, i);
    }
  }

  /** A fence tagged JSON contains a bare fence. */
  lemma FenceInJsonFence(s: string)
    ensures Contains(s, JsonFence) ==> Contains(s, Fence)
  {
    if Contains(s, JsonFence) {
      var i: nat :| i <= |s| && OccursAt(s, JsonFence, i);
      assert s[i..i + 3] == s[i..i + 7][..3];
      assert OccursAt(s, Fence, i);
    }
  }

  /** A slice of a text without an occurrence has none either. */
  lemma SliceKeepsAbsent(s: string, sub: string, a: nat, b: nat)
    requires a <= b <= |s| && !Contains(s, sub)
    ensures !Contains(s[a..b], sub)
  {
    forall i: nat | i <= b - a
      ensures !OccursAt(s[a..b], sub, i)
    {
      if i + |sub| <= b - a {
        var w, v := s[a..b][i..i + |sub|], s[a + i..a + i + |sub|];
        assert forall j :: 0 <= j < |sub| ==> w[j] == v[j];
        assert w == v;
        assert !OccursAt(s, sub, a + i);
      }
    }
  }

  /** Stripping cannot create an occurrence. */
  lemma StripKeepsAbsent(s: string, sub: string)
    requires !Contains(s, sub)
    ensures !Contains(Strip(s), sub)
  {
    var left := LStrip(s);
    SliceKeepsAbsent(s, sub, |s| - |left|, |s|);
    assert s[|s| - |left|..|s|] == left;
    var r := RStrip(left);
    SliceKeepsAbsent(left, sub, 0, |r|);
    assert left[0..|r|] == r;
  }

  /** `AfterFirst` once the first occurrence of `sep` is known. */
  lemma AfterFirstAt(s: string, sep: string, i: nat, rest: string)
    requires |sep| > 0 && FindFrom(s, sep, 0) == Some(i) && s[i + |sep|..] == rest
    ensures AfterFirst(s, sep) == Some(BeforeFirst(rest, sep))
  {
  }

  /** The first occurrence of `sub` is at `i` when it occurs there and nowhere before. */
  lemma FirstOccurrence(s: string, sub: string, i: nat)
    requires |sub| > 0 && OccursAt(s, sub, i)
    requires forall k :: 0 <= k < i ==> !OccursAt(s, sub, k)
    ensures FindFrom(s, sub, 0) == Some(i)
  {
  }

  /** A text holding no fence is its own first piece, whether split at a bare fence or at a
      fence tagged JSON. */
  lemma NoFenceWhole(s: string)
    requires !Contains(s, Fence)
    ensures BeforeFirst(s, Fence) == s && BeforeFirst(s, JsonFence) == s
  {
    FenceInJsonFence(s);
  }

  /** In `pre + "```json" + rest`, with no fence tagged JSON in `pre`, the first such fence is
      the one after `pre`: "```json" does not end with a beginning of itself, so no occurrence
      can straddle the two. */
  lemma JsonFenceFirstAt(pre: string, rest: string)
    requires !Contains(pre, JsonFence)
    ensures FindFrom(pre + JsonFence + rest, JsonFence, 0) == Some(|pre|)
  {
    var s := pre + JsonFence + rest;
    assert s[|pre|..|pre| + 7] == JsonFence;
    forall k | 0 <= k < |pre|
      ensures !OccursAt(s, JsonFence, k)
    {
      if k + 7 <= |pre| {
        assert pre[k..k + 7] == s[k..k + 7];
        assert !OccursAt(pre, JsonFence, k);
      } else if k + 7 <= |s| {
        assert s[k..k + 7][6] == s[k + 6] == JsonFence[k + 6 - |pre|];
      }
    }
    FirstOccurrence(s, JsonFence, |pre|);
  }

  /** In `x + "```" + y`, the first bare fence is the one after `x` when `x` holds none and
      does not end with a backtick; so the first piece is `x`. */
  lemma FenceFirstAt(x: string, y: string)
    requires !Contains(x, Fence) && (x == [] || x[|x| - 1] != '`')
    ensures FindFrom(x + Fence + y, Fence, 0) == Some(|x|)
    ensures BeforeFirst(x + Fence + y, Fence) == x
  {
    var s := x + Fence + y;
    assert s[|x|..|x| + 3] == Fence;
    forall k | 0 <= k < |x|
      ensures !OccursAt(s, Fence, k)
    {
      if k + 3 <= |x| {
        assert x[k..k + 3] == s[k..k + 3];
        assert !OccursAt(x, Fence, k);
      } else {
        assert s[k..k + 3][|x| - 1 - k] == s[|x| - 1] == x[|x| - 1];
      }
    }
    FirstOccurrence(s, Fence, |x|);
  }

  /** A tag after `body + "```"` starts at the closing fence or after it: a tag also opens a
      bare fence, so none starts inside `body`, and a tail without a leading backtick keeps
      one off the closing fence's second and third backtick. */
  lemma TagPosition(body: string, tail: string, i: nat)
    requires !Contains(body, Fence) && (body == [] || body[|body| - 1] != '`')
    requires tail == [] || tail[0] != '`'
    requires OccursAt(body + Fence + tail, JsonFence, i)
    ensures i == |body| || i >= |body| + 3
  {
    var rest := body + Fence + tail;
    FenceFirstAt(body, tail);
    assert rest[i..i + 3] == rest[i..i + 7][..3];
    assert OccursAt(rest, Fence, i);
    assert i >= |body|;
    assert |rest| > |body| + 3 ==> rest[|body| + 3] == tail[0];
    assert i < |body| + 3 ==> rest[|body| + 3] == rest[i..i + 7][|body| + 3 - i];
  }

  /** After the tag, the piece up to the next tag, cut at its first bare fence, is the block
      closed by the fence after `body`, even when a later tag follows at once. */
  lemma ClosingFence(body: string, tail: string)
    requires !Contains(body, Fence) && (body == [] || body[|body| - 1] != '`')
    requires tail == [] || tail[0] != '`'
    ensures BeforeFirst(BeforeFirst(body + Fence + tail, JsonFence), Fence) == body
  {
    var rest := body + Fence + tail;
    FenceFirstAt(body, tail);
    var found := FindFrom(rest, JsonFence, 0);
    if found.Some? {
      var i := found.value;
      TagPosition(body, tail, i);
      if i == |body| {
        assert rest[..i] == body;
        NoFenceWhole(body);
      } else {
        assert rest[..i] == body + Fence + tail[..i - |body| - 3];
        FenceFirstAt(body, tail[..i - |body| - 3]);
      }
    }
  }

  /** A reply whose first fence tagged JSON is closed by a bare fence yields the block between
      them, stripped, whatever precedes the tag (bare blocks included) and whatever follows
      the closing fence (later blocks included). */
  lemma JsonBlock(pre: string, body: string, tail: string)
    requires !Contains(pre, JsonFence)
    requires !Contains(body, Fence) && (body == [] || body[|body| - 1] != '`')
    requires tail == [] || tail[0] != '`'
    ensures JsonCandidate(pre + JsonFence + body + Fence + tail) == Strip(body)
  {
    var rest := body + Fence + tail;
    var s := pre + JsonFence + rest;
    assert pre + JsonFence + body + Fence + tail == s;
    JsonFenceFirstAt(pre, rest);
    assert s[|pre| + 7..] == rest;
    AfterFirstAt(s, JsonFence, |pre|, rest);
    ClosingFence(body, tail);
  }

  /** A reply whose first fence tagged JSON is never closed yields the rest of the reply,
      stripped. */
  lemma UnclosedJsonBlock(pre: string, body: string)
    requires !Contains(pre, JsonFence) && !Contains(body, Fence)
    ensures JsonCandidate(pre + JsonFence + body) == Strip(body)
  {
    var s := pre + JsonFence + body;
    JsonFenceFirstAt(pre, body);
    assert s[|pre| + 7..] == body;
    NoFenceWhole(body);
    AfterFirstAt(s, JsonFence, |pre|, body);
  }

  /** The text after the first bare fence of a reply with no fence tagged JSON. */
  lemma CandidateOfPlain(s: string, piece: string)
    requires AfterFirst(s, JsonFence) == None && AfterFirst(s, Fence) == Some(piece)
    ensures JsonCandidate(s) == Strip(BeforeFirst(piece, Fence))
  {
  }

  /** A reply without a fence tagged JSON yields the block between its first two bare fences,
      stripped, whatever follows; the first fence is the first three backticks. */
  lemma PlainBlock(pre: string, body: string, tail: string)
    requires !Contains(pre + Fence + body + Fence + tail, JsonFence)
    requires !Contains(pre, Fence) && (pre == [] || pre[|pre| - 1] != '`')
    requires !Contains(body, Fence) && (body == [] || body[|body| - 1] != '`')
    ensures JsonCandidate(pre + Fence + body + Fence + tail) == Strip(body)
  {
    var s := pre + Fence + body + Fence + tail;
    AfterFirstIffContains(s, JsonFence);
    PlainPiece(pre, body, tail);
    NoFenceWhole(body);
    CandidateOfPlain(s, body);
  }

  /** The piece after the first bare fence of `pre + "```" + body + "```" + tail`. */
  lemma PlainPiece(pre: string, body: string, tail: string)
    requires !Contains(pre, Fence) && (pre == [] || pre[|pre| - 1] != '`')
    requires !Contains(body, Fence) && (body == [] || body[|body| - 1] != '`')
    ensures AfterFirst(pre + Fence + body + Fence + tail, Fence) == Some(body)
  {
    var rest := body + Fence + tail;
    var s := pre + Fence + rest;
    assert pre + Fence + body + Fence + tail == s;
    FenceFirstAt(pre, rest);
    assert s[|pre| + 3..] == rest;
    AfterFirstAt(s, Fence, |pre|, rest);
    FenceFirstAt(body, tail);
  }

  /** A reply without a fence tagged JSON whose only bare fence is never closed yields the
      rest of the reply, stripped. */
  lemma UnclosedPlainBlock(pre: string, body: string)
    requires !Contains(pre + Fence + body, JsonFence)
    requires !Contains(pre, Fence) && (pre == [] || pre[|pre| - 1] != '`')
    requires !Contains(body, Fence)
    ensures JsonCandidate(pre + Fence + body) == Strip(body)
  {
    var s := pre + Fence + body;
    AfterFirstIffContains(s, JsonFence);
    FenceFirstAt(pre, body);
    assert s[|pre| + 3..] == body;
    NoFenceWhole(body);
    AfterFirstAt(s, Fence, |pre|, body);
    CandidateOfPlain(s, body);
  }

  /** A JSON field of the decoded object: absent, `null`, or a value. */
  datatype Field<T> = Missing | Null | Present(value: T)

  /** What `json.loads` makes of the candidate, reduced to what the service reads. */
  datatype Parsed =
    | NotJson
    | NotAnObject
    | Object(summary: Field<string>, keyPoints: Field<seq<string>>, actionItems: Field<seq<string>>,
             category: Field<string>)

  /** The columns a reply fills. */
  datatype Fields = Fields(summaryText: string, keyPoints: Option<seq<string>>, actionItems: Option<seq<string>>,
                           category: Option<string>)

  /** Why no summary is stored. */
  datatype Cause =
    | ProviderFailed(message: string)  // the API call raised
    | ReplyNotAnObject                 // `.get` on a decoded list, string or number
    | SummaryNull                      // `summary_text` is NOT NULL
    | RecordingTaken                   // `recording_id` is unique

  /** `result.get(key, [])` for a list field. */
  function ListOr(f: Field<seq<string>>): (r: Option<seq<string>>)
    ensures f.Missing? ==> r == Some([])
    ensures f.Null? ==> r == None
    ensures f.Present? ==> r == Some(f.value)
  {
    match f
    case Missing => Some([])
    case Null => None
    case Present(v) => Some(v)
  }

  /** The fields a reply yields, given the decoder's verdict on its candidate. */
  function Extract(response: string, parsed: Parsed): (r: Result<Fields, Cause>)
    // Undecodable: the whole reply, untruncated, is the summary, under category "unknown".
    ensures parsed.NotJson? ==> r == Ok(Fields(response, Some([]), Some([]), Some(FallbackCategory)))
    ensures parsed.NotAnObject? ==> r == Err(ReplyNotAnObject)
    // An object: a missing summary is empty, missing lists are empty, a missing category
    // stays unset, and an explicit null summary cannot be stored.
    ensures parsed.Object? ==>
              (r.Err? <==> parsed.summary.Null?)
              && (r.Ok? ==> r.value.summaryText == (if parsed.summary.Present? then parsed.summary.value else [])
                            && r.value.keyPoints == ListOr(parsed.keyPoints)
                            && r.value.actionItems == ListOr(parsed.actionItems)
                            && r.value.category == (if parsed.category.Present? then Some(parsed.category.value) else None))
  {
    match parsed
    case NotJson => Ok(Fields(response, Some([]), Some([]), Some(FallbackCategory)))
    case NotAnObject => Err(ReplyNotAnObject)
    case Object(s, kp, ai, cat) =>
      if s.Null? then Err(SummaryNull)
      else
        var text := if s.Missing? then [] else s.value;
        Ok(Fields(text, ListOr(kp), ListOr(ai), if cat.Present? then Some(cat.value) else None))
  }

  /** A reply that is a fenced JSON block decoding to an object with a summary yields that
      summary; an undecodable fenced block falls back to the whole reply, fences included. */
  lemma FencedReply(pre: string, body: string, tail: string, decode: string -> Parsed)
    requires !Contains(pre, JsonFence)
    requires !Contains(body, Fence) && (body == [] || body[|body| - 1] != '`')
    requires tail == [] || tail[0] != '`'
    ensures var response := pre + JsonFence + body + Fence + tail;
            var r := Extract(response, decode(JsonCandidate(response)));
            (decode(Strip(body)).Object? && decode(Strip(body)).summary.Present? ==>
               r.Ok? && r.value.summaryText == decode(Strip(body)).summary.value)
            && (decode(Strip(body)).NotJson? ==> r.Ok? && r.value.summaryText == response)
  {
    JsonBlock(pre, body, tail);
  }

  /** A `summaries` row. */
  class Summary {
    const recordingId: string
    const transcriptionId: string
    var summaryText: string
    var keyPoints: Option<seq<string>>
    var actionItems: Option<seq<string>>
    var category: Option<string>
    var modelUsed: string

    function Contents(): Fields
      reads this
    {
      Fields(summaryText, keyPoints, actionItems, category)
    }

    constructor (recordingId: string, transcriptionId: string, fields: Fields)
      ensures this.recordingId == recordingId && this.transcriptionId == transcriptionId
      ensures Contents() == fields && modelUsed == ModelName
    {
      this.recordingId := recordingId;
      this.transcriptionId := transcriptionId;
      summaryText := fields.summaryText;
      keyPoints := fields.keyPoints;
      actionItems := fields.actionItems;
      category := fields.category;
      modelUsed := ModelName;
    }

    /** `regenerate_summary(summary, transcript, custom_prompt)` with the model's `reply` to
        `prompt`: the five generated columns are replaced, nothing else changes. */
    method RegenerateSummary(transcript: string, custom: Option<string>, reply: Result<string, string>,
                             decode: string -> Parsed)
      returns (r: Result<(), Cause>, prompt: string)
      modifies this
      ensures prompt == UserPrompt(transcript, custom)
      ensures reply.Err? ==> r == Err(ProviderFailed(reply.error)) && Contents() == old(Contents())
                             && modelUsed == old(modelUsed)
      ensures reply.Ok? ==> var e := Extract(reply.value, decode(JsonCandidate(reply.value)));
                            (r.Ok? <==> e.Ok?)
                            && (e.Ok? ==> Contents() == e.value && modelUsed == ModelName)
                            && (e.Err? ==> r == Err(e.error) && Contents() == old(Contents()) && modelUsed == old(modelUsed))
    {
      prompt := UserPrompt(transcript, custom);
      if reply.Err? {
        return Err(ProviderFailed(reply.error)), prompt;
      }
      var extracted := Extract(reply.value, decode(JsonCandidate(reply.value)));
      if extracted.Err? {
        return Err(extracted.error), prompt;
      }
      var f := extracted.value;
      summaryText := f.summaryText;
      keyPoints := f.keyPoints;
      actionItems := f.actionItems;
      category := f.category;
      modelUsed := ModelName;
      return Ok(()), prompt;
    }
  }

  /** The `summaries` table. */
  class SummaryStore {
    var rows: seq<Summary>

    constructor ()
      ensures rows == []
    {
      rows := [];
    }

    predicate HasRecording(recordingId: string)
      reads this
    {
      exists k :: 0 <= k < |rows| && rows[k].recordingId == recordingId
    }

    /** `generate_summary(transcript, recording_id, transcription_id, custom_prompt)` with the
        model's `reply` to `prompt`: a new row is committed, or nothing is stored. */
    method GenerateSummary(transcript: string, recordingId: string, transcriptionId: string,
                           custom: Option<string>, reply: Result<string, string>, decode: string -> Parsed)
      returns (r: Result<Summary, Cause>, prompt: string)
      modifies this
      ensures prompt == UserPrompt(transcript, custom)
      ensures reply.Err? ==> r == Err(ProviderFailed(reply.error))
      ensures reply.Ok? ==> var e := Extract(reply.value, decode(JsonCandidate(reply.value)));
                            (e.Err? ==> r == Err(e.error))
                            && (e.Ok? && old(HasRecording(recordingId)) ==> r == Err(RecordingTaken))
                            && (e.Ok? && !old(HasRecording(recordingId)) ==>
                                  r.Ok? && fresh(r.value) && r.value.Contents() == e.value
                                  && r.value.recordingId == recordingId && r.value.transcriptionId == transcriptionId
                                  && r.value.modelUsed == ModelName)
      ensures r.Ok? ==> rows == old(rows) + [r.value]
      ensures r.Err? ==> rows == old(rows)
    {
      prompt := UserPrompt(transcript, custom);
      if reply.Err? {
        return Err(ProviderFailed(reply.error)), prompt;
      }
      var extracted := Extract(reply.value, decode(JsonCandidate(reply.value)));
      if extracted.Err? {
        return Err(extracted.error), prompt;
      }
      if HasRecording(recordingId) {
        return Err(RecordingTaken), prompt;
      }
      var s := new Summary(recordingId, transcriptionId, extracted.value);
      rows := rows + [s];
      return Ok(s), prompt;
    }
  }
}
