/** The AI studio overlay: the rolling voice transcript, the voice toggle, image
    generation from the model's reply, the source image and the mode switch.
    The live audio session itself is outside this model; its transcription
    events and the model's replies arrive as parameters. */
module AIEditor {
  import opened Common
  import opened Types

  datatype EditorMode = Artist | Movie | Vision | Voice | Thinker | Talker | Scribe | Fast

  /** Which photo the studio edits. */
  datatype PhotoKind = ProfilePhoto | CoverPhoto

  /** The cover shown when the user has none. */
  const DefaultCover: string := "https://images.unsplash.com/photo-1511467687858-23d96c32e4ae?w=800&fit=crop"

  /** The most transcript lines kept. */
  const TranscriptLimit: nat := 4

  const ImageDataPrefix: string := "data:image/png;base64,"
  const RenderFailure: string := "Engine failed to render image."
  const OfflineStatus: string := "Connection Offline"
  const SyncingStatus: string := "Syncing Neural Connection..."

  datatype EditorState = EditorState(
    mode: EditorMode,
    prompt: string,
    isGenerating: bool,
    preview: Option<string>,
    error: Option<string>,
    status: string,
    voiceActive: bool,
    hasSession: bool)

  /** The image the studio starts from. */
  function InitialImage(kind: PhotoKind, u: User): (img: string)
    ensures kind == ProfilePhoto ==> img == u.profilePhoto
    ensures kind == CoverPhoto && Truthy(u.coverPhoto) ==> img == u.coverPhoto.value
    ensures kind == CoverPhoto && !Truthy(u.coverPhoto) ==> img == DefaultCover
    ensures kind == CoverPhoto ==> |img| > 0
  {
    if kind == ProfilePhoto then u.profilePhoto else OrElse(u.coverPhoto, Some(DefaultCover)).value
  }

  // ---------------------------------------------------------------------------
  // Rolling transcript

  /** Who a transcribed line came from. */
  datatype Origin = FromModel | FromUser

  /** A transcript line: "Gemini: " for the model's speech, "You: " for the
      user's. */
  function TranscriptLine(who: Origin, text: string): (line: string)
    ensures who == FromModel ==> StartsWith(line, "Gemini: ") && line[|"Gemini: "|..] == text
    ensures who == FromUser ==> StartsWith(line, "You: ") && line[|"You: "|..] == text
  {
    var prefix := if who == FromModel then "Gemini: " else "You: ";
    assert (prefix + text)[..|prefix|] == prefix;
    prefix + text
  }

  /** The last `n` elements of `t`, or all of them when there are fewer
      (`t.slice(-n)`). */
  function LastN(t: seq<string>, n: nat): (r: seq<string>)
    ensures |r| == if |t| < n then |t| else n
    ensures r == t[|t| - |r|..]
  {
    if |t| <= n then t else t[|t| - n..]
  }

  /** Appending a line: keep at most the last three, then add the new one. */
  function PushLine(t: seq<string>, line: string): (r: seq<string>)
    ensures 1 <= |r| <= TranscriptLimit
    ensures r[|r| - 1] == line
    ensures r[..|r| - 1] == LastN(t, TranscriptLimit - 1)
  {
    LastN(t, TranscriptLimit - 1) + [line]
  }

  /** Lines appended one after another, in order. */
  function PushAll(t: seq<string>, lines: seq<string>): seq<string>
    decreases |lines|
  {
    if |lines| == 0 then t else PushAll(PushLine(t, lines[0]), lines[1..])
  }

  lemma LastNOfLastN(x: seq<string>, y: seq<string>, n: nat)
    ensures LastN(LastN(x, n) + y, n) == LastN(x + y, n)
  {
    var a := LastN(x, n);
    if |x| <= n {
      assert a == x;
    } else {
      var r1 := LastN(a + y, n);
      var r2 := LastN(x + y, n);
      assert |r1| == |r2| == n;
      forall i | 0 <= i < n ensures r1[i] == r2[i] {
        var j1 := |a + y| - n + i;
        var j2 := |x + y| - n + i;
        if j1 < |a| {
          assert (a + y)[j1] == a[j1] == x[|x| - |a| + j1];
          assert j2 == |x| - |a| + j1;
        } else {
          assert (a + y)[j1] == y[j1 - |a|];
          assert (x + y)[j2] == y[j2 - |x|];
        }
      }
    }
  }

  /** Whatever the stream of transcriptions, the panel shows exactly the last
      four lines received (all of them while fewer than four have arrived),
      oldest first. */
  lemma {:induction false} TranscriptWindow(t: seq<string>, lines: seq<string>)
    requires |t| <= TranscriptLimit
    ensures PushAll(t, lines) == LastN(t + lines, TranscriptLimit)
    decreases |lines|
  {
    if |lines| == 0 {
      assert t + lines == t;
    } else {
      var t1 := PushLine(t, lines[0]);
      TranscriptWindow(t1, lines[1..]);
      LastNOfLastN(t + [lines[0]], lines[1..], TranscriptLimit);
      assert t1 == LastN(t + [lines[0]], TranscriptLimit);
      assert t + [lines[0]] + lines[1..] == t + lines;
    }
  }

  /** The transcription a server message may carry: the model's speech and
      the user's, either possibly absent. */
  datatype Transcription = Transcription(output: Option<string>, input: Option<string>)

  /** The lines one message contributes, in order: the model's, then the
      user's. */
  function MessageLines(e: Transcription): (lines: seq<string>)
    ensures |lines| == (if e.output.Some? then 1 else 0) + (if e.input.Some? then 1 else 0)
  {
    (if e.output.Some? then [TranscriptLine(FromModel, e.output.value)] else [])
    + (if e.input.Some? then [TranscriptLine(FromUser, e.input.value)] else [])
  }

  lemma PushOne(t: seq<string>, a: string)
    ensures PushAll(t, [a]) == PushLine(t, a)
  {
    assert [a][1..] == [];
  }

  lemma PushTwo(t: seq<string>, a: string, b: string)
    ensures PushAll(t, [a, b]) == PushLine(PushLine(t, a), b)
  {
    assert [a, b][1..] == [b];
    PushOne(PushLine(t, a), b);
  }

  /** The two transcript updates of `onmessage`: the model's line is appended
      first, then the user's, each keeping the last three older lines. */
  function OnTranscription(t: seq<string>, e: Transcription): (r: seq<string>)
    ensures r == PushAll(t, MessageLines(e))
    ensures |t| <= TranscriptLimit ==> |r| <= TranscriptLimit
    ensures e.input.Some? ==> |r| > 0 && r[|r| - 1] == TranscriptLine(FromUser, e.input.value)
    ensures e.output.Some? && e.input.Some? ==> |r| >= 2 && r[|r| - 2] == TranscriptLine(FromModel, e.output.value)
    ensures e.input.None? && e.output.Some? ==> |r| > 0 && r[|r| - 1] == TranscriptLine(FromModel, e.output.value)
    ensures e.input.None? && e.output.None? ==> r == t
  {
    match e
    case Transcription(None, None) =>
      t
    case Transcription(Some(o), None) =>
      var a := TranscriptLine(FromModel, o);
      PushOne(t, a);
      PushLine(t, a)
    case Transcription(None, Some(i)) =>
      var b := TranscriptLine(FromUser, i);
      PushOne(t, b);
      PushLine(t, b)
    case Transcription(Some(o), Some(i)) =>
      var a := TranscriptLine(FromModel, o);
      var b := TranscriptLine(FromUser, i);
      PushTwo(t, a, b);
      var t1 := PushLine(t, a);
      assert t1[|t1| - 1] == a;
      PushLine(t1, b)
  }

  /** The transcript after a stream of server messages, in delivery order. */
  function Transcribe(t: seq<string>, events: seq<Transcription>): seq<string>
    decreases |events|
  {
    if |events| == 0 then t else Transcribe(OnTranscription(t, events[0]), events[1..])
  }

  /** Every line a stream of messages contributes, in order. */
  function StreamLines(events: seq<Transcription>): seq<string>
    decreases |events|
  {
    if |events| == 0 then [] else MessageLines(events[0]) + StreamLines(events[1..])
  }

  /** Appending lines in two batches is appending them all at once. */
  lemma {:induction false} PushAllAppend(t: seq<string>, a: seq<string>, b: seq<string>)
    ensures PushAll(t, a + b) == PushAll(PushAll(t, a), b)
    decreases |a|
  {
    if |a| == 0 {
      assert a + b == b;
    } else {
      assert (a + b)[0] == a[0];
      assert (a + b)[1..] == a[1..] + b;
      PushAllAppend(PushLine(t, a[0]), a[1..], b);
    }
  }

  /** Handling the messages one by one appends all their lines in order. */
  lemma {:induction false} TranscribeIsPushAll(t: seq<string>, events: seq<Transcription>)
    ensures Transcribe(t, events) == PushAll(t, StreamLines(events))
    decreases |events|
  {
    if |events| > 0 {
      TranscribeIsPushAll(OnTranscription(t, events[0]), events[1..]);
      PushAllAppend(t, MessageLines(events[0]), StreamLines(events[1..]));
    }
  }

  /** Whatever the server sends, the panel shows exactly the last four lines
      of all transcriptions received, oldest first. */
  lemma TranscriptOfStream(t: seq<string>, events: seq<Transcription>)
    requires |t| <= TranscriptLimit
    ensures Transcribe(t, events) == LastN(t + StreamLines(events), TranscriptLimit)
  {
    TranscribeIsPushAll(t, events);
    TranscriptWindow(t, StreamLines(events));
  }

  // ---------------------------------------------------------------------------
  // Voice toggle

  /** What pressing the voice button does besides the state change: whether the
      open session is closed and whether a new connection is started. */
  datatype ToggleOutcome = ToggleOutcome(state: EditorState, closeSession: bool, connect: bool)

  /** `startVoiceAssistant` up to the connection attempt. While active it only
      shuts the session down; otherwise it clears the error and starts
      connecting. */
  function ToggleVoice(s: EditorState): (r: ToggleOutcome)
    ensures s.voiceActive ==>
      && !r.connect && r.closeSession == s.hasSession
      && !r.state.voiceActive && r.state.status == OfflineStatus
      && r.state == s.(voiceActive := false, status := OfflineStatus)
    ensures !s.voiceActive ==>
      r.connect && !r.closeSession && r.state == s.(error := None, status := SyncingStatus)
  {
    if s.voiceActive then ToggleOutcome(s.(voiceActive := false, status := OfflineStatus), s.hasSession, false)
    else ToggleOutcome(s.(error := None, status := SyncingStatus), false, true)
  }

  /** Pressing the button twice from an active session never reconnects on the
      first press, and the second press starts a fresh connection. */
  lemma ToggleOffThenOn(s: EditorState)
    requires s.voiceActive
    ensures !ToggleVoice(s).connect
    ensures ToggleVoice(ToggleVoice(s).state).connect
  {
  }

  // ---------------------------------------------------------------------------
  // Image generation

  /** One part of the model's reply; `inlineData` holds base64 image data. */
  datatype Part = Part(text: Option<string>, inlineData: Option<string>)

  /** `k` is the first part of `parts` with inline data. */
  predicate IsFirstInline(parts: seq<Part>, k: int) {
    0 <= k < |parts| && parts[k].inlineData.Some?
    && forall j :: 0 <= j < k ==> parts[j].inlineData.None?
  }

  /** The data of the first part with inline data: the `for … break` scan. */
  function FirstInline(parts: seq<Part>): (r: Option<string>)
    ensures r.None? <==> forall j :: 0 <= j < |parts| ==> parts[j].inlineData.None?
    ensures r.Some? ==> exists k :: IsFirstInline(parts, k) && r.value == parts[k].inlineData.value
  {
    if |parts| == 0 then None
    else if parts[0].inlineData.Some? then
      assert IsFirstInline(parts, 0);
      parts[0].inlineData
    else
      var r := FirstInline(parts[1..]);
      if r.Some? then
        var k :| IsFirstInline(parts[1..], k) && r.value == parts[1..][k].inlineData.value;
        assert IsFirstInline(parts, k + 1);
        r
      else
        assert forall j :: 1 <= j < |parts| ==> parts[j] == parts[1..][j - 1];
        r
  }

  /** `handleImageGenerate` given the model's reply: the parts of its first
      candidate (empty when it has none), or the error thrown. */
  function GenerateImage(s: EditorState, reply: Remote<seq<Part>>): (r: EditorState)
    ensures IsBlank(s.prompt) ==> r == s
    ensures !IsBlank(s.prompt) ==> !r.isGenerating
    ensures !IsBlank(s.prompt) && reply.Err? ==> r == s.(isGenerating := false, error := Some(reply.message))
    ensures !IsBlank(s.prompt) && reply.Ok? && FirstInline(reply.data).Some? ==>
      r == s.(isGenerating := false, error := None, preview := Some(ImageDataPrefix + FirstInline(reply.data).value))
    ensures !IsBlank(s.prompt) && reply.Ok? && FirstInline(reply.data).None? ==>
      r == s.(isGenerating := false, error := Some(RenderFailure))
  {
    TrimEmptyIffBlank(s.prompt);
    if Trim(s.prompt) == "" then s
    else
      var busy := s.(isGenerating := true, error := None);
      var done := match reply
        case Err(msg) => busy.(error := Some(msg))
        case Ok(parts) =>
          match FirstInline(parts)
          case Some(data) => busy.(preview := Some(ImageDataPrefix + data))
          case None => busy.(error := Some(RenderFailure));
      done.(isGenerating := false)
  }

  /** The execute button is disabled while generating or with a blank prompt. */
  function ExecuteDisabled(s: EditorState): (disabled: bool)
    ensures disabled <==> s.isGenerating || IsBlank(s.prompt)
  {
    TrimEmptyIffBlank(s.prompt);
    s.isGenerating || Trim(s.prompt) == ""
  }

  /** Switching mode: the new mode, and no error left over. */
  function SetMode(s: EditorState, m: EditorMode): (r: EditorState)
    ensures r.mode == m && r.error.None?
    ensures r.(mode := s.mode, error := s.error) == s
  {
    s.(mode := m, error := None)
  }

  /** A failed generation's error disappears once the user switches mode, and
      the preview of an earlier success survives the failure. */
  lemma ModeSwitchClearsFailure(s: EditorState, msg: string, m: EditorMode)
    requires !IsBlank(s.prompt)
    ensures SetMode(GenerateImage(s, Err(msg)), m).error.None?
    ensures SetMode(GenerateImage(s, Err(msg)), m).preview == s.preview
  {
  }
}
