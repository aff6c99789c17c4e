/** The page logic of `App.tsx` apart from presentation: the form check that
    gates submission, the submit handler around the pipeline, and the
    per-segment audio handler (script text, speech call, byte copy, WAV
    wrapping, and the per-index update of the audio list). */
module App {
  import opened Wrappers
  import opened JsText
  import opened Types
  import opened Pipeline
  import opened Adapters
  import opened Wav

  // ---------------------------------------------------------------- the form

  /** `isFormValid`: persona and topic have a non-blank character and the
      requested duration is at least 8 seconds. */
  function IsFormValid(form: FormState): (ok: bool)
    ensures ok <==> !AllWhitespace(form.personaDna) && !AllWhitespace(form.topic) && form.durationSec >= 8
  {
    TrimEmptyIffBlank(form.personaDna);
    TrimEmptyIffBlank(form.topic);
    Trim(form.personaDna) != "" && Trim(form.topic) != "" && form.durationSec >= 8
  }

  /** What the page shows after a submission. */
  datatype SubmitOutcome = NotSubmitted | Shown(result: GenerationResult) | ShownError(message: string)

  /** What the page shows for a pipeline result: the result, or the
      message of the error it threw. */
  function Display(res: Result<GenerationResult, UserError>): (shown: SubmitOutcome)
    ensures res.Success? ==> shown == Shown(res.value)
    ensures res.Failure? ==> shown == ShownError(res.error.Message())
  {
    match res
    case Success(r) => Shown(r)
    case Failure(e) => ShownError(e.Message())
  }

  /** `handleSubmit`: nothing happens for an invalid form; otherwise the
      pipeline runs once, and its result, or its error's message, is shown. */
  method HandleSubmit(form: FormState, svc: Services) returns (outcome: SubmitOutcome, trace: seq<Request>)
    ensures !IsFormValid(form) ==> outcome == NotSubmitted && trace == []
    ensures IsFormValid(form) ==> var (res, calls) := Run(form, svc); outcome == Display(res) && trace == calls
  {
    if !IsFormValid(form) {
      return NotSubmitted, [];
    }
    var res;
    res, trace := GenerateVideoPrompts(form, svc);
    outcome := Display(res);
  }

  // ---------------------------------------------------------------- audio

  /** The text of every line of a script, in order. */
  function LineTexts(lines: seq<VoiceoverLine>): (ts: seq<string>)
    ensures |ts| == |lines| && forall i :: 0 <= i < |lines| ==> ts[i] == lines[i].text
  {
    seq(|lines|, i requires 0 <= i < |lines| => lines[i].text)
  }

  /** The text sent to speech: the line texts joined with single spaces. */
  function ScriptText(script: VoiceoverScript): string {
    Join(LineTexts(script.lines), " ")
  }

  lemma AllWhitespaceConcat(a: string, b: string)
    ensures AllWhitespace(a + b) <==> AllWhitespace(a) && AllWhitespace(b)
  {
    if AllWhitespace(a + b) {
      forall i | 0 <= i < |a| ensures IsJsWhitespace(a[i]) { assert (a + b)[i] == a[i]; }
      forall i | 0 <= i < |b| ensures IsJsWhitespace(b[i]) { assert (a + b)[|a| + i] == b[i]; }
    }
  }

  /** Joining with a space is blank exactly when every part is blank. */
  lemma {:induction false} BlankJoin(parts: seq<string>)
    ensures AllWhitespace(Join(parts, " ")) <==> forall i :: 0 <= i < |parts| ==> AllWhitespace(parts[i])
  {
    var n := |parts|;
    if n > 1 {
      var init := parts[..n - 1];
      BlankJoin(init);
      AllWhitespaceConcat(Join(init, " ") + " ", parts[n - 1]);
      AllWhitespaceConcat(Join(init, " "), " ");
      assert AllWhitespace(" ");
      assert forall i :: 0 <= i < n - 1 ==> init[i] == parts[i];
    }
  }

  /** The speech adapter's blank guard fires exactly when every line of the
      script is blank, which includes a script with no lines. */
  lemma ScriptTextBlankIff(script: VoiceoverScript)
    ensures AllWhitespace(ScriptText(script)) <==> forall i :: 0 <= i < |script.lines| ==> AllWhitespace(script.lines[i].text)
  {
    BlankJoin(LineTexts(script.lines));
  }

  /** The speech service replies with 24 kHz, mono, 16-bit PCM. */
  const TtsSampleRate := 24000
  const TtsChannels := 1
  const TtsBitsPerSample := 16

  /** What the audio handler leaves for one segment: nothing, an error for
      that segment, or the WAV bytes for that segment. */
  datatype AudioOutcome = AudioSkipped | AudioError(index: int, message: string) | AudioReady(index: int, wav: seq<byte>)

  /** `handleGenerateAudio` up to the object URL: the segment's script text
      goes to the speech adapter, the base64 reply is decoded (`atob` is the
      oracle `atob`, failing with its error's message) and wrapped as WAV.
      A segment without a script is skipped; any error is reported for the
      segment with its message. */
  method HandleGenerateAudio(result: Option<GenerationResult>, segmentIndex: int, call: MediaCall,
                             atob: string -> Result<string, string>)
      returns (outcome: AudioOutcome, requests: seq<MediaRequest>)
    ensures !(result.Some? && 0 <= segmentIndex < |result.value.voiceoverScripts|) ==> outcome == AudioSkipped && requests == []
    ensures result.Some? && 0 <= segmentIndex < |result.value.voiceoverScripts| ==>
      var text := ScriptText(result.value.voiceoverScripts[segmentIndex]);
      var reply := AudioReply(call(SpeechRequest(text, SpeechVoice)));
      && (AllWhitespace(text) ==> requests == [] && outcome == AudioError(segmentIndex, EmptyScript.Message()))
      && (!AllWhitespace(text) ==> requests == [SpeechRequest(text, SpeechVoice)])
      && (!AllWhitespace(text) && reply.Failure? ==> outcome == AudioError(segmentIndex, reply.error.Message()))
      && (!AllWhitespace(text) && reply.Success? && atob(reply.value).Failure? ==>
            outcome == AudioError(segmentIndex, atob(reply.value).error))
      && (!AllWhitespace(text) && reply.Success? && atob(reply.value).Success? ==>
            outcome == AudioReady(segmentIndex, SpeechWav(atob(reply.value).value)))
  {
    if !(result.Some? && 0 <= segmentIndex < |result.value.voiceoverScripts|) {
      return AudioSkipped, [];
    }
    var script := result.value.voiceoverScripts[segmentIndex];
    var scriptText := Join(LineTexts(script.lines), " ");
    var base64Audio;
    base64Audio, requests := GenerateVoiceoverAudio(scriptText, call);
    if base64Audio.Failure? {
      return AudioError(segmentIndex, base64Audio.error.Message()), requests;
    }
    var binaryString := atob(base64Audio.value);
    if binaryString.Failure? {
      return AudioError(segmentIndex, binaryString.error), requests;
    }
    var pcmData := BinaryStringBytes(binaryString.value);
    var wav := PcmToWav(pcmData, TtsSampleRate, TtsChannels, TtsBitsPerSample);
    return AudioReady(segmentIndex, wav[..]), requests;
  }

  /** The WAV file for the decoded speech bytes. */
  function SpeechWav(binaryString: string): (wav: seq<byte>)
    ensures |wav| == 44 + |binaryString|
  {
    WavHeader(|binaryString|, TtsSampleRate, TtsChannels, TtsBitsPerSample) + CharBytes(binaryString)
  }

  /** The speech WAV declares one channel at 24000 Hz and 16 bits, so 48000
      bytes per second and 2 bytes per frame, a data size equal to the number
      of decoded bytes, and carries those bytes after the header. */
  lemma SpeechWavLayout(binaryString: string)
    requires |binaryString| < U32 - 36
    ensures var wav := SpeechWav(binaryString);
      && ReadLe16(wav, 20) == 1 && ReadLe16(wav, 22) == 1
      && ReadLe32(wav, 24) == 24000 && ReadLe32(wav, 28) == 48000
      && ReadLe16(wav, 32) == 2 && ReadLe16(wav, 34) == 16
      && ReadLe32(wav, 4) == 36 + |binaryString| && ReadLe32(wav, 40) == |binaryString|
      && wav[44..] == CharBytes(binaryString)
  {
    var n := |binaryString|;
    SpeechHeaderFields(n);
    ReadsInHeader(WavHeader(n, TtsSampleRate, TtsChannels, TtsBitsPerSample), CharBytes(binaryString));
  }

  lemma SpeechHeaderFields(n: nat)
    requires n < U32 - 36
    ensures var h := WavHeader(n, TtsSampleRate, TtsChannels, TtsBitsPerSample);
      && ReadLe16(h, 20) == 1 && ReadLe16(h, 22) == 1
      && ReadLe32(h, 24) == 24000 && ReadLe32(h, 28) == 48000
      && ReadLe16(h, 32) == 2 && ReadLe16(h, 34) == 16
      && ReadLe32(h, 4) == 36 + n && ReadLe32(h, 40) == n
  {
    var h := WavHeader(n, TtsSampleRate, TtsChannels, TtsBitsPerSample);
    HeaderFields(n, TtsSampleRate, TtsChannels, TtsBitsPerSample);
    assert ByteRate(TtsSampleRate, TtsChannels, TtsBitsPerSample) == 48000;
    assert BlockAlign(TtsChannels, TtsBitsPerSample) == 2;
    SmallMod(36 + n, U32);
    SmallMod(n, U32);
    assert ReadLe32(h, 4) == 36 + n && ReadLe32(h, 40) == n;
    assert ReadLe32(h, 28) == 48000 % U32 == 48000;
    assert ReadLe16(h, 32) == 2 % U16 == 2;
  }

  lemma SmallMod(x: int, m: int)
    requires 0 <= x < m
    ensures x % m == x
  {
  }

  /** Fields inside the header read the same once the samples follow it. */
  lemma ReadsInHeader(h: seq<byte>, samples: seq<byte>)
    requires |h| == 44
    ensures forall off :: 0 <= off <= 40 ==> ReadLe32(h + samples, off) == ReadLe32(h, off)
    ensures forall off :: 0 <= off <= 42 ==> ReadLe16(h + samples, off) == ReadLe16(h, off)
    ensures (h + samples)[44..] == samples
  {
  }

  /** The state update after a segment's audio is ready: a copy of the list
      with that index set. Indices past the old end that the assignment
      skips over are holes, read as no audio. */
  method SetAudioResult(prev: seq<Option<string>>, segmentIndex: nat, audioUrl: string) returns (newResults: seq<Option<string>>)
    ensures |newResults| == if segmentIndex < |prev| then |prev| else segmentIndex + 1
    ensures newResults[segmentIndex] == Some(audioUrl)
    ensures forall j :: 0 <= j < |prev| && j != segmentIndex ==> newResults[j] == prev[j]
    ensures forall j :: |prev| <= j < |newResults| && j != segmentIndex ==> newResults[j] == None
  {
    newResults := prev;
    if segmentIndex >= |newResults| {
      newResults := newResults + seq(segmentIndex + 1 - |newResults|, _ => None);
    }
    newResults := newResults[segmentIndex := Some(audioUrl)];
  }
}
