/** The three media adapters: `generateHookImage`, `editHookImage` and
    `generateVoiceoverAudio`. Each checks its input before any service call
    and reports those guard errors as they are; anything that goes wrong
    during or after the call (a thrown SDK error, a reply without image or
    audio data) is replaced by one generic message per adapter. The service
    call is an oracle from request to the parts of the first candidate. */
module Adapters {
  import opened Wrappers
  import opened JsText
  import opened Types

  /** The `inlineData` of a reply part. */
  datatype InlineData = InlineData(data: string, mimeType: string)

  /** One part of the first candidate of a reply. */
  datatype Part = Part(text: Option<string>, inlineData: Option<InlineData>)

  /** One media call and what it carries. The image-edit request's data is
      absent when the data URL has no comma. */
  datatype MediaRequest =
    | HookImageRequest(aspectRatio: string, topic: string, firstVisual: string, persona: string)
    | EditImageRequest(imageData: Option<string>, mimeType: string, editText: string)
    | SpeechRequest(text: string, voiceName: string)

  /** The reply's parts, or the message of the error the call throws (a reply
      without a first candidate throws too). */
  type MediaCall = MediaRequest -> Result<seq<Part>, string>

  /** The errors the adapters throw. The first four are guard errors, thrown
      before any call; the last three replace every error raised inside the
      adapter's `try`. */
  datatype AdapterError = NoShots | InvalidDataUrl | EmptyEditText | EmptyScript
                        | ImageFailed | EditFailed | AudioFailed
  {
    predicate IsGuardError() {
      NoShots? || InvalidDataUrl? || EmptyEditText? || EmptyScript?
    }

    function Message(): string {
      match this
      case NoShots => "Kế hoạch video không có cảnh nào để tạo ảnh."
      case InvalidDataUrl => "Invalid image data URL format provided."
      case EmptyEditText => "Edit text cannot be empty."
      case EmptyScript => "Văn bản kịch bản không được để trống."
      case ImageFailed => "Không thể tạo ảnh từ Gemini. Model có thể bị quá tải hoặc yêu cầu không hợp lệ."
      case EditFailed => "Không thể chỉnh sửa ảnh từ Gemini. Model có thể bị quá tải hoặc yêu cầu không hợp lệ."
      case AudioFailed => "Không thể tạo âm thanh từ Gemini. Model có thể bị quá tải hoặc yêu cầu không hợp lệ."
    }
  }

  const PngDataUrlPrefix := "data:image/png;base64,"
  const ImageDataUrlPrefix := "data:image/"
  const DataMarker := "data:"
  const Base64Marker := ";base64"
  const DefaultMimeType := "image/png"
  const SpeechVoice := "Kore"

  // ---------------------------------------------------------------- image replies

  /** The data of the first part that has inline data. */
  function ImageDataOf(parts: seq<Part>): (d: Option<string>)
    ensures d.None? <==> forall k :: 0 <= k < |parts| ==> parts[k].inlineData.None?
    ensures d.Some? ==> exists i :: 0 <= i < |parts| && parts[i].inlineData.Some? && parts[i].inlineData.value.data == d.value
                                    && forall k :: 0 <= k < i ==> parts[k].inlineData.None?
  {
    if parts == [] then None
    else if parts[0].inlineData.Some? then
      Some(parts[0].inlineData.value.data)
    else
      var d := ImageDataOf(parts[1..]);
      assert forall k :: 1 <= k < |parts| ==> parts[k] == parts[1..][k - 1];
      if d.Some? then
        var i :| 0 <= i < |parts[1..]| && parts[1..][i].inlineData.Some? && parts[1..][i].inlineData.value.data == d.value
                 && forall k :: 0 <= k < i ==> parts[1..][k].inlineData.None?;
        assert parts[i + 1] == parts[1..][i];
        d
      else d
  }

  /** The `for … of` loop over the reply's parts: the first part with inline
      data wins. */
  method FindImageData(parts: seq<Part>) returns (d: Option<string>)
    ensures d == ImageDataOf(parts)
  {
    var i := 0;
    while i < |parts|
      invariant 0 <= i <= |parts|
      invariant ImageDataOf(parts[i..]) == ImageDataOf(parts)
    {
      if parts[i].inlineData.Some? {
        return Some(parts[i].inlineData.value.data);
      }
      assert parts[i..][1..] == parts[i + 1..];
      i := i + 1;
    }
    assert parts[i..] == [];
    return None;
  }

  /** What an image adapter returns for a reply: a PNG data URL around the
      first inline data, or its generic error. */
  function ImageReply(reply: Result<seq<Part>, string>, generic: AdapterError): (r: Result<string, AdapterError>)
  {
    match reply
    case Failure(_) => Failure(generic)
    case Success(parts) =>
      match ImageDataOf(parts)
      case Some(d) => Success(PngDataUrlPrefix + d)
      case None => Failure(generic)
  }

  /** An image adapter succeeds exactly when the call returned a part with
      inline data, and then hands back that data behind the PNG prefix;
      otherwise it reports its generic error, whatever the call threw. */
  lemma ImageReplyOutcome(reply: Result<seq<Part>, string>, generic: AdapterError)
    ensures ImageReply(reply, generic).Success? <==>
      reply.Success? && exists k :: 0 <= k < |reply.value| && reply.value[k].inlineData.Some?
    ensures ImageReply(reply, generic).Success? ==>
      ImageReply(reply, generic).value == PngDataUrlPrefix + ImageDataOf(reply.value).value
    ensures ImageReply(reply, generic).Failure? ==> ImageReply(reply, generic).error == generic
  {
  }

  // ---------------------------------------------------------------- generateHookImage

  /** The thumbnail request: aspect ratio, topic, first shot's visual, persona. */
  function HookImageRequestOf(plan: VideoPlan): (req: MediaRequest)
    requires |plan.shots| > 0
  {
    HookImageRequest(plan.aspectRatio, plan.topic, plan.shots[0].visual, plan.personaDna)
  }

  /** `generateHookImage`: a plan without shots is rejected before any call. */
  method GenerateHookImage(plan: VideoPlan, call: MediaCall) returns (r: Result<string, AdapterError>, requests: seq<MediaRequest>)
    ensures requests == [] <==> plan.shots == []
    ensures plan.shots == [] ==> r == Failure(NoShots)
    ensures plan.shots != [] ==> requests == [HookImageRequestOf(plan)]
                                 && r == ImageReply(call(HookImageRequestOf(plan)), ImageFailed)
    ensures r.Failure? ==> (r.error.IsGuardError() <==> requests == [])
  {
    if |plan.shots| == 0 {
      return Failure(NoShots), [];
    }
    var request := HookImageRequest(plan.aspectRatio, plan.topic, plan.shots[0].visual, plan.personaDna);
    requests := [request];
    var reply := call(request);
    if reply.Failure? {
      return Failure(ImageFailed), requests;
    }
    var d := FindImageData(reply.value);
    if d.Some? {
      return Success(PngDataUrlPrefix + d.value), requests;
    }
    return Failure(ImageFailed), requests;
  }

  // ---------------------------------------------------------------- editHookImage

  /** JavaScript line terminators, which the regex `.` does not match. */
  predicate IsLineTerminator(c: char) {
    c == '\n' || c == '\r' || c == '\U{2028}' || c == '\U{2029}'
  }

  /** The first index at or after `start` holding a line terminator, or `|s|`. */
  function LineEnd(s: string, start: int): (e: int)
    requires 0 <= start <= |s|
    ensures start <= e <= |s|
    ensures forall k :: start <= k < e ==> !IsLineTerminator(s[k])
    ensures e < |s| ==> IsLineTerminator(s[e])
    decreases |s| - start
  {
    if start == |s| || IsLineTerminator(s[start]) then start else LineEnd(s, start + 1)
  }

  /** The last position in `[lo, hi]` where `;base64` starts. */
  function LastMarkerIn(s: string, lo: int, hi: int): (j: Option<int>)
    requires 0 <= lo <= hi <= |s|
    ensures j.Some? ==> lo <= j.value <= hi && OccursAt(s, Base64Marker, j.value)
    ensures forall k :: lo <= k <= hi && (j.None? || j.value < k) ==> !OccursAt(s, Base64Marker, k)
    decreases hi - lo
  {
    if OccursAt(s, Base64Marker, hi) then Some(hi)
    else if hi == lo then None
    else LastMarkerIn(s, lo, hi - 1)
  }

  /** `m` is captured by a `data:` at `a`: it follows the marker and a
      `;base64` follows it. */
  predicate CapturedAt(s: string, a: int, m: string) {
    OccursAt(s, DataMarker, a) && OccursAt(s, Base64Marker, a + 5 + |m|) && s[a + 5..a + 5 + |m|] == m
  }

  /** The capture group of `/data:(.*);base64/` searched from index `i`: the
      leftmost `data:` that a `;base64` follows on the same line, and the
      text up to the last such `;base64` (the greedy `.*`). */
  function MimeCaptureFrom(s: string, i: int): (m: Option<string>)
    requires 0 <= i <= |s|
    ensures m.Some? ==> exists a :: i <= a && CapturedAt(s, a, m.value)
    ensures m.Some? ==> forall k :: 0 <= k < |m.value| ==> !IsLineTerminator(m.value[k])
    decreases |s| - i
  {
    if OccursAt(s, DataMarker, i) && LastMarkerIn(s, i + 5, LineEnd(s, i + 5)).Some? then
      var j := LastMarkerIn(s, i + 5, LineEnd(s, i + 5)).value;
      CaptureBetween(s, i, j);
      SliceAvoidsTerminators(s, i + 5, j);
      Some(s[i + 5..j])
    else if i == |s| then None
    else MimeCaptureFrom(s, i + 1)
  }

  lemma CaptureBetween(s: string, i: int, j: int)
    requires OccursAt(s, DataMarker, i) && i + 5 <= j && OccursAt(s, Base64Marker, j)
    requires forall k :: i + 5 <= k < j ==> !IsLineTerminator(s[k])
    ensures CapturedAt(s, i, s[i + 5..j])
  {
  }

  lemma SliceAvoidsTerminators(s: string, lo: int, hi: int)
    requires 0 <= lo <= hi <= |s| && forall k :: lo <= k < hi ==> !IsLineTerminator(s[k])
    ensures forall k :: 0 <= k < hi - lo ==> !IsLineTerminator(s[lo..hi][k])
  {
    forall k | 0 <= k < hi - lo ensures !IsLineTerminator(s[lo..hi][k]) {
      assert s[lo..hi][k] == s[lo + k];
    }
  }

  /** `s.match(/data:(.*);base64/)?.[1] || 'image/png'`: an absent or empty
      capture falls back to PNG. */
  function MimeTypeOf(url: string): (mime: string)
    ensures mime != ""
    ensures MimeCaptureFrom(url, 0).Some? && MimeCaptureFrom(url, 0).value != "" ==> mime == MimeCaptureFrom(url, 0).value
    ensures MimeCaptureFrom(url, 0).None? || MimeCaptureFrom(url, 0).value == "" ==> mime == DefaultMimeType
  {
    var m := MimeCaptureFrom(url, 0);
    if m.Some? && m.value != "" then m.value else DefaultMimeType
  }

  /** The index of the first `c` in `s`, or -1. */
  function IndexOf(s: string, c: char): (k: int)
    ensures -1 <= k < |s|
    ensures k >= 0 ==> s[k] == c && forall j :: 0 <= j < k ==> s[j] != c
    ensures k < 0 ==> forall j :: 0 <= j < |s| ==> s[j] != c
  {
    if s == [] then -1
    else if s[0] == c then 0
    else
      var k := IndexOf(s[1..], c);
      if k < 0 then -1 else k + 1
  }

  /** `s.split(',')[1]`: the text between the first comma and the next one
      (or the end); absent when there is no comma. */
  function SplitSecond(s: string): (r: Option<string>)
    ensures r.None? <==> forall j :: 0 <= j < |s| ==> s[j] != ','
    ensures r.Some? ==> forall j :: 0 <= j < |r.value| ==> r.value[j] != ','
    ensures r.Some? ==>
      var f := IndexOf(s, ',');
      && f + 1 + |r.value| <= |s| && s[f + 1..f + 1 + |r.value|] == r.value
      && (f + 1 + |r.value| == |s| || s[f + 1 + |r.value|] == ',')
  {
    var first := IndexOf(s, ',');
    if first < 0 then None
    else
      var rest := s[first + 1..];
      var second := IndexOf(rest, ',');
      if second < 0 then
        assert s[first + 1..first + 1 + |rest|] == rest;
        Some(rest)
      else
        assert s[first + 1..first + 1 + second] == rest[..second];
        assert s[first + 1 + second] == rest[second];
        Some(rest[..second])
  }

  /** The edit request for a data URL and an edit instruction. */
  function EditRequestOf(url: string, editText: string): (req: MediaRequest)
  {
    EditImageRequest(SplitSecond(url), MimeTypeOf(url), editText)
  }

  /** `editHookImage`: a URL that is not an image data URL, then a blank
      instruction, are rejected before any call. */
  method EditHookImage(url: string, editText: string, call: MediaCall) returns (r: Result<string, AdapterError>, requests: seq<MediaRequest>)
    ensures requests == [] <==> !StartsWith(url, ImageDataUrlPrefix) || AllWhitespace(editText)
    ensures !StartsWith(url, ImageDataUrlPrefix) ==> r == Failure(InvalidDataUrl)
    ensures StartsWith(url, ImageDataUrlPrefix) && AllWhitespace(editText) ==> r == Failure(EmptyEditText)
    ensures requests != [] ==> requests == [EditRequestOf(url, editText)]
                               && r == ImageReply(call(EditRequestOf(url, editText)), EditFailed)
    ensures r.Failure? ==> (r.error.IsGuardError() <==> requests == [])
  {
    if !StartsWith(url, ImageDataUrlPrefix) {
      return Failure(InvalidDataUrl), [];
    }
    TrimEmptyIffBlank(editText);
    if Trim(editText) == [] {
      return Failure(EmptyEditText), [];
    }
    var imageData := SplitSecond(url);
    var mimeType := MimeTypeOf(url);
    var request := EditImageRequest(imageData, mimeType, editText);
    requests := [request];
    var reply := call(request);
    if reply.Failure? {
      return Failure(EditFailed), requests;
    }
    var d := FindImageData(reply.value);
    if d.Some? {
      return Success(PngDataUrlPrefix + d.value), requests;
    }
    return Failure(EditFailed), requests;
  }

  // ---------------------------------------------------------------- hook image, then edit

  /** The characters of standard base64 text. */
  predicate IsBase64Char(c: char) {
    ('A' <= c <= 'Z') || ('a' <= c <= 'z') || ('0' <= c <= '9') || c == '+' || c == '/' || c == '='
  }

  /** A generated thumbnail can be edited as it is: its URL passes the edit
      guard, and the edit request carries back exactly the image data and the
      PNG mime type. */
  lemma HookUrlIsEditable(data: string, editText: string)
    requires forall k :: 0 <= k < |data| ==> IsBase64Char(data[k])
    ensures StartsWith(PngDataUrlPrefix + data, ImageDataUrlPrefix)
    ensures EditRequestOf(PngDataUrlPrefix + data, editText) == EditImageRequest(Some(data), DefaultMimeType, editText)
  {
    var url := PngDataUrlPrefix + data;
    PngPrefixLayout();
    assert url[..22] == PngDataUrlPrefix;
    assert url[..11] == ImageDataUrlPrefix by { assert url[..11] == PngDataUrlPrefix[..11]; }
    forall k | 0 <= k < |url|
      ensures url[k] != ',' <==> k != 21
      ensures url[k] != ';' <==> k != 14
      ensures !IsLineTerminator(url[k])
    {
      if k >= 22 { assert url[k] == data[k - 22]; } else { assert url[k] == PngDataUrlPrefix[k]; }
    }
    HookUrlSplit(url, data);
    HookUrlMime(url);
  }

  /** The character layout of `data:image/png;base64,`. */
  lemma PngPrefixLayout()
    ensures |PngDataUrlPrefix| == 22
    ensures PngDataUrlPrefix[..11] == ImageDataUrlPrefix
    ensures PngDataUrlPrefix[..5] == DataMarker && PngDataUrlPrefix[5..14] == DefaultMimeType
    ensures PngDataUrlPrefix[14..21] == Base64Marker
    ensures forall k :: 0 <= k < 22 ==> (PngDataUrlPrefix[k] == ',' <==> k == 21)
    ensures forall k :: 0 <= k < 22 ==> (PngDataUrlPrefix[k] == ';' <==> k == 14)
    ensures forall k :: 0 <= k < 22 ==> !IsLineTerminator(PngDataUrlPrefix[k])
  {
  }

  lemma HookUrlSplit(url: string, data: string)
    requires |url| == 22 + |data| && url[22..] == data
    requires forall k :: 0 <= k < |url| ==> (url[k] != ',' <==> k != 21)
    ensures SplitSecond(url) == Some(data)
  {
    assert url[21] == ',';
    var first := IndexOf(url, ',');
    assert first == 21;
    assert forall j :: 0 <= j < |data| ==> data[j] == url[22 + j];
    assert IndexOf(data, ',') == -1;
  }

  lemma HookUrlMime(url: string)
    requires |url| >= 22 && url[..22] == PngDataUrlPrefix
    requires forall k :: 0 <= k < |url| ==> (url[k] != ';' <==> k != 14)
    requires forall k :: 0 <= k < |url| ==> !IsLineTerminator(url[k])
    ensures MimeTypeOf(url) == DefaultMimeType
  {
    PngPrefixLayout();
    assert url[0..5] == DataMarker by { assert url[0..5] == PngDataUrlPrefix[..5]; }
    assert url[14..21] == Base64Marker by { assert url[14..21] == PngDataUrlPrefix[14..21]; }
    assert LineEnd(url, 5) == |url|;
    var j := LastMarkerIn(url, 5, |url|);
    assert OccursAt(url, Base64Marker, 14);
    assert j.Some? && j.value >= 14;
    assert url[j.value] == url[j.value..j.value + 7][0] == Base64Marker[0] == ';';
    assert url[5..14] == DefaultMimeType by { assert url[5..14] == PngDataUrlPrefix[5..14]; }
  }

  // ---------------------------------------------------------------- generateVoiceoverAudio

  /** The audio of a speech reply: the data of the first part's inline data,
      when there is one and it is not empty. */
  function AudioReply(reply: Result<seq<Part>, string>): (r: Result<string, AdapterError>)
    ensures r.Success? <==> reply.Success? && |reply.value| > 0 && reply.value[0].inlineData.Some?
                            && reply.value[0].inlineData.value.data != ""
    ensures r.Success? ==> r.value == reply.value[0].inlineData.value.data && r.value != ""
    ensures r.Failure? ==> r.error == AudioFailed
  {
    match reply
    case Failure(_) => Failure(AudioFailed)
    case Success(parts) =>
      if |parts| > 0 && parts[0].inlineData.Some? && parts[0].inlineData.value.data != "" then
        Success(parts[0].inlineData.value.data)
      else Failure(AudioFailed)
  }

  /** `generateVoiceoverAudio`: blank script text is rejected before any call;
      the text is sent as it is, with the fixed voice. */
  method GenerateVoiceoverAudio(scriptText: string, call: MediaCall) returns (r: Result<string, AdapterError>, requests: seq<MediaRequest>)
    ensures requests == [] <==> AllWhitespace(scriptText)
    ensures AllWhitespace(scriptText) ==> r == Failure(EmptyScript)
    ensures !AllWhitespace(scriptText) ==> requests == [SpeechRequest(scriptText, SpeechVoice)]
                                           && r == AudioReply(call(SpeechRequest(scriptText, SpeechVoice)))
    ensures r.Failure? ==> (r.error.IsGuardError() <==> requests == [])
  {
    TrimEmptyIffBlank(scriptText);
    if Trim(scriptText) == [] {
      return Failure(EmptyScript), [];
    }
    var request := SpeechRequest(scriptText, SpeechVoice);
    requests := [request];
    r := AudioReply(call(request));
  }
}
