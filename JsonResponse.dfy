/** `parseJsonResponse`: strip an optional Markdown code fence from the
    model's reply, trim it, and hand it to `JSON.parse`, which is an oracle
    here. Any parse failure becomes one fixed error message. */
module JsonResponse {
  import opened Wrappers
  import opened JsText

  const Fence := "```"

  // Written in two pieces only so that the verifier can look inside it.
  const InvalidJsonMessage := "AI đã trả về một định dạng " + "JSON không hợp lệ. Vui lòng thử lại."

  /** `c` matches the letter `lower` case-insensitively (the regex `i` flag, on ASCII). */
  predicate LetterCI(c: char, lower: char)
    requires 'a' <= lower <= 'z'
  {
    c == lower || c as int == lower as int - 32
  }

  /** The next four characters read `json` in any case. */
  predicate JsonTagCI(s: string)
    requires |s| == 4
  {
    LetterCI(s[0], 'j') && LetterCI(s[1], 's') && LetterCI(s[2], 'o') && LetterCI(s[3], 'n')
  }

  /** The length of the match of `/^```(json)?/i`, or 0 when it does not match:
      the optional group is taken whenever it can be. */
  function LeadingFenceLength(s: string): (k: nat)
    ensures k == 0 || k == 3 || k == 7
    ensures k <= |s|
    ensures k > 0 <==> StartsWith(s, Fence)
    ensures k == 7 <==> StartsWith(s, Fence) && |s| >= 7 && JsonTagCI(s[3..7])
  {
    if StartsWith(s, Fence) then
      if |s| >= 7 && JsonTagCI(s[3..7]) then 7 else 3
    else 0
  }

  /** `s.replace(/```$/i, "")`: only a fence that is the very last three
      characters is removed. */
  function RemoveTrailingFence(s: string): (r: string)
    ensures EndsWith(s, Fence) ==> r + Fence == s
    ensures !EndsWith(s, Fence) ==> r == s
  {
    if EndsWith(s, Fence) then s[..|s| - 3] else s
  }

  /** The text handed to `JSON.parse`. */
  function StripFences(raw: string): (cleaned: string)
  {
    var afterLead := raw[LeadingFenceLength(raw)..];
    Trim(RemoveTrailingFence(afterLead))
  }

  /** `parseJsonResponse<T>`, with `JSON.parse` as the oracle `parse`. */
  function ParseJsonResponse<T>(raw: string, parse: string -> Option<T>): (r: Result<T, string>)
    ensures r.Success? <==> parse(StripFences(raw)).Some?
    ensures r.Success? ==> r.value == parse(StripFences(raw)).value
    ensures r.Failure? ==> r.error == InvalidJsonMessage
  {
    match parse(StripFences(raw))
    case Some(v) => Success(v)
    case None => Failure(InvalidJsonMessage)
  }

  /** A body wrapped in a ```` ```json ```` fence (the tag in any case) comes
      back trimmed, whatever the body is. */
  lemma StripJsonFence(tag: string, body: string)
    requires |tag| == 4 && JsonTagCI(tag)
    ensures StripFences(Fence + tag + body + Fence) == Trim(body)
  {
    var raw := Fence + tag + body + Fence;
    assert raw[..3] == Fence && raw[3..7] == tag;
    assert raw[7..] == body + Fence;
    RemoveFinalFence(body);
  }

  /** A bare fence is removed too, when the body does not itself start with `json`. */
  lemma StripBareFence(body: string)
    requires |body| < 4 || !JsonTagCI(body[..4])
    ensures StripFences(Fence + body + Fence) == Trim(body)
  {
    var raw := Fence + body + Fence;
    BareFenceLength(body);
    assert raw[3..] == body + Fence;
    RemoveFinalFence(body);
  }

  lemma BareFenceLength(body: string)
    requires |body| < 4 || !JsonTagCI(body[..4])
    ensures LeadingFenceLength(Fence + body + Fence) == 3
  {
    var raw := Fence + body + Fence;
    assert raw[..3] == Fence;
    if |body| >= 4 {
      assert raw[3..7] == body[..4];
    } else if |raw| >= 7 {
      assert raw[3 + |body|] == '`';
    }
  }

  lemma RemoveFinalFence(body: string)
    ensures RemoveTrailingFence(body + Fence) == body
  {
    var s := body + Fence;
    assert s[|s| - 3..] == Fence;
    assert s[..|s| - 3] == body;
  }

  /** A reply with no fence at either end is only trimmed. */
  lemma UnfencedIsTrimmed(raw: string)
    requires !StartsWith(raw, Fence) && !EndsWith(raw, Fence)
    ensures StripFences(raw) == Trim(raw)
  {
    assert raw[0..] == raw;
  }

  /** The sharp edge: a closing fence followed by anything, even one newline,
      is not removed, so the parser receives text that still ends with the
      fence. */
  lemma FenceBeforeNewlineSurvives(tag: string, body: string)
    requires |tag| == 4 && JsonTagCI(tag)
    ensures EndsWith(StripFences(Fence + tag + body + Fence + "\n"), Fence)
  {
    var raw := Fence + tag + body + Fence + "\n";
    assert raw[..3] == Fence && raw[3..7] == tag;
    var rest := raw[7..];
    assert rest == body + Fence + "\n";
    assert !EndsWith(rest, Fence) by { assert rest[|rest| - 1] == '\n'; }
    TrimKeepsFenceBeforeNewline(body);
  }

  lemma TrimKeepsFenceBeforeNewline(body: string)
    ensures EndsWith(Trim(body + Fence + "\n"), Fence)
  {
    FenceThenNewlineOf(body);
    TrimKeepsFinalFence(body + Fence + "\n");
  }

  /** A text that ends in three backticks and a newline. */
  predicate FenceThenNewline(s: string) {
    |s| >= 4 && s[|s| - 4] == '`' && s[|s| - 3] == '`' && s[|s| - 2] == '`' && s[|s| - 1] == '\n'
  }

  lemma FenceThenNewlineOf(body: string)
    ensures FenceThenNewline(body + Fence + "\n")
  {
    var s := body + Fence + "\n";
    assert s[|s| - 4..] == Fence + "\n";
  }

  /** Trimming such a text leaves the backticks last. */
  lemma TrimKeepsFinalFence(s: string)
    requires FenceThenNewline(s)
    ensures EndsWith(Trim(s), Fence)
  {
    TrimStartKeepsFence(s);
    var r := TrimEndDropsNewline(TrimStart(s));
    BackticksAreFence(r);
  }

  lemma BackticksAreFence(r: string)
    requires |r| >= 3 && r[|r| - 3] == '`' && r[|r| - 2] == '`' && r[|r| - 1] == '`'
    ensures EndsWith(r, Fence)
  {
    assert r[|r| - 3..] == Fence;
  }

  lemma TrimStartKeepsFence(s: string)
    requires FenceThenNewline(s)
    ensures FenceThenNewline(TrimStart(s))
  {
    var n := |s|;
    var u := TrimStart(s);
    PrefixWhitespace(s, n - |u|);
    assert n - |u| <= n - 4;
    assert u[|u| - 4] == s[n - 4] && u[|u| - 3] == s[n - 3];
    assert u[|u| - 2] == s[n - 2] && u[|u| - 1] == s[n - 1];
  }

  lemma TrimEndDropsNewline(u: string) returns (r: string)
    requires FenceThenNewline(u)
    ensures r == TrimEnd(u) && |r| >= 3
    ensures r[|r| - 3] == '`' && r[|r| - 2] == '`' && r[|r| - 1] == '`'
  {
    r := TrimEnd(u);
    SuffixWhitespace(u, |r|);
    assert |r| == |u| - 1;
    assert r[|r| - 3] == u[|u| - 4] && r[|r| - 2] == u[|u| - 3] && r[|r| - 1] == u[|u| - 2];
  }
}
