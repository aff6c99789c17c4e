/** The prompt composer's decisions, as structured values instead of the
    Vietnamese prose: the segment's narrative role, the continuity block and the
    strings it quotes, the subtitle directive, the emoji rules and the
    mandatory-hashtag line. A prompt value holds exactly the data its text
    interpolates. */
module Prompts {
  import opened Wrappers
  import opened JsText
  import opened Constants
  import opened Types

  // ---------------------------------------------------------------- roles

  /** The narrative role a segment is told to play. */
  datatype SegmentRole = Hook | SetUp | Turn | PayoffCta

  /** The role chosen for segment `segIndex` of `segTotal`, checked in the
      source's order: first segment, then last segment, then second segment. */
  function RoleOf(segIndex: int, segTotal: int): (r: SegmentRole)
    ensures r == Hook <==> segIndex == 1
    ensures r == PayoffCta <==> segIndex != 1 && segIndex == segTotal
    ensures r == SetUp <==> segIndex == 2 && segTotal != 2
    ensures r == Turn <==> segIndex != 1 && segIndex != 2 && segIndex != segTotal
  {
    if segIndex == 1 then Hook
    else if segIndex == segTotal then PayoffCta
    else if segIndex == 2 then SetUp
    else Turn
  }

  /** Over a whole run of `n` segments: the first is the hook (even when it is
      also the last), the last of two or more is the payoff, the set-up exists
      only when there are at least three segments, and everything strictly
      between the second and the last is a turn. */
  lemma RolesOfRun(n: int, i: int)
    requires 1 <= i <= n
    ensures RoleOf(1, n) == Hook
    ensures n >= 2 ==> RoleOf(n, n) == PayoffCta
    ensures RoleOf(i, n) == SetUp <==> i == 2 && n >= 3
    ensures RoleOf(i, n) == Turn <==> 2 < i < n
  {
  }

  // ---------------------------------------------------------------- visual plan prompt

  /** The continuity block of the visual prompt: absent, or quoting the body
      text of the previous plan and the visual of that plan's last shot. */
  datatype VisualContinuity =
    | NoVisualContinuity
    | FollowsSegment(previousIndex: int, segTotal: int, body: string, lastVisual: string)

  /** The message of the `TypeError` raised by reading `.visual` of the
      missing last shot of a plan that has no shots. */
  // Written in two pieces only so that the verifier can look inside it.
  const UndefinedVisualError := "Cannot read properties " + "of undefined (reading 'visual')"

  /** The continuity decision of the visual prompt. It looks back at the last
      plan only, and only from the second segment on; a previous plan with no
      shots makes the builder throw. */
  function VisualContinuityOf(segIndex: int, segTotal: int, previousPlans: seq<VideoPlan>): (r: Result<VisualContinuity, string>)
    ensures r == Success(NoVisualContinuity) <==> segIndex <= 1 || previousPlans == []
    ensures r.Failure? <==> segIndex > 1 && previousPlans != [] && previousPlans[|previousPlans| - 1].shots == []
    ensures r.Failure? ==> r.error == UndefinedVisualError
    ensures r.Success? && r.value.FollowsSegment? ==>
      var last := previousPlans[|previousPlans| - 1];
      r.value == FollowsSegment(segIndex - 1, segTotal, last.structure.body, last.shots[|last.shots| - 1].visual)
  {
    if segIndex > 1 && |previousPlans| > 0 then
      var lastPlan := previousPlans[|previousPlans| - 1];
      if |lastPlan.shots| == 0 then Failure(UndefinedVisualError)
      else
        var lastShot := lastPlan.shots[|lastPlan.shots| - 1];
        Success(FollowsSegment(segIndex - 1, segTotal, lastPlan.structure.body, lastShot.visual))
    else Success(NoVisualContinuity)
  }

  /** The subtitle line: off (on-screen text must be empty, overlay off), or
      on, saying whether the platform requires captions and naming its first
      caption style. */
  datatype SubtitleDirective = SubtitlesOff | SubtitlesOn(mandatory: bool, style: string)

  function SubtitleDirectiveOf(p: Platform, captionsEnabled: bool): (d: SubtitleDirective)
    ensures d.SubtitlesOff? <==> !captionsEnabled
    ensures d.SubtitlesOn? ==> d.mandatory == Config(p).captionsRequired && d.style == Config(p).captionStyles[0] && d.style != ""
  {
    if captionsEnabled then SubtitlesOn(Config(p).captionsRequired, Config(p).captionStyles[0])
    else SubtitlesOff
  }

  /** Everything the visual-plan prompt of one segment interpolates. */
  datatype VisualPrompt = VisualPrompt(
    continuity: VisualContinuity,
    segIndex: int,
    segTotal: int,
    platformLabel: string,
    aspectRatio: string,
    topic: string,
    persona: string,
    role: SegmentRole,
    musicGuideline: string,
    subtitles: SubtitleDirective)

  /** `buildVideoFramesForSegment`. */
  function BuildVisualPrompt(p: Platform, persona: string, topic: string, segIndex: int, segTotal: int,
                             captionsEnabled: bool, previousPlans: seq<VideoPlan>): (r: Result<VisualPrompt, string>)
    ensures r.Failure? <==> VisualContinuityOf(segIndex, segTotal, previousPlans).Failure?
    ensures r.Success? ==>
      && r.value.continuity == VisualContinuityOf(segIndex, segTotal, previousPlans).value
      && r.value.segIndex == segIndex && r.value.segTotal == segTotal
      && r.value.topic == topic && r.value.persona == persona
      && r.value.role == RoleOf(segIndex, segTotal)
      && r.value.subtitles == SubtitleDirectiveOf(p, captionsEnabled)
      && r.value.platformLabel == Config(p).displayLabel
      && r.value.aspectRatio == Config(p).aspectRatio && r.value.musicGuideline == Config(p).musicGuideline
  {
    match VisualContinuityOf(segIndex, segTotal, previousPlans)
    case Failure(e) => Failure(e)
    case Success(c) =>
      Success(VisualPrompt(c, segIndex, segTotal, Config(p).displayLabel, Config(p).aspectRatio,
                           topic, persona, RoleOf(segIndex, segTotal), Config(p).musicGuideline,
                           SubtitleDirectiveOf(p, captionsEnabled)))
  }

  /** In a run, the continuity of the visual prompt of segment `j + 1`,
      built from the `j` earlier plans, is empty for the first segment; from
      the second segment on the builder fails exactly when plan `j` has no
      shots, and otherwise quotes that plan's body and the visual of its last
      shot. (`BuildVisualPrompt` fails exactly when this fails and carries
      this continuity.) */
  lemma VisualQuotesPreviousPlan(j: int, segTotal: int, plans: seq<VideoPlan>)
    requires 0 <= j <= |plans|
    ensures var r := VisualContinuityOf(j + 1, segTotal, plans[..j]);
      && (j == 0 ==> r == Success(NoVisualContinuity))
      && (j >= 1 ==> (r.Failure? <==> plans[j - 1].shots == []))
      && (j >= 1 && r.Success? ==>
            var last := plans[j - 1];
            r.value == FollowsSegment(j, segTotal, last.structure.body, last.shots[|last.shots| - 1].visual))
  {
    if j >= 1 {
      assert plans[..j][j - 1] == plans[j - 1];
    }
  }

  /** The frames of the visual prompt, in order, after `filter(Boolean)` has
      dropped the empty continuity frame. */
  datatype VisualFrame = ExpertPreamble | CreativeFormula | ContinuityBlock | SegmentContext | AudioAndSubtitles | VisualTask

  function VisualFrames(v: VisualPrompt): (fs: seq<VisualFrame>)
  {
    [ExpertPreamble, CreativeFormula]
    + (if v.continuity.FollowsSegment? then [ContinuityBlock] else [])
    + [SegmentContext, AudioAndSubtitles, VisualTask]
  }

  /** The continuity frame is present exactly when there is continuity, it
      sits right after the formula, and the other frames keep their order. */
  lemma VisualFramesShape(v: VisualPrompt)
    ensures ContinuityBlock in VisualFrames(v) <==> v.continuity.FollowsSegment?
    ensures |VisualFrames(v)| == if v.continuity.FollowsSegment? then 6 else 5
    ensures VisualFrames(v)[..2] == [ExpertPreamble, CreativeFormula]
    ensures VisualFrames(v)[|VisualFrames(v)| - 3..] == [SegmentContext, AudioAndSubtitles, VisualTask]
  {
  }

  // ---------------------------------------------------------------- voiceover prompt

  /** The continuity note of the voiceover prompt: absent, or quoting the
      previous script's last line. */
  datatype DialogueContinuity = NoDialogueContinuity | PreviousLine(line: string)

  const NoDialoguePlaceholder := "[không có lời thoại]"

  /** `lastScript.voiceover_script.slice(-1)[0]?.text || "[không có lời thoại]"`. */
  function LastLineOf(script: VoiceoverScript): (line: string)
    ensures line != ""
    ensures script.lines != [] && script.lines[|script.lines| - 1].text != "" ==>
      line == script.lines[|script.lines| - 1].text
    ensures script.lines == [] || script.lines[|script.lines| - 1].text == "" ==>
      line == NoDialoguePlaceholder
  {
    if |script.lines| > 0 && script.lines[|script.lines| - 1].text != "" then
      script.lines[|script.lines| - 1].text
    else NoDialoguePlaceholder
  }

  function DialogueContinuityOf(segIndex: int, previousScripts: seq<VoiceoverScript>): (c: DialogueContinuity)
    ensures c.NoDialogueContinuity? <==> segIndex <= 1 || previousScripts == []
    ensures c.PreviousLine? ==> c.line == LastLineOf(previousScripts[|previousScripts| - 1])
  {
    if segIndex > 1 && |previousScripts| > 0 then PreviousLine(LastLineOf(previousScripts[|previousScripts| - 1]))
    else NoDialogueContinuity
  }

  /** One shot as listed in the voiceover prompt. */
  datatype ShotDetail = ShotDetail(shot: int, timeStartS: int, timeEndS: int, visual: string, onScreenText: string)

  const NoOnScreenText := "Không có"

  function ShotDetailOf(s: Shot): (d: ShotDetail)
    ensures d.onScreenText == (if s.onScreenText == "" then NoOnScreenText else s.onScreenText)
    ensures d.visual == s.visual && d.timeStartS == s.timeStartS && d.timeEndS == s.timeEndS && d.shot == s.shot
  {
    ShotDetail(s.shot, s.timeStartS, s.timeEndS, s.visual, if s.onScreenText == "" then NoOnScreenText else s.onScreenText)
  }

  function ShotDetails(shots: seq<Shot>): (ds: seq<ShotDetail>)
    ensures |ds| == |shots|
    ensures forall i :: 0 <= i < |shots| ==> ds[i] == ShotDetailOf(shots[i])
  {
    if shots == [] then [] else [ShotDetailOf(shots[0])] + ShotDetails(shots[1..])
  }

  const DefaultVoiceoverStyle := "rõ ràng, ngắn gọn"

  /** Everything the voiceover prompt of one segment interpolates. */
  datatype DialoguePrompt = DialoguePrompt(
    segIndex: int,
    segTotal: int,
    topic: string,
    persona: string,
    generalStyle: string,
    voiceTone: string,
    continuity: DialogueContinuity,
    shots: seq<ShotDetail>)

  /** `buildDialogueFramesForSegment`: the shot list comes from the plan it is
      given, the general style from the platform's first voiceover style
      (never empty, so the fallback style is never used). */
  function BuildDialoguePrompt(p: Platform, persona: string, topic: string, segIndex: int, segTotal: int,
                               voiceTone: string, plan: VideoPlan, previousScripts: seq<VoiceoverScript>): (d: DialoguePrompt)
    ensures d.shots == ShotDetails(plan.shots)
    ensures d.continuity == DialogueContinuityOf(segIndex, previousScripts)
    ensures d.generalStyle == Config(p).voiceoverStyle[0]
    ensures d.segIndex == segIndex && d.segTotal == segTotal && d.voiceTone == voiceTone
    ensures d.topic == topic && d.persona == persona
  {
    var style := if Config(p).voiceoverStyle[0] != "" then Config(p).voiceoverStyle[0] else DefaultVoiceoverStyle;
    DialoguePrompt(segIndex, segTotal, topic, persona, style, voiceTone,
                   DialogueContinuityOf(segIndex, previousScripts), ShotDetails(plan.shots))
  }

  /** In a run, the continuity note of the voiceover prompt of segment
      `j + 1`, built from the `j` earlier scripts, is absent for the first
      segment and quotes the last line of script `j` from the second segment
      on. (`BuildDialoguePrompt` carries this note.) */
  lemma DialogueQuotesPreviousScript(j: int, scripts: seq<VoiceoverScript>)
    requires 0 <= j <= |scripts|
    ensures var c := DialogueContinuityOf(j + 1, scripts[..j]);
      && (j == 0 ==> c == NoDialogueContinuity)
      && (j >= 1 ==> c == PreviousLine(LastLineOf(scripts[j - 1])))
  {
    if j >= 1 {
      assert scripts[..j][j - 1] == scripts[j - 1];
    }
  }

  // ---------------------------------------------------------------- publishing prompt

  /** The per-platform emoji defaults. */
  datatype EmojiDefaults = EmojiDefaults(enabled: bool, style: string, palette: seq<string>)

  const CommonPalette: seq<string> := ["🔥", "✨", "⚡️", "🎯", "💡", "🚀", "📱", "🎵", "📸", "😄"]

  function EmojiDefaultsOf(p: Platform): EmojiDefaults {
    match p
    case TikTok => EmojiDefaults(true, "normal", CommonPalette)
    case Shorts => EmojiDefaults(true, "normal", CommonPalette)
    case Reels => EmojiDefaults(true, "normal", CommonPalette)
    case YouTube => EmojiDefaults(false, "minimal", ["✨", "🎯", "💡", "📌", "🧠"])
    case Shopee => EmojiDefaults(true, "normal", ["🛒", "🛍️", "📦", "💥", "💸", "🏷️", "⚡️"])
  }

  /** The emoji configuration after the form's values are merged with the
      platform defaults. */
  datatype EmojiConfig = EmojiConfig(enabled: bool, style: string, palette: seq<string>, mascot: string, platform: Platform)

  const DefaultMascot := "🦡"

  /** `finalEmojiConfig`: each missing form value falls back to its default;
      the palette always comes from the platform. */
  function FinalEmojiConfig(form: FormState): (e: EmojiConfig)
    ensures e.enabled == (if form.emojiEnabled.Some? then form.emojiEnabled.value else EmojiDefaultsOf(form.platform).enabled)
    ensures e.style == (if form.emojiStyle.Some? then form.emojiStyle.value else EmojiDefaultsOf(form.platform).style)
    ensures e.mascot == (if form.mascotEmoji.Some? then form.mascotEmoji.value else DefaultMascot)
    ensures e.palette == EmojiDefaultsOf(form.platform).palette && e.platform == form.platform
  {
    var d := EmojiDefaultsOf(form.platform);
    EmojiConfig(form.emojiEnabled.GetOr(d.enabled), form.emojiStyle.GetOr(d.style), d.palette,
                form.mascotEmoji.GetOr(DefaultMascot), form.platform)
  }

  /** The title's emoji budget: 1 for `minimal`, 2 for `normal`, 3 for any
      other style. */
  function MaxTitleEmojis(style: string): (m: int)
    ensures 1 <= m <= 3
  {
    if style == "minimal" then 1 else if style == "normal" then 2 else 3
  }

  datatype TitleEmojiRule =
    | TitleBudget(style: string, maxEmojis: int)
    | TitlePalette(palette: seq<string>)
    | TitleMascotAtEnd(mascot: string)
    | TitleNoEmoji

  datatype DescriptionEmojiRule =
    | HookLinePalette(palette: seq<string>)
    | BodyLinesAtMostOne
    | StrongCtaEmoji(candidates: string)
    | MascotOptional(mascot: string)
    | NoEmojiInHashtags
    | DescriptionNoEmoji

  function StrongCtaEmojis(p: Platform): string {
    if p.Id() == "shopee" then "🛒💥💸" else "✨🎯🚀"
  }

  function TitleEmojiRules(e: EmojiConfig): (rs: seq<TitleEmojiRule>)
  {
    if e.enabled then
      [TitleBudget(e.style, MaxTitleEmojis(e.style)), TitlePalette(e.palette)]
      + (if e.mascot != "" then [TitleMascotAtEnd(e.mascot)] else [])
    else [TitleNoEmoji]
  }

  function DescriptionEmojiRules(e: EmojiConfig): (rs: seq<DescriptionEmojiRule>)
  {
    if e.enabled then
      [HookLinePalette(e.palette), BodyLinesAtMostOne, StrongCtaEmoji(StrongCtaEmojis(e.platform)),
       MascotOptional(e.mascot), NoEmojiInHashtags]
    else [DescriptionNoEmoji]
  }

  /** The emoji policy the publishing prompt states. Enabled: the title opens
      with its budget (by style) and the palette, names the mascot only when
      there is one, and the description ends its CTA line with the platform's
      strong set. Disabled: title and description each get exactly one
      "no emoji" rule. */
  lemma EmojiPolicy(e: EmojiConfig)
    ensures e.enabled ==>
      && TitleEmojiRules(e)[0] == TitleBudget(e.style, if e.style == "minimal" then 1 else if e.style == "normal" then 2 else 3)
      && (TitleMascotAtEnd(e.mascot) in TitleEmojiRules(e) <==> e.mascot != "")
      && TitleNoEmoji !in TitleEmojiRules(e)
      && StrongCtaEmoji(if e.platform == Shopee then "🛒💥💸" else "✨🎯🚀") in DescriptionEmojiRules(e)
      && DescriptionNoEmoji !in DescriptionEmojiRules(e)
    ensures !e.enabled ==> TitleEmojiRules(e) == [TitleNoEmoji] && DescriptionEmojiRules(e) == [DescriptionNoEmoji]
  {
    if e.enabled {
      assert e.platform == Shopee <==> e.platform.Id() == "shopee";
      var rs := TitleEmojiRules(e);
      if e.mascot == "" {
        assert forall r :: r in rs ==> r.TitleBudget? || r.TitlePalette?;
      }
    }
  }

  /** Everything the publishing prompt interpolates. */
  datatype PublishingPrompt = PublishingPrompt(
    platformLabel: string,
    titleMaxChars: int,
    topic: string,
    persona: string,
    titleEmojiRules: seq<TitleEmojiRule>,
    descriptionEmojiRules: seq<DescriptionEmojiRule>,
    ctaGuideline: string,
    durationSeconds: int,
    hashtagMin: int,
    hashtagMax: int,
    requiredHashtags: string)

  /** `(cfg.seo.requiredHashtags || []).join(" ")`. */
  function RequiredHashtagsLine(p: Platform): (line: string)
  {
    Join(Config(p).seo.requiredHashtags, " ")
  }

  /** The mandatory-hashtag line per platform. */
  lemma RequiredHashtagsLines(p: Platform)
    ensures RequiredHashtagsLine(p) == match p
      case Shorts => "#shorts"
      case Shopee => "#Shopee #Deal"
      case _ => ""
  {
    RequiredHashtagsPerPlatform(p);
    if p == Shopee {
      assert Config(p).seo.requiredHashtags[..1] == ["#Shopee"];
    }
  }

  /** `buildPublishingInfoPrompt`. */
  function BuildPublishingPrompt(p: Platform, dur: int, topic: string, persona: string, e: EmojiConfig): (pp: PublishingPrompt)
    ensures pp.titleEmojiRules == TitleEmojiRules(e) && pp.descriptionEmojiRules == DescriptionEmojiRules(e)
    ensures pp.requiredHashtags == RequiredHashtagsLine(p)
    ensures pp.hashtagMin == Config(p).seo.hashtagMin <= pp.hashtagMax == Config(p).seo.hashtagMax
    ensures pp.titleMaxChars == Config(p).seo.titleMaxChars && pp.platformLabel == Config(p).displayLabel
    ensures pp.ctaGuideline == Config(p).ctaGuideline
    ensures pp.durationSeconds == dur && pp.topic == topic && pp.persona == persona
  {
    var cfg := Config(p);
    PublishingPrompt(cfg.displayLabel, cfg.seo.titleMaxChars, topic, persona, TitleEmojiRules(e),
                     DescriptionEmojiRules(e), cfg.ctaGuideline, dur, cfg.seo.hashtagMin,
                     cfg.seo.hashtagMax, RequiredHashtagsLine(p))
  }
}
