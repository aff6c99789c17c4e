/** Per-segment plan finalisation: the parsed draft of a visual plan is
    stamped with fixed metadata, its caption fields are overridden by the
    user's caption switch, and the platform extras are attached for Shopee
    only. Whatever the model returned, the result satisfies the caption
    invariant. */
module Overlay {
  import opened Wrappers
  import opened Constants
  import opened Types

  /** The caption invariant of a finalised plan: the plan's caption switch and
      every shot's overlay flag equal the user's switch, and with captions off
      every on-screen text and the caption style are empty. */
  ghost predicate CaptionInvariant(plan: VideoPlan, captionsEnabled: bool) {
    && plan.captions.enabled == captionsEnabled
    && (!captionsEnabled ==> plan.captions.style == "")
    && ShotsFollowSwitch(plan.shots, captionsEnabled)
  }

  /** Every shot's overlay flag equals the switch, and with captions off no
      shot has on-screen text. */
  ghost predicate ShotsFollowSwitch(shots: seq<Shot>, captionsEnabled: bool) {
    forall i :: 0 <= i < |shots| ==>
      shots[i].renderTextOverlay == captionsEnabled
      && (!captionsEnabled ==> shots[i].onScreenText == "")
  }

  /** `{ ...shot, on_screen_text: captionsEnabled ? (shot.on_screen_text || '') : '',
      render_text_overlay: captionsEnabled }`. */
  function OverlayShot(s: Shot, captionsEnabled: bool): Shot {
    s.(onScreenText := if captionsEnabled then s.onScreenText else "",
       renderTextOverlay := captionsEnabled)
  }

  /** The shot overlay keeps the count and every other field of every shot. */
  function OverlayShots(shots: seq<Shot>, captionsEnabled: bool): (r: seq<Shot>)
    ensures |r| == |shots|
    ensures forall i :: 0 <= i < |shots| ==>
      && r[i].shot == shots[i].shot
      && r[i].timeStartS == shots[i].timeStartS && r[i].timeEndS == shots[i].timeEndS
      && r[i].visual == shots[i].visual && r[i].transition == shots[i].transition
      && r[i].onScreenText == (if captionsEnabled then shots[i].onScreenText else "")
      && r[i].renderTextOverlay == captionsEnabled
    ensures ShotsFollowSwitch(r, captionsEnabled)
  {
    seq(|shots|, i requires 0 <= i < |shots| => OverlayShot(shots[i], captionsEnabled))
  }

  /** `platform === 'shopee' ? extras : {}`. */
  function PlatformExtras(p: Platform, extras: Extras): (r: Extras)
    ensures r == extras || r == NoExtras
    ensures p == Shopee ==> r == extras
    ensures p != Shopee ==> r == NoExtras
  {
    if p.Id() == "shopee" then extras else NoExtras
  }

  /** The caption style: empty when captions are off, else the model's style,
      or the platform's first style when the model gave none. */
  function CaptionStyle(p: Platform, captionsEnabled: bool, draftStyle: string): (style: string)
    ensures !captionsEnabled ==> style == ""
    ensures captionsEnabled ==> style != ""
    ensures captionsEnabled && draftStyle != "" ==> style == draftStyle
    ensures captionsEnabled && draftStyle == "" ==> style == Config(p).captionStyles[0]
  {
    if captionsEnabled then (if draftStyle != "" then draftStyle else Config(p).captionStyles[0])
    else ""
  }

  /** `currentFullVideoPlan`: the finalised plan for one segment. */
  function FinalizePlan(p: Platform, persona: string, topic: string, captionsEnabled: bool,
                        extras: Extras, draft: VideoPlanDraft): (plan: VideoPlan)
    ensures CaptionInvariant(plan, captionsEnabled)
  {
    var cfg := Config(p);
    VideoPlan(
      1, "vi", cfg.displayLabel, cfg.aspectRatio, 8, persona, topic,
      draft.structure, draft.audio,
      draft.captions.(enabled := captionsEnabled,
                      style := CaptionStyle(p, captionsEnabled, draft.captions.style)),
      draft.editing,
      OverlayShots(draft.shots.GetOr([]), captionsEnabled),
      PlatformExtras(p, extras))
  }

  /** The fixed metadata is stamped on, and the extras are kept only for Shopee. */
  lemma FinalizeStampsMetadata(p: Platform, persona: string, topic: string, captionsEnabled: bool,
                               extras: Extras, draft: VideoPlanDraft)
    ensures var plan := FinalizePlan(p, persona, topic, captionsEnabled, extras, draft);
      && plan.version == 1 && plan.language == "vi" && plan.durationSeconds == 8
      && plan.platform == Config(p).displayLabel && plan.aspectRatio == Config(p).aspectRatio
      && plan.personaDna == persona && plan.topic == topic
      && plan.platformExtras == (if p == Shopee then extras else NoExtras)
  {
  }

  /** The model's structure, audio, editing and caption requirement are kept,
      the caption style is chosen from the model's, and every shot is kept
      with its overlay fields set. */
  lemma FinalizeKeepsDraft(p: Platform, persona: string, topic: string, captionsEnabled: bool,
                           extras: Extras, draft: VideoPlanDraft)
    ensures var plan := FinalizePlan(p, persona, topic, captionsEnabled, extras, draft);
      && plan.structure == draft.structure && plan.audio == draft.audio && plan.editing == draft.editing
      && plan.captions.required == draft.captions.required
      && plan.captions.style == CaptionStyle(p, captionsEnabled, draft.captions.style)
      && plan.shots == OverlayShots(draft.shots.GetOr([]), captionsEnabled)
  {
  }

  /** The draft a finalised plan would be read back as. */
  function DraftOf(plan: VideoPlan): VideoPlanDraft {
    VideoPlanDraft(plan.structure, plan.audio, plan.captions, plan.editing, Some(plan.shots))
  }

  /** Finalising is idempotent: feeding a finalised plan back through the
      overlay with the same settings gives the same plan. */
  lemma {:induction false} FinalizeIdempotent(p: Platform, persona: string, topic: string, captionsEnabled: bool,
                                              extras: Extras, draft: VideoPlanDraft)
    ensures var plan := FinalizePlan(p, persona, topic, captionsEnabled, extras, draft);
      FinalizePlan(p, persona, topic, captionsEnabled, extras, DraftOf(plan)) == plan
  {
    var plan := FinalizePlan(p, persona, topic, captionsEnabled, extras, draft);
    var again := FinalizePlan(p, persona, topic, captionsEnabled, extras, DraftOf(plan));
    assert again.shots == plan.shots;
    assert again.captions == plan.captions;
  }

  /** With captions off, no shot of any finalised plan shows text, whatever
      the model returned; with captions on, every shot has its overlay flag set
      and keeps the model's text. */
  lemma CaptionsOffBlanksEveryShot(p: Platform, persona: string, topic: string, extras: Extras,
                                   draft: VideoPlanDraft, i: int)
    requires draft.shots.Some? && 0 <= i < |draft.shots.value|
    ensures FinalizePlan(p, persona, topic, false, extras, draft).shots[i].onScreenText == ""
    ensures !FinalizePlan(p, persona, topic, false, extras, draft).shots[i].renderTextOverlay
    ensures FinalizePlan(p, persona, topic, true, extras, draft).shots[i].renderTextOverlay
    ensures FinalizePlan(p, persona, topic, true, extras, draft).shots[i].onScreenText == draft.shots.value[i].onScreenText
  {
  }
}
