/** The records the generator exchanges: the form, the per-segment video plan
    and voiceover script, the publishing metadata and the composite result.
    JSON numbers the schema marks as NUMBER (pace, line timestamps) are reals;
    those it marks as INTEGER are ints. */
module Types {
  import opened Wrappers
  import opened Constants

  datatype Shot = Shot(
    shot: int,
    timeStartS: int,
    timeEndS: int,
    visual: string,
    onScreenText: string,
    transition: string,
    renderTextOverlay: bool)

  datatype Structure = Structure(hook: string, body: string, cta: string)

  datatype AudioPlan = AudioPlan(voiceoverStyle: string, musicGuideline: string)

  datatype Captions = Captions(enabled: bool, required: bool, style: string)

  datatype Editing = Editing(paceSecondsPerCut: real, transitions: seq<string>, textSafeArea: string)

  /** The form's commerce extras; an absent key is `None`. The empty object
      `{}` is `NoExtras`. */
  datatype Extras = Extras(productId: Option<string>, price: Option<string>, voucher: Option<string>)

  const NoExtras := Extras(None, None, None)

  /** The finalised per-segment plan. */
  datatype VideoPlan = VideoPlan(
    version: int,
    language: string,
    platform: string,
    aspectRatio: string,
    durationSeconds: int,
    personaDna: string,
    topic: string,
    structure: Structure,
    audio: AudioPlan,
    captions: Captions,
    editing: Editing,
    shots: seq<Shot>,
    platformExtras: Extras)

  /** What the model's JSON reply for a visual plan parses to: the schema's
      required objects, and a shot list the code treats as possibly missing. */
  datatype VideoPlanDraft = VideoPlanDraft(
    structure: Structure,
    audio: AudioPlan,
    captions: Captions,
    editing: Editing,
    shots: Option<seq<Shot>>)

  datatype VoiceoverLine = VoiceoverLine(t: real, text: string)

  datatype VoiceoverScript = VoiceoverScript(
    segmentIndex: int,
    durationSeconds: int,
    lines: seq<VoiceoverLine>)

  datatype PublishingInfo = PublishingInfo(title: string, description: string, hashtags: string)

  /** The form. The emoji settings are read with `??`, so each may be missing. */
  datatype FormState = FormState(
    platform: Platform,
    personaDna: string,
    topic: string,
    durationSec: int,
    captionsEnabled: bool,
    voiceTone: string,
    emojiEnabled: Option<bool>,
    emojiStyle: Option<string>,
    mascotEmoji: Option<string>,
    extras: Extras)

  datatype GenerationResult = GenerationResult(
    videoPlans: seq<VideoPlan>,
    voiceoverScripts: seq<VoiceoverScript>,
    publishingInfo: PublishingInfo)
}
