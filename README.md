# Short-video script generator — a verified model of its core

The application turns a short form (platform, persona, topic, requested
duration, caption and emoji switches, voice tone, Shopee extras) into a
multi-segment short-video plan. It does this by calling a text-generation
service once per visual plan and once per voiceover script for every
8-second segment, then once more for publishing metadata. It also offers
three media helpers: a hook image, an edit of that image, and speech for a
segment's voiceover. The speech reply is wrapped in a WAV file in the
browser.

This project models that core in Dafny:

- **Constants.dfy**: the platform table (`PLATFORM_CONFIG`) and the `Platform`
  enumeration, as an immutable map whose rows are proved well formed.
- **Duration.dfy**: snapping the requested duration to the 8-second grid,
  clamping it into the platform's bounds, and counting segments.
- **Prompts.dfy**: the decisions the three prompt builders make, as structured
  values rather than prose. These are the segment role, the continuity block
  and what it quotes, the subtitle directive, the emoji rules and the
  mandatory-hashtag line.
- **JsonResponse.dfy**: the fence stripping before `JSON.parse`. The parser
  itself is an oracle.
- **Overlay.dfy**: finalising a parsed visual-plan draft. Metadata is stamped
  on, captions are suppressed by the user's switch, and extras are attached
  for Shopee only.
- **Pipeline.dfy**: `generateVideoPrompts`. It is a loop with an explicit
  request trace, proved equal to a functional run. That run is proved to
  follow the call order visual(1), voiceover(1), …, visual(n), voiceover(n),
  publishing. The loop aborts as a whole on the first failure, and the caught
  error message is classified.
- **Adapters.dfy**: the hook-image, image-edit and speech adapters. It covers
  their input guards, the scan of the reply's parts, the data-URL split and
  the MIME-type regex.
- **Wav.dfy**: `pcmToWavBlob` writing the 44-byte RIFF/WAVE PCM header in
  place, then the samples. It also covers the byte copy of `decodeBase64`.
- **App.dfy**: the form check, the submit handler, and the per-segment audio
  handler with its per-index update of the audio list.
- **JsText.dfy**, **Types.dfy** and **Wrappers.dfy**: the JavaScript string
  operations used, the records of `types.ts`, and `Option`/`Result`.

The two service boundaries are oracles passed in as parameters:

- **The text-generation call** maps a request to either the reply text or the
  message of the error it threw.
- **`JSON.parse`** maps a string to an optional record.

The media calls are a third oracle, from a media request to the reply's parts
or an error message. `atob` is an oracle from a string to a binary string or
an error message.

Errors the code throws are values whose `Message()` is the exact text the
user sees:

- `Pipeline.UserError` covers invalid key, quota exceeded and generic failure.
- `Adapters.AdapterError` covers the four guard errors and the three generic
  "could not generate/edit" errors.

### Behaviour of the code worth knowing

- **Continuity block.** The code adds it whenever `segIndex > 1` and there
  is history, so segment 2 already quotes segment 1
  (services/geminiService.ts:214, 265).
- **Segment roles.** The code tests for the last segment before segment 2,
  so in a two-segment run segment 2 is the payoff, not the set-up
  (`Prompts.RoleOf`, `Prompts.RolesOfRun`).
- **Duration grid.** The clamp can leave the normalised duration off the
  8-second grid: TikTok with 64 s gives 60 s and 8 segments, and Reels with
  96 s gives 90 s and 11 segments (`Duration.ClampLeavesGrid`,
  `Duration.WorkedNormalizations`).
- **Previous plan with no shots.** The code reads `lastShot.visual` of
  `undefined`. The resulting error is caught and shown as the generic
  failure. The model makes the visual prompt builder fail with that error
  before any call (`Pipeline.ShotlessPredecessorFails`).

## Model

| member | source | states |
|---|---|---|
| Constants.Config | constants.ts:20-87 | every platform's row is well formed: 0 < minSec <= maxSec, 0 < hashtag min <= max, and non-empty first caption style and voiceover style (what the `[0]` indexing relies on) |
| Constants.TableIsTotal | constants.ts:20-87 | the table has exactly one row per platform, five in all, and `Config` reads that row |
| Constants.ExtraFieldsOnlyShopee | constants.ts:85 | a platform has extra fields iff it is Shopee, and Shopee's are productId, price, voucher |
| Constants.RequiredHashtagsPerPlatform | constants.ts:32-84 | mandatory hashtags are `#shorts` on Shorts, `#Shopee #Deal` on Shopee, and none elsewhere |
| Duration.RoundDiv8 | services/geminiService.ts:309 | `Math.round(n/8)` with halves rounded up: the result q satisfies 8q-4 <= n < 8q+4 |
| Duration.SnapTo8s | services/geminiService.ts:140 | a multiple of 8, at least 8, within 4 of the request when the request is at least 4, and 8 for requests below 12 |
| Duration.Clamp | services/geminiService.ts:141 | the result is at least the minimum, at most the maximum when the bounds are ordered, the input when it is in range, the minimum below it and the maximum above it |
| Duration.SegmentCount | services/geminiService.ts:309 | at least 1, and the nearest whole number of 8-second segments to the duration |
| Duration.NormalizedDuration | services/geminiService.ts:307-308 | the normalised duration lies within the platform's [minSec, maxSec] |
| Duration.NumSegments | services/geminiService.ts:307-309 | at least one segment, and the count is the rounded eighth of the normalised duration |
| Duration.GridRequestKept | services/geminiService.ts:307-309 | an in-bounds request of 8k seconds is kept as is and gives exactly k segments |
| Duration.ClampLeavesGrid | services/geminiService.ts:308-309 | TikTok with 64 s gives 60 s, which is not a multiple of 8, and 8 segments |
| Duration.WorkedNormalizations | services/geminiService.ts:308-309 | Reels 96 gives 90 s and 11 segments, YouTube 16 gives 120 s and 15, Shorts 16 gives 16 s and 2 |
| Prompts.RoleOf | services/geminiService.ts:221-230 | the checks run in order: index 1 is Hook, else the last index is Payoff & CTA, else index 2 is Set-up, else Turn (each as an if-and-only-if) |
| Prompts.RolesOfRun | services/geminiService.ts:221-230 | in a run of n segments the first is Hook and, for n >= 2, the last is Payoff. Set-up occurs only at index 2 when n >= 3, and Turn exactly strictly between 2 and n |
| Prompts.VisualContinuityOf | services/geminiService.ts:213-218 | no continuity iff segIndex <= 1 or there are no earlier plans. With history, the builder fails iff the last plan has no shots; otherwise it quotes that plan's body and its last shot's visual |
| Prompts.SubtitleDirectiveOf | services/geminiService.ts:209-211 | subtitles are off iff captions are off; when on, they carry the platform's requirement flag and its first caption style, which is non-empty |
| Prompts.BuildVisualPrompt | services/geminiService.ts:208-248 | the visual prompt fails exactly when its continuity does, and otherwise carries that continuity, the role, the subtitle directive, the platform label, aspect ratio and music guideline, segment index and total, topic and persona |
| Prompts.VisualQuotesPreviousPlan | services/geminiService.ts:213-218 | for segment j+1 built from the j earlier plans: no continuity for j = 0, and otherwise a quote of plan j's body and last visual, or failure iff plan j has no shots |
| Prompts.VisualFramesShape | services/geminiService.ts:232-246 | `filter(Boolean)` keeps the continuity frame iff there is continuity, so 6 or 5 frames in the fixed order |
| Prompts.LastLineOf | services/geminiService.ts:267 | the quoted last line is never empty: the last line's text when that exists and is non-empty, else the placeholder |
| Prompts.DialogueContinuityOf | services/geminiService.ts:264-269 | no continuity note iff segIndex <= 1 or there are no earlier scripts; otherwise it quotes the last line of the last script |
| Prompts.ShotDetails | services/geminiService.ts:260-262 | one detail per shot, in order, with the shot's number, times and visual, and its on-screen text or the "none" placeholder |
| Prompts.BuildDialoguePrompt | services/geminiService.ts:250-290 | the voiceover prompt carries the given plan's shot details, the dialogue continuity, exactly the platform's first voiceover style (never empty, so the fallback is never used), the tone, the indices, the topic and the persona |
| Prompts.DialogueQuotesPreviousScript | services/geminiService.ts:264-269 | for segment j+1 built from the j earlier scripts: no note for j = 0, else the last line of script j |
| Prompts.FinalEmojiConfig | services/geminiService.ts:316-324 | each missing form value falls back to the platform default, and the mascot falls back to 🦡; the palette is always the platform's |
| Prompts.MaxTitleEmojis | services/geminiService.ts:148 | the title's emoji budget is between 1 and 3 |
| Prompts.EmojiPolicy | services/geminiService.ts:146-169 | enabled: the title budget is 1/2/3 for minimal/normal/other, the mascot rule appears iff a mascot is set, and the strong CTA set is 🛒💥💸 on Shopee and ✨🎯🚀 elsewhere. Disabled: exactly one no-emoji rule each for title and description |
| Prompts.RequiredHashtagsLines | services/geminiService.ts:178 | the mandatory-hashtag line is `#shorts`, `#Shopee #Deal` or empty, by platform |
| Prompts.BuildPublishingPrompt | services/geminiService.ts:143-205 | the publishing prompt carries those emoji rules and hashtag line, the platform's hashtag min and max (ordered), its label, title limit and CTA guideline, the duration, the topic and the persona |
| JsonResponse.LeadingFenceLength | services/geminiService.ts:294 | the leading match is 0, 3 or 7 characters. It is non-zero iff the text starts with the fence, and 7 iff the fence is followed by `json` in any letter case |
| JsonResponse.RemoveTrailingFence | services/geminiService.ts:294 | a fence is removed iff it is the last three characters |
| JsonResponse.ParseJsonResponse | services/geminiService.ts:292-300 | succeeds iff the parser accepts the stripped text, with its value; otherwise it fails with the invalid-JSON message |
| JsonResponse.StripJsonFence | services/geminiService.ts:294 | a body fenced with ```` ```json ```` in any case, closed by a fence, comes out trimmed |
| JsonResponse.StripBareFence | services/geminiService.ts:294 | a body fenced with a bare fence comes out trimmed |
| JsonResponse.UnfencedIsTrimmed | services/geminiService.ts:294 | text with no fence at either end is only trimmed |
| JsonResponse.FenceBeforeNewlineSurvives | services/geminiService.ts:294 | a closing fence followed by a newline is not removed, and the cleaned text still ends with it |
| Overlay.OverlayShots | services/geminiService.ts:363-367 | the shot count and every other field are kept; on-screen text is blanked when captions are off; every overlay flag equals the switch |
| Overlay.PlatformExtras | services/geminiService.ts:368 | the user's extras on Shopee, `{}` on every other platform |
| Overlay.CaptionStyle | services/geminiService.ts:357-361 | empty when captions are off; otherwise non-empty: the model's style when it gave one, else the platform's first style |
| Overlay.FinalizePlan | services/geminiService.ts:347-369 | every finalised plan satisfies the caption invariant (switch, per-shot overlay flag, blank texts and style when off), whatever the model returned |
| Overlay.FinalizeStampsMetadata | services/geminiService.ts:347-369 | version 1, language `vi`, 8 seconds, the platform label and aspect ratio, the persona and topic, and extras only on Shopee |
| Overlay.FinalizeKeepsDraft | services/geminiService.ts:355-367 | the draft's structure, audio, editing and caption requirement are kept, the caption style is `CaptionStyle` of the draft's style, and its shots are kept with their overlay set |
| Overlay.FinalizeIdempotent | services/geminiService.ts:347-369 | finalising a finalised plan again with the same settings gives the same plan |
| Overlay.CaptionsOffBlanksEveryShot | services/geminiService.ts:363-367 | with captions off every shot's text is empty and its overlay off; with captions on every overlay is on and the text is the model's |
| Pipeline.ClassifyError | services/geminiService.ts:396-405 | the invalid-key test comes first and wins, then the quota test; everything else is the generic failure (three if-and-only-ifs) |
| Pipeline.MarkerAnywhere | services/geminiService.ts:398-403 | either marker is found wherever it sits in the message, and the invalid-key marker wins |
| Pipeline.MarkerFreeIsGeneric | services/geminiService.ts:396-405 | a message lacking the `P` of the invalid-key marker and the `_` of the quota marker is reported as the generic failure |
| Pipeline.InternalErrorsAreGeneric | services/geminiService.ts:396-405 | the invalid-JSON error and the missing-shot error both surface as the generic failure |
| Pipeline.SegmentStepOk | services/geminiService.ts:331-381 | a completed segment made exactly two requests: the visual one from the earlier plans, then the voiceover one from its own finalised plan. Its plan and script are what those replies parse to, and the plan satisfies the caption invariant |
| Pipeline.ShotlessPredecessorFails | services/geminiService.ts:214-216 | a segment whose predecessor plan has no shots fails before any call |
| Pipeline.GenerateSegment | services/geminiService.ts:331-381 | the loop body computes exactly the segment step: it stops at the first failure with the requests made so far |
| Pipeline.GeneratePublishingInfo | services/geminiService.ts:386-392 | a failed call fails with the call's message; otherwise it succeeds iff the parser accepts the fence-stripped reply, with that value, and else fails with the invalid-JSON message |
| Pipeline.GenerateVideoPrompts | services/geminiService.ts:303-406 | the imperative loop yields exactly the result and the request trace of the functional run |
| Pipeline.PipelineStepsScheduled | services/geminiService.ts:331-381 | every segment step's requests are a prefix of its two scheduled calls |
| Pipeline.RunShape | services/geminiService.ts:331-406 | the trace follows visual(1), voiceover(1), …, publishing, cut short at the first failure. A success completed all n segments (two index-aligned lists of length n, 2n+1 calls) and returns the parsed publishing reply. A failure either stopped at the first failed segment after the completed ones, with the trace ending in that segment's requests and the error classified from its message, or came after all 2n+1 calls, with the error classified from the publishing call's message |
| Pipeline.RunFromFails | services/geminiService.ts:331-406 | from any completed prefix, a failed run stops at the first segment that fails with that segment's classified message, or fails at the publishing call after all segments with that call's classified message |
| Pipeline.SegmentStepErr | services/geminiService.ts:331-381 | a failed segment failed at its first failing stage, with that stage's message: the visual prompt builder with no request made, the visual call or its parse after the visual request, or the voiceover call or its parse after both requests |
| Pipeline.RunSegment | services/geminiService.ts:331-394 | in a successful run, segment j was made from requests 2j and 2j+1, built from the earlier plans and scripts and its own finalised plan; its plan satisfies the caption invariant |
| Pipeline.CompletedSegmentOk | services/geminiService.ts:331-381 | the same for every segment of any completed prefix |
| Adapters.ImageDataOf | services/geminiService.ts:430-435 | there is no image iff no part has inline data; otherwise the result is the data of some part that has inline data |
| Adapters.FindImageData | services/geminiService.ts:430-435 | the loop over the parts returns the first inline data, as `ImageDataOf` |
| Adapters.ImageReplyOutcome | services/geminiService.ts:430-441 | success iff the call succeeded and some part has inline data, giving the PNG data URL of that data; every other outcome, including "no image data", is the adapter's generic error |
| Adapters.GenerateHookImage | services/geminiService.ts:409-443 | a plan with no shots is rejected before any call; otherwise exactly one image request is made from the first shot. A failure is a guard error iff no call was made |
| Adapters.MimeCaptureFrom | services/geminiService.ts:455 | a capture is what the regex would capture: it follows some `data:`, is followed by `;base64`, and contains no line terminator |
| Adapters.MimeTypeOf | services/geminiService.ts:455 | the MIME type is never empty: the capture when it is present and non-empty, else `image/png` |
| Adapters.IndexOf | services/geminiService.ts:454 | -1 iff the character is absent, else its first position |
| Adapters.SplitSecond | services/geminiService.ts:454 | `split(',')[1]` is undefined iff there is no comma; otherwise it is the text from just after the first comma up to the next comma or the end |
| Adapters.EditHookImage | services/geminiService.ts:446-491 | rejects a URL not starting with `data:image/`, then blank edit text, before any call; otherwise exactly one edit request. A failure is a guard error iff no call was made |
| Adapters.HookUrlIsEditable | services/geminiService.ts:447-455 | a hook-image URL passes the edit guard, and its split and regex recover exactly the base64 data and `image/png` |
| Adapters.AudioReply | services/geminiService.ts:513-523 | success iff the call succeeded and the first part carries non-empty inline data, returning that data; otherwise the generic audio error |
| Adapters.GenerateVoiceoverAudio | services/geminiService.ts:494-525 | blank text is rejected before any call; otherwise exactly one speech request with voice Kore. A failure is a guard error iff no call was made |
| Wav.CharBytes | App.tsx:17 | one byte per character, the character code truncated to 8 bits |
| Wav.Le16RoundTrip | App.tsx:42-48 | a 16-bit field written little-endian reads back as the value modulo 2^16 |
| Wav.Le32RoundTrip | App.tsx:36-52 | a 32-bit field written little-endian reads back as the value modulo 2^32 |
| Wav.WriteString | App.tsx:28-32 | the buffer's prefix becomes the earlier bytes followed by the string's bytes, and every byte after them is unchanged |
| Wav.SetUint16 | App.tsx:42-48 | the buffer's prefix becomes the earlier bytes followed by the little-endian 16-bit value, and every byte after them is unchanged |
| Wav.SetUint32 | App.tsx:36-52 | the buffer's prefix becomes the earlier bytes followed by the little-endian 32-bit value, and every byte after them is unchanged |
| Wav.TruncatedRates | App.tsx:45-47 | the floating-point block align and byte rate, truncated when stored, equal numChannels*bits/8 and sampleRate*numChannels*bits/8 in integers |
| Wav.WriteFmtChunk | App.tsx:40-48 | the buffer's first 36 bytes become the RIFF descriptor followed by the `fmt ` chunk, and bytes 36 onward are unchanged |
| Wav.PcmToWav | App.tsx:23-61 | a fresh buffer of 44 + n bytes holding the WAV header for n bytes followed by the PCM bytes in order |
| Wav.HeaderTags | App.tsx:35-51 | ASCII `RIFF` at 0, `WAVE` at 8, `fmt ` at 12 and `data` at 36 |
| Wav.HeaderFields | App.tsx:36-52 | reads back 36+n at 4, 16 at 16, 1 at 20, channels at 22, rate at 24, byte rate at 28, block align at 32, bits at 34 and n at 40, modulo the field width |
| Wav.BinaryStringBytes | App.tsx:12-19 | a fresh array with one byte per character of the decoded string, byte i being character code i |
| JsText.TrimEmptyIffBlank | App.tsx:94 | a string trims to empty iff every character is JavaScript whitespace |
| App.IsFormValid | App.tsx:93-95 | the form is valid iff persona and topic each have a non-whitespace character and the duration is at least 8 |
| App.Display | App.tsx:115-120 | a result is shown as is; an error is shown by its message |
| App.HandleSubmit | App.tsx:97-124 | an invalid form makes no request; a valid one runs the pipeline once and shows its result or its error's message |
| App.BlankJoin | App.tsx:175 | the texts joined with a space are blank iff every text is blank |
| App.ScriptTextBlankIff | App.tsx:175 | the speech guard fires iff every line of the script is blank, including a script with no lines |
| App.HandleGenerateAudio | App.tsx:162-195 | a missing segment is skipped. Otherwise the joined line texts go to speech once; every failure is reported for that segment with its message; a success is the WAV of the decoded bytes at 24 kHz, mono, 16-bit |
| App.SpeechWav | App.tsx:180 | the speech WAV has 44 bytes more than the decoded audio |
| App.SpeechWavLayout | App.tsx:180 | the speech WAV declares PCM, 1 channel, 24000 Hz, 48000 bytes/s, 2-byte frames, 16 bits and a data size of n, and carries the decoded bytes after the header |
| App.SetAudioResult | App.tsx:183-187 | only the segment's entry becomes the new URL; every other entry is kept, and slots skipped past the old end are empty |

## Left out

- **The text and media service calls**: network calls into a library. They are oracle parameters, and their request configuration (model names, temperature, schemas, response modalities) is not modelled.
- **`JSON.parse`, `atob`, `Blob`, `URL.createObjectURL` and `URL.revokeObjectURL`**: host functions. Parsing and `atob` are oracles; the WAV bytes stand for the Blob; revoking old object URLs is not modelled.
- **The prompts' Vietnamese prose and `SHORT_FORM_VIDEO_FORMULA`**: only the structured decisions and the values each prompt interpolates are modelled, not the rendered strings.
- **The 500 ms pacing delays, console logging, and React state flags** (`isLoading`, error banners, the image handlers' state): timing, logging and presentation.
- **Limits the code only asks the model for in prompts** (title length, hashtag count and tags, the 7.5 s voiceover budget): these are never checked, so they are not stated as guarantees.
- **Floating-point fields** (`cutPaceSec`, pacing and timestamps in drafts): modelled as `real` and only copied.
- **Concurrency**: UI operations triggered independently of each other.
- **Strings are sequences of code points, not UTF-16 units**: lengths and indices differ for characters outside the Basic Multilingual Plane.
- **Incomplete visual plans**: the plan parser returns drafts whose structure, audio, captions and editing are all present; only the shot list may be absent. The code parses a `Partial<VideoPlan>` and passes those four fields through unchecked (services/geminiService.ts:345-362). A reply that is valid JSON but lacks `structure` gives a plan whose next segment throws at `lastPlan.structure.body` (services/geminiService.ts:216), shown as the generic failure. On the last segment, the run instead succeeds with the field undefined. The model does not capture either outcome.
- **Incomplete voiceover scripts and publishing metadata**: the script and publishing-info parsers return complete `VoiceoverScript` and `PublishingInfo` records. The code passes both parse results through unchecked (services/geminiService.ts:377, 392). A reply such as `{}` has no `voiceover_script`. On a segment before the last, the next segment then throws at `lastScript.voiceover_script.slice(-1)` (services/geminiService.ts:267), and the run fails with the generic message after 2k+1 requests. On the last segment, the run succeeds, and `handleGenerateAudio` later throws at `script.voiceover_script.map` (App.tsx:175), showing that error's message. `Pipeline.GenerateVideoPrompts`, `Pipeline.RunShape` and `App.HandleGenerateAudio` therefore do not cover these outcomes.
- **Fields the code ignores**: the model carries the text of a reply part but never reads it, because the code only looks for inline data.
- Wav.PcmToWav: the samples are an array that is its own buffer, as the fresh array of `decodeBase64` is at the only call site (App.tsx:178-180). The code copies `new Uint8Array(pcmData.buffer)` (App.tsx:55) but sizes the file from `pcmData.length` (App.tsx:24-25). A view onto part of a larger buffer would copy bytes from the buffer's start, or throw a `RangeError` once the copy runs past the file, and the model does not capture this.
- Wav.PcmToWav: the rate, channel and bit parameters are natural numbers. Negative or fractional arguments, and the floating-point rounding of products beyond 2^53, are not modelled. The call site passes 24000, 1 and 16.
- App.SpeechWavLayout: requires the decoded audio to be shorter than 2^32 - 36 bytes, so that the header's size fields do not wrap.
- Adapters.MimeCaptureFrom: states soundness of the capture (where it starts and ends, and that it crosses no line terminator). It does not state the regex's leftmost and greedy choice among several captures; the body computes that choice.
- App.HandleGenerateAudio: does not model the UI's loading and error-clearing state, nor the creation of the object URL. The per-index update of the audio list is `App.SetAudioResult`.
- The image handlers of the page (`handleGenerateImage`, `handleEditImage`) are not modelled beyond the adapters they call: they only guard, call and store state.
