/** `generateVideoPrompts`: normalise the duration, then for each segment in
    turn ask for the visual plan, finalise it, ask for the voiceover written
    against the finalised plan, and after the last segment ask once for the
    publishing metadata. The Gemini SDK and `JSON.parse` are oracles bundled in
    `Services`; every request the pipeline makes is recorded in a trace. Any
    failure aborts the run with one classified error and no partial result. */
module Pipeline {
  import opened Wrappers
  import opened JsText
  import opened Constants
  import opened Types
  import opened Duration
  import opened Prompts
  import opened JsonResponse
  import opened Overlay

  /** One call to the generation service, with the prompt it carries. */
  datatype Request =
    | VisualRequest(visual: VisualPrompt)
    | VoiceoverRequest(dialogue: DialoguePrompt)
    | PublishingRequest(publishing: PublishingPrompt)

  /** The external collaborators: the text-generation call (reply text, or the
      message of the error it throws) and `JSON.parse` at the three result types. */
  datatype Services = Services(
    generate: Request -> Result<string, string>,
    parsePlan: string -> Option<VideoPlanDraft>,
    parseScript: string -> Option<VoiceoverScript>,
    parseInfo: string -> Option<PublishingInfo>)

  // ---------------------------------------------------------------- error classification

  /** The three errors the pipeline rethrows; `Message` is the text the user sees. */
  datatype UserError = InvalidApiKey | QuotaExceeded | GenerationFailed {
    function Message(): string {
      match this
      case InvalidApiKey =>
        "Khóa API Gemini của bạn không hợp lệ. Vui lòng đảm bảo nó được cấu hình chính xác."
      case QuotaExceeded =>
        "Bạn đã vượt quá hạn ngạch hiện tại. Vui lòng kiểm tra gói và chi tiết thanh toán của bạn hoặc đợi một lát rồi thử lại."
      case GenerationFailed =>
        "Không thể tạo kịch bản từ Gemini. Model có thể bị quá tải hoặc yêu cầu không hợp lệ."
    }
  }

  const InvalidKeyMarker := "API key not valid"
  const QuotaMarker := "RESOURCE_EXHAUSTED"

  /** The `catch` block: the invalid-key test comes first, then the quota
      test; everything else is a generic failure. */
  function ClassifyError(message: string): (e: UserError)
    ensures e == InvalidApiKey <==> Includes(message, InvalidKeyMarker)
    ensures e == QuotaExceeded <==> !Includes(message, InvalidKeyMarker) && Includes(message, QuotaMarker)
    ensures e == GenerationFailed <==> !Includes(message, InvalidKeyMarker) && !Includes(message, QuotaMarker)
  {
    if Includes(message, InvalidKeyMarker) then InvalidApiKey
    else if Includes(message, QuotaMarker) then QuotaExceeded
    else GenerationFailed
  }

  /** The marker is found wherever it sits in the SDK's message; the
      invalid-key marker wins over the quota marker when both occur. */
  lemma MarkerAnywhere(before: string, marker: string, after: string)
    requires marker == InvalidKeyMarker || marker == QuotaMarker
    ensures marker == InvalidKeyMarker ==> ClassifyError(before + marker + after) == InvalidApiKey
    ensures marker == QuotaMarker ==> ClassifyError(before + marker + after) != GenerationFailed
  {
    var s := before + marker + after;
    assert s[|before|..|before| + |marker|] == marker;
    assert OccursAt(s, marker, |before|);
  }

  /** A message that carries neither marker's distinctive character (the `P`
      of the invalid-key marker, the `_` of the quota marker) is generic. */
  lemma MarkerFreeIsGeneric(message: string)
    requires 'P' !in message && '_' !in message
    ensures ClassifyError(message) == GenerationFailed
  {
    AbsentCharExcludes(message, InvalidKeyMarker, 'P');
    AbsentCharExcludes(message, QuotaMarker, '_');
  }

  /** A malformed reply and a plan without shots both surface as the generic
      failure: neither error text carries either marker. */
  lemma InternalErrorsAreGeneric(message: string)
    requires message == InvalidJsonMessage || message == UndefinedVisualError
    ensures ClassifyError(message) == GenerationFailed
  {
    InvalidJsonMessageIsMarkerFree();
    UndefinedVisualErrorIsMarkerFree();
    MarkerFreeIsGeneric(message);
  }

  lemma InvalidJsonMessageIsMarkerFree()
    ensures 'P' !in InvalidJsonMessage && '_' !in InvalidJsonMessage
  {
    InvalidJsonHeadIsMarkerFree();
    InvalidJsonTailIsMarkerFree();
    AbsentFromBoth("AI đã trả về một định dạng ", "JSON không hợp lệ. Vui lòng thử lại.", 'P');
    AbsentFromBoth("AI đã trả về một định dạng ", "JSON không hợp lệ. Vui lòng thử lại.", '_');
  }

  lemma InvalidJsonHeadIsMarkerFree()
    ensures 'P' !in "AI đã trả về một định dạng " && '_' !in "AI đã trả về một định dạng "
  {
  }

  lemma InvalidJsonTailIsMarkerFree()
    ensures 'P' !in "JSON không hợp lệ. Vui lòng thử lại." && '_' !in "JSON không hợp lệ. Vui lòng thử lại."
  {
  }

  lemma UndefinedVisualErrorIsMarkerFree()
    ensures 'P' !in UndefinedVisualError && '_' !in UndefinedVisualError
  {
    UndefinedVisualHeadIsMarkerFree();
    UndefinedVisualTailIsMarkerFree();
    AbsentFromBoth("Cannot read properties ", "of undefined (reading 'visual')", 'P');
    AbsentFromBoth("Cannot read properties ", "of undefined (reading 'visual')", '_');
  }

  lemma UndefinedVisualHeadIsMarkerFree()
    ensures 'P' !in "Cannot read properties " && '_' !in "Cannot read properties "
  {
  }

  lemma UndefinedVisualTailIsMarkerFree()
    ensures 'P' !in "of undefined (reading 'visual')" && '_' !in "of undefined (reading 'visual')"
  {
  }

  lemma AbsentFromBoth(a: string, b: string, c: char)
    requires c !in a && c !in b
    ensures c !in a + b
  {
  }

  // ---------------------------------------------------------------- one segment

  /** The outcome of one segment: both artefacts and the two requests, or
      the underlying error message and the requests made before it. */
  datatype StepOutcome =
    | StepOk(plan: VideoPlan, script: VoiceoverScript, requests: seq<Request>)
    | StepErr(cause: string, requests: seq<Request>)

  function SegmentTotal(form: FormState): int {
    NumSegments(form.platform, form.durationSec)
  }

  /** The plan a visual request yields: call, parse, finalise. */
  function PlanFrom(form: FormState, svc: Services, req: Request): Result<VideoPlan, string> {
    match svc.generate(req)
    case Failure(e) => Failure(e)
    case Success(text) =>
      match ParseJsonResponse(text, svc.parsePlan)
      case Failure(e) => Failure(e)
      case Success(draft) =>
        Success(FinalizePlan(form.platform, form.personaDna, form.topic, form.captionsEnabled, form.extras, draft))
  }

  /** The script a voiceover request yields: call, parse. */
  function ScriptFrom(svc: Services, req: Request): Result<VoiceoverScript, string> {
    match svc.generate(req)
    case Failure(e) => Failure(e)
    case Success(text) => ParseJsonResponse(text, svc.parseScript)
  }

  /** The publishing metadata a publishing request yields: call, parse. */
  function InfoFrom(svc: Services, req: Request): Result<PublishingInfo, string> {
    match svc.generate(req)
    case Failure(e) => Failure(e)
    case Success(text) => ParseJsonResponse(text, svc.parseInfo)
  }

  /** Segment `k + 1` of the run, given the plans and scripts of the segments before it. */
  function SegmentStep(form: FormState, svc: Services, k: int, plans: seq<VideoPlan>, scripts: seq<VoiceoverScript>): StepOutcome
  {
    match BuildVisualPrompt(form.platform, form.personaDna, form.topic, k + 1, SegmentTotal(form), form.captionsEnabled, plans)
    case Failure(e) => StepErr(e, [])
    case Success(vp) => AfterVisualPrompt(form, svc, k, VisualRequest(vp), scripts)
  }

  /** The rest of segment `k + 1` once its visual request is built: the visual
      call, then the voiceover prompt against the finalised plan and its call. */
  function AfterVisualPrompt(form: FormState, svc: Services, k: int, visualRequest: Request,
                             scripts: seq<VoiceoverScript>): StepOutcome
  {
    match PlanFrom(form, svc, visualRequest)
    case Failure(e) => StepErr(e, [visualRequest])
    case Success(plan) =>
      var dialogueRequest := VoiceoverRequest(BuildDialoguePrompt(form.platform, form.personaDna, form.topic,
                                                                  k + 1, SegmentTotal(form), form.voiceTone, plan, scripts));
      match ScriptFrom(svc, dialogueRequest)
      case Failure(e) => StepErr(e, [visualRequest, dialogueRequest])
      case Success(script) => StepOk(plan, script, [visualRequest, dialogueRequest])
  }

  /** A completed segment made exactly its two requests: the visual request
      built from the earlier plans, then the voiceover request built from the
      finalised plan of this segment and the earlier scripts. Its plan and
      script are what those two calls yield, and the plan satisfies the
      caption invariant. */
  lemma SegmentStepOk(form: FormState, svc: Services, k: int, plans: seq<VideoPlan>, scripts: seq<VoiceoverScript>)
    requires SegmentStep(form, svc, k, plans, scripts).StepOk?
    ensures var o := SegmentStep(form, svc, k, plans, scripts);
      var vp := BuildVisualPrompt(form.platform, form.personaDna, form.topic, k + 1, SegmentTotal(form), form.captionsEnabled, plans);
      && vp.Success?
      && o.requests == [VisualRequest(vp.value),
                        VoiceoverRequest(BuildDialoguePrompt(form.platform, form.personaDna, form.topic, k + 1,
                                                             SegmentTotal(form), form.voiceTone, o.plan, scripts))]
      && PlanFrom(form, svc, o.requests[0]) == Success(o.plan)
      && ScriptFrom(svc, o.requests[1]) == Success(o.script)
      && CaptionInvariant(o.plan, form.captionsEnabled)
  {
  }

  /** A failed segment failed at the first of its three stages that did: the
      visual prompt builder with no request made, the visual call or its parse
      with the visual request made, or the voiceover call or its parse with
      both requests made; its cause is that stage's error message. */
  lemma SegmentStepErr(form: FormState, svc: Services, k: int, plans: seq<VideoPlan>, scripts: seq<VoiceoverScript>)
    requires SegmentStep(form, svc, k, plans, scripts).StepErr?
    ensures var o := SegmentStep(form, svc, k, plans, scripts);
      var vp := BuildVisualPrompt(form.platform, form.personaDna, form.topic, k + 1, SegmentTotal(form), form.captionsEnabled, plans);
      || (vp.Failure? && o == StepErr(vp.error, []))
      || (&& vp.Success? && o.requests == [VisualRequest(vp.value)]
          && PlanFrom(form, svc, VisualRequest(vp.value)) == Failure(o.cause))
      || (&& vp.Success? && PlanFrom(form, svc, VisualRequest(vp.value)).Success?
          && o.requests == [VisualRequest(vp.value),
                            VoiceoverRequest(BuildDialoguePrompt(form.platform, form.personaDna, form.topic, k + 1, SegmentTotal(form),
                                                                 form.voiceTone, PlanFrom(form, svc, VisualRequest(vp.value)).value, scripts))]
          && ScriptFrom(svc, o.requests[1]) == Failure(o.cause))
  {
  }

  /** The requests of a segment are a prefix of its two scheduled calls, and
      both are made when it succeeds. */
  lemma SegmentStepScheduled(form: FormState, svc: Services, k: int, plans: seq<VideoPlan>, scripts: seq<VoiceoverScript>)
    ensures StepScheduled(k, SegmentStep(form, svc, k, plans, scripts))
  {
    var vp := BuildVisualPrompt(form.platform, form.personaDna, form.topic, k + 1, SegmentTotal(form), form.captionsEnabled, plans);
    if vp.Success? {
      AfterVisualPromptScheduled(form, svc, k, VisualRequest(vp.value), scripts);
    }
  }

  lemma AfterVisualPromptScheduled(form: FormState, svc: Services, k: int, visualRequest: Request, scripts: seq<VoiceoverScript>)
    requires SlotOf(visualRequest) == VisualCall(k + 1)
    ensures StepScheduled(k, AfterVisualPrompt(form, svc, k, visualRequest, scripts))
  {
    var o := AfterVisualPrompt(form, svc, k, visualRequest, scripts);
    var planned := PlanFrom(form, svc, visualRequest);
    if planned.Failure? {
      assert o == StepErr(planned.error, [visualRequest]);
    } else {
      var d := BuildDialoguePrompt(form.platform, form.personaDna, form.topic, k + 1, SegmentTotal(form),
                                   form.voiceTone, planned.value, scripts);
      assert o.requests == [visualRequest, VoiceoverRequest(d)];
      assert SlotOf(VoiceoverRequest(d)) == VoiceoverCall(k + 1);
    }
  }

  /** A segment whose predecessor has no shots fails before any call. */
  lemma ShotlessPredecessorFails(form: FormState, svc: Services, k: int, plans: seq<VideoPlan>, scripts: seq<VoiceoverScript>)
    requires k >= 1 && plans != [] && plans[|plans| - 1].shots == []
    ensures SegmentStep(form, svc, k, plans, scripts) == StepErr(UndefinedVisualError, [])
  {
  }

  // ---------------------------------------------------------------- the run

  /** A segment producer, as the loop sees it. */
  type StepFn = (int, seq<VideoPlan>, seq<VoiceoverScript>) -> StepOutcome

  function StepOf(form: FormState, svc: Services): StepFn {
    (k, plans, scripts) => SegmentStep(form, svc, k, plans, scripts)
  }

  /** The request for the publishing metadata. */
  function PublishingRequestOf(form: FormState): Request {
    PublishingRequest(BuildPublishingPrompt(form.platform, NormalizedDuration(form.platform, form.durationSec),
                                            form.topic, form.personaDna, FinalEmojiConfig(form)))
  }

  /** The run of `n` segments from segment `k + 1` on, after the segments
      before it produced `plans` and `scripts` and the requests in `trace`;
      `info` is what the publishing request yields. */
  function RunFrom(n: int, step: StepFn, publishing: Request, info: Result<PublishingInfo, string>,
                   k: nat, plans: seq<VideoPlan>, scripts: seq<VoiceoverScript>,
                   trace: seq<Request>): (Result<GenerationResult, UserError>, seq<Request>)
    decreases n - k
  {
    if k >= n then
      match info
      case Failure(e) => (Failure(ClassifyError(e)), trace + [publishing])
      case Success(i) => (Success(GenerationResult(plans, scripts, i)), trace + [publishing])
    else
      match step(k, plans, scripts)
      case StepErr(e, reqs) => (Failure(ClassifyError(e)), trace + reqs)
      case StepOk(plan, script, reqs) => RunFrom(n, step, publishing, info, k + 1, plans + [plan], scripts + [script], trace + reqs)
  }

  /** The whole run: its result and the requests it made, in order. */
  function Run(form: FormState, svc: Services): (Result<GenerationResult, UserError>, seq<Request>) {
    var publishing := PublishingRequestOf(form);
    RunFrom(SegmentTotal(form), StepOf(form, svc), publishing, InfoFrom(svc, publishing), 0, [], [], [])
  }

  // ---------------------------------------------------------------- the loop

  /** The body of the segment loop: build the visual prompt, call, parse and
      finalise; then build the voiceover prompt against the finalised plan,
      call and parse. It stops at the first failure and reports the requests
      made so far. */
  method GenerateSegment(form: FormState, svc: Services, segIndex: int, numSegments: int,
                         videoPlans: seq<VideoPlan>, voiceoverScripts: seq<VoiceoverScript>)
      returns (outcome: StepOutcome)
    requires numSegments == SegmentTotal(form)
    ensures outcome == SegmentStep(form, svc, segIndex - 1, videoPlans, voiceoverScripts)
  {
    var p := form.platform;
    var visualPrompt := BuildVisualPrompt(p, form.personaDna, form.topic, segIndex, numSegments,
                                          form.captionsEnabled, videoPlans);
    if visualPrompt.Failure? {
      return StepErr(visualPrompt.error, []);
    }
    var visualRequest := VisualRequest(visualPrompt.value);
    var visualResponse := svc.generate(visualRequest);
    if visualResponse.Failure? {
      return StepErr(visualResponse.error, [visualRequest]);
    }
    var draft := ParseJsonResponse(visualResponse.value, svc.parsePlan);
    if draft.Failure? {
      return StepErr(draft.error, [visualRequest]);
    }
    var plan := FinalizePlan(p, form.personaDna, form.topic, form.captionsEnabled, form.extras, draft.value);

    var dialogueRequest := VoiceoverRequest(BuildDialoguePrompt(p, form.personaDna, form.topic, segIndex, numSegments,
                                                                form.voiceTone, plan, voiceoverScripts));
    var dialogueResponse := svc.generate(dialogueRequest);
    if dialogueResponse.Failure? {
      return StepErr(dialogueResponse.error, [visualRequest, dialogueRequest]);
    }
    var script := ParseJsonResponse(dialogueResponse.value, svc.parseScript);
    if script.Failure? {
      return StepErr(script.error, [visualRequest, dialogueRequest]);
    }
    return StepOk(plan, script.value, [visualRequest, dialogueRequest]);
  }

  /** `generateVideoPrompts`, as the source runs it: a loop over the segments
      that appends to two lists, then the publishing call; proved to make
      exactly the requests and produce exactly the result of `Run`. */
  method GenerateVideoPrompts(form: FormState, svc: Services) returns (res: Result<GenerationResult, UserError>, trace: seq<Request>)
    ensures (res, trace) == Run(form, svc)
  {
    var p := form.platform;
    var dur := NormalizedDuration(p, form.durationSec);
    var numSegments := SegmentCount(dur);
    var emoji := FinalEmojiConfig(form);
    ghost var step := StepOf(form, svc);
    ghost var publishing := PublishingRequestOf(form);
    ghost var info := InfoFrom(svc, publishing);

    var videoPlans: seq<VideoPlan> := [];
    var voiceoverScripts: seq<VoiceoverScript> := [];
    trace := [];
    var i := 0;
    while i < numSegments
      invariant 0 <= i <= numSegments == SegmentTotal(form)
      invariant RunFrom(numSegments, step, publishing, info, i, videoPlans, voiceoverScripts, trace) == Run(form, svc)
    {
      var outcome := GenerateSegment(form, svc, i + 1, numSegments, videoPlans, voiceoverScripts);
      RunFromStep(numSegments, step, publishing, info, i, videoPlans, voiceoverScripts, trace, outcome);
      trace := trace + outcome.requests;
      if outcome.StepErr? {
        res := Failure(ClassifyError(outcome.cause));
        return;
      }
      videoPlans := videoPlans + [outcome.plan];
      voiceoverScripts := voiceoverScripts + [outcome.script];
      i := i + 1;
    }

    var publishingRequest := PublishingRequest(BuildPublishingPrompt(p, dur, form.topic, form.personaDna, emoji));
    assert publishingRequest == publishing;
    trace := trace + [publishingRequest];
    var publishingInfo := GeneratePublishingInfo(svc, publishingRequest);
    if publishingInfo.Failure? {
      res := Failure(ClassifyError(publishingInfo.error));
      return;
    }
    res := Success(GenerationResult(videoPlans, voiceoverScripts, publishingInfo.value));
  }

  /** One turn of the loop, in terms of the run it carries out. */
  lemma RunFromStep(n: int, step: StepFn, publishing: Request, info: Result<PublishingInfo, string>,
                    k: nat, plans: seq<VideoPlan>, scripts: seq<VoiceoverScript>, trace: seq<Request>,
                    outcome: StepOutcome)
    requires k < n && outcome == step(k, plans, scripts)
    ensures outcome.StepErr? ==>
      RunFrom(n, step, publishing, info, k, plans, scripts, trace) == (Failure(ClassifyError(outcome.cause)), trace + outcome.requests)
    ensures outcome.StepOk? ==>
      RunFrom(n, step, publishing, info, k, plans, scripts, trace)
      == RunFrom(n, step, publishing, info, k + 1, plans + [outcome.plan], scripts + [outcome.script], trace + outcome.requests)
  {
  }

  /** The publishing call after the loop: a failed call fails with its
      message; otherwise the reply is parsed, and a reply the parser rejects
      fails with the invalid-JSON message. */
  method GeneratePublishingInfo(svc: Services, publishingRequest: Request) returns (info: Result<PublishingInfo, string>)
    ensures svc.generate(publishingRequest).Failure? ==> info == Failure(svc.generate(publishingRequest).error)
    ensures svc.generate(publishingRequest).Success? ==>
      var parsed := svc.parseInfo(StripFences(svc.generate(publishingRequest).value));
      && (info.Success? <==> parsed.Some?)
      && (info.Success? ==> info.value == parsed.value)
      && (info.Failure? ==> info.error == InvalidJsonMessage)
    ensures info == InfoFrom(svc, publishingRequest)
  {
    var publishingResponse := svc.generate(publishingRequest);
    if publishingResponse.Failure? {
      return Failure(publishingResponse.error);
    }
    info := ParseJsonResponse(publishingResponse.value, svc.parseInfo);
  }

  // ---------------------------------------------------------------- call order

  /** Which call a request is: visual(i), voiceover(i) or publishing. */
  datatype CallSlot = VisualCall(segIndex: int) | VoiceoverCall(segIndex: int) | PublishingCall

  function SlotOf(req: Request): CallSlot {
    match req
    case VisualRequest(v) => VisualCall(v.segIndex)
    case VoiceoverRequest(d) => VoiceoverCall(d.segIndex)
    case PublishingRequest(_) => PublishingCall
  }

  /** The `j`-th call of a run of `n` segments: visual(1), voiceover(1), …,
      visual(n), voiceover(n), publishing. */
  function ScheduleAt(j: int, n: int): CallSlot {
    if j >= 2 * n then PublishingCall
    else if j % 2 == 0 then VisualCall(j / 2 + 1)
    else VoiceoverCall(j / 2 + 1)
  }

  /** The trace follows the fixed schedule for as long as it goes, and never
      goes past the publishing call. */
  ghost predicate FollowsSchedule(trace: seq<Request>, n: int) {
    |trace| <= 2 * n + 1
    && forall j :: 0 <= j < |trace| ==> SlotOf(trace[j]) == ScheduleAt(j, n)
  }

  /** Segment `k + 1` made a prefix of its two scheduled calls, and both when it succeeded. */
  ghost predicate StepScheduled(k: int, o: StepOutcome) {
    && |o.requests| <= 2
    && (o.StepOk? ==> |o.requests| == 2)
    && (|o.requests| >= 1 ==> SlotOf(o.requests[0]) == VisualCall(k + 1))
    && (|o.requests| == 2 ==> SlotOf(o.requests[1]) == VoiceoverCall(k + 1))
  }

  ghost predicate ScheduledSteps(step: StepFn) {
    forall k, plans, scripts :: StepScheduled(k, step(k, plans, scripts))
  }

  // ---------------------------------------------------------------- properties of the run

  /** The state after `k` complete segments: two index-aligned lists and
      two requests per segment, each segment produced by `step` from the
      segments before it. */
  ghost predicate Completed(step: StepFn, k: int, plans: seq<VideoPlan>, scripts: seq<VoiceoverScript>,
                            trace: seq<Request>) {
    && 0 <= k && |plans| == k && |scripts| == k && |trace| == 2 * k
    && forall j :: 0 <= j < k ==>
         step(j, plans[..j], scripts[..j]) == StepOk(plans[j], scripts[j], trace[2 * j..2 * j + 2])
  }

  lemma {:induction false} CompletedExtend(step: StepFn, k: int, plans: seq<VideoPlan>,
                                           scripts: seq<VoiceoverScript>, trace: seq<Request>,
                                           plan: VideoPlan, script: VoiceoverScript, reqs: seq<Request>)
    requires Completed(step, k, plans, scripts, trace) && |reqs| == 2
    requires step(k, plans, scripts) == StepOk(plan, script, reqs)
    ensures Completed(step, k + 1, plans + [plan], scripts + [script], trace + reqs)
  {
    var plans', scripts', trace' := plans + [plan], scripts + [script], trace + reqs;
    forall j | 0 <= j < k + 1
      ensures step(j, plans'[..j], scripts'[..j]) == StepOk(plans'[j], scripts'[j], trace'[2 * j..2 * j + 2])
    {
      if j < k {
        assert plans'[..j] == plans[..j] && scripts'[..j] == scripts[..j];
        assert trace'[2 * j..2 * j + 2] == trace[2 * j..2 * j + 2];
      } else {
        assert plans'[..j] == plans && scripts'[..j] == scripts;
        assert trace'[2 * j..2 * j + 2] == reqs;
      }
    }
  }

  /** A completed prefix follows the schedule of any run of at least as many segments. */
  lemma CompletedFollowsSchedule(step: StepFn, n: int, k: int, plans: seq<VideoPlan>,
                                 scripts: seq<VoiceoverScript>, trace: seq<Request>)
    requires ScheduledSteps(step) && Completed(step, k, plans, scripts, trace) && k <= n
    ensures forall j :: 0 <= j < |trace| ==> SlotOf(trace[j]) == ScheduleAt(j, n)
  {
    forall j | 0 <= j < |trace| ensures SlotOf(trace[j]) == ScheduleAt(j, n) {
      var s := j / 2;
      assert trace[j] == trace[2 * s..2 * s + 2][j - 2 * s];
      assert StepScheduled(s, step(s, plans[..s], scripts[..s]));
    }
  }

  /** What a successful run returns: all `n` segments completed by `step`,
      then the publishing request as the last of `2n + 1` calls, whose reply
      `info` is returned with the plans and scripts. */
  ghost predicate SucceededAfterAll(run: (Result<GenerationResult, UserError>, seq<Request>), n: int, step: StepFn,
                                    publishing: Request, info: Result<PublishingInfo, string>) {
    var (res, tr) := run;
    res.Success? ==>
      && |tr| == 2 * n + 1
      && Completed(step, n, res.value.videoPlans, res.value.voiceoverScripts, tr[..2 * n])
      && tr[2 * n] == publishing
      && info == Success(res.value.publishingInfo)
  }

  /** The run stopped at segment `k + 1`: the `k` segments before it were
      completed by `step` with the requests that open the trace, segment
      `k + 1` failed, the trace ends with the requests it made, and the error
      is the classification of its message. */
  ghost predicate StoppedAt(run: (Result<GenerationResult, UserError>, seq<Request>), step: StepFn,
                            k: int, plans: seq<VideoPlan>, scripts: seq<VoiceoverScript>) {
    var (res, tr) := run;
    var o := step(k, plans, scripts);
    && 0 <= k && 2 * k <= |tr| && Completed(step, k, plans, scripts, tr[..2 * k])
    && o.StepErr?
    && tr == tr[..2 * k] + o.requests
    && res == Failure(ClassifyError(o.cause))
  }

  /** What a failed run returns: either it stopped at the first segment that
      failed, or all `n` segments completed, the publishing request was the
      last of `2n + 1` calls, and its error message is the one classified. */
  ghost predicate FailedAtFirstError(run: (Result<GenerationResult, UserError>, seq<Request>), n: int, step: StepFn,
                                     publishing: Request, info: Result<PublishingInfo, string>) {
    var (res, tr) := run;
    res.Failure? ==>
      || (exists k, plans, scripts :: k < n && StoppedAt(run, step, k, plans, scripts))
      || (&& |tr| == 2 * n + 1 && tr[2 * n] == publishing
          && info.Failure? && res.error == ClassifyError(info.error)
          && exists plans, scripts :: Completed(step, n, plans, scripts, tr[..2 * n]))
  }

  /** The shape of every run from a completed prefix, by induction on the
      segments still to go: the trace follows the schedule and extends the
      prefix; a successful run completed all `n` segments and then made the
      publishing request, whose reply it returns. */
  lemma {:induction false} RunFromShape(n: int, step: StepFn, publishing: Request, info: Result<PublishingInfo, string>,
                                        k: nat, plans: seq<VideoPlan>, scripts: seq<VoiceoverScript>, trace: seq<Request>)
    requires ScheduledSteps(step) && SlotOf(publishing) == PublishingCall
    requires Completed(step, k, plans, scripts, trace) && k <= n
    ensures FollowsSchedule(RunFrom(n, step, publishing, info, k, plans, scripts, trace).1, n)
    ensures SucceededAfterAll(RunFrom(n, step, publishing, info, k, plans, scripts, trace), n, step, publishing, info)
    ensures var (res, tr) := RunFrom(n, step, publishing, info, k, plans, scripts, trace);
      && 2 * k <= |tr| && tr[..2 * k] == trace
      && (res.Failure? && |tr| == 2 * n + 1 ==> info.Failure? && res.error == ClassifyError(info.error))
    decreases n - k
  {
    CompletedFollowsSchedule(step, n, k, plans, scripts, trace);
    if k >= n {
      var tr := trace + [publishing];
      assert tr[..2 * k] == trace;
    } else {
      var o := step(k, plans, scripts);
      assert StepScheduled(k, o);
      match o
      case StepErr(e, reqs) =>
        var tr := trace + reqs;
        assert tr[..2 * k] == trace;
        forall j | 2 * k <= j < |tr| ensures SlotOf(tr[j]) == ScheduleAt(j, n) {
          assert tr[j] == reqs[j - 2 * k];
        }
      case StepOk(plan, script, reqs) =>
        CompletedExtend(step, k, plans, scripts, trace, plan, script, reqs);
        RunFromShape(n, step, publishing, info, k + 1, plans + [plan], scripts + [script], trace + reqs);
        var tr := RunFrom(n, step, publishing, info, k, plans, scripts, trace).1;
        assert tr[..2 * (k + 1)] == trace + reqs;
        assert tr[..2 * k] == (trace + reqs)[..2 * k];
    }
  }

  /** How every run from a completed prefix fails, by induction on the
      segments still to go: at the first segment that fails, or at the
      publishing call after all of them. */
  lemma {:induction false} RunFromFails(n: int, step: StepFn, publishing: Request, info: Result<PublishingInfo, string>,
                                        k: nat, plans: seq<VideoPlan>, scripts: seq<VoiceoverScript>, trace: seq<Request>)
    requires ScheduledSteps(step)
    requires Completed(step, k, plans, scripts, trace) && k <= n
    ensures FailedAtFirstError(RunFrom(n, step, publishing, info, k, plans, scripts, trace), n, step, publishing, info)
    decreases n - k
  {
    if k >= n {
      var tr := trace + [publishing];
      assert tr[..2 * n] == trace;
    } else {
      var o := step(k, plans, scripts);
      assert StepScheduled(k, o);
      match o
      case StepErr(e, reqs) =>
        var tr := trace + reqs;
        assert tr[..2 * k] == trace;
        assert StoppedAt((Failure(ClassifyError(e)), tr), step, k, plans, scripts);
      case StepOk(plan, script, reqs) =>
        CompletedExtend(step, k, plans, scripts, trace, plan, script, reqs);
        RunFromFails(n, step, publishing, info, k + 1, plans + [plan], scripts + [script], trace + reqs);
    }
  }

  /** Every segment producer of the pipeline keeps to the schedule. */
  lemma PipelineStepsScheduled(form: FormState, svc: Services)
    ensures ScheduledSteps(StepOf(form, svc))
  {
    forall k, plans, scripts ensures StepScheduled(k, StepOf(form, svc)(k, plans, scripts)) {
      SegmentStepScheduled(form, svc, k, plans, scripts);
    }
  }

  /** The call order of `generateVideoPrompts`: visual(1), voiceover(1), …,
      visual(n), voiceover(n), publishing, cut short at the first failure.
      A successful run completed all `n` segments, made the publishing
      request last, and returns its parsed reply. A failed run ends with the
      requests of the segment that failed, or with the publishing request,
      and reports the classification of that failure's message. */
  lemma RunShape(form: FormState, svc: Services)
    ensures FollowsSchedule(Run(form, svc).1, SegmentTotal(form))
    ensures SucceededAfterAll(Run(form, svc), SegmentTotal(form), StepOf(form, svc),
                              PublishingRequestOf(form), InfoFrom(svc, PublishingRequestOf(form)))
    ensures FailedAtFirstError(Run(form, svc), SegmentTotal(form), StepOf(form, svc),
                               PublishingRequestOf(form), InfoFrom(svc, PublishingRequestOf(form)))
  {
    PipelineStepsScheduled(form, svc);
    var publishing := PublishingRequestOf(form);
    RunFromShape(SegmentTotal(form), StepOf(form, svc), publishing, InfoFrom(svc, publishing), 0, [], [], []);
    RunFromFails(SegmentTotal(form), StepOf(form, svc), publishing, InfoFrom(svc, publishing), 0, [], [], []);
  }

  /** The `j`-th segment of a completed prefix, with its two requests. */
  lemma CompletedSegment(step: StepFn, k: int, plans: seq<VideoPlan>, scripts: seq<VoiceoverScript>,
                         trace: seq<Request>, j: int)
    requires Completed(step, k, plans, scripts, trace) && 0 <= j < k
    ensures step(j, plans[..j], scripts[..j]) == StepOk(plans[j], scripts[j], [trace[2 * j], trace[2 * j + 1]])
  {
    assert trace[2 * j..2 * j + 2] == [trace[2 * j], trace[2 * j + 1]];
  }

  /** Segment `j + 1` was made by the pipeline with the requests `visual`
      and `voiceover`: the visual request was built from the plans before it,
      the voiceover request from its own finalised plan and the scripts
      before it, the plan and script are what those calls yielded, and the
      plan satisfies the caption invariant. */
  ghost predicate SegmentMade(form: FormState, svc: Services, j: int, plans: seq<VideoPlan>, scripts: seq<VoiceoverScript>,
                              visual: Request, voiceover: Request) {
    var n := SegmentTotal(form);
    && 0 <= j < |plans| && j < |scripts|
    && BuildVisualPrompt(form.platform, form.personaDna, form.topic, j + 1, n, form.captionsEnabled, plans[..j]).Success?
    && visual == VisualRequest(BuildVisualPrompt(form.platform, form.personaDna, form.topic, j + 1, n,
                                                 form.captionsEnabled, plans[..j]).value)
    && voiceover == VoiceoverRequest(BuildDialoguePrompt(form.platform, form.personaDna, form.topic, j + 1, n,
                                                         form.voiceTone, plans[j], scripts[..j]))
    && PlanFrom(form, svc, visual) == Success(plans[j])
    && ScriptFrom(svc, voiceover) == Success(scripts[j])
    && CaptionInvariant(plans[j], form.captionsEnabled)
  }

  /** Every segment of a successful run was made by the pipeline, with the
      two requests at its place in the call order. */
  lemma RunSegment(form: FormState, svc: Services, j: int)
    requires Run(form, svc).0.Success? && 0 <= j < SegmentTotal(form)
    ensures var (res, trace) := Run(form, svc);
      && |trace| == 2 * SegmentTotal(form) + 1
      && SegmentMade(form, svc, j, res.value.videoPlans, res.value.voiceoverScripts, trace[2 * j], trace[2 * j + 1])
  {
    RunShape(form, svc);
    var (res, trace) := Run(form, svc);
    var n := SegmentTotal(form);
    var plans, scripts := res.value.videoPlans, res.value.voiceoverScripts;
    assert |trace| == 2 * n + 1 && Completed(StepOf(form, svc), n, plans, scripts, trace[..2 * n]);
    var prefix := trace[..2 * n];
    CompletedSegmentOk(form, svc, n, plans, scripts, prefix, j);
    assert prefix[2 * j] == trace[2 * j] && prefix[2 * j + 1] == trace[2 * j + 1];
  }

  /** The same for segment `j + 1` of any completed prefix of the pipeline. */
  lemma CompletedSegmentOk(form: FormState, svc: Services, n: int, plans: seq<VideoPlan>, scripts: seq<VoiceoverScript>,
                           trace: seq<Request>, j: int)
    requires Completed(StepOf(form, svc), n, plans, scripts, trace) && 0 <= j < n == SegmentTotal(form)
    ensures SegmentMade(form, svc, j, plans, scripts, trace[2 * j], trace[2 * j + 1])
  {
    CompletedSegment(StepOf(form, svc), n, plans, scripts, trace, j);
    SegmentStepOk(form, svc, j, plans[..j], scripts[..j]);
  }
}
