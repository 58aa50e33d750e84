/** The local logic of services/geminiService.ts around the calls to the hosted
    model: stripping the data-URL header from images, assembling the request
    parts, the "some input" check of the interaction analysis, the student
    identity fallback and audience-mode choice of the feedback generator, and the
    truncated profile context of the activity planner. The model itself, the
    prompt wording and the response schemas are not modelled: what the model
    answers is an input of type `GatewayResult`. */
module GeminiService {
  import opened Types
  import Strings

  // ---- images -------------------------------------------------------------

  /** `img.includes(',') ? img.split(',')[1] : img`: a data URL
      (`data:image/png;base64,AAAA`) loses its header; text without a comma is
      kept as it is. The result never contains a comma. */
  function StripDataUrl(img: string): (data: string)
    ensures ',' !in data
    ensures ',' !in img ==> data == img
  {
    if ',' in img then
      Strings.SplitCount(img, ',');
      Strings.Split(img, ',')[1]
    else img
  }

  /** A header and a comma-free payload: stripping gives back exactly the payload. */
  lemma StripDataUrlOfHeaderAndPayload(header: string, payload: string)
    requires ',' !in header && ',' !in payload
    ensures StripDataUrl(header + "," + payload) == payload
  {
    var s := header + "," + payload;
    assert s == header + [','] + payload;
    assert s[|header|] == ',';
    Strings.SplitAppend(header, payload, ',');
    Strings.SplitWithoutSeparator(header, ',');
    Strings.SplitWithoutSeparator(payload, ',');
  }

  /** Only the second comma-separated piece is kept: what follows a second comma is dropped. */
  lemma StripDataUrlKeepsSecondPiece(header: string, payload: string, tail: string)
    requires ',' !in header && ',' !in payload
    ensures StripDataUrl(header + "," + payload + "," + tail) == payload
  {
    var s := header + "," + payload + "," + tail;
    assert s == header + [','] + (payload + [','] + tail);
    assert s[|header|] == ',';
    Strings.SplitAppend(header, payload + [','] + tail, ',');
    Strings.SplitAppend(payload, tail, ',');
    Strings.SplitWithoutSeparator(header, ',');
    Strings.SplitWithoutSeparator(payload, ',');
  }

  /** Stripping twice is stripping once (the analysis handler strips before the service does). */
  lemma StripDataUrlIdempotent(img: string)
    ensures StripDataUrl(StripDataUrl(img)) == StripDataUrl(img)
  {
  }

  // ---- request parts ------------------------------------------------------

  datatype Part = TextPart(text: string) | ImagePart(mimeType: string, data: string)

  const Jpeg := "image/jpeg"

  /** One image part per image, in order, each stripped of its header. */
  function ImageParts(imgs: seq<string>): (parts: seq<Part>)
    ensures |parts| == |imgs|
    ensures forall i | 0 <= i < |imgs| :: parts[i] == ImagePart(Jpeg, StripDataUrl(imgs[i]))
  {
    if imgs == [] then [] else ImageParts(imgs[..|imgs| - 1]) + [ImagePart(Jpeg, StripDataUrl(imgs[|imgs| - 1]))]
  }

  /** The profile screenshots that still hold data once stripped, as image parts, in order. */
  function ScreenshotParts(imgs: seq<string>): (parts: seq<Part>)
    ensures |parts| <= |imgs|
    ensures forall k | 0 <= k < |parts| :: parts[k].ImagePart? && parts[k].mimeType == Jpeg && parts[k].data != ""
  {
    if imgs == [] then []
    else
      var data := StripDataUrl(imgs[|imgs| - 1]);
      ScreenshotParts(imgs[..|imgs| - 1]) + (if data != "" then [ImagePart(Jpeg, data)] else [])
  }

  /** One screenshot gives its stripped part, or nothing when that is empty. */
  lemma ScreenshotPartsOne(img: string)
    ensures ScreenshotParts([img]) == if StripDataUrl(img) != "" then [ImagePart(Jpeg, StripDataUrl(img))] else []
  {
    assert [img][..0] == [];
  }

  /** The parts keep the order of the screenshots: the parts of two lists one after
      the other are the parts of the first, then those of the second. */
  lemma {:induction false} ScreenshotPartsConcat(a: seq<string>, b: seq<string>)
    ensures ScreenshotParts(a + b) == ScreenshotParts(a) + ScreenshotParts(b)
    decreases |b|
  {
    if b == [] {
      assert a + b == a;
    } else {
      var c := b[..|b| - 1];
      assert (a + b)[..|a + b| - 1] == a + c;
      assert (a + b)[|a + b| - 1] == b[|b| - 1];
      ScreenshotPartsConcat(a, c);
    }
  }

  /** Where a screenshot's part goes: after the parts of the screenshots before it
      and before those of the screenshots after it. */
  lemma ScreenshotPartsAt(before: seq<string>, img: string, after: seq<string>)
    ensures ScreenshotParts(before + [img] + after) == ScreenshotParts(before)
      + (if StripDataUrl(img) != "" then [ImagePart(Jpeg, StripDataUrl(img))] else [])
      + ScreenshotParts(after)
  {
    ScreenshotPartsConcat(before + [img], after);
    ScreenshotPartsConcat(before, [img]);
    ScreenshotPartsOne(img);
  }

  /** Each screenshot whose stripped data is non-empty has its part, in order of the
      screenshots: the parts are exactly those screenshots, filtered. */
  lemma {:induction false} ScreenshotPartsFilter(imgs: seq<string>, i: nat)
    requires i < |imgs|
    ensures StripDataUrl(imgs[i]) != "" ==> ImagePart(Jpeg, StripDataUrl(imgs[i])) in ScreenshotParts(imgs)
    ensures (forall j | 0 <= j < |imgs| :: StripDataUrl(imgs[j]) != "") ==> |ScreenshotParts(imgs)| == |imgs|
  {
    assert StripDataUrl(imgs[i]) != "" ==> ImagePart(Jpeg, StripDataUrl(imgs[i])) in ScreenshotParts(imgs) by {
      assert imgs == imgs[..i] + [imgs[i]] + imgs[i + 1..];
      ScreenshotPartsAt(imgs[..i], imgs[i], imgs[i + 1..]);
    }
    if forall j | 0 <= j < |imgs| :: StripDataUrl(imgs[j]) != "" {
      ScreenshotPartsKeepAll(imgs);
    }
  }

  /** When every screenshot holds data, none is dropped. */
  lemma {:induction false} ScreenshotPartsKeepAll(imgs: seq<string>)
    requires forall j | 0 <= j < |imgs| :: StripDataUrl(imgs[j]) != ""
    ensures |ScreenshotParts(imgs)| == |imgs|
  {
    if imgs != [] {
      var last := |imgs| - 1;
      assert forall j | 0 <= j < |imgs[..last]| :: imgs[..last][j] == imgs[j];
      ScreenshotPartsKeepAll(imgs[..last]);
      assert StripDataUrl(imgs[last]) != "";
    }
  }

  /** Parts of an interaction analysis: the prompt, then the chat images in order,
      then the profile screenshots that are not empty once stripped. */
  function InteractionParts(prompt: string, chatImages: seq<string>, screenshots: Option<seq<string>>): seq<Part>
  {
    [TextPart(prompt)] + ImageParts(chatImages)
    + (if screenshots.Some? then ScreenshotParts(screenshots.value) else [])
  }

  /** The order of an interaction request: text first, chat image `i` at `1 + i`,
      every screenshot part after all chat images. */
  lemma InteractionPartsOrder(prompt: string, chatImages: seq<string>, screenshots: Option<seq<string>>)
    ensures var parts := InteractionParts(prompt, chatImages, screenshots);
      && parts[0] == TextPart(prompt)
      && (forall i | 0 <= i < |chatImages| :: parts[1 + i] == ImagePart(Jpeg, StripDataUrl(chatImages[i])))
      && (forall k | 1 + |chatImages| <= k < |parts| :: parts[k].ImagePart? && parts[k].data != "")
      && parts[1 + |chatImages|..] == if screenshots.Some? then ScreenshotParts(screenshots.value) else []
  {
    var head := [TextPart(prompt)] + ImageParts(chatImages);
    var shots := if screenshots.Some? then ScreenshotParts(screenshots.value) else [];
    var parts := InteractionParts(prompt, chatImages, screenshots);
    assert parts == head + shots;
    assert |head| == 1 + |chatImages|;
    assert parts[|head|..] == shots;
    assert forall j | 0 <= j < |head| :: parts[j] == head[j];
    assert forall k | |head| <= k < |parts| :: parts[k] == shots[k - |head|];
  }

  /** One `forEach` that pushes an image part per image, each stripped of its header. */
  method PushImageParts(parts: seq<Part>, imgs: seq<string>) returns (r: seq<Part>)
    ensures r == parts + ImageParts(imgs)
  {
    r := parts;
    var i := 0;
    while i < |imgs|
      invariant 0 <= i <= |imgs|
      invariant r == parts + ImageParts(imgs[..i])
    {
      assert imgs[..i + 1][..i] == imgs[..i];
      r := r + [ImagePart(Jpeg, StripDataUrl(imgs[i]))];
      i := i + 1;
    }
    assert imgs[..i] == imgs;
  }

  /** The screenshot `forEach`: a part is pushed only for a screenshot whose stripped
      data is not empty. */
  method PushScreenshotParts(parts: seq<Part>, shots: seq<string>) returns (r: seq<Part>)
    ensures r == parts + ScreenshotParts(shots)
  {
    r := parts;
    var j := 0;
    while j < |shots|
      invariant 0 <= j <= |shots|
      invariant r == parts + ScreenshotParts(shots[..j])
    {
      assert shots[..j + 1][..j] == shots[..j];
      var clean := StripDataUrl(shots[j]);
      if clean != "" {
        r := r + [ImagePart(Jpeg, clean)];
      }
      j := j + 1;
    }
    assert shots[..j] == shots;
  }

  /** Builds the parts array as the service does, pushing inside `forEach` loops. */
  method BuildInteractionParts(prompt: string, chatImages: seq<string>, screenshots: Option<seq<string>>)
    returns (parts: seq<Part>)
    ensures parts == InteractionParts(prompt, chatImages, screenshots)
  {
    parts := PushImageParts([TextPart(prompt)], chatImages);
    if screenshots.Some? && |screenshots.value| > 0 {
      parts := PushScreenshotParts(parts, screenshots.value);
    }
  }

  /** Parts of a personality analysis: the prompt, the profile images, then the chat
      images, every one stripped and none dropped. */
  function PersonalityParts(prompt: string, profileImages: seq<string>, chatImages: seq<string>): seq<Part>
  {
    [TextPart(prompt)] + ImageParts(profileImages) + ImageParts(chatImages)
  }

  method BuildPersonalityParts(prompt: string, profileImages: seq<string>, chatImages: seq<string>)
    returns (parts: seq<Part>)
    ensures parts == PersonalityParts(prompt, profileImages, chatImages)
    ensures |parts| == 1 + |profileImages| + |chatImages|
  {
    parts := PushImageParts([TextPart(prompt)], profileImages);
    parts := PushImageParts(parts, chatImages);
  }

  // ---- interaction analysis -------------------------------------------------

  /** The service's own input check: some chat image, some (untrimmed) text, or
      some profile screenshot. */
  predicate InteractionInputPresent(chatImages: seq<string>, textInput: string, profile: ClientProfile)
  {
    |chatImages| > 0 || textInput != ""
    || (profile.profileScreenshots.Some? && |profile.profileScreenshots.value| > 0)
  }

  const NoInputMessage := "请至少提供聊天截图或文本描述"

  /** The outcome of one service call, and whether the model was asked at all. */
  datatype Call<+T> = Call(outcome: GatewayResult<T>, modelCalled: bool)

  /** `analyzeInteraction`: without any input it throws before the model is called;
      otherwise the model's answer (or its error) is the outcome. */
  function AnalyzeInteraction(chatImages: seq<string>, textInput: string, profile: ClientProfile,
                              model: GatewayResult<AnalysisResult>): (c: Call<AnalysisResult>)
    ensures c.modelCalled <==> InteractionInputPresent(chatImages, textInput, profile)
    ensures !c.modelCalled ==> c.outcome == Failure(NoInputMessage)
    ensures c.modelCalled ==> c.outcome == model
  {
    if !InteractionInputPresent(chatImages, textInput, profile) then Call(Failure(NoInputMessage), false)
    else Call(model, true)
  }

  // ---- class feedback -------------------------------------------------------

  /** `profile.clientType === ADULT_STUDENT || (profile.age && profile.age >= 18)`. */
  predicate ProfileIsAdult(p: ClientProfile)
  {
    p.clientType == AdultStudent || (p.age.Some? && p.age.value >= 18)
  }

  /** `a || b` on strings: an absent or empty string falls through. */
  function StrOr(a: Option<string>, b: string): string
  {
    if a.Some? && a.value != "" then a.value else b
  }

  /** `a || b` on numbers: an absent value or zero falls through. */
  function IntOr(a: Option<int>, b: int): int
  {
    if a.Some? && a.value != 0 then a.value else b
  }

  /** Whose name, age and gender describe the student: the holder for an adult
      profile, the child otherwise. */
  function ProfileName(p: ClientProfile): Option<string>
  {
    if ProfileIsAdult(p) then Some(p.name) else p.childName
  }

  function ProfileAge(p: ClientProfile): Option<int>
  {
    if ProfileIsAdult(p) then p.age else p.childAge
  }

  function ProfileGender(p: ClientProfile): Option<string>
  {
    if ProfileIsAdult(p) then p.gender else p.childGender
  }

  datatype Identity = Identity(name: string, age: int, gender: string)

  predicate Truthy(s: Option<string>)
  {
    s.Some? && s.value != ""
  }

  predicate NonZero(n: Option<int>)
  {
    n.Some? && n.value != 0
  }

  /** The identity used in the feedback prompt: each field is the override when
      that is truthy, else the profile's value when truthy, else the default
      (`'学员'`, 0, `'未知'`). */
  function ResolveIdentity(p: ClientProfile, nameOverride: Option<string>, ageOverride: Option<int>,
                           genderOverride: Option<string>): (id: Identity)
    ensures Truthy(nameOverride) ==> id.name == nameOverride.value
    ensures !Truthy(nameOverride) && Truthy(ProfileName(p)) ==> id.name == ProfileName(p).value
    ensures !Truthy(nameOverride) && !Truthy(ProfileName(p)) ==> id.name == "学员"
    ensures NonZero(ageOverride) ==> id.age == ageOverride.value
    ensures !NonZero(ageOverride) && NonZero(ProfileAge(p)) ==> id.age == ProfileAge(p).value
    ensures !NonZero(ageOverride) && !NonZero(ProfileAge(p)) ==> id.age == 0
    ensures Truthy(genderOverride) ==> id.gender == genderOverride.value
    ensures !Truthy(genderOverride) && Truthy(ProfileGender(p)) ==> id.gender == ProfileGender(p).value
    ensures !Truthy(genderOverride) && !Truthy(ProfileGender(p)) ==> id.gender == "未知"
    ensures id.name != "" && id.gender != ""
  {
    Identity(StrOr(nameOverride, StrOr(ProfileName(p), "学员")),
             IntOr(ageOverride, IntOr(ProfileAge(p), 0)),
             StrOr(genderOverride, StrOr(ProfileGender(p), "未知")))
  }

  /** Which audience instruction the feedback prompt carries. */
  datatype ModeInstruction =
    | ReportToParent      // override CHILD
    | MatureEncouraging   // override TEEN
    | ProfessionalDirect  // override ADULT
    | AutoAdult           // no override, adult profile
    | AutoChild           // no override, child profile

  /** With an override: CHILD, then TEEN, anything else ADULT. Without one, the
      profile's adulthood decides. */
  function SelectModeInstruction(modeOverride: Option<TargetAudienceMode>, p: ClientProfile): (m: ModeInstruction)
    ensures modeOverride == Some(ChildMode) <==> m == ReportToParent
    ensures modeOverride == Some(TeenMode) <==> m == MatureEncouraging
    ensures modeOverride == Some(AdultMode) <==> m == ProfessionalDirect
    ensures modeOverride.None? ==> (m == AutoAdult <==> ProfileIsAdult(p))
    ensures modeOverride.None? <==> m in {AutoAdult, AutoChild}
  {
    match modeOverride
    case Some(ChildMode) => ReportToParent
    case Some(TeenMode) => MatureEncouraging
    case Some(_) => ProfessionalDirect
    case None => if ProfileIsAdult(p) then AutoAdult else AutoChild
  }

  // ---- activity plan ----------------------------------------------------------

  const ContextLimit := 3000

  /** One line of the activity planner's profile context. */
  function ProfileContextLine(p: ClientProfile): string
  {
    "- " + p.name + " (" + ClientTypeLabel(p.clientType) + "): " + CourseLabel(p.course)
    + ", 剩余" + Strings.IntToString(p.remainingLessons) + "课时, 关注:" + Strings.Join(p.parentFocus, ',')
  }

  function ProfileContextLines(ps: seq<ClientProfile>): (lines: seq<string>)
    ensures |lines| == |ps|
    ensures forall i | 0 <= i < |ps| :: lines[i] == ProfileContextLine(ps[i])
  {
    if ps == [] then [] else [ProfileContextLine(ps[0])] + ProfileContextLines(ps[1..])
  }

  /** `profileContext.slice(0, 3000)`: the joined lines, cut to their first 3000 characters. */
  function ProfileContext(ps: seq<ClientProfile>): (ctx: string)
    ensures var full := Strings.Join(ProfileContextLines(ps), '\n');
      && |ctx| <= ContextLimit && |ctx| <= |full|
      && ctx == full[..|ctx|]
      && (|full| <= ContextLimit ==> ctx == full)
      && (|full| > ContextLimit ==> |ctx| == ContextLimit)
  {
    var full := Strings.Join(ProfileContextLines(ps), '\n');
    if |full| <= ContextLimit then full else full[..ContextLimit]
  }
}
