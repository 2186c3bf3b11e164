/**
 * The generation service: the four description tables, the prompt composer,
 * the refinement instruction, the requests sent to the image model, the
 * first-inline-image search over a reply and the data-URI handling.
 *
 * The model endpoint itself is a parameter `api: Request -> ApiReply`: the
 * service builds a request, hands it to `api` and interprets what comes back.
 */
module Gemini {
  import opened Wrappers
  import opened Text
  import opened Types

  const ImageModel := "gemini-2.5-flash-image"

  // ---- Description tables ---------------------------------------------------

  const RealisticDescription := "photorealistic, natural skin textures, 8k resolution, professional photography"
  const CinematicDescription := "cinematic lighting, dramatic shadows, wide-angle lens, movie-like atmosphere"
  const ArtisticDescription := "stylized illustration, painterly textures, creative brushstrokes, expressive colors"
  const VintageDescription := "classic film grain, warm nostalgic tones, 35mm film aesthetic, slight chromatic aberration"
  const AnimeDescription := "modern high-quality anime style, vibrant cel-shaded aesthetics, clean line art"
  const DefaultDetailDescription := "standard high-quality model optimization"
  const LowDetailDescription := "focused on general shapes and composition"
  const MediumDetailDescription := "balanced detail and clarity across the scene"
  const HighDetailDescription := "extreme attention to minute details, textures, and crisp edges"
  const DefaultPoseDescription := "Automatically balance pose accuracy with a natural and aesthetic appearance."
  const ExactPoseDescription := "Follow the reference image pose and positioning strictly."
  const RelaxedPoseDescription := "Use the reference image as a base, but make the pose look more relaxed, natural, and candid."
  const DynamicPoseDescription := "Enhance the movement in the pose, making it more expressive and dynamic than the reference."
  const DefaultAngleDescription := "Match the camera angle of the reference image."
  const EyeLevelDescription := "Shoot from a direct eye-level perspective."
  const LowAngleDescription := "Position the camera low, looking up at the couple for a heroic or monumental feel."
  const HighAngleDescription := "Position the camera high, looking down at the couple."
  const WideShotDescription := "Use a wide-angle perspective to capture more of the environment."
  const CloseUpDescription := "Focus closely on the couple's upper bodies and expressions."

  function StyleDescription(s: GenerationStyle): (r: string)
    ensures |r| > 0
  {
    match s
    case Realistic => RealisticDescription
    case Cinematic => CinematicDescription
    case Artistic => ArtisticDescription
    case Vintage => VintageDescription
    case Anime => AnimeDescription
  }

  function DetailDescription(d: DetailLevel): (r: string)
    ensures |r| > 0
  {
    match d
    case DetailDefault => DefaultDetailDescription
    case Low => LowDetailDescription
    case Medium => MediumDetailDescription
    case High => HighDetailDescription
  }

  function PoseDescription(p: PoseVariation): (r: string)
    ensures |r| > 0
  {
    match p
    case PoseDefault => DefaultPoseDescription
    case Exact => ExactPoseDescription
    case Relaxed => RelaxedPoseDescription
    case Dynamic => DynamicPoseDescription
  }

  function AngleDescription(c: CameraAngle): (r: string)
    ensures |r| > 0
  {
    match c
    case AngleDefault => DefaultAngleDescription
    case EyeLevel => EyeLevelDescription
    case LowAngle => LowAngleDescription
    case HighAngle => HighAngleDescription
    case WideShot => WideShotDescription
    case CloseUp => CloseUpDescription
  }

  /** No two values of one option share a description, so each table tells its values apart. */
  lemma DescriptionsDistinct(s1: GenerationStyle, s2: GenerationStyle, d1: DetailLevel, d2: DetailLevel,
                             p1: PoseVariation, p2: PoseVariation, c1: CameraAngle, c2: CameraAngle)
    ensures StyleDescription(s1) == StyleDescription(s2) ==> s1 == s2
    ensures DetailDescription(d1) == DetailDescription(d2) ==> d1 == d2
    ensures PoseDescription(p1) == PoseDescription(p2) ==> p1 == p2
    ensures AngleDescription(c1) == AngleDescription(c2) ==> c1 == c2
  {
  }

  // ---- Prompt composer ------------------------------------------------------

  const IntroClause := "Create a high-quality photograph of the two individuals from the first and second images."
  const SceneClause := "Reference scene: Recreate the setting and composition shown in the third image."
  const IdentityClause := "Maintain the distinct facial features and physical characteristics of both people."
  const PoseLead := "Pose instruction: "
  const AngleLead := "Camera angle: "
  const CustomLead := "Additional instructions: "
  const StyleLead := "The overall style should be "
  const StyleEnd := "."
  const DetailLead := "Ensure a "
  const DetailEnd := " in the final output."

  function PoseClause(p: PoseVariation): string { PoseLead + PoseDescription(p) }
  function AngleClause(c: CameraAngle): string { AngleLead + AngleDescription(c) }
  function StyleClause(s: GenerationStyle): string { StyleLead + StyleDescription(s) + StyleEnd }
  function DetailClause(d: DetailLevel): string { DetailLead + DetailDescription(d) + DetailEnd }

  /** JavaScript truthiness of the optional `customPrompt`: present and not the empty string. */
  predicate IsTruthy(custom: Option<string>)
  {
    custom.Some? && custom.value != ""
  }

  function CustomClause(custom: Option<string>): string
  {
    if IsTruthy(custom) then CustomLead + custom.value else ""
  }

  /** The seven fixed clauses, in prompt order. */
  function FixedClauses(o: OptionSet): seq<string>
  {
    [IntroClause, SceneClause, PoseClause(o.poseVariation), AngleClause(o.cameraAngle),
     IdentityClause, StyleClause(o.style), DetailClause(o.detailLevel)]
  }

  /** The candidate list before filtering: the fixed clauses, then the custom clause or "". */
  function PromptSegments(o: OptionSet, custom: Option<string>): seq<string>
  {
    FixedClauses(o) + [CustomClause(custom)]
  }

  /** `xs.filter(Boolean)` on strings: the non-empty items, in their order. */
  function KeepNonEmpty(xs: seq<string>): (r: seq<string>)
    ensures |r| <= |xs|
    ensures forall i :: 0 <= i < |r| ==> r[i] != ""
    ensures forall x :: x in r <==> x in xs && x != ""
    ensures (forall i :: 0 <= i < |xs| ==> xs[i] != "") ==> r == xs
  {
    if xs == [] then []
    else if xs[0] == "" then KeepNonEmpty(xs[1..])
    else [xs[0]] + KeepNonEmpty(xs[1..])
  }

  /** Filtering a concatenation filters each part. */
  lemma {:induction false} KeepNonEmptyAppend(xs: seq<string>, ys: seq<string>)
    ensures KeepNonEmpty(xs + ys) == KeepNonEmpty(xs) + KeepNonEmpty(ys)
  {
    if xs == [] {
      assert xs + ys == ys;
    } else {
      assert (xs + ys)[0] == xs[0];
      assert (xs + ys)[1..] == xs[1..] + ys;
      KeepNonEmptyAppend(xs[1..], ys);
    }
  }

  /** Seven pieces joined by single spaces, written out as one concatenation. */
  function JoinSeven(c: seq<string>): string
    requires |c| == 7
  {
    c[0] + " " + c[1] + " " + c[2] + " " + c[3] + " " + c[4] + " " + c[5] + " " + c[6]
  }

  /** `Join` of seven pieces is their explicit concatenation. */
  lemma JoinSevenPieces(c: seq<string>)
    requires |c| == 7
    ensures Join(c, " ") == JoinSeven(c)
  {
    assert c[..1] + [c[1]] == c[..2];
    assert c[..2] + [c[2]] == c[..3];
    assert c[..3] + [c[3]] == c[..4];
    assert c[..4] + [c[4]] == c[..5];
    assert c[..5] + [c[5]] == c[..6];
    assert c[..6] + [c[6]] == c;
    JoinAppend(c[..1], c[1], " ");
    JoinAppend(c[..2], c[2], " ");
    JoinAppend(c[..3], c[3], " ");
    JoinAppend(c[..4], c[4], " ");
    JoinAppend(c[..5], c[5], " ");
    JoinAppend(c[..6], c[6], " ");
  }

  /**
   * Filtering and joining seven non-empty pieces and one optional piece: the
   * seven joined, then the optional piece after one space when it is non-empty.
   */
  lemma {:induction false} FilterJoinLayout(c: seq<string>, last: string)
    requires |c| == 7 && forall i :: 0 <= i < 7 ==> c[i] != ""
    ensures Join(KeepNonEmpty(c + [last]), " ") == if last == "" then JoinSeven(c) else JoinSeven(c) + " " + last
  {
    KeepNonEmptyAppend(c, [last]);
    JoinSevenPieces(c);
    if last != "" {
      JoinAppend(c, last, " ");
    } else {
      assert KeepNonEmpty([last]) == [];
      assert KeepNonEmpty(c) + [] == c;
    }
  }

  /** The fixed part of every prompt: the seven fixed clauses joined by single spaces. */
  function FixedPrompt(o: OptionSet): string
  {
    JoinSeven(FixedClauses(o))
  }

  lemma FixedClausesNonEmpty(o: OptionSet)
    ensures forall i :: 0 <= i < 7 ==> FixedClauses(o)[i] != ""
  {
    assert |IntroClause| > 0 && |SceneClause| > 0 && |IdentityClause| > 0;
  }

  /**
   * The prompt: the candidate clauses, empty ones dropped, joined with single
   * spaces. It is the fixed prompt, then the custom clause after one space
   * exactly when `customPrompt` is truthy, and nothing more otherwise.
   */
  function ComposePrompt(o: OptionSet, custom: Option<string>): (r: string)
    ensures IsTruthy(custom) ==> r == FixedPrompt(o) + " " + (CustomLead + custom.value)
    ensures !IsTruthy(custom) ==> r == FixedPrompt(o)
  {
    FixedClausesNonEmpty(o);
    FilterJoinLayout(FixedClauses(o), CustomClause(custom));
    assert IsTruthy(custom) ==> CustomClause(custom) != "";
    Join(KeepNonEmpty(PromptSegments(o, custom)), " ")
  }

  lemma SuffixAfterSpace(f: string, lead: string, v: string)
    ensures EndsWith(f + " " + (lead + v), lead + v)
    ensures (f + " " + (lead + v))[|f| + 1 + |lead|..] == v
  {
  }

  /** A truthy custom prompt, whitespace-only included, ends the prompt verbatim after its lead. */
  lemma CustomPromptIsSuffix(o: OptionSet, custom: Option<string>)
    requires IsTruthy(custom)
    ensures EndsWith(ComposePrompt(o, custom), CustomLead + custom.value)
    ensures ComposePrompt(o, custom)[|FixedPrompt(o)| + 1 + |CustomLead|..] == custom.value
  {
    SuffixAfterSpace(FixedPrompt(o), CustomLead, custom.value);
  }

  /** The prompt determines the custom clause: equal prompts for equal options mean equally truthy, equal custom text. */
  lemma PromptDeterminesCustom(o: OptionSet, c1: Option<string>, c2: Option<string>)
    requires ComposePrompt(o, c1) == ComposePrompt(o, c2)
    ensures IsTruthy(c1) == IsTruthy(c2)
    ensures IsTruthy(c1) ==> c1.value == c2.value
  {
    if IsTruthy(c1) && IsTruthy(c2) {
      CustomPromptIsSuffix(o, c1);
      CustomPromptIsSuffix(o, c2);
    }
  }

  /** Each piece of a join occurs in it. */
  lemma {:induction false} JoinOccurs(c: seq<string>, sep: string, i: nat) returns (k: nat)
    requires i < |c|
    ensures OccursAt(Join(c, sep), c[i], k)
  {
    if |c| == 1 {
      k := 0;
    } else if i == 0 {
      k := 0;
      assert Join(c, sep)[..|c[0]|] == c[0];
    } else {
      var k' := JoinOccurs(c[1..], sep, i - 1);
      k := |c[0]| + |sep| + k';
      assert Join(c, sep) == (c[0] + sep) + Join(c[1..], sep);
    }
  }

  /** What occurs inside an occurrence occurs in the whole. */
  lemma OccursWithin(s: string, x: string, d: string, y: string, k: nat)
    requires OccursAt(s, x + d + y, k)
    ensures OccursAt(s, d, k + |x|)
  {
    var t := x + d + y;
    forall m | 0 <= m < |d| ensures s[k + |x| + m] == d[m] {
      assert s[k..k + |t|][|x| + m] == t[|x| + m];
    }
  }

  /** What occurs in a prefix occurs in the whole. */
  lemma OccursInPrefix(s: string, t: string, d: string, k: nat)
    requires OccursAt(s, d, k)
    ensures OccursAt(s + t, d, k)
  {
    assert (s + t)[k..k + |d|] == s[k..k + |d|];
  }

  /** A piece built as lead + d + end of seven joined pieces puts `d` in the result, whatever follows. */
  lemma SevenJoinContains(c: seq<string>, i: nat, lead: string, d: string, end: string, tail: string)
    requires |c| == 7 && i < 7 && c[i] == lead + d + end
    ensures Contains(JoinSeven(c) + tail, d)
  {
    JoinSevenPieces(c);
    var k := JoinOccurs(c, " ", i);
    OccursWithin(JoinSeven(c), lead, d, end, k);
    OccursInPrefix(JoinSeven(c), tail, d, k + |lead|);
  }

  /** Every option's description stands in the prompt, verbatim. */
  lemma PromptContainsDescriptions(o: OptionSet, custom: Option<string>)
    ensures Contains(ComposePrompt(o, custom), PoseDescription(o.poseVariation))
    ensures Contains(ComposePrompt(o, custom), AngleDescription(o.cameraAngle))
    ensures Contains(ComposePrompt(o, custom), StyleDescription(o.style))
    ensures Contains(ComposePrompt(o, custom), DetailDescription(o.detailLevel))
  {
    var c := FixedClauses(o);
    var tail := if IsTruthy(custom) then " " + (CustomLead + custom.value) else "";
    assert ComposePrompt(o, custom) == JoinSeven(c) + tail;
    SevenJoinContains(c, 2, PoseLead, PoseDescription(o.poseVariation), "", tail);
    SevenJoinContains(c, 3, AngleLead, AngleDescription(o.cameraAngle), "", tail);
    SevenJoinContains(c, 5, StyleLead, StyleDescription(o.style), StyleEnd, tail);
    SevenJoinContains(c, 6, DetailLead, DetailDescription(o.detailLevel), DetailEnd, tail);
  }

  // ---- Refinement instruction -------------------------------------------------

  const RefineLead := "Apply this edit to the image: "
  const RefineTail := ". Example edits include \"Add a retro filter\", \"Remove the person in the background\", or \"Change background to a snowy mountain\". Keep the core identities of the subjects the same."

  /** The fixed template around the user's edit text, which it carries verbatim and unchecked. */
  function RefinementInstruction(refinementPrompt: string): (r: string)
    ensures StartsWith(r, RefineLead) && EndsWith(r, RefineTail)
    ensures |r| == |RefineLead| + |refinementPrompt| + |RefineTail|
    ensures r[|RefineLead|..|r| - |RefineTail|] == refinementPrompt
  {
    RefineLead + refinementPrompt + RefineTail
  }

  // ---- Data URIs ----------------------------------------------------------------

  const DataPrefix := "data:"
  const Base64Marker := ";base64"

  /** `data:<mime>;base64,<data>`: never empty, so always truthy. */
  function DataUri(mimeType: string, data: string): (r: string)
    ensures StartsWith(r, DataPrefix) && r != ""
    ensures |r| == |DataPrefix| + |mimeType| + |Base64Marker| + 1 + |data|
  {
    DataPrefix + mimeType + Base64Marker + [','] + data
  }

  /**
   * The base64 payload of an image string: the whole string when it holds no
   * comma, otherwise `split(',')[1]`, the text between the first comma and the
   * next one (or the end).
   */
  function Base64Payload(s: string): (r: string)
    ensures ',' !in s ==> r == s
    ensures ',' !in r
  {
    if ',' in s then Split(s, ',')[1] else s
  }

  /** With a comma present, the payload is the second comma-separated field. */
  lemma PayloadIsSecondField(s: string) returns (head: string, tail: string)
    requires ',' in s
    ensures s == head + [','] + Base64Payload(s) + tail
    ensures ',' !in head
    ensures tail == [] || tail[0] == ','
  {
    var pieces := Split(s, ',');
    head := pieces[0];
    var rest := pieces[1..];
    assert Join(pieces, [',']) == head + [','] + Join(rest, [',']);
    if |rest| == 1 {
      tail := [];
    } else {
      tail := [','] + Join(rest[1..], [',']);
      assert Join(rest, [',']) == rest[0] + [','] + Join(rest[1..], [',']);
    }
  }

  /** A data URI built from comma-free parts gives its payload back. */
  lemma DataUriRoundTrip(mimeType: string, data: string)
    requires ',' !in mimeType && ',' !in data
    ensures Base64Payload(DataUri(mimeType, data)) == data
  {
    var head := DataPrefix + mimeType + Base64Marker;
    assert ',' !in head;
    SplitAfter(head, ',', data);
  }

  // ---- Requests and replies -------------------------------------------------------

  datatype InlineData = InlineData(mimeType: string, data: string)

  /** One content part: inline binary data, text, both or neither. */
  datatype Part = Part(inlineData: Option<InlineData>, text: Option<string>)

  datatype Request = Request(model: string, parts: seq<Part>, aspectRatio: Option<AspectRatio>)

  /** What can be thrown: an `Error` object with its message, or any other value. */
  datatype Thrown = ErrorObject(message: string) | NonErrorValue

  /**
   * What the endpoint gives back: a response whose first candidate's parts are
   * present or absent, or a thrown transport or authentication failure.
   */
  datatype ApiReply = Delivered(parts: Option<seq<Part>>) | Rejected(error: Thrown)

  /** The service's result: a data URI, or what it throws. */
  datatype Outcome = Image(dataUri: string) | Failed(error: Thrown)

  const NoImageGenerated := "No image generated in the response."
  const NoImageData := "Could not find image data in response."
  const RefineNoOutput := "Refinement failed: No output received."
  const RefineNoImageData := "Refinement failed: Could not find image data in response."
  const RefineMimeType := "image/png"

  function AsInline(img: ImageData): InlineData
  {
    InlineData(img.mimeType, img.base64)
  }

  /** The inline data of the parts that carry some, in order. */
  function ImagesOf(parts: seq<Part>): seq<InlineData>
  {
    if parts == [] then []
    else (if parts[0].inlineData.Some? then [parts[0].inlineData.value] else []) + ImagesOf(parts[1..])
  }

  /** The text of the parts that carry some, in order. */
  function TextsOf(parts: seq<Part>): seq<string>
  {
    if parts == [] then []
    else (if parts[0].text.Some? then [parts[0].text.value] else []) + TextsOf(parts[1..])
  }

  /** Three image parts followed by a text part carry those images and that text, in order. */
  lemma FourPartLayout(a: InlineData, b: InlineData, c: InlineData, t: string)
    ensures var parts := [Part(Some(a), None), Part(Some(b), None), Part(Some(c), None), Part(None, Some(t))];
            ImagesOf(parts) == [a, b, c] && TextsOf(parts) == [t]
  {
    var p0, p1, p2, p3 := Part(Some(a), None), Part(Some(b), None), Part(Some(c), None), Part(None, Some(t));
    assert [p3][1..] == [];
    assert ImagesOf([p3]) == [] + ImagesOf([]) && TextsOf([p3]) == [t] + TextsOf([]);
    assert [p2, p3][1..] == [p3];
    assert ImagesOf([p2, p3]) == [c] + ImagesOf([p3]) && TextsOf([p2, p3]) == [] + TextsOf([p3]);
    assert [p1, p2, p3][1..] == [p2, p3];
    assert ImagesOf([p1, p2, p3]) == [b] + ImagesOf([p2, p3]) && TextsOf([p1, p2, p3]) == [] + TextsOf([p2, p3]);
    assert [p0, p1, p2, p3][1..] == [p1, p2, p3];
    assert ImagesOf([p0, p1, p2, p3]) == [a] + ImagesOf([p1, p2, p3]);
    assert TextsOf([p0, p1, p2, p3]) == [] + TextsOf([p1, p2, p3]);
  }

  /** An image part followed by a text part carries that image and that text. */
  lemma TwoPartLayout(a: InlineData, t: string)
    ensures var parts := [Part(Some(a), None), Part(None, Some(t))];
            ImagesOf(parts) == [a] && TextsOf(parts) == [t]
  {
    var p0, p1 := Part(Some(a), None), Part(None, Some(t));
    assert [p1][1..] == [];
    assert ImagesOf([p1]) == [] + ImagesOf([]) && TextsOf([p1]) == [t] + TextsOf([]);
    assert [p0, p1][1..] == [p1];
    assert ImagesOf([p0, p1]) == [a] + ImagesOf([p1]) && TextsOf([p0, p1]) == [] + TextsOf([p1]);
  }

  /** The generation request: the two portraits and the reference, in that order, then the prompt. */
  function GenerationRequest(person1: ImageData, person2: ImageData, reference: ImageData,
                             o: OptionSet, custom: Option<string>): (r: Request)
    ensures r.model == ImageModel && r.aspectRatio == Some(o.aspectRatio)
    ensures ImagesOf(r.parts) == [AsInline(person1), AsInline(person2), AsInline(reference)]
    ensures TextsOf(r.parts) == [ComposePrompt(o, custom)]
    ensures |r.parts| == 4 && r.parts[3] == Part(None, Some(ComposePrompt(o, custom)))
  {
    var prompt := ComposePrompt(o, custom);
    FourPartLayout(AsInline(person1), AsInline(person2), AsInline(reference), prompt);
    Request(ImageModel,
            [Part(Some(AsInline(person1)), None), Part(Some(AsInline(person2)), None),
             Part(Some(AsInline(reference)), None), Part(None, Some(prompt))],
            Some(o.aspectRatio))
  }

  /** The refinement request: the current image's payload as PNG, then the edit instruction. */
  function RefinementRequest(currentImage: string, refinementPrompt: string): (r: Request)
    ensures r.model == ImageModel && r.aspectRatio == None
    ensures ImagesOf(r.parts) == [InlineData(RefineMimeType, Base64Payload(currentImage))]
    ensures TextsOf(r.parts) == [RefinementInstruction(refinementPrompt)]
    ensures |r.parts| == 2 && r.parts[1] == Part(None, Some(RefinementInstruction(refinementPrompt)))
  {
    var image := InlineData(RefineMimeType, Base64Payload(currentImage));
    var text := RefinementInstruction(refinementPrompt);
    TwoPartLayout(image, text);
    Request(ImageModel, [Part(Some(image), None), Part(None, Some(text))], None)
  }

  // ---- Finding the first inline image ------------------------------------------------

  /** Part `i` is the first part carrying inline data. */
  predicate FirstInlineAt(parts: seq<Part>, i: int)
  {
    0 <= i < |parts| && parts[i].inlineData.Some? && forall j :: 0 <= j < i ==> parts[j].inlineData.None?
  }

  predicate HasNoInline(parts: seq<Part>)
  {
    forall j :: 0 <= j < |parts| ==> parts[j].inlineData.None?
  }

  /** `found` is what a front-to-back search for inline data returns. */
  ghost predicate IsFirstInline(parts: seq<Part>, found: Option<InlineData>)
  {
    if found.None? then HasNoInline(parts)
    else exists i :: FirstInlineAt(parts, i) && parts[i].inlineData == found
  }

  /** The first inline data of the parts, as a specification. */
  function FirstInline(parts: seq<Part>): (r: Option<InlineData>)
    ensures IsFirstInline(parts, r)
  {
    if parts == [] then None
    else if parts[0].inlineData.Some? then
      assert FirstInlineAt(parts, 0);
      parts[0].inlineData
    else
      var r := FirstInline(parts[1..]);
      if r.Some? then
        var i :| FirstInlineAt(parts[1..], i) && parts[1..][i].inlineData == r;
        assert FirstInlineAt(parts, i + 1);
        r
      else
        r
  }

  /** There is only one first inline part. */
  lemma FirstInlineUnique(parts: seq<Part>, a: Option<InlineData>, b: Option<InlineData>)
    requires IsFirstInline(parts, a) && IsFirstInline(parts, b)
    ensures a == b
  {
    if a.Some? && b.Some? {
      var i :| FirstInlineAt(parts, i) && parts[i].inlineData == a;
      var j :| FirstInlineAt(parts, j) && parts[j].inlineData == b;
      assert !(i < j) && !(j < i);
    }
  }

  /** The front-to-back loop over the parts, returning the first inline data it meets. */
  method FindInlineData(parts: seq<Part>) returns (found: Option<InlineData>)
    ensures IsFirstInline(parts, found)
  {
    for k := 0 to |parts|
      invariant forall j :: 0 <= j < k ==> parts[j].inlineData.None?
    {
      if parts[k].inlineData.Some? {
        assert FirstInlineAt(parts, k);
        return parts[k].inlineData;
      }
    }
    return None;
  }

  /**
   * How a reply becomes the outcome: a thrown failure propagates unchanged;
   * absent parts throw `noParts`; parts without inline data (none at all
   * included) throw `noImage`; otherwise the first inline part's data URI.
   */
  function ReplyOutcome(reply: ApiReply, noParts: string, noImage: string): (r: Outcome)
    ensures reply.Rejected? ==> r == Failed(reply.error)
    ensures reply == Delivered(None) ==> r == Failed(ErrorObject(noParts))
    ensures reply.Delivered? && reply.parts.Some? && HasNoInline(reply.parts.value) ==>
              r == Failed(ErrorObject(noImage))
    ensures forall i :: reply.Delivered? && reply.parts.Some? && FirstInlineAt(reply.parts.value, i) ==>
              r == Image(DataUri(reply.parts.value[i].inlineData.value.mimeType, reply.parts.value[i].inlineData.value.data))
    ensures r.Image? ==> StartsWith(r.dataUri, DataPrefix)
  {
    match reply
    case Rejected(e) => Failed(e)
    case Delivered(None) => Failed(ErrorObject(noParts))
    case Delivered(Some(parts)) =>
      var found := FirstInline(parts);
      if found.Some? then
        assert forall i :: FirstInlineAt(parts, i) ==> parts[i].inlineData == found by {
          forall i | FirstInlineAt(parts, i) ensures parts[i].inlineData == found {
            assert IsFirstInline(parts, parts[i].inlineData);
            FirstInlineUnique(parts, parts[i].inlineData, found);
          }
        }
        Image(DataUri(found.value.mimeType, found.value.data))
      else
        Failed(ErrorObject(noImage))
  }

  /** The reply handling shared by generation and refinement, with the loop the source runs. */
  method ImageFromReply(reply: ApiReply, noParts: string, noImage: string) returns (r: Outcome)
    ensures r == ReplyOutcome(reply, noParts, noImage)
  {
    match reply {
      case Rejected(e) =>
        return Failed(e);
      case Delivered(parts) =>
        if parts.None? {
          return Failed(ErrorObject(noParts));
        }
        var found := FindInlineData(parts.value);
        FirstInlineUnique(parts.value, found, FirstInline(parts.value));
        if found.Some? {
          return Image(DataUri(found.value.mimeType, found.value.data));
        }
        return Failed(ErrorObject(noImage));
    }
  }

  /** One generation call: build the request, send it, interpret the reply. */
  method GenerateCouplePhoto(person1: ImageData, person2: ImageData, reference: ImageData,
                             o: OptionSet, custom: Option<string>, api: Request -> ApiReply)
    returns (r: Outcome)
    ensures r == ReplyOutcome(api(GenerationRequest(person1, person2, reference, o, custom)),
                              NoImageGenerated, NoImageData)
  {
    var request := GenerationRequest(person1, person2, reference, o, custom);
    r := ImageFromReply(api(request), NoImageGenerated, NoImageData);
  }

  /** One refinement call: the current image and the edit text in, a new image or a failure out. */
  method RefineGeneratedPhoto(currentImage: string, refinementPrompt: string, api: Request -> ApiReply)
    returns (r: Outcome)
    ensures r == ReplyOutcome(api(RefinementRequest(currentImage, refinementPrompt)),
                              RefineNoOutput, RefineNoImageData)
  {
    var request := RefinementRequest(currentImage, refinementPrompt);
    r := ImageFromReply(api(request), RefineNoOutput, RefineNoImageData);
  }

  /**
   * A generated image handed to refinement is sent back with the payload the
   * model returned, when the returned MIME type and data hold no comma.
   */
  lemma RefinementResendsPayload(reply: ApiReply, i: nat, refinementPrompt: string)
    requires reply.Delivered? && reply.parts.Some? && FirstInlineAt(reply.parts.value, i)
    requires ',' !in reply.parts.value[i].inlineData.value.mimeType
    requires ',' !in reply.parts.value[i].inlineData.value.data
    ensures ReplyOutcome(reply, NoImageGenerated, NoImageData).Image?
    ensures var uri := ReplyOutcome(reply, NoImageGenerated, NoImageData).dataUri;
            ImagesOf(RefinementRequest(uri, refinementPrompt).parts)
              == [InlineData(RefineMimeType, reply.parts.value[i].inlineData.value.data)]
  {
    var d := reply.parts.value[i].inlineData.value;
    DataUriRoundTrip(d.mimeType, d.data);
  }

  /** The worked example: anime, high detail, dynamic pose, close-up, "sunset beach" — every chosen clause appears. */
  lemma ExamplePrompt(o: OptionSet, custom: Option<string>)
    requires o.style == Anime && o.detailLevel == High && o.poseVariation == Dynamic && o.cameraAngle == CloseUp
    requires custom == Some(SunsetBeach)
    ensures var r := ComposePrompt(o, custom);
            && Contains(r, AnimeDescription)
            && Contains(r, HighDetailDescription)
            && Contains(r, DynamicPoseDescription)
            && Contains(r, CloseUpDescription)
  {
    assert StyleDescription(o.style) == AnimeDescription;
    assert DetailDescription(o.detailLevel) == HighDetailDescription;
    assert PoseDescription(o.poseVariation) == DynamicPoseDescription;
    assert AngleDescription(o.cameraAngle) == CloseUpDescription;
    PromptContainsDescriptions(o, custom);
  }

  /** The same example ends with the additional-instructions clause for "sunset beach". */
  lemma ExamplePromptEnding(o: OptionSet, custom: Option<string>)
    requires custom == Some(SunsetBeach)
    ensures EndsWith(ComposePrompt(o, custom), CustomLead + SunsetBeach)
  {
    assert IsTruthy(custom);
    CustomPromptIsSuffix(o, custom);
  }

  const SunsetBeach := "sunset beach"
}
