/**
 * The option enumerations and records shared by the application: the five
 * presentation options, the three upload slots, an uploaded image and the
 * generation state record. Each string union becomes a datatype together
 * with its wire string and the parse back from that string.
 */
module Types {
  import opened Wrappers

  datatype AspectRatio = Ratio1x1 | Ratio3x4 | Ratio4x3 | Ratio9x16 | Ratio16x9

  datatype GenerationStyle = Realistic | Cinematic | Artistic | Vintage | Anime

  datatype DetailLevel = DetailDefault | Low | Medium | High

  datatype PoseVariation = PoseDefault | Exact | Relaxed | Dynamic

  datatype CameraAngle = AngleDefault | EyeLevel | LowAngle | HighAngle | WideShot | CloseUp

  datatype UploadSlot = Person1 | Person2 | Reference

  /** An uploaded image: its base64 payload, declared MIME type and preview handle. */
  datatype ImageData = ImageData(base64: string, mimeType: string, previewUrl: string)

  /** The generation state record; `None` stands for `null`. */
  datatype GenerationState = GenerationState(
    isGenerating: bool,
    status: string,
    error: Option<string>,
    resultUrl: Option<string>)

  /** The five presentation options chosen at one time. */
  datatype OptionSet = OptionSet(
    aspectRatio: AspectRatio,
    style: GenerationStyle,
    detailLevel: DetailLevel,
    poseVariation: PoseVariation,
    cameraAngle: CameraAngle)

  /** `s` lists every value of its type, each once. */
  ghost predicate Enumerates<T(!new)>(s: seq<T>)
  {
    && (forall x: T :: x in s)
    && (forall i, j :: 0 <= i < j < |s| ==> s[i] != s[j])
  }

  // ---- Wire strings -------------------------------------------------------

  function AspectRatioValue(a: AspectRatio): string
  {
    match a
    case Ratio1x1 => "1:1"
    case Ratio3x4 => "3:4"
    case Ratio4x3 => "4:3"
    case Ratio9x16 => "9:16"
    case Ratio16x9 => "16:9"
  }

  function StyleValue(s: GenerationStyle): string
  {
    match s
    case Realistic => "realistic"
    case Cinematic => "cinematic"
    case Artistic => "artistic"
    case Vintage => "vintage"
    case Anime => "anime"
  }

  function DetailLevelValue(d: DetailLevel): string
  {
    match d
    case DetailDefault => "default"
    case Low => "low"
    case Medium => "medium"
    case High => "high"
  }

  function PoseVariationValue(p: PoseVariation): string
  {
    match p
    case PoseDefault => "default"
    case Exact => "exact"
    case Relaxed => "relaxed"
    case Dynamic => "dynamic"
  }

  function CameraAngleValue(c: CameraAngle): string
  {
    match c
    case AngleDefault => "default"
    case EyeLevel => "eye-level"
    case LowAngle => "low-angle"
    case HighAngle => "high-angle"
    case WideShot => "wide-shot"
    case CloseUp => "close-up"
  }

  // ---- Parsing a wire string back ------------------------------------------

  function ParseAspectRatio(s: string): (r: Option<AspectRatio>)
    ensures r.Some? <==> s in {"1:1", "3:4", "4:3", "9:16", "16:9"}
    ensures r.Some? ==> AspectRatioValue(r.value) == s
  {
    if s == "1:1" then Some(Ratio1x1)
    else if s == "3:4" then Some(Ratio3x4)
    else if s == "4:3" then Some(Ratio4x3)
    else if s == "9:16" then Some(Ratio9x16)
    else if s == "16:9" then Some(Ratio16x9)
    else None
  }

  function ParseStyle(s: string): (r: Option<GenerationStyle>)
    ensures r.Some? <==> s in {"realistic", "cinematic", "artistic", "vintage", "anime"}
    ensures r.Some? ==> StyleValue(r.value) == s
  {
    if s == "realistic" then Some(Realistic)
    else if s == "cinematic" then Some(Cinematic)
    else if s == "artistic" then Some(Artistic)
    else if s == "vintage" then Some(Vintage)
    else if s == "anime" then Some(Anime)
    else None
  }

  function ParseDetailLevel(s: string): (r: Option<DetailLevel>)
    ensures r.Some? <==> s in {"default", "low", "medium", "high"}
    ensures r.Some? ==> DetailLevelValue(r.value) == s
  {
    if s == "default" then Some(DetailDefault)
    else if s == "low" then Some(Low)
    else if s == "medium" then Some(Medium)
    else if s == "high" then Some(High)
    else None
  }

  function ParsePoseVariation(s: string): (r: Option<PoseVariation>)
    ensures r.Some? <==> s in {"default", "exact", "relaxed", "dynamic"}
    ensures r.Some? ==> PoseVariationValue(r.value) == s
  {
    if s == "default" then Some(PoseDefault)
    else if s == "exact" then Some(Exact)
    else if s == "relaxed" then Some(Relaxed)
    else if s == "dynamic" then Some(Dynamic)
    else None
  }

  function ParseCameraAngle(s: string): (r: Option<CameraAngle>)
    ensures r.Some? <==> s in {"default", "eye-level", "low-angle", "high-angle", "wide-shot", "close-up"}
    ensures r.Some? ==> CameraAngleValue(r.value) == s
  {
    if s == "default" then Some(AngleDefault)
    else if s == "eye-level" then Some(EyeLevel)
    else if s == "low-angle" then Some(LowAngle)
    else if s == "high-angle" then Some(HighAngle)
    else if s == "wide-shot" then Some(WideShot)
    else if s == "close-up" then Some(CloseUp)
    else None
  }

  /** Each wire string parses back to the value it came from, so distinct values have distinct strings. */
  lemma WireRoundTrips(a: AspectRatio, s: GenerationStyle, d: DetailLevel, p: PoseVariation, c: CameraAngle)
    ensures ParseAspectRatio(AspectRatioValue(a)) == Some(a)
    ensures ParseStyle(StyleValue(s)) == Some(s)
    ensures ParseDetailLevel(DetailLevelValue(d)) == Some(d)
    ensures ParsePoseVariation(PoseVariationValue(p)) == Some(p)
    ensures ParseCameraAngle(CameraAngleValue(c)) == Some(c)
  {
  }

  // ---- The option lists the form offers, in display order -----------------

  const AspectRatioOptions: seq<AspectRatio> := [Ratio1x1, Ratio3x4, Ratio4x3, Ratio9x16, Ratio16x9]
  const StyleOptions: seq<GenerationStyle> := [Realistic, Cinematic, Artistic, Vintage, Anime]
  const DetailLevelOptions: seq<DetailLevel> := [DetailDefault, Low, Medium, High]
  const PoseVariationOptions: seq<PoseVariation> := [PoseDefault, Exact, Relaxed, Dynamic]
  const CameraAngleOptions: seq<CameraAngle> := [AngleDefault, EyeLevel, LowAngle, HighAngle, WideShot, CloseUp]

  /** Each option list offers every value of its union exactly once, so the unions have 5, 5, 4, 4 and 6 values. */
  lemma OptionListsEnumerate()
    ensures Enumerates(AspectRatioOptions) && |AspectRatioOptions| == 5
    ensures Enumerates(StyleOptions) && |StyleOptions| == 5
    ensures Enumerates(DetailLevelOptions) && |DetailLevelOptions| == 4
    ensures Enumerates(PoseVariationOptions) && |PoseVariationOptions| == 4
    ensures Enumerates(CameraAngleOptions) && |CameraAngleOptions| == 6
    ensures DetailLevelValue(DetailDefault) == "default" && PoseVariationValue(PoseDefault) == "default"
  {
    forall x: AspectRatio ensures x in AspectRatioOptions {
      match x
      case Ratio1x1 => case Ratio3x4 => case Ratio4x3 => case Ratio9x16 => case Ratio16x9 =>
    }
    forall x: GenerationStyle ensures x in StyleOptions {
      match x
      case Realistic => case Cinematic => case Artistic => case Vintage => case Anime =>
    }
    forall x: DetailLevel ensures x in DetailLevelOptions {
      match x
      case DetailDefault => case Low => case Medium => case High =>
    }
    forall x: PoseVariation ensures x in PoseVariationOptions {
      match x
      case PoseDefault => case Exact => case Relaxed => case Dynamic =>
    }
    forall x: CameraAngle ensures x in CameraAngleOptions {
      match x
      case AngleDefault => case EyeLevel => case LowAngle => case HighAngle => case WideShot => case CloseUp =>
    }
  }
}
