/** `generate_image`: argument checks, the aspect-ratio fallback, and the Stability AI request
    body built by `_sync_generate`. The HTTP exchange is a parameter (`StabilityApi`): it maps
    the body and the key to the reply, or to the exception raised while posting, decoding the
    reply or writing the file. */
module ImageTool {
  import opened Wrappers
  import opened Text
  import opened Values

  /** `_DIMENSIONS`: the SDXL width and height for each supported aspect ratio. */
  function Dimensions(aspectRatio: string): Option<(nat, nat)> {
    match aspectRatio
    case "1:1" => Some((1024, 1024))
    case "16:9" => Some((1344, 768))
    case "9:16" => Some((768, 1344))
    case "4:3" => Some((1152, 896))
    case "3:4" => Some((896, 1152))
    case "21:9" => Some((1536, 640))
    case "9:21" => Some((640, 1536))
    case _ => None
  }

  /** `VALID_ASPECT_RATIOS`: the keys of the table. */
  predicate IsValidAspectRatio(aspectRatio: string) {
    Dimensions(aspectRatio).Some?
  }

  /** `VALID_STYLES`. */
  predicate IsValidStyle(style: string) {
    match style
    case "photographic" | "digital-art" | "anime" | "cinematic" | "comic-book" | "fantasy-art"
       | "line-art" | "analog-film" | "neon-punk" | "isometric" | "low-poly" | "origami"
       | "modeling-compound" | "pixel-art" | "tile-texture" | "3d-model" | "enhance" => true
    case _ => false
  }

  /** Every size in the table is a multiple of 64, and only "1:1" is square. */
  lemma DimensionsAligned(aspectRatio: string)
    requires IsValidAspectRatio(aspectRatio)
    ensures var (w, h) := Dimensions(aspectRatio).value;
      w % 64 == 0 && h % 64 == 0 && (w == h <==> aspectRatio == "1:1")
  {
  }

  datatype TextPrompt = TextPrompt(text: string, weight: real)

  /** The JSON body of the request; `stylePreset` is `None` when the key is absent. */
  datatype RequestBody = RequestBody(textPrompts: seq<TextPrompt>, width: nat, height: nat,
                                     steps: nat, cfgScale: nat, samples: nat,
                                     stylePreset: Option<string>)

  const Steps: nat := 40
  const CfgScale: nat := 7
  const Samples: nat := 1
  const FallbackSize: (nat, nat) := (1024, 1024)

  /** The body `_sync_generate` sends: the prompt with weight 1 first, the negative prompt with
      weight -1 after it when there is one, the size from the table, and the style only when
      it is a known one. */
  function Body(prompt: string, aspectRatio: string, stylePreset: string, negativePrompt: string): (b: RequestBody)
    ensures (b.width, b.height) == Dimensions(aspectRatio).GetOr(FallbackSize)
    ensures b.steps == Steps && b.cfgScale == CfgScale && b.samples == Samples
    ensures |b.textPrompts| == (if negativePrompt == "" then 1 else 2)
    ensures b.textPrompts[0] == TextPrompt(prompt, 1.0)
    ensures negativePrompt != "" ==> b.textPrompts[1] == TextPrompt(negativePrompt, -1.0)
    ensures b.stylePreset.Some? <==> stylePreset != "" && IsValidStyle(stylePreset)
    ensures b.stylePreset.Some? ==> b.stylePreset.value == stylePreset
  {
    var (w, h) := Dimensions(aspectRatio).GetOr(FallbackSize);
    var positive := [TextPrompt(prompt, 1.0)];
    RequestBody(if negativePrompt == "" then positive else positive + [TextPrompt(negativePrompt, -1.0)],
                w, h, Steps, CfgScale, Samples,
                if stylePreset != "" && IsValidStyle(stylePreset) then Some(stylePreset) else None)
  }

  /** The prompts of a body read back: the positive one is the prompt, the negative ones are
      the negative prompt when it is not empty. */
  lemma BodyPromptsReadBack(prompt: string, aspectRatio: string, stylePreset: string, negativePrompt: string)
    ensures var b := Body(prompt, aspectRatio, stylePreset, negativePrompt);
      && (forall k :: 0 <= k < |b.textPrompts| && b.textPrompts[k].weight > 0.0 ==> b.textPrompts[k].text == prompt)
      && (forall k :: 0 <= k < |b.textPrompts| && b.textPrompts[k].weight < 0.0 ==> b.textPrompts[k].text == negativePrompt)
      && ((exists k :: 0 <= k < |b.textPrompts| && b.textPrompts[k].weight < 0.0) <==> negativePrompt != "")
  {
    var b := Body(prompt, aspectRatio, stylePreset, negativePrompt);
    if negativePrompt != "" {
      assert b.textPrompts[1].weight < 0.0;
    }
  }

  /** The assembly of `_sync_generate`: the body is built, then the style is set and the
      negative prompt appended in place. */
  method BuildBody(prompt: string, aspectRatio: string, stylePreset: string, negativePrompt: string)
    returns (body: RequestBody)
    ensures body == Body(prompt, aspectRatio, stylePreset, negativePrompt)
  {
    var (w, h) := Dimensions(aspectRatio).GetOr(FallbackSize);
    body := RequestBody([TextPrompt(prompt, 1.0)], w, h, Steps, CfgScale, Samples, None);
    if stylePreset != "" && IsValidStyle(stylePreset) {
      body := body.(stylePreset := Some(stylePreset));
    }
    if negativePrompt != "" {
      body := body.(textPrompts := body.textPrompts + [TextPrompt(negativePrompt, -1.0)]);
    }
  }

  /** What the exchange with the service gave: an HTTP status, the first artifact's
      `finishReason` (`Null` when absent) and the reply text; or the text of the exception
      raised on the way. */
  datatype StabilityReply = Reply(status: int, finishReason: Value, text: string) | Raised(error: string)

  type StabilityApi = (RequestBody, string) -> StabilityReply

  /** What was handed to the service: the body, where the image goes, and the key. */
  datatype ImageRequest = ImageRequest(body: RequestBody, outputPath: string, apiKey: string)

  const NotConfigured: string :=
    "[ERROR] Stability AI API key not configured. Add stability.api_key to config/butler.yaml."
  const PromptRequired: string := "[ERROR] A prompt is required."
  const ErrorMarker: string := "[ERROR]"
  const GenerationFailed: string := ErrorMarker + " Generation failed: "
  const ApiFailed: string := ErrorMarker + " Stability API "
  const Raising: string := ErrorMarker + " generate_image: "
  const ErrorTextLimit: nat := 300

  /** The path used when none is given; `seconds` is `int(time.time())`. */
  function DefaultOutputPath(seconds: nat): (r: string)
    ensures StartsWith(r, "./data/media/gen_") && EndsWith(r, ".png")
  {
    var r := "./data/media/gen_" + NatToString(seconds) + ".png";
    assert r[..17] == "./data/media/gen_";
    assert r[|r| - 4..] == ".png";
    r
  }

  /** Images generated in different seconds get different default paths. */
  lemma DefaultPathsDistinct(a: nat, b: nat)
    requires DefaultOutputPath(a) == DefaultOutputPath(b)
    ensures a == b
  {
    var pa := DefaultOutputPath(a);
    var da := NatToString(a);
    var db := NatToString(b);
    assert |da| == |db|;
    assert da == pa[17..17 + |da|];
    assert db == pa[17..17 + |db|];
    DigitsValueOfNatToString(a);
    DigitsValueOfNatToString(b);
  }

  /** The text `generate_image` returns once the request was made. */
  function Outcome(reply: StabilityReply, outputPath: string): (r: string)
    ensures reply.Raised? ==> r == Raising + reply.error
    ensures reply.Reply? && reply.status == 200 && reply.finishReason == Str("SUCCESS") ==> r == outputPath
    ensures reply.Reply? && reply.status == 200 && reply.finishReason != Str("SUCCESS") ==>
      r == GenerationFailed + Show(reply.finishReason)
    ensures reply.Reply? && reply.status != 200 ==>
      r == ApiFailed + IntToString(reply.status) + ": " + Head(reply.text, ErrorTextLimit)
  {
    match reply
    case Raised(e) => Raising + e
    case Reply(status, reason, text) =>
      if status == 200 then
        if reason != Str("SUCCESS") then GenerationFailed + Show(reason) else outputPath
      else ApiFailed + IntToString(status) + ": " + Head(text, ErrorTextLimit)
  }

  lemma MarkedError(tail: string)
    ensures StartsWith(ErrorMarker + tail, ErrorMarker)
  {
    assert (ErrorMarker + tail)[..|ErrorMarker|] == ErrorMarker;
  }

  /** The outcome is the output path exactly when the service reported success, and every
      other outcome is marked as an error: this is what lets the registry forward the file
      only on success. */
  lemma OutcomeIsPathOrError(reply: StabilityReply, outputPath: string)
    requires !StartsWith(outputPath, ErrorMarker)
    ensures var r := Outcome(reply, outputPath);
      && (r == outputPath <==> reply.Reply? && reply.status == 200 && reply.finishReason == Str("SUCCESS"))
      && (r != outputPath ==> StartsWith(r, ErrorMarker))
  {
    match reply
    case Raised(e) =>
      MarkedError(" generate_image: " + e);
    case Reply(status, reason, text) =>
      if status == 200 && reason != Str("SUCCESS") {
        MarkedError(" Generation failed: " + Show(reason));
      } else if status != 200 {
        MarkedError(" Stability API " + IntToString(status) + ": " + Head(text, ErrorTextLimit));
      }
  }

  /** `generate_image`: the key is checked first, then the prompt; an unknown aspect ratio
      falls back to "1:1" and a missing path to the timestamped default before the request is
      made. `request` is what was handed to the service, `None` when nothing was. */
  method GenerateImage(prompt: string, aspectRatio: string, stylePreset: string, negativePrompt: string,
                       outputPath: string, apiKey: string, seconds: nat, api: StabilityApi)
    returns (result: string, request: Option<ImageRequest>)
    ensures apiKey == "" ==> result == NotConfigured && request.None?
    ensures apiKey != "" && Strip(prompt) == "" ==> result == PromptRequired && request.None?
    ensures request.Some? <==> apiKey != "" && Strip(prompt) != ""
    ensures request.Some? ==>
      var used := if IsValidAspectRatio(aspectRatio) then aspectRatio else "1:1";
      var path := if outputPath == "" then DefaultOutputPath(seconds) else outputPath;
      && request.value == ImageRequest(Body(prompt, used, stylePreset, negativePrompt), path, apiKey)
      && result == Outcome(api(request.value.body, apiKey), path)
  {
    if apiKey == "" {
      return NotConfigured, None;
    }
    if Strip(prompt) == "" {
      return PromptRequired, None;
    }
    var ratio := aspectRatio;
    if !IsValidAspectRatio(ratio) {
      ratio := "1:1";
    }
    var path := outputPath;
    if path == "" {
      path := DefaultOutputPath(seconds);
    }
    var body := BuildBody(prompt, ratio, stylePreset, negativePrompt);
    request := Some(ImageRequest(body, path, apiKey));
    result := Outcome(api(body, apiKey), path);
  }

  /** Every request that is made asks for one of the table's sizes: an unknown ratio never
      reaches the service. */
  lemma RequestedSizeFromTable(prompt: string, aspectRatio: string, stylePreset: string, negativePrompt: string)
    ensures var used := if IsValidAspectRatio(aspectRatio) then aspectRatio else "1:1";
      var b := Body(prompt, used, stylePreset, negativePrompt);
      && Dimensions(used) == Some((b.width, b.height))
      && (!IsValidAspectRatio(aspectRatio) ==> (b.width, b.height) == FallbackSize)
  {
  }
}
