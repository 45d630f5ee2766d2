/** The LumaLabs text-to-video adapter: the request headers it keeps, the JSON
    payload of a generation and the keyframe that chains a video to a previous
    generation or to an image. */
module LumaLabs {
  import opened Wrappers

  /** The JSON values a payload is made of. */
  datatype Json = JString(s: string) | JBool(b: bool) | JObject(fields: map<string, Json>)

  /** The generations endpoint the adapter posts to. */
  const GenerationsUrl := "https://api.lumalabs.ai/dream-machine/v1/generations"

  /** The headers the adapter precomputes from an API key. */
  function Headers(apiKey: string): (h: map<string, string>)
    ensures h.Keys == {"accept", "authorization", "content-type"}
    ensures h["accept"] == "application/json" && h["content-type"] == "application/json"
  {
    map[
      "accept" := "application/json",
      "authorization" := "Bearer " + apiKey,
      "content-type" := "application/json"]
  }

  /** The key a set of headers authenticates with, read from its bearer token. */
  function BearerKey(h: map<string, string>): Option<string> {
    if "authorization" in h && |h["authorization"]| >= 7 && h["authorization"][..7] == "Bearer "
    then Some(h["authorization"][7..])
    else None
  }

  /** The headers authenticate with exactly the key they were built from. */
  lemma HeadersCarryKey(apiKey: string)
    ensures BearerKey(Headers(apiKey)) == Some(apiKey)
  {
    var a := "Bearer " + apiKey;
    assert a[..7] == "Bearer " && a[7..] == apiKey;
  }

  /** The POST `generate_video` makes. */
  datatype PostRequest = PostRequest(url: string, headers: map<string, string>, payload: map<string, Json>)

  /** What a keyframe points at: a previous generation, or an image. */
  datatype FrameSource = Generation(id: string) | Image(url: string)

  /** The keyframe slot: the first frame, or the last one. */
  function FrameKey(atEnd: bool): string {
    if atEnd then "frame1" else "frame0"
  }

  function KeyframeJson(src: FrameSource): Json {
    match src
    case Generation(id) => JObject(map["type" := JString("generation"), "id" := JString(id)])
    case Image(url) => JObject(map["type" := JString("image"), "url" := JString(url)])
  }

  /** The keyframes mapping `extend_video` and `image_to_video` build: a single
      entry, in the slot `atEnd` selects. */
  function Keyframes(src: FrameSource, atEnd: bool): (m: map<string, Json>)
    ensures |m| == 1 && FrameKey(atEnd) in m
  {
    map[FrameKey(atEnd) := KeyframeJson(src)]
  }

  /** Reads one keyframe entry back: exactly `{type: "generation", id}` or
      exactly `{type: "image", url}`, with string values and no other field. */
  function ReadFrame(j: Json): Option<FrameSource> {
    match j
    case JObject(fs) =>
      if fs.Keys == {"type", "id"} && fs["type"] == JString("generation") && fs["id"].JString?
      then Some(Generation(fs["id"].s))
      else if fs.Keys == {"type", "url"} && fs["type"] == JString("image") && fs["url"].JString?
      then Some(Image(fs["url"].s))
      else None
    case _ => None
  }

  /** An entry that reads back as a source is exactly that source's JSON. */
  lemma ReadFrameExact(j: Json, src: FrameSource)
    ensures ReadFrame(j) == Some(src) <==> j == KeyframeJson(src)
  {
    if j == KeyframeJson(src) {
      match src
      case Generation(id) =>
        assert j.fields.Keys == {"type", "id"};
      case Image(url) =>
        assert j.fields.Keys == {"type", "url"};
        assert j.fields.Keys != {"type", "id"} by { assert "url" in j.fields.Keys; }
    }
    if ReadFrame(j) == Some(src) {
      var fs := j.fields;
      match src
      case Generation(id) =>
        assert fs == map["type" := JString("generation"), "id" := JString(id)];
      case Image(url) =>
        assert fs == map["type" := JString("image"), "url" := JString(url)];
    }
  }

  /** Reads a single-entry keyframes mapping back: the slot and the source. */
  function ReadKeyframes(m: map<string, Json>): Option<(bool, FrameSource)> {
    if m.Keys == {"frame0"} && ReadFrame(m["frame0"]).Some? then Some((false, ReadFrame(m["frame0"]).value))
    else if m.Keys == {"frame1"} && ReadFrame(m["frame1"]).Some? then Some((true, ReadFrame(m["frame1"]).value))
    else None
  }

  /** A built keyframes mapping says which slot it fills and with what. */
  lemma KeyframesRoundTrip(src: FrameSource, atEnd: bool)
    ensures ReadKeyframes(Keyframes(src, atEnd)) == Some((atEnd, src))
  {
    var m := Keyframes(src, atEnd);
    assert m.Keys == {FrameKey(atEnd)};
    assert {"frame0"} != {"frame1"} by { assert "frame0" in {"frame0"} && "frame0" !in {"frame1"}; }
    ReadFrameExact(KeyframeJson(src), src);
  }

  /** `raise_for_status` raises for client and server errors. */
  predicate IsHttpError(status: int) {
    400 <= status < 600
  }

  /** The rest of `generate_video`, given the status of the POST and of the
      video download: the first error status raises; otherwise the video is
      written to `output.mp4` in the working directory and that name returned. */
  function VideoOutcome(postStatus: int, videoStatus: int): (r: Result<string, int>)
    ensures r.Ok? <==> !IsHttpError(postStatus) && !IsHttpError(videoStatus)
    ensures r.Ok? ==> r.value == "output.mp4"
    ensures r.Err? ==> r.error == if IsHttpError(postStatus) then postStatus else videoStatus
  {
    if IsHttpError(postStatus) then Err(postStatus)
    else if IsHttpError(videoStatus) then Err(videoStatus)
    else Ok("output.mp4")
  }

  /** The LumaLabs adapter's state. */
  class LumaLabsTtv {
    /** `service_config.api_key`, which the host may change at any time. */
    var apiKey: string
    /** `base_url` and `headers`, derived from the key. */
    var baseUrl: string
    var headers: map<string, string>

    /** The derived fields match the current key. */
    predicate HeadersCurrent()
      reads this
    {
      baseUrl == GenerationsUrl && headers == Headers(apiKey)
    }

    /** `__init__`. */
    constructor (apiKey: string)
      ensures this.apiKey == apiKey && HeadersCurrent()
    {
      this.apiKey := apiKey;
      baseUrl := GenerationsUrl;
      headers := Headers(apiKey);
    }

    /** `settings_updated`: recomputes the endpoint and the headers from the
        current key and changes nothing else; on fields that are already
        current it changes nothing at all, so calling it twice is calling it once. */
    method SettingsUpdated()
      modifies this`baseUrl, this`headers
      ensures HeadersCurrent() && apiKey == old(apiKey)
      ensures BearerKey(headers) == Some(apiKey)
      ensures old(HeadersCurrent()) ==> baseUrl == old(baseUrl) && headers == old(headers)
    {
      baseUrl := GenerationsUrl;
      headers := Headers(apiKey);
      HeadersCarryKey(apiKey);
    }

    /** `generate_video`'s request. The payload always holds the prompt, the
        aspect ratio and the loop flag as given, and holds `keyframes` exactly
        when a non-empty keyframes mapping is given. `numFrames` and `fps` are
        accepted and not sent. */
    method GenerateVideo(prompt: string, aspectRatio: string := "16:9", loop: bool := false,
                         numFrames: int := 60, fps: int := 30,
                         keyframes: Option<map<string, Json>> := None)
      returns (req: PostRequest)
      ensures req.url == baseUrl && req.headers == headers
      ensures "prompt" in req.payload && req.payload["prompt"] == JString(prompt)
      ensures "aspect_ratio" in req.payload && req.payload["aspect_ratio"] == JString(aspectRatio)
      ensures "loop" in req.payload && req.payload["loop"] == JBool(loop)
      ensures "keyframes" in req.payload <==> keyframes.Some? && keyframes.value != map[]
      ensures "keyframes" in req.payload ==> req.payload["keyframes"] == JObject(keyframes.value)
      ensures req.payload.Keys <= {"prompt", "aspect_ratio", "loop", "keyframes"}
    {
      var payload := map[
        "prompt" := JString(prompt),
        "aspect_ratio" := JString(aspectRatio),
        "loop" := JBool(loop)];
      if keyframes.Some? && keyframes.value != map[] {
        payload := payload["keyframes" := JObject(keyframes.value)];
      }
      req := PostRequest(baseUrl, headers, payload);
    }

    /** `extend_video`: a default generation whose keyframes continue the
        generation `generationId`, from its first frame, or from its last
        frame when `reverse`. */
    method ExtendVideo(prompt: string, generationId: string, reverse: bool := false)
      returns (req: PostRequest)
      ensures req.url == baseUrl && req.headers == headers
      ensures "prompt" in req.payload && req.payload["prompt"] == JString(prompt)
      ensures "aspect_ratio" in req.payload && req.payload["aspect_ratio"] == JString("16:9")
      ensures "loop" in req.payload && req.payload["loop"] == JBool(false)
      ensures req.payload.Keys == {"prompt", "aspect_ratio", "loop", "keyframes"}
      ensures "keyframes" in req.payload && req.payload["keyframes"].JObject?
      ensures req.payload["keyframes"] == JObject(Keyframes(Generation(generationId), reverse))
      ensures ReadKeyframes(req.payload["keyframes"].fields) == Some((reverse, Generation(generationId)))
    {
      var kf := Keyframes(Generation(generationId), reverse);
      KeyframesRoundTrip(Generation(generationId), reverse);
      req := GenerateVideo(prompt, keyframes := Some(kf));
    }

    /** `image_to_video`: a default generation whose keyframes start from the
        image at `imageUrl`, or end on it when `isEndFrame`. */
    method ImageToVideo(prompt: string, imageUrl: string, isEndFrame: bool := false)
      returns (req: PostRequest)
      ensures req.url == baseUrl && req.headers == headers
      ensures "prompt" in req.payload && req.payload["prompt"] == JString(prompt)
      ensures "aspect_ratio" in req.payload && req.payload["aspect_ratio"] == JString("16:9")
      ensures "loop" in req.payload && req.payload["loop"] == JBool(false)
      ensures req.payload.Keys == {"prompt", "aspect_ratio", "loop", "keyframes"}
      ensures "keyframes" in req.payload && req.payload["keyframes"].JObject?
      ensures req.payload["keyframes"] == JObject(Keyframes(Image(imageUrl), isEndFrame))
      ensures ReadKeyframes(req.payload["keyframes"].fields) == Some((isEndFrame, Image(imageUrl)))
    {
      var kf := Keyframes(Image(imageUrl), isEndFrame);
      KeyframesRoundTrip(Image(imageUrl), isEndFrame);
      req := GenerateVideo(prompt, keyframes := Some(kf));
    }
  }
}
