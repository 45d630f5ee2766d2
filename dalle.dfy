/** The OpenAI DALL-E text-to-image adapter: parameter defaulting, snapping the
    requested size to a supported resolution, the request sent and the result
    returned. */
module Dalle {
  import opened Wrappers
  import opened Paths
  import opened PyText

  datatype Resolution = Resolution(width: int, height: int)

  /** The resolutions dall-e-2 supports, in the order `min` scans them. */
  const Dalle2Resolutions: seq<Resolution> := [Resolution(512, 512), Resolution(1024, 1024)]

  /** The resolutions every other engine (dall-e-3) supports. */
  const Dalle3Resolutions: seq<Resolution> :=
    [Resolution(1024, 1024), Resolution(1024, 1792), Resolution(1792, 1024)]

  function SupportedResolutions(engine: string): seq<Resolution> {
    if engine == "dall-e-2" then Dalle2Resolutions else Dalle3Resolutions
  }

  function Abs(x: int): nat {
    if x < 0 then -x else x
  }

  /** The key of the `min` call: `abs(res[0] - width) + abs(res[1] - height)`. */
  function Distance(r: Resolution, width: int, height: int): nat {
    Abs(r.width - width) + Abs(r.height - height)
  }

  /** The index Python's `min(candidates, key=...)` returns: it scans left to
      right and keeps the current best unless a later one is strictly closer,
      so the result is the FIRST candidate of least distance. */
  function FirstClosest(candidates: seq<Resolution>, width: int, height: int): (i: nat)
    requires |candidates| > 0
    ensures i < |candidates|
    ensures forall k :: 0 <= k < |candidates| ==>
      Distance(candidates[i], width, height) <= Distance(candidates[k], width, height)
    ensures forall k :: 0 <= k < i ==>
      Distance(candidates[i], width, height) < Distance(candidates[k], width, height)
  {
    if |candidates| == 1 then 0
    else
      var last := |candidates| - 1;
      var j := FirstClosest(candidates[..last], width, height);
      assert forall k :: 0 <= k < last ==> candidates[..last][k] == candidates[k];
      if Distance(candidates[last], width, height) < Distance(candidates[j], width, height)
      then last
      else j
  }

  /** The resolution `paint` uses for an engine and a requested size. */
  function SnapResolution(engine: string, width: int, height: int): (r: Resolution)
    ensures r in SupportedResolutions(engine)
    ensures r.width > 0 && r.height > 0
  {
    if engine == "dall-e-2" then
      Dalle2Resolutions[FirstClosest(Dalle2Resolutions, width, height)]
    else if width > height then Resolution(1792, 1024)
    else if width < height then Resolution(1024, 1792)
    else Resolution(1024, 1024)
  }

  /** For dall-e-2 no supported resolution is closer than the chosen one, and
      on a tie the first entry, 512x512, wins. */
  lemma Dalle2Closest(width: int, height: int)
    ensures var r := SnapResolution("dall-e-2", width, height);
      forall c :: c in Dalle2Resolutions ==> Distance(r, width, height) <= Distance(c, width, height)
    ensures Distance(Resolution(512, 512), width, height) == Distance(Resolution(1024, 1024), width, height) ==>
      SnapResolution("dall-e-2", width, height) == Resolution(512, 512)
  {
    var i := FirstClosest(Dalle2Resolutions, width, height);
    assert forall c :: c in Dalle2Resolutions ==> c == Dalle2Resolutions[0] || c == Dalle2Resolutions[1];
    if Distance(Resolution(512, 512), width, height) == Distance(Resolution(1024, 1024), width, height) {
      assert i != 1;
    }
  }

  /** A 500x500 request on dall-e-2 becomes 512x512. */
  lemma Dalle2Example()
    ensures SnapResolution("dall-e-2", 500, 500) == Resolution(512, 512)
  {
    var i := FirstClosest(Dalle2Resolutions, 500, 500);
    assert Distance(Dalle2Resolutions[0], 500, 500) == 24;
    assert Distance(Dalle2Resolutions[1], 500, 500) == 1048;
    assert i == 0;
  }

  function Sign(x: int): int {
    if x > 0 then 1 else if x < 0 then -1 else 0
  }

  /** Every engine other than dall-e-2 keeps the orientation of the request:
      landscape stays landscape, portrait stays portrait, square stays square. */
  lemma Dalle3KeepsOrientation(engine: string, width: int, height: int)
    requires engine != "dall-e-2"
    ensures var r := SnapResolution(engine, width, height);
      Sign(r.width - r.height) == Sign(width - height)
    ensures var r := SnapResolution(engine, width, height);
      forall c :: c in Dalle3Resolutions && Sign(c.width - c.height) == Sign(width - height) ==> c == r
  {
  }

  /** The configured side of the adapter: the key, the engine chosen in the
      settings and the adapter's `output_path`. */
  datatype DalleService = DalleService(apiKey: string, generationEngine: string, outputPath: string)

  /** The arguments of `openai.images.generate`, with the key it is sent with. */
  datatype ImageRequest = ImageRequest(
    model: string,
    prompt: string,
    quality: string,
    size: string,
    n: int,
    apiKey: string)

  /** `f"{width}x{height}"`. */
  function SizeString(r: Resolution): string
    requires r.width >= 0 && r.height >= 0
  {
    DecimalString(r.width) + "x" + DecimalString(r.height)
  }

  /** Reads a `"<w>x<h>"` size string back. */
  function ParseSize(s: string): Option<Resolution> {
    var i := IndexOf(s, 'x');
    if i < |s| && AllDigits(s[..i]) && AllDigits(s[i + 1..])
    then Some(Resolution(DecimalValue(s[..i]), DecimalValue(s[i + 1..])))
    else None
  }

  function IndexOf(s: string, c: char): (i: nat)
    ensures i <= |s|
    ensures i < |s| ==> s[i] == c
    ensures forall k :: 0 <= k < i ==> s[k] != c
  {
    if s == [] then 0 else if s[0] == c then 0 else 1 + IndexOf(s[1..], c)
  }

  /** The size string names exactly the snapped resolution. */
  lemma {:induction false} SizeStringRoundTrip(r: Resolution)
    requires r.width >= 0 && r.height >= 0
    ensures ParseSize(SizeString(r)) == Some(r)
  {
    var w := DecimalString(r.width);
    var h := DecimalString(r.height);
    var s := SizeString(r);
    assert s[..|w|] == w && s[|w| + 1..] == h && s[|w|] == 'x';
    assert forall k :: 0 <= k < |w| ==> s[k] == w[k] && s[k] != 'x';
    assert IndexOf(s, 'x') == |w|;
    DecimalRoundTrip(r.width);
    DecimalRoundTrip(r.height);
  }

  /** The engine `paint` uses: the argument, or the configured engine when it is `None`. */
  function Engine(service: DalleService, generationEngine: Option<string>): string {
    generationEngine.GetOr(service.generationEngine)
  }

  /** The request `paint` sends for a prompt and a requested size. */
  function PaintRequest(service: DalleService, positivePrompt: string, width: int, height: int,
                        generationEngine: Option<string>): (q: ImageRequest)
    ensures generationEngine.None? ==> q.model == service.generationEngine
    ensures generationEngine.Some? ==> q.model == generationEngine.value
    ensures q.quality == "standard" && q.n == 1 && q.apiKey == service.apiKey
    ensures q.prompt == Strip(positivePrompt)
    ensures q.size == SizeString(SnapResolution(q.model, width, height))
    ensures ParseSize(q.size) == Some(SnapResolution(q.model, width, height))
  {
    var engine := Engine(service, generationEngine);
    var res := SnapResolution(engine, width, height);
    SizeStringRoundTrip(res);
    ImageRequest(engine, Strip(positivePrompt), "standard", SizeString(res), 1, service.apiKey)
  }

  /** What `paint` does when it succeeds: the request it sent, the file it
      wrote and the echoed prompt it returns. */
  datatype Painting = Painting(request: ImageRequest, file: Target, metadata: map<string, string>)

  /** The image download answered with another status than 200; `paint` then
      raises (`file_name` is unbound at its `return`). */
  datatype PaintError = DownloadFailed(status: int)

  /** `paint`, given the status of the image download. The request is
      `PaintRequest`'s; the image goes to the output directory joined with the
      free name the helper picks there for `img_dalle_`, where the output
      directory is the argument or, when `None`, the adapter's `output_path`;
      the metadata echoes the prompt as given, not stripped. */
  function Paint(service: DalleService, positivePrompt: string, downloadStatus: int,
                 width: int := 512, height: int := 512, outputPath: Option<string> := None,
                 generationEngine: Option<string> := None): (r: Result<Painting, PaintError>)
    ensures r.Ok? <==> downloadStatus == 200
    ensures r.Ok? ==> r.value.request == PaintRequest(service, positivePrompt, width, height, generationEngine)
    ensures r.Ok? && outputPath.None? ==>
      r.value.file == Under(service.outputPath, NextFree(service.outputPath, "img_dalle_"))
    ensures r.Ok? && outputPath.Some? ==>
      r.value.file == Under(outputPath.value, NextFree(outputPath.value, "img_dalle_"))
    ensures r.Ok? ==> r.value.metadata.Keys == {"positive_prompt"}
    ensures r.Ok? ==> r.value.metadata["positive_prompt"] == positivePrompt
  {
    var outputDir := outputPath.GetOr(service.outputPath);
    if downloadStatus == 200 then
      var request := PaintRequest(service, positivePrompt, width, height, generationEngine);
      Ok(Painting(request, Under(outputDir, NextFree(outputDir, "img_dalle_")),
                  map["positive_prompt" := positivePrompt]))
    else
      Err(DownloadFailed(downloadStatus))
  }
}
