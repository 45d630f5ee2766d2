/** The local diffusers text-to-image backend: dimension rounding, the
    sampler-name lookup, the choice of output file and the request passed to
    the loaded pipeline. */
module Diffusers {
  import opened Wrappers
  import opened Paths

  /** `adjust_dimensions`: `(value // 8) * 8`. Python's `//` floors; for the
      positive divisor 8 Dafny's Euclidean `/` is the same floor division, so
      negative values round down too. */
  function AdjustDimensions(value: int): (r: int)
    ensures r % 8 == 0
    ensures r <= value < r + 8
  {
    (value / 8) * 8
  }

  /** The multiple of 8 just below (or at) `value` is the only one within 8 of it. */
  lemma AdjustDimensionsUnique(value: int, m: int)
    requires m % 8 == 0 && m <= value < m + 8
    ensures AdjustDimensions(value) == m
  {
    var r := AdjustDimensions(value);
    assert (r - m) % 8 == 0 by {
      assert r == (r / 8) * 8 && m == (m / 8) * 8;
      assert r - m == (r / 8 - m / 8) * 8;
    }
    assert -8 < r - m < 8;
  }

  /** Rounding is idempotent. */
  lemma AdjustDimensionsIdempotent(value: int)
    ensures AdjustDimensions(AdjustDimensions(value)) == AdjustDimensions(value)
  {
    var r := AdjustDimensions(value);
    AdjustDimensionsUnique(r, r);
  }

  /** 501 rounds to 496. */
  lemma AdjustDimensionsExample()
    ensures AdjustDimensions(501) == 496
  {
    AdjustDimensionsUnique(501, 496);
  }

  /** The beta schedule the "LMS" entry configures. */
  datatype BetaSchedule = BetaSchedule(betaStart: real, betaEnd: real, kind: string)

  const LmsBetas := BetaSchedule(0.00085, 0.012, "scaled_linear")

  /** A pipeline's scheduler: one of the four the lookup can build (`None` betas:
      the library's defaults), or the one the pretrained model came with. */
  datatype Scheduler =
    | LmsDiscrete(betas: Option<BetaSchedule>)
    | EulerDiscrete
    | Ddpm
    | Ddim
    | Pretrained(id: string)

  predicate KnownSampler(name: string) {
    name == "LMS" || name == "Euler" || name == "DDPMS" || name == "DDIMS"
  }

  /** What `get_scheduler_by_name` does as written: it returns a scheduler,
      returns `None`, or raises `UnboundLocalError` for a name that is bound by
      a function-local import in a branch that did not run. */
  datatype Lookup = Found(scheduler: Scheduler) | NotFound | Unbound(name: string)

  /** `get_scheduler_by_name` exactly as written. The "Euler" branch imports
      `EulerDiscreteScheduler` but returns `LMSDiscreteScheduler()`, a name that
      is local to the function and only bound by the import in the "LMS" branch,
      so that call raises. */
  function SchedulerByNameAsWritten(name: string): (r: Lookup)
    ensures r.Found? <==> name == "LMS" || name == "DDPMS" || name == "DDIMS"
    ensures r.Unbound? <==> name == "Euler"
    ensures r.NotFound? <==> !KnownSampler(name)
  {
    if name == "LMS" then Found(LmsDiscrete(Some(LmsBetas)))
    else if name == "Euler" then Unbound("LMSDiscreteScheduler")
    else if name == "DDPMS" then Found(Ddpm)
    else if name == "DDIMS" then Found(Ddim)
    else NotFound
  }

  /** As written, asking for the "Euler" sampler raises instead of giving a scheduler. */
  lemma EulerRaisesAsWritten()
    ensures SchedulerByNameAsWritten("Euler") == Unbound("LMSDiscreteScheduler")
    ensures !SchedulerByNameAsWritten("Euler").Found?
  {
  }

  /** `get_scheduler_by_name` as evidently intended: "Euler" gives the Euler
      scheduler it imports. Every known name gives a scheduler, any other name
      gives `None`, and no lookup hands back the pretrained scheduler. */
  function SchedulerByName(name: string): (r: Option<Scheduler>)
    ensures r.Some? <==> KnownSampler(name)
    ensures r.Some? ==> !r.value.Pretrained?
  {
    if name == "LMS" then Some(LmsDiscrete(Some(LmsBetas)))
    else if name == "Euler" then Some(EulerDiscrete)
    else if name == "DDPMS" then Some(Ddpm)
    else if name == "DDIMS" then Some(Ddim)
    else None
  }

  /** The sampler name a scheduler answers to, if any: the inverse of the lookup. */
  function SamplerName(s: Scheduler): Option<string> {
    match s
    case LmsDiscrete(betas) => if betas == Some(LmsBetas) then Some("LMS") else None
    case EulerDiscrete => Some("Euler")
    case Ddpm => Some("DDPMS")
    case Ddim => Some("DDIMS")
    case Pretrained(_) => None
  }

  /** Each known sampler name selects its own scheduler, and that scheduler
      answers to the name again: distinct names never share a scheduler. */
  lemma SchedulerByNameRoundTrip(name: string)
    requires KnownSampler(name)
    ensures SamplerName(SchedulerByName(name).value) == Some(name)
  {
  }

  /** The corrected lookup agrees with the source wherever the source returns. */
  lemma SchedulerByNameAgrees(name: string)
    ensures name != "Euler" ==>
      (SchedulerByNameAsWritten(name).Found? <==> SchedulerByName(name).Some?)
    ensures SchedulerByNameAsWritten(name).Found? ==>
      SchedulerByName(name) == Some(SchedulerByNameAsWritten(name).scheduler)
  {
  }

  /** The file prefix `paint` asks the free-name helper for. */
  const ImagePrefix := "diff_img_"

  /** `process_output_path`: no path means a fresh name in the default
      directory; an existing file is reused; an existing directory gets a fresh
      name inside it; a path that does not exist is taken as the file to write. */
  function ProcessOutputPath(outputPath: Option<string>, outputDir: string, fs: FileSystem): (fn: Target)
    ensures fn.NextFree? ==> fn.prefix == ImagePrefix
    ensures fn.NextFree? <==>
      outputPath.None? || (outputPath.Some? && IsDir(fs, outputPath.value))
    ensures fn.NextFree? && outputPath.None? ==> fn.dir == outputDir
    ensures fn.NextFree? && outputPath.Some? ==> fn.dir == outputPath.value
    ensures !fn.NextFree? ==> outputPath.Some? && fn == Exact(outputPath.value)
    ensures fn.Exact? ==> outputPath == Some(fn.path) && !IsDir(fs, fn.path)
  {
    match outputPath
    case None => NextFree(outputDir, ImagePrefix)
    case Some(p) =>
      if IsFile(fs, p) then Exact(p)
      else if IsDir(fs, p) then NextFree(p, ImagePrefix)
      else Exact(p)
  }

  /** The pipeline call `paint` makes. `generator` is the seed of the
      `torch.Generator` passed, or `None` when no generator is passed. */
  datatype PipelineCall = PipelineCall(
    prompt: string,
    negativePrompt: string,
    width: int,
    height: int,
    guidanceScale: real,
    steps: int,
    generator: Option<int>)

  /** The seed rule: `-1` means no generator, anything else is used as the seed. */
  function GeneratorSeed(seed: int): (g: Option<int>)
    ensures g.Some? <==> seed != -1
    ensures g.Some? ==> g.value == seed
  {
    if seed != -1 then Some(seed) else None
  }

  /** What `paint` returns: the file it saves to and the echoed prompts. */
  datatype Painting = Painting(file: Target, call: PipelineCall, metadata: map<string, string>)

  /** `paint` fails when the pipeline failed to load (`tti_model` is `None`). */
  datatype PaintError = ModelNotLoaded

  /** `paint` never consults the `None` branch of `process_output_path`: it
      substitutes the output directory first, which gets a fresh name when it
      is a directory and is written to as a file otherwise. */
  lemma PaintDefaultPath(outputDir: string, fs: FileSystem)
    ensures IsDir(fs, outputDir) ==>
      ProcessOutputPath(Some(outputDir), outputDir, fs) == NextFree(outputDir, ImagePrefix)
    ensures !IsDir(fs, outputDir) ==>
      ProcessOutputPath(Some(outputDir), outputDir, fs) == Exact(outputDir)
  {
  }

  /** The diffusers adapter: the state `paint` reads and changes. */
  class DiffusersTti {
    /** `tti_model.scheduler`, the one piece of pipeline state `paint` changes. */
    var scheduler: Scheduler
    /** `tti_model is not None`: whether the pipeline loaded at construction. */
    const loaded: bool
    /** `output_dir`, the default output directory. */
    const outputDir: string

    constructor (loaded: bool, initial: Scheduler, outputDir: string)
      ensures this.loaded == loaded && scheduler == initial && this.outputDir == outputDir
    {
      this.loaded := loaded;
      scheduler := initial;
      this.outputDir := outputDir;
    }

    /** `paint`. A non-empty known sampler name replaces the pipeline's
        scheduler, any other leaves it; the pipeline is called with the rounded
        dimensions, the seed rule's generator and the untouched prompts; the
        file is the one `process_output_path` picks for the given path or, when
        none is given, the output directory. */
    method Paint(
      positivePrompt: string,
      negativePrompt: string,
      fs: FileSystem,
      samplerName: string := "",
      seed: int := -1,
      scale: real := 7.5,
      steps: int := 20,
      width: int := 512,
      height: int := 512,
      outputPath: Option<string> := None)
      returns (r: Result<Painting, PaintError>)
      modifies this`scheduler
      ensures r.Err? <==> !loaded
      ensures !loaded ==> scheduler == old(scheduler)
      ensures loaded && samplerName != "" && SchedulerByName(samplerName).Some? ==>
        scheduler == SchedulerByName(samplerName).value
      ensures samplerName == "" || SchedulerByName(samplerName).None? ==>
        scheduler == old(scheduler)
      ensures r.Ok? ==>
        && r.value.call == PipelineCall(positivePrompt, negativePrompt,
             AdjustDimensions(width), AdjustDimensions(height), scale, steps, GeneratorSeed(seed))
        && r.value.file == ProcessOutputPath(Some(outputPath.GetOr(outputDir)), outputDir, fs)
        && r.value.metadata == map["prompt" := positivePrompt, "negative_prompt" := negativePrompt]
    {
      if !loaded {
        // the scheduler assignment or the pipeline call raises on `None`
        return Err(ModelNotLoaded);
      }
      if samplerName != "" {
        var sc := SchedulerByName(samplerName);
        if sc.Some? {
          scheduler := sc.value;
        }
      }
      var w := AdjustDimensions(width);
      var h := AdjustDimensions(height);
      var path := outputPath;
      if path.None? {
        path := Some(outputDir);
      }
      var fn := ProcessOutputPath(path, outputDir, fs);
      var call := PipelineCall(positivePrompt, negativePrompt, w, h, scale, steps, None);
      if seed != -1 {
        call := call.(generator := Some(seed));
      }
      r := Ok(Painting(fn, call, map["prompt" := positivePrompt, "negative_prompt" := negativePrompt]));
    }
  }
}
