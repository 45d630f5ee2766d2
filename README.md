# lollms generation adapters: the decision rules, in Dafny

This project models the parts of four lollms generation-service adapters that decide something themselves, as opposed to passing work to a remote API or an ML library:

- **Diffusers** (local text-to-image, `LollmsDiffusers`):
  - `adjust_dimensions` rounds each side down to a multiple of 8.
  - `get_scheduler_by_name` maps a sampler name to a scheduler.
  - `paint` swaps the pipeline's scheduler, rounds the dimensions, picks the output file with `process_output_path` and passes a seeded generator only when `seed != -1`.
- **DALL-E** (`LollmsDalle.paint`):
  - Defaults the engine and the output directory.
  - Snaps the requested size to a supported resolution: the first-closest for dall-e-2, by orientation for any other engine.
  - Sends the stripped prompt, `"<w>x<h>"`, quality `"standard"` and `n=1`.
  - Echoes the unstripped prompt on success. On a download status other than 200 it raises.
- **Fish Audio TTS** (`LollmsFishAudioTTS`):
  - Discovers voices from paired `<name>.mp3` / `<name>.txt` files, falling back to `["default"]`.
  - `set_voice` accepts only a listed voice. Otherwise it raises with a message naming the voice and listing the alternatives.
  - Looks up the reference sample for a speaker.
  - Builds the `ServeTTSRequest` (with its defaults) and the bearer/msgpack headers of `tts_file`.
- **LumaLabs video** (`LollmsLumaLabs`):
  - Keeps the endpoint and bearer headers derived from the API key, and `settings_updated` recomputes them.
  - `generate_video` builds the JSON payload: `keyframes` is included only for a non-empty mapping.
  - `extend_video` and `image_to_video` each build a single-entry keyframe keyed `frame0` or `frame1`.

Modules:

- `Wrappers`: Option, Result and Outcome. These stand for `None`, a return and a raise.
- `Paths`: a filesystem snapshot and `Target`. `Target` is the file an adapter writes to: a given path (`Exact`), the result of the free-name helper for a directory and prefix, exactly as the helper returns it (`NextFree`), or a name joined onto a directory with `/` (`Under`). The diffusers adapter writes to the helper's result as returned. The DALL-E adapter writes to `output_dir / find_next_available_filename(output_dir, ...)`, which is `Under(dir, NextFree(dir, ...))`.
- `PyText`: Python's `str.strip()`, `f"{n}"` for a natural number and `str.join`.
- `Diffusers`, `Dalle`, `FishTts`, `LumaLabs`: one module per adapter file.

State that the source updates in place is a class:

- `Diffusers.DiffusersTti`: the pipeline's scheduler.
- `FishTts.FishAudioTts`: `voices` and `voice_name`.
- `LumaLabs.LumaLabsTtv`: `base_url` and `headers`.

Pure logic is written as functions.

Inputs from the outside world are parameters:

- The filesystem (`Paths.FileSystem`, `FishTts.Folder`).
- The HTTP status codes.
- The text codec of `read_text` (`decode`).
- The working directory.

Some things the code does not do, which the model therefore does not promise either:

- The code rejects no empty prompt.
- The code of the free-name helper is not part of this model, so the model claims nothing about whether output names collide.
- `tts_file` does not validate its speaker. An unknown speaker silently gets no reference; only `set_voice` rejects unknown voices.
- A sampler name of `"Euler"` gives no scheduler at all. As written it raises (see Findings).

## Model

| member | source | states |
|---|---|---|
| `Diffusers.AdjustDimensions` | lollms/services/tti/diffusers/lollms_diffusers.py:39-41 | the result is a multiple of 8, at most the input and less than 8 below it (floor rounding, also for negative input) |
| `Diffusers.AdjustDimensionsUnique` | lollms/services/tti/diffusers/lollms_diffusers.py:39-41 | the result is the only multiple of 8 in `(v-8, v]` |
| `Diffusers.AdjustDimensionsIdempotent` | lollms/services/tti/diffusers/lollms_diffusers.py:39-41 | rounding twice equals rounding once |
| `Diffusers.AdjustDimensionsExample` | lollms/services/tti/diffusers/lollms_diffusers.py:39-41 | 501 becomes 496 |
| `Diffusers.SchedulerByNameAsWritten` | lollms/services/tti/diffusers/lollms_diffusers.py:209-225 | as written: "LMS", "DDPMS" and "DDIMS" give a scheduler, "Euler" raises, every other name gives `None` |
| `Diffusers.EulerRaisesAsWritten` | lollms/services/tti/diffusers/lollms_diffusers.py:217-219 | as written, "Euler" raises `UnboundLocalError` on `LMSDiscreteScheduler` and gives no scheduler |
| `Diffusers.SchedulerByName` | lollms/services/tti/diffusers/lollms_diffusers.py:209-225 | corrected lookup: a scheduler exactly for "LMS", "Euler", "DDPMS" and "DDIMS", `None` otherwise, and never the pretrained one |
| `Diffusers.SchedulerByNameRoundTrip` | lollms/services/tti/diffusers/lollms_diffusers.py:209-225 | each known name gives a scheduler that answers to that name again, so different names give different schedulers |
| `Diffusers.SchedulerByNameAgrees` | lollms/services/tti/diffusers/lollms_diffusers.py:209-225 | the corrected lookup returns the source's scheduler wherever the source returns one |
| `Diffusers.ProcessOutputPath` | lollms/services/tti/diffusers/lollms_diffusers.py:252-266 | a fresh `diff_img_` name is chosen exactly when there is no path (in the default directory) or the path is an existing directory (inside it); otherwise the path itself is used, and it is never a directory |
| `Diffusers.PaintDefaultPath` | lollms/services/tti/diffusers/lollms_diffusers.py:270-273 | with no path given, `paint` substitutes `output_dir` first: it gets a fresh name when it is a directory and is itself the target otherwise |
| `Diffusers.GeneratorSeed` | lollms/services/tti/diffusers/lollms_diffusers.py:275-279 | a generator is passed exactly when `seed != -1`, and it is seeded with that seed |
| `Diffusers.DiffusersTti.constructor` | lollms/services/tti/diffusers/lollms_diffusers.py:122-171 | records whether the pipeline loaded, its initial scheduler and the output directory |
| `Diffusers.DiffusersTti.Paint` | lollms/services/tti/diffusers/lollms_diffusers.py:229-282 | fails exactly when no pipeline loaded; a non-empty known sampler replaces the scheduler and anything else leaves it; the pipeline gets the rounded width and height, the untouched prompts, scale and steps and the seed rule's generator; the file is `process_output_path`'s choice; the metadata is exactly `prompt` and `negative_prompt` |
| `Dalle.FirstClosest` | lollms/services/tti/dalle/lollms_dalle.py:93 | `min` with the distance key: an index of least distance `abs(w-W)+abs(h-H)` that every earlier index beats on distance strictly less (the first minimum) |
| `Dalle.SnapResolution` | lollms/services/tti/dalle/lollms_dalle.py:87-112 | the snapped size always belongs to the selected engine's supported list |
| `Dalle.Dalle2Closest` | lollms/services/tti/dalle/lollms_dalle.py:88-93 | for dall-e-2 no supported resolution is closer than the chosen one, and a tie goes to 512x512 |
| `Dalle.Dalle2Example` | lollms/services/tti/dalle/lollms_dalle.py:87-93 | 500x500 on dall-e-2 becomes 512x512 |
| `Dalle.Dalle3KeepsOrientation` | lollms/services/tti/dalle/lollms_dalle.py:101-107 | any engine other than dall-e-2 keeps landscape, portrait or square, and picks the only supported resolution of that orientation (1792x1024, 1024x1792, 1024x1024) |
| `Dalle.SizeStringRoundTrip` | lollms/services/tti/dalle/lollms_dalle.py:119 | the `"{width}x{height}"` string reads back as exactly the snapped width and height |
| `Dalle.PaintRequest` | lollms/services/tti/dalle/lollms_dalle.py:79-121 | the engine is the argument or, when `None`, the configured engine; the request has the stripped prompt, quality "standard", n=1, the configured key, and a size that is exactly the decimal `"<w>x<h>"` of the snapped resolution, which reads back as that resolution |
| `Dalle.Paint` | lollms/services/tti/dalle/lollms_dalle.py:79-142 | succeeds exactly on download status 200; the request sent is `PaintRequest`'s for the given size and engine; the file is the output directory joined with the helper's fresh `img_dalle_` name in it, where the output directory is the argument or, when `None`, the adapter's `output_path`; the metadata is exactly `positive_prompt`, the unstripped prompt |
| `PyText.StripIsTheTrimmedSlice` | lollms/services/tti/dalle/lollms_dalle.py:117 | `strip()` gives the unique slice that drops only whitespace and neither starts nor ends with whitespace |
| `PyText.LeadingSpaceSpec` | lollms/services/tti/dalle/lollms_dalle.py:117 | what `strip()` drops at the front is whitespace, and it stops at the first other character or the end |
| `PyText.LeadingSpaceAt` | lollms/services/tti/dalle/lollms_dalle.py:117 | any whitespace run that ends at a non-whitespace character or the end is exactly what `strip()` drops at the front |
| `PyText.TrimmedEndSpec` | lollms/services/tti/dalle/lollms_dalle.py:117 | what `strip()` drops at the back is whitespace, and it starts after the last other character |
| `PyText.TrimmedEndAt` | lollms/services/tti/dalle/lollms_dalle.py:117 | any trailing whitespace run preceded by a non-whitespace character or the start is exactly what `strip()` drops at the back |
| `PyText.StripRemovesOnlyEdgeSpace` | lollms/services/tti/dalle/lollms_dalle.py:117 | the stripped prompt is a slice of the prompt with only whitespace before and after it, and it neither starts nor ends with whitespace |
| `PyText.StripIdempotent` | lollms/services/tti/dalle/lollms_dalle.py:117 | stripping twice equals stripping once |
| `PyText.DecimalRoundTrip` | lollms/services/tti/dalle/lollms_dalle.py:119 | the decimal digits of a width read back as that width |
| `PyText.JoinContainsEach` | lollms/services/tts/fish/lollms_fish_tts.py:92 | every item of `', '.join(items)` occurs in the joined string |
| `FishTts.Voices` | lollms/services/tts/fish/lollms_fish_tts.py:77-86 | the voice list is never empty |
| `FishTts.LoadVoices` | lollms/services/tts/fish/lollms_fish_tts.py:77-86 | the scan loop returns the stems of the scanned `.mp3` files whose same-stem `.txt` exists, in scan order, or `["default"]` when the folder is missing or has no pair |
| `FishTts.PairedStemsMembers` | lollms/services/tts/fish/lollms_fish_tts.py:81-85 | a name is collected exactly when some scanned `.mp3` with its `.txt` beside it has that stem |
| `FishTts.VoicesMembers` | lollms/services/tts/fish/lollms_fish_tts.py:77-86 | a missing folder gives `["default"]`; otherwise a voice is listed exactly when it is a discovered pair, or when it is "default" and there is no pair |
| `FishTts.VoiceNotFoundNamesAll` | lollms/services/tts/fish/lollms_fish_tts.py:92 | the error message names the rejected voice and contains every available voice |
| `FishTts.FishAudioTts.SetVoice` | lollms/services/tts/fish/lollms_fish_tts.py:88-92 | a listed voice becomes `voice_name`; any other raises with the message naming it and the voices, and leaves `voice_name` unchanged |
| `FishTts.FishAudioTts.constructor` | lollms/services/tts/fish/lollms_fish_tts.py:70-75 | the folder is created when missing, then `voices` is whatever the scan finds |
| `FishTts.GetReferenceAudio` | lollms/services/tts/fish/lollms_fish_tts.py:94-106 | "default" has no reference; any other name has one exactly when both its `.mp3` and `.txt` exist, and it carries that audio and that text |
| `FishTts.DiscoveredVoiceHasReference` | lollms/services/tts/fish/lollms_fish_tts.py:81-106 | a voice discovered from `<v>.mp3` and `<v>.txt`, other than "default", has a reference made of exactly those two files |
| `FishTts.NoSpeakerLooksUpNone` | lollms/services/tts/fish/lollms_fish_tts.py:98-99 | called without a speaker, the lookup is for the files `None.mp3` and `None.txt` |
| `FishTts.MissingFolderIsEmpty` | lollms/services/tts/fish/lollms_fish_tts.py:78-79 | a missing reference folder gives the same voices and references as an empty one |
| `FishTts.BuildRequest` | lollms/services/tts/fish/lollms_fish_tts.py:111-115 | the request's text is the input text, and `references` holds exactly the found reference or nothing; the other fields keep the `ServeTTSRequest` defaults (chunk_length 200, "mp3", bitrate 128, no reference_id, normalize, "normal") |
| `FishTts.TtsHeaders` | lollms/services/tts/fish/lollms_fish_tts.py:122-125 | exactly two headers: the content type is msgpack, and the authorization is "Bearer " followed by the key |
| `FishTts.FishAudioTts.OutputFile` | lollms/services/tts/fish/lollms_fish_tts.py:144-147 | a fresh `output.mp3` name in `output_path`, or in the working directory when that is not set |
| `FishTts.FishAudioTts.TtsFile` | lollms/services/tts/fish/lollms_fish_tts.py:108-126 | posts to the fish.audio endpoint with the current key's headers and the request for the speaker's reference; writes to the given path when it is non-empty, and to a fresh output name otherwise |
| `LumaLabs.Headers` | lollms/services/ttv/lumalabs/lollms_lumalabs.py:31-35 | exactly the accept, authorization and content-type headers, both types JSON |
| `LumaLabs.HeadersCarryKey` | lollms/services/ttv/lumalabs/lollms_lumalabs.py:33 | the authorization header is "Bearer " followed by exactly the key it was built from |
| `LumaLabs.LumaLabsTtv.constructor` | lollms/services/ttv/lumalabs/lollms_lumalabs.py:30-35 | after construction the endpoint is the generations URL and the headers match the key |
| `LumaLabs.LumaLabsTtv.SettingsUpdated` | lollms/services/ttv/lumalabs/lollms_lumalabs.py:37-43 | afterwards the endpoint and headers match the current key; only those two fields change, and fields that are already current do not change, so the call is idempotent |
| `LumaLabs.LumaLabsTtv.GenerateVideo` | lollms/services/ttv/lumalabs/lollms_lumalabs.py:45-57 | posts to `base_url` with `headers`; the payload always has prompt, aspect_ratio (default "16:9") and loop (default false) as given, has `keyframes` if and only if a non-empty mapping is given, and has no other key |
| `LumaLabs.VideoOutcome` | lollms/services/ttv/lumalabs/lollms_lumalabs.py:57-71 | the first error status (400-599) raises; otherwise the result is "output.mp4" |
| `LumaLabs.Keyframes` | lollms/services/ttv/lumalabs/lollms_lumalabs.py:77-90 | exactly one keyframe entry, in the slot that was asked for |
| `LumaLabs.ReadFrameExact` | lollms/services/ttv/lumalabs/lollms_lumalabs.py:77-90 | an entry reads back as a source if and only if it is exactly that source's `{type: generation, id}` or `{type: image, url}` object, with no other field |
| `LumaLabs.KeyframesRoundTrip` | lollms/services/ttv/lumalabs/lollms_lumalabs.py:76-92 | the entry reads back as its slot (`frame0`, or `frame1` at the end) and its source (generation id or image url) |
| `LumaLabs.LumaLabsTtv.ExtendVideo` | lollms/services/ttv/lumalabs/lollms_lumalabs.py:76-83 | a default-parameter generation whose payload has exactly the keys prompt, aspect_ratio, loop and keyframes, and whose keyframes value is exactly the one-entry mapping to `{type: generation, id}`, keyed "frame0", or "frame1" when `reverse` |
| `LumaLabs.LumaLabsTtv.ImageToVideo` | lollms/services/ttv/lumalabs/lollms_lumalabs.py:85-92 | a default-parameter generation whose payload has exactly the keys prompt, aspect_ratio, loop and keyframes, and whose keyframes value is exactly the one-entry mapping to `{type: image, url}`, keyed "frame0", or "frame1" when `is_end_frame` |

## Findings

| source | as written | input that shows it | evidently intended | confidence | as-written member | corrected member |
|---|---|---|---|---|---|---|
| lollms/services/tti/diffusers/lollms_diffusers.py:217-219 | The "Euler" branch imports `EulerDiscreteScheduler` and then returns `LMSDiscreteScheduler()`. An import inside a function makes that name local to the function, and only the "LMS" branch binds it. | `get_scheduler_by_name("Euler")`, also reached by `paint(..., sampler_name="Euler")`, raises `UnboundLocalError` | return `EulerDiscreteScheduler()` | high; not executed | `Diffusers.EulerRaisesAsWritten` (about `Diffusers.SchedulerByNameAsWritten`) | `Diffusers.SchedulerByName` (with `Diffusers.SchedulerByNameRoundTrip`), used by `Diffusers.DiffusersTti.Paint` |

## Left out

- Diffusers.DiffusersTti.Paint: uses the corrected scheduler lookup, so `sampler_name="Euler"` installs the Euler scheduler where the source raises (see Findings).
- Diffusers.DiffusersTti.Paint: the pipeline call, the image and `image.save` are not modelled. The call is returned as a record, and `restore_faces` and `img2img_denoising_strength`, which `paint` never uses, are not parameters.
- Diffusers.DiffusersTti.Paint: `width` and `height` are taken as `int`, on which `int()` changes nothing. The truncation toward zero that `int()` applies to a float or a numeric string is not modelled.
- Diffusers.ProcessOutputPath: paths are raw strings. The normalisation done by `Path(output_path)` is not modelled: `""` becoming `"."`, and a trailing `/` being dropped. So `Exact(p)` is the given string, not the normalised path.
- Dalle.Paint: the output directory is a raw string. The normalisation done by `Path(output_path)` at the directory's creation and join is not modelled.
- FishTts.FishAudioTts.TtsFile: `file_name_or_path` is a raw string. The normalisation done by `Path(file_name_or_path)` is not modelled.
- Diffusers.DiffusersTti.constructor: model loading (`from_pretrained`), the CPU-offloading block and its swallowed exceptions, and directory creation are left out. The constructor takes their outcome (loaded or not, the initial scheduler) as arguments.
- Dalle.Paint: `openai.images.generate` is assumed to answer, and its image URL is not modelled. Only the download's status code is a parameter. `mkdir` and the file write are left out.
- Dalle.SnapResolution: `width` and `height` are taken as `int`. With float sizes, the source computes the `min` distances and the orientation comparisons on floats, and the model does not cover that case.
- FishTts.FishAudioTts.TtsFile: the msgpack serialisation, the streamed HTTP response and the file write are left out. The call is returned as a record.
- FishTts.Folder: does not distinguish files from directories. A directory called `x.mp3` counts as an audio file.
- FishTts.GetReferenceAudio: `read_bytes` and `read_text` are taken to succeed. The model has no error path for a `<name>.mp3` that is a directory, or for a transcript that is not valid text. `decode` is a total function.
- FishTts.GetReferenceAudio: a speaker name is looked up as a bare key of the folder. `reference_folder / f"{speaker}.mp3"` with a speaker containing `/`, or an absolute path, resolves outside the reference folder, and the model cannot express that.
- FishTts.FishAudioTts.constructor: the starting `voice_name` and `output_path` are taken as given. `__init__` does not set them: they come from the `LollmsTTS` base class, whose code is not part of this model.
- FishTts.LoadVoices: the `*.mp3` pattern is taken as case-sensitive, as on Linux.
- LumaLabs.LumaLabsTtv.GenerateVideo: `requests.post`, the JSON answer and the video download are modelled only by their status codes, in `LumaLabs.VideoOutcome`.
- `find_next_available_filename`: its code is not part of this model. The model records which directory and prefix it is asked for, and claims nothing about collisions.
- Floating-point parameters (`scale`, the LMS betas) are passed through as `real` values and never computed with.
- `paint_from_images` (in both the DALL-E and diffusers adapters) is left out. In both adapters it refers to names that do not exist there (`output_path`, `width`, `height`; `self.self`, `self.titi_model`), so it cannot run.
- The DALL-E non-200 branch returns an unbound `file_name`, so it raises. It is modelled as an error, never as a successful return.
- `generate_video_by_frames` is left out: its body is empty.
- The lumalabs `__main__` block is left out: it refers to a class that does not exist.
- The musicgen text-to-music service is left out. It only loads a model, generates and saves audio.
- Installation and upgrading (`pipmaster`, `install_model`, `upgrade_diffusers`, `install_diffusers`), `verify`/`get`, `git_pull`, `download_file`, audio playback (`tts_audio`) and the console banners are left out. They are I/O with no decision logic.
- Environment variables (`OPENAI_KEY`, `FISHTTS_KEY`, `LUMALABS_KEY`) are not read: each key is a constructor argument or a field.
