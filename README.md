# OpenCL Julia-set renderer: host logic in Dafny

This project models the host side of a renderer that draws a Julia set with
OpenCL and writes it as a PNG. The model covers three parts.

- **The palette** (`colormap` in `src/colormap.h` and `src/colormap.cpp`, and
  the free function `colormap()` in `src/render.cpp`).
  - Both read the first pixel row of a decoded RGBA image.
  - Each produces one colour per pixel: red, green and blue are copied and
    alpha is forced to 255.
  - `grayscale_to_color` maps a weight in `[weight_min, weight_max)` to a
    palette entry.
- **The host helpers** of `src/render.cpp`.
  - The copy of the read-back image into the encoder's vector.
  - The platform choice (`get_platform`) and the device choice (`get_device`).
- **`main`'s command sequence**, as a state machine over abstract commands.
  - Each OpenCL and lodepng call whose status `main` receives becomes a
    `Command`, and its status is a field of an `Environment`.
  - Calls whose status is never received or tested always succeed, and each
    kernel's `setArg` calls are folded into its `CreateKernel` command.
  - The `Environment` also holds the platform and device counts, the number
    typed at the prompt, the build log, the decoded palette and the pixels
    the device returns.
  - Module `Trace` defines a generic table of steps. Each step is a command,
    whether it succeeded, and what a failure does: go on, or stop with an
    exit code after some closing commands.
  - `Trace.Interpret` runs such a table to a trace and an exit code.
  - `RenderMain.Steps` is `main` written as such a table.
  - `RenderMain.Run` is `main` written imperatively, with `err`
    reassignments, early returns and the dead guards kept.
  - `Run`'s contract is that it yields exactly the outcome `Interpret` gives
    for the table.
  - Lemmas about the table state the properties the code exhibits: the
    queue order, which failures are fatal, and which statuses are ignored.

Modules:

- `CTypes`: `uint8`, `uint32`, `CL_SUCCESS`, `EXIT_SUCCESS` and `EXIT_FAILURE`.
- `Colormaps`: the `color` struct and the `colormap` class.
- `Render`: `colormap()`, the host copy, `get_platform` and `get_device`.
- `Trace`: the step table and its interpreter.
- `RenderMain`: `main`.

Behaviour of the code that the model keeps as written:

- The lookup index is truncated toward zero and used without a clamp (see
  "## Findings").
- The palette decoder's status is never read. What happens next depends on
  the width the decoder leaves, which the model takes as an input.
- A device without image support only sets `m_err`, which nothing reads.
  Execution goes on.
- A failed PNG encoding makes `main` return `EXIT_SUCCESS`.
- These files render one frame to `test.png`.

## Model

| member | source | states |
|---|---|---|
| Colormaps.RowColors | src/colormap.cpp:28-35 | the palette of a decoded image has one colour per pixel of the first row; colour k holds bytes 4k, 4k+1 and 4k+2, with alpha 255 |
| Colormaps.RowColorsOpaque | src/colormap.cpp:33 | every palette colour is fully opaque, whatever the image's alpha bytes |
| Colormaps.RowColorsReadRgbOnly | src/colormap.cpp:28-35 | two images that agree on the red, green and blue bytes of the first row give the same palette |
| Colormaps.Colormap.constructor | src/colormap.cpp:14-20 | the file name and the weight domain are stored as given, and the palette starts empty |
| Colormaps.Colormap.Analyze | src/colormap.cpp:22-36 | appends exactly the first row's colours after the entries already present (there is no clear), and ignores the decode status |
| Colormaps.TruncateToInt | src/colormap.cpp:40-41 | the double-to-int conversion drops the fraction (truncation toward zero, not floor) |
| Colormaps.ColorIndex | src/colormap.cpp:40-41 | the index is the weight's position in the domain, scaled by the palette size and truncated toward zero: rounded down when not negative, up when negative |
| Colormaps.TruncateMonotone | src/colormap.cpp:40-41 | the conversion preserves order |
| Colormaps.IndexInRange | src/colormap.cpp:40-42 | with weight_min < weight_max, a non-empty palette and weight in [weight_min, weight_max), the index is in [0, size) |
| Colormaps.IndexAtMin | src/colormap.cpp:40-41 | weight_min gives index 0 |
| Colormaps.IndexAtMax | src/colormap.cpp:40-42 | weight_max gives index size, one past the end |
| Colormaps.IndexPastMax | src/colormap.cpp:40-42 | weights above weight_max give indices at or past the end |
| Colormaps.IndexTruncatesTowardZero | src/colormap.cpp:40-41 | a weight less than one palette step below weight_min still gives index 0, where a floor would give -1 |
| Colormaps.IndexMonotone | src/colormap.cpp:40-41 | a larger weight never gives a smaller index |
| Colormaps.IndexOfHalfInFour | src/colormap.cpp:40-41 | four entries over [0, 1] and weight 0.5 give index 2 |
| Colormaps.HalfWeightInFourColorsIsBlue | src/colormap.cpp:28-42 | a red, green, blue, black palette over [0, 1] maps 0.5 to blue |
| Colormaps.Colormap.GrayscaleToColor | src/colormap.cpp:38-43 | with the index in bounds, the result is a palette colour and weight_min gives entry 0; as a function it changes neither the palette nor the domain |
| Colormaps.LookupWithinDomain | src/colormap.cpp:38-43 | for every weight in [weight_min, weight_max) of a non-empty palette with an increasing domain, the lookup is defined and returns a palette colour |
| Colormaps.ClampedIndex | src/colormap.cpp:40-42 | the clamped index is always in [0, size), equals the unclamped index wherever that is in bounds, and is 0 at weight_min |
| Colormaps.Clamp | src/colormap.cpp:40-42 | the clamp the lookup needs: the result is in [0, size), unchanged when already there, 0 below and size - 1 above |
| Colormaps.ClampedIndexIsClampedFloor | src/colormap.cpp:40-42 | once clamped, truncation toward zero and floor give the same index, so the corrected index is the floor-and-clamp formula |
| Colormaps.ClampedIndexAtMax | src/colormap.cpp:40-42 | with the clamp, weight_max gives the last entry |
| Colormaps.Colormap.ClampedColor | src/colormap.cpp:38-43 | the clamped lookup returns a palette colour for every weight: the first at weight_min, the last at weight_max, and the same colour as the unclamped lookup wherever that is defined |
| Render.Widen | src/render.cpp:335-338 | widening a palette colour to `cl_uint4` keeps every channel's value, so each component stays below 256 |
| Render.ColormapEntries | src/render.cpp:332-340 | the uploaded palette has width entries; entry i holds bytes 4i, 4i+1 and 4i+2, widened, with alpha 255 |
| Render.Colormap | src/render.cpp:327-342 | returns a newly allocated array of exactly width entries and reports size = width; entry i holds bytes 4i..4i+2 with alpha 255; it equals the `colormap` class's palette, widened |
| Render.CopyToOutput | src/render.cpp:217-223 | output is a newly allocated buffer of size*size*4 bytes, equal to result element by element; result is unchanged |
| Render.GetPlatform | src/render.cpp:241-261 | the process exits exactly when there are no platforms; otherwise platform 0 is used |
| Render.GetDevice | src/render.cpp:264-292 | the process exits exactly when there are no devices; one device is used without a prompt; with several, the typed number is used unchecked |
| Trace.Interpret | src/render.cpp:24-238 | runs a table with `main`'s early returns: the first command is always issued, and a run that does not succeed ends with the exit code of a step that stopped it |
| Trace.PassesIffNoAbort | src/render.cpp:24-238 | reaching step k means exactly that no earlier step stopped the program |
| Trace.IssuedElements | src/render.cpp:24-238 | the commands of the first k steps are exactly those steps' commands, in order |
| Trace.FirstAbort | src/render.cpp:24-238 | the first stopping step: every earlier step passes, and the step found stops |
| Trace.Resume | src/render.cpp:24-238 | once the first k steps pass, the outcome is their commands followed by the outcome of the rest |
| Trace.Halt | src/render.cpp:24-238 | a stopping step after passing ones ends the run after its command and closing commands, with its exit code |
| Trace.Complete | src/render.cpp:24-238 | when every step passes, every command is issued and the exit code is EXIT_SUCCESS |
| Trace.InterpretStopsAtFirstAbort | src/render.cpp:24-238 | closed form of a run: the commands up to the first stopping step, then its closing commands and its exit code, or everything with EXIT_SUCCESS |
| Trace.ContinuedFailureIsHarmless | src/render.cpp:24-238 | a failed status on a step whose failures are only reported or ignored gives the same outcome as success |
| RenderMain.Steps | src/render.cpp:24-238 | `main` as a table of 23 steps, one per command, in source order |
| RenderMain.StepAt | src/render.cpp:24-238 | only the platform, device, image, build, palette buffer, spacing tasks, render, second finish, read and encoding steps can stop `main`; all stop it with EXIT_FAILURE except the encoding, which gives EXIT_SUCCESS |
| RenderMain.StepFacts | src/render.cpp:24-238 | only a failed build issues a closing command (the build-log write, :89-100); steps whose status is never received or tested always pass; a step that stops `main` with EXIT_FAILURE does so only on a fatal status |
| RenderMain.Acquire | src/render.cpp:24-79 | stops with EXIT_FAILURE exactly when there is no platform, no device or no image; the guards on `err` never fire and `m_err` has no effect; otherwise the first six steps pass |
| RenderMain.Build | src/render.cpp:80-117 | stops with EXIT_FAILURE exactly when the build or the palette buffer fails; a build failure writes the log first; otherwise steps up to the palette buffer pass and the palette size equals the image width |
| RenderMain.CreateKernels | src/render.cpp:119-143 | the two coordinate buffers and the three kernels with their arguments are issued, none checked, and `main` reaches the queue work |
| RenderMain.Dispatch | src/render.cpp:145-199 | stops with EXIT_FAILURE exactly when a spacing task, the render kernel or the second finish fails; fill and first-finish failures go on |
| RenderMain.Deliver | src/render.cpp:203-237 | a failed read exits with EXIT_FAILURE; otherwise the device image is copied and encoded, and the exit code is EXIT_SUCCESS even when the encoding fails |
| RenderMain.Run | src/render.cpp:24-238 | the commands and exit code are the table's; EXIT_FAILURE exactly on a fatal status, EXIT_SUCCESS otherwise; a clean run issues every command, and a failed encoding every command but the unload |
| RenderMain.QueueCommandOrder | src/render.cpp:146-226 | after set-up come fill (white over size×size×1), the two spacing tasks, finish, the size×size render kernel, finish, the blocking read and the encoding of the pixels read back |
| RenderMain.SpacingOrder | src/render.cpp:155-174 | fill, even_re task, even_im task, finish come in that order |
| RenderMain.RenderOrder | src/render.cpp:181-226 | the render kernel, finish, the blocking read and the encoding come in that order |
| RenderMain.AcquirePasses | src/render.cpp:24-79 | with a platform, a device and an image, `main` reaches the program build |
| RenderMain.SetupPasses | src/render.cpp:24-143 | without a set-up failure, `main` reaches the queue work |
| RenderMain.QueueFailureStops | src/render.cpp:160-211 | a failing spacing task, render kernel, second finish or read ends `main` with EXIT_FAILURE right after that command; nothing later is issued |
| RenderMain.DifferOnlyAtHarmless | src/render.cpp:158-181 | environments that differ only in a continuing step's status give the same outcome |
| RenderMain.FillStatusIgnored | src/render.cpp:158-160 | the fill status never changes the outcome |
| RenderMain.FirstFinishReportedOnly | src/render.cpp:174-181 | a failing first finish never changes the outcome; the render kernel is still enqueued |
| RenderMain.ImageSupportIgnored | src/render.cpp:301-308 | a device without image support never changes the outcome |
| RenderMain.PaletteDecodeStatusIgnored | src/render.cpp:327-331 | the palette decoder's status never changes the outcome |
| RenderMain.EncodeFailureStillSucceeds | src/render.cpp:226-232 | a failed encoding ends with EXIT_SUCCESS after every command but the compiler unload |

## Left out

- OpenCL and lodepng are foreign libraries. Each call whose status `main`
  receives is an abstract command whose status is a field of `Environment`,
  as are the outputs (the build log, the decoded palette, the pixels read
  back). Calls whose status is never received or tested (`get_context`, the
  queue, the two spacing buffers, the three `cl::Kernel` constructors and
  the compiler unload) always succeed. Each kernel's `setArg` calls are
  folded into its `CreateKernel` command, and the kernel-source read, the
  `cl::Program` construction and `getBuildInfo` into `BuildProgram` and
  `WriteBuildLog`. Decoding and encoding are not modelled.
- The kernels `render_image`, `even_re` and `even_im` are in
  `src/kernel.cl`, which is not part of this model. The pixels read back are
  an input.
- All console and file I/O is left out: the messages on standard output and
  standard error, the device list and prompt (the typed number is an input),
  and the device-info report in `check_device_info`. The build-log write is
  kept only as the `WriteBuildLog` command.
- `cleanup()` has an empty body, and `get_context` is a single library call.
  Neither is modelled beyond the `CreateContext` command.
- The default constructor `colormap::colormap()` is not modelled. It leaves
  the weight domain indeterminate.
- `src/julia_set.hpp` and `src/julia_set.cpp` are not part of this model.
  They hold no logic that main uses.
- Memory management is not modelled: the arrays `new`ed by `colormap()` and
  by `main` for the read-back image are never freed.
- Colormaps.ColorIndex: weights are reals, so double rounding of the
  division and product is not modelled. Exact results are claimed only where
  real arithmetic decides them.
- Colormaps.ColorIndex: it requires `weightMin != weightMax`. With an empty
  domain the source divides by zero, giving an infinity or NaN, whose
  conversion to `int` is undefined in C++.
- Colormaps.ColorIndex: `color_index` is a 32-bit `int`, and converting a
  scaled weight outside its range is undefined in C++. The model's index is
  unbounded, so IndexPastMax and IndexMonotone hold for the source only
  while the scaled weight fits in an `int`.
- Colormaps.Colormap.GrayscaleToColor: it requires the index to be in
  bounds. Outside the bounds the code reads past `cmap`, which C++ leaves
  undefined.
- Colormaps.Colormap.Analyze: it takes the decoded image, its width and the
  decode status as parameters instead of decoding `filename`. `i` is a
  signed `int`, so `i * 4` overflows, with undefined behaviour, once `i`
  reaches 2^29. The model's unbounded integers do not capture this.
- Render.Colormap: its loop counter and `image[i * 4]` use unbounded
  integers, so `unsigned int` wrap-around is not modelled.
- Render.CopyToOutput: it requires size*size*4 to fit the 32-bit
  `unsigned int` counter. Otherwise the counter cannot reach the bound and
  the source loop never ends.
- RenderMain.Run: it requires a typed device number within the device list,
  a palette image holding its whole first row, and a read-back image of
  size*size*4 bytes. The source assumes each of these without checking.
- RenderMain.Run: `main` is split into five methods (`Acquire`, `Build`,
  `CreateKernels`, `Dispatch`, `Deliver`) so that each proof stays small. Each phase takes
  the commands issued so far and returns them extended.

## Findings

| source | as written | input that shows it | evidently intended | confidence | as-written member | corrected member |
|---|---|---|---|---|---|---|
| src/colormap.cpp:40-42 | the index `(weight - weight_min) / (weight_max - weight_min) * cmap.size()` is used without a clamp | `weight == weight_max` with any non-empty palette reads `cmap[cmap.size()]`, one past the end | the index clamped to `[0, cmap.size() - 1]`, so every weight yields a palette colour and `weight_max` the last one | high; not executed | Colormaps.IndexAtMax | Colormaps.Colormap.ClampedColor |
