/**
  The host program `main`: it picks a platform and a device, creates the
  OpenCL objects, builds the kernels, uploads the palette, then queues
  fill, the two spacing tasks, a finish, the render kernel, a finish and a
  blocking read, copies the image and encodes it as a PNG.

  Every OpenCL and lodepng call is an abstract command whose status comes
  from an `Environment`. `Steps` is the program as a table (which command,
  whether its status is good, what a bad status does) and `Run` is the
  program itself, step by step with early returns, in five phases
  (`Acquire`, `Build`, `CreateKernels`, `Dispatch`, `Deliver`); `Run` is proved to produce
  exactly the outcome `Trace.Interpret` gives for the table.
 */
module RenderMain {
  import opened CTypes
  import opened Trace
  import Render

  /** The image is `size` by `size` pixels, with `size` fixed at 3000. */
  const Size: nat := 3000

  const KernelSourcePath := "src/kernel.cl"
  const BuildLogPath := "kernel_build_log.txt"
  const PalettePath := "colormaps/autumn.png"
  const OutputPath := "test.png"

  /** The fractal parameters: centre, zoom and the constant c. */
  const CenterRe: real := 0.0
  const CenterIm: real := 0.0
  const Zoom: real := 1.0
  const CRe: real := 0.0
  const CIm: real := 0.64

  /** A three-component origin or region, as `cl::size_t<3>`. */
  datatype Extent = Extent(d0: nat, d1: nat, d2: nat)

  const Origin := Extent(0, 0, 0)
  const Region := Extent(Size, Size, 1)
  const White := Render.ClUint4(255, 255, 255, 255)

  datatype Kernel = RenderImage | EvenRe | EvenIm

  datatype MemObject = Image | BufferRe | BufferIm | CmapBuf

  datatype KernelArg = MemArg(mem: MemObject) | UintArg(u: nat) | FloatArg(f: real)

  /** The commands the host issues, in the order of their first appearance. */
  datatype Command =
    | GetPlatforms
    | GetDevices(platform: nat)
    | CreateContext(device: nat)
    | CreateQueue(device: nat)
    | QueryDeviceInfo(device: nat)
    | CreateImage(width: nat, height: nat)
    | BuildProgram(sourcePath: string)
    | WriteBuildLog(logPath: string, log: string)
    | DecodePalette(palettePath: string)
    | CreateColormapBuffer(entries: seq<Render.ClUint4>)
    | CreateBuffer(buffer: MemObject, floats: nat)
    | CreateKernel(kernel: Kernel, args: seq<KernelArg>)
    | FillImage(color: Render.ClUint4, origin: Extent, region: Extent)
    | EnqueueTask(task: Kernel)
    | Finish
    | EnqueueNDRange(ndKernel: Kernel, globalX: nat, globalY: nat)
    | ReadImage(blocking: bool, readOrigin: Extent, readRegion: Extent)
    | EncodePng(outputPath: string, data: seq<uint8>, pngWidth: nat, pngHeight: nat)
    | UnloadCompiler

  /**
    Everything the outside world decides: what the platform and device
    queries find, what the user types at the device prompt, the status of
    every call, the build log, the decoded palette image and the pixels the
    device hands back.
   */
  datatype Environment = Environment(
    platformCount: nat,
    deviceCount: nat,
    typedDevice: nat,
    imageSupport: bool,
    imageStatus: int,
    buildStatus: int,
    buildLog: string,
    paletteDecodeError: nat,
    palette: seq<uint8>,
    paletteWidth: nat,
    cmapBufferStatus: int,
    fillStatus: int,
    evenReStatus: int,
    evenImStatus: int,
    firstFinishStatus: int,
    renderStatus: int,
    secondFinishStatus: int,
    readStatus: int,
    deviceImage: seq<uint8>,
    encodeError: nat)

  /**
    What the source relies on without checking: a typed device number
    within the list (it indexes the vector unchecked), a palette image
    holding the whole first row, and a read that delivers
    `size * size * 4` bytes.
   */
  predicate WellFormed(env: Environment)
  {
    && (env.deviceCount > 1 ==> env.typedDevice < env.deviceCount)
    && 4 * env.paletteWidth <= |env.palette|
    && |env.deviceImage| == Size * Size * 4
  }

  /** The set-up failures that make `main` give up with EXIT_FAILURE. */
  predicate SetupFails(env: Environment)
  {
    || env.platformCount == 0
    || env.deviceCount == 0
    || env.imageStatus != ClSuccess
    || env.buildStatus != ClSuccess
    || env.cmapBufferStatus != ClSuccess
  }

  /** The queue failures that make `main` give up with EXIT_FAILURE. */
  predicate QueueFails(env: Environment)
  {
    || env.evenReStatus != ClSuccess
    || env.evenImStatus != ClSuccess
    || env.renderStatus != ClSuccess
    || env.secondFinishStatus != ClSuccess
    || env.readStatus != ClSuccess
  }

  /** Every status that makes `main` give up with EXIT_FAILURE. */
  predicate Fatal(env: Environment)
  {
    SetupFails(env) || QueueFails(env)
  }

  function RenderArgs(cmapSize: nat): seq<KernelArg>
  {
    [MemArg(Image), MemArg(BufferRe), MemArg(BufferIm), MemArg(CmapBuf), UintArg(cmapSize), FloatArg(CRe), FloatArg(CIm)]
  }

  function SpacingArgs(center: real, buffer: MemObject): seq<KernelArg>
  {
    [FloatArg(center), FloatArg(Zoom), FloatArg(Size as real), MemArg(buffer)]
  }

  /** The device `get_device` settles on (only used once it did not exit). */
  function ChosenDevice(env: Environment): nat
  {
    var s := Render.GetDevice(env.deviceCount, env.typedDevice);
    if s.Use? then s.index else 0
  }

  /**
    `main` as a table. A step whose status the source never receives, or
    never tests, is always good; a reported-only or overwritten status
    continues; every other bad status stops the program.
   */
  function Steps(env: Environment): (steps: seq<Step<Command>>)
    requires WellFormed(env)
    ensures |steps| == StepCount
  {
    seq(StepCount, k requires 0 <= k < StepCount => StepAt(env, k))
  }

  /** The table has 23 steps; the queue work starts at step 14, the fill. */
  const StepCount: nat := 23
  const QueueStart: nat := 14

  /** `main` got through the first `k` steps of the table, having issued `trace`. */
  predicate Reached(env: Environment, trace: seq<Command>, k: nat)
    requires WellFormed(env) && k <= StepCount
  {
    Passes(Steps(env), k) && trace == Issued(Steps(env), k)
  }

  /** The steps whose failure makes `main` return. */
  predicate StoppingStep(k: nat)
  {
    k == 0 || k == 1 || k == 5 || k == 6 || k == 8 || k == 15 || k == 16 || k == 18 || k == 19 || k == 20 || k == 21
  }

  /** The steps whose status the source never receives or never tests. */
  predicate UncheckedStep(k: nat)
  {
    k == 2 || k == 3 || k == 9 || k == 10 || k == 11 || k == 12 || k == 13 || k == 22
  }

  /**
    Step `k` of the table. Only the steps `StoppingStep` names can stop
    `main`, all with EXIT_FAILURE except the encoding, which stops it with
    EXIT_SUCCESS.
   */
  function StepAt(env: Environment, k: nat): (s: Step<Command>)
    requires WellFormed(env) && k < StepCount
    ensures s.onFailure.Abort? <==> StoppingStep(k)
    ensures s.onFailure.Abort? ==> s.onFailure.exitCode == (if k == 21 then ExitSuccess else ExitFailure)
  {
    var device := ChosenDevice(env);
    var entries := Render.ColormapEntries(env.palette, env.paletteWidth);
    if k == 0 then Step(GetPlatforms, env.platformCount > 0, Abort(ExitFailure, []))
    else if k == 1 then Step(GetDevices(0), env.deviceCount > 0, Abort(ExitFailure, []))
    else if k == 2 then Step(CreateContext(device), true, Continue)
    else if k == 3 then Step(CreateQueue(device), true, Continue)
    else if k == 4 then Step(QueryDeviceInfo(device), env.imageSupport, Continue)
    else if k == 5 then Step(CreateImage(Size, Size), env.imageStatus == ClSuccess, Abort(ExitFailure, []))
    else if k == 6 then Step(BuildProgram(KernelSourcePath), env.buildStatus == ClSuccess, Abort(ExitFailure, [WriteBuildLog(BuildLogPath, env.buildLog)]))
    else if k == 7 then Step(DecodePalette(PalettePath), env.paletteDecodeError == 0, Continue)
    else if k == 8 then Step(CreateColormapBuffer(entries), env.cmapBufferStatus == ClSuccess, Abort(ExitFailure, []))
    else if k == 9 then Step(CreateBuffer(BufferRe, Size), true, Continue)
    else if k == 10 then Step(CreateBuffer(BufferIm, Size), true, Continue)
    else if k == 11 then Step(CreateKernel(RenderImage, RenderArgs(env.paletteWidth)), true, Continue)
    else if k == 12 then Step(CreateKernel(EvenRe, SpacingArgs(CenterRe, BufferRe)), true, Continue)
    else if k == 13 then Step(CreateKernel(EvenIm, SpacingArgs(CenterIm, BufferIm)), true, Continue)
    else if k == 14 then Step(FillImage(White, Origin, Region), env.fillStatus == ClSuccess, Continue)
    else if k == 15 then Step(EnqueueTask(EvenRe), env.evenReStatus == ClSuccess, Abort(ExitFailure, []))
    else if k == 16 then Step(EnqueueTask(EvenIm), env.evenImStatus == ClSuccess, Abort(ExitFailure, []))
    else if k == 17 then Step(Finish, env.firstFinishStatus == ClSuccess, Continue)
    else if k == 18 then Step(EnqueueNDRange(RenderImage, Size, Size), env.renderStatus == ClSuccess, Abort(ExitFailure, []))
    else if k == 19 then Step(Finish, env.secondFinishStatus == ClSuccess, Abort(ExitFailure, []))
    else if k == 20 then Step(ReadImage(true, Origin, Region), env.readStatus == ClSuccess, Abort(ExitFailure, []))
    else if k == 21 then Step(EncodePng(OutputPath, env.deviceImage, Size, Size), env.encodeError == 0, Abort(ExitSuccess, []))
    else Step(UnloadCompiler, true, Continue)
  }

  /**
    Steps 0 to 5 of `main`: platform, device, context, queue, the device
    check and the image. `stopped` says that `main` returned here. The
    checks after platform, device and context acquisition test `err`,
    which nothing has assigned since it was set to CL_SUCCESS, so they never
    fire; the missing-image-support flag is written to `mErr` and never read.
   */
  method Acquire(env: Environment) returns (trace: seq<Command>, exitCode: int, stopped: bool)
    requires WellFormed(env)
    ensures stopped <==> env.platformCount == 0 || env.deviceCount == 0 || env.imageStatus != ClSuccess
    ensures stopped ==> exitCode == ExitFailure && Outcome(trace, exitCode) == Interpret(Steps(env))
    ensures !stopped ==> Reached(env, trace, 6)
  {
    ghost var steps := Steps(env);
    var err := ClSuccess;
    var mErr := 0;
    trace := [];
    exitCode := ExitFailure;
    stopped := true;

    Issue(steps, trace, 0);
    trace := trace + [GetPlatforms];
    var platform := Render.GetPlatform(env.platformCount);
    if platform.ExitProcess? {
      Halt(steps, trace, 0);
      return;
    }
    Advance(steps, 0);
    if err != ClSuccess {
      return;
    }

    Issue(steps, trace, 1);
    trace := trace + [GetDevices(platform.index)];
    var device := Render.GetDevice(env.deviceCount, env.typedDevice);
    if device.ExitProcess? {
      Halt(steps, trace, 1);
      return;
    }
    Advance(steps, 1);
    if err != ClSuccess {
      return;
    }

    Issue(steps, trace, 2);
    trace := trace + [CreateContext(device.index)];
    Advance(steps, 2);
    if err != ClSuccess {
      return;
    }
    Issue(steps, trace, 3);
    trace := trace + [CreateQueue(device.index)];
    Advance(steps, 3);

    Issue(steps, trace, 4);
    trace := trace + [QueryDeviceInfo(device.index)];
    if !env.imageSupport {
      mErr := 1;
    }
    Advance(steps, 4);

    Issue(steps, trace, 5);
    trace := trace + [CreateImage(Size, Size)];
    err := env.imageStatus;
    if err != ClSuccess {
      Halt(steps, trace, 5);
      return;
    }
    Advance(steps, 5);
    stopped := false;
  }

  /**
    Steps 6 to 8 of `main`: the program build (a failure writes the build
    log before giving up), the palette and its buffer. The palette's decode
    status is not looked at. `cmapSize` is the palette size `colormap()`
    reports.
   */
  method Build(env: Environment, before: seq<Command>)
    returns (trace: seq<Command>, exitCode: int, stopped: bool, cmapSize: nat)
    requires WellFormed(env) && Reached(env, before, 6)
    ensures stopped <==> env.buildStatus != ClSuccess || env.cmapBufferStatus != ClSuccess
    ensures stopped ==> exitCode == ExitFailure && Outcome(trace, exitCode) == Interpret(Steps(env))
    ensures !stopped ==> Reached(env, trace, 9) && cmapSize == env.paletteWidth
  {
    ghost var steps := Steps(env);
    var err: int;
    trace := before;
    exitCode := ExitFailure;
    stopped := true;
    cmapSize := 0;

    Issue(steps, trace, 6);
    trace := trace + [BuildProgram(KernelSourcePath)];
    if env.buildStatus != ClSuccess {
      Halt(steps, trace, 6);
      trace := trace + [WriteBuildLog(BuildLogPath, env.buildLog)];
      return;
    }
    Advance(steps, 6);

    Issue(steps, trace, 7);
    trace := trace + [DecodePalette(PalettePath)];
    Advance(steps, 7);
    var cmap;
    cmap, cmapSize := Render.Colormap(env.palette, env.paletteWidth);
    Issue(steps, trace, 8);
    trace := trace + [CreateColormapBuffer(cmap[..])];
    err := env.cmapBufferStatus;
    if err != ClSuccess {
      Halt(steps, trace, 8);
      return;
    }
    Advance(steps, 8);
    stopped := false;
  }

  /**
    Steps 9 to 13 of `main`: the two coordinate buffers and the three
    kernels with their arguments. None of these statuses is checked.
   */
  method CreateKernels(env: Environment, before: seq<Command>, cmapSize: nat) returns (trace: seq<Command>)
    requires WellFormed(env) && Reached(env, before, 9) && cmapSize == env.paletteWidth
    ensures Reached(env, trace, QueueStart)
  {
    ghost var steps := Steps(env);
    trace := before;
    Issue(steps, trace, 9);
    trace := trace + [CreateBuffer(BufferRe, Size)];
    Advance(steps, 9);
    Issue(steps, trace, 10);
    trace := trace + [CreateBuffer(BufferIm, Size)];
    Advance(steps, 10);
    Issue(steps, trace, 11);
    trace := trace + [CreateKernel(RenderImage, RenderArgs(cmapSize))];
    Advance(steps, 11);
    Issue(steps, trace, 12);
    trace := trace + [CreateKernel(EvenRe, SpacingArgs(CenterRe, BufferRe))];
    Advance(steps, 12);
    Issue(steps, trace, 13);
    trace := trace + [CreateKernel(EvenIm, SpacingArgs(CenterIm, BufferIm))];
    Advance(steps, 13);
  }

  /**
    Steps 14 to 19 of `main`: fill, the two spacing tasks, a finish, the
    render kernel and a second finish. The fill status is overwritten before
    anything reads it, and a failing first finish is only reported.
   */
  method Dispatch(env: Environment, before: seq<Command>) returns (trace: seq<Command>, exitCode: int, stopped: bool)
    requires WellFormed(env) && Reached(env, before, QueueStart)
    ensures stopped <==>
      || env.evenReStatus != ClSuccess || env.evenImStatus != ClSuccess
      || env.renderStatus != ClSuccess || env.secondFinishStatus != ClSuccess
    ensures stopped ==> exitCode == ExitFailure && Outcome(trace, exitCode) == Interpret(Steps(env))
    ensures !stopped ==> Reached(env, trace, 20)
  {
    ghost var steps := Steps(env);
    var err: int;
    trace := before;
    exitCode := ExitFailure;
    stopped := true;
    var origin := Extent(0, 0, 0);
    var region := Extent(Size, Size, 1);
    var colorInit := Render.ClUint4(255, 255, 255, 255);

    Issue(steps, trace, 14);
    trace := trace + [FillImage(colorInit, origin, region)];
    err := env.fillStatus;
    Advance(steps, 14);

    Issue(steps, trace, 15);
    trace := trace + [EnqueueTask(EvenRe)];
    err := env.evenReStatus;
    if err != ClSuccess {
      Halt(steps, trace, 15);
      return;
    }
    Advance(steps, 15);

    Issue(steps, trace, 16);
    trace := trace + [EnqueueTask(EvenIm)];
    err := env.evenImStatus;
    if err != ClSuccess {
      Halt(steps, trace, 16);
      return;
    }
    Advance(steps, 16);

    Issue(steps, trace, 17);
    trace := trace + [Finish];
    err := env.firstFinishStatus;
    Advance(steps, 17);

    Issue(steps, trace, 18);
    trace := trace + [EnqueueNDRange(RenderImage, Size, Size)];
    err := env.renderStatus;
    if err != ClSuccess {
      Halt(steps, trace, 18);
      return;
    }
    Advance(steps, 18);

    Issue(steps, trace, 19);
    trace := trace + [Finish];
    err := env.secondFinishStatus;
    if err != ClSuccess {
      Halt(steps, trace, 19);
      return;
    }
    Advance(steps, 19);
    stopped := false;
  }

  /**
    Steps 20 to 22 of `main`: the blocking read into a fresh host buffer,
    the copy into the encoder's vector, the encoding and the compiler
    unload. An encoding error is printed and `main` still reports success.
   */
  method Deliver(env: Environment, before: seq<Command>) returns (trace: seq<Command>, exitCode: int)
    requires WellFormed(env) && Reached(env, before, 20)
    ensures Outcome(trace, exitCode) == Interpret(Steps(env))
    ensures exitCode == ExitFailure <==> env.readStatus != ClSuccess
    ensures exitCode == ExitSuccess <==> env.readStatus == ClSuccess
    ensures env.readStatus == ClSuccess && env.encodeError == 0 ==> trace == Issued(Steps(env), StepCount)
    ensures env.readStatus == ClSuccess && env.encodeError != 0 ==> trace == Issued(Steps(env), StepCount - 1)
  {
    ghost var steps := Steps(env);
    trace := before;
    var size := Size;
    var result := new uint8[size * size * 4];
    Issue(steps, trace, 20);
    trace := trace + [ReadImage(true, Extent(0, 0, 0), Extent(size, size, 1))];
    forall i | 0 <= i < result.Length {
      result[i] := env.deviceImage[i];
    }
    var err := env.readStatus;
    if err != ClSuccess {
      Halt(steps, trace, 20);
      return trace, ExitFailure;
    }
    Advance(steps, 20);

    var output := Render.CopyToOutput(result, size);
    assert output[..] == env.deviceImage;

    Issue(steps, trace, 21);
    trace := trace + [EncodePng(OutputPath, output[..], size, size)];
    if env.encodeError != 0 {
      Halt(steps, trace, 21);
      return trace, ExitSuccess;
    }
    Advance(steps, 21);

    Issue(steps, trace, 22);
    trace := trace + [UnloadCompiler];
    Advance(steps, 22);
    Complete(steps, trace);
    exitCode := ExitSuccess;
  }

  /**
    `main`: the outcome is the table's. It exits with EXIT_FAILURE exactly
    when a fatal status occurs and with EXIT_SUCCESS otherwise, even when
    the encoding fails; a fully successful run issues every command of the
    table, and one whose encoding fails all but the compiler unload.
   */
  method Run(env: Environment) returns (trace: seq<Command>, exitCode: int)
    requires WellFormed(env)
    ensures Outcome(trace, exitCode) == Interpret(Steps(env))
    ensures exitCode == ExitFailure <==> Fatal(env)
    ensures exitCode == ExitSuccess <==> !Fatal(env)
    ensures !Fatal(env) && env.encodeError == 0 ==> trace == Issued(Steps(env), StepCount)
    ensures !Fatal(env) && env.encodeError != 0 ==> trace == Issued(Steps(env), StepCount - 1)
  {
    var stopped;
    trace, exitCode, stopped := Acquire(env);
    if stopped {
      return;
    }
    var cmapSize;
    trace, exitCode, stopped, cmapSize := Build(env, trace);
    if stopped {
      return;
    }
    trace := CreateKernels(env, trace, cmapSize);
    trace, exitCode, stopped := Dispatch(env, trace);
    if stopped {
      return;
    }
    trace, exitCode := Deliver(env, trace);
  }

  /**
    The queue work of a run that gets through it, in order: the white
    fill over the whole size-by-size image, the two spacing tasks, a finish,
    the render kernel over size by size, a finish, the blocking read and the
    encoding of the pixels read back.
   */
  lemma QueueCommandOrder(env: Environment)
    requires WellFormed(env)
    ensures Issued(Steps(env), StepCount - 1) == Issued(Steps(env), QueueStart) + [
      FillImage(White, Extent(0, 0, 0), Extent(Size, Size, 1)),
      EnqueueTask(EvenRe), EnqueueTask(EvenIm), Finish,
      EnqueueNDRange(RenderImage, Size, Size), Finish,
      ReadImage(true, Extent(0, 0, 0), Extent(Size, Size, 1)),
      EncodePng(OutputPath, env.deviceImage, Size, Size)]
  {
    SpacingOrder(env);
    RenderOrder(env);
  }

  /** Steps 14 to 17: the fill, the two spacing tasks and a finish. */
  lemma SpacingOrder(env: Environment)
    requires WellFormed(env)
    ensures Issued(Steps(env), 18) == Issued(Steps(env), QueueStart) + [
      FillImage(White, Extent(0, 0, 0), Extent(Size, Size, 1)),
      EnqueueTask(EvenRe), EnqueueTask(EvenIm), Finish]
  {
    var steps := Steps(env);
    assert steps[14].command == FillImage(White, Extent(0, 0, 0), Extent(Size, Size, 1));
    assert steps[15].command == EnqueueTask(EvenRe);
    assert steps[16].command == EnqueueTask(EvenIm);
    assert steps[17].command == Finish;
    var setup := Issued(steps, QueueStart);
    assert Issued(steps, 16) == setup + [steps[14].command] + [steps[15].command];
    assert Issued(steps, 18) == setup + [steps[14].command] + [steps[15].command] + [steps[16].command] + [steps[17].command];
  }

  /** Steps 18 to 21: the render kernel, a finish, the read and the encoding. */
  lemma RenderOrder(env: Environment)
    requires WellFormed(env)
    ensures Issued(Steps(env), StepCount - 1) == Issued(Steps(env), 18) + [
      EnqueueNDRange(RenderImage, Size, Size), Finish,
      ReadImage(true, Extent(0, 0, 0), Extent(Size, Size, 1)),
      EncodePng(OutputPath, env.deviceImage, Size, Size)]
  {
    var steps := Steps(env);
    assert steps[18].command == EnqueueNDRange(RenderImage, Size, Size);
    assert steps[19].command == Finish;
    assert steps[20].command == ReadImage(true, Extent(0, 0, 0), Extent(Size, Size, 1));
    assert steps[21].command == EncodePng(OutputPath, env.deviceImage, Size, Size);
    var before := Issued(steps, 18);
    assert Issued(steps, 20) == before + [steps[18].command] + [steps[19].command];
    assert Issued(steps, 22) == before + [steps[18].command] + [steps[19].command] + [steps[20].command] + [steps[21].command];
  }

  /** Without a set-up failure, `main` reaches the queue work. */
  lemma SetupPasses(env: Environment)
    requires WellFormed(env) && !SetupFails(env)
    ensures Passes(Steps(env), QueueStart)
  {
    var steps := Steps(env);
    AcquirePasses(env);
    Advance(steps, 6); Advance(steps, 7); Advance(steps, 8); Advance(steps, 9);
    Advance(steps, 10); Advance(steps, 11); Advance(steps, 12); Advance(steps, 13);
  }

  /** With a platform, a device and an image, `main` reaches the program build. */
  lemma AcquirePasses(env: Environment)
    requires WellFormed(env)
    requires env.platformCount > 0 && env.deviceCount > 0 && env.imageStatus == ClSuccess
    ensures Passes(Steps(env), 6)
  {
    var steps := Steps(env);
    Advance(steps, 0); Advance(steps, 1); Advance(steps, 2);
    Advance(steps, 3); Advance(steps, 4); Advance(steps, 5);
  }

  /** The step of the first failing queue command, when one fails. */
  function QueueFailureAt(env: Environment): nat
  {
    if env.evenReStatus != ClSuccess then 15
    else if env.evenImStatus != ClSuccess then 16
    else if env.renderStatus != ClSuccess then 18
    else if env.secondFinishStatus != ClSuccess then 19
    else 20
  }

  /**
    A failing spacing task, render kernel, second finish or read ends `main`
    with EXIT_FAILURE right after that command: nothing later is issued,
    neither the following queue commands nor the encoding.
   */
  lemma QueueFailureStops(env: Environment)
    requires WellFormed(env) && !SetupFails(env) && QueueFails(env)
    ensures QueueFailureAt(env) + 1 < StepCount - 1
    ensures Interpret(Steps(env)) == Outcome(Issued(Steps(env), QueueFailureAt(env) + 1), ExitFailure)
  {
    var steps := Steps(env);
    var k := QueueFailureAt(env);
    SetupPasses(env);
    Advance(steps, 14);
    if k > 15 {
      Advance(steps, 15);
    }
    if k > 16 {
      Advance(steps, 16);
      Advance(steps, 17);
    }
    if k > 18 {
      Advance(steps, 18);
    }
    if k > 19 {
      Advance(steps, 19);
    }
    Halt(steps, Issued(steps, k + 1), k);
    assert Issued(steps, k + 1) + steps[k].onFailure.epilogue == Issued(steps, k + 1);
  }

  /**
    Only a failed build issues a closing command, the build-log write; a
    step the source does not check always passes; and a step that stops
    `main` with EXIT_FAILURE does so only on a fatal status.
   */
  lemma StepFacts(env: Environment, k: nat)
    requires WellFormed(env) && k < StepCount
    ensures StepAt(env, k).onFailure.Abort? && k != 6 ==> StepAt(env, k).onFailure.epilogue == []
    ensures k == 6 ==> StepAt(env, k).onFailure.epilogue == [WriteBuildLog(BuildLogPath, env.buildLog)]
    ensures UncheckedStep(k) ==> StepAt(env, k).ok
    ensures Aborts(StepAt(env, k)) && k != 21 ==> Fatal(env)
  {
  }

  /**
    `env` and `other` differ at most in the status of the step `i`, whose
    failures do not stop `main`.
   */
  predicate DifferOnlyAt(env: Environment, other: Environment, i: nat)
    requires WellFormed(env) && WellFormed(other) && i < StepCount
  {
    && StepAt(env, i).onFailure.Continue?
    && StepAt(env, i).(ok := true) == StepAt(other, i).(ok := true)
    && forall k :: 0 <= k < StepCount && k != i ==> StepAt(env, k) == StepAt(other, k)
  }

  /** Tables that differ only in a continuing step's status give the same outcome. */
  lemma DifferOnlyAtHarmless(env: Environment, other: Environment, i: nat)
    requires WellFormed(env) && WellFormed(other) && i < StepCount
    requires DifferOnlyAt(env, other, i)
    ensures Interpret(Steps(env)) == Interpret(Steps(other))
  {
    var steps, others := Steps(env), Steps(other);
    ContinuedFailureIsHarmless(steps, i);
    ContinuedFailureIsHarmless(others, i);
    assert steps[i := steps[i].(ok := true)] == others[i := others[i].(ok := true)];
  }

  /** The fill status is overwritten unread: it never changes the outcome. */
  lemma FillStatusIgnored(env: Environment, status: int)
    requires WellFormed(env)
    ensures Interpret(Steps(env.(fillStatus := status))) == Interpret(Steps(env))
  {
    DifferOnlyAtHarmless(env, env.(fillStatus := status), 14);
  }

  /** A failing first finish is only reported: the render kernel still follows. */
  lemma FirstFinishReportedOnly(env: Environment, status: int)
    requires WellFormed(env)
    ensures Interpret(Steps(env.(firstFinishStatus := status))) == Interpret(Steps(env))
  {
    DifferOnlyAtHarmless(env, env.(firstFinishStatus := status), 17);
  }

  /** A device without image support is only flagged in `m_err`, which nobody reads. */
  lemma ImageSupportIgnored(env: Environment, support: bool)
    requires WellFormed(env)
    ensures Interpret(Steps(env.(imageSupport := support))) == Interpret(Steps(env))
  {
    DifferOnlyAtHarmless(env, env.(imageSupport := support), 4);
  }

  /** The palette's decode status is never looked at. */
  lemma PaletteDecodeStatusIgnored(env: Environment, error: nat)
    requires WellFormed(env)
    ensures Interpret(Steps(env.(paletteDecodeError := error))) == Interpret(Steps(env))
  {
    DifferOnlyAtHarmless(env, env.(paletteDecodeError := error), 7);
  }

  /** A failed encoding still ends in EXIT_SUCCESS, after every command but the unload. */
  lemma EncodeFailureStillSucceeds(env: Environment)
    requires WellFormed(env) && !Fatal(env) && env.encodeError != 0
    ensures Interpret(Steps(env)) == Outcome(Issued(Steps(env), StepCount - 1), ExitSuccess)
  {
    var steps := Steps(env);
    SetupPasses(env);
    Advance(steps, 14); Advance(steps, 15); Advance(steps, 16); Advance(steps, 17);
    Advance(steps, 18); Advance(steps, 19); Advance(steps, 20);
    Halt(steps, Issued(steps, 22), 21);
    assert Issued(steps, 22) + steps[21].onFailure.epilogue == Issued(steps, 22);
  }
}
