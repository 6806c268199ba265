// Engine configuration: its defaults, the command-line overrides, and the checks a
// configuration must pass before the engine starts.
module Configuration {
  import opened Wrappers
  import opened Ints
  import opened Errors
  import Decimal

  datatype GraphicsBackend = Vulkan | Dx12 | Wgpu

  datatype LogLevel = Trace | Debug | Info | Warn | Error

  datatype WindowConfig = WindowConfig(width: u32, height: u32, title: string, resizable: bool)

  datatype GraphicsConfig = GraphicsConfig(backend: GraphicsBackend, vsync: bool, msaaSamples: u32)

  datatype LoggingConfig = LoggingConfig(level: LogLevel, fileOutput: bool, logFile: string)

  const DefaultWindow := WindowConfig(800, 600, "DistRender", true)
  const DefaultGraphics := GraphicsConfig(Vulkan, true, 1)
  const DefaultLogging := LoggingConfig(Info, false, "distrender.log")

  predicate IsDx12(b: GraphicsBackend) { b == Dx12 }
  predicate IsVulkan(b: GraphicsBackend) { b == Vulkan }
  predicate IsWgpu(b: GraphicsBackend) { b == Wgpu }

  /** `GraphicsBackend::name`. */
  function BackendName(b: GraphicsBackend): string {
    match b
    case Vulkan => "Vulkan"
    case Dx12 => "DirectX 12"
    case Wgpu => "wgpu"
  }

  /** Each backend answers exactly one of the three predicates, and backends have distinct names. */
  lemma BackendPredicatesPartition(b: GraphicsBackend, c: GraphicsBackend)
    ensures IsDx12(b) || IsVulkan(b) || IsWgpu(b)
    ensures !(IsDx12(b) && IsVulkan(b)) && !(IsDx12(b) && IsWgpu(b)) && !(IsVulkan(b) && IsWgpu(b))
    ensures BackendName(b) == BackendName(c) <==> b == c
  {
    if b != c {
      assert BackendName(b)[0] != BackendName(c)[0] || |BackendName(b)| != |BackendName(c)|;
    }
  }

  /** `args.iter().position(|a| a == flag)`. */
  function IndexOf(args: seq<string>, flag: string): (r: Option<nat>)
    ensures r.Some? ==> r.value < |args| && args[r.value] == flag
    ensures r.Some? ==> flag !in args[..r.value]
    ensures r.None? <==> flag !in args
  {
    if args == [] then None
    else if args[0] == flag then Some(0)
    else match IndexOf(args[1..], flag)
      case None => None
      case Some(i) =>
        assert args[..i + 1] == [args[0]] + args[1..][..i];
        Some(i + 1)
  }

  /** The backend `apply_args` leaves: `--dx12` selects DirectX 12, then `--wgpu` selects wgpu. */
  function BackendFromArgs(current: GraphicsBackend, args: seq<string>): GraphicsBackend {
    var afterDx12 := if "--dx12" in args then Dx12 else current;
    if "--wgpu" in args then Wgpu else afterDx12
  }

  /**
   * A window dimension after `apply_args`: the argument after the first `flag`, when there is
   * one and it parses as a u32; otherwise the current value.
   */
  function DimensionFromArgs(current: u32, args: seq<string>, flag: string): u32 {
    match IndexOf(args, flag)
    case None => current
    case Some(i) =>
      if i + 1 < |args| then
        match Decimal.ParseU32(args[i + 1])
        case Some(v) => v
        case None => current
      else current
  }

  /** `Config::validate`: the window dimensions first, then the MSAA sample count. */
  function ValidateSettings(window: WindowConfig, graphics: GraphicsConfig): Result<(), DistRenderError> {
    if window.width == 0 || window.height == 0 then
      Err(Config(InvalidValue("window.width/height", "Window dimensions must be greater than 0")))
    else if graphics.msaaSamples !in {1, 2, 4, 8, 16} then
      Err(Config(InvalidValue("graphics.msaa_samples", "MSAA samples must be 1, 2, 4, 8, or 16")))
    else Ok(())
  }

  class Config {
    var window: WindowConfig
    var graphics: GraphicsConfig
    var logging: LoggingConfig

    /** `Config::default`. */
    constructor Default()
      ensures window == DefaultWindow && graphics == DefaultGraphics && logging == DefaultLogging
    {
      window := DefaultWindow;
      graphics := DefaultGraphics;
      logging := DefaultLogging;
    }

    /** `apply_args`: only the backend and the window's width and height can change. */
    method ApplyArgs(args: seq<string>)
      modifies this
      ensures graphics == old(graphics).(backend := BackendFromArgs(old(graphics.backend), args))
      ensures window == old(window).(width := DimensionFromArgs(old(window.width), args, "--width"),
                                     height := DimensionFromArgs(old(window.height), args, "--height"))
      ensures logging == old(logging)
    {
      if "--dx12" in args {
        graphics := graphics.(backend := Dx12);
      }
      if "--wgpu" in args {
        graphics := graphics.(backend := Wgpu);
      }
      assert graphics == old(graphics).(backend := BackendFromArgs(old(graphics.backend), args));
      var w := IndexOf(args, "--width");
      if w.Some? && w.value + 1 < |args| {
        var parsed := Decimal.ParseU32(args[w.value + 1]);
        if parsed.Some? {
          window := window.(width := parsed.value);
        }
      }
      assert window.width == DimensionFromArgs(old(window.width), args, "--width");
      var h := IndexOf(args, "--height");
      if h.Some? && h.value + 1 < |args| {
        var parsed := Decimal.ParseU32(args[h.value + 1]);
        if parsed.Some? {
          window := window.(height := parsed.value);
        }
      }
    }

    function Validate(): Result<(), DistRenderError>
      reads this
    {
      ValidateSettings(window, graphics)
    }
  }

  /** `--wgpu` wins over `--dx12`; `--dx12` alone selects DirectX 12; neither keeps the backend. */
  lemma WgpuWinsOverDx12(current: GraphicsBackend, args: seq<string>)
    ensures "--wgpu" in args ==> BackendFromArgs(current, args) == Wgpu
    ensures "--dx12" in args && "--wgpu" !in args ==> BackendFromArgs(current, args) == Dx12
    ensures "--dx12" !in args && "--wgpu" !in args ==> BackendFromArgs(current, args) == current
  {
  }

  /** A flag followed by a formatted number sets that dimension to the number. */
  lemma DimensionFlagSetsValue(current: u32, before: seq<string>, flag: string, v: u32, after: seq<string>)
    requires flag !in before
    ensures DimensionFromArgs(current, before + [flag, Decimal.NatToString(v)] + after, flag) == v
  {
    var args := before + [flag, Decimal.NatToString(v)] + after;
    assert args == before + ([flag, Decimal.NatToString(v)] + after);
    FirstAt(before, [flag, Decimal.NatToString(v)] + after, flag);
    assert args[|before| + 1] == Decimal.NatToString(v);
    Decimal.ParseFormatRoundTrip(v);
  }

  /** A flag with nothing after it, or followed by a value that does not parse, changes nothing. */
  lemma DimensionFlagWithoutNumberKeepsValue(current: u32, before: seq<string>, flag: string, value: string, after: seq<string>)
    requires flag !in before && Decimal.ParseU32(value).None?
    ensures DimensionFromArgs(current, before + [flag], flag) == current
    ensures DimensionFromArgs(current, before + [flag, value] + after, flag) == current
  {
    FirstAt(before, [flag], flag);
    FirstAt(before, [flag, value] + after, flag);
    assert before + [flag, value] + after == before + ([flag, value] + after);
  }

  lemma FirstAt(before: seq<string>, rest: seq<string>, flag: string)
    requires flag !in before && rest != [] && rest[0] == flag
    ensures IndexOf(before + rest, flag) == Some(|before|)
  {
    var args := before + rest;
    assert args[..|before|] == before;
    assert args[|before|] == flag;
    assert args[..|before| + 1][|before|] == flag;
  }

  /** Applying the same arguments twice has the effect of applying them once. */
  lemma ApplyArgsIsIdempotent(b: GraphicsBackend, width: u32, args: seq<string>, flag: string)
    ensures BackendFromArgs(BackendFromArgs(b, args), args) == BackendFromArgs(b, args)
    ensures DimensionFromArgs(DimensionFromArgs(width, args, flag), args, flag) == DimensionFromArgs(width, args, flag)
  {
  }

  /**
   * `validate` accepts exactly the configurations with both dimensions positive and a sample
   * count of 1, 2, 4, 8 or 16; a zero dimension is reported even when the sample count is
   * also wrong.
   */
  lemma ValidateAcceptsExactly(window: WindowConfig, graphics: GraphicsConfig)
    ensures ValidateSettings(window, graphics).Ok? <==>
      window.width > 0 && window.height > 0 && graphics.msaaSamples in {1, 2, 4, 8, 16}
    ensures (window.width == 0 || window.height == 0) ==>
      ValidateSettings(window, graphics) == Err(Config(InvalidValue("window.width/height", "Window dimensions must be greater than 0")))
    ensures window.width > 0 && window.height > 0 && graphics.msaaSamples !in {1, 2, 4, 8, 16} ==>
      ValidateSettings(window, graphics) == Err(Config(InvalidValue("graphics.msaa_samples", "MSAA samples must be 1, 2, 4, 8, or 16")))
  {
  }

  /** The default configuration is valid; a zero width is not. */
  method DefaultScenario() returns (backend: GraphicsBackend, width: u32, height: u32,
                                    valid: Result<(), DistRenderError>, zeroWidth: Result<(), DistRenderError>)
    ensures backend == Vulkan && width == 800 && height == 600 && valid.Ok? && zeroWidth.Err?
  {
    var c := new Config.Default();
    backend, width, height := c.graphics.backend, c.window.width, c.window.height;
    valid := c.Validate();
    c.window := c.window.(width := 0);
    zeroWidth := c.Validate();
  }
}
