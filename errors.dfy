// The engine-wide error type, its `Display` texts, `source()` and the `From` conversions.
// A parser for the displayed text is the partner of `Display`: for every error whose
// fields cannot be confused with the separators, the text determines the error.
module Errors {
  import opened Wrappers

  /** `std::io::Error`, represented by the text its own `Display` prints. */
  datatype IoError = IoError(text: string)

  datatype ConfigError =
    | ConfigFileNotFound(path: string)
    | ConfigParseError(msg: string)
    | MissingField(field: string)
    | InvalidValue(field: string, reason: string)

  datatype GraphicsError =
    | DeviceCreation(msg: string)
    | SwapchainError(msg: string)
    | ShaderCompilation(msg: string)
    | ResourceCreation(msg: string)
    | CommandExecution(msg: string)

  datatype MeshLoadError =
    | MeshFileNotFound(path: string)
    | UnsupportedFormat(msg: string)
    | MeshParseError(msg: string)
    | ValidationError(msg: string)
    | InvalidGeometry(msg: string)
    | ExternalLibraryError(msg: string)

  datatype DistRenderError =
    | Config(config: ConfigError)
    | Graphics(graphics: GraphicsError)
    | MeshLoading(mesh: MeshLoadError)
    | Io(io: IoError)
    | Log(msg: string)
    | Initialization(msg: string)
    | Runtime(msg: string)

  // ---------------------------------------------------------------- Display

  function ConfigErrorText(e: ConfigError): string {
    match e
    case ConfigFileNotFound(p) => "Config file not found: " + p
    case ConfigParseError(m) => "Failed to parse config: " + m
    case MissingField(f) => "Missing required field: " + f
    case InvalidValue(f, r) => "Invalid value for '" + f + "': " + r
  }

  function GraphicsErrorText(e: GraphicsError): string {
    match e
    case DeviceCreation(m) => "Device creation failed: " + m
    case SwapchainError(m) => "Swapchain error: " + m
    case ShaderCompilation(m) => "Shader compilation failed: " + m
    case ResourceCreation(m) => "Resource creation failed: " + m
    case CommandExecution(m) => "Command execution failed: " + m
  }

  function MeshLoadErrorText(e: MeshLoadError): string {
    match e
    case MeshFileNotFound(p) => "Mesh file not found: " + p
    case UnsupportedFormat(m) => "Unsupported mesh format: " + m
    case MeshParseError(m) => "Failed to parse mesh: " + m
    case ValidationError(m) => "Mesh validation failed: " + m
    case InvalidGeometry(m) => "Invalid geometry data: " + m
    case ExternalLibraryError(m) => "External library error: " + m
  }

  function Display(e: DistRenderError): string {
    match e
    case Config(c) => "Configuration error: " + ConfigErrorText(c)
    case Graphics(g) => "Graphics error: " + GraphicsErrorText(g)
    case MeshLoading(m) => "Mesh loading error: " + MeshLoadErrorText(m)
    case Io(io) => "IO error: " + io.text
    case Log(m) => "Log error: " + m
    case Initialization(m) => "Initialization error: " + m
    case Runtime(m) => "Runtime error: " + m
  }

  /** `Error::source`: only an I/O error has an underlying cause. */
  function Source(e: DistRenderError): (r: Option<IoError>)
    ensures r.Some? <==> e.Io?
    ensures r.Some? ==> r.value == e.io
  {
    if e.Io? then Some(e.io) else None
  }

  // ---------------------------------------------------------------- From

  function FromIoError(e: IoError): (r: DistRenderError)
    ensures Source(r) == Some(e)
  {
    Io(e)
  }

  /** The `From` conversions of the three inner error types: none of them records a source. */
  function FromConfigError(e: ConfigError): (r: DistRenderError)
    ensures Source(r).None?
  {
    Config(e)
  }

  function FromGraphicsError(e: GraphicsError): (r: DistRenderError)
    ensures Source(r).None?
  {
    Graphics(e)
  }

  function FromMeshLoadError(e: MeshLoadError): (r: DistRenderError)
    ensures Source(r).None?
  {
    MeshLoading(e)
  }

  // ---------------------------------------------------------------- parsing the text back

  /** Index of the first occurrence of `c` in `s`, if any. */
  function FindChar(s: string, c: char): (r: Option<nat>)
    ensures r.Some? ==> r.value < |s| && s[r.value] == c && c !in s[..r.value]
    ensures r.None? ==> c !in s
  {
    if |s| == 0 then None
    else if s[0] == c then Some(0)
    else match FindChar(s[1..], c)
      case None => None
      case Some(i) =>
        assert s[..i + 1] == [s[0]] + s[1..][..i];
        Some(i + 1)
  }

  function ParseConfigErrorText(s: string): Option<ConfigError> {
    if "Config file not found: " <= s then Some(ConfigFileNotFound(s[23..]))
    else if "Failed to parse config: " <= s then Some(ConfigParseError(s[24..]))
    else if "Missing required field: " <= s then Some(MissingField(s[24..]))
    else if "Invalid value for '" <= s then
      var rest := s[19..];
      match FindChar(rest, '\'')
      case None => None
      case Some(i) =>
        if "': " <= rest[i..] then Some(InvalidValue(rest[..i], rest[i + 3..])) else None
    else None
  }

  function ParseGraphicsErrorText(s: string): Option<GraphicsError> {
    if "Device creation failed: " <= s then Some(DeviceCreation(s[24..]))
    else if "Swapchain error: " <= s then Some(SwapchainError(s[17..]))
    else if "Shader compilation failed: " <= s then Some(ShaderCompilation(s[27..]))
    else if "Resource creation failed: " <= s then Some(ResourceCreation(s[26..]))
    else if "Command execution failed: " <= s then Some(CommandExecution(s[26..]))
    else None
  }

  function ParseMeshLoadErrorText(s: string): Option<MeshLoadError> {
    if "Mesh file not found: " <= s then Some(MeshFileNotFound(s[21..]))
    else if "Unsupported mesh format: " <= s then Some(UnsupportedFormat(s[25..]))
    else if "Failed to parse mesh: " <= s then Some(MeshParseError(s[22..]))
    else if "Mesh validation failed: " <= s then Some(ValidationError(s[24..]))
    else if "Invalid geometry data: " <= s then Some(InvalidGeometry(s[23..]))
    else if "External library error: " <= s then Some(ExternalLibraryError(s[24..]))
    else None
  }

  function ParseDisplay(s: string): Option<DistRenderError> {
    if "Configuration error: " <= s then
      match ParseConfigErrorText(s[21..])
      case None => None
      case Some(c) => Some(Config(c))
    else if "Graphics error: " <= s then
      match ParseGraphicsErrorText(s[16..])
      case None => None
      case Some(g) => Some(Graphics(g))
    else if "Mesh loading error: " <= s then
      match ParseMeshLoadErrorText(s[20..])
      case None => None
      case Some(m) => Some(MeshLoading(m))
    else if "IO error: " <= s then Some(Io(IoError(s[10..])))
    else if "Log error: " <= s then Some(Log(s[11..]))
    else if "Initialization error: " <= s then Some(Initialization(s[22..]))
    else if "Runtime error: " <= s then Some(Runtime(s[15..]))
    else None
  }

  /** The only ambiguity of the texts: a field name of `InvalidValue` that contains a quote. */
  predicate Unambiguous(e: DistRenderError) {
    e.Config? && e.config.InvalidValue? ==> '\'' !in e.config.field
  }

  lemma Prefixed(p: string, m: string)
    ensures p <= p + m && (p + m)[|p|..] == m
  {
    assert (p + m)[..|p|] == p;
  }

  /** A prefix that differs from `q` at position `k` is not a prefix of `q + m`. */
  lemma NotPrefixed(p: string, q: string, m: string, k: nat)
    requires k < |p| && k < |q| && p[k] != q[k]
    ensures !(p <= q + m)
  {
  }

  lemma ConfigTextRoundTrip(c: ConfigError)
    requires c.InvalidValue? ==> '\'' !in c.field
    ensures ParseConfigErrorText(ConfigErrorText(c)) == Some(c)
  {
    var p1, p2, p3, p4 := "Config file not found: ", "Failed to parse config: ", "Missing required field: ", "Invalid value for '";
    match c
    case ConfigFileNotFound(p) =>
      Prefixed(p1, p);
    case ConfigParseError(m) =>
      NotPrefixed(p1, p2, m, 0);
      Prefixed(p2, m);
    case MissingField(f) =>
      NotPrefixed(p1, p3, f, 0);
      NotPrefixed(p2, p3, f, 0);
      Prefixed(p3, f);
    case InvalidValue(f, r) =>
      InvalidValueRoundTrip(f, r);
  }

  /** The field of `InvalidValue` ends at its first quote, so a field without one comes back. */
  lemma InvalidValueRoundTrip(f: string, r: string)
    requires '\'' !in f
    ensures ParseConfigErrorText(ConfigErrorText(InvalidValue(f, r))) == Some(InvalidValue(f, r))
  {
    var p1, p2, p3, p4 := "Config file not found: ", "Failed to parse config: ", "Missing required field: ", "Invalid value for '";
    var s := ConfigErrorText(InvalidValue(f, r));
    var tail := f + "': " + r;
    assert s == p4 + f + "': " + r;
    assert s == p4 + tail by {
      assert p4 + f + "': " + r == p4 + (f + "': " + r);
    }
    NotPrefixed(p1, p4, tail, 0);
    NotPrefixed(p2, p4, tail, 0);
    NotPrefixed(p3, p4, tail, 0);
    Prefixed(p4, tail);
    assert s[19..] == tail;
    FirstQuoteEndsField(f, r);
  }

  /** In `f': r` with no quote in `f`, the first quote ends `f` and `': ` follows it. */
  lemma FirstQuoteEndsField(f: string, r: string)
    requires '\'' !in f
    ensures var tail := f + "': " + r;
      FindChar(tail, '\'') == Some(|f|) && tail[..|f|] == f && "': " <= tail[|f|..] && tail[|f| + 3..] == r
  {
    var tail := f + "': " + r;
    assert tail[..|f|] == f;
    assert tail[|f|] == '\'';
    assert forall k :: 0 <= k < |f| ==> tail[k] == f[k];
    Prefixed("': ", r);
    assert tail[|f|..] == "': " + r;
  }

  lemma GraphicsTextRoundTrip(g: GraphicsError)
    ensures ParseGraphicsErrorText(GraphicsErrorText(g)) == Some(g)
  {
    var p1, p2, p3 := "Device creation failed: ", "Swapchain error: ", "Shader compilation failed: ";
    var p4, p5 := "Resource creation failed: ", "Command execution failed: ";
    match g
    case DeviceCreation(m) =>
      Prefixed(p1, m);
    case SwapchainError(m) =>
      NotPrefixed(p1, p2, m, 0);
      Prefixed(p2, m);
    case ShaderCompilation(m) =>
      NotPrefixed(p1, p3, m, 0);
      NotPrefixed(p2, p3, m, 1);
      Prefixed(p3, m);
    case ResourceCreation(m) =>
      NotPrefixed(p1, p4, m, 0);
      NotPrefixed(p2, p4, m, 0);
      NotPrefixed(p3, p4, m, 0);
      Prefixed(p4, m);
    case CommandExecution(m) =>
      NotPrefixed(p1, p5, m, 0);
      NotPrefixed(p2, p5, m, 0);
      NotPrefixed(p3, p5, m, 0);
      NotPrefixed(p4, p5, m, 0);
      Prefixed(p5, m);
  }

  lemma MeshTextRoundTrip(e: MeshLoadError)
    ensures ParseMeshLoadErrorText(MeshLoadErrorText(e)) == Some(e)
  {
    var p1, p2, p3 := "Mesh file not found: ", "Unsupported mesh format: ", "Failed to parse mesh: ";
    var p4, p5, p6 := "Mesh validation failed: ", "Invalid geometry data: ", "External library error: ";
    match e
    case MeshFileNotFound(m) =>
      Prefixed(p1, m);
    case UnsupportedFormat(m) =>
      NotPrefixed(p1, p2, m, 0);
      Prefixed(p2, m);
    case MeshParseError(m) =>
      NotPrefixed(p1, p3, m, 0);
      NotPrefixed(p2, p3, m, 0);
      Prefixed(p3, m);
    case ValidationError(m) =>
      NotPrefixed(p1, p4, m, 5);
      NotPrefixed(p2, p4, m, 0);
      NotPrefixed(p3, p4, m, 0);
      Prefixed(p4, m);
    case InvalidGeometry(m) =>
      NotPrefixed(p1, p5, m, 0);
      NotPrefixed(p2, p5, m, 0);
      NotPrefixed(p3, p5, m, 0);
      NotPrefixed(p4, p5, m, 0);
      Prefixed(p5, m);
    case ExternalLibraryError(m) =>
      NotPrefixed(p1, p6, m, 0);
      NotPrefixed(p2, p6, m, 0);
      NotPrefixed(p3, p6, m, 0);
      NotPrefixed(p4, p6, m, 0);
      NotPrefixed(p5, p6, m, 0);
      Prefixed(p6, m);
  }

  /** The displayed text of an error determines the error. */
  lemma DisplayRoundTrip(e: DistRenderError)
    requires Unambiguous(e)
    ensures ParseDisplay(Display(e)) == Some(e)
  {
    if e.Config? || e.Graphics? || e.MeshLoading? {
      NestedDisplayRoundTrip(e);
    } else {
      PlainDisplayRoundTrip(e);
    }
  }

  lemma NestedDisplayRoundTrip(e: DistRenderError)
    requires Unambiguous(e) && (e.Config? || e.Graphics? || e.MeshLoading?)
    ensures ParseDisplay(Display(e)) == Some(e)
  {
    var p1, p2, p3 := "Configuration error: ", "Graphics error: ", "Mesh loading error: ";
    match e
    case Config(c) =>
      Prefixed(p1, ConfigErrorText(c));
      ConfigTextRoundTrip(c);
    case Graphics(g) =>
      NotPrefixed(p1, p2, GraphicsErrorText(g), 0);
      Prefixed(p2, GraphicsErrorText(g));
      GraphicsTextRoundTrip(g);
    case MeshLoading(m) =>
      NotPrefixed(p1, p3, MeshLoadErrorText(m), 0);
      NotPrefixed(p2, p3, MeshLoadErrorText(m), 0);
      Prefixed(p3, MeshLoadErrorText(m));
      MeshTextRoundTrip(m);
  }

  lemma PlainDisplayRoundTrip(e: DistRenderError)
    requires !(e.Config? || e.Graphics? || e.MeshLoading?)
    ensures ParseDisplay(Display(e)) == Some(e)
  {
    var p1, p2, p3, p4 := "Configuration error: ", "Graphics error: ", "Mesh loading error: ", "IO error: ";
    var p5, p6, p7 := "Log error: ", "Initialization error: ", "Runtime error: ";
    match e
    case Io(io) =>
      NotPrefixed(p1, p4, io.text, 0);
      NotPrefixed(p2, p4, io.text, 0);
      NotPrefixed(p3, p4, io.text, 0);
      Prefixed(p4, io.text);
    case Log(m) =>
      NotPrefixed(p1, p5, m, 0);
      NotPrefixed(p2, p5, m, 0);
      NotPrefixed(p3, p5, m, 0);
      NotPrefixed(p4, p5, m, 0);
      Prefixed(p5, m);
    case Initialization(m) =>
      NotPrefixed(p1, p6, m, 0);
      NotPrefixed(p2, p6, m, 0);
      NotPrefixed(p3, p6, m, 0);
      NotPrefixed(p4, p6, m, 1);
      NotPrefixed(p5, p6, m, 0);
      Prefixed(p6, m);
    case Runtime(m) =>
      NotPrefixed(p1, p7, m, 0);
      NotPrefixed(p2, p7, m, 0);
      NotPrefixed(p3, p7, m, 0);
      NotPrefixed(p4, p7, m, 0);
      NotPrefixed(p5, p7, m, 0);
      NotPrefixed(p6, p7, m, 0);
      Prefixed(p7, m);
  }

  /** Two errors with the same text are the same error. */
  lemma DisplayInjective(e1: DistRenderError, e2: DistRenderError)
    requires Unambiguous(e1) && Unambiguous(e2)
    requires Display(e1) == Display(e2)
    ensures e1 == e2
  {
    DisplayRoundTrip(e1);
    DisplayRoundTrip(e2);
  }

  /** The `From` conversions keep the payload: the wrapped error reads back unchanged. */
  lemma FromConversionsKeepPayload(c: ConfigError, g: GraphicsError, m: MeshLoadError)
    requires c.InvalidValue? ==> '\'' !in c.field
    ensures ParseDisplay(Display(FromConfigError(c))) == Some(Config(c))
    ensures ParseDisplay(Display(FromGraphicsError(g))) == Some(Graphics(g))
    ensures ParseDisplay(Display(FromMeshLoadError(m))) == Some(MeshLoading(m))
  {
    DisplayRoundTrip(FromConfigError(c));
    DisplayRoundTrip(FromGraphicsError(g));
    DisplayRoundTrip(FromMeshLoadError(m));
  }
}
