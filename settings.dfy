// src/settings.rs: the player's settings, their validation against what the
// engine was built with, their TOML text, and the settings store: `load` starts
// from the defaults and takes each key of the document on its own merits, and
// `save` writes the seven keys `load` reads. The TOML document is taken as a
// map from keys to values; reading and writing the file is not modelled. The
// lists of available sizes and backends, the default sizes and the names of the
// visual styles come from the engine's build and are parameters (`Build`).

module Settings {
  import opened Base
  import opened Text

  const MIN_WINDOW_WIDTH: int := 480
  const MAX_WINDOW_WIDTH: int := 5000
  const MIN_WINDOW_HEIGHT: int := 320
  const MAX_WINDOW_HEIGHT: int := 5000
  const DEFAULT_WINDOW_WIDTH: int := 1024
  const DEFAULT_WINDOW_HEIGHT: int := 768

  datatype VisualStyle = Graphical | Textual

  /** What the engine provides: the available text sizes, tile sizes and backends, the default sizes, and the names
      the visual styles are written as. */
  datatype Build = Build(
    textSizes: seq<int>, tileSizes: seq<int>, backends: seq<string>,
    defaultTextSize: int, defaultTileSize: int,
    graphicalName: string, textualName: string)

  datatype Settings = Settings(
    fullscreen: bool, visualStyle: VisualStyle, textSize: int, tileSize: int,
    windowWidth: int, windowHeight: int, backend: string)

  function StyleName(b: Build, style: VisualStyle): string
  {
    match style
    case Graphical => b.graphicalName
    case Textual => b.textualName
  }

  /** The default backend: "glutin" when the engine has it, otherwise its first backend, otherwise "none". */
  function DefaultBackend(b: Build): (name: string)
    ensures name in b.backends || (b.backends == [] && name == "none")
    ensures "glutin" in b.backends ==> name == "glutin"
  {
    if "glutin" in b.backends then "glutin"
    else if b.backends != [] then b.backends[0]
    else "none"
  }

  /** `Settings::default()`. */
  function Default(b: Build): (s: Settings)
    ensures !s.fullscreen && s.visualStyle == Graphical
    ensures s.textSize == b.defaultTextSize && s.tileSize == b.defaultTileSize
    ensures s.windowWidth == DEFAULT_WINDOW_WIDTH && s.windowHeight == DEFAULT_WINDOW_HEIGHT
    ensures s.backend == DefaultBackend(b)
  {
    Settings(false, Graphical, b.defaultTextSize, b.defaultTileSize, DEFAULT_WINDOW_WIDTH, DEFAULT_WINDOW_HEIGHT,
             DefaultBackend(b))
  }

  /** `valid_tile_sizes` */
  predicate ValidTileSizes(b: Build, s: Settings)
  {
    s.textSize in b.textSizes && s.tileSize in b.tileSizes
  }

  /** `valid_backend` */
  predicate ValidBackend(b: Build, s: Settings)
  {
    s.backend in b.backends
  }

  /** `valid` */
  predicate Valid(b: Build, s: Settings)
  {
    ValidTileSizes(b, s) && ValidBackend(b, s)
  }

  /** The defaults are valid, as `default` asserts, exactly when the engine has a backend and its default sizes are
      among its available ones. */
  lemma DefaultValid(b: Build)
    ensures Valid(b, Default(b)) <==>
      b.backends != [] && b.defaultTextSize in b.textSizes && b.defaultTileSize in b.tileSizes
  {
  }

  // The TOML document.

  datatype Value = Str(text: string) | Integer(number: int) | Other

  type Document = map<string, Value>

  /** `doc[key].as_str()` */
  function StrEntry(doc: Document, key: string): (r: Option<string>)
    ensures r.Some? <==> key in doc && doc[key].Str?
  {
    if key in doc && doc[key].Str? then Some(doc[key].text) else None
  }

  /** `doc[key].as_integer()` */
  function IntEntry(doc: Document, key: string): (r: Option<int>)
    ensures r.Some? <==> key in doc && doc[key].Integer?
  {
    if key in doc && doc[key].Integer? then Some(doc[key].number) else None
  }

  /** How `load` reads `display`: "fullscreen" or "window", anything else keeps `current`. */
  function DisplayEntry(doc: Document, current: bool): (fullscreen: bool)
    ensures StrEntry(doc, "display") == Some("fullscreen") ==> fullscreen
    ensures StrEntry(doc, "display") == Some("window") ==> !fullscreen
    ensures StrEntry(doc, "display") !in {Some("fullscreen"), Some("window")} ==> fullscreen == current
  {
    match StrEntry(doc, "display")
    case Some(v) => if v == "fullscreen" then true else if v == "window" then false else current
    case None => current
  }

  /** How `load` reads `visual_style`: one of the two style names, anything else keeps `current`. */
  function StyleEntry(b: Build, doc: Document, current: VisualStyle): (style: VisualStyle)
    ensures StrEntry(doc, "visual_style") == Some(b.graphicalName) ==> style == Graphical
    ensures StrEntry(doc, "visual_style") == Some(b.textualName) && b.textualName != b.graphicalName ==>
      style == Textual
    ensures StrEntry(doc, "visual_style") !in {Some(b.graphicalName), Some(b.textualName)} ==> style == current
  {
    match StrEntry(doc, "visual_style")
    case Some(v) => if v == b.graphicalName then Graphical else if v == b.textualName then Textual else current
    case None => current
  }

  /** How `load` reads a size key as written: the 64-bit TOML integer is cast to `i32`, wrapping, and the wrapped
      number is looked up among the available sizes. */
  function SizeEntryAsWritten(doc: Document, key: string, available: seq<int>, current: int): int
  {
    match IntEntry(doc, key)
    case Some(n) => if WrapI32(n) in available then WrapI32(n) else current
    case None => current
  }

  /** A size key read as intended: a number is taken only when it is an `i32` and itself one of the available
      sizes. */
  function SizeEntry(doc: Document, key: string, available: seq<int>, current: int): (size: int)
    ensures (IntEntry(doc, key).Some? && IsI32(IntEntry(doc, key).value) && IntEntry(doc, key).value in available) ==>
      size == IntEntry(doc, key).value
    ensures !(IntEntry(doc, key).Some? && IsI32(IntEntry(doc, key).value) && IntEntry(doc, key).value in available) ==>
      size == current
  {
    match IntEntry(doc, key)
    case Some(n) => if IsI32(n) && n in available then n else current
    case None => current
  }

  /** The two readings agree whenever every available size is an `i32` and the document's number is one too. */
  lemma SizeEntryAgrees(doc: Document, key: string, available: seq<int>, current: int)
    requires forall i :: 0 <= i < |available| ==> IsI32(available[i])
    requires IntEntry(doc, key).Some? ==> IsI32(IntEntry(doc, key).value)
    ensures SizeEntryAsWritten(doc, key, available, current) == SizeEntry(doc, key, available, current)
  {
  }

  /** The cast lets a number far outside the `i32` range through as a supported tile size: 2^32 + 16 reads as 16. */
  lemma WrappedSizeAccepted()
    ensures var doc := map["tile_size" := Integer(0x1_0000_0010)];
            SizeEntryAsWritten(doc, "tile_size", [16], 8) == 16 &&
            SizeEntry(doc, "tile_size", [16], 8) == 8
  {
    assert WrapI32(0x1_0000_0010) == 16;
  }

  /** How `load` reads a window side: a number from `lo` to `hi`, anything else keeps `current`. */
  function SideEntry(doc: Document, key: string, lo: int, hi: int, current: int): (side: int)
    ensures (IntEntry(doc, key).Some? && lo <= IntEntry(doc, key).value <= hi) ==> side == IntEntry(doc, key).value
    ensures !(IntEntry(doc, key).Some? && lo <= IntEntry(doc, key).value <= hi) ==> side == current
  {
    match IntEntry(doc, key)
    case Some(n) => if n < lo then current else if n > hi then current else n
    case None => current
  }

  /** How `load` reads `backend`: an available backend, anything else keeps `current`. */
  function BackendEntry(b: Build, doc: Document, current: string): (backend: string)
    ensures (StrEntry(doc, "backend").Some? && StrEntry(doc, "backend").value in b.backends) ==>
      backend == StrEntry(doc, "backend").value
    ensures !(StrEntry(doc, "backend").Some? && StrEntry(doc, "backend").value in b.backends) ==> backend == current
  {
    match StrEntry(doc, "backend")
    case Some(v) => if v in b.backends then v else current
    case None => current
  }

  /** What `load` makes of a document: the defaults, each field replaced by its own key when that key is
      acceptable. */
  function Loaded(b: Build, doc: Document): Settings
  {
    var d := Default(b);
    Settings(
      DisplayEntry(doc, d.fullscreen),
      StyleEntry(b, doc, d.visualStyle),
      SizeEntry(doc, "text_size", b.textSizes, d.textSize),
      SizeEntry(doc, "tile_size", b.tileSizes, d.tileSize),
      SideEntry(doc, "window_width", MIN_WINDOW_WIDTH, MAX_WINDOW_WIDTH, d.windowWidth),
      SideEntry(doc, "window_height", MIN_WINDOW_HEIGHT, MAX_WINDOW_HEIGHT, d.windowHeight),
      BackendEntry(b, doc, d.backend))
  }

  /** Whatever the document holds, `load` gives valid settings when the defaults are valid (its closing
      assertion), and window sides within their bounds. */
  lemma LoadedValid(b: Build, doc: Document)
    requires Valid(b, Default(b))
    ensures Valid(b, Loaded(b, doc))
    ensures MIN_WINDOW_WIDTH <= Loaded(b, doc).windowWidth <= MAX_WINDOW_WIDTH
    ensures MIN_WINDOW_HEIGHT <= Loaded(b, doc).windowHeight <= MAX_WINDOW_HEIGHT
  {
  }

  /** The document `save` leaves: the seven keys `load` reads, each set from the settings. */
  function Saved(b: Build, doc: Document, s: Settings): (r: Document)
    ensures r.Keys == doc.Keys + SETTINGS_KEYS
    ensures forall k :: k in doc && k !in SETTINGS_KEYS ==> r[k] == doc[k]
  {
    doc["display" := Str(if s.fullscreen then "fullscreen" else "window")]
       ["visual_style" := Str(StyleName(b, s.visualStyle))]
       ["tile_size" := Integer(s.tileSize)]
       ["text_size" := Integer(s.textSize)]
       ["window_width" := Integer(s.windowWidth)]
       ["window_height" := Integer(s.windowHeight)]
       ["backend" := Str(s.backend)]
  }

  const SETTINGS_KEYS: set<string> :=
    {"display", "visual_style", "tile_size", "text_size", "window_width", "window_height", "backend"}

  /** Settings that `load` could have produced come back unchanged from a document `save` wrote: valid, with window
      sides within their bounds, and with two distinct style names. */
  lemma LoadSaveRoundTrip(b: Build, doc: Document, s: Settings)
    requires Valid(b, s) && IsI32(s.tileSize) && IsI32(s.textSize)
    requires MIN_WINDOW_WIDTH <= s.windowWidth <= MAX_WINDOW_WIDTH
    requires MIN_WINDOW_HEIGHT <= s.windowHeight <= MAX_WINDOW_HEIGHT
    requires b.graphicalName != b.textualName
    ensures Loaded(b, Saved(b, doc, s)) == s
  {
    var saved := Saved(b, doc, s);
    assert StrEntry(saved, "display") == Some(if s.fullscreen then "fullscreen" else "window");
    assert StrEntry(saved, "visual_style") == Some(StyleName(b, s.visualStyle));
    assert IntEntry(saved, "tile_size") == Some(s.tileSize);
    assert IntEntry(saved, "text_size") == Some(s.textSize);
    assert IntEntry(saved, "window_width") == Some(s.windowWidth);
    assert IntEntry(saved, "window_height") == Some(s.windowHeight);
    assert StrEntry(saved, "backend") == Some(s.backend);
  }

  /** The settings store backed by a TOML document. */
  class FileSystemStore {
    var toml: Document

    constructor(toml: Document)
      ensures this.toml == toml
    {
      this.toml := toml;
    }

    /** `load`: the settings `Loaded` makes of the document, which are valid when the defaults are (the assertion
        that closes `load`). */
    function Load(b: Build): (settings: Settings)
      reads this
      ensures Valid(b, Default(b)) ==> Valid(b, settings)
    {
      Loaded(b, toml)
    }

    /** `save`: sets the seven keys and keeps the rest of the document. */
    method Save(b: Build, settings: Settings)
      modifies this
      ensures toml == Saved(b, old(toml), settings)
    {
      toml := toml["display" := Str(if settings.fullscreen then "fullscreen" else "window")];
      toml := toml["visual_style" := Str(StyleName(b, settings.visualStyle))];
      toml := toml["tile_size" := Integer(settings.tileSize)];
      toml := toml["text_size" := Integer(settings.textSize)];
      toml := toml["window_width" := Integer(settings.windowWidth)];
      toml := toml["window_height" := Integer(settings.windowHeight)];
      toml := toml["backend" := Str(settings.backend)];
    }
  }

  // The TOML text.

  function IntText(n: int): string
  {
    if n < 0 then "-" + NatToString(-n) else NatToString(n)
  }

  /** The items joined with `sep` between each two. */
  function JoinWith(items: seq<string>, sep: string): string
  {
    if |items| == 0 then "" else if |items| == 1 then items[0] else items[0] + sep + JoinWith(items[1..], sep)
  }

  function NumbersText(ns: seq<int>): (texts: seq<string>)
    ensures |texts| == |ns|
  {
    if ns == [] then [] else [IntText(ns[0])] + NumbersText(ns[1..])
  }

  function QuotedText(names: seq<string>): (texts: seq<string>)
    ensures |texts| == |names|
  {
    if names == [] then [] else ["\"" + names[0] + "\""] + QuotedText(names[1..])
  }

  /** The two lines `as_toml` starts with. */
  const DISPLAY_LINES: string := "# Options: \"fullscreen\" or \"window\"\ndisplay = \"window\"\n\n"

  /** `as_toml`: the settings as a commented TOML text. */
  function AsToml(b: Build, s: Settings): (text: string)
    ensures |text| > |DISPLAY_LINES| && text[..|DISPLAY_LINES|] == DISPLAY_LINES
  {
    DISPLAY_LINES + SettingsLines(b, s)
  }

  /** What `as_toml` writes after the display lines. */
  function SettingsLines(b: Build, s: Settings): string
  {
    "# Options: \"" + b.graphicalName + "\" or \"" + b.textualName + "\"\n" +
    "visual_style = \"" + StyleName(b, s.visualStyle) + "\"\n\n" +
    "# Options: " + JoinWith(NumbersText(b.tileSizes), ", ") + "\n" +
    "tile_size = " + IntText(s.tileSize) + "\n\n" +
    "# Options: " + JoinWith(NumbersText(b.textSizes), ", ") + "\n" +
    "text_size = " + IntText(s.textSize) + "\n\n" +
    "# Options: " + JoinWith(QuotedText(b.backends), ", ") + "\n" +
    "window_width = " + IntText(s.windowWidth) + "\n" +
    "window_height = " + IntText(s.windowHeight) + "\n\n" +
    "backend = \"" + s.backend + "\"\n"
  }

  /** `as_toml` writes the window display whatever the settings say: fullscreen settings and windowed ones give the
      same text, while `save` tells them apart. */
  lemma AsTomlIgnoresFullscreen(b: Build, doc: Document, s: Settings)
    ensures AsToml(b, s.(fullscreen := true)) == AsToml(b, s.(fullscreen := false))
    ensures Saved(b, doc, s.(fullscreen := true))["display"] != Saved(b, doc, s.(fullscreen := false))["display"]
  {
    assert "fullscreen" != "window";
  }
}
