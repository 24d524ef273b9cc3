/** The application's settings record, its validity rule and its textual
    form (src/config.rs), plus the audio formats it refers to
    (src/format.rs). */
module Configuration {
  import opened Prelude
  import Decimal

  /** The audio file formats a download can be requested in. */
  datatype Format = Mp3V0 | Mp3 | Flac | Aac | OggVorbis | Alac | Wav | Aiff

  /** Every format, in declaration order. */
  const FORMATS: seq<Format> := [Mp3V0, Mp3, Flac, Aac, OggVorbis, Alac, Wav, Aiff]

  /** The name a format is displayed with, produced by derive macros that are
      not part of this model. */
  type FormatNames = Format -> string

  /** A file-system path, as its `display()` shows it. */
  type Path = string

  /** `Config`: every setting is optional, so a missing or partial file still
      loads. */
  datatype Config = Config(fanId: Option<u32>, identity: Option<string>, library: Option<Path>, format: Option<Format>)

  /** The derived `Default`: nothing configured. */
  const DEFAULT: Config := Config(None, None, None, None)

  /** `Config::new`: every setting present, with exactly the given values. */
  function New(fanId: u32, identity: string, library: Path, format: Format): (c: Config)
    ensures c.fanId == Some(fanId) && c.identity == Some(identity)
    ensures c.library == Some(library) && c.format == Some(format)
  {
    Config(Some(fanId), Some(identity), Some(library), Some(format))
  }

  /** `is_valid`, with the file system's "this path exists" passed in. */
  function IsValid(c: Config, pathExists: Path -> bool): (ok: bool)
    ensures ok <==>
      && c.fanId.Some? && c.fanId.value > 0
      && c.identity.Some? && c.identity.value != ""
      && c.library.Some? && pathExists(c.library.value)
      && c.format.Some?
  {
    var fanIdConfigured := match c.fanId case Some(id) => id > 0 case None => false;
    var identityConfigured := match c.identity case Some(ident) => |ident| > 0 case None => false;
    var libraryConfigured := match c.library case Some(lib) => pathExists(lib) case None => false;
    fanIdConfigured && identityConfigured && libraryConfigured && c.format.Some?
  }

  /** Nothing configured is never a usable configuration, whatever exists on
      disk. */
  lemma DefaultNeverValid(pathExists: Path -> bool)
    ensures !IsValid(DEFAULT, pathExists)
  {
  }

  /** A configuration built by `New` is valid exactly when the fan id is
      positive, the identity non-empty and the library present on disk. */
  lemma NewValidIff(fanId: u32, identity: string, library: Path, format: Format, pathExists: Path -> bool)
    ensures IsValid(New(fanId, identity, library, format), pathExists) <==>
      fanId > 0 && identity != "" && pathExists(library)
  {
  }

  // ---------------------------------------------------------------------
  // Display

  /** The settings, in the order `Display` writes them. */
  datatype Field = FanIdField | IdentityField | LibraryField | FormatField

  /** Each line's caption; all are ten characters wide so the values line up. */
  function Label(f: Field): (l: string)
    ensures |l| == 10
    ensures l[|l| - 2..] == ": " || l[|l| - 2..] == "  "
  {
    match f
    case FanIdField => "fan_id:   "
    case IdentityField => "identity: "
    case LibraryField => "library:  "
    case FormatField => "format:   "
  }

  /** No two settings share a caption. */
  lemma LabelsDistinct(f: Field, g: Field)
    ensures Label(f) == Label(g) <==> f == g
  {
    if f != g {
      var i := if {f, g} == {FanIdField, FormatField} then 1 else 0;
      assert Label(f)[i] != Label(g)[i];
    }
  }

  /** The text shown after a setting's caption, if the setting is present. */
  function Value(c: Config, f: Field, names: FormatNames): (v: Option<string>)
    ensures v.Some? <==> match f
      case FanIdField => c.fanId.Some?
      case IdentityField => c.identity.Some?
      case LibraryField => c.library.Some?
      case FormatField => c.format.Some?
  {
    match f
    case FanIdField => if c.fanId.Some? then Some(Decimal.Render(c.fanId.value)) else None
    case IdentityField => c.identity
    case LibraryField => c.library
    case FormatField => if c.format.Some? then Some(names(c.format.value)) else None
  }

  /** One labelled, newline-terminated line, or nothing for an absent
      setting. */
  function Line(caption: string, v: Option<string>): (s: string)
    ensures v.None? <==> s == ""
    ensures v.Some? ==> StartsWith(s, caption) && s[|s| - 1] == '\n'
  {
    if v.Some? then caption + v.value + "\n" else ""
  }

  /** The line `Display` writes for setting `f` of `c`. */
  function LineOf(c: Config, f: Field, names: FormatNames): string {
    Line(Label(f), Value(c, f, names))
  }

  /** What `Display` writes: the lines of the present settings, in the order
      fan id, identity, library, format. */
  function Rendered(c: Config, names: FormatNames): string {
    LineOf(c, FanIdField, names)
    + (LineOf(c, IdentityField, names) + (LineOf(c, LibraryField, names) + LineOf(c, FormatField, names)))
  }

  /** `Display::fmt`: one `push_str` per present setting. */
  method Display(c: Config, names: FormatNames) returns (s: string)
    ensures s == Rendered(c, names)
  {
    s := "";
    if c.fanId.Some? {
      s := s + (Label(FanIdField) + Decimal.Render(c.fanId.value) + "\n");
    }
    assert s == LineOf(c, FanIdField, names);
    ghost var s0 := s;
    if c.identity.Some? {
      s := s + (Label(IdentityField) + c.identity.value + "\n");
    }
    assert s == s0 + LineOf(c, IdentityField, names);
    ghost var s1 := s;
    if c.library.Some? {
      s := s + (Label(LibraryField) + c.library.value + "\n");
    }
    assert s == s1 + LineOf(c, LibraryField, names);
    ghost var s2 := s;
    if c.format.Some? {
      s := s + (Label(FormatField) + names(c.format.value) + "\n");
    }
    assert s == s2 + LineOf(c, FormatField, names);
    Regroup(LineOf(c, FanIdField, names), LineOf(c, IdentityField, names),
            LineOf(c, LibraryField, names), LineOf(c, FormatField, names));
  }

  /** The display is empty exactly when nothing is configured. */
  lemma RenderedEmptyIff(c: Config, names: FormatNames)
    ensures Rendered(c, names) == "" <==> c == DEFAULT
  {
    if c != DEFAULT {
      var f :| Value(c, f, names).Some?;
      var s := Rendered(c, names);
      assert |LineOf(c, f, names)| > 0;
      assert |s| >= |LineOf(c, f, names)|;
    }
  }

  // ---------------------------------------------------------------------
  // Reading the display back

  /** Reads one line labelled `caption`; anything else is left unread. */
  function ReadLine(s: string, caption: string): (r: (Option<string>, string))
    ensures r.0.None? ==> r.1 == s
  {
    if StartsWith(s, caption) then
      var rest := s[|caption|..];
      var v := Before(rest, '\n');
      (Some(v), if |v| < |rest| then rest[|v| + 1..] else [])
    else (None, s)
  }

  /** The format displayed as `t`, if any. */
  function FormatNamed(names: FormatNames, t: string, fs: seq<Format>): (r: Option<Format>)
    ensures r.Some? ==> r.value in fs && names(r.value) == t
  {
    if fs == [] then None else if names(fs[0]) == t then Some(fs[0]) else FormatNamed(names, t, fs[1..])
  }

  /** A fan id as displayed: a decimal `u32`. */
  function FanIdNamed(t: string): (r: Option<u32>)
    ensures r.Some? ==> Decimal.Parse(t) == Some(r.value as int)
  {
    match Decimal.Parse(t)
    case Some(n) => if 0 <= n < 0x1_0000_0000 then Some(n) else None
    case None => None
  }

  /** Reads a configuration back from its display, one labelled line per
      setting in display order. */
  function Read(s: string, names: FormatNames): Config {
    var fanId := ReadLine(s, Label(FanIdField));
    var identity := ReadLine(fanId.1, Label(IdentityField));
    var library := ReadLine(identity.1, Label(LibraryField));
    var format := ReadLine(library.1, Label(FormatField));
    Config(
      if fanId.0.Some? then FanIdNamed(fanId.0.value) else None,
      identity.0,
      library.0,
      if format.0.Some? then FormatNamed(names, format.0.value, FORMATS) else None)
  }

  predicate NoNewline(s: string) {
    forall i :: 0 <= i < |s| ==> s[i] != '\n'
  }

  /** Displayed values stay on their line and format names tell formats
      apart. */
  predicate Readable(c: Config, names: FormatNames) {
    && (c.identity.Some? ==> NoNewline(c.identity.value))
    && (c.library.Some? ==> NoNewline(c.library.value))
    && (forall f :: NoNewline(names(f)))
    && (forall f, g :: names(f) == names(g) ==> f == g)
  }

  /** A present line reads back as its value; an absent one leaves the text
      for the next caption. */
  lemma ReadLineOf(caption: string, v: Option<string>, rest: string)
    requires v.Some? ==> NoNewline(v.value)
    requires v.None? ==> !StartsWith(rest, caption)
    ensures ReadLine(Line(caption, v) + rest, caption) == (v, rest)
  {
    if v.Some? {
      var s := Line(caption, v) + rest;
      assert s == caption + (v.value + ("\n" + rest));
      assert s[..|caption|] == caption;
      var after := s[|caption|..];
      assert after == v.value + ("\n" + rest);
      BeforeOfJoin(v.value, "\n" + rest, '\n');
      assert after[|v.value| + 1..] == rest;
    } else {
      assert Line(caption, v) + rest == rest;
    }
  }

  /** Text that starts with another setting's line, or with nothing, does not
      start with the caption of `f`. */
  lemma NotCaptioned(c: Config, names: FormatNames, f: Field, g: Field, more: string)
    requires f != g
    requires !StartsWith(more, Label(f))
    ensures !StartsWith(LineOf(c, g, names) + more, Label(f))
  {
    LabelsDistinct(f, g);
    var s := LineOf(c, g, names) + more;
    if LineOf(c, g, names) == "" {
      assert s == more;
    } else {
      assert s[..10] == Label(g);
    }
  }

  lemma {:induction false} FormatNamedOf(names: FormatNames, f: Format, fs: seq<Format>)
    requires forall g, h :: names(g) == names(h) ==> g == h
    requires f in fs
    ensures FormatNamed(names, names(f), fs) == Some(f)
    decreases |fs|
  {
    if fs[0] != f {
      FormatNamedOf(names, f, fs[1..]);
    }
  }

  /** One setting's line reads back as its displayed value. */
  lemma ReadLineOfField(c: Config, names: FormatNames, f: Field, rest: string)
    requires Readable(c, names)
    requires Value(c, f, names).None? ==> !StartsWith(rest, Label(f))
    ensures ReadLine(LineOf(c, f, names) + rest, Label(f)) == (Value(c, f, names), rest)
  {
    var v := Value(c, f, names);
    if v.Some? && f == FanIdField {
      assert NoNewline(Decimal.Render(c.fanId.value));
    } else if v.Some? && f == FormatField {
      assert NoNewline(names(c.format.value));
    }
    ReadLineOf(Label(f), v, rest);
  }

  /** The displayed values read back as the settings they show. */
  lemma ValuesReadBack(c: Config, names: FormatNames)
    requires Readable(c, names)
    ensures Value(c, FanIdField, names).Some? ==> FanIdNamed(Value(c, FanIdField, names).value) == c.fanId
    ensures Value(c, FormatField, names).Some? ==> FormatNamed(names, Value(c, FormatField, names).value, FORMATS) == c.format
  {
    if c.fanId.Some? {
      Decimal.RenderRoundTrip(c.fanId.value);
    }
    if c.format.Some? {
      assert c.format.value in FORMATS by {
        match c.format.value
        case Mp3V0 => assert FORMATS[0] == Mp3V0;
        case Mp3 => assert FORMATS[1] == Mp3;
        case Flac => assert FORMATS[2] == Flac;
        case Aac => assert FORMATS[3] == Aac;
        case OggVorbis => assert FORMATS[4] == OggVorbis;
        case Alac => assert FORMATS[5] == Alac;
        case Wav => assert FORMATS[6] == Wav;
        case Aiff => assert FORMATS[7] == Aiff;
      }
      FormatNamedOf(names, c.format.value, FORMATS);
    }
  }

  /** Text made of the lines after an absent setting's never starts with
      that setting's caption. */
  lemma LaterLinesUncaptioned(c: Config, names: FormatNames)
    ensures !StartsWith(LineOf(c, IdentityField, names) + (LineOf(c, LibraryField, names) + LineOf(c, FormatField, names)), Label(FanIdField))
    ensures !StartsWith(LineOf(c, LibraryField, names) + LineOf(c, FormatField, names), Label(IdentityField))
    ensures !StartsWith(LineOf(c, FormatField, names), Label(LibraryField))
    ensures !StartsWith("", Label(FormatField))
  {
    var r3 := LineOf(c, FormatField, names) + "";
    assert r3 == LineOf(c, FormatField, names);
    var r2 := LineOf(c, LibraryField, names) + r3;
    NotCaptioned(c, names, LibraryField, FormatField, "");
    NotCaptioned(c, names, IdentityField, FormatField, "");
    NotCaptioned(c, names, FanIdField, FormatField, "");
    NotCaptioned(c, names, IdentityField, LibraryField, r3);
    NotCaptioned(c, names, FanIdField, LibraryField, r3);
    NotCaptioned(c, names, FanIdField, IdentityField, r2);
  }

  /** Reading four lines that give back the displayed values of `c` gives
      back `c`. */
  lemma ReadOfValues(c: Config, names: FormatNames, s: string, r1: string, r2: string, r3: string)
    requires ReadLine(s, Label(FanIdField)) == (Value(c, FanIdField, names), r1)
    requires ReadLine(r1, Label(IdentityField)) == (Value(c, IdentityField, names), r2)
    requires ReadLine(r2, Label(LibraryField)) == (Value(c, LibraryField, names), r3)
    requires ReadLine(r3, Label(FormatField)).0 == Value(c, FormatField, names)
    requires Value(c, FanIdField, names).Some? ==> FanIdNamed(Value(c, FanIdField, names).value) == c.fanId
    requires Value(c, FormatField, names).Some? ==> FormatNamed(names, Value(c, FormatField, names).value, FORMATS) == c.format
    ensures Read(s, names) == c
  {
  }

  /** The display loses nothing: it reads back as the same configuration. */
  lemma DisplayRoundTrip(c: Config, names: FormatNames)
    requires Readable(c, names)
    ensures Read(Rendered(c, names), names) == c
  {
    var r3 := LineOf(c, FormatField, names);
    var r2 := LineOf(c, LibraryField, names) + r3;
    var r1 := LineOf(c, IdentityField, names) + r2;
    var s := Rendered(c, names);
    LaterLinesUncaptioned(c, names);
    ReadLineOfField(c, names, FanIdField, r1);
    ReadLineOfField(c, names, IdentityField, r2);
    ReadLineOfField(c, names, LibraryField, r3);
    assert r3 == r3 + "";
    ReadLineOfField(c, names, FormatField, "");
    ValuesReadBack(c, names);
    ReadOfValues(c, names, s, r1, r2, r3);
  }
}
