/** The wrapper's `Format` and `Snapshot` records and their conversion to and from the
    library's `LUCAM_FRAME_FORMAT` and `LUCAM_SNAPSHOT` structures. Both directions copy the
    fields one by one, by name, in the order the records declare them. The library's
    structures are modelled as plain records holding the same fields; C field widths and the
    structure fields the wrapper never touches are not part of this model. Exposure, gains and
    timeout are opaque reals: they are copied, never computed on. */
module Marshalling {
  import opened Results
  import opened ErrorCodes

  /** The wrapper's frame format record. */
  datatype Format = Format(
    xOffset: int, yOffset: int, width: int, height: int, pixelFormat: int,
    subSampleX: int, binningX: int, flagsX: int,
    subSampleY: int, binningY: int, flagsY: int)

  /** The library's frame format structure. */
  datatype LucamFrameFormat = LucamFrameFormat(
    xOffset: int, yOffset: int, width: int, height: int, pixelFormat: int,
    subSampleX: int, binningX: int, flagsX: int,
    subSampleY: int, binningY: int, flagsY: int)

  /** The annotated fields of `Format`, in declaration order. */
  const FormatFields: seq<string> :=
    ["xOffset", "yOffset", "width", "height", "pixelFormat", "subSampleX"]
    + ["binningX", "flagsX", "subSampleY", "binningY", "flagsY"]

  /** `getattr(format, name)`: defined exactly on the annotated fields. */
  function FormatAttr(f: Format, name: string): (v: Option<int>)
    ensures v.Some? <==> name in FormatFields
  {
    match name
    case "xOffset" => Some(f.xOffset)
    case "yOffset" => Some(f.yOffset)
    case "width" => Some(f.width)
    case "height" => Some(f.height)
    case "pixelFormat" => Some(f.pixelFormat)
    case "subSampleX" => Some(f.subSampleX)
    case "binningX" => Some(f.binningX)
    case "flagsX" => Some(f.flagsX)
    case "subSampleY" => Some(f.subSampleY)
    case "binningY" => Some(f.binningY)
    case "flagsY" => Some(f.flagsY)
    case _ => None
  }

  /** `getattr(structure, name)` on a frame format structure. */
  function StructAttr(s: LucamFrameFormat, name: string): (v: Option<int>)
    ensures v.Some? <==> name in FormatFields
  {
    match name
    case "xOffset" => Some(s.xOffset)
    case "yOffset" => Some(s.yOffset)
    case "width" => Some(s.width)
    case "height" => Some(s.height)
    case "pixelFormat" => Some(s.pixelFormat)
    case "subSampleX" => Some(s.subSampleX)
    case "binningX" => Some(s.binningX)
    case "flagsX" => Some(s.flagsX)
    case "subSampleY" => Some(s.subSampleY)
    case "binningY" => Some(s.binningY)
    case "flagsY" => Some(s.flagsY)
    case _ => None
  }

  /** `setattr(structure, name, v)`: the named field becomes `v`, the others keep their
      values. The structure has no other field to set. */
  function SetStructAttr(s: LucamFrameFormat, name: string, v: int): (t: LucamFrameFormat)
    requires name in FormatFields
    ensures StructAttr(t, name) == Some(v)
  {
    match name
    case "xOffset" => s.(xOffset := v)
    case "yOffset" => s.(yOffset := v)
    case "width" => s.(width := v)
    case "height" => s.(height := v)
    case "pixelFormat" => s.(pixelFormat := v)
    case "subSampleX" => s.(subSampleX := v)
    case "binningX" => s.(binningX := v)
    case "flagsX" => s.(flagsX := v)
    case "subSampleY" => s.(subSampleY := v)
    case "binningY" => s.(binningY := v)
    case "flagsY" => s.(flagsY := v)
  }

  /** Setting one field of a frame format structure leaves every other field as it was. */
  lemma SetStructAttrKeeps(s: LucamFrameFormat, name: string, v: int, other: string)
    requires name in FormatFields && other != name
    ensures StructAttr(SetStructAttr(s, name, v), other) == StructAttr(s, other)
  {
  }

  /** A frame format structure is determined by the values of its named fields. */
  lemma StructByFields(s: LucamFrameFormat, t: LucamFrameFormat)
    requires forall name :: name in FormatFields ==> StructAttr(s, name) == StructAttr(t, name)
    ensures s == t
  {
    assert s.xOffset == t.xOffset by { assert StructAttr(s, "xOffset") == StructAttr(t, "xOffset"); }
    assert s.yOffset == t.yOffset by { assert StructAttr(s, "yOffset") == StructAttr(t, "yOffset"); }
    assert s.width == t.width by { assert StructAttr(s, "width") == StructAttr(t, "width"); }
    assert s.height == t.height by { assert StructAttr(s, "height") == StructAttr(t, "height"); }
    assert s.pixelFormat == t.pixelFormat by { assert StructAttr(s, "pixelFormat") == StructAttr(t, "pixelFormat"); }
    assert s.subSampleX == t.subSampleX by { assert StructAttr(s, "subSampleX") == StructAttr(t, "subSampleX"); }
    assert s.binningX == t.binningX by { assert StructAttr(s, "binningX") == StructAttr(t, "binningX"); }
    assert s.flagsX == t.flagsX by { assert StructAttr(s, "flagsX") == StructAttr(t, "flagsX"); }
    assert s.subSampleY == t.subSampleY by { assert StructAttr(s, "subSampleY") == StructAttr(t, "subSampleY"); }
    assert s.binningY == t.binningY by { assert StructAttr(s, "binningY") == StructAttr(t, "binningY"); }
    assert s.flagsY == t.flagsY by { assert StructAttr(s, "flagsY") == StructAttr(t, "flagsY"); }
  }

  /** A format record is determined by the values of its named fields. */
  lemma FormatByFields(f: Format, g: Format)
    requires forall name :: name in FormatFields ==> FormatAttr(f, name) == FormatAttr(g, name)
    ensures f == g
  {
    assert f.xOffset == g.xOffset by { assert FormatAttr(f, "xOffset") == FormatAttr(g, "xOffset"); }
    assert f.yOffset == g.yOffset by { assert FormatAttr(f, "yOffset") == FormatAttr(g, "yOffset"); }
    assert f.width == g.width by { assert FormatAttr(f, "width") == FormatAttr(g, "width"); }
    assert f.height == g.height by { assert FormatAttr(f, "height") == FormatAttr(g, "height"); }
    assert f.pixelFormat == g.pixelFormat by { assert FormatAttr(f, "pixelFormat") == FormatAttr(g, "pixelFormat"); }
    assert f.subSampleX == g.subSampleX by { assert FormatAttr(f, "subSampleX") == FormatAttr(g, "subSampleX"); }
    assert f.binningX == g.binningX by { assert FormatAttr(f, "binningX") == FormatAttr(g, "binningX"); }
    assert f.flagsX == g.flagsX by { assert FormatAttr(f, "flagsX") == FormatAttr(g, "flagsX"); }
    assert f.subSampleY == g.subSampleY by { assert FormatAttr(f, "subSampleY") == FormatAttr(g, "subSampleY"); }
    assert f.binningY == g.binningY by { assert FormatAttr(f, "binningY") == FormatAttr(g, "binningY"); }
    assert f.flagsY == g.flagsY by { assert FormatAttr(f, "flagsY") == FormatAttr(g, "flagsY"); }
  }

  /** `Format(**kwargs)` for keyword arguments naming every field. */
  function FormatFromKwargs(kwargs: map<string, int>): (f: Format)
    requires forall name :: name in FormatFields ==> name in kwargs
    ensures forall name :: name in FormatFields ==> FormatAttr(f, name) == Some(kwargs[name])
  {
    var f := Format(
      kwargs["xOffset"], kwargs["yOffset"], kwargs["width"], kwargs["height"],
      kwargs["pixelFormat"], kwargs["subSampleX"], kwargs["binningX"], kwargs["flagsX"],
      kwargs["subSampleY"], kwargs["binningY"], kwargs["flagsY"]);
    assert forall name :: name in FormatFields ==> FormatAttr(f, name) == Some(kwargs[name]) by {
      forall name | name in FormatFields
        ensures FormatAttr(f, name) == Some(kwargs[name])
      {
        if name in FormatFields[..6] {
          assert name in ["xOffset", "yOffset", "width", "height", "pixelFormat", "subSampleX"];
        } else {
          assert name in ["binningX", "flagsX", "subSampleY", "binningY", "flagsY"];
        }
      }
    }
    f
  }

  /** `ffi.new("LUCAM_FRAME_FORMAT *")`: a zero-filled structure. */
  const ZeroFrameFormat := LucamFrameFormat(0, 0, 0, 0, 0, 0, 0, 0, 0, 0, 0)

  // ---------------------------------------------------------------------------------------
  // Format conversion.

  /** The format record holding a structure's fields. */
  function FormatOf(s: LucamFrameFormat): Format {
    Format(s.xOffset, s.yOffset, s.width, s.height, s.pixelFormat,
      s.subSampleX, s.binningX, s.flagsX, s.subSampleY, s.binningY, s.flagsY)
  }

  /** The structure holding a format record's fields. */
  function StructOf(f: Format): LucamFrameFormat {
    LucamFrameFormat(f.xOffset, f.yOffset, f.width, f.height, f.pixelFormat,
      f.subSampleX, f.binningX, f.flagsX, f.subSampleY, f.binningY, f.flagsY)
  }

  /** Both conversions copy every field by name, and nothing else exists to copy. */
  lemma ConversionsCopyByName(f: Format, s: LucamFrameFormat)
    ensures forall name :: StructAttr(StructOf(f), name) == FormatAttr(f, name)
    ensures forall name :: FormatAttr(FormatOf(s), name) == StructAttr(s, name)
  {
  }

  /** `Format.from_lucam(f.as_lucam())` gives `f` back, and the other way round. */
  lemma FormatRoundTrip(f: Format, s: LucamFrameFormat)
    ensures FormatOf(StructOf(f)) == f
    ensures StructOf(FormatOf(s)) == s
  {
  }

  /** `Format.from_lucam`: read each annotated field off the structure into a keyword
      argument, then build the record. */
  method FormatFromLucam(s: LucamFrameFormat) returns (f: Format)
    ensures forall name :: FormatAttr(f, name) == StructAttr(s, name)
    ensures f == FormatOf(s)
  {
    var kwargs: map<string, int> := map[];
    for i := 0 to |FormatFields|
      invariant forall name :: name in FormatFields[..i] ==> name in kwargs && StructAttr(s, name) == Some(kwargs[name])
    {
      var attr := FormatFields[i];
      kwargs := kwargs[attr := StructAttr(s, attr).value];
      assert FormatFields[..i + 1] == FormatFields[..i] + [attr];
    }
    assert FormatFields[..|FormatFields|] == FormatFields;
    f := FormatFromKwargs(kwargs);
    ConversionsCopyByName(f, s);
    FormatByFields(f, FormatOf(s));
  }

  /** `Format.as_lucam`: a zero-filled structure with each annotated field set from the
      record. */
  method FormatAsLucam(f: Format) returns (s: LucamFrameFormat)
    ensures forall name :: StructAttr(s, name) == FormatAttr(f, name)
    ensures s == StructOf(f)
  {
    s := ZeroFrameFormat;
    for i := 0 to |FormatFields|
      invariant forall name :: name in FormatFields[..i] ==> StructAttr(s, name) == FormatAttr(f, name)
    {
      var attr := FormatFields[i];
      var before := s;
      s := SetStructAttr(s, attr, FormatAttr(f, attr).value);
      forall name | name != attr ensures StructAttr(s, name) == StructAttr(before, name) {
        SetStructAttrKeeps(before, attr, FormatAttr(f, attr).value, name);
      }
      assert FormatFields[..i + 1] == FormatFields[..i] + [attr];
    }
    assert FormatFields[..|FormatFields|] == FormatFields;
    ConversionsCopyByName(f, s);
    StructByFields(s, StructOf(f));
  }

  // ---------------------------------------------------------------------------------------
  // Snapshots.

  /** What the `format` field of a `Snapshot` holds: a `Format` record, or, after
      `Snapshot.from_lucam`, the library's structure itself. */
  datatype FormatValue = Record(record: Format) | Struct(struct: LucamFrameFormat)

  /** The wrapper's snapshot record. */
  datatype Snapshot = Snapshot(
    exposure: real, gain: real, gainRed: real, gainBlue: real, gainGrn1: real, gainGrn2: real,
    timeout: real, format: FormatValue)

  /** The library's snapshot structure, restricted to the fields the wrapper reads and
      writes. */
  datatype LucamSnapshot = LucamSnapshot(
    exposure: real, gain: real, gainRed: real, gainBlue: real, gainGrn1: real, gainGrn2: real,
    timeout: real, format: LucamFrameFormat)

  /** The annotated fields of `Snapshot`, in declaration order. */
  const SnapshotFields: seq<string> :=
    ["exposure", "gain", "gainRed", "gainBlue", "gainGrn1", "gainGrn2", "timeout", "format"]

  /** A value read off or written to a snapshot field. */
  datatype Value = Scalar(r: real) | Frame(frame: FormatValue)

  /** `getattr(snapshot, name)` on the wrapper's record. */
  function SnapshotAttr(s: Snapshot, name: string): (v: Option<Value>)
    ensures v.Some? <==> name in SnapshotFields
    ensures v.Some? ==> (v.value.Frame? <==> name == "format")
  {
    match name
    case "exposure" => Some(Scalar(s.exposure))
    case "gain" => Some(Scalar(s.gain))
    case "gainRed" => Some(Scalar(s.gainRed))
    case "gainBlue" => Some(Scalar(s.gainBlue))
    case "gainGrn1" => Some(Scalar(s.gainGrn1))
    case "gainGrn2" => Some(Scalar(s.gainGrn2))
    case "timeout" => Some(Scalar(s.timeout))
    case "format" => Some(Frame(s.format))
    case _ => None
  }

  /** `getattr(structure, name)` on a snapshot structure; its `format` field reads as a
      structure. */
  function LucamSnapshotAttr(n: LucamSnapshot, name: string): (v: Option<Value>)
    ensures v.Some? <==> name in SnapshotFields
    ensures v.Some? ==> (v.value.Frame? <==> name == "format")
    ensures v.Some? && v.value.Frame? ==> v.value.frame.Struct?
  {
    match name
    case "exposure" => Some(Scalar(n.exposure))
    case "gain" => Some(Scalar(n.gain))
    case "gainRed" => Some(Scalar(n.gainRed))
    case "gainBlue" => Some(Scalar(n.gainBlue))
    case "gainGrn1" => Some(Scalar(n.gainGrn1))
    case "gainGrn2" => Some(Scalar(n.gainGrn2))
    case "timeout" => Some(Scalar(n.timeout))
    case "format" => Some(Frame(Struct(n.format)))
    case _ => None
  }

  /** A value of the kind a snapshot structure's field holds. */
  predicate FitsLucamField(name: string, v: Value) {
    if name == "format" then v.Frame? && v.frame.Struct? else v.Scalar?
  }

  /** `setattr(structure, name, v)` on a snapshot structure. */
  function SetLucamSnapshotAttr(n: LucamSnapshot, name: string, v: Value): (t: LucamSnapshot)
    requires name in SnapshotFields && FitsLucamField(name, v)
    ensures LucamSnapshotAttr(t, name) == Some(v)
    ensures forall other :: other != name ==> LucamSnapshotAttr(t, other) == LucamSnapshotAttr(n, other)
  {
    match name
    case "exposure" => n.(exposure := v.r)
    case "gain" => n.(gain := v.r)
    case "gainRed" => n.(gainRed := v.r)
    case "gainBlue" => n.(gainBlue := v.r)
    case "gainGrn1" => n.(gainGrn1 := v.r)
    case "gainGrn2" => n.(gainGrn2 := v.r)
    case "timeout" => n.(timeout := v.r)
    case "format" => n.(format := v.frame.struct)
  }

  /** A snapshot structure is determined by the values of its named fields. */
  lemma LucamSnapshotByFields(n: LucamSnapshot, m: LucamSnapshot)
    requires forall name :: name in SnapshotFields ==> LucamSnapshotAttr(n, name) == LucamSnapshotAttr(m, name)
    ensures n == m
  {
    assert n.exposure == m.exposure by { assert LucamSnapshotAttr(n, "exposure") == LucamSnapshotAttr(m, "exposure"); }
    assert n.gain == m.gain by { assert LucamSnapshotAttr(n, "gain") == LucamSnapshotAttr(m, "gain"); }
    assert n.gainRed == m.gainRed by { assert LucamSnapshotAttr(n, "gainRed") == LucamSnapshotAttr(m, "gainRed"); }
    assert n.gainBlue == m.gainBlue by { assert LucamSnapshotAttr(n, "gainBlue") == LucamSnapshotAttr(m, "gainBlue"); }
    assert n.gainGrn1 == m.gainGrn1 by { assert LucamSnapshotAttr(n, "gainGrn1") == LucamSnapshotAttr(m, "gainGrn1"); }
    assert n.gainGrn2 == m.gainGrn2 by { assert LucamSnapshotAttr(n, "gainGrn2") == LucamSnapshotAttr(m, "gainGrn2"); }
    assert n.timeout == m.timeout by { assert LucamSnapshotAttr(n, "timeout") == LucamSnapshotAttr(m, "timeout"); }
    assert n.format == m.format by { assert LucamSnapshotAttr(n, "format") == LucamSnapshotAttr(m, "format"); }
  }

  /** A snapshot record is determined by the values of its named fields. */
  lemma SnapshotByFields(s: Snapshot, t: Snapshot)
    requires forall name :: name in SnapshotFields ==> SnapshotAttr(s, name) == SnapshotAttr(t, name)
    ensures s == t
  {
    assert s.exposure == t.exposure by { assert SnapshotAttr(s, "exposure") == SnapshotAttr(t, "exposure"); }
    assert s.gain == t.gain by { assert SnapshotAttr(s, "gain") == SnapshotAttr(t, "gain"); }
    assert s.gainRed == t.gainRed by { assert SnapshotAttr(s, "gainRed") == SnapshotAttr(t, "gainRed"); }
    assert s.gainBlue == t.gainBlue by { assert SnapshotAttr(s, "gainBlue") == SnapshotAttr(t, "gainBlue"); }
    assert s.gainGrn1 == t.gainGrn1 by { assert SnapshotAttr(s, "gainGrn1") == SnapshotAttr(t, "gainGrn1"); }
    assert s.gainGrn2 == t.gainGrn2 by { assert SnapshotAttr(s, "gainGrn2") == SnapshotAttr(t, "gainGrn2"); }
    assert s.timeout == t.timeout by { assert SnapshotAttr(s, "timeout") == SnapshotAttr(t, "timeout"); }
    assert s.format == t.format by { assert SnapshotAttr(s, "format") == SnapshotAttr(t, "format"); }
  }

  /** Keyword arguments that fill every snapshot field, the scalars with numbers. */
  predicate SnapshotKwargs(kwargs: map<string, Value>) {
    && (forall name :: name in SnapshotFields ==> name in kwargs)
    && (forall name :: name in SnapshotFields && name != "format" ==> kwargs[name].Scalar?)
    && kwargs["format"].Frame?
  }

  /** `Snapshot(**kwargs)`. */
  function SnapshotFromKwargs(kwargs: map<string, Value>): (s: Snapshot)
    requires SnapshotKwargs(kwargs)
    ensures forall name :: name in SnapshotFields ==> SnapshotAttr(s, name) == Some(kwargs[name])
  {
    Snapshot(
      kwargs["exposure"].r, kwargs["gain"].r, kwargs["gainRed"].r, kwargs["gainBlue"].r,
      kwargs["gainGrn1"].r, kwargs["gainGrn2"].r, kwargs["timeout"].r, kwargs["format"].frame)
  }

  /** `ffi.new("LUCAM_SNAPSHOT *")`: a zero-filled structure. */
  const ZeroSnapshot := LucamSnapshot(0.0, 0.0, 0.0, 0.0, 0.0, 0.0, 0.0, ZeroFrameFormat)

  /** The structure `Snapshot.as_lucam` builds: the scalars copied and the format record
      converted; a `format` field that holds no `Format` record has no `as_lucam` to call. */
  function LucamOf(s: Snapshot): (r: Result<LucamSnapshot, Error>)
    ensures r.Success? <==> s.format.Record?
  {
    match s.format
    case Record(f) =>
      Success(LucamSnapshot(s.exposure, s.gain, s.gainRed, s.gainBlue, s.gainGrn1, s.gainGrn2,
        s.timeout, StructOf(f)))
    case Struct(_) => Failure(AttributeError("as_lucam"))
  }

  /** The record `Snapshot.from_lucam` builds as written: every field read off the structure,
      so `format` holds the library's structure rather than a `Format` record. */
  function SnapshotOfAsWritten(n: LucamSnapshot): Snapshot {
    Snapshot(n.exposure, n.gain, n.gainRed, n.gainBlue, n.gainGrn1, n.gainGrn2, n.timeout,
      Struct(n.format))
  }

  /** The record a `from_lucam` that converts the format back would build. */
  function SnapshotOf(n: LucamSnapshot): Snapshot {
    Snapshot(n.exposure, n.gain, n.gainRed, n.gainBlue, n.gainGrn1, n.gainGrn2, n.timeout,
      Record(FormatOf(n.format)))
  }

  /** `Snapshot.as_lucam`: a zero-filled structure with each annotated field set from the
      record, the format converted through `Format.as_lucam`. */
  method SnapshotAsLucam(s: Snapshot) returns (r: Result<LucamSnapshot, Error>)
    ensures r == LucamOf(s)
  {
    var n := ZeroSnapshot;
    for i := 0 to |SnapshotFields|
      invariant forall name :: name in SnapshotFields[..i] && name != "format" ==>
        LucamSnapshotAttr(n, name) == SnapshotAttr(s, name)
      invariant "format" in SnapshotFields[..i] ==> s.format.Record? && n.format == StructOf(s.format.record)
    {
      var attr := SnapshotFields[i];
      var value := SnapshotAttr(s, attr).value;
      if attr == "format" {
        if value.frame.Struct? {
          return Failure(AttributeError("as_lucam"));
        }
        var converted := FormatAsLucam(value.frame.record);
        value := Frame(Struct(converted));
      }
      n := SetLucamSnapshotAttr(n, attr, value);
      assert SnapshotFields[..i + 1] == SnapshotFields[..i] + [attr];
    }
    assert SnapshotFields[..|SnapshotFields|] == SnapshotFields;
    AsLucamCopiesFields(s);
    LucamSnapshotByFields(n, LucamOf(s).value);
    r := Success(n);
  }

  /** `Snapshot.from_lucam` as written: each annotated field read off the structure into a
      keyword argument, then the record built. */
  method SnapshotFromLucamAsWritten(n: LucamSnapshot) returns (s: Snapshot)
    ensures s == SnapshotOfAsWritten(n)
  {
    var kwargs: map<string, Value> := map[];
    for i := 0 to |SnapshotFields|
      invariant forall name :: name in SnapshotFields[..i] ==>
        name in kwargs && LucamSnapshotAttr(n, name) == Some(kwargs[name])
    {
      var attr := SnapshotFields[i];
      kwargs := kwargs[attr := LucamSnapshotAttr(n, attr).value];
      assert SnapshotFields[..i + 1] == SnapshotFields[..i] + [attr];
    }
    assert SnapshotFields[..|SnapshotFields|] == SnapshotFields;
    s := SnapshotFromKwargs(kwargs);
    AsWrittenRoundTripFails(n);
    SnapshotByFields(s, SnapshotOfAsWritten(n));
  }

  /** `Snapshot.from_lucam` corrected: the fields read as written, then the `format` field
      converted back through `Format.from_lucam`. */
  method SnapshotFromLucam(n: LucamSnapshot) returns (s: Snapshot)
    ensures s == SnapshotOf(n)
  {
    s := SnapshotFromLucamAsWritten(n);
    var record := FormatFromLucam(s.format.struct);
    s := s.(format := Record(record));
  }

  // ---------------------------------------------------------------------------------------
  // Round trips.

  /** `Snapshot.as_lucam` succeeds exactly on records whose format is a `Format`, copies the
      scalars and converts the format. */
  lemma AsLucamCopiesFields(s: Snapshot)
    requires s.format.Record?
    ensures LucamOf(s).Success?
    ensures forall name :: name != "format" ==> LucamSnapshotAttr(LucamOf(s).value, name) == SnapshotAttr(s, name)
    ensures LucamOf(s).value.format == StructOf(s.format.record)
  {
  }

  /** As written, `from_lucam` keeps the scalars but a snapshot it builds cannot be converted
      back: its `format` is the library's structure, which has no `as_lucam`. */
  lemma AsWrittenRoundTripFails(n: LucamSnapshot)
    ensures forall name :: SnapshotAttr(SnapshotOfAsWritten(n), name) == LucamSnapshotAttr(n, name)
    ensures LucamOf(SnapshotOfAsWritten(n)) == Failure(AttributeError("as_lucam"))
  {
  }

  /** The corrected `from_lucam` copies the scalars by name and converts the format. */
  lemma SnapshotOfCopiesByName(n: LucamSnapshot)
    ensures forall name :: name != "format" ==> SnapshotAttr(SnapshotOf(n), name) == LucamSnapshotAttr(n, name)
    ensures SnapshotOf(n).format == Record(FormatOf(n.format))
  {
  }

  /** With the format converted back, the snapshot round trip holds in both directions. */
  lemma SnapshotRoundTrip(n: LucamSnapshot, s: Snapshot)
    ensures LucamOf(SnapshotOf(n)) == Success(n)
    ensures s.format.Record? ==> SnapshotOf(LucamOf(s).value) == s
  {
  }
}
