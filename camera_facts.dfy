/** What a camera session promises: which calls each operation issues, in which order, and
    which cached fields it changes, on success and on failure. */
module CameraFacts {
  import opened Results
  import opened ErrorCodes
  import opened PropertyNames
  import opened Marshalling
  import opened Session

  // ---------------------------------------------------------------------------------------
  // The calls `get_default_snapshot` issues.

  /** The queries of `get_default_snapshot` when they all succeed: the six scalar fields in
      declaration order, by the symbols their names resolve to, then the format. */
  function DefaultQueries(symbols: map<string, int>): (calls: seq<Call>)
    requires Bound(symbols) && Prefix + "EXPOSURE" in symbols
    ensures |calls| == 7 && calls[6] == LucamGetFormat
    ensures forall i :: 0 <= i < 6 ==> calls[i].LucamGetProperty?
  {
    [ LucamGetProperty(symbols[Prefix + "EXPOSURE"]),
      LucamGetProperty(symbols[MemberSymbol(Gain)]),
      LucamGetProperty(symbols[MemberSymbol(GainRed)]),
      LucamGetProperty(symbols[MemberSymbol(GainBlue)]),
      LucamGetProperty(symbols[MemberSymbol(GainGreen1)]),
      LucamGetProperty(symbols[MemberSymbol(GainGreen2)]),
      LucamGetFormat ]
  }

  /** A scalar field is queried by the symbol its name resolves to. */
  lemma ScalarFieldCalls(symbols: map<string, int>, field: string, symbol: string)
    requires field != "format" && field != "timeout"
    requires SymbolName(SnapshotQueryName(field)) == symbol && symbol in symbols
    ensures FieldCalls(symbols, field) == [LucamGetProperty(symbols[symbol])]
  {
  }

  /** The loop's calls over a list of fields are those of its head, then those of the rest. */
  lemma AllFieldCallsCons(symbols: map<string, int>, fields: seq<string>)
    requires fields != []
    ensures AllFieldCalls(symbols, fields) == FieldCalls(symbols, fields[0]) + AllFieldCalls(symbols, fields[1..])
  {
  }

  /** Six scalar fields, `timeout` and `format`, each scalar field queried by one call. */
  lemma {:induction false} EightFieldCalls(symbols: map<string, int>, fields: seq<string>, q: seq<Call>)
    requires |fields| == 8 && |q| == 7
    requires fields[6] == "timeout" && fields[7] == "format" && q[6] == LucamGetFormat
    requires FieldCalls(symbols, fields[0]) == [q[0]] && FieldCalls(symbols, fields[1]) == [q[1]]
    requires FieldCalls(symbols, fields[2]) == [q[2]] && FieldCalls(symbols, fields[3]) == [q[3]]
    requires FieldCalls(symbols, fields[4]) == [q[4]] && FieldCalls(symbols, fields[5]) == [q[5]]
    ensures AllFieldCalls(symbols, fields) == q
  {
    SixPrefixCalls(symbols, fields, q);
    var tail := fields[6..];
    assert tail[0] == "timeout" && tail[1..][0] == "format" && tail[1..][1..] == [];
    AllFieldCallsCons(symbols, tail);
    AllFieldCallsCons(symbols, tail[1..]);
    AllFieldCallsAppend(symbols, fields[..6], tail);
    assert fields[..6] + tail == fields;
    assert q[..6] + [q[6]] == q;
  }

  /** One more field, queried by one call, extends the calls of the fields before it. */
  lemma SnocFieldCalls(symbols: map<string, int>, fields: seq<string>, q: seq<Call>, k: nat)
    requires k < |fields| && k < |q|
    requires AllFieldCalls(symbols, fields[..k]) == q[..k] && FieldCalls(symbols, fields[k]) == [q[k]]
    ensures AllFieldCalls(symbols, fields[..k + 1]) == q[..k + 1]
  {
    AllFieldCallsAppend(symbols, fields[..k], [fields[k]]);
    assert fields[..k + 1] == fields[..k] + [fields[k]];
    assert q[..k + 1] == q[..k] + [q[k]];
  }

  /** The calls of the first one to six fields, each queried by one call. */
  lemma SixPrefixCalls(symbols: map<string, int>, fields: seq<string>, q: seq<Call>)
    requires |fields| >= 6 && |q| >= 6
    requires FieldCalls(symbols, fields[0]) == [q[0]] && FieldCalls(symbols, fields[1]) == [q[1]]
    requires FieldCalls(symbols, fields[2]) == [q[2]] && FieldCalls(symbols, fields[3]) == [q[3]]
    requires FieldCalls(symbols, fields[4]) == [q[4]] && FieldCalls(symbols, fields[5]) == [q[5]]
    ensures AllFieldCalls(symbols, fields[..1]) == q[..1] && AllFieldCalls(symbols, fields[..2]) == q[..2]
    ensures AllFieldCalls(symbols, fields[..3]) == q[..3] && AllFieldCalls(symbols, fields[..4]) == q[..4]
    ensures AllFieldCalls(symbols, fields[..5]) == q[..5] && AllFieldCalls(symbols, fields[..6]) == q[..6]
  {
    assert fields[..0] == [] && q[..0] == [];
    SnocFieldCalls(symbols, fields, q, 0);
    SnocFieldCalls(symbols, fields, q, 1);
    SnocFieldCalls(symbols, fields, q, 2);
    SnocFieldCalls(symbols, fields, q, 3);
    SnocFieldCalls(symbols, fields, q, 4);
    SnocFieldCalls(symbols, fields, q, 5);
  }

  /** `exposure` is queried by `LUCAM_PROP_EXPOSURE`. */
  lemma ExposureFieldCalls(symbols: map<string, int>)
    requires Bound(symbols) && Prefix + "EXPOSURE" in symbols
    ensures FieldCalls(symbols, "exposure") == [LucamGetProperty(symbols[Prefix + "EXPOSURE"])]
  {
    ExposureQuery();
    ScalarFieldCalls(symbols, "exposure", Prefix + "EXPOSURE");
  }

  /** `gain` is queried by `MemberSymbol(Gain)`. */
  lemma GainFieldCalls(symbols: map<string, int>)
    requires Bound(symbols) && Prefix + "EXPOSURE" in symbols
    ensures FieldCalls(symbols, "gain") == [LucamGetProperty(symbols[MemberSymbol(Gain)])]
  {
    GainQuery();
    ScalarFieldCalls(symbols, "gain", MemberSymbol(Gain));
  }

  /** `gainRed` is queried by `MemberSymbol(GainRed)`. */
  lemma GainRedFieldCalls(symbols: map<string, int>)
    requires Bound(symbols) && Prefix + "EXPOSURE" in symbols
    ensures FieldCalls(symbols, "gainRed") == [LucamGetProperty(symbols[MemberSymbol(GainRed)])]
  {
    GainRedQuery();
    ScalarFieldCalls(symbols, "gainRed", MemberSymbol(GainRed));
  }

  /** `gainBlue` is queried by `MemberSymbol(GainBlue)`. */
  lemma GainBlueFieldCalls(symbols: map<string, int>)
    requires Bound(symbols) && Prefix + "EXPOSURE" in symbols
    ensures FieldCalls(symbols, "gainBlue") == [LucamGetProperty(symbols[MemberSymbol(GainBlue)])]
  {
    GainBlueQuery();
    ScalarFieldCalls(symbols, "gainBlue", MemberSymbol(GainBlue));
  }

  /** `gainGrn1` is queried by `MemberSymbol(GainGreen1)`. */
  lemma GainGreen1FieldCalls(symbols: map<string, int>)
    requires Bound(symbols) && Prefix + "EXPOSURE" in symbols
    ensures FieldCalls(symbols, "gainGrn1") == [LucamGetProperty(symbols[MemberSymbol(GainGreen1)])]
  {
    GainGreen1Query();
    ScalarFieldCalls(symbols, "gainGrn1", MemberSymbol(GainGreen1));
  }

  /** `gainGrn2` is queried by `MemberSymbol(GainGreen2)`. */
  lemma GainGreen2FieldCalls(symbols: map<string, int>)
    requires Bound(symbols) && Prefix + "EXPOSURE" in symbols
    ensures FieldCalls(symbols, "gainGrn2") == [LucamGetProperty(symbols[MemberSymbol(GainGreen2)])]
  {
    GainGreen2Query();
    ScalarFieldCalls(symbols, "gainGrn2", MemberSymbol(GainGreen2));
  }

  /** The loop over the snapshot's fields issues `DefaultQueries`. */
  lemma DefaultQueriesIssued(symbols: map<string, int>)
    requires Bound(symbols) && Prefix + "EXPOSURE" in symbols
    ensures AllFieldCalls(symbols, SnapshotFields) == DefaultQueries(symbols)
    ensures var q := DefaultQueries(symbols);
      && AllFieldCalls(symbols, SnapshotFields[..1]) == q[..1] && AllFieldCalls(symbols, SnapshotFields[..2]) == q[..2]
      && AllFieldCalls(symbols, SnapshotFields[..3]) == q[..3] && AllFieldCalls(symbols, SnapshotFields[..4]) == q[..4]
      && AllFieldCalls(symbols, SnapshotFields[..5]) == q[..5] && AllFieldCalls(symbols, SnapshotFields[..6]) == q[..6]
  {
    var q := DefaultQueries(symbols);
    ExposureFieldCalls(symbols);
    GainFieldCalls(symbols);
    GainRedFieldCalls(symbols);
    GainBlueFieldCalls(symbols);
    GainGreen1FieldCalls(symbols);
    GainGreen2FieldCalls(symbols);
    EightFieldCalls(symbols, SnapshotFields, q);
    SixPrefixCalls(symbols, SnapshotFields, q);
  }

  /** The loop completes only if its first field did. */
  lemma QueryFieldsHead(lib: Library, st: CameraState, fields: seq<string>, kwargs: map<string, Value>)
    requires Bound(lib.symbols) && fields != []
    ensures QueryFields(lib, st, fields, kwargs).0.Success? ==> FieldStep(lib, st, fields[0]).0.Success?
  {
  }

  /** `get_default_snapshot` completes only if the library defines the exposure symbol. */
  lemma ExposureDefined(lib: Library, st: CameraState)
    requires Bound(lib.symbols)
    ensures QueryFields(lib, st, SnapshotFields, map[]).0.Success? ==> Prefix + "EXPOSURE" in lib.symbols
  {
    QueryFieldsHead(lib, st, SnapshotFields, map[]);
    FieldStepFacts(lib, st, "exposure");
    ExposureQuery();
  }

  /** No snapshot field is listed twice. */
  lemma SnapshotFieldsDistinct()
    ensures SnapshotFields[0] !in SnapshotFields[1..] && SnapshotFields[1] !in SnapshotFields[2..]
    ensures SnapshotFields[2] !in SnapshotFields[3..] && SnapshotFields[3] !in SnapshotFields[4..]
    ensures SnapshotFields[4] !in SnapshotFields[5..] && SnapshotFields[5] !in SnapshotFields[6..]
    ensures SnapshotFields[6] !in SnapshotFields[7..]
  {
  }

  /** A snapshot as `get_default_snapshot` reads it after the history `h`: each scalar is
      the value the library wrote for its own query, the timeout is 100 and the format is
      the one the library wrote for the final `LucamGetFormat`. */
  predicate QueriedSnapshot(lib: Library, h: seq<Call>, s: Snapshot)
    requires Bound(lib.symbols) && Prefix + "EXPOSURE" in lib.symbols
  {
    var q := DefaultQueries(lib.symbols);
    && s.exposure == lib.propertyValue(h + q[..1])
    && s.gain == lib.propertyValue(h + q[..2])
    && s.gainRed == lib.propertyValue(h + q[..3])
    && s.gainBlue == lib.propertyValue(h + q[..4])
    && s.gainGrn1 == lib.propertyValue(h + q[..5])
    && s.gainGrn2 == lib.propertyValue(h + q[..6])
    && s.timeout == 100.0
    && s.format == Record(FormatOf(lib.frameFormat(h + q)))
  }

  /** A field among the first six of the snapshot holds the value the library wrote for its
      own query. */
  lemma ScalarQueried(lib: Library, st: CameraState, k: nat, q: seq<Call>)
    requires Bound(lib.symbols) && k < 6 && |q| == 7
    requires SnapshotFields[k] !in SnapshotFields[k + 1..]
    requires AllFieldCalls(lib.symbols, SnapshotFields[..k + 1]) == q[..k + 1]
    ensures var (kw, _) := QueryFields(lib, st, SnapshotFields, map[]);
      kw.Success? ==>
        SnapshotFields[k] in kw.value && kw.value[SnapshotFields[k]] == Scalar(lib.propertyValue(st.calls + q[..k + 1]))
  {
    QueryFieldsValueAt(lib, st, SnapshotFields, map[], k);
  }

  /** The keyword arguments `get_default_snapshot` collects after the history `h`, each
      holding what the library wrote for its query. */
  predicate QueriedKwargs(lib: Library, h: seq<Call>, kw: map<string, Value>)
    requires Bound(lib.symbols) && Prefix + "EXPOSURE" in lib.symbols
  {
    var q := DefaultQueries(lib.symbols);
    && SnapshotKwargs(kw)
    && kw["exposure"] == Scalar(lib.propertyValue(h + q[..1]))
    && kw["gain"] == Scalar(lib.propertyValue(h + q[..2]))
    && kw["gainRed"] == Scalar(lib.propertyValue(h + q[..3]))
    && kw["gainBlue"] == Scalar(lib.propertyValue(h + q[..4]))
    && kw["gainGrn1"] == Scalar(lib.propertyValue(h + q[..5]))
    && kw["gainGrn2"] == Scalar(lib.propertyValue(h + q[..6]))
    && kw["timeout"] == Scalar(100.0)
    && kw["format"] == Frame(Record(FormatOf(lib.frameFormat(h + q))))
  }

  /** The first three scalars of the loop hold what the library wrote for their queries. */
  lemma LoopQueriedFirst(lib: Library, st: CameraState)
    requires Bound(lib.symbols) && Prefix + "EXPOSURE" in lib.symbols
    ensures var (kw, _) := QueryFields(lib, st, SnapshotFields, map[]);
      var q := DefaultQueries(lib.symbols);
      kw.Success? ==>
        && "exposure" in kw.value && kw.value["exposure"] == Scalar(lib.propertyValue(st.calls + q[..1]))
        && "gain" in kw.value && kw.value["gain"] == Scalar(lib.propertyValue(st.calls + q[..2]))
        && "gainRed" in kw.value && kw.value["gainRed"] == Scalar(lib.propertyValue(st.calls + q[..3]))
  {
    var q := DefaultQueries(lib.symbols);
    DefaultQueriesIssued(lib.symbols);
    SnapshotFieldsDistinct();
    ScalarQueried(lib, st, 0, q);
    ScalarQueried(lib, st, 1, q);
    ScalarQueried(lib, st, 2, q);
  }

  /** The other three scalars of the loop hold what the library wrote for their queries. */
  lemma LoopQueriedSecond(lib: Library, st: CameraState)
    requires Bound(lib.symbols) && Prefix + "EXPOSURE" in lib.symbols
    ensures var (kw, _) := QueryFields(lib, st, SnapshotFields, map[]);
      var q := DefaultQueries(lib.symbols);
      kw.Success? ==>
        && "gainBlue" in kw.value && kw.value["gainBlue"] == Scalar(lib.propertyValue(st.calls + q[..4]))
        && "gainGrn1" in kw.value && kw.value["gainGrn1"] == Scalar(lib.propertyValue(st.calls + q[..5]))
        && "gainGrn2" in kw.value && kw.value["gainGrn2"] == Scalar(lib.propertyValue(st.calls + q[..6]))
  {
    var q := DefaultQueries(lib.symbols);
    DefaultQueriesIssued(lib.symbols);
    SnapshotFieldsDistinct();
    ScalarQueried(lib, st, 3, q);
    ScalarQueried(lib, st, 4, q);
    ScalarQueried(lib, st, 5, q);
  }

  /** When the last of the fields is `format`, the loop completes with every call issued and
      the format the library wrote last. */
  lemma LastFieldQueried(lib: Library, st: CameraState, fields: seq<string>, q: seq<Call>)
    requires Bound(lib.symbols) && fields != [] && fields[|fields| - 1] == "format"
    requires AllFieldCalls(lib.symbols, fields) == q
    ensures var (kw, st1) := QueryFields(lib, st, fields, map[]);
      kw.Success? ==>
        && st1.calls == st.calls + q
        && "format" in kw.value && kw.value["format"] == Frame(Record(FormatOf(lib.frameFormat(st.calls + q))))
  {
    QueryFieldsCalls(lib, st, fields, map[]);
    QueryFieldsValueAt(lib, st, fields, map[], |fields| - 1);
    assert fields[..|fields|] == fields;
  }

  /** The format the loop collects is the one the library wrote for its last query. */
  lemma LoopQueriedFormat(lib: Library, st: CameraState)
    requires Bound(lib.symbols) && Prefix + "EXPOSURE" in lib.symbols
    ensures var (kw, st1) := QueryFields(lib, st, SnapshotFields, map[]);
      var q := DefaultQueries(lib.symbols);
      kw.Success? ==>
        && st1.calls == st.calls + q
        && "format" in kw.value && kw.value["format"] == Frame(Record(FormatOf(lib.frameFormat(st.calls + q))))
  {
    DefaultQueriesIssued(lib.symbols);
    LastFieldQueried(lib, st, SnapshotFields, DefaultQueries(lib.symbols));
  }

  /** The loop of `get_default_snapshot` collects what the library wrote for each query. */
  lemma LoopQueried(lib: Library, st: CameraState)
    requires Bound(lib.symbols)
    ensures var (kw, st1) := QueryFields(lib, st, SnapshotFields, map[]);
      kw.Success? ==>
        && Prefix + "EXPOSURE" in lib.symbols
        && st1.calls == st.calls + DefaultQueries(lib.symbols)
        && QueriedKwargs(lib, st.calls, kw.value)
  {
    var (kw, st1) := QueryFields(lib, st, SnapshotFields, map[]);
    if kw.Success? {
      ExposureDefined(lib, st);
      DefaultKwargs(lib, st);
      QueryFieldsValues(lib, st, SnapshotFields, map[]);
      LoopQueriedFirst(lib, st);
      LoopQueriedSecond(lib, st);
      LoopQueriedFormat(lib, st);
    }
  }

  /** The default snapshot holds what the library wrote for each of its queries, and the
      format it caches is the one written last. */
  lemma DefaultSnapshotValues(lib: Library, st: CameraState)
    requires Bound(lib.symbols)
    ensures var (r, st1) := DefaultSnapshotSpec(lib, st);
      r.Success? ==>
        && Prefix + "EXPOSURE" in lib.symbols
        && QueriedSnapshot(lib, st.calls, r.value)
        && st1.format == Some(FormatOf(lib.frameFormat(st1.calls)))
  {
    var (kw, st1) := QueryFields(lib, st, SnapshotFields, map[]);
    DefaultSnapshotOfLoop(lib, st, kw, st1);
    LoopQueried(lib, st);
  }

  // ---------------------------------------------------------------------------------------
  // Properties.

  /** `get_property`: an identifier that does not resolve issues no call; one that does is
      passed to `LucamGetProperty` as resolved, and the value is what the library writes. */
  lemma GetPropertyCalls(lib: Library, h: seq<Call>, id: PropertyId)
    requires Bound(lib.symbols)
    ensures var (r, h1) := GetPropertySpec(lib, h, id);
      match Resolve(lib.symbols, id)
      case Failure(e) => r == Failure(e) && h1 == h
      case Success(p) =>
        var issued := h + [LucamGetProperty(p)];
        && h1[..|issued|] == issued
        && (r.Success? <==> lib.ok(issued))
        && (r.Success? ==> h1 == issued && r.value == lib.propertyValue(issued))
        && (r.Failure? ==>
              h1 == issued + [LucamGetLastErrorForCamera] && r.error == LucamError(lib.lastError(h1)))
  {
  }

  /** `set_property` passes the resolved identifier, the value and the flags 0. */
  lemma SetPropertyCalls(lib: Library, h: seq<Call>, id: PropertyId, value: real)
    requires Bound(lib.symbols)
    ensures var (o, h1) := SetPropertySpec(lib, h, id, value);
      match Resolve(lib.symbols, id)
      case Failure(e) => o == Fail(e) && h1 == h
      case Success(p) =>
        var issued := h + [LucamSetProperty(p, value, 0)];
        && (o.Pass? <==> lib.ok(issued))
        && (o.Pass? ==> h1 == issued)
        && (o.Fail? ==> h1 == issued + [LucamGetLastErrorForCamera] && o.error == LucamError(lib.lastError(h1)))
  {
  }

  /** A name whose symbol is a member's is asked for exactly as the member is. */
  lemma NameAsMember(lib: Library, h: seq<Call>, name: string, p: LucamProperty)
    requires Bound(lib.symbols) && SymbolName(name) == MemberSymbol(p)
    ensures GetPropertySpec(lib, h, Name(name)) == GetPropertySpec(lib, h, Member(p))
  {
  }

  /** Every spelling of the red gain, the member included, asks the library for the same
      property, and the number a member stands for is passed on as is. */
  lemma GainRedSpellings(lib: Library, h: seq<Call>)
    requires Bound(lib.symbols)
    ensures GetPropertySpec(lib, h, Name("gainRed")) == GetPropertySpec(lib, h, Member(GainRed))
    ensures GetPropertySpec(lib, h, Name("GainRed")) == GetPropertySpec(lib, h, Member(GainRed))
    ensures GetPropertySpec(lib, h, Name("gain_red")) == GetPropertySpec(lib, h, Member(GainRed))
    ensures GetPropertySpec(lib, h, Number(lib.symbols[MemberSymbol(GainRed)])) == GetPropertySpec(lib, h, Member(GainRed))
  {
    GainRedSymbol();
    NameAsMember(lib, h, "gainRed", GainRed);
    CapitalisedGainRedSymbol();
    NameAsMember(lib, h, "GainRed", GainRed);
    UnderscoredGainRedSymbol();
    NameAsMember(lib, h, "gain_red", GainRed);
  }

  /** `get_format`: on success the format, the frame size and the frame rate are cached from
      what the library wrote; on failure only the calls change. Nothing else changes. */
  lemma GetFormatCaches(lib: Library, st: CameraState)
    ensures var (r, st1) := GetFormatSpec(lib, st);
      var issued := st.calls + [LucamGetFormat];
      && (r.Success? <==> lib.ok(issued))
      && (r.Success? ==>
        && r.value == FormatOf(lib.frameFormat(issued))
        && st1 == st.(calls := issued, format := Some(r.value), width := Some(r.value.width),
                     height := Some(r.value.height), framerate := lib.frameRate(issued)))
      && (r.Failure? ==>
        && st1 == st.(calls := issued + [LucamGetLastErrorForCamera])
        && r.error == LucamError(lib.lastError(st1.calls)))
      && (Consistent(st) ==> Consistent(st1))
  {
  }

  /** `get_default_snapshot`: the six scalar fields are queried in declaration order by the
      symbols of the enumeration (and the exposure symbol), then the format; `timeout` is 100
      and the format is the one `get_format` just cached. The snapshot is assigned only when
      every query succeeded, and the fast-frame flag never changes. */
  lemma DefaultSnapshotFacts(lib: Library, st: CameraState)
    requires Bound(lib.symbols)
    ensures var (r, st1) := DefaultSnapshotSpec(lib, st);
      && st1.fastFramesEnabled == st.fastFramesEnabled
      && (Consistent(st) ==> Consistent(st1))
      && (r.Failure? ==> st1.snapshot == st.snapshot)
      && (r.Success? ==>
        && Prefix + "EXPOSURE" in lib.symbols
        && st1.calls == st.calls + DefaultQueries(lib.symbols)
        && st1.snapshot == Some(r.value)
        && r.value.timeout == 100.0
        && st1.format.Some? && r.value.format == Record(st1.format.value))
  {
    var (q, st1) := QueryFields(lib, st, SnapshotFields, map[]);
    QueryFieldsFrame(lib, st, SnapshotFields, map[]);
    DefaultSnapshotOfLoop(lib, st, q, st1);
    if q.Success? {
      ExposureDefined(lib, st);
      QueryFieldsCalls(lib, st, SnapshotFields, map[]);
      DefaultQueriesIssued(lib.symbols);
    }
  }

  /** `enable_fast_frames`: the snapshot passed, or else the cached one, is converted and
      passed to the library; the flag is set exactly when that call succeeds, on any failure
      only the calls change, and a failing call raises the code the library reports. */
  lemma EnableFacts(lib: Library, st: CameraState, settings: Option<Snapshot>)
    ensures var (o, st1) := EnableSpec(lib, st, settings);
      var chosen := if settings.Some? then settings else st.snapshot;
      && (chosen.None? ==> o == Fail(AttributeError("snapshot")) && st1 == st)
      && (chosen.Some? && chosen.value.format.Struct? ==> o == Fail(AttributeError("as_lucam")) && st1 == st)
      && (chosen.Some? && chosen.value.format.Record? ==>
        var issued := st.calls + [LucamEnableFastFrames(LucamOf(chosen.value).value)];
        && (o.Pass? <==> lib.ok(issued))
        && (o.Pass? ==> st1 == st.(calls := issued, fastFramesEnabled := true))
        && (o.Fail? ==> st1 == st.(calls := issued + [LucamGetLastErrorForCamera])
                        && o == Fail(LucamError(lib.lastError(st1.calls)))))
      && (st1.fastFramesEnabled != st.fastFramesEnabled ==> o.Pass?)
      && (Consistent(st) ==> Consistent(st1))
  {
  }

  /** `disable_fast_frames`: the flag is cleared exactly when the call succeeds; a failing
      call raises the code the library reports. */
  lemma DisableFacts(lib: Library, st: CameraState)
    ensures var (o, st1) := DisableSpec(lib, st);
      var issued := st.calls + [LucamDisableFastFrames];
      && (o.Pass? <==> lib.ok(issued))
      && (o.Pass? ==> st1 == st.(calls := issued, fastFramesEnabled := false))
      && (o.Fail? ==> st1 == st.(calls := issued + [LucamGetLastErrorForCamera])
                      && o == Fail(LucamError(lib.lastError(st1.calls))))
      && (Consistent(st) ==> Consistent(st1))
  {
  }

  /** `take_fast_frame`: once the format is cached, the buffer has the cached height as rows
      and the cached width as columns, and it is returned exactly when the library fills it,
      a failure raising the code the library reports; without a cached format nothing is
      issued. */
  lemma FrameFacts(lib: Library, st: CameraState)
    requires Consistent(st)
    ensures var (r, h1) := FrameSpec(lib, st);
      && (st.format.None? ==> r == Failure(AttributeError("height")) && h1 == st.calls)
      && (st.format.Some? && st.format.value.width >= 0 && st.format.value.height >= 0 ==>
        var issued := st.calls + [LucamTakeFastFrame];
        && (r.Success? <==> lib.ok(issued))
        && (r.Success? ==> r.value == (st.format.value.height, st.format.value.width) && h1 == issued)
        && (r.Failure? ==> h1 == issued + [LucamGetLastErrorForCamera] && r.error == LucamError(lib.lastError(h1))))
  {
  }

  /** The streaming and balancing calls of `white_balance` over the region `w` by `h`. */
  function BalanceCalls(startX: int, startY: int, w: int, h: int): seq<Call> {
    [ LucamStreamVideoControl(StartStreaming),
      LucamOneShotAutoWhiteBalance(startX, startY, w, h),
      LucamStreamVideoControl(StopStreaming) ]
  }

  /** `white_balance` without a region it can read issues nothing and changes nothing. */
  lemma WhiteBalanceNeedsRegion(lib: Library, st: CameraState, startX: int, startY: int, width: Option<int>, height: Option<int>)
    requires Bound(lib.symbols) && Consistent(st)
    ensures st.format.None? && (width.None? || height.None?) ==>
      WhiteBalanceSpec(lib, st, startX, startY, width, height).1 == st
      && WhiteBalanceSpec(lib, st, startX, startY, width, height).0.Fail?
    ensures st.format.Some? || (width.Some? && height.Some?) ==> Region(st, width, height).Success?
  {
  }

  /** The middle of `white_balance` succeeds exactly when its three calls do, and stops at
      the first that fails: when the balance fails, streaming is not stopped. */
  lemma BalanceFacts(lib: Library, h: seq<Call>, startX: int, startY: int, w: int, ht: int)
    ensures var (o, h1) := BalanceSpec(lib, h, startX, startY, w, ht);
      var calls := BalanceCalls(startX, startY, w, ht);
      && (o.Pass? <==> lib.ok(h + calls[..1]) && lib.ok(h + calls[..2]) && lib.ok(h + calls))
      && (o.Pass? ==> h1 == h + calls)
      && (!lib.ok(h + calls[..1]) ==>
            h1 == h + calls[..1] + [LucamGetLastErrorForCamera] && o == Fail(LucamError(lib.lastError(h1))))
      && (lib.ok(h + calls[..1]) && !lib.ok(h + calls[..2]) ==>
            h1 == h + calls[..2] + [LucamGetLastErrorForCamera] && o == Fail(LucamError(lib.lastError(h1))))
      && (lib.ok(h + calls[..1]) && lib.ok(h + calls[..2]) && !lib.ok(h + calls) ==>
            h1 == h + calls + [LucamGetLastErrorForCamera] && o == Fail(LucamError(lib.lastError(h1))))
  {
    var calls := BalanceCalls(startX, startY, w, ht);
    assert h + calls[..1] == h + [calls[0]];
    assert h + calls[..2] == h + [calls[0]] + [calls[1]];
    assert h + calls == h + [calls[0]] + [calls[1]] + [calls[2]];
  }

  /** A successful `white_balance`: fast frames are disabled first if, and only if, they were
      enabled; then streaming starts, the balance runs over the given region (the cached
      frame size standing in for a dimension not given), streaming stops, the default
      snapshot is read again and fast frames are enabled with it. */
  lemma WhiteBalanceOrder(lib: Library, st: CameraState, startX: int, startY: int, width: Option<int>, height: Option<int>)
    requires Bound(lib.symbols)
    ensures var (o, st1) := WhiteBalanceSpec(lib, st, startX, startY, width, height);
      o.Pass? ==>
        && (width.Some? || st.width.Some?) && (height.Some? || st.height.Some?)
        && Prefix + "EXPOSURE" in lib.symbols
        && st1.fastFramesEnabled
        && st1.snapshot.Some? && st1.snapshot.value.format.Record?
        && var w := if width.Some? then width.value else st.width.value;
           var h := if height.Some? then height.value else st.height.value;
           var h2 := st.calls + (if st.fastFramesEnabled then [LucamDisableFastFrames] else [])
             + BalanceCalls(startX, startY, w, h);
           && st1.calls == h2 + DefaultQueries(lib.symbols)
                + [LucamEnableFastFrames(LucamOf(st1.snapshot.value).value)]
           && QueriedSnapshot(lib, h2, st1.snapshot.value)
           && st1.snapshot.value.timeout == 100.0
           && st1.format.Some? && st1.snapshot.value.format == Record(st1.format.value)
  {
    var (o, st1) := WhiteBalanceSpec(lib, st, startX, startY, width, height);
    if o.Pass? {
      var (w, h) := Region(st, width, height).value;
      DisableFacts(lib, st);
      var st0 := if st.fastFramesEnabled then DisableSpec(lib, st).1 else st;
      assert st0.calls == st.calls + (if st.fastFramesEnabled then [LucamDisableFastFrames] else []);
      BalanceFacts(lib, st0.calls, startX, startY, w, h);
      var h2 := BalanceSpec(lib, st0.calls, startX, startY, w, h).1;
      assert h2 == st0.calls + BalanceCalls(startX, startY, w, h);
      DefaultSnapshotFacts(lib, st0.(calls := h2));
      DefaultSnapshotValues(lib, st0.(calls := h2));
      var st3 := DefaultSnapshotSpec(lib, st0.(calls := h2)).1;
      EnableFacts(lib, st3, None);
      assert (o, st1) == EnableSpec(lib, st3, None);
    }
  }

  /** `white_balance` stops when `disable_fast_frames` fails: the error is fetched and
      raised, fast frames stay on and nothing else is issued. */
  lemma WhiteBalanceDisableFails(lib: Library, st: CameraState, startX: int, startY: int, width: Option<int>, height: Option<int>)
    requires Bound(lib.symbols)
    requires Region(st, width, height).Success?
    ensures var (o, st1) := WhiteBalanceSpec(lib, st, startX, startY, width, height);
      var disable := st.calls + [LucamDisableFastFrames];
      st.fastFramesEnabled && !lib.ok(disable) ==>
        && st1 == st.(calls := disable + [LucamGetLastErrorForCamera])
        && o == Fail(LucamError(lib.lastError(st1.calls)))
  {
    DisableFacts(lib, st);
  }

  /** `white_balance` stops at a failing start of streaming, a failing balance or a failing
      stop of streaming: the error is fetched and raised, fast frames are off and nothing
      after the failure is issued. */
  lemma WhiteBalanceStreamingFails(lib: Library, st: CameraState, startX: int, startY: int, width: Option<int>, height: Option<int>)
    requires Bound(lib.symbols)
    requires Region(st, width, height).Success?
    ensures var (o, st1) := WhiteBalanceSpec(lib, st, startX, startY, width, height);
      var (w, h) := Region(st, width, height).value;
      var h0 := st.calls + (if st.fastFramesEnabled then [LucamDisableFastFrames] else []);
      var calls := BalanceCalls(startX, startY, w, h);
      var off := st.(fastFramesEnabled := false);
      !st.fastFramesEnabled || lib.ok(st.calls + [LucamDisableFastFrames]) ==>
        && (!lib.ok(h0 + calls[..1]) ==>
              st1 == off.(calls := h0 + calls[..1] + [LucamGetLastErrorForCamera])
              && o == Fail(LucamError(lib.lastError(st1.calls))))
        && (lib.ok(h0 + calls[..1]) && !lib.ok(h0 + calls[..2]) ==>
              st1 == off.(calls := h0 + calls[..2] + [LucamGetLastErrorForCamera])
              && o == Fail(LucamError(lib.lastError(st1.calls))))
        && (lib.ok(h0 + calls[..1]) && lib.ok(h0 + calls[..2]) && !lib.ok(h0 + calls) ==>
              st1 == off.(calls := h0 + calls + [LucamGetLastErrorForCamera])
              && o == Fail(LucamError(lib.lastError(st1.calls))))
  {
    var (w, h) := Region(st, width, height).value;
    DisableFacts(lib, st);
    var h0 := st.calls + (if st.fastFramesEnabled then [LucamDisableFastFrames] else []);
    if !st.fastFramesEnabled || lib.ok(st.calls + [LucamDisableFastFrames]) {
      var st0 := if st.fastFramesEnabled then DisableSpec(lib, st).1 else st;
      assert st0 == st.(calls := h0, fastFramesEnabled := false);
      BalanceFacts(lib, h0, startX, startY, w, h);
    }
  }

  /** After a balance that succeeds, `white_balance` reads the default snapshot and, when
      that succeeds, enables fast frames with it. */
  lemma WhiteBalanceTail(lib: Library, st: CameraState, startX: int, startY: int, width: Option<int>, height: Option<int>)
    requires Bound(lib.symbols)
    requires Region(st, width, height).Success?
    ensures var (w, h) := Region(st, width, height).value;
      var h0 := st.calls + (if st.fastFramesEnabled then [LucamDisableFastFrames] else []);
      var (b, h2) := BalanceSpec(lib, h0, startX, startY, w, h);
      var (s, st3) := DefaultSnapshotSpec(lib, st.(calls := h2, fastFramesEnabled := false));
      (!st.fastFramesEnabled || lib.ok(st.calls + [LucamDisableFastFrames])) && b.Pass? ==>
        WhiteBalanceSpec(lib, st, startX, startY, width, height)
          == if s.Failure? then (Fail(s.error), st3) else EnableSpec(lib, st3, None)
  {
    DisableFacts(lib, st);
    var h0 := st.calls + (if st.fastFramesEnabled then [LucamDisableFastFrames] else []);
    if !st.fastFramesEnabled || lib.ok(st.calls + [LucamDisableFastFrames]) {
      var st0 := if st.fastFramesEnabled then DisableSpec(lib, st).1 else st;
      assert st0 == st.(calls := h0, fastFramesEnabled := false);
    }
  }

  /** After a balance that succeeds, `white_balance` stops at a failing query of the default
      snapshot, with fast frames off. */
  lemma WhiteBalanceSnapshotFails(lib: Library, st: CameraState, startX: int, startY: int, width: Option<int>, height: Option<int>)
    requires Bound(lib.symbols)
    requires Region(st, width, height).Success?
    ensures var (o, st1) := WhiteBalanceSpec(lib, st, startX, startY, width, height);
      var (w, h) := Region(st, width, height).value;
      var h0 := st.calls + (if st.fastFramesEnabled then [LucamDisableFastFrames] else []);
      var (b, h2) := BalanceSpec(lib, h0, startX, startY, w, h);
      var (s, st3) := DefaultSnapshotSpec(lib, st.(calls := h2, fastFramesEnabled := false));
      (!st.fastFramesEnabled || lib.ok(st.calls + [LucamDisableFastFrames])) && b.Pass? && s.Failure? ==>
        o == Fail(s.error) && st1 == st3 && !st1.fastFramesEnabled
  {
    WhiteBalanceTail(lib, st, startX, startY, width, height);
  }

  /** A default snapshot that was read is cached and carries a format record. */
  lemma DefaultSnapshotCached(lib: Library, st: CameraState)
    requires Bound(lib.symbols)
    ensures var (r, st1) := DefaultSnapshotSpec(lib, st);
      r.Success? ==> r.value.format.Record? && st1.snapshot == Some(r.value)
  {
    DefaultSnapshotFacts(lib, st);
  }

  /** A failing `enable_fast_frames` with a cached snapshot that carries a format record
      issues the enable with that snapshot, then fetches the error. */
  lemma EnableCachedFails(lib: Library, st: CameraState, s: Snapshot)
    requires st.snapshot == Some(s) && s.format.Record?
    ensures var (o, st1) := EnableSpec(lib, st, None);
      o.Fail? ==>
        && LucamOf(s).Success?
        && st1 == st.(calls := st.calls + [LucamEnableFastFrames(LucamOf(s).value), LucamGetLastErrorForCamera])
        && (st1.fastFramesEnabled <==> st.fastFramesEnabled)
  {
    EnableFacts(lib, st, None);
  }

  /** After a balance and a query of the default snapshot that succeed, a failing
      `enable_fast_frames` with that snapshot is followed only by the fetch of its error, and
      fast frames stay off. */
  lemma WhiteBalanceEnableFails(lib: Library, st: CameraState, startX: int, startY: int, width: Option<int>, height: Option<int>)
    requires Bound(lib.symbols)
    requires Region(st, width, height).Success?
    ensures var (o, st1) := WhiteBalanceSpec(lib, st, startX, startY, width, height);
      var (w, h) := Region(st, width, height).value;
      var h0 := st.calls + (if st.fastFramesEnabled then [LucamDisableFastFrames] else []);
      var (b, h2) := BalanceSpec(lib, h0, startX, startY, w, h);
      var (s, st3) := DefaultSnapshotSpec(lib, st.(calls := h2, fastFramesEnabled := false));
      (!st.fastFramesEnabled || lib.ok(st.calls + [LucamDisableFastFrames])) && b.Pass? && s.Success? && o.Fail? ==>
        && LucamOf(s.value).Success?
        && st1 == st3.(calls := st3.calls + [LucamEnableFastFrames(LucamOf(s.value).value),
                                             LucamGetLastErrorForCamera])
        && !st1.fastFramesEnabled
  {
    WhiteBalanceTail(lib, st, startX, startY, width, height);
    var (w, h) := Region(st, width, height).value;
    var h0 := st.calls + (if st.fastFramesEnabled then [LucamDisableFastFrames] else []);
    var h2 := BalanceSpec(lib, h0, startX, startY, w, h).1;
    var st2 := st.(calls := h2, fastFramesEnabled := false);
    DefaultSnapshotCached(lib, st2);
    var (s, st3) := DefaultSnapshotSpec(lib, st2);
    if s.Success? {
      assert !st3.fastFramesEnabled;
      EnableCachedFails(lib, st3, s.value);
    }
  }

  /** Opening a camera reads the format, then the default snapshot; fast frames start
      disabled. */
  lemma OpenFacts(lib: Library, number: int)
    requires Bound(lib.symbols)
    ensures var (o, st1) := OpenSpec(lib, number);
      && !st1.fastFramesEnabled
      && Consistent(st1)
      && (o.Fail? ==> st1.snapshot.None?)
      && (o.Pass? ==>
        && Prefix + "EXPOSURE" in lib.symbols
        && st1.calls == [LucamCameraOpen(number), LucamGetFormat] + DefaultQueries(lib.symbols)
        && st1.format.Some? && st1.snapshot.Some?)
  {
    GetFormatCaches(lib, Opened(number));
    var st0 := GetFormatSpec(lib, Opened(number)).1;
    DefaultSnapshotFacts(lib, st0);
  }
}
