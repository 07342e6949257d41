/** A camera session (`LucamCamera`): the fields the wrapper caches and the calls it issues
    into the vendor library, in order.

    The library is an oracle: every answer it gives is a function of the calls issued before
    and including the one being answered, which stands for whatever state the library and the
    camera keep. A call that reports failure makes the wrapper ask for the camera's last error
    and raise it; a raised exception is a failure result that ends the method. */
module Session {
  import opened Results
  import opened ErrorCodes
  import opened PropertyNames
  import opened Marshalling

  datatype StreamCommand = StartStreaming | StopStreaming

  /** A call into the library, with the arguments the wrapper passes besides the camera
      handle and the output buffers. */
  datatype Call =
    | LucamCameraOpen(number: int)
    | LucamGetLastErrorForCamera
    | LucamGetProperty(property: int)
    | LucamSetProperty(property: int, value: real, flags: int)
    | LucamGetFormat
    | LucamEnableFastFrames(settings: LucamSnapshot)
    | LucamDisableFastFrames
    | LucamTakeFastFrame
    | LucamStreamVideoControl(command: StreamCommand)
    | LucamOneShotAutoWhiteBalance(startX: int, startY: int, width: int, height: int)
    | LucamCameraClose

  /** What the library answers. Each function is applied to the calls issued so far, the call
      being answered last. */
  datatype Library = Library(
    symbols: map<string, int>,              // the `LUCAM_PROP_*` names the library defines
    ok: seq<Call> -> bool,                  // whether the last call reports success
    lastError: seq<Call> -> int,            // the code `LucamGetLastErrorForCamera` returns
    propertyValue: seq<Call> -> real,       // the value `LucamGetProperty` writes
    frameFormat: seq<Call> -> LucamFrameFormat,  // the format `LucamGetFormat` writes
    frameRate: seq<Call> -> real,           // the frame rate `LucamGetFormat` writes
    pixel: (seq<Call>, int, int) -> bv8,    // the bytes `LucamTakeFastFrame` writes
    handle: seq<Call> -> int)               // the handle `LucamCameraOpen` returns

  /** The wrapper's side of a session: the calls issued so far and the cached fields. An
      attribute the wrapper has not assigned yet is `None`. */
  datatype CameraState = CameraState(
    calls: seq<Call>,
    format: Option<Format>,
    width: Option<int>,
    height: Option<int>,
    framerate: real,
    snapshot: Option<Snapshot>,
    fastFramesEnabled: bool)

  /** What the wrapper keeps true of its cache: `width` and `height` are assigned together
      with `format` and agree with it, and a cached snapshot holds a `Format` record. */
  predicate Consistent(st: CameraState) {
    && (st.format.Some? <==> st.width.Some?)
    && (st.format.Some? <==> st.height.Some?)
    && (st.format.Some? ==> st.width.value == st.format.value.width && st.height.value == st.format.value.height)
    && (st.snapshot.Some? ==> st.snapshot.value.format.Record?)
  }

  /** The state right after `LucamCameraOpen`: class defaults, nothing cached. */
  function Opened(number: int): CameraState {
    CameraState([LucamCameraOpen(number)], None, None, None, 30.0, None, false)
  }

  // ---------------------------------------------------------------------------------------
  // What each operation does, as a function of the library and the state before it.

  /** A checked call: `c` is issued, and if it reports failure the camera's last error is
      fetched and raised. */
  function Checked(lib: Library, h: seq<Call>, c: Call): (r: (Outcome<Error>, seq<Call>))
    ensures r.0.Pass? <==> lib.ok(h + [c])
    ensures h + [c] <= r.1 && |r.1| <= |h| + 2
    ensures r.0.Fail? ==> r.0.error.LucamError?
  {
    var h1 := h + [c];
    if lib.ok(h1) then (Pass, h1)
    else
      var h2 := h1 + [LucamGetLastErrorForCamera];
      (Fail(LucamError(lib.lastError(h2))), h2)
  }

  /** `get_property`. */
  function GetPropertySpec(lib: Library, h: seq<Call>, id: PropertyId): (r: (Result<real, Error>, seq<Call>))
    requires Bound(lib.symbols)
    ensures h <= r.1
    ensures Resolve(lib.symbols, id).Failure? ==> r.1 == h
  {
    match Resolve(lib.symbols, id)
    case Failure(e) => (Failure(e), h)
    case Success(p) =>
      var (o, h1) := Checked(lib, h, LucamGetProperty(p));
      if o.Pass? then (Success(lib.propertyValue(h1)), h1) else (Failure(o.error), h1)
  }

  /** `set_property`: the flags argument is always 0. */
  function SetPropertySpec(lib: Library, h: seq<Call>, id: PropertyId, value: real): (r: (Outcome<Error>, seq<Call>))
    requires Bound(lib.symbols)
    ensures h <= r.1
    ensures Resolve(lib.symbols, id).Failure? ==> r.1 == h
  {
    match Resolve(lib.symbols, id)
    case Failure(e) => (Fail(e), h)
    case Success(p) => Checked(lib, h, LucamSetProperty(p, value, 0))
  }

  /** `get_format`. */
  function GetFormatSpec(lib: Library, st: CameraState): (r: (Result<Format, Error>, CameraState))
    ensures st.calls < r.1.calls
    ensures r.1.snapshot == st.snapshot && r.1.fastFramesEnabled == st.fastFramesEnabled
    ensures r.0.Success? ==> r.1.format == Some(r.0.value)
    ensures r.0.Failure? ==> r.1.format == st.format
  {
    var (o, h1) := Checked(lib, st.calls, LucamGetFormat);
    if o.Fail? then (Failure(o.error), st.(calls := h1))
    else
      var f := FormatOf(lib.frameFormat(h1));
      (Success(f), st.(calls := h1, format := Some(f), framerate := lib.frameRate(h1),
        width := Some(f.width), height := Some(f.height)))
  }

  /** One iteration of the loop in `get_default_snapshot`: the value stored for `field`. */
  function FieldStep(lib: Library, st: CameraState, field: string): (r: (Result<Value, Error>, CameraState))
    requires Bound(lib.symbols)
    ensures st.calls <= r.1.calls
    ensures r.1.snapshot == st.snapshot && r.1.fastFramesEnabled == st.fastFramesEnabled
  {
    if field == "format" then
      var (r, st1) := GetFormatSpec(lib, st);
      (if r.Success? then Success(Frame(Record(r.value))) else Failure(r.error), st1)
    else if field == "timeout" then (Success(Scalar(100.0)), st)
    else
      var (r, h1) := GetPropertySpec(lib, st.calls, Name(SnapshotQueryName(field)));
      (if r.Success? then Success(Scalar(r.value)) else Failure(r.error), st.(calls := h1))
  }

  /** The loop in `get_default_snapshot` over `fields`, starting from `kwargs`. */
  function QueryFields(lib: Library, st: CameraState, fields: seq<string>, kwargs: map<string, Value>)
    : (r: (Result<map<string, Value>, Error>, CameraState))
    requires Bound(lib.symbols)
    ensures st.calls <= r.1.calls
    ensures r.1.snapshot == st.snapshot && r.1.fastFramesEnabled == st.fastFramesEnabled
    decreases |fields|
  {
    if fields == [] then (Success(kwargs), st)
    else
      var (r, st1) := FieldStep(lib, st, fields[0]);
      if r.Failure? then (Failure(r.error), st1)
      else QueryFields(lib, st1, fields[1..], kwargs[fields[0] := r.value])
  }

  /** `get_default_snapshot`: the snapshot is built and cached only once every field has a
      value. */
  function DefaultSnapshotSpec(lib: Library, st: CameraState): (r: (Result<Snapshot, Error>, CameraState))
    requires Bound(lib.symbols)
    ensures st.calls <= r.1.calls
    ensures r.1.fastFramesEnabled == st.fastFramesEnabled
  {
    var (r, st1) := QueryFields(lib, st, SnapshotFields, map[]);
    if r.Failure? then (Failure(r.error), st1)
    else
      DefaultKwargs(lib, st);
      var s := SnapshotFromKwargs(r.value);
      (Success(s), st1.(snapshot := Some(s)))
  }

  /** `enable_fast_frames`: `settings` or, when it is `None`, the cached snapshot. */
  function EnableSpec(lib: Library, st: CameraState, settings: Option<Snapshot>): (r: (Outcome<Error>, CameraState))
    ensures st.calls <= r.1.calls
    ensures r.1 == st.(calls := r.1.calls, fastFramesEnabled := r.1.fastFramesEnabled)
    ensures r.1.fastFramesEnabled <==> st.fastFramesEnabled || r.0.Pass?
    ensures r.0.Pass? ==> settings.Some? || st.snapshot.Some?
  {
    var chosen := if settings.Some? then Success(settings.value)
      else if st.snapshot.Some? then Success(st.snapshot.value)
      else Failure(AttributeError("snapshot"));
    if chosen.Failure? then (Fail(chosen.error), st)
    else
      match LucamOf(chosen.value)
      case Failure(e) => (Fail(e), st)
      case Success(n) =>
        var (o, h1) := Checked(lib, st.calls, LucamEnableFastFrames(n));
        (o, if o.Pass? then st.(calls := h1, fastFramesEnabled := true) else st.(calls := h1))
  }

  /** `disable_fast_frames`. */
  function DisableSpec(lib: Library, st: CameraState): (r: (Outcome<Error>, CameraState))
    ensures st.calls <= r.1.calls
    ensures r.1 == st.(calls := r.1.calls, fastFramesEnabled := r.1.fastFramesEnabled)
    ensures r.1.fastFramesEnabled <==> st.fastFramesEnabled && r.0.Fail?
  {
    var (o, h1) := Checked(lib, st.calls, LucamDisableFastFrames);
    (o, if o.Pass? then st.(calls := h1, fastFramesEnabled := false) else st.(calls := h1))
  }

  /** `take_fast_frame`: the shape of the buffer (rows, columns) and the calls issued. The
      shape is read from the cache before anything is issued; a negative dimension is
      refused when the buffer is allocated. */
  function FrameSpec(lib: Library, st: CameraState): (r: (Result<(int, int), Error>, seq<Call>))
    ensures st.calls <= r.1
    ensures r.0.Success? ==> st.height == Some(r.0.value.0) && st.width == Some(r.0.value.1)
    ensures r.0.Success? ==> r.0.value.0 >= 0 && r.0.value.1 >= 0
  {
    if st.height.None? then (Failure(AttributeError("height")), st.calls)
    else if st.width.None? then (Failure(AttributeError("width")), st.calls)
    else if st.height.value < 0 || st.width.value < 0 then
      (Failure(ValueError("negative dimensions are not allowed")), st.calls)
    else
      var (o, h1) := Checked(lib, st.calls, LucamTakeFastFrame);
      (if o.Pass? then Success((st.height.value, st.width.value)) else Failure(o.error), h1)
  }

  /** The region `white_balance` balances on: an argument left `None` is taken from the
      cache, where an unassigned attribute fails. */
  function Region(st: CameraState, width: Option<int>, height: Option<int>): (r: Result<(int, int), Error>)
    ensures r.Success? <==> (width.Some? || st.width.Some?) && (height.Some? || st.height.Some?)
    ensures r.Success? && width.Some? ==> r.value.0 == width.value
    ensures r.Success? && height.Some? ==> r.value.1 == height.value
  {
    if width.None? && st.width.None? then Failure(AttributeError("width"))
    else if height.None? && st.height.None? then Failure(AttributeError("height"))
    else
      Success((if width.Some? then width.value else st.width.value,
               if height.Some? then height.value else st.height.value))
  }

  /** The middle of `white_balance`: start streaming, balance over the region, stop
      streaming, each call checked. */
  function BalanceSpec(lib: Library, h: seq<Call>, startX: int, startY: int, w: int, ht: int): (r: (Outcome<Error>, seq<Call>))
    ensures h < r.1
    ensures r.0.Pass? ==> |r.1| == |h| + 3
  {
    var (o1, h1) := Checked(lib, h, LucamStreamVideoControl(StartStreaming));
    if o1.Fail? then (o1, h1)
    else
      var (o2, h2) := Checked(lib, h1, LucamOneShotAutoWhiteBalance(startX, startY, w, ht));
      if o2.Fail? then (o2, h2)
      else Checked(lib, h2, LucamStreamVideoControl(StopStreaming))
  }

  /** `white_balance`. */
  function WhiteBalanceSpec(lib: Library, st: CameraState, startX: int, startY: int, width: Option<int>, height: Option<int>)
    : (r: (Outcome<Error>, CameraState))
    requires Bound(lib.symbols)
    ensures st.calls <= r.1.calls
    ensures r.0.Pass? ==> r.1.fastFramesEnabled
  {
    match Region(st, width, height)
    case Failure(e) => (Fail(e), st)
    case Success((w, h)) =>
      var (o1, st1) := if st.fastFramesEnabled then DisableSpec(lib, st) else (Pass, st);
      if o1.Fail? then (o1, st1)
      else
        var (o2, h2) := BalanceSpec(lib, st1.calls, startX, startY, w, h);
        if o2.Fail? then (o2, st1.(calls := h2))
        else ResumeSpec(lib, st1.(calls := h2))
  }

  /** The end of `white_balance`, after the balance: the default snapshot is read again and
      fast frames are enabled with it. */
  function ResumeSpec(lib: Library, st: CameraState): (r: (Outcome<Error>, CameraState))
    requires Bound(lib.symbols)
    ensures st.calls <= r.1.calls
    ensures r.0.Pass? ==> r.1.fastFramesEnabled
  {
    var (r1, st1) := DefaultSnapshotSpec(lib, st);
    if r1.Failure? then (Fail(r1.error), st1)
    else EnableSpec(lib, st1, None)
  }

  /** `LucamCamera(number)`: the camera is opened without a check, then the format and the
      default snapshot are read. */
  function OpenSpec(lib: Library, number: int): (r: (Outcome<Error>, CameraState))
    requires Bound(lib.symbols)
    ensures [LucamCameraOpen(number)] < r.1.calls
    ensures !r.1.fastFramesEnabled
    ensures r.0.Pass? ==> r.1.snapshot.Some?
  {
    var (r1, st1) := GetFormatSpec(lib, Opened(number));
    if r1.Failure? then (Fail(r1.error), st1)
    else
      var (r2, st2) := DefaultSnapshotSpec(lib, st1);
      (if r2.Success? then Pass else Fail(r2.error), st2)
  }

  // ---------------------------------------------------------------------------------------
  // The loop of `get_default_snapshot`.

  /** The calls one field of `get_default_snapshot` issues when it succeeds. */
  function FieldCalls(symbols: map<string, int>, field: string): seq<Call> {
    if field == "format" then [LucamGetFormat]
    else if field == "timeout" then []
    else
      var symbol := SymbolName(SnapshotQueryName(field));
      if symbol in symbols then [LucamGetProperty(symbols[symbol])] else []
  }

  /** The calls the loop issues over `fields` when every field succeeds, in order. */
  function AllFieldCalls(symbols: map<string, int>, fields: seq<string>): seq<Call> {
    if fields == [] then [] else FieldCalls(symbols, fields[0]) + AllFieldCalls(symbols, fields[1..])
  }

  /** A map whose keys hold values of the kinds a snapshot's fields take. */
  predicate WellKinded(kwargs: map<string, Value>) {
    forall k :: k in kwargs ==> (kwargs[k].Frame? <==> k == "format")
  }

  /** One field of the loop: what it leaves alone, the calls it issues and the value it
      stores. */
  lemma FieldStepFacts(lib: Library, st: CameraState, field: string)
    requires Bound(lib.symbols)
    ensures var (r, st1) := FieldStep(lib, st, field);
      && st1.snapshot == st.snapshot
      && st1.fastFramesEnabled == st.fastFramesEnabled
      && (Consistent(st) ==> Consistent(st1))
      && (field != "format" ==> st1.format == st.format)
      && (r.Success? ==>
        && st1.calls == st.calls + FieldCalls(lib.symbols, field)
        && (field != "format" && field != "timeout" ==> SymbolName(SnapshotQueryName(field)) in lib.symbols)
        && (r.value.Frame? <==> field == "format")
        && (field == "timeout" ==> r.value == Scalar(100.0))
        && (field == "format" ==> st1.format.Some? && r.value == Frame(Record(st1.format.value))))
  {
  }

  /** The loop leaves the cached snapshot and the fast-frame flag alone and keeps the cache
      consistent, whether it completes or not. */
  lemma {:induction false} QueryFieldsFrame(lib: Library, st: CameraState, fields: seq<string>, kwargs: map<string, Value>)
    requires Bound(lib.symbols)
    ensures var (_, st1) := QueryFields(lib, st, fields, kwargs);
      && st1.snapshot == st.snapshot
      && st1.fastFramesEnabled == st.fastFramesEnabled
      && (Consistent(st) ==> Consistent(st1))
      && ("format" !in fields ==> st1.format == st.format)
    decreases |fields|
  {
    if fields != [] {
      FieldStepFacts(lib, st, fields[0]);
      var (r0, st0) := FieldStep(lib, st, fields[0]);
      if r0.Success? {
        QueryFieldsFrame(lib, st0, fields[1..], kwargs[fields[0] := r0.value]);
        assert "format" !in fields ==> "format" !in fields[1..];
      }
    }
  }

  /** A field that succeeds issues the calls `FieldCalls` lists. */
  lemma FieldStepCalls(lib: Library, st: CameraState, field: string)
    requires Bound(lib.symbols)
    ensures var (r, st1) := FieldStep(lib, st, field);
      r.Success? ==> st1.calls == st.calls + FieldCalls(lib.symbols, field)
  {
  }

  /** Appending in two steps appends the concatenation. */
  lemma AppendAssoc<T>(a: seq<T>, b: seq<T>, c: seq<T>)
    ensures a + (b + c) == (a + b) + c
  {
  }

  /** One turn of the loop: a field that gets a value is stored, and the loop goes on with
      the rest. */
  lemma QueryFieldsStep(lib: Library, st: CameraState, fields: seq<string>, kwargs: map<string, Value>)
    requires Bound(lib.symbols)
    requires fields != []
    ensures var (r0, st0) := FieldStep(lib, st, fields[0]);
      && (r0.Failure? ==> QueryFields(lib, st, fields, kwargs) == (Failure(r0.error), st0))
      && (r0.Success? ==>
            QueryFields(lib, st, fields, kwargs) == QueryFields(lib, st0, fields[1..], kwargs[fields[0] := r0.value]))
  {
  }

  /** When the loop completes, its calls went out one field after another, in order. */
  lemma {:induction false} QueryFieldsCalls(lib: Library, st: CameraState, fields: seq<string>, kwargs: map<string, Value>)
    requires Bound(lib.symbols)
    ensures var (r, st1) := QueryFields(lib, st, fields, kwargs);
      r.Success? ==> st1.calls == st.calls + AllFieldCalls(lib.symbols, fields)
    decreases |fields|
  {
    if fields != [] {
      FieldStepCalls(lib, st, fields[0]);
      QueryFieldsStep(lib, st, fields, kwargs);
      var (r0, st0) := FieldStep(lib, st, fields[0]);
      if r0.Success? {
        QueryFieldsCalls(lib, st0, fields[1..], kwargs[fields[0] := r0.value]);
        AppendAssoc(st.calls, FieldCalls(lib.symbols, fields[0]), AllFieldCalls(lib.symbols, fields[1..]));
      }
    }
  }

  /** When the loop completes, every field has a value of its kind, and keys it did not
      visit keep theirs. */
  lemma {:induction false} QueryFieldsKeys(lib: Library, st: CameraState, fields: seq<string>, kwargs: map<string, Value>)
    requires Bound(lib.symbols)
    ensures var (r, _) := QueryFields(lib, st, fields, kwargs);
      r.Success? ==>
        && (forall k :: k in fields ==> k in r.value)
        && (forall k :: k in kwargs && k !in fields ==> k in r.value && r.value[k] == kwargs[k])
        && (WellKinded(kwargs) ==> WellKinded(r.value))
    decreases |fields|
  {
    if fields != [] {
      FieldStepFacts(lib, st, fields[0]);
      var (r0, st0) := FieldStep(lib, st, fields[0]);
      if r0.Success? {
        QueryFieldsKeys(lib, st0, fields[1..], kwargs[fields[0] := r0.value]);
        assert forall k :: k in fields <==> k == fields[0] || k in fields[1..];
      }
    }
  }

  /** When the loop completes, `timeout` is 100 and `format` holds the format cached by the
      last `get_format`. */
  lemma {:induction false} QueryFieldsValues(lib: Library, st: CameraState, fields: seq<string>, kwargs: map<string, Value>)
    requires Bound(lib.symbols)
    ensures var (r, st1) := QueryFields(lib, st, fields, kwargs);
      r.Success? ==>
        && ("timeout" in fields ==> "timeout" in r.value && r.value["timeout"] == Scalar(100.0))
        && ("format" in fields ==>
              st1.format.Some? && "format" in r.value && r.value["format"] == Frame(Record(st1.format.value)))
    decreases |fields|
  {
    if fields != [] {
      FieldStepFacts(lib, st, fields[0]);
      var (r0, st0) := FieldStep(lib, st, fields[0]);
      if r0.Success? {
        var kwargs0 := kwargs[fields[0] := r0.value];
        QueryFieldsValues(lib, st0, fields[1..], kwargs0);
        QueryFieldsKeys(lib, st0, fields[1..], kwargs0);
        QueryFieldsFrame(lib, st0, fields[1..], kwargs0);
        assert forall k :: k in fields <==> k == fields[0] || k in fields[1..];
      }
    }
  }

  /** The value a field of the loop holds when its query succeeded and ended the history
      `h`: the format the library wrote, the constant timeout, or the property value it
      wrote. */
  function FieldValue(lib: Library, h: seq<Call>, field: string): Value {
    if field == "format" then Frame(Record(FormatOf(lib.frameFormat(h))))
    else if field == "timeout" then Scalar(100.0)
    else Scalar(lib.propertyValue(h))
  }

  /** A field that succeeds holds what the library wrote for it. */
  lemma FieldStepValue(lib: Library, st: CameraState, field: string)
    requires Bound(lib.symbols)
    ensures var (r, st1) := FieldStep(lib, st, field);
      r.Success? ==> r.value == FieldValue(lib, st1.calls, field)
  {
  }

  /** The calls of two lists of fields, one after the other. */
  lemma {:induction false} AllFieldCallsAppend(symbols: map<string, int>, a: seq<string>, b: seq<string>)
    ensures AllFieldCalls(symbols, a + b) == AllFieldCalls(symbols, a) + AllFieldCalls(symbols, b)
    decreases |a|
  {
    if a == [] {
      assert a + b == b;
    } else {
      assert (a + b)[0] == a[0] && (a + b)[1..] == a[1..] + b;
      AllFieldCallsAppend(symbols, a[1..], b);
      calc {
        AllFieldCalls(symbols, a + b);
        FieldCalls(symbols, a[0]) + AllFieldCalls(symbols, a[1..] + b);
        FieldCalls(symbols, a[0]) + (AllFieldCalls(symbols, a[1..]) + AllFieldCalls(symbols, b));
      }
    }
  }

  /** When the loop completes, a field it does not visit again holds the value the library
      wrote right after the calls of the fields up to and including it. */
  lemma {:induction false} QueryFieldsValueAt(lib: Library, st: CameraState, fields: seq<string>, kwargs: map<string, Value>, k: nat)
    requires Bound(lib.symbols)
    requires k < |fields| && fields[k] !in fields[k + 1..]
    ensures var (r, _) := QueryFields(lib, st, fields, kwargs);
      r.Success? ==>
        && fields[k] in r.value
        && r.value[fields[k]] == FieldValue(lib, st.calls + AllFieldCalls(lib.symbols, fields[..k + 1]), fields[k])
    decreases k
  {
    FieldStepValue(lib, st, fields[0]);
    FieldStepCalls(lib, st, fields[0]);
    QueryFieldsStep(lib, st, fields, kwargs);
    var (r0, st0) := FieldStep(lib, st, fields[0]);
    if r0.Success? {
      var kwargs0 := kwargs[fields[0] := r0.value];
      if k == 0 {
        QueryFieldsKeys(lib, st0, fields[1..], kwargs0);
        assert fields[..1] == [fields[0]] && fields[1..] == fields[k + 1..];
        assert AllFieldCalls(lib.symbols, fields[..1]) == FieldCalls(lib.symbols, fields[0]);
      } else {
        QueryFieldsValueAt(lib, st0, fields[1..], kwargs0, k - 1);
        assert fields[1..][k - 1] == fields[k] && fields[1..][k..] == fields[k + 1..];
        assert fields[..k + 1][0] == fields[0] && fields[..k + 1][1..] == fields[1..][..k];
        assert AllFieldCalls(lib.symbols, fields[..k + 1])
          == FieldCalls(lib.symbols, fields[0]) + AllFieldCalls(lib.symbols, fields[1..][..k]);
        AppendAssoc(st.calls, FieldCalls(lib.symbols, fields[0]), AllFieldCalls(lib.symbols, fields[1..][..k]));
      }
    }
  }

  /** The annotated fields of a snapshot, listed. */
  lemma SnapshotFieldsListed()
    ensures forall k :: k in SnapshotFields <==>
      k in {"exposure", "gain", "gainRed", "gainBlue", "gainGrn1", "gainGrn2", "timeout", "format"}
    ensures "timeout" in SnapshotFields && "format" in SnapshotFields
  {
  }

  /** A well-kinded map holding every field of a snapshot can build one. */
  lemma KindedKwargs(kwargs: map<string, Value>)
    requires forall k :: k in SnapshotFields ==> k in kwargs
    requires WellKinded(kwargs)
    ensures SnapshotKwargs(kwargs)
  {
    SnapshotFieldsListed();
  }

  /** When the loop of `get_default_snapshot` completes, its map can build a `Snapshot`. */
  lemma DefaultKwargs(lib: Library, st: CameraState)
    requires Bound(lib.symbols)
    ensures var (r, _) := QueryFields(lib, st, SnapshotFields, map[]);
      r.Success? ==> SnapshotKwargs(r.value)
  {
    QueryFieldsKeys(lib, st, SnapshotFields, map[]);
    var r := QueryFields(lib, st, SnapshotFields, map[]).0;
    if r.Success? {
      KindedKwargs(r.value);
    }
  }

  /** `get_default_snapshot` in terms of the outcome of its loop. */
  lemma DefaultSnapshotOfLoop(lib: Library, st: CameraState, r: Result<map<string, Value>, Error>, st1: CameraState)
    requires Bound(lib.symbols)
    requires (r, st1) == QueryFields(lib, st, SnapshotFields, map[])
    ensures r.Failure? ==> DefaultSnapshotSpec(lib, st) == (Failure(r.error), st1)
    ensures r.Success? ==>
      && SnapshotKwargs(r.value)
      && DefaultSnapshotSpec(lib, st) == (Success(SnapshotFromKwargs(r.value)), st1.(snapshot := Some(SnapshotFromKwargs(r.value))))
      && st1.format.Some?
      && SnapshotFromKwargs(r.value).format == Record(st1.format.value)
      && SnapshotFromKwargs(r.value).timeout == 100.0
  {
    DefaultKwargs(lib, st);
    QueryFieldsValues(lib, st, SnapshotFields, map[]);
    SnapshotFieldsListed();
  }

  // ---------------------------------------------------------------------------------------
  // The camera object.

  class LucamCamera {
    const lib: Library
    const handle: int
    var calls: seq<Call>
    var format: Option<Format>
    var width: Option<int>
    var height: Option<int>
    var framerate: real
    var snapshot: Option<Snapshot>
    var fastFramesEnabled: bool

    function State(): CameraState
      reads this
    {
      CameraState(calls, format, width, height, framerate, snapshot, fastFramesEnabled)
    }

    predicate Valid()
      reads this
    {
      Bound(lib.symbols) && Consistent(State())
    }

    /** `LucamCameraOpen(number)`, with the class defaults. */
    constructor Init(lib: Library, number: int)
      requires Bound(lib.symbols)
      ensures this.lib == lib && Valid() && State() == Opened(number)
      ensures handle == lib.handle([LucamCameraOpen(number)])
    {
      this.lib := lib;
      handle := lib.handle([LucamCameraOpen(number)]);
      calls := [LucamCameraOpen(number)];
      format, width, height := None, None, None;
      framerate := 30.0;
      snapshot := None;
      fastFramesEnabled := false;
    }

    /** `LucamCamera(number)`. */
    static method Open(lib: Library, number: int := 1) returns (r: Result<LucamCamera, Error>)
      requires Bound(lib.symbols)
      ensures r.Success? <==> OpenSpec(lib, number).0.Pass?
      ensures r.Failure? ==> r.error == OpenSpec(lib, number).0.error
      ensures r.Success? ==> (fresh(r.value) && r.value.lib == lib && r.value.Valid()
        && r.value.State() == OpenSpec(lib, number).1)
    {
      var camera := new LucamCamera.Init(lib, number);
      var f := camera.GetFormat();
      if f.Failure? {
        return Failure(f.error);
      }
      var s := camera.GetDefaultSnapshot();
      if s.Failure? {
        return Failure(s.error);
      }
      r := Success(camera);
    }

    /** Issues one call. */
    method Issue(c: Call) returns (ok: bool)
      modifies this`calls
      ensures calls == old(calls) + [c] && ok == lib.ok(calls)
    {
      calls := calls + [c];
      ok := lib.ok(calls);
    }

    /** `get_last_error`. */
    method GetLastError() returns (code: int)
      modifies this`calls
      ensures calls == old(calls) + [LucamGetLastErrorForCamera] && code == lib.lastError(calls)
    {
      var _ := Issue(LucamGetLastErrorForCamera);
      code := lib.lastError(calls);
    }

    /** A checked call, `raise LucamError(self)` on failure. */
    method IssueChecked(c: Call) returns (o: Outcome<Error>)
      modifies this`calls
      ensures (o, calls) == Checked(lib, old(calls), c)
    {
      var ok := Issue(c);
      if ok {
        return Pass;
      }
      var code := GetLastError();
      o := Fail(LucamError(code));
    }

    /** `get_property`. */
    method GetProperty(id: PropertyId) returns (r: Result<real, Error>)
      requires Valid()
      modifies this`calls
      ensures Valid()
      ensures (r, calls) == GetPropertySpec(lib, old(calls), id)
    {
      var p := Resolve(lib.symbols, id);
      if p.Failure? {
        return Failure(p.error);
      }
      var o := IssueChecked(LucamGetProperty(p.value));
      if o.Fail? {
        return Failure(o.error);
      }
      r := Success(lib.propertyValue(calls));
    }

    /** `set_property`. */
    method SetProperty(id: PropertyId, value: real) returns (o: Outcome<Error>)
      requires Valid()
      modifies this`calls
      ensures Valid()
      ensures (o, calls) == SetPropertySpec(lib, old(calls), id, value)
    {
      var p := Resolve(lib.symbols, id);
      if p.Failure? {
        return Fail(p.error);
      }
      o := IssueChecked(LucamSetProperty(p.value, value, 0));
    }

    /** `get_format`. */
    method GetFormat() returns (r: Result<Format, Error>)
      requires Valid()
      modifies this
      ensures Valid()
      ensures (r, State()) == GetFormatSpec(lib, old(State()))
    {
      var o := IssueChecked(LucamGetFormat);
      if o.Fail? {
        return Failure(o.error);
      }
      var f := FormatFromLucam(lib.frameFormat(calls));
      format := Some(f);
      framerate := lib.frameRate(calls);
      width := Some(f.width);
      height := Some(f.height);
      r := Success(f);
    }

    /** The body of the loop in `get_default_snapshot`: the value for one field. */
    method QueryField(field: string) returns (r: Result<Value, Error>)
      requires Valid()
      modifies this
      ensures Valid()
      ensures (r, State()) == FieldStep(lib, old(State()), field)
    {
      if field == "format" {
        var f := GetFormat();
        if f.Failure? {
          return Failure(f.error);
        }
        r := Success(Frame(Record(f.value)));
      } else if field == "timeout" {
        r := Success(Scalar(100.0));
      } else {
        var name := if Contains(field, "Grn") then ReplaceAll(field, "Grn", "Green") else field;
        var v := GetProperty(Name(name));
        if v.Failure? {
          return Failure(v.error);
        }
        r := Success(Scalar(v.value));
      }
    }

    /** The loop of `get_default_snapshot` over `fields`, adding to `kwargs`. */
    method QueryFieldsLoop(fields: seq<string>, kwargs: map<string, Value>) returns (r: Result<map<string, Value>, Error>)
      requires Valid()
      modifies this
      ensures Valid()
      ensures (r, State()) == QueryFields(lib, old(State()), fields, kwargs)
    {
      var values := kwargs;
      for i := 0 to |fields|
        invariant Valid()
        invariant QueryFields(lib, old(State()), fields, kwargs) == QueryFields(lib, State(), fields[i..], values)
      {
        var property := fields[i];
        assert fields[i..][0] == property && fields[i..][1..] == fields[i + 1..];
        var value := QueryField(property);
        if value.Failure? {
          return Failure(value.error);
        }
        values := values[property := value.value];
      }
      r := Success(values);
    }

    /** `get_default_snapshot`. */
    method GetDefaultSnapshot() returns (r: Result<Snapshot, Error>)
      requires Valid()
      modifies this
      ensures Valid()
      ensures (r, State()) == DefaultSnapshotSpec(lib, old(State()))
    {
      var kwargs := QueryFieldsLoop(SnapshotFields, map[]);
      DefaultSnapshotOfLoop(lib, old(State()), kwargs, State());
      if kwargs.Failure? {
        return Failure(kwargs.error);
      }
      var s := SnapshotFromKwargs(kwargs.value);
      ghost var looped := State();
      snapshot := Some(s);
      assert State() == looped.(snapshot := Some(s));
      r := Success(s);
    }

    /** `enable_fast_frames`. */
    method EnableFastFrames(settings: Option<Snapshot> := None) returns (o: Outcome<Error>)
      requires Valid()
      modifies this
      ensures Valid()
      ensures (o, State()) == EnableSpec(lib, old(State()), settings)
    {
      var chosen: Snapshot;
      if settings.Some? {
        chosen := settings.value;
      } else if snapshot.Some? {
        chosen := snapshot.value;
      } else {
        return Fail(AttributeError("snapshot"));
      }
      var n := SnapshotAsLucam(chosen);
      if n.Failure? {
        return Fail(n.error);
      }
      o := IssueChecked(LucamEnableFastFrames(n.value));
      if o.Pass? {
        fastFramesEnabled := true;
      }
    }

    /** `disable_fast_frames`. */
    method DisableFastFrames() returns (o: Outcome<Error>)
      requires Valid()
      modifies this
      ensures Valid()
      ensures (o, State()) == DisableSpec(lib, old(State()))
    {
      o := IssueChecked(LucamDisableFastFrames);
      if o.Pass? {
        fastFramesEnabled := false;
      }
    }

    /** `take_fast_frame`: a buffer of `height` rows and `width` columns that the library
        fills. */
    method TakeFastFrame() returns (r: Result<array2<bv8>, Error>)
      requires Valid()
      modifies this`calls
      ensures Valid()
      ensures var (shape, h) := FrameSpec(lib, old(State()));
        && calls == h
        && (r.Success? <==> shape.Success?)
        && (r.Failure? ==> r.error == shape.error)
        && (r.Success? ==> fresh(r.value) && r.value.Length0 == shape.value.0 && r.value.Length1 == shape.value.1)
        && (r.Success? ==> forall i, j :: 0 <= i < r.value.Length0 && 0 <= j < r.value.Length1 ==>
              r.value[i, j] == lib.pixel(h, i, j))
    {
      if height.None? {
        return Failure(AttributeError("height"));
      }
      if width.None? {
        return Failure(AttributeError("width"));
      }
      var rows, columns := height.value, width.value;
      if rows < 0 || columns < 0 {
        return Failure(ValueError("negative dimensions are not allowed"));
      }
      var o := IssueChecked(LucamTakeFastFrame);
      if o.Fail? {
        return Failure(o.error);
      }
      var written := calls;
      var frame := new bv8[rows, columns]((i, j) => lib.pixel(written, i, j));
      r := Success(frame);
    }

    /** `white_balance`. */
    method WhiteBalance(startX: int := 0, startY: int := 0, width: Option<int> := None, height: Option<int> := None)
      returns (o: Outcome<Error>)
      requires Valid()
      modifies this
      ensures Valid()
      ensures (o, State()) == WhiteBalanceSpec(lib, old(State()), startX, startY, width, height)
    {
      var region := Region(State(), width, height);
      if region.Failure? {
        return Fail(region.error);
      }
      var (w, h) := region.value;
      if fastFramesEnabled {
        o := DisableFastFrames();
        if o.Fail? {
          return;
        }
      }
      o := IssueChecked(LucamStreamVideoControl(StartStreaming));
      if o.Fail? {
        return;
      }
      o := IssueChecked(LucamOneShotAutoWhiteBalance(startX, startY, w, h));
      if o.Fail? {
        return;
      }
      o := IssueChecked(LucamStreamVideoControl(StopStreaming));
      if o.Fail? {
        return;
      }
      var s := GetDefaultSnapshot();
      if s.Failure? {
        return Fail(s.error);
      }
      o := EnableFastFrames();
    }

    /** `camera_close`. */
    method CameraClose() returns (o: Outcome<Error>)
      modifies this`calls
      ensures (o, calls) == Checked(lib, old(calls), LucamCameraClose)
    {
      o := IssueChecked(LucamCameraClose);
    }
  }
}
