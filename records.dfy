/** The experiment record container: `Frame` (everything measured at one
    instant) and `Data` (the run's metadata and its frames), as in
    src/lib/utils.py and the legacy copy src/utils.py.

    A frame is a Python dataclass whose attributes can also be set by name
    (`update`, `setattr`), so its state is modelled as a map from attribute
    name to a JSON-shaped value. The same holds for `Data`'s metadata fields,
    which `load` sets by name. Files are a map from path to the decoded JSON
    value they hold. */
module Records {
  import opened Py
  import opened Numerical

  /** Which copy of the classes: src/lib/utils.py or the legacy src/utils.py. */
  datatype Layout = Lib | Legacy

  type Attrs = map<string, Json>

  // ---------------------------------------------------------------------
  // Attribute names

  /** The dataclass fields of `Frame`; the legacy frame has no `tracker_pos`. */
  function FrameFields(layout: Layout): set<string>
  {
    var common := {"t", "accel", "dist", "mass", "rpm", "audio", "dt", "fft_freq", "fft_ampl",
                   "peak_freq", "peak_ampl", "compact"};
    if layout == Lib then common + {"tracker_pos"} else common
  }

  /** The methods of `Frame` (`hasattr` holds for them as well). */
  function FrameMethods(layout: Layout): set<string>
  {
    var common := {"compactify", "update", "get_total_mass", "get_mean_rpm", "get_mass_vec"};
    if layout == Lib then common + {"get_accel_vec", "get_dist"} else common
  }

  /** The names `hasattr(Frame, name)` accepts on the class itself: fields
      built with `default_factory` are not class attributes, so only `t`,
      `dt`, `compact` and the methods are. */
  function FrameClassAttrs(layout: Layout): set<string>
  {
    {"t", "dt", "compact"} + FrameMethods(layout)
  }

  /** `Frame()`: zero time and step, empty lists, not compact. */
  function FrameDefaults(layout: Layout): (a: Attrs)
    ensures a.Keys == FrameFields(layout)
  {
    map k | k in FrameFields(layout) :: FrameDefault(k)
  }

  /** The default of one frame field: zero time and step, not compact, an
      empty list for everything else. */
  function FrameDefault(name: string): Json
  {
    if name == "t" || name == "dt" then JNum(0.0)
    else if name == "compact" then JBool(false)
    else JList([])
  }

  /** The metadata fields of `Data`; the legacy class has no `audiofile`. */
  function DataFields(layout: Layout): set<string>
  {
    var common := {"height", "target_rpm", "timestamp", "platform", "description", "compact"};
    if layout == Lib then common + {"audiofile"} else common
  }

  /** `Data()`: every metadata field None, not compact. */
  function DataDefaults(layout: Layout): (a: Attrs)
    ensures a.Keys == DataFields(layout)
  {
    map k | k in DataFields(layout) :: if k == "compact" then JBool(false) else JNull
  }

  function Restrict(a: Attrs, names: set<string>): (r: Attrs)
    ensures r.Keys == a.Keys * names
    ensures forall k :: k in r ==> r[k] == a[k]
  {
    map k | k in a.Keys && k in names :: a[k]
  }

  lemma RestrictCovering(a: Attrs, names: set<string>)
    requires a.Keys <= names
    ensures Restrict(a, names) == a
  {
  }

  lemma OverrideCovered(d: Attrs, c: Attrs)
    requires d.Keys <= c.Keys
    ensures d + c == c
  {
  }

  lemma OverrideEmpty(a: Attrs)
    ensures a + map[] == a
  {
  }

  lemma UpdateSame(a: Attrs, k: string)
    requires k in a
    ensures a[k := a[k]] == a
  {
  }

  // ---------------------------------------------------------------------
  // Frame

  /** `Frame.compactify`: a copy (`dataclasses.replace` copies the dataclass
      fields only) with no audio, marked compact. */
  function Compacted(layout: Layout, a: Attrs): Attrs
  {
    (FrameDefaults(layout) + Restrict(a, FrameFields(layout)))["audio" := JList([])]["compact" := JBool(true)]
  }

  /** A compacted frame has exactly the frame fields, no audio, is marked
      compact and keeps every other field; compacting twice changes nothing
      more. */
  lemma CompactedSpec(layout: Layout, a: Attrs)
    requires FrameFields(layout) <= a.Keys
    ensures var c := Compacted(layout, a);
            c.Keys == FrameFields(layout) && c["audio"] == JList([]) && c["compact"] == JBool(true) &&
            (forall k :: k in FrameFields(layout) && k != "audio" && k != "compact" ==> c[k] == a[k]) &&
            Compacted(layout, c) == c
  {
    CompactedShape(layout, a);
    CompactedTwice(layout, Compacted(layout, a));
  }

  lemma CompactedShape(layout: Layout, a: Attrs)
    requires FrameFields(layout) <= a.Keys
    ensures var c := Compacted(layout, a);
            c.Keys == FrameFields(layout) && c["audio"] == JList([]) && c["compact"] == JBool(true) &&
            (forall k :: k in FrameFields(layout) && k != "audio" && k != "compact" ==> c[k] == a[k])
  {
    assert "audio" in FrameFields(layout) && "compact" in FrameFields(layout);
    SetTwice(FrameDefaults(layout), a, FrameFields(layout), "audio", JList([]), "compact", JBool(true));
  }

  /** Defaults overridden by the given fields, then two of them set. */
  lemma SetTwice(d: Attrs, a: Attrs, fields: set<string>, x: string, vx: Json, y: string, vy: Json)
    requires d.Keys == fields && fields <= a.Keys && x in fields && y in fields && x != y
    ensures var c := (d + Restrict(a, fields))[x := vx][y := vy];
            c.Keys == fields && c[x] == vx && c[y] == vy &&
            forall k :: k in fields && k != x && k != y ==> c[k] == a[k]
  {
  }

  lemma CompactedTwice(layout: Layout, c: Attrs)
    requires c.Keys == FrameFields(layout) && c["audio"] == JList([]) && c["compact"] == JBool(true)
    ensures Compacted(layout, c) == c
  {
    RestrictCovering(c, FrameFields(layout));
    OverrideCovered(FrameDefaults(layout), c);
    UpdateSame(c, "audio");
    UpdateSame(c, "compact");
  }

  /** `sum(v)` for the value of `mass`: numbers add up (an empty list gives
      0); an empty string or dict also gives 0; anything else is a TypeError. */
  function SumOf(v: Json): (r: Result<real>)
    ensures v == JList([]) ==> r == Ok(0.0)
  {
    match v
    case JList(items) => Sum(items)
    case JStr(s) => if s == [] then Ok(0.0) else Err(TypeError)
    case JObject(m) => if m == map[] then Ok(0.0) else Err(TypeError)
    case _ => Err(TypeError)
  }

  /** `Frame.get_total_mass`. */
  function TotalMass(a: Attrs): Result<real>
  {
    if "mass" !in a then Err(AttributeError) else SumOf(a["mass"])
  }

  /** The total mass of a frame holding numeric readings is their sum, and
      0 for no readings; compacting does not change it. */
  lemma TotalMassOfReadings(layout: Layout, a: Attrs, xs: seq<real>)
    requires FrameFields(layout) <= a.Keys && a["mass"] == JList(Nums(xs))
    ensures TotalMass(a) == Ok(SumReals(xs))
    ensures xs == [] ==> TotalMass(a) == Ok(0.0)
    ensures TotalMass(Compacted(layout, a)) == TotalMass(a)
  {
    assert "mass" in FrameFields(layout) && "mass" != "audio" && "mass" != "compact";
    SumOfNums(xs);
    assert TotalMass(a) == Sum(Nums(xs));
    CompactedShape(layout, a);
    var c := Compacted(layout, a);
    assert c["mass"] == a["mass"];
  }

  /** The guard of `Frame.get_mass_vec`: the nine readings of the nine-cell
      rig, an IndexError for any other count. The trigonometry that follows
      is not part of this model. */
  function MassVecInput(a: Attrs): (r: Result<seq<Json>>)
    ensures r.Ok? ==> "mass" in a && |r.value| == 9 && a["mass"] == JList(r.value)
    ensures r == Err(IndexError) <==> "mass" in a && Len(a["mass"]).Ok? && Len(a["mass"]).value != 9
  {
    if "mass" !in a then Err(AttributeError)
    else
      match Len(a["mass"])
      case Err(e) => Err(e)
      case Ok(n) =>
        if n != 9 then Err(IndexError)
        else if a["mass"].JList? then Ok(a["mass"].items)
        else Err(ValueError)     // `np.reshape` of a non-list
  }

  // ---------------------------------------------------------------------
  // Data.add

  /** The parameters of `Data.add` itself: a keyword with one of these names
      binds to the parameter and never reaches `**kwargs`. */
  const AddParams: set<string> := {"t", "audio", "dt", "fl", "fr"}

  /** The fields `add` passes to `Frame(...)` explicitly. */
  const Explicit: set<string> := {"t", "audio", "dt", "fft_freq", "fft_ampl", "peak_freq", "peak_ampl", "compact"}

  /** What the FFT and the peak finder make of a recording (not modelled). */
  datatype Spectrum = Spectrum(freq: Json, ampl: Json, peakX: seq<real>, peakY: seq<real>)

  /** `fft_freq`, `fft_ampl`, `peak_freq`, `peak_ampl` of a new frame: all
      None unless both `audio` and `dt` are truthy; the peaks sorted by
      `sort_peaks`. */
  function PeakColumns(audio: Json, dt: Json, fl: Json, fr: Json,
                       analyse: (Json, Json, Json, Json) -> Spectrum): (Json, Json, Json, Json)
  {
    if Truthy(audio) && Truthy(dt) then
      var sp := analyse(audio, dt, fl, fr);
      var sorted := SortPeaks(sp.peakX, sp.peakY);
      (sp.freq, sp.ampl, JList(Nums(sorted.0)), JList(Nums(sorted.1)))
    else (JNull, JNull, JNull, JNull)
  }

  /** The keywords that survive the filter of `add`: those naming an
      attribute of a `Frame` instance. */
  function KnownKeywords(layout: Layout, kwargs: Attrs): Attrs
  {
    Restrict(kwargs, FrameFields(layout) + FrameMethods(layout))
  }

  /** The frame `Data.add` appends: unknown keywords are dropped; a keyword
      repeating an explicit argument, or naming a method, makes `Frame(...)`
      raise TypeError. */
  function NewFrame(layout: Layout, t: Json, audio: Json, dt: Json, fl: Json, fr: Json, kwargs: Attrs,
                    analyse: (Json, Json, Json, Json) -> Spectrum): Result<Attrs>
  {
    var kw := KnownKeywords(layout, kwargs);
    if kw.Keys * Explicit != {} || !(kw.Keys <= FrameFields(layout)) then Err(TypeError)
    else
      Ok(FrameDefaults(layout) + (Given(t, audio, dt, PeakColumns(audio, dt, fl, fr, analyse)) + kw))
  }

  /** The explicit arguments `add` passes to `Frame(...)`. */
  function Given(t: Json, audio: Json, dt: Json, p: (Json, Json, Json, Json)): (g: Attrs)
    ensures g.Keys == Explicit
    ensures g["t"] == t && g["audio"] == audio && g["compact"] == JBool(false)
  {
    map["t" := t, "audio" := audio, "dt" := dt, "fft_freq" := p.0, "fft_ampl" := p.1,
        "peak_freq" := p.2, "peak_ampl" := p.3, "compact" := JBool(false)]
  }

  /** `add` keeps the keywords naming a frame field and drops every keyword
      that names no attribute; it raises only for a keyword repeating an
      explicit argument or naming a method. The new frame has exactly the
      frame fields, the given time, and is not compact. */
  lemma NewFrameSpec(layout: Layout, t: Json, audio: Json, dt: Json, fl: Json, fr: Json, kwargs: Attrs,
                     analyse: (Json, Json, Json, Json) -> Spectrum)
    requires kwargs.Keys !! AddParams
    ensures var r := NewFrame(layout, t, audio, dt, fl, fr, kwargs, analyse);
            (r.Err? <==> exists k :: k in kwargs && (k in Explicit || k in FrameMethods(layout))) &&
            (r.Ok? ==>
              r.value.Keys == FrameFields(layout) &&
              r.value["t"] == t && r.value["audio"] == audio && r.value["compact"] == JBool(false) &&
              (forall k :: k in kwargs && k in FrameFields(layout) ==> r.value[k] == kwargs[k]))
  {
    RejectedKeywords(layout, kwargs);
    var kw := KnownKeywords(layout, kwargs);
    if kw.Keys * Explicit == {} && kw.Keys <= FrameFields(layout) {
      var given := Given(t, audio, dt, PeakColumns(audio, dt, fl, fr, analyse));
      NewFrameFields(layout, given, kw);
      assert NewFrame(layout, t, audio, dt, fl, fr, kwargs, analyse) == Ok(FrameDefaults(layout) + (given + kw));
      assert forall k :: k in kwargs && k in FrameFields(layout) ==> k in kw;
    }
  }

  /** `Frame(...)` raises exactly when a kept keyword repeats an explicit
      argument or names a method. */
  lemma RejectedKeywords(layout: Layout, kwargs: Attrs)
    ensures var kw := KnownKeywords(layout, kwargs);
            (kw.Keys * Explicit != {} || !(kw.Keys <= FrameFields(layout))) <==>
            exists k :: k in kwargs && (k in Explicit || k in FrameMethods(layout))
  {
    var kw := KnownKeywords(layout, kwargs);
    ExplicitAreFields(layout);
    FieldsAndMethodsDisjoint(layout);
    if kw.Keys * Explicit != {} {
      var k :| k in kw.Keys * Explicit;
      assert k in kwargs && k in Explicit;
    } else if !(kw.Keys <= FrameFields(layout)) {
      var k :| k in kw.Keys && k !in FrameFields(layout);
      assert k in kwargs && k in FrameMethods(layout);
    } else {
      forall k | k in kwargs
        ensures !(k in Explicit || k in FrameMethods(layout))
      {
        assert k in FrameMethods(layout) || k in Explicit ==> k in kw.Keys;
      }
    }
  }

  /** The frame built from the explicit arguments and the kept keywords. */
  lemma NewFrameFields(layout: Layout, given: Attrs, kw: Attrs)
    requires given.Keys == Explicit && kw.Keys * Explicit == {} && kw.Keys <= FrameFields(layout)
    ensures var f := FrameDefaults(layout) + (given + kw);
            f.Keys == FrameFields(layout) &&
            (forall k :: k in given ==> f[k] == given[k]) && (forall k :: k in kw ==> f[k] == kw[k])
  {
    ExplicitAreFields(layout);
  }

  lemma ExplicitAreFields(layout: Layout)
    ensures Explicit <= FrameFields(layout)
  {
  }

  lemma FieldsAndMethodsDisjoint(layout: Layout)
    ensures FrameFields(layout) !! FrameMethods(layout)
  {
    assert FrameFields(layout) <= FrameFields(Lib) && FrameMethods(layout) <= FrameMethods(Lib);
    forall m | m in FrameMethods(Lib)
      ensures m !in FrameFields(Lib)
    {
      if m[0] == 'c' {
        assert |m| == 10;
      } else {
        assert m[0] == 'u' || m[0] == 'g';
      }
    }
  }

  /** The legacy `add` as written: it pops unknown keywords from `kwargs`
      while iterating over it, so the first removal makes the iteration raise
      RuntimeError; and it asks `hasattr` of the class, where only `t`, `dt`,
      `compact` and the methods exist. */
  function LegacyNewFrameAsWritten(t: Json, audio: Json, dt: Json, fl: Json, fr: Json, kwargs: Attrs,
                                   analyse: (Json, Json, Json, Json) -> Spectrum): Result<Attrs>
  {
    if !(kwargs.Keys <= FrameClassAttrs(Legacy)) then Err(RuntimeError)
    else NewFrame(Legacy, t, audio, dt, fl, fr, kwargs, analyse)
  }

  /** An Arduino reading passed to the legacy `add` (here its `mass` list)
      makes it raise instead of storing the reading, which the filtering
      `add` of src/lib/utils.py stores. */
  lemma LegacyAddRejectsReadings(t: Json, mass: Json, analyse: (Json, Json, Json, Json) -> Spectrum)
    ensures LegacyNewFrameAsWritten(t, JNull, JNull, JNum(0.0), JNum(20000.0), map["mass" := mass], analyse) == Err(RuntimeError)
    ensures var r := NewFrame(Legacy, t, JNull, JNull, JNum(0.0), JNum(20000.0), map["mass" := mass], analyse);
            r.Ok? && r.value["mass"] == mass
  {
    assert "mass" !in FrameClassAttrs(Legacy);
    assert KnownKeywords(Legacy, map["mass" := mass]) == map["mass" := mass];
  }

  /** With keywords the class does have, the legacy `add` agrees with the
      filtering one. */
  lemma LegacyAddAgreesOnClassAttrs(t: Json, audio: Json, dt: Json, fl: Json, fr: Json, kwargs: Attrs,
                                    analyse: (Json, Json, Json, Json) -> Spectrum)
    requires kwargs.Keys <= FrameClassAttrs(Legacy)
    ensures LegacyNewFrameAsWritten(t, audio, dt, fl, fr, kwargs, analyse) == NewFrame(Legacy, t, audio, dt, fl, fr, kwargs, analyse)
  {
  }

  // ---------------------------------------------------------------------
  // Data.get_frame and the per-frame projections

  /** The first frame, from index `from` on, whose time exceeds `t`;
      comparing a non-number with `t` raises TypeError. */
  function FirstAfter(rows: seq<Attrs>, t: real, from: nat): (r: Result<Option<nat>>)
    requires from <= |rows|
    ensures r.Ok? && r.value.Some? ==>
              from <= r.value.value < |rows| && "t" in rows[r.value.value] &&
              AsNumber(rows[r.value.value]["t"]).Some? && AsNumber(rows[r.value.value]["t"]).value > t
    ensures r.Ok? ==> forall j :: from <= j < |rows| && (r.value.None? || j < r.value.value) ==>
              "t" in rows[j] && AsNumber(rows[j]["t"]).Some? && AsNumber(rows[j]["t"]).value <= t
    decreases |rows| - from
  {
    if from == |rows| then Ok(None)
    else if "t" !in rows[from] then Err(AttributeError)
    else
      match AsNumber(rows[from]["t"])
      case None => Err(TypeError)
      case Some(x) => if x > t then Ok(Some(from)) else FirstAfter(rows, t, from + 1)
  }

  /** `Data.get_frame(ind, t)`, as the index of the frame it returns: both
      arguments truthy raises; a truthy `ind` indexes the list (negative
      from the end); a truthy `t` finds the first later frame; `0` counts as
      absent. */
  function FindFrame(rows: seq<Attrs>, ind: Option<int>, t: Option<real>): Result<Option<nat>>
  {
    var byIndex := ind.Some? && ind.value != 0;
    var byTime := t.Some? && t.value != 0.0;
    if byIndex && byTime then Err(Raised)
    else if byIndex then
      match Slot(ind.value, |rows|)
      case None => Err(IndexError)
      case Some(k) => Ok(Some(k))
    else if byTime then FirstAfter(rows, t.value, 0)
    else Ok(None)
  }

  /** The legacy `get_frame` as written: its time branch tests the undefined
      name `t`, so whenever `ind` is absent it raises NameError. */
  function LegacyFindFrameAsWritten(rows: seq<Attrs>, ind: Option<int>, t: Option<real>): Result<Option<nat>>
  {
    var byIndex := ind.Some? && ind.value != 0;
    var byTime := t.Some? && t.value != 0.0;
    if byIndex && byTime then Err(Raised)
    else if byIndex then
      match Slot(ind.value, |rows|)
      case None => Err(IndexError)
      case Some(k) => Ok(Some(k))
    else Err(NameError)
  }

  /** The legacy time search can never succeed, even when a later frame
      exists; the corrected one finds it. */
  lemma LegacyFindFrameNeverSearches(rows: seq<Attrs>, t: real)
    requires t != 0.0 && |rows| >= 1 && rows[0] == map["t" := JNum(t + 1.0)]
    ensures LegacyFindFrameAsWritten(rows, None, Some(t)) == Err(NameError)
    ensures FindFrame(rows, None, Some(t)) == Ok(Some(0))
  {
  }

  /** The two agree whenever an index is given. */
  lemma LegacyFindFrameAgreesByIndex(rows: seq<Attrs>, ind: int, t: Option<real>)
    requires ind != 0
    ensures LegacyFindFrameAsWritten(rows, Some(ind), t) == FindFrame(rows, Some(ind), t)
  {
  }

  /** `[getattr(frame, name) for frame in frames]` (`get_t`, `get_mass`,
      `get_peak_freq`, and the generic `get_*` of src/lib/utils.py). */
  function Column(rows: seq<Attrs>, name: string): (r: Result<seq<Json>>)
    ensures r.Ok? <==> forall i :: 0 <= i < |rows| ==> name in rows[i]
    ensures r.Err? ==> r.error == AttributeError
    ensures r.Ok? ==> |r.value| == |rows| && forall i :: 0 <= i < |rows| ==> r.value[i] == rows[i][name]
  {
    if rows == [] then Ok([])
    else
      match Column(rows[..|rows| - 1], name)
      case Err(e) => Err(e)
      case Ok(init) =>
        var last := rows[|rows| - 1];
        if name !in last then Err(AttributeError) else Ok(init + [last[name]])
  }

  /** `[frame.get_total_mass() for frame in frames]`: one total per frame, in
      frame order, or the first frame's error. */
  function TotalMasses(rows: seq<Attrs>): (r: Result<seq<real>>)
    ensures r.Ok? <==> forall i :: 0 <= i < |rows| ==> TotalMass(rows[i]).Ok?
    ensures r.Ok? ==> |r.value| == |rows| && forall i :: 0 <= i < |rows| ==> r.value[i] == TotalMass(rows[i]).value
  {
    if rows == [] then Ok([])
    else
      match TotalMasses(rows[..|rows| - 1])
      case Err(e) => Err(e)
      case Ok(init) =>
        match TotalMass(rows[|rows| - 1])
        case Err(e) => Err(e)
        case Ok(m) => Ok(init + [m])
  }

  // ---------------------------------------------------------------------
  // Data.clear, compactify, dump and load

  /** `Data.clear` on the metadata: `audiofile` is not reset. */
  function Cleared(meta: Attrs): Attrs
  {
    meta["height" := JNull]["target_rpm" := JNull]["timestamp" := JNull]["platform" := JNull]
        ["description" := JNull]["compact" := JBool(false)]
  }

  /** `clear` restores every metadata field but `audiofile` to its default,
      and keeps `audiofile`. */
  lemma ClearedSpec(layout: Layout, meta: Attrs)
    requires meta.Keys == DataFields(layout)
    ensures var c := Cleared(meta);
            c.Keys == DataFields(layout) &&
            (forall k :: k in DataFields(layout) && k != "audiofile" ==> c[k] == DataDefaults(layout)[k]) &&
            (layout == Lib ==> c["audiofile"] == meta["audiofile"])
  {
    var c := Cleared(meta);
    assert c.Keys == meta.Keys;
    forall k | k in DataFields(layout) && k != "audiofile"
      ensures c[k] == DataDefaults(layout)[k]
    {
    }
  }

  /** `[frame.compactify() for frame in frames]`, as values. */
  function CompactRows(layout: Layout, rows: seq<Attrs>): (r: seq<Attrs>)
    ensures |r| == |rows| && forall i :: 0 <= i < |rows| ==> r[i] == Compacted(layout, rows[i])
  {
    seq(|rows|, i requires 0 <= i < |rows| => Compacted(layout, rows[i]))
  }

  /** The saved form: the metadata fields plus `frames`, a list of each
      frame's attributes. */
  function DataJson(meta: Attrs, rows: seq<Attrs>): Json
  {
    JObject(meta["frames" := JList(Objects(rows))])
  }

  /** Each frame's attributes as a JSON object, in order. */
  function Objects(rows: seq<Attrs>): (r: seq<Json>)
    ensures |r| == |rows| && forall i :: 0 <= i < |rows| ==> r[i] == JObject(rows[i])
  {
    if rows == [] then [] else Objects(rows[..|rows| - 1]) + [JObject(rows[|rows| - 1])]
  }

  /** `Data.dump`: refuses a path that already exists. */
  function DumpData(fs: map<string, Json>, name: string, meta: Attrs, rows: seq<Attrs>): (r: Result<map<string, Json>>)
    ensures r.Err? <==> name in fs
    ensures r.Err? ==> r.error == IOError
    ensures r.Ok? ==> name in r.value && r.value.Keys == fs.Keys + {name} &&
                      forall other :: other in fs ==> r.value[other] == fs[other]
  {
    if name in fs then Err(IOError) else Ok(fs[name := DataJson(meta, rows)])
  }

  /** The metadata, frames and exception a call to `load` ends with. */
  datatype Loaded = Loaded(meta: Attrs, rows: seq<Attrs>, raised: Option<Error>)

  /** `Frame(); frame.update(d)` for each element of the saved list, in
      order; an element that is not a dict raises AttributeError and ends
      the loop, keeping the frames built before it. */
  function FramesFrom(layout: Layout, items: seq<Json>): (r: (seq<Attrs>, Option<Error>))
    ensures |r.0| <= |items|
    ensures r.1.None? ==> |r.0| == |items|
  {
    if items == [] then ([], None)
    else
      var p := FramesFrom(layout, items[..|items| - 1]);
      if p.1.Some? then p
      else
        match items[|items| - 1]
        case JObject(m) => (p.0 + [FrameDefaults(layout) + m], None)
        case _ => (p.0, Some(AttributeError))
  }

  /** `Data.load`: refuses a missing path and a record that already has
      frames; otherwise clears, sets the known metadata fields the file
      holds and rebuilds the frames in file order. */
  function LoadData(layout: Layout, meta: Attrs, rows: seq<Attrs>, fs: map<string, Json>, name: string): (r: Loaded)
    ensures name !in fs ==> r == Loaded(meta, rows, Some(IOError))
    ensures name in fs && rows != [] ==> r == Loaded(meta, rows, Some(Raised))
    ensures name in fs && rows == [] && meta.Keys == DataFields(layout) ==> r.meta.Keys == DataFields(layout)
  {
    if name !in fs then Loaded(meta, rows, Some(IOError))
    else if rows != [] then Loaded(meta, rows, Some(Raised))
    else
      var cleared := Cleared(meta);
      match fs[name]
      case JObject(d) =>
        var m := cleared + Restrict(d, DataFields(layout));
        if "frames" !in d then Loaded(m, [], Some(KeyError))
        else
          (match d["frames"]
           case JList(items) =>
             var p := FramesFrom(layout, items);
             Loaded(m, p.0, p.1)
           case JObject(o) => Loaded(m, [], if o == map[] then None else Some(AttributeError))
           case JStr(s) => Loaded(m, [], if s == [] then None else Some(AttributeError))
           case _ => Loaded(m, [], Some(TypeError)))
      case _ => Loaded(cleared, [], Some(AttributeError))
  }

  lemma {:induction false} FramesFromRows(layout: Layout, rows: seq<Attrs>)
    requires forall i :: 0 <= i < |rows| ==> FrameFields(layout) <= rows[i].Keys
    ensures FramesFrom(layout, Objects(rows)) == (rows, None)
  {
    if rows != [] {
      var items := Objects(rows);
      var init := rows[..|rows| - 1];
      var last := rows[|rows| - 1];
      assert items[..|items| - 1] == Objects(init);
      FramesFromRows(layout, init);
      OverrideCovered(FrameDefaults(layout), last);
      assert init + [last] == rows;
    }
  }

  /** Loading what `dump` saved, into a record without frames, restores the
      metadata and every frame's attributes. */
  lemma DumpLoadRoundTrip(layout: Layout, meta: Attrs, rows: seq<Attrs>, meta0: Attrs,
                          fs: map<string, Json>, name: string)
    requires meta.Keys == DataFields(layout) && meta0.Keys == DataFields(layout)
    requires forall i :: 0 <= i < |rows| ==> FrameFields(layout) <= rows[i].Keys
    requires name !in fs
    ensures DumpData(fs, name, meta, rows).Ok?
    ensures LoadData(layout, meta0, [], DumpData(fs, name, meta, rows).value, name) == Loaded(meta, rows, None)
  {
    var d := meta["frames" := JList(Objects(rows))];
    var fs' := DumpData(fs, name, meta, rows).value;
    assert fs'[name] == JObject(d);
    assert Cleared(meta0) + Restrict(d, DataFields(layout)) == meta by {
      SavedMetadata(layout, meta, JList(Objects(rows)));
      assert Cleared(meta0).Keys == DataFields(layout);
      OverrideCovered(Cleared(meta0), meta);
    }
    assert "frames" in d && d["frames"] == JList(Objects(rows));
    FramesFromRows(layout, rows);
    LoadObject(layout, meta0, fs', name, d, Objects(rows));
  }

  /** Loading a saved object whose `frames` is a list, into a record without
      frames: the cleared metadata overridden by the saved fields, and the
      frames rebuilt from the list. */
  lemma LoadObject(layout: Layout, meta: Attrs, fs: map<string, Json>, name: string, d: Attrs, items: seq<Json>)
    requires name in fs && fs[name] == JObject(d) && "frames" in d && d["frames"] == JList(items)
    ensures LoadData(layout, meta, [], fs, name)
         == Loaded(Cleared(meta) + Restrict(d, DataFields(layout)), FramesFrom(layout, items).0, FramesFrom(layout, items).1)
  {
  }

  /** The saved object, restricted to the metadata fields, is the metadata. */
  lemma SavedMetadata(layout: Layout, meta: Attrs, frames: Json)
    requires meta.Keys == DataFields(layout)
    ensures Restrict(meta["frames" := frames], DataFields(layout)) == meta
  {
    assert "frames" !in DataFields(layout);
  }

  /** The frames of a list of `Frame` objects, as values. */
  function RowsOf(fs: seq<Frame>): (r: seq<Attrs>)
    reads fs
    ensures |r| == |fs| && forall i :: 0 <= i < |fs| ==> r[i] == fs[i].attrs
  {
    if fs == [] then [] else RowsOf(fs[..|fs| - 1]) + [fs[|fs| - 1].attrs]
  }

  // ---------------------------------------------------------------------
  // The classes

  class Frame {
    const layout: Layout
    var attrs: Attrs

    /** `Frame(**given)`: the dataclass constructor accepts fields only. */
    constructor(layout: Layout, given: Attrs)
      requires given.Keys <= FrameFields(layout)
      ensures this.layout == layout && attrs == FrameDefaults(layout) + given
    {
      this.layout := layout;
      attrs := FrameDefaults(layout) + given;
    }

    /** `update`: `setattr` for every entry of `state` (any name). */
    method Update(state: Attrs)
      modifies this
      ensures attrs == old(attrs) + state
    {
      attrs := attrs + state;
    }

    method Compactify() returns (c: Frame)
      ensures fresh(c) && c.layout == layout && c.attrs == Compacted(layout, attrs)
    {
      c := new Frame(layout, Restrict(attrs, FrameFields(layout)));
      c.attrs := c.attrs["audio" := JList([])];
      c.attrs := c.attrs["compact" := JBool(true)];
    }
  }

  class Data {
    const layout: Layout
    /** The metadata fields (`height`, `target_rpm`, `timestamp`, `platform`,
        `audiofile` in src/lib/utils.py only, `description`, `compact`). */
    var meta: Attrs
    var frames: seq<Frame>

    /** Every frame belongs to the same copy of the classes as the record. */
    predicate Valid()
      reads this
    {
      forall f :: f in frames ==> f.layout == layout
    }

    constructor(layout: Layout)
      ensures this.layout == layout && meta == DataDefaults(layout) && frames == [] && Valid()
    {
      this.layout := layout;
      meta := DataDefaults(layout);
      frames := [];
    }

    /** `dataclasses.replace`: a record with the given fields. */
    constructor Copy(layout: Layout, meta: Attrs, frames: seq<Frame>)
      requires forall f :: f in frames ==> f.layout == layout
      ensures this.layout == layout && this.meta == meta && this.frames == frames && Valid()
    {
      this.layout := layout;
      this.meta := meta;
      this.frames := frames;
    }

    function Rows(): seq<Attrs>
      reads this, frames
    {
      RowsOf(frames)
    }

    /** `add`: appends exactly one new frame, or raises and appends none. */
    method Add(t: Json, audio: Json, dt: Json, fl: Json, fr: Json, kwargs: Attrs,
               analyse: (Json, Json, Json, Json) -> Spectrum) returns (raised: Option<Error>)
      requires Valid() && kwargs.Keys !! AddParams
      modifies this
      ensures Valid() && meta == old(meta)
      ensures match NewFrame(layout, t, audio, dt, fl, fr, kwargs, analyse)
              case Ok(a) => raised.None? && |frames| == |old(frames)| + 1 && frames[..|old(frames)|] == old(frames) &&
                            fresh(frames[|frames| - 1]) && Rows() == old(Rows()) + [a]
              case Err(e) => raised == Some(e) && frames == old(frames)
    {
      var kw := KnownKeywords(layout, kwargs);
      if kw.Keys * Explicit != {} || !(kw.Keys <= FrameFields(layout)) {
        raised := Some(TypeError);
        return;
      }
      var given := Given(t, audio, dt, PeakColumns(audio, dt, fl, fr, analyse));
      ExplicitAreFields(layout);
      var f := new Frame(layout, given + kw);
      Push(f);
      raised := None;
    }

    /** `self.frames.append(frame)`. */
    method Push(f: Frame)
      requires Valid() && f.layout == layout
      modifies this
      ensures Valid() && meta == old(meta) && frames == old(frames) + [f]
      ensures Rows() == old(Rows()) + [f.attrs]
    {
      frames := frames + [f];
      assert frames[..|old(frames)|] == old(frames);
    }

    /** `get_frame`: the frame at `ind`, or the first frame later than `t`. */
    method GetFrame(ind: Option<int>, t: Option<real>) returns (r: Result<Option<Frame>>)
      ensures match FindFrame(Rows(), ind, t)
              case Err(e) => r == Err(e)
              case Ok(None) => r == Ok(None)
              case Ok(Some(k)) => k < |frames| && r == Ok(Some(frames[k]))
    {
      var byIndex := ind.Some? && ind.value != 0;
      var byTime := t.Some? && t.value != 0.0;
      if byIndex && byTime {
        return Err(Raised);
      }
      if byIndex {
        var k := Slot(ind.value, |frames|);
        if k.None? {
          return Err(IndexError);
        }
        return Ok(Some(frames[k.value]));
      }
      if byTime {
        var rows := Rows();
        var i := 0;
        while i < |frames|
          invariant i <= |frames| && rows == Rows()
          invariant FirstAfter(rows, t.value, 0) == FirstAfter(rows, t.value, i)
        {
          var frame := frames[i];
          if "t" !in frame.attrs {
            return Err(AttributeError);
          }
          var x := AsNumber(frame.attrs["t"]);
          if x.None? {
            return Err(TypeError);
          }
          if x.value > t.value {
            return Ok(Some(frame));
          }
          i := i + 1;
        }
      }
      return Ok(None);
    }

    /** `clear`: resets the metadata (except `audiofile`) and empties the
        frame list. */
    method Clear()
      modifies this
      ensures meta == Cleared(old(meta)) && frames == [] && Valid()
    {
      meta := meta["height" := JNull];
      meta := meta["target_rpm" := JNull];
      meta := meta["timestamp" := JNull];
      meta := meta["platform" := JNull];
      meta := meta["description" := JNull];
      meta := meta["compact" := JBool(false)];
      frames := [];
    }

    /** `compactify`: a new record with the same metadata, marked compact,
        whose frames are new compacted copies; this record is unchanged. */
    method Compactify() returns (d: Data)
      requires Valid()
      ensures fresh(d) && d.Valid() && d.layout == layout && d.meta == meta["compact" := JBool(true)]
      ensures forall i :: 0 <= i < |d.frames| ==> fresh(d.frames[i])
      ensures d.Rows() == CompactRows(layout, old(Rows()))
    {
      var copies := CompactCopies();
      d := new Data.Copy(layout, meta["compact" := JBool(true)], copies);
    }

    /** `[frame.compactify() for frame in self.frames]`. */
    method CompactCopies() returns (copies: seq<Frame>)
      requires Valid()
      ensures |copies| == |frames|
      ensures forall j :: 0 <= j < |copies| ==>
                fresh(copies[j]) && copies[j].layout == layout && copies[j].attrs == Compacted(layout, old(frames[j].attrs))
    {
      copies := [];
      var i := 0;
      while i < |frames|
        invariant i <= |frames| && |copies| == i
        invariant forall j :: 0 <= j < i ==> fresh(copies[j])
        invariant forall j :: 0 <= j < i ==> copies[j].layout == layout
        invariant forall j :: 0 <= j < i ==> copies[j].attrs == Compacted(layout, old(frames[j].attrs))
      {
        ghost var prev := copies;
        assert frames[i].attrs == old(frames[i].attrs);
        var c := frames[i].Compactify();
        copies := copies + [c];
        assert copies[i].attrs == Compacted(layout, old(frames[i].attrs));
        forall j | 0 <= j < i
          ensures copies[j] == prev[j] && fresh(copies[j]) && copies[j].layout == layout
          ensures copies[j].attrs == Compacted(layout, old(frames[j].attrs))
        {
          assert copies[j] == prev[j];
        }
        i := i + 1;
      }
    }

    method Dump(fs: map<string, Json>, name: string) returns (r: Result<map<string, Json>>)
      ensures r == DumpData(fs, name, meta, Rows())
    {
      if name in fs {
        return Err(IOError);
      }
      r := Ok(fs[name := DataJson(meta, Rows())]);
    }

    method Load(fs: map<string, Json>, name: string) returns (raised: Option<Error>)
      modifies this
      requires Valid()
      ensures Valid()
      ensures Loaded(meta, Rows(), raised) == LoadData(layout, old(meta), old(Rows()), fs, name)
    {
      if name !in fs {
        return Some(IOError);
      }
      if frames != [] {
        return Some(Raised);
      }
      Clear();
      raised := None;
      var file := fs[name];
      if !file.JObject? {
        return Some(AttributeError);
      }
      var d := file.fields;
      meta := meta + Restrict(d, DataFields(layout));
      if "frames" !in d {
        return Some(KeyError);
      }
      match d["frames"]
      case JList(items) =>
        raised := LoadFrames(items);
      case JObject(o) =>
        if o != map[] {
          raised := Some(AttributeError);
        }
      case JStr(s) =>
        if s != [] {
          raised := Some(AttributeError);
        }
      case _ =>
        raised := Some(TypeError);
    }

    /** `frame = Frame(); frame.update(m); self.frames.append(frame)`. */
    method AppendLoaded(m: Attrs)
      requires Valid()
      modifies this
      ensures Valid() && meta == old(meta) && Rows() == old(Rows()) + [FrameDefaults(layout) + m]
    {
      var f := LoadedFrame(layout, m);
      Push(f);
    }

    /** `frame = Frame(); frame.update(m)`. */
    static method LoadedFrame(layout: Layout, m: Attrs) returns (f: Frame)
      ensures fresh(f) && f.layout == layout && f.attrs == FrameDefaults(layout) + m
    {
      f := new Frame(layout, map[]);
      OverrideEmpty(FrameDefaults(layout));
      f.Update(m);
    }

    /** The frame loop of `load`. */
    method LoadFrames(items: seq<Json>) returns (raised: Option<Error>)
      requires frames == []
      modifies this
      ensures Valid() && meta == old(meta)
      ensures (Rows(), raised) == FramesFrom(layout, items)
    {
      raised := None;
      var i := 0;
      while i < |items|
        invariant i <= |items| && meta == old(meta) && Valid()
        invariant (Rows(), None) == FramesFrom(layout, items[..i])
      {
        FramesFromNext(layout, items, i);
        match items[i] {
          case JObject(m) =>
            AppendLoaded(m);
          case _ =>
            FramesFromErrPersists(layout, items, i + 1);
            return Some(AttributeError);
        }
        i := i + 1;
      }
      assert items[..|items|] == items;
    }
  }

  lemma FramesFromNext(layout: Layout, items: seq<Json>, i: nat)
    requires i < |items| && FramesFrom(layout, items[..i]).1.None?
    ensures var p := FramesFrom(layout, items[..i]);
            FramesFrom(layout, items[..i + 1]) ==
              if items[i].JObject? then (p.0 + [FrameDefaults(layout) + items[i].fields], None)
              else (p.0, Some(AttributeError))
  {
    assert items[..i + 1][..i] == items[..i];
  }

  lemma {:induction false} FramesFromErrPersists(layout: Layout, items: seq<Json>, j: nat)
    requires j <= |items| && FramesFrom(layout, items[..j]).1.Some?
    ensures FramesFrom(layout, items) == FramesFrom(layout, items[..j])
  {
    if j < |items| {
      assert items[..|items| - 1][..j] == items[..j];
      FramesFromErrPersists(layout, items[..|items| - 1], j);
    } else {
      assert items[..j] == items;
    }
  }
}
