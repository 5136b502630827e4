/** One microcontroller link (`Arduino` in src/lib/ard.py): the telemetry
    record `ArdReading`, parsing the cached `DAT` line into it, the busy flag,
    the `IDEN`/`CALIB` handshake loop and the `MOVE` command text.
    The same record and parser serve the legacy src/ard.py, whose reading has
    no `operating` field (see `LegacySchema`). */
module ArdLink {
  import opened Py

  /** The component groups of a reading or a mapping. */
  datatype Component = Accel | Dist | Mass | Motor | Operating

  /** The dataclass field name of a component. */
  function Name(c: Component): string
  {
    match c
    case Accel => "accel"
    case Dist => "dist"
    case Mass => "mass"
    case Motor => "motor"
    case Operating => "operating"
  }

  lemma NameInjective(c: Component, d: Component)
    ensures Name(c) == Name(d) ==> c == d
  {
  }

  /** The fields of `ArdReading` and `ArdMapping` in src/lib/ard.py, in
      declaration order. */
  const LibSchema: seq<Component> := [Accel, Dist, Mass, Motor, Operating]

  /** The fields of `ArdReading`, `ArdMapping` and `COMPONENTS` in src/ard.py. */
  const LegacySchema: seq<Component> := [Accel, Dist, Mass, Motor]

  function SchemaSet(schema: seq<Component>): set<Component>
  {
    set c | c in schema
  }

  /** A reading: one value per field of the schema. */
  type Reading = map<Component, Json>

  /** `ArdReading()`: every field an empty list. */
  function EmptyReading(schema: seq<Component>): (r: Reading)
    ensures r.Keys == SchemaSet(schema)
    ensures forall c :: c in r ==> r[c] == JList([])
  {
    map c | c in schema :: JList([])
  }

  /** `ArdReading.load`: keys naming a field replace that field; every
      other key is ignored, and fields the payload does not mention keep
      their value. */
  function Load(r: Reading, payload: map<string, Json>): (r': Reading)
    ensures r'.Keys == r.Keys
    ensures forall c :: c in r && Name(c) in payload ==> r'[c] == payload[Name(c)]
    ensures forall c :: c in r && Name(c) !in payload ==> r'[c] == r[c]
  {
    map c | c in r :: if Name(c) in payload then payload[Name(c)] else r[c]
  }

  /** A key that names no field cannot change what `Load` produces: unknown
      telemetry fields are tolerated and corrupt nothing. */
  lemma LoadIgnoresUnknownKey(r: Reading, payload: map<string, Json>, key: string, v: Json)
    requires forall c :: c in r ==> Name(c) != key
    ensures Load(r, payload[key := v]) == Load(r, payload)
    ensures Load(r, payload - {key}) == Load(r, payload)
  {
    var p1 := payload[key := v];
    var p2 := payload - {key};
    forall c | c in r
      ensures Load(r, p1)[c] == Load(r, payload)[c] && Load(r, p2)[c] == Load(r, payload)[c]
    {
      assert Name(c) in p1 <==> Name(c) in payload;
      assert Name(c) in p2 <==> Name(c) in payload;
    }
  }

  /** The tag `Arduino.get_reading` tests: the stripped line up to its first space. */
  function Tag(line: string): string
  {
    SplitOnce(Strip(line), ' ')[0]
  }

  /** `Arduino.get_reading` on the cached line: `Ok(None)` for a line whose
      tag is not `DAT`; otherwise the payload, decoded by `decode` (None for
      text that is not JSON), loaded into a fresh reading. */
  function ParseTelemetry(schema: seq<Component>, line: string, decode: string -> Option<Json>)
    : (r: Result<Option<Reading>>)
    ensures r == Ok(None) <==> Tag(line) != "DAT"
    ensures r.Ok? && r.value.Some? ==> r.value.value.Keys == SchemaSet(schema)
    ensures Tag(line) == "DAT" && ' ' !in Strip(line) ==> r == Err(IndexError)
  {
    var parsed := SplitOnce(Strip(line), ' ');
    if parsed[0] != "DAT" then Ok(None)
    else if |parsed| < 2 then Err(IndexError)
    else
      match decode(parsed[1])
      case None => Err(ValueError)
      case Some(JObject(m)) => Ok(Some(Load(EmptyReading(schema), m)))
      case Some(_) => Err(AttributeError)
  }

  /** A `DAT` line whose payload decodes to the object `m` parses to the
      reading holding exactly `m`'s field-named entries. */
  lemma {:induction false} TelemetryRoundTrip(schema: seq<Component>, text: string, m: map<string, Json>,
                                              decode: string -> Option<Json>)
    requires text != [] && !IsSpace(text[|text| - 1])
    requires decode(text) == Some(JObject(m))
    ensures ParseTelemetry(schema, "DAT " + text, decode) == Ok(Some(Load(EmptyReading(schema), m)))
  {
    var line := "DAT" + [' '] + text;
    assert "DAT " + text == line;
    SplitOnceAt("DAT", ' ', text);
    assert Strip(line) == line by {
      assert line[0] == 'D' && line[|line| - 1] == text[|text| - 1];
      StripKeeps(line);
    }
  }

  /** A line with another tag yields no reading and is not an error. */
  lemma OtherTagIsNotData(schema: seq<Component>, tag: string, decode: string -> Option<Json>)
    requires tag != [] && NoSpace(tag) && tag != "DAT"
    ensures ParseTelemetry(schema, tag, decode) == Ok(None)
  {
    StripKeeps(tag);
  }

  /** `Arduino.is_operating`: True iff the reading's `operating` list holds a
      value equal to True. A missing reading (a non-`DAT` line) is an
      AttributeError. */
  function IsOperating(reading: Option<Reading>): (r: Result<bool>)
    ensures r == Ok(true) <==>
      reading.Some? && Operating in reading.value && reading.value[Operating].JList?
      && exists k :: 0 <= k < |reading.value[Operating].items| && EqualsTrue(reading.value[Operating].items[k])
    ensures reading.None? ==> r == Err(AttributeError)
  {
    if reading.None? || Operating !in reading.value then Err(AttributeError)
    else
      match reading.value[Operating]
      case JList(items) => Ok(exists k :: 0 <= k < |items| && EqualsTrue(items[k]))
      case JObject(_) => Ok(false)      // `True in d` looks for the key True
      case _ => Err(TypeError)
  }

  /** `Arduino.move`: `MOVE` followed by the step counts. */
  function MoveMessage(steps: seq<int>): string
  {
    "MOVE " + Join(IntsToStrings(steps), ' ')
  }

  /** The step counts are recovered from a `MOVE` message by splitting it on spaces. */
  lemma MoveMessageDecodes(steps: seq<int>)
    requires steps != []
    ensures var parts := Split(MoveMessage(steps), ' ');
            parts[0] == "MOVE" && ParseInts(parts[1..]) == Some(steps)
  {
    var ws := IntsToStrings(steps);
    var body := Join(ws, ' ');
    SplitJoin(["MOVE"] + ws, ' ');
    assert Join(["MOVE"] + ws, ' ') == MoveMessage(steps) by {
      assert (["MOVE"] + ws)[1..] == ws;
    }
    assert (["MOVE"] + ws)[1..] == ws;
    ParseIntsOfStrings(steps);
  }

  /** `Arduino.write`: the text put on the wire is the message and a newline. */
  function WireText(message: string): (w: string)
    ensures |w| == |message| + 1 && w[..|message|] == message && w[|message|] == '\n'
  {
    message + "\n"
  }

  /** A message without newlines is recovered from the wire text as its first line. */
  lemma WireTextFrames(message: string)
    requires '\n' !in message
    ensures Split(WireText(message), '\n') == [message, ""]
  {
    SplitJoin([message, ""], '\n');
    assert Join([message, ""], '\n') == WireText(message);
  }

  /** `MOVE` commands are single lines. */
  lemma MoveMessageIsOneLine(steps: seq<int>)
    ensures '\n' !in MoveMessage(steps)
  {
    var ws := IntsToStrings(steps);
    JoinNoChar(ws, ' ', '\n');
  }

  lemma {:induction false} JoinNoChar(ws: seq<string>, sep: char, c: char)
    requires c != sep && forall k :: 0 <= k < |ws| ==> c !in ws[k]
    ensures c !in Join(ws, sep)
  {
    if |ws| > 1 {
      JoinNoChar(ws[1..], sep, c);
    }
  }

  // ---------------------------------------------------------------------
  // The identity handshake (`Arduino.get_dev_info`, src/lib/ard.py:320-333)

  datatype Outcome = Identified | Blocked | Failed(error: Error)

  /** Where the handshake ends: the id and calibration factors it leaves, how
      many lines it consumed, and how it ended (`Blocked`: the input ran out
      while the loop still waited for `IDEN`, so `readline` would block). */
  datatype Handshake = Handshake(devId: Option<int>, calib: Option<seq<real>>, used: nat, outcome: Outcome)

  function Consumed(h: Handshake, n: nat): Handshake
  {
    h.(used := h.used + n)
  }

  /** The handshake loop over the lines `input`, starting from `devId` and `calib`. */
  function DevInfo(devId: Option<int>, calib: Option<seq<real>>, input: seq<string>,
                   parseReal: string -> Option<real>): (h: Handshake)
    ensures h.used <= |input|
    ensures h.outcome == Identified ==> h.devId.Some?
    ensures devId.Some? ==> h == Handshake(devId, calib, 0, Identified)
    decreases |input|
  {
    if devId.Some? then Handshake(devId, calib, 0, Identified)
    else if input == [] then Handshake(devId, calib, 0, Blocked)
    else
      var parsed := Words(input[0]);
      if parsed == [] then Handshake(devId, calib, 1, Failed(IndexError))
      else if parsed[0] == "CALIB" then
        match ParseReals(parsed[1..], parseReal)
        case None => Handshake(devId, calib, 1, Failed(ValueError))
        case Some(f) => Consumed(DevInfo(devId, Some(f), input[1..], parseReal), 1)
      else if parsed[0] == "IDEN" then
        if |parsed| < 2 then Handshake(devId, calib, 1, Failed(IndexError))
        else
          match ParseInt(parsed[1])
          case None => Handshake(devId, calib, 1, Failed(ValueError))
          case Some(n) => Handshake(Some(n), calib, 1, Identified)
      else Consumed(DevInfo(devId, calib, input[1..], parseReal), 1)
  }

  /** A line the handshake skips: a tag other than `IDEN` and `CALIB`. */
  predicate Ignored(line: string)
  {
    var w := Words(line);
    w != [] && w[0] != "IDEN" && w[0] != "CALIB"
  }

  /** After any number of ignored lines, `IDEN n` ends the handshake with
      `dev_id = n`; the number of lines read is not bounded. */
  lemma {:induction false} IdenEndsHandshake(skipped: seq<string>, n: int, calib: Option<seq<real>>,
                                             rest: seq<string>, parseReal: string -> Option<real>)
    requires forall k :: 0 <= k < |skipped| ==> Ignored(skipped[k])
    ensures DevInfo(None, calib, skipped + ["IDEN" + (" " + IntToString(n))] + rest, parseReal)
         == Handshake(Some(n), calib, |skipped| + 1, Identified)
  {
    var input := skipped + ["IDEN" + (" " + IntToString(n))] + rest;
    if skipped == [] {
      var w := IntToString(n);
      assert Words(input[0]) == ["IDEN", w] by { WordsOfTwo("IDEN", w); }
      ParseIntToString(n);
    } else {
      assert input[1..] == skipped[1..] + ["IDEN" + (" " + IntToString(n))] + rest;
      IdenEndsHandshake(skipped[1..], n, calib, rest, parseReal);
    }
  }

  /** Lines with unknown tags never end the handshake: it is still waiting
      after all of them. */
  lemma {:induction false} IgnoredLinesKeepWaiting(lines: seq<string>, calib: Option<seq<real>>,
                                                   parseReal: string -> Option<real>)
    requires forall k :: 0 <= k < |lines| ==> Ignored(lines[k])
    ensures DevInfo(None, calib, lines, parseReal) == Handshake(None, calib, |lines|, Blocked)
  {
    if lines != [] {
      IgnoredLinesKeepWaiting(lines[1..], calib, parseReal);
    }
  }

  /** A `CALIB` line sets the calibration factors to all of its parameters
      and the handshake goes on reading. */
  lemma CalibSetsFactors(line: string, rest: seq<string>, parseReal: string -> Option<real>, f: seq<real>)
    requires |Words(line)| >= 1 && Words(line)[0] == "CALIB"
    requires ParseReals(Words(line)[1..], parseReal) == Some(f)
    ensures DevInfo(None, None, [line] + rest, parseReal)
         == Consumed(DevInfo(None, Some(f), rest, parseReal), 1)
  {
    assert ([line] + rest)[1..] == rest;
  }

  /** One serial link. The fields start at the class defaults of the source:
      an empty cached line and no id. */
  class Arduino {
    /** The most recent telemetry line (kept fresh by the reader thread). */
    var line: string
    var devId: Option<int>
    var calibFactor: Option<seq<real>>

    /** `Arduino(port, baud)`, given the lines the board sends after its
        reset: from the class defaults (no id, no factors, an empty line),
        the handshake reads lines until the `IDEN` line, and the next line,
        stripped, becomes the cached line; none is cached when the lines
        run out or the handshake fails (where the source raises). */
    constructor (input: seq<string>, parseReal: string -> Option<real>)
      ensures var h := DevInfo(None, None, input, parseReal);
              devId == h.devId && calibFactor == h.calib
              && line == (if h.outcome == Identified && h.used < |input| then Strip(input[h.used]) else "")
    {
      line := "";
      devId := None;
      calibFactor := None;
      new;
      var used, outcome := GetDevInfo(input, parseReal);
      if outcome == Identified && used < |input| {
        line := Strip(input[used]);
      }
    }

    /** `get_dev_info`: reads lines from `input` until an `IDEN` line sets
        the device id; `CALIB` lines set the calibration factors on the way.
        Ends as the handshake function `DevInfo` says. */
    method GetDevInfo(input: seq<string>, parseReal: string -> Option<real>) returns (used: nat, outcome: Outcome)
      modifies this
      ensures Handshake(devId, calibFactor, used, outcome) == DevInfo(old(devId), old(calibFactor), input, parseReal)
      ensures line == old(line)
    {
      used := 0;
      while devId.None?
        invariant used <= |input|
        invariant line == old(line)
        invariant DevInfo(old(devId), old(calibFactor), input, parseReal)
               == Consumed(DevInfo(devId, calibFactor, input[used..], parseReal), used)
        decreases |input| - used
      {
        if used == |input| {
          outcome := Blocked;
          return;
        }
        var parsed := Words(input[used]);
        assert input[used..][1..] == input[used + 1..];
        used := used + 1;
        if parsed == [] {
          outcome := Failed(IndexError);
          return;
        }
        if parsed[0] == "CALIB" {
          var f := ParseReals(parsed[1..], parseReal);
          if f.None? {
            outcome := Failed(ValueError);
            return;
          }
          calibFactor := f;
        } else if parsed[0] == "IDEN" {
          if |parsed| < 2 {
            outcome := Failed(IndexError);
            return;
          }
          var n := ParseInt(parsed[1]);
          if n.None? {
            outcome := Failed(ValueError);
            return;
          }
          devId := n;
        }
      }
      outcome := Identified;
    }
  }
}
