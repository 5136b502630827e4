/** The earlier copy of the fleet manager, src/ard.py. Its records have four
    fields (no `operating`), and the parsing, mapping and persistence are
    those of `ArdFleet` with `LegacySchema`. What differs is modelled here:
    the combined reading without a mapping, `move_motor`, and the `IDEN`-only
    handshake. */
module ArdLegacy {
  import opened Py
  import opened ArdLink
  import opened ArdFleet

  // ---------------------------------------------------------------------
  // Readings (src/ard.py:11-21, 117-129, 263-275)

  /** A legacy reading has exactly the four legacy fields: an `operating`
      key in the payload is dropped. */
  lemma LegacyReadingFields(line: string, decode: string -> Option<Json>)
    requires ParseTelemetry(LegacySchema, line, decode).Ok?
    requires ParseTelemetry(LegacySchema, line, decode).value.Some?
    ensures var rd := ParseTelemetry(LegacySchema, line, decode).value.value;
            rd.Keys == {Accel, Dist, Mass, Motor} && Operating !in rd
  {
    assert SchemaSet(LegacySchema) == {Accel, Dist, Mass, Motor} by {
      assert LegacySchema[0] == Accel && LegacySchema[1] == Dist;
      assert LegacySchema[2] == Mass && LegacySchema[3] == Motor;
    }
  }

  /** The legacy `get_reading`: all device readings first, then the fixed
      component list; without a mapping `getattr(None, ...)` is an
      AttributeError. */
  function LegacyReading(links: seq<Link>, mapping: Option<Mapping>, decode: string -> Option<Json>)
    : (r: Result<Reading>)
    requires mapping.Some? ==> mapping.value.Keys == SchemaSet(LegacySchema)
    ensures mapping.Some? ==> r == CombinedReading(LegacySchema, links, mapping, decode)
    ensures mapping.None? && ReadAll(LegacySchema, links, decode).Ok? ==> r == Err(AttributeError)
    ensures mapping.None? && ReadAll(LegacySchema, links, decode).Err? ==> r == Err(ReadAll(LegacySchema, links, decode).error)
  {
    var readings :- ReadAll(LegacySchema, links, decode);
    if mapping.None? then Err(AttributeError)
    else Combine(LegacySchema, mapping.value, readings, EmptyReading(LegacySchema))
  }

  // ---------------------------------------------------------------------
  // `move_motor` (src/ard.py:133-147, 231-233)

  /** `Arduino.move_motor(motor_id, steps)` on device `dev`. */
  datatype MotorCommand = MotorCommand(dev: int, motor: int, steps: int)

  /** The sends of a `move_motor` call, and how it ended. */
  datatype MotorSends = MotorSends(sent: seq<MotorCommand>, result: Result<()>)

  /** The line `Arduino.move_motor` writes: `MOVE <motor> <steps>`. */
  function MotorMessage(motor: int, steps: int): string
  {
    "MOVE" + (" " + (IntToString(motor) + (" " + IntToString(steps))))
  }

  /** The motor and the step count are recovered from the line. */
  lemma MotorMessageDecodes(motor: int, steps: int)
    ensures var w := Words(MotorMessage(motor, steps));
            |w| == 3 && w[0] == "MOVE" && ParseInt(w[1]) == Some(motor) && ParseInt(w[2]) == Some(steps)
  {
    var a := IntToString(motor);
    var b := IntToString(steps);
    assert Words(MotorMessage(motor, steps)) == ["MOVE", a, b] by {
      WordsOfThree("MOVE", a, b);
    }
    assert ParseInt(a) == Some(motor) by { ParseIntToString(motor); }
    assert ParseInt(b) == Some(steps) by { ParseIntToString(steps); }
  }

  /** The loop of `move_motor` with `Arduino.move_motor` taking the motor id
      it is meant to: motor `i`'s device is told to move its local motor by
      `target[i]` steps; an unknown device is a KeyError after the earlier
      sends. */
  function MotorMoves(cs: seq<Channel>, target: seq<int>, present: set<int>): (s: MotorSends)
    requires |cs| == |target|
    ensures s.result.Ok? ==> |s.sent| == |cs|
    ensures |s.sent| <= |cs|
    decreases |cs|
  {
    if cs == [] then MotorSends([], Ok(()))
    else
      var n := |cs| - 1;
      var p := MotorMoves(cs[..n], target[..n], present);
      if p.result.Err? then p
      else if cs[n].dev !in present then MotorSends(p.sent, Err(KeyError))
      else MotorSends(p.sent + [MotorCommand(cs[n].dev, cs[n].local, target[n])], Ok(()))
  }

  /** `move_motor` without blocking: no mapping is an AttributeError, a list
      of the wrong length raises before anything is sent. */
  function ExpectedMotorMoves(mapping: Option<Mapping>, present: set<int>, target: seq<int>): MotorSends
  {
    if mapping.None? || Motor !in mapping.value then MotorSends([], Err(AttributeError))
    else if |target| != |mapping.value[Motor]| then MotorSends([], Err(Raised))
    else MotorMoves(mapping.value[Motor], target, present)
  }

  /** With every device connected, motor `i` gets exactly `target[i]`, in
      mapping order, one command per motor. */
  lemma {:induction false} MotorMovesAllPresent(cs: seq<Channel>, target: seq<int>, present: set<int>)
    requires |cs| == |target|
    requires forall i :: 0 <= i < |cs| ==> cs[i].dev in present
    ensures var s := MotorMoves(cs, target, present);
            s.result.Ok? && |s.sent| == |cs|
            && forall i :: 0 <= i < |cs| ==> s.sent[i] == MotorCommand(cs[i].dev, cs[i].local, target[i])
    decreases |cs|
  {
    if cs != [] {
      var n := |cs| - 1;
      assert forall i :: 0 <= i < n ==> cs[..n][i] == cs[i] && target[..n][i] == target[i];
      MotorMovesAllPresent(cs[..n], target[..n], present);
    }
  }

  lemma {:induction false} MotorMovesErrPersists(cs: seq<Channel>, target: seq<int>, j: nat, present: set<int>)
    requires |cs| == |target| && j <= |cs|
    requires MotorMoves(cs[..j], target[..j], present).result.Err?
    ensures MotorMoves(cs, target, present) == MotorMoves(cs[..j], target[..j], present)
    decreases |cs| - j
  {
    if j < |cs| {
      assert cs[..j + 1][..j] == cs[..j] && target[..j + 1][..j] == target[..j];
      MotorMovesErrPersists(cs, target, j + 1, present);
    } else {
      assert cs[..j] == cs && target[..j] == target;
    }
  }

  /** The loop of `move_motor` on a manager's mapping. */
  method MoveMotor(mgr: ArdManager, target: seq<int>) returns (s: MotorSends)
    requires mgr.Valid()
    ensures s == ExpectedMotorMoves(mgr.mapping, mgr.arduinos.Keys, target)
  {
    if mgr.mapping.None? {
      return MotorSends([], Err(AttributeError));
    }
    assert Motor in SchemaSet(mgr.schema);
    var cs := mgr.mapping.value[Motor];
    if |target| != |cs| {
      return MotorSends([], Err(Raised));
    }
    var sent: seq<MotorCommand> := [];
    for i := 0 to |cs|
      invariant MotorMoves(cs[..i], target[..i], mgr.arduinos.Keys) == MotorSends(sent, Ok(()))
    {
      assert cs[..i + 1][..i] == cs[..i] && target[..i + 1][..i] == target[..i];
      if cs[i].dev !in mgr.arduinos {
        MotorMovesErrPersists(cs, target, i + 1, mgr.arduinos.Keys);
        return MotorSends(sent, Err(KeyError));
      }
      sent := sent + [MotorCommand(cs[i].dev, cs[i].local, target[i])];
    }
    assert cs[..|cs|] == cs && target[..|target|] == target;
    s := MotorSends(sent, Ok(()));
  }

  /** `move_motor` as written: `Arduino.move_motor` takes one argument but is
      given two, so the first motor whose device is connected raises a
      TypeError before anything is written. */
  function MoveMotorAsWritten(mapping: Option<Mapping>, present: set<int>, target: seq<int>): (r: Result<()>)
    ensures r.Ok? ==> mapping.Some? && Motor in mapping.value && mapping.value[Motor] == []
  {
    if mapping.None? || Motor !in mapping.value then Err(AttributeError)
    else
      var cs := mapping.value[Motor];
      if |target| != |cs| then Err(Raised)
      else if cs == [] then Ok(())
      else if cs[0].dev !in present then Err(KeyError)
      else Err(TypeError)
  }

  /** With one connected motor, the intended call sends one command and the
      call as written raises. */
  lemma MoveMotorAsWrittenRaises(dev: int, local: int, steps: int)
    ensures MoveMotorAsWritten(Some(map[Motor := [Channel(dev, local)]]), {dev}, [steps]) == Err(TypeError)
    ensures ExpectedMotorMoves(Some(map[Motor := [Channel(dev, local)]]), {dev}, [steps])
         == MotorSends([MotorCommand(dev, local, steps)], Ok(()))
  {
    var cs := [Channel(dev, local)];
    var t := [steps];
    assert MotorMoves(cs[..0], t[..0], {dev}) == MotorSends([], Ok(())) by {
      assert cs[..0] == [] && t[..0] == [];
    }
    assert MotorMoves(cs, t, {dev}) == MotorSends([] + [MotorCommand(dev, local, steps)], Ok(()));
  }

  // ---------------------------------------------------------------------
  // The handshake (src/ard.py:235-248)

  /** Where the handshake ends: the id, the lines consumed, how it ended. */
  datatype IdHandshake = IdHandshake(devId: Option<int>, used: nat, outcome: Outcome)

  function Advanced(h: IdHandshake, n: nat): IdHandshake
  {
    h.(used := h.used + n)
  }

  /** A line the legacy handshake skips: any tag but `IDEN` (`CALIB` included). */
  predicate NotIden(line: string)
  {
    var w := Words(line);
    w != [] && w[0] != "IDEN"
  }

  /** The handshake as written: the loop runs `while not self.dev_id`, so an
      id of 0 leaves it waiting for another `IDEN`. */
  function LegacyDevInfoAsWritten(devId: Option<int>, input: seq<string>): (h: IdHandshake)
    ensures h.used <= |input|
    ensures h.outcome == Identified ==> h.devId.Some? && h.devId.value != 0
    decreases |input|
  {
    if devId.Some? && devId.value != 0 then IdHandshake(devId, 0, Identified)
    else if input == [] then IdHandshake(devId, 0, Blocked)
    else
      var parsed := Words(input[0]);
      if parsed == [] then IdHandshake(devId, 1, Failed(IndexError))
      else if parsed[0] == "IDEN" then
        if |parsed| < 2 then IdHandshake(devId, 1, Failed(IndexError))
        else
          match ParseInt(parsed[1])
          case None => IdHandshake(devId, 1, Failed(ValueError))
          case Some(n) => Advanced(LegacyDevInfoAsWritten(Some(n), input[1..]), 1)
      else Advanced(LegacyDevInfoAsWritten(devId, input[1..]), 1)
  }

  /** The handshake as intended (`while self.dev_id is None`): the first
      `IDEN` ends it, whatever the id. */
  function LegacyDevInfo(devId: Option<int>, input: seq<string>): (h: IdHandshake)
    ensures h.used <= |input|
    ensures h.outcome == Identified ==> h.devId.Some?
    ensures devId.Some? ==> h == IdHandshake(devId, 0, Identified)
    decreases |input|
  {
    if devId.Some? then IdHandshake(devId, 0, Identified)
    else if input == [] then IdHandshake(devId, 0, Blocked)
    else
      var parsed := Words(input[0]);
      if parsed == [] then IdHandshake(devId, 1, Failed(IndexError))
      else if parsed[0] == "IDEN" then
        if |parsed| < 2 then IdHandshake(devId, 1, Failed(IndexError))
        else
          match ParseInt(parsed[1])
          case None => IdHandshake(devId, 1, Failed(ValueError))
          case Some(n) => IdHandshake(Some(n), 1, Identified)
      else Advanced(LegacyDevInfo(devId, input[1..]), 1)
  }

  /** The `IDEN` line of id `n`. */
  function IdenLine(n: int): string
  {
    "IDEN" + (" " + IntToString(n))
  }

  lemma IdenLineWords(n: int)
    ensures Words(IdenLine(n)) == ["IDEN", IntToString(n)]
    ensures ParseInt(IntToString(n)) == Some(n)
  {
    var w := IntToString(n);
    WordsOfTwo("IDEN", w);
    ParseIntToString(n);
  }

  /** After any lines with other tags, `IDEN n` ends the intended handshake
      with `dev_id = n`, for every `n` including 0. */
  lemma {:induction false} LegacyIdenEnds(skipped: seq<string>, n: int, rest: seq<string>)
    requires forall k :: 0 <= k < |skipped| ==> NotIden(skipped[k])
    ensures LegacyDevInfo(None, skipped + [IdenLine(n)] + rest) == IdHandshake(Some(n), |skipped| + 1, Identified)
  {
    var input := skipped + [IdenLine(n)] + rest;
    if skipped == [] {
      assert input[0] == IdenLine(n);
      IdenLineWords(n);
    } else {
      assert input[1..] == skipped[1..] + [IdenLine(n)] + rest;
      LegacyIdenEnds(skipped[1..], n, rest);
    }
  }

  /** As written, a device that reports id 0 is not identified: with no
      further `IDEN` line the handshake waits forever. */
  lemma LegacyIdZeroBlocks(rest: seq<string>)
    requires forall k :: 0 <= k < |rest| ==> NotIden(rest[k])
    ensures LegacyDevInfoAsWritten(None, [IdenLine(0)] + rest) == IdHandshake(Some(0), |rest| + 1, Blocked)
    ensures LegacyDevInfo(None, [IdenLine(0)] + rest) == IdHandshake(Some(0), 1, Identified)
  {
    IdenLineWords(0);
    assert ([IdenLine(0)] + rest)[1..] == rest;
    ZeroIdKeepsWaiting(rest);
  }

  lemma {:induction false} ZeroIdKeepsWaiting(rest: seq<string>)
    requires forall k :: 0 <= k < |rest| ==> NotIden(rest[k])
    ensures LegacyDevInfoAsWritten(Some(0), rest) == IdHandshake(Some(0), |rest|, Blocked)
    decreases |rest|
  {
    if rest != [] {
      ZeroIdKeepsWaiting(rest[1..]);
    }
  }

  /** For any nonzero id, the handshake as written ends where the intended one does. */
  lemma {:induction false} LegacyAgreesOffZero(skipped: seq<string>, n: int, rest: seq<string>)
    requires n != 0
    requires forall k :: 0 <= k < |skipped| ==> NotIden(skipped[k])
    ensures LegacyDevInfoAsWritten(None, skipped + [IdenLine(n)] + rest)
         == LegacyDevInfo(None, skipped + [IdenLine(n)] + rest)
  {
    var input := skipped + [IdenLine(n)] + rest;
    LegacyIdenEnds(skipped, n, rest);
    if skipped == [] {
      assert input[0] == IdenLine(n);
      IdenLineWords(n);
    } else {
      assert input[1..] == skipped[1..] + [IdenLine(n)] + rest;
      LegacyAgreesOffZero(skipped[1..], n, rest);
    }
  }

  /** One legacy serial link. */
  class LegacyArduino {
    var line: string
    var devId: Option<int>

    /** `get_dev_info` as intended: reads lines until an `IDEN` line sets
        the id (the `INFO` request written first is not modelled). */
    method GetDevInfo(input: seq<string>) returns (used: nat, outcome: Outcome)
      modifies this
      ensures IdHandshake(devId, used, outcome) == LegacyDevInfo(old(devId), input)
      ensures line == old(line)
    {
      used := 0;
      while devId.None?
        invariant used <= |input|
        invariant line == old(line)
        invariant LegacyDevInfo(old(devId), input) == Advanced(LegacyDevInfo(devId, input[used..]), used)
        decreases |input| - used
      {
        if used == |input| {
          outcome := Blocked;
          return;
        }
        var parsed := Words(input[used]);
        assert input[used..][1..] == input[used + 1..];
        used := used + 1;
        if parsed == [] {
          outcome := Failed(IndexError);
          return;
        }
        if parsed[0] == "IDEN" {
          if |parsed| < 2 {
            outcome := Failed(IndexError);
            return;
          }
          var n := ParseInt(parsed[1]);
          if n.None? {
            outcome := Failed(ValueError);
            return;
          }
          devId := n;
        }
      }
      outcome := Identified;
    }
  }
}
