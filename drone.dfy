/** The drone RPM controller (src/lib/drone.py): a small state machine over
    `armed`, `rpm_control_on`, the four-motor `throttle` and `target` vectors
    and the telemetry the flight controller reports back over the websocket.

    Each operation is specified twice: as a function on a snapshot `Rig` of the
    controller's fields (a `Step` also records the exception the call raises,
    if any, together with whatever it had changed before raising), and as a
    method of the class `Drone` that updates those fields in place and is
    proved to end in the state the function gives. Properties are lemmas
    about the functions. */
module Drone {
  import opened Py

  const NumMotors: nat := 4
  const MinThrottle: int := 1000
  const MaxThrottle: int := 1525
  /** The tolerance the blocking `set_rpm` waits for. */
  const RpmTolerance: int := 150

  /** `min(max(x, MIN_THROTTLE), MAX_THROTTLE)`. */
  function Clamp(x: int): (r: int)
    ensures MinThrottle <= r <= MaxThrottle
    ensures MinThrottle <= x <= MaxThrottle ==> r == x
    ensures x < MinThrottle ==> r == MinThrottle
    ensures x > MaxThrottle ==> r == MaxThrottle
  {
    Min(if x > MinThrottle then x else MinThrottle, MaxThrottle)
  }

  /** Python's `a // d` for a positive divisor (rounds toward minus infinity;
      Dafny's Euclidean `/` agrees with it when `d > 0`). */
  function FloorDiv(a: int, d: int): (q: int)
    requires d > 0
    ensures q * d <= a < q * d + d
  {
    a / d
  }

  /** The throttle one worker tick asks for: the minimum for a motor whose
      target is 0, otherwise the current throttle moved by one step per
      100 rpm of error, rounded down. */
  function Request(throttle: int, target: int, rpm: int): (r: int)
    ensures target == 0 ==> r == MinThrottle
    ensures target != 0 ==> (r - throttle) * 100 <= target - rpm < (r - throttle) * 100 + 100
  {
    if target == 0 then MinThrottle else throttle + FloorDiv(target - rpm, 100)
  }

  /** The feedback step moves the throttle toward the target: up when the
      motor is at least 100 rpm too slow, down when it is too fast, and not
      at all within the 100 rpm just above the measured speed. */
  lemma RequestTowardsTarget(throttle: int, target: int, rpm: int)
    requires target != 0
    ensures target - rpm >= 100 ==> Request(throttle, target, rpm) > throttle
    ensures target - rpm < 0 ==> Request(throttle, target, rpm) < throttle
    ensures 0 <= target - rpm < 100 ==> Request(throttle, target, rpm) == throttle
  {
    var q := Request(throttle, target, rpm) - throttle;
    assert q * 100 <= target - rpm < q * 100 + 100;
  }

  // ---------------------------------------------------------------------
  // Messages

  /** `SET` followed by every throttle in motor order. */
  function SetMessage(throttle: seq<int>): string
  {
    "SET " + Join(IntsToStrings(throttle), ' ')
  }

  /** The throttle vector is recovered from a `SET` message by splitting it on spaces. */
  lemma SetMessageDecodes(throttle: seq<int>)
    requires throttle != []
    ensures var parts := Split(SetMessage(throttle), ' ');
            parts[0] == "SET" && ParseInts(parts[1..]) == Some(throttle)
  {
    var ws := IntsToStrings(throttle);
    var xs := ["SET"] + ws;
    assert xs[1..] == ws && xs[0] == "SET" && |xs| > 1;
    assert Join(xs, ' ') == SetMessage(throttle);
    SplitJoin(xs, ' ');
    ParseIntsOfStrings(throttle);
  }

  /** `'ARMING ' + ('1' if armed else '0')`. */
  function ArmingMessage(on: bool): string
  {
    "ARMING " + (if on then "1" else "0")
  }

  /** What a message from the flight controller means. */
  datatype Inbound = Arming(on: bool) | Motor(rpm: seq<int>) | Power(power: seq<real>) | Other

  /** `onMessage`: the payload is stripped and split on single spaces; the
      first piece is the header and the second the argument. `ARMING n` means
      `bool(int(n))`, `MOTOR a,b,...` and `POWER a,b,...` keep their first four
      comma-separated numbers, and any other header means nothing. A missing
      argument is an IndexError and a malformed number a ValueError. */
  function Decode(payload: string, parseReal: string -> Option<real>): (r: Result<Inbound>)
    ensures var header := Split(Strip(payload), ' ')[0];
            r == Ok(Other) <==> header != "ARMING" && header != "POWER" && header != "MOTOR"
    ensures r.Ok? && r.value.Motor? ==> |r.value.rpm| <= NumMotors
    ensures r.Ok? && r.value.Power? ==> |r.value.power| <= NumMotors
  {
    var message := Split(Strip(payload), ' ');
    var header := message[0];
    if header == "ARMING" then
      if |message| < 2 then Err(IndexError)
      else
        match ParseInt(message[1])
        case None => Err(ValueError)
        case Some(n) => Ok(Arming(n != 0))
    else if header == "POWER" then
      if |message| < 2 then Err(IndexError)
      else
        match ParseReals(Split(message[1], ','), parseReal)
        case None => Err(ValueError)
        case Some(p) => Ok(Power(p[..Min(NumMotors, |p|)]))
    else if header == "MOTOR" then
      if |message| < 2 then Err(IndexError)
      else
        match ParseInts(Split(message[1], ','))
        case None => Err(ValueError)
        case Some(xs) => Ok(Motor(xs[..Min(NumMotors, |xs|)]))
    else Ok(Other)
  }

  lemma {:induction false} JoinNoSpace(ws: seq<string>, sep: char)
    requires !IsSpace(sep) && forall k :: 0 <= k < |ws| ==> NoSpace(ws[k])
    ensures NoSpace(Join(ws, sep))
  {
    if |ws| > 1 {
      JoinNoSpace(ws[1..], sep);
    }
  }

  /** The header and argument of a message with no spaces in its argument. */
  lemma HeaderAndArgument(header: string, arg: string)
    requires header != [] && NoSpace(header) && arg != [] && NoSpace(arg)
    ensures Split(Strip(header + " " + arg), ' ') == [header, arg]
  {
    var s := header + " " + arg;
    assert s[|s| - 1] == arg[|arg| - 1];
    StripKeeps(s);
    assert Join([header, arg], ' ') == s;
    SplitJoin([header, arg], ' ');
  }

  /** `ARMING n` decodes to armed exactly when `n` is not zero. */
  lemma ArmingDecodes(n: int, parseReal: string -> Option<real>)
    ensures Decode("ARMING " + IntToString(n), parseReal) == Ok(Arming(n != 0))
  {
    var arg := IntToString(n);
    var payload := "ARMING " + arg;
    assert payload == "ARMING" + " " + arg;
    HeaderAndArgument("ARMING", arg);
    var message := Split(Strip(payload), ' ');
    assert message[0] == "ARMING" && message[1] == arg && |message| == 2;
    assert ParseInt(arg) == Some(n) by { ParseIntToString(n); }
  }

  /** A `POWER` message with a one-word argument: the argument's
      comma-separated entries parsed as floats, cut to four. */
  lemma PowerMessage(arg: string, parseReal: string -> Option<real>)
    requires arg != [] && NoSpace(arg)
    ensures var pr := ParseReals(Split(arg, ','), parseReal);
            Decode("POWER " + arg, parseReal)
            == if pr.None? then Err(ValueError) else Ok(Power(pr.value[..Min(NumMotors, |pr.value|)]))
  {
    var payload := "POWER " + arg;
    assert payload == "POWER" + " " + arg;
    HeaderAndArgument("POWER", arg);
    var message := Split(Strip(payload), ' ');
    assert message[0] == "POWER" && message[1] == arg && |message| == 2;
    assert "POWER" != "ARMING" by {
      assert "POWER"[0] != "ARMING"[0];
    }
  }

  /** `POWER a,b,...` decodes to the first four values it lists when every
      entry parses as a float, and is a ValueError otherwise. */
  lemma PowerDecodes(ws: seq<string>, parseReal: string -> Option<real>)
    requires ws != [] && ws[0] != []
    requires forall k :: 0 <= k < |ws| ==> NoSpace(ws[k]) && ',' !in ws[k]
    ensures var r := Decode("POWER " + Join(ws, ','), parseReal);
            (r.Ok? <==> forall k :: 0 <= k < |ws| ==> parseReal(ws[k]).Some?)
            && (r.Err? ==> r.error == ValueError)
            && (r.Ok? ==> r.value.Power? && |r.value.power| == Min(NumMotors, |ws|)
                          && forall k :: 0 <= k < |r.value.power| ==> r.value.power[k] == parseReal(ws[k]).value)
  {
    var arg := Join(ws, ',');
    JoinNoSpace(ws, ',');
    assert arg != [] by {
      if |ws| > 1 {
        assert arg == ws[0] + [','] + Join(ws[1..], ',');
      }
    }
    SplitJoin(ws, ',');
    PowerMessage(arg, parseReal);
    var pr := ParseReals(ws, parseReal);
    var r := Decode("POWER " + arg, parseReal);
    if pr.Some? {
      assert r == Ok(Power(pr.value[..Min(NumMotors, |ws|)]));
    } else {
      assert r == Err(ValueError);
    }
  }

  /** `MOTOR a,b,...` decodes to the first four speeds it lists. */
  lemma MotorDecodes(rpm: seq<int>, parseReal: string -> Option<real>)
    requires rpm != []
    ensures Decode("MOTOR " + Join(IntsToStrings(rpm), ','), parseReal)
         == Ok(Motor(rpm[..Min(NumMotors, |rpm|)]))
  {
    var ws := IntsToStrings(rpm);
    var arg := Join(ws, ',');
    JoinNoSpace(ws, ',');
    assert arg != [] by {
      if |ws| > 1 {
        assert arg == ws[0] + [','] + Join(ws[1..], ',');
      }
    }
    var payload := "MOTOR " + arg;
    assert payload == "MOTOR" + " " + arg;
    HeaderAndArgument("MOTOR", arg);
    var message := Split(Strip(payload), ' ');
    assert message[0] == "MOTOR" && message[1] == arg && |message| == 2;
    assert "MOTOR" != "ARMING" && "MOTOR" != "POWER" by {
      assert "MOTOR"[0] != "ARMING"[0] && "MOTOR"[0] != "POWER"[0];
    }
    assert Split(arg, ',') == ws by { SplitJoin(ws, ','); }
    assert ParseInts(ws) == Some(rpm) by { ParseIntsOfStrings(rpm); }
  }

  // ---------------------------------------------------------------------
  // The controller state and its transitions

  /** A snapshot of the controller's fields. `workerAlive` stands for a live
      `rpm_thread`; `sent` lists the messages handed to the websocket, oldest
      first. */
  datatype Rig = Rig(armed: bool, controlOn: bool, throttle: seq<int>, target: seq<int>,
                     rpm: Option<seq<int>>, power: Option<seq<real>>, conn: bool,
                     workerAlive: bool, sent: seq<string>)

  /** The state after a call and the exception it raised, if any. */
  datatype Step = Step(rig: Rig, raised: Option<Error>)

  /** A throttle or rpm argument: one `int` for every motor, or a list. */
  datatype Setting = Uniform(value: int) | PerMotor(values: seq<int>)

  /** `[value] * NUM_OF_MOTORS` for an `int`, the list itself otherwise. */
  function Spread(a: Setting): (xs: seq<int>)
    ensures a.Uniform? ==> |xs| == NumMotors && forall i :: 0 <= i < |xs| ==> xs[i] == a.value
    ensures a.PerMotor? ==> xs == a.values
  {
    match a
    case Uniform(v) => [v, v, v, v]
    case PerMotor(xs) => xs
  }

  /** The class defaults: disarmed, control off, every throttle at the
      minimum, every target 0, no telemetry yet. */
  function Initial(): Rig
  {
    Rig(false, false, [MinThrottle, MinThrottle, MinThrottle, MinThrottle], [0, 0, 0, 0],
        None, None, false, false, [])
  }

  /** Four throttles, each within the clamp, and four targets. */
  predicate Valid(s: Rig)
  {
    |s.throttle| == NumMotors && |s.target| == NumMotors &&
    forall i :: 0 <= i < |s.throttle| ==> MinThrottle <= s.throttle[i] <= MaxThrottle
  }

  lemma InitialValid()
    ensures Valid(Initial()) && Initial().target == Spread(Uniform(0))
  {
  }

  function Send(s: Rig, message: string): Rig
  {
    s.(sent := s.sent + [message])
  }

  /** `onMessage`: marks the link connected, then applies the decoded message. */
  function Receive(s: Rig, payload: string, parseReal: string -> Option<real>): Step
  {
    var s1 := s.(conn := true);
    match Decode(payload, parseReal)
    case Err(e) => Step(s1, Some(e))
    case Ok(Arming(on)) => Step(s1.(armed := on), None)
    case Ok(Motor(r)) => Step(s1.(rpm := Some(r)), None)
    case Ok(Power(p)) => Step(s1.(power := Some(p)), None)
    case Ok(Other) => Step(s1, None)
  }

  /** `set_throttle_for_motor`: ignored for an index at or past the motor
      count and while disarmed; otherwise the clamped value is stored (a
      negative index counts from the end) and the whole vector is sent. */
  function ThrottleFor(s: Rig, ind: int, value: int): Step
  {
    if ind >= NumMotors || !s.armed then Step(s, None)
    else
      match Slot(ind, |s.throttle|)
      case None => Step(s, Some(IndexError))
      case Some(k) =>
        var th := s.throttle[k := Clamp(value)];
        Step(Send(s.(throttle := th), SetMessage(th)), None)
  }

  /** `set_throttle`: `set_throttle_for_motor(i, xs[i])` for each `i` in turn. */
  function ThrottleAll(s: Rig, xs: seq<int>): Step
  {
    if xs == [] then Step(s, None)
    else
      var p := ThrottleAll(s, xs[..|xs| - 1]);
      if p.raised.Some? then p else ThrottleFor(p.rig, |xs| - 1, xs[|xs| - 1])
  }

  /** `set_rpm_for_motor` with the guard `ind >= NUM_OF_MOTORS`, the same
      guard `set_throttle_for_motor` uses. */
  function TargetFor(s: Rig, ind: int, value: int): Step
  {
    if ind >= NumMotors then Step(s, None)
    else
      match Slot(ind, |s.target|)
      case None => Step(s, Some(IndexError))
      case Some(k) => Step(s.(target := s.target[k := value]), None)
  }

  /** `set_rpm_for_motor` as written: the guard `ind > NUM_OF_MOTORS` lets
      index 4 through to the list. */
  function TargetForAsWritten(s: Rig, ind: int, value: int): Step
  {
    if ind > NumMotors then Step(s, None)
    else
      match Slot(ind, |s.target|)
      case None => Step(s, Some(IndexError))
      case Some(k) => Step(s.(target := s.target[k := value]), None)
  }

  /** The loop of `set_rpm`: `set_rpm_for_motor(i, xs[i])` for each `i`. */
  function TargetAll(s: Rig, xs: seq<int>): Step
  {
    if xs == [] then Step(s, None)
    else
      var p := TargetAll(s, xs[..|xs| - 1]);
      if p.raised.Some? then p else TargetFor(p.rig, |xs| - 1, xs[|xs| - 1])
  }

  /** `set_rpm_worker_on`: switching off clears the flag, zeroes the targets
      and waits for the worker to end; switching on does nothing while a
      worker is alive, and otherwise zeroes the targets, sets the flag and
      starts one. */
  function WorkerOn(s: Rig, on: bool): Step
  {
    if !on then
      var p := TargetAll(s.(controlOn := false), Spread(Uniform(0)));
      if p.raised.Some? then p else Step(p.rig.(workerAlive := false), None)
    else if s.workerAlive then Step(s, None)
    else
      var p := TargetAll(s, Spread(Uniform(0)));
      if p.raised.Some? then p else Step(p.rig.(controlOn := true, workerAlive := true), None)
  }

  /** `set_arming` without blocking: disarming first switches the worker
      off; then the request is sent. `armed` itself changes only when the
      flight controller answers (see `Receive`). */
  function RequestArming(s: Rig, on: bool): Step
  {
    if !on then
      var p := WorkerOn(s, false);
      if p.raised.Some? then p else Step(Send(p.rig, ArmingMessage(false)), None)
    else Step(Send(s, ArmingMessage(true)), None)
  }

  /** The body of `rpm_worker`'s `for` loop for motor `i`. */
  function MotorTick(s: Rig, i: nat): Step
  {
    match s.rpm
    case None => Step(s, Some(TypeError))
    case Some(r) =>
      if i >= |r| || i >= |s.throttle| || i >= |s.target| then Step(s, Some(IndexError))
      else ThrottleFor(s, i, Request(s.throttle[i], s.target[i], r[i]))
  }

  /** Motors `0 .. n-1` of one tick, in order. */
  function TickMotors(s: Rig, n: nat): Step
  {
    if n == 0 then Step(s, None)
    else
      var p := TickMotors(s, n - 1);
      if p.raised.Some? then p else MotorTick(p.rig, n - 1)
  }

  /** One pass of `rpm_worker`'s loop: the worker ends when control is off or
      the drone is disarmed; otherwise each motor is adjusted in turn. An
      exception ends the worker thread as well. */
  function Tick(s: Rig): Step
  {
    if !s.controlOn || !s.armed then Step(s.(workerAlive := false), None)
    else
      var p := TickMotors(s, NumMotors);
      if p.raised.Some? then Step(p.rig.(workerAlive := false), p.raised) else p
  }

  // ---------------------------------------------------------------------
  // Properties of the transitions

  /** An accepted throttle command changes only that motor's throttle, to
      the clamped value, and sends the whole new vector; a negative index
      counts from the end and one below -4 is an IndexError. */
  lemma ThrottleForEffect(s: Rig, ind: int, value: int)
    requires Valid(s) && s.armed && ind < NumMotors
    ensures var p := ThrottleFor(s, ind, value);
            if ind < -(NumMotors as int) then p == Step(s, Some(IndexError))
            else
              var k := if ind < 0 then ind + NumMotors else ind;
              p.raised.None? &&
              p.rig.throttle[k] == Clamp(value) &&
              (forall j :: 0 <= j < NumMotors && j != k ==> p.rig.throttle[j] == s.throttle[j]) &&
              p.rig.sent == s.sent + [SetMessage(p.rig.throttle)] &&
              p.rig.(throttle := s.throttle, sent := s.sent) == s
  {
  }

  /** A throttle command for an index at or past the motor count, or while
      disarmed, changes nothing and sends nothing. */
  lemma ThrottleForIgnored(s: Rig, ind: int, value: int)
    requires ind >= NumMotors || !s.armed
    ensures ThrottleFor(s, ind, value) == Step(s, None)
  {
  }

  lemma ThrottleForValid(s: Rig, ind: int, value: int)
    requires Valid(s)
    ensures Valid(ThrottleFor(s, ind, value).rig)
  {
  }

  /** While disarmed, `set_throttle` changes nothing and sends nothing. */
  lemma {:induction false} ThrottleAllDisarmed(s: Rig, xs: seq<int>)
    requires !s.armed
    ensures ThrottleAll(s, xs) == Step(s, None)
  {
    if xs != [] {
      ThrottleAllDisarmed(s, xs[..|xs| - 1]);
    }
  }

  /** Once `set_throttle` has raised, the rest of the list is not looked at. */
  lemma {:induction false} ThrottleAllErrPersists(s: Rig, xs: seq<int>, j: nat)
    requires j <= |xs| && ThrottleAll(s, xs[..j]).raised.Some?
    ensures ThrottleAll(s, xs) == ThrottleAll(s, xs[..j])
  {
    if j < |xs| {
      assert xs[..|xs| - 1][..j] == xs[..j];
      ThrottleAllErrPersists(s, xs[..|xs| - 1], j);
    } else {
      assert xs[..j] == xs;
    }
  }

  /** The throttles after setting motors `0 .. n-1` from `xs`. */
  function Overlay(old_: seq<int>, xs: seq<int>, n: nat): (r: seq<int>)
    requires |old_| == NumMotors
    ensures |r| == NumMotors
  {
    seq(NumMotors, i requires 0 <= i < NumMotors => if i < n && i < |xs| then Clamp(xs[i]) else old_[i])
  }

  /** When armed, `set_throttle` sets each listed motor's throttle to its
      clamped value (motors past the list keep theirs, list entries past the
      motors are ignored), sends one `SET` per motor set, the last carrying
      the final vector, and changes nothing else. */
  lemma {:induction false} ThrottleAllEffect(s: Rig, xs: seq<int>)
    requires Valid(s) && s.armed
    ensures var p := ThrottleAll(s, xs);
            var n := Min(|xs|, NumMotors);
            p.raised.None? && Valid(p.rig) &&
            p.rig.throttle == Overlay(s.throttle, xs, n) &&
            |p.rig.sent| == |s.sent| + n && p.rig.sent[..|s.sent|] == s.sent &&
            (n > 0 ==> p.rig.sent[|p.rig.sent| - 1] == SetMessage(p.rig.throttle)) &&
            p.rig.(throttle := s.throttle, sent := s.sent) == s
  {
    if xs != [] {
      var ys := xs[..|xs| - 1];
      ThrottleAllEffect(s, ys);
      var p := ThrottleAll(s, ys);
      var m := Min(|ys|, NumMotors);
      var i := |xs| - 1;
      ThrottleForValid(p.rig, i, xs[i]);
      if i < NumMotors {
        ThrottleForEffect(p.rig, i, xs[i]);
        OverlayNext(s.throttle, xs, ThrottleFor(p.rig, i, xs[i]).rig.throttle);
        assert (p.rig.sent + [SetMessage(ThrottleFor(p.rig, i, xs[i]).rig.throttle)])[..|s.sent|] == s.sent;
      } else {
        OverlayPast(s.throttle, xs);
      }
    }
  }

  /** Setting the next listed motor extends the overlay by one. */
  lemma OverlayNext(old_: seq<int>, xs: seq<int>, t: seq<int>)
    requires |old_| == NumMotors && 0 < |xs| <= NumMotors && |t| == NumMotors
    requires t[|xs| - 1] == Clamp(xs[|xs| - 1])
    requires forall j :: 0 <= j < NumMotors && j != |xs| - 1 ==> t[j] == Overlay(old_, xs[..|xs| - 1], |xs| - 1)[j]
    ensures t == Overlay(old_, xs, |xs|)
  {
  }

  /** List entries past the motors do not change the overlay. */
  lemma OverlayPast(old_: seq<int>, xs: seq<int>)
    requires |old_| == NumMotors && |xs| > NumMotors
    ensures Overlay(old_, xs[..|xs| - 1], NumMotors) == Overlay(old_, xs, NumMotors)
  {
  }

  /** `set_throttle(n)` for an `int` sets every motor to the clamped value. */
  lemma ThrottleUniform(s: Rig, value: int)
    requires Valid(s) && s.armed
    ensures var p := ThrottleAll(s, Spread(Uniform(value)));
            p.raised.None? && p.rig.throttle == [Clamp(value), Clamp(value), Clamp(value), Clamp(value)] &&
            |p.rig.sent| == |s.sent| + NumMotors && p.rig.sent[|p.rig.sent| - 1] == SetMessage(p.rig.throttle)
  {
    ThrottleAllEffect(s, Spread(Uniform(value)));
  }

  lemma {:induction false} TargetAllErrPersists(s: Rig, xs: seq<int>, j: nat)
    requires j <= |xs| && TargetAll(s, xs[..j]).raised.Some?
    ensures TargetAll(s, xs) == TargetAll(s, xs[..j])
  {
    if j < |xs| {
      assert xs[..|xs| - 1][..j] == xs[..j];
      TargetAllErrPersists(s, xs[..|xs| - 1], j);
    } else {
      assert xs[..j] == xs;
    }
  }

  /** The target vector after setting motors `0 .. n-1` from `xs`. */
  function Targets(old_: seq<int>, xs: seq<int>, n: nat): (r: seq<int>)
    requires |old_| == NumMotors
    ensures |r| == NumMotors
  {
    seq(NumMotors, i requires 0 <= i < NumMotors => if i < n && i < |xs| then xs[i] else old_[i])
  }

  /** `set_rpm`'s loop stores each listed target (entries past the motors
      are ignored) and changes nothing else; it never raises. */
  lemma {:induction false} TargetAllEffect(s: Rig, xs: seq<int>)
    requires Valid(s)
    ensures var p := TargetAll(s, xs);
            p == Step(s.(target := Targets(s.target, xs, Min(|xs|, NumMotors))), None)
  {
    if xs != [] {
      var ys := xs[..|xs| - 1];
      TargetAllEffect(s, ys);
      var m := Min(|ys|, NumMotors);
      if |xs| - 1 < NumMotors {
        assert Targets(s.target, ys, m)[|xs| - 1 := xs[|xs| - 1]] == Targets(s.target, xs, m + 1);
      } else {
        assert Targets(s.target, ys, m) == Targets(s.target, xs, m);
      }
    }
  }

  /** The as-written guard of `set_rpm_for_motor` lets index 4 reach the
      four-element list and raise IndexError; the corrected guard ignores it,
      as `set_throttle_for_motor` does. */
  lemma TargetForOverrun(s: Rig, value: int)
    requires Valid(s)
    ensures TargetForAsWritten(s, NumMotors, value) == Step(s, Some(IndexError))
    ensures TargetFor(s, NumMotors, value) == Step(s, None)
  {
  }

  /** Apart from index 4 the two guards agree. */
  lemma TargetForAgrees(s: Rig, ind: int, value: int)
    requires ind != NumMotors
    ensures TargetForAsWritten(s, ind, value) == TargetFor(s, ind, value)
  {
  }

  /** Switching the worker off clears the flag, zeroes every target and ends
      the worker; throttles keep their values. */
  lemma WorkerOffEffect(s: Rig)
    requires Valid(s)
    ensures WorkerOn(s, false) == Step(s.(controlOn := false, target := [0, 0, 0, 0], workerAlive := false), None)
  {
    var s1 := s.(controlOn := false);
    TargetAllEffect(s1, Spread(Uniform(0)));
    assert Targets(s1.target, Spread(Uniform(0)), NumMotors) == [0, 0, 0, 0];
  }

  /** Switching the worker on starts one, with every target reset to 0,
      only when none is alive; with one alive nothing changes. */
  lemma WorkerOnEffect(s: Rig)
    requires Valid(s)
    ensures s.workerAlive ==> WorkerOn(s, true) == Step(s, None)
    ensures !s.workerAlive ==>
              WorkerOn(s, true) == Step(s.(controlOn := true, target := [0, 0, 0, 0], workerAlive := true), None)
  {
    if !s.workerAlive {
      TargetAllEffect(s, Spread(Uniform(0)));
      assert Targets(s.target, Spread(Uniform(0)), NumMotors) == [0, 0, 0, 0];
    }
  }

  /** Disarming switches the worker off (flag cleared, targets zeroed) and
      then sends `ARMING 0`; arming sends `ARMING 1`. Neither touches the
      throttles nor `armed` itself. */
  lemma ArmingEffect(s: Rig)
    requires Valid(s)
    ensures RequestArming(s, false) ==
            Step(s.(controlOn := false, target := [0, 0, 0, 0], workerAlive := false,
                    sent := s.sent + ["ARMING 0"]), None)
    ensures RequestArming(s, true) == Step(s.(sent := s.sent + ["ARMING 1"]), None)
  {
    WorkerOffEffect(s);
    assert ArmingMessage(false) == "ARMING 0";
    assert ArmingMessage(true) == "ARMING 1";
  }

  lemma ArmingValid(s: Rig, on: bool)
    requires Valid(s)
    ensures Valid(RequestArming(s, on).rig) && Valid(WorkerOn(s, on).rig)
  {
    WorkerOffEffect(s);
    WorkerOnEffect(s);
  }

  /** The throttles after one full tick. */
  function Adjusted(s: Rig, n: nat): (r: seq<int>)
    requires Valid(s) && s.rpm.Some? && |s.rpm.value| >= NumMotors
    ensures |r| == NumMotors
  {
    seq(NumMotors, i requires 0 <= i < NumMotors =>
      if i < n then Clamp(Request(s.throttle[i], s.target[i], s.rpm.value[i])) else s.throttle[i])
  }

  lemma AdjustedStep(s: Rig, n: nat)
    requires Valid(s) && s.rpm.Some? && |s.rpm.value| >= NumMotors && 0 < n <= NumMotors
    ensures Adjusted(s, n - 1)[n - 1 := Clamp(Request(s.throttle[n - 1], s.target[n - 1], s.rpm.value[n - 1]))]
         == Adjusted(s, n)
  {
  }

  lemma {:induction false} TickMotorsEffect(s: Rig, n: nat)
    requires Valid(s) && s.armed && s.rpm.Some? && |s.rpm.value| >= NumMotors && n <= NumMotors
    ensures var p := TickMotors(s, n);
            p.raised.None? && Valid(p.rig) &&
            p.rig.throttle == Adjusted(s, n) &&
            |p.rig.sent| == |s.sent| + n && p.rig.sent[..|s.sent|] == s.sent &&
            (n > 0 ==> p.rig.sent[|p.rig.sent| - 1] == SetMessage(p.rig.throttle)) &&
            p.rig.(throttle := s.throttle, sent := s.sent) == s
  {
    if n > 0 {
      TickMotorsEffect(s, n - 1);
      var p := TickMotors(s, n - 1);
      var i := n - 1;
      var req := Request(s.throttle[i], s.target[i], s.rpm.value[i]);
      assert p.rig.throttle[i] == s.throttle[i];
      assert p.rig.target == s.target && p.rig.rpm == s.rpm && p.rig.armed;
      assert MotorTick(p.rig, i) == ThrottleFor(p.rig, i, req);
      ThrottleForEffect(p.rig, i, req);
      AdjustedStep(s, n);
    }
  }

  /** One tick with control on, armed and four speeds known sets every
      motor's throttle to the clamped feedback request, sends one `SET` per
      motor (the last carrying the final vector) and changes nothing else. */
  lemma TickEffect(s: Rig)
    requires Valid(s) && s.controlOn && s.armed && s.rpm.Some? && |s.rpm.value| >= NumMotors
    ensures var p := Tick(s);
            p.raised.None? && Valid(p.rig) &&
            (forall i :: 0 <= i < NumMotors ==>
               p.rig.throttle[i] == Clamp(Request(s.throttle[i], s.target[i], s.rpm.value[i]))) &&
            |p.rig.sent| == |s.sent| + NumMotors && p.rig.sent[..|s.sent|] == s.sent &&
            p.rig.sent[|p.rig.sent| - 1] == SetMessage(p.rig.throttle) &&
            p.rig.(throttle := s.throttle, sent := s.sent) == s
  {
    TickMotorsEffect(s, NumMotors);
  }

  /** The worker ends without touching throttles or sending anything as soon
      as control is off or the drone is disarmed. */
  lemma TickExits(s: Rig)
    requires !s.controlOn || !s.armed
    ensures Tick(s) == Step(s.(workerAlive := false), None)
  {
  }

  /** Without any speed reported yet, a tick raises TypeError before changing
      a throttle, and the worker ends. */
  lemma TickWithoutTelemetry(s: Rig)
    requires s.controlOn && s.armed && s.rpm.None?
    ensures Tick(s) == Step(s.(workerAlive := false), Some(TypeError))
  {
    assert TickMotors(s, 1) == Step(s, Some(TypeError));
    assert TickMotors(s, 2) == Step(s, Some(TypeError));
    assert TickMotors(s, 3) == Step(s, Some(TypeError));
  }

  lemma {:induction false} TickMotorsErrPersists(s: Rig, j: nat, n: nat)
    requires j <= n && TickMotors(s, j).raised.Some?
    ensures TickMotors(s, n) == TickMotors(s, j)
    decreases n - j
  {
    if j < n {
      assert TickMotors(s, j + 1) == TickMotors(s, j);
      TickMotorsErrPersists(s, j + 1, n);
    }
  }

  lemma {:induction false} TickMotorsValid(s: Rig, n: nat)
    requires Valid(s)
    ensures Valid(TickMotors(s, n).rig)
  {
    if n > 0 {
      TickMotorsValid(s, n - 1);
      var p := TickMotors(s, n - 1);
      if p.raised.None? && p.rig.rpm.Some? && n - 1 < |p.rig.rpm.value| && n - 1 < |p.rig.throttle| && n - 1 < |p.rig.target| {
        ThrottleForValid(p.rig, n - 1, Request(p.rig.throttle[n - 1], p.rig.target[n - 1], p.rig.rpm.value[n - 1]));
      }
    }
  }

  /** Every tick keeps every throttle within the clamp, whatever the
      telemetry says. */
  lemma TickValid(s: Rig)
    requires Valid(s)
    ensures Valid(Tick(s).rig)
  {
    TickMotorsValid(s, NumMotors);
  }

  /** Messages from the flight controller never touch throttles or targets. */
  lemma ReceiveKeepsControls(s: Rig, payload: string, parseReal: string -> Option<real>)
    ensures var p := Receive(s, payload, parseReal);
            p.rig.throttle == s.throttle && p.rig.target == s.target && p.rig.sent == s.sent &&
            p.rig.conn && p.rig.controlOn == s.controlOn && p.rig.workerAlive == s.workerAlive
  {
    match Decode(payload, parseReal)
    case Err(_) =>
    case Ok(m) =>
      assert m.Arming? || m.Motor? || m.Power? || m.Other?;
  }

  /** A message with an unknown header only marks the link connected. */
  lemma OtherHeaderIgnored(s: Rig, payload: string, parseReal: string -> Option<real>)
    requires var h := Split(Strip(payload), ' ')[0]; h != "ARMING" && h != "POWER" && h != "MOTOR"
    ensures Receive(s, payload, parseReal) == Step(s.(conn := true), None)
  {
  }

  // ---------------------------------------------------------------------
  // Reading the reported speeds

  function SumInts(xs: seq<int>): int
  {
    if xs == [] then 0 else SumInts(xs[..|xs| - 1]) + xs[|xs| - 1]
  }

  /** `get_avg_rpm`: `sum(rpm[:NUM_OF_MOTORS]) / NUM_OF_MOTORS`; a TypeError
      before any speed has been reported. */
  function AverageRpm(rpm: Option<seq<int>>): (r: Result<real>)
    ensures r.Err? <==> rpm.None?
  {
    match rpm
    case None => Err(TypeError)
    case Some(xs) => Ok(SumInts(xs[..Min(NumMotors, |xs|)]) as real / NumMotors as real)
  }

  /** Speeds past the fourth do not count. */
  lemma AverageIgnoresExtra(xs: seq<int>, extra: seq<int>)
    requires |xs| == NumMotors
    ensures AverageRpm(Some(xs + extra)) == AverageRpm(Some(xs))
  {
    assert (xs + extra)[..NumMotors] == xs[..NumMotors];
  }

  /** When the four motors turn at the same speed the average is that speed. */
  lemma AverageOfSteady(xs: seq<int>, v: int)
    requires |xs| >= NumMotors && forall i :: 0 <= i < NumMotors ==> xs[i] == v
    ensures AverageRpm(Some(xs)) == Ok(v as real)
  {
    var f := xs[..NumMotors];
    assert f == [v, v, v, v];
    assert [v][..0] == [];
    assert SumInts([v]) == v;
    assert [v, v][..1] == [v];
    assert SumInts([v, v]) == 2 * v;
    assert [v, v, v][..2] == [v, v];
    assert SumInts([v, v, v]) == 3 * v;
    assert f[..3] == [v, v, v];
    assert SumInts(f) == 4 * v;
  }

  // ---------------------------------------------------------------------
  // The wait of a blocking `set_rpm`

  /** `[abs(target[i] - rpm[i]) for i in range(NUM_OF_MOTORS)]`: an
      IndexError when either list is short, a TypeError when no speed has
      been reported (after `target[0]` has been read). */
  function Deviations(target: seq<int>, rpm: Option<seq<int>>): (r: Result<seq<int>>)
    ensures r.Ok? <==> |target| >= NumMotors && rpm.Some? && |rpm.value| >= NumMotors
    ensures r.Ok? ==> |r.value| == NumMotors && forall i :: 0 <= i < NumMotors ==>
              r.value[i] >= 0 && (r.value[i] == target[i] - rpm.value[i] || r.value[i] == rpm.value[i] - target[i])
  {
    if |target| == 0 then Err(IndexError)
    else if rpm.None? then Err(TypeError)
    else if |target| < NumMotors || |rpm.value| < NumMotors then Err(IndexError)
    else
      Ok(seq(NumMotors, i requires 0 <= i < NumMotors =>
        if target[i] >= rpm.value[i] then target[i] - rpm.value[i] else rpm.value[i] - target[i]))
  }

  /** `not any(diff > RPM_TOLERANCE for diff in abs_diff)`. */
  predicate Settled(devs: seq<int>)
  {
    forall i :: 0 <= i < |devs| ==> devs[i] <= RpmTolerance
  }

  /** How the wait ends: `Ok(true)` when it returns, `Ok(false)` when the
      observations run out while it still waits, `Err` when it raises; and
      how many observations of `rpm` it made. */
  datatype Wait = Wait(r: Result<bool>, used: nat)

  function Later(w: Wait, n: nat): Wait
  {
    Wait(w.r, w.used + n)
  }

  /** The blocking loop of `set_rpm` over the successive values of `rpm`. */
  function Await(target: seq<int>, polls: seq<Option<seq<int>>>): (w: Wait)
    ensures w.used <= |polls|
  {
    if polls == [] then Wait(Ok(false), 0)
    else
      match Deviations(target, polls[0])
      case Err(e) => Wait(Err(e), 1)
      case Ok(d) => if Settled(d) then Wait(Ok(true), 1) else Later(Await(target, polls[1..]), 1)
  }

  /** The wait returns at the first observation where every motor is within
      the tolerance of its target, and not before. */
  lemma {:induction false} AwaitReturnsWhenSettled(target: seq<int>, polls: seq<Option<seq<int>>>)
    ensures var w := Await(target, polls);
            (forall j :: 0 <= j < w.used - 1 ==> Deviations(target, polls[j]).Ok? && !Settled(Deviations(target, polls[j]).value)) &&
            (w.r == Ok(true) ==> w.used >= 1 && Deviations(target, polls[w.used - 1]).Ok? &&
                                 Settled(Deviations(target, polls[w.used - 1]).value)) &&
            (w.r == Ok(false) ==> w.used == |polls| &&
                                  (w.used == 0 || (Deviations(target, polls[w.used - 1]).Ok? && !Settled(Deviations(target, polls[w.used - 1]).value)))) &&
            (w.r.Err? ==> w.used >= 1 && Deviations(target, polls[w.used - 1]) == Err(w.r.error))
  {
    if polls != [] {
      AwaitReturnsWhenSettled(target, polls[1..]);
      var w := Await(target, polls);
      var d := Deviations(target, polls[0]);
      if d.Ok? && !Settled(d.value) {
        var w1 := Await(target, polls[1..]);
        assert w == Later(w1, 1);
        forall j | 0 <= j < w.used - 1
          ensures Deviations(target, polls[j]).Ok? && !Settled(Deviations(target, polls[j]).value)
        {
          if j > 0 {
            assert polls[j] == polls[1..][j - 1];
          }
        }
        if w.r == Ok(false) && w1.used > 0 {
          assert polls[w.used - 1] == polls[1..][w1.used - 1];
        }
        if w.r == Ok(true) || w.r.Err? {
          assert polls[w.used - 1] == polls[1..][w1.used - 1];
        }
      }
    }
  }

  /** The blocking loop of `set_rpm`: observes `rpm` until every motor is
      within the tolerance of its target. */
  method AwaitRpm(target: seq<int>, polls: seq<Option<seq<int>>>) returns (w: Wait)
    ensures w == Await(target, polls)
  {
    var i := 0;
    while i < |polls|
      invariant i <= |polls|
      invariant Await(target, polls) == Later(Await(target, polls[i..]), i)
    {
      assert polls[i..][1..] == polls[i + 1..];
      var d := Deviations(target, polls[i]);
      if d.Err? {
        return Wait(Err(d.error), i + 1);
      }
      if Settled(d.value) {
        return Wait(Ok(true), i + 1);
      }
      i := i + 1;
    }
    w := Wait(Ok(false), |polls|);
  }

  // ---------------------------------------------------------------------
  // The controller object

  /** The `Drone` object. Its fields start at the class defaults; the
      constructor's socket set-up, the launch of the configurator and the
      wait for the first message are not modelled. */
  class Drone {
    var armed: bool
    var controlOn: bool
    var throttle: seq<int>
    var target: seq<int>
    var rpm: Option<seq<int>>
    var power: Option<seq<real>>
    var conn: bool
    var workerAlive: bool
    var sent: seq<string>

    function State(): Rig
      reads this
    {
      Rig(armed, controlOn, throttle, target, rpm, power, conn, workerAlive, sent)
    }

    constructor()
      ensures State() == Initial()
    {
      armed := false;
      controlOn := false;
      throttle := [MinThrottle, MinThrottle, MinThrottle, MinThrottle];
      target := [0, 0, 0, 0];
      rpm := None;
      power := None;
      conn := false;
      workerAlive := false;
      sent := [];
    }

    /** `ServerProtocol.onMessage` applied to this drone. */
    method OnMessage(payload: string, parseReal: string -> Option<real>) returns (raised: Option<Error>)
      modifies this
      ensures Step(State(), raised) == Receive(old(State()), payload, parseReal)
    {
      conn := true;
      ghost var s1 := State();
      assert s1 == old(State()).(conn := true);
      raised := None;
      var m := Decode(payload, parseReal);
      match m
      case Err(e) =>
        raised := Some(e);
      case Ok(Arming(on)) =>
        armed := on;
        assert State() == s1.(armed := on);
      case Ok(Motor(r)) =>
        rpm := Some(r);
        assert State() == s1.(rpm := Some(r));
      case Ok(Power(p)) =>
        power := Some(p);
        assert State() == s1.(power := Some(p));
      case Ok(Other) =>
    }

    method SetThrottleForMotor(ind: int, value: int) returns (raised: Option<Error>)
      modifies this
      ensures Step(State(), raised) == ThrottleFor(old(State()), ind, value)
    {
      raised := None;
      if ind >= NumMotors {
        return;
      }
      if !armed {
        return;
      }
      var t := Clamp(value);
      var k := Slot(ind, |throttle|);
      if k.None? {
        raised := Some(IndexError);
        return;
      }
      throttle := throttle[k.value := t];
      sent := sent + [SetMessage(throttle)];
    }

    method SetThrottle(a: Setting) returns (raised: Option<Error>)
      modifies this
      ensures Step(State(), raised) == ThrottleAll(old(State()), Spread(a))
    {
      var xs := Spread(a);
      raised := None;
      var i := 0;
      while i < |xs|
        invariant i <= |xs| && raised.None?
        invariant Step(State(), None) == ThrottleAll(old(State()), xs[..i])
      {
        assert xs[..i + 1][..i] == xs[..i];
        raised := SetThrottleForMotor(i, xs[i]);
        if raised.Some? {
          ThrottleAllErrPersists(old(State()), xs, i + 1);
          return;
        }
        i := i + 1;
      }
      assert xs[..|xs|] == xs;
    }

    method SetRpmForMotor(ind: int, value: int) returns (raised: Option<Error>)
      modifies this
      ensures Step(State(), raised) == TargetFor(old(State()), ind, value)
    {
      raised := None;
      if ind >= NumMotors {
        return;
      }
      var k := Slot(ind, |target|);
      if k.None? {
        raised := Some(IndexError);
        return;
      }
      target := target[k.value := value];
    }

    /** `set_rpm`: stores the targets; when blocking, then observes the
        successive values of `rpm` in `polls` until every motor is within
        the tolerance. */
    method SetRpm(a: Setting, block: bool, polls: seq<Option<seq<int>>>) returns (w: Wait)
      modifies this
      ensures var p := TargetAll(old(State()), Spread(a));
              State() == p.rig &&
              (p.raised.Some? ==> w == Wait(Err(p.raised.value), 0)) &&
              (p.raised.None? && !block ==> w == Wait(Ok(true), 0)) &&
              (p.raised.None? && block ==> w == Await(Spread(a), polls))
    {
      var xs := Spread(a);
      var i := 0;
      while i < |xs|
        invariant i <= |xs|
        invariant Step(State(), None) == TargetAll(old(State()), xs[..i])
      {
        assert xs[..i + 1][..i] == xs[..i];
        var raised := SetRpmForMotor(i, xs[i]);
        if raised.Some? {
          TargetAllErrPersists(old(State()), xs, i + 1);
          return Wait(Err(raised.value), 0);
        }
        i := i + 1;
      }
      assert xs[..|xs|] == xs;
      if !block {
        return Wait(Ok(true), 0);
      }
      w := AwaitRpm(xs, polls);
    }

    method SetRpmWorkerOn(on: bool) returns (raised: Option<Error>)
      modifies this
      ensures Step(State(), raised) == WorkerOn(old(State()), on)
    {
      raised := None;
      if !on {
        controlOn := false;
        var w := SetRpm(Uniform(0), false, []);
        if w.r.Err? {
          raised := Some(w.r.error);
          return;
        }
        workerAlive := false;
      } else if !workerAlive {
        var w := SetRpm(Uniform(0), false, []);
        if w.r.Err? {
          raised := Some(w.r.error);
          return;
        }
        controlOn := true;
        workerAlive := true;
      }
    }

    /** `set_arming` without blocking. */
    method SetArming(on: bool) returns (raised: Option<Error>)
      modifies this
      ensures Step(State(), raised) == RequestArming(old(State()), on)
    {
      raised := None;
      if !on {
        raised := SetRpmWorkerOn(false);
        if raised.Some? {
          return;
        }
      }
      sent := sent + [ArmingMessage(on)];
    }

    /** The body of `rpm_worker`'s `for` loop for motor `i`. */
    method MotorWorkerStep(i: nat) returns (raised: Option<Error>)
      modifies this
      ensures Step(State(), raised) == MotorTick(old(State()), i)
    {
      if rpm.None? {
        raised := Some(TypeError);
      } else if i >= |rpm.value| || i >= |throttle| || i >= |target| {
        raised := Some(IndexError);
      } else {
        raised := SetThrottleForMotor(i, Request(throttle[i], target[i], rpm.value[i]));
      }
    }

    /** One pass of `rpm_worker`'s loop. */
    method RpmWorkerTick() returns (raised: Option<Error>)
      modifies this
      ensures Step(State(), raised) == Tick(old(State()))
    {
      raised := None;
      if !controlOn || !armed {
        workerAlive := false;
        return;
      }
      var i := 0;
      while i < NumMotors
        invariant i <= NumMotors
        invariant raised.None? && old(controlOn) && old(armed)
        invariant Step(State(), None) == TickMotors(old(State()), i)
      {
        raised := MotorWorkerStep(i);
        if raised.Some? {
          TickMotorsErrPersists(old(State()), i + 1, NumMotors);
          workerAlive := false;
          return;
        }
        i := i + 1;
      }
    }
  }
}
