/** `ArdManager.customise_mapping` in src/lib/ard.py: the operator gives
    every motor a new id by typing it, and every load cell a new id by
    pushing on it. The typed answers and the mass readings are inputs. */
module ArdRemap {
  import opened Py
  import opened ArdLink
  import opened ArdFleet

  // ---------------------------------------------------------------------
  // Slots filled one at a time (`[None] * n`, then `new[k] = ...`)

  /** The filled slots' values, in slot order. */
  function Filled<T>(xs: seq<Option<T>>): (r: seq<T>)
    ensures |r| <= |xs|
    decreases |xs|
  {
    if xs == [] then []
    else
      var rest := Filled(xs[..|xs| - 1]);
      if xs[|xs| - 1].Some? then rest + [xs[|xs| - 1].value] else rest
  }

  /** Filling an empty slot adds exactly its value to the filled ones. */
  lemma {:induction false} FillSlot<T>(xs: seq<Option<T>>, k: nat, v: T)
    requires k < |xs| && xs[k].None?
    ensures multiset(Filled(xs[k := Some(v)])) == multiset(Filled(xs)) + multiset{v}
    ensures |Filled(xs[k := Some(v)])| == |Filled(xs)| + 1
    decreases |xs|
  {
    var n := |xs| - 1;
    var ys := xs[k := Some(v)];
    assert ys[..n] == if k < n then xs[..n][k := Some(v)] else xs[..n];
    if k < n {
      FillSlot(xs[..n], k, v);
    }
  }

  /** When every slot is filled, the values are the slots' values in order. */
  lemma {:induction false} FilledFull<T>(xs: seq<Option<T>>)
    requires |Filled(xs)| == |xs|
    ensures forall k :: 0 <= k < |xs| ==> xs[k].Some? && Filled(xs)[k] == xs[k].value
    decreases |xs|
  {
    if xs != [] {
      var n := |xs| - 1;
      assert |Filled(xs[..n])| <= n;
      FilledFull(xs[..n]);
      assert forall k :: 0 <= k < n ==> xs[..n][k] == xs[k];
    }
  }

  /** No slot filled. */
  lemma {:induction false} FilledNone<T>(n: nat)
    ensures Filled(seq<Option<T>>(n, _ => None)) == []
    decreases n
  {
    if n > 0 {
      assert seq<Option<T>>(n, _ => None)[..n - 1] == seq<Option<T>>(n - 1, _ => None);
      FilledNone<T>(n - 1);
    }
  }

  // ---------------------------------------------------------------------
  // Motors: typed ids (src/lib/ard.py:118-137)

  /** How one typed answer is judged. */
  datatype Verdict = NotNumeric | OutOfRange | AlreadyUsed | Accept(id: nat)

  /** `str.isnumeric()` on ASCII text: one or more digits. */
  predicate IsNumeric(s: string)
  {
    s != [] && AllDigits(s)
  }

  /** The checks of one answer as written: the bound `new_id > max_id` lets
      `max_id` through to `new_mapping.motor[new_id]`, an IndexError. */
  function CheckMotorIdAsWritten(answer: string, slots: seq<Option<Channel>>): (r: Result<Verdict>)
    ensures r.Err? <==> IsNumeric(answer) && DigitsValue(answer) == |slots|
  {
    if !IsNumeric(answer) then Ok(NotNumeric)
    else
      var n := DigitsValue(answer);
      if n < 0 || n > |slots| then Ok(OutOfRange)
      else if n >= |slots| then Err(IndexError)
      else if slots[n].Some? then Ok(AlreadyUsed)
      else Ok(Accept(n))
  }

  /** The checks with the bound the list needs (`new_id >= max_id`): an id is
      accepted exactly when it is numeric, names a slot and the slot is free. */
  function CheckMotorId(answer: string, slots: seq<Option<Channel>>): (v: Verdict)
    ensures v.Accept? <==> IsNumeric(answer) && DigitsValue(answer) < |slots| && slots[DigitsValue(answer)].None?
    ensures v.Accept? ==> v.id == DigitsValue(answer)
    ensures v == NotNumeric <==> !IsNumeric(answer)
  {
    if !IsNumeric(answer) then NotNumeric
    else
      var n := DigitsValue(answer);
      if n < 0 || n >= |slots| then OutOfRange
      else if slots[n].Some? then AlreadyUsed
      else Accept(n)
  }

  /** The two checks agree on every answer but `max_id` itself. */
  lemma CheckMotorIdAgrees(answer: string, slots: seq<Option<Channel>>)
    requires !(IsNumeric(answer) && DigitsValue(answer) == |slots|)
    ensures CheckMotorIdAsWritten(answer, slots) == Ok(CheckMotorId(answer, slots))
  {
  }

  /** Typing the motor count (`"2"` for two motors) crashes the remap. */
  lemma CheckMotorIdOverrun(slots: seq<Option<Channel>>)
    ensures CheckMotorIdAsWritten(NatToString(|slots|), slots) == Err(IndexError)
    ensures CheckMotorId(NatToString(|slots|), slots) == OutOfRange
  {
    NatToStringValue(|slots|);
  }

  /** Putting motor `i` in a free slot extends the placed motors by it. */
  lemma PlaceStep(slots: seq<Option<Channel>>, motors: seq<Channel>, i: nat, id: nat)
    requires i < |motors| && id < |slots| && slots[id].None?
    requires multiset(Filled(slots)) == multiset(motors[..i]) && |Filled(slots)| == i
    ensures multiset(Filled(slots[id := Some(motors[i])])) == multiset(motors[..i + 1])
    ensures |Filled(slots[id := Some(motors[i])])| == i + 1
  {
    FillSlot(slots, id, motors[i]);
    assert motors[..i + 1] == motors[..i] + [motors[i]];
  }

  /** What one prompt ends with: the accepted id, the answers read up to
      and including it, and whether one was accepted. */
  datatype Asked = Asked(id: nat, used: nat, found: bool)

  /** The prompt for one motor: from `start` on, the first answer the checks
      accept names a free slot; when none is accepted every answer was read. */
  function FirstAccepted(slots: seq<Option<Channel>>, answers: seq<string>, start: nat): (r: Asked)
    requires start <= |answers|
    ensures start <= r.used <= |answers|
    ensures !r.found ==> r.used == |answers|
    ensures r.found ==> r.used > start && r.id < |slots| && slots[r.id].None?
    decreases |answers| - start
  {
    if start == |answers| then Asked(0, start, false)
    else
      match CheckMotorId(answers[start], slots)
      case Accept(id) => Asked(id, start + 1, true)
      case _ => FirstAccepted(slots, answers, start + 1)
  }

  /** The accepted answer is the first one the checks accept: every answer
      read before it was rejected. */
  lemma {:induction false} FirstAcceptedIsFirst(slots: seq<Option<Channel>>, answers: seq<string>, start: nat)
    requires start <= |answers|
    ensures var r := FirstAccepted(slots, answers, start);
            (r.found ==> CheckMotorId(answers[r.used - 1], slots) == Accept(r.id))
            && forall k :: start <= k < (if r.found then r.used - 1 else r.used) ==> !CheckMotorId(answers[k], slots).Accept?
    decreases |answers| - start
  {
    if start < |answers| && !CheckMotorId(answers[start], slots).Accept? {
      FirstAcceptedIsFirst(slots, answers, start + 1);
    }
  }

  /** The state of the motor loop: the new slots, the answers read, the id
      accepted for each motor so far, and whether every prompt so far ended. */
  datatype Placement = Placement(slots: seq<Option<Channel>>, used: nat, ids: seq<nat>, done: bool)

  /** One turn of the motor loop, for motor `i`: its prompt reads answers
      from where the last one stopped, and the motor goes to the slot the
      accepted answer names, `new_mapping.motor[new_id] = old_mapping.motor[i]`.
      A prompt that runs out of answers ends the loop. */
  function PlaceNext(motors: seq<Channel>, answers: seq<string>, i: nat, p: Placement): (q: Placement)
    requires i < |motors| && |p.slots| == |motors| && p.used <= |answers|
    ensures |q.slots| == |motors| && p.used <= q.used <= |answers|
    ensures q.done ==>
              p.done && |q.ids| == |p.ids| + 1 && q.ids == p.ids + [q.ids[|p.ids|]]
              && q.ids[|p.ids|] < |motors| && p.slots[q.ids[|p.ids|]].None?
              && q.slots == p.slots[q.ids[|p.ids|] := Some(motors[i])]
    ensures !q.done ==> q.used == |answers| && q.slots == p.slots && q.ids == p.ids
  {
    if !p.done then Placement(p.slots, |answers|, p.ids, false)
    else
      var a := FirstAccepted(p.slots, answers, p.used);
      if !a.found then Placement(p.slots, a.used, p.ids, false)
      else Placement(p.slots[a.id := Some(motors[i])], a.used, p.ids + [a.id], true)
  }

  /** The motor loop over the first `n` motors. */
  function PlaceMotors(motors: seq<Channel>, answers: seq<string>, n: nat): (p: Placement)
    requires n <= |motors|
    ensures |p.slots| == |motors| && p.used <= |answers|
    ensures p.done ==> |p.ids| == n
    ensures !p.done ==> p.used == |answers|
  {
    if n == 0 then Placement(seq(|motors|, _ => None), 0, [], true)
    else PlaceNext(motors, answers, n - 1, PlaceMotors(motors, answers, n - 1))
  }

  /** Putting motor `n` in a free slot keeps every earlier motor where it was. */
  lemma PlaceIdsStep(q: Placement, motors: seq<Channel>, n: nat, id: nat)
    requires n < |motors| && |q.slots| == |motors| && |q.ids| == n
    requires id < |motors| && q.slots[id].None?
    requires forall i :: 0 <= i < n ==> q.ids[i] < |motors| && q.slots[q.ids[i]] == Some(motors[i])
    ensures forall i :: 0 <= i < n + 1 ==>
              (q.ids + [id])[i] < |motors| && q.slots[id := Some(motors[n])][(q.ids + [id])[i]] == Some(motors[i])
  {
    forall i | 0 <= i < n + 1
      ensures (q.ids + [id])[i] < |motors| && q.slots[id := Some(motors[n])][(q.ids + [id])[i]] == Some(motors[i])
    {
      if i < n {
        assert (q.ids + [id])[i] == q.ids[i] != id;
      }
    }
  }

  /** Once every prompt so far has ended, motor `i` sits in slot `ids[i]`. */
  lemma {:induction false} PlaceMotorsSpec(motors: seq<Channel>, answers: seq<string>, n: nat)
    requires n <= |motors|
    ensures var p := PlaceMotors(motors, answers, n);
            p.done ==> forall i :: 0 <= i < n ==> p.ids[i] < |motors| && p.slots[p.ids[i]] == Some(motors[i])
  {
    if n > 0 {
      var q := PlaceMotors(motors, answers, n - 1);
      var p := PlaceNext(motors, answers, n - 1, q);
      PlaceMotorsSpec(motors, answers, n - 1);
      if p.done {
        PlaceIdsStep(q, motors, n - 1, p.ids[n - 1]);
      }
    }
  }

  /** Once every prompt so far has ended, exactly the first `n` motors are
      placed. */
  lemma {:induction false} PlaceMotorsFilled(motors: seq<Channel>, answers: seq<string>, n: nat)
    requires n <= |motors|
    ensures var p := PlaceMotors(motors, answers, n);
            p.done ==> |Filled(p.slots)| == n && multiset(Filled(p.slots)) == multiset(motors[..n])
  {
    if n == 0 {
      FilledNone<Channel>(|motors|);
    } else {
      var q := PlaceMotors(motors, answers, n - 1);
      var p := PlaceNext(motors, answers, n - 1, q);
      PlaceMotorsFilled(motors, answers, n - 1);
      if p.done {
        PlaceStep(q.slots, motors, n - 1, p.ids[n - 1]);
      }
    }
  }

  /** The whole motor loop. */
  function MotorPlacement(motors: seq<Channel>, answers: seq<string>): (p: Placement)
    ensures |p.slots| == |motors| && p.used <= |answers|
  {
    PlaceMotors(motors, answers, |motors|)
  }

  /** When every motor was placed, motor `i` sits in slot `ids[i]`, every
      slot is filled, and the new motor list is a permutation of the old. */
  lemma MotorPlacementSpec(motors: seq<Channel>, answers: seq<string>)
    ensures var p := MotorPlacement(motors, answers);
            p.done ==>
              (forall i :: 0 <= i < |motors| ==> p.ids[i] < |motors| && p.slots[p.ids[i]] == Some(motors[i]))
              && (forall k :: 0 <= k < |motors| ==> p.slots[k].Some?)
              && multiset(Filled(p.slots)) == multiset(motors)
              && Filled(p.slots) == seq(|motors|, k requires 0 <= k < |motors| => p.slots[k].value)
  {
    var p := MotorPlacement(motors, answers);
    PlaceMotorsSpec(motors, answers, |motors|);
    PlaceMotorsFilled(motors, answers, |motors|);
    if p.done {
      assert motors[..|motors|] == motors;
      FilledFull(p.slots);
    }
  }

  /** A prompt that runs out of answers ends the loop for good. */
  lemma {:induction false} PlaceMotorsStops(motors: seq<Channel>, answers: seq<string>, j: nat, n: nat)
    requires j <= n <= |motors| && !PlaceMotors(motors, answers, j).done
    ensures PlaceMotors(motors, answers, n) == PlaceMotors(motors, answers, j)
    decreases n - j
  {
    if j < n {
      assert PlaceMotors(motors, answers, j + 1) == PlaceMotors(motors, answers, j);
      PlaceMotorsStops(motors, answers, j + 1, n);
    }
  }

  /** The prompt loop for one motor. */
  method AskMotorId(slots: seq<Option<Channel>>, answers: seq<string>, start: nat)
    returns (id: nat, used: nat, found: bool)
    requires start <= |answers|
    ensures Asked(id, used, found) == FirstAccepted(slots, answers, start)
  {
    id, used, found := 0, start, false;
    while used < |answers|
      invariant start <= used <= |answers|
      invariant FirstAccepted(slots, answers, used) == FirstAccepted(slots, answers, start)
    {
      var v := CheckMotorId(answers[used], slots);
      if v.Accept? {
        return v.id, used + 1, true;
      }
      used := used + 1;
    }
  }

  /** The motor loop: for each old motor in turn, answers are read until one
      is accepted, and the motor is put in the slot it names. Returns the new
      slots, the answers used, the accepted ids, and whether every motor was
      placed (the prompt blocks once the answers run out). */
  method RemapMotors(motors: seq<Channel>, answers: seq<string>)
    returns (slots: seq<Option<Channel>>, used: nat, ids: seq<nat>, done: bool)
    ensures Placement(slots, used, ids, done) == MotorPlacement(motors, answers)
  {
    slots := seq(|motors|, _ => None);
    used := 0;
    ids := [];
    var i := 0;
    while i < |motors|
      invariant i <= |motors|
      invariant Placement(slots, used, ids, true) == PlaceMotors(motors, answers, i)
    {
      var id, found;
      id, used, found := AskMotorId(slots, answers, used);
      if !found {
        PlaceMotorsStops(motors, answers, i + 1, |motors|);
        done := false;
        return;
      }
      slots := slots[id := Some(motors[i])];
      ids := ids + [id];
      i := i + 1;
    }
    done := true;
  }

  // ---------------------------------------------------------------------
  // Load cells: pushed cells (src/lib/ard.py:139-153)

  /** A cell counts as pushed when its mass reading exceeds 50 either way. */
  predicate Pushed(x: real)
  {
    x > 50.0 || x < -50.0
  }

  /** The first pushed cell of one reading, if any. */
  function FirstPushed(mass: seq<real>): (r: Option<nat>)
    ensures r.Some? ==> r.value < |mass| && Pushed(mass[r.value])
                        && forall k :: 0 <= k < r.value ==> !Pushed(mass[k])
    ensures r.None? ==> forall k :: 0 <= k < |mass| ==> !Pushed(mass[k])
    decreases |mass|
  {
    if mass == [] then None
    else if Pushed(mass[0]) then Some(0)
    else
      match FirstPushed(mass[1..])
      case None => None
      case Some(k) => Some(k + 1)
  }

  /** The inner `for` of the cell loop: scans one reading and stops at the
      first pushed cell. */
  method FindPushed(mass: seq<real>) returns (r: Option<nat>)
    ensures r == FirstPushed(mass)
  {
    r := None;
    var i := 0;
    while i < |mass|
      invariant i <= |mass|
      invariant forall k :: 0 <= k < i ==> !Pushed(mass[k])
    {
      if Pushed(mass[i]) {
        r := Some(i);
        break;
      }
      i := i + 1;
    }
  }

  /** The cells selected by a run of readings: the first pushed cell of each
      reading that has one (readings without one are polled again). */
  function Pushes(polls: seq<seq<real>>): (r: seq<nat>)
    ensures |r| <= |polls|
    decreases |polls|
  {
    if polls == [] then []
    else
      var rest := Pushes(polls[..|polls| - 1]);
      match FirstPushed(polls[|polls| - 1])
      case None => rest
      case Some(c) => rest + [c]
  }

  /** Later readings only extend the selections. */
  lemma {:induction false} PushesPrefix(polls: seq<seq<real>>, j: nat)
    requires j <= |polls|
    ensures |Pushes(polls[..j])| <= |Pushes(polls)|
    ensures Pushes(polls[..j]) == Pushes(polls)[..|Pushes(polls[..j])|]
    decreases |polls| - j
  {
    if j < |polls| {
      assert polls[..j + 1][..j] == polls[..j];
      PushesPrefix(polls, j + 1);
    } else {
      assert polls[..j] == polls;
    }
  }

  /** Each selected cell is a cell of the reading it came from. */
  lemma {:induction false} PushesBound(polls: seq<seq<real>>, n: nat)
    requires forall p :: 0 <= p < |polls| ==> |polls[p]| == n
    ensures forall k :: 0 <= k < |Pushes(polls)| ==> Pushes(polls)[k] < n
    decreases |polls|
  {
    if polls != [] {
      var m := |polls| - 1;
      assert forall p :: 0 <= p < m ==> polls[..m][p] == polls[p];
      PushesBound(polls[..m], n);
    }
  }

  /** The cell loop as written: the inner `for i` reuses the outer loop's
      name, so the old cell's channel is stored at the pushed cell's own
      index, `new[old_id] = old[old_id]`. */
  function RemapCellsAsWritten(cells: seq<Channel>, picks: seq<nat>): (slots: seq<Option<Channel>>)
    requires forall k :: 0 <= k < |picks| ==> picks[k] < |cells|
    ensures |slots| == |cells|
    decreases |picks|
  {
    if picks == [] then seq(|cells|, _ => None)
    else
      var c := picks[|picks| - 1];
      RemapCellsAsWritten(cells, picks[..|picks| - 1])[c := Some(cells[c])]
  }

  /** As written, every cell keeps its own channel: the remap of the load
      cells is never a reordering. */
  lemma {:induction false} RemapCellsAsWrittenIsIdentity(cells: seq<Channel>, picks: seq<nat>)
    requires forall k :: 0 <= k < |picks| ==> picks[k] < |cells|
    ensures var slots := RemapCellsAsWritten(cells, picks);
            forall k :: 0 <= k < |slots| && slots[k].Some? ==> slots[k].value == cells[k]
    decreases |picks|
  {
    if picks != [] {
      RemapCellsAsWrittenIsIdentity(cells, picks[..|picks| - 1]);
    }
  }

  /** The cell loop as intended: cell `i` of the new mapping is the channel
      of the `i`-th cell pushed. Returns the new slots, the readings used,
      and whether every cell was assigned. */
  method RemapCells(cells: seq<Channel>, polls: seq<seq<real>>)
    returns (slots: seq<Option<Channel>>, used: nat, done: bool)
    requires forall p :: 0 <= p < |polls| ==> |polls[p]| == |cells|
    ensures |slots| == |cells| && used <= |polls|
    ensures !done ==> used == |polls| && |Pushes(polls)| < |cells|
    ensures done ==> |Pushes(polls[..used])| == |cells|
    ensures done ==> |Pushes(polls)| >= |cells|
    ensures done ==> forall i :: 0 <= i < |cells| ==>
                       Pushes(polls)[i] < |cells| && slots[i] == Some(cells[Pushes(polls)[i]])
  {
    slots := seq(|cells|, _ => None);
    used := 0;
    var i := 0;
    PushesBound(polls, |cells|);
    while i < |cells|
      invariant used <= |polls|
      invariant |slots| == |cells|
      invariant i == |Pushes(polls[..used])| && i <= |cells|
      invariant forall k :: 0 <= k < i ==>
                  Pushes(polls[..used])[k] < |cells| && slots[k] == Some(cells[Pushes(polls[..used])[k]])
      decreases |polls| - used
    {
      if used == |polls| {
        assert polls[..used] == polls;
        done := false;
        return;
      }
      assert polls[..used + 1][..used] == polls[..used];
      var c := FindPushed(polls[used]);
      used := used + 1;
      if c.Some? {
        slots := slots[i := Some(cells[c.value])];
        i := i + 1;
      }
    }
    PushesPrefix(polls, used);
    done := true;
  }

  /** Two cells, pushed in the order 1 then 0: the intended remap swaps
      them, the loop as written leaves them where they were. */
  lemma RemapCellsSwapExample(a: Channel, b: Channel)
    requires a != b
    ensures Pushes([[0.0, 60.0], [60.0, 0.0]]) == [1, 0]
    ensures RemapCellsAsWritten([a, b], [1, 0]) == [Some(a), Some(b)]
  {
    var polls: seq<seq<real>> := [[0.0, 60.0], [60.0, 0.0]];
    assert polls[..1] == [[0.0, 60.0]] && |polls[..1][..0]| == 0;
    assert FirstPushed([0.0, 60.0]) == Some(1) by {
      assert [0.0, 60.0][1..] == [60.0];
    }
    var picks: seq<nat> := [1, 0];
    assert picks[..1] == [1] && |picks[..1][..0]| == 0;
  }

  /** The corrected cell loop on the same two cells and readings swaps them. */
  method RemapCellsSwapIntended(a: Channel, b: Channel) returns (slots: seq<Option<Channel>>)
    requires a != b
    ensures slots == [Some(b), Some(a)]
  {
    var polls: seq<seq<real>> := [[0.0, 60.0], [60.0, 0.0]];
    RemapCellsSwapExample(a, b);
    var used, done;
    slots, used, done := RemapCells([a, b], polls);
    assert slots[0] == Some(b) && slots[1] == Some(a);
  }

  // ---------------------------------------------------------------------
  // The test move before each motor prompt (src/lib/ard.py:124-125)

  /** The test move as written (src/lib/ard.py:125, raising at the
      `" ".join` of src/lib/ard.py:364): `Arduino.move(motor_id, 90)` passes the
      motor's local id as the target and 90 as `block`. `move` joins the
      step counts of its target, and an integer has none, so the call
      raises TypeError before anything is written and before the id prompt
      reads an answer. */
  function TestMoveAsWritten(motors: seq<Channel>, i: nat): (r: Result<string>)
    requires i < |motors|
    ensures r == Err(TypeError)
  {
    Err(TypeError)
  }

  /** The test move as intended: the manager's `move_motor(i, 90)`. */
  function TestMove(motors: seq<Channel>, i: nat): (g: Grouping)
    requires i < |motors|
  {
    Group(motors, MotorTarget(|motors|, i, 90))
  }

  /** The intended test move turns motor `i` by 90 steps and gives every
      other mapped channel 0. */
  lemma TestMoveMovesOne(motors: seq<Channel>, i: nat)
    requires Distinct(motors) && i < |motors|
    ensures var g := TestMove(motors, i);
            motors[i].dev in g.steps && motors[i].local in g.steps[motors[i].dev]
            && g.steps[motors[i].dev][motors[i].local] == 90
            && forall d, l :: d in g.steps && l in g.steps[d] && Channel(d, l) != motors[i] ==> g.steps[d][l] == 0
  {
    GroupStepsCover(motors, MotorTarget(|motors|, i, 90));
    MoveMotorMovesOne(motors, i, 90);
  }

  // ---------------------------------------------------------------------
  // The whole remap

  /** `customise_mapping` as written (src/lib/ard.py:111, `if not
      old_mappping`): the guard reads `old_mappping`, a name
      that does not exist, so every call raises a NameError before any
      prompt. */
  function CustomiseAsWritten(mapping: Option<Mapping>): (r: Result<()>)
    ensures r == Err(NameError)
  {
    Err(NameError)
  }

  /** The remap with the misspelt name, the bound and the loop variable
      corrected: refuses to run without a mapping; otherwise, when every
      motor and every cell is assigned, the motor and mass lists are
      replaced and the other components keep their channels. */
  method Customise(mgr: ArdManager, answers: seq<string>, polls: seq<seq<real>>) returns (r: Result<bool>)
    requires mgr.Valid()
    requires mgr.mapping.Some? ==> forall p :: 0 <= p < |polls| ==> |polls[p]| == |mgr.mapping.value[Mass]|
    modifies mgr
    ensures mgr.Valid()
    ensures mgr.ids == old(mgr.ids) && mgr.arduinos == old(mgr.arduinos)
    ensures old(mgr.mapping).None? ==> r == Err(Raised) && mgr.mapping.None?
    ensures r == Ok(false) ==> mgr.mapping == old(mgr.mapping)
    ensures r == Ok(true) ==>
              old(mgr.mapping).Some? && mgr.mapping.Some? &&
              var before := old(mgr.mapping).value;
              var after := mgr.mapping.value;
              after.Keys == before.Keys && Motor in before && Mass in before
              && |Pushes(polls)| >= |before[Mass]|
              && (forall c :: c in before && c != Motor && c != Mass ==> after[c] == before[c])
              && multiset(after[Motor]) == multiset(before[Motor])
              && |after[Motor]| == |before[Motor]|
              && (var p := MotorPlacement(before[Motor], answers);
                  p.done && forall i :: 0 <= i < |before[Motor]| ==>
                    p.ids[i] < |after[Motor]| && after[Motor][p.ids[i]] == before[Motor][i])
              && |after[Mass]| == |before[Mass]|
              && forall i :: 0 <= i < |before[Mass]| ==>
                   Pushes(polls)[i] < |before[Mass]| && after[Mass][i] == before[Mass][Pushes(polls)[i]]
  {
    if mgr.mapping.None? {
      return Err(Raised);
    }
    var m := mgr.mapping.value;
    assert Motor in SchemaSet(mgr.schema) && Mass in SchemaSet(mgr.schema);
    var next := RemapComponents(m, answers, polls);
    if next.None? {
      return Ok(false);
    }
    mgr.mapping := next;
    r := Ok(true);
  }

  /** The two prompt loops of the corrected remap, on values: `None` when
      the answers or the readings run out, otherwise the new mapping. */
  method RemapComponents(m: Mapping, answers: seq<string>, polls: seq<seq<real>>) returns (next: Option<Mapping>)
    requires Motor in m && Mass in m
    requires forall p :: 0 <= p < |polls| ==> |polls[p]| == |m[Mass]|
    ensures next.Some? ==>
              var after := next.value;
              after.Keys == m.Keys
              && |Pushes(polls)| >= |m[Mass]|
              && (forall c :: c in m && c != Motor && c != Mass ==> after[c] == m[c])
              && multiset(after[Motor]) == multiset(m[Motor])
              && |after[Motor]| == |m[Motor]|
              && (var p := MotorPlacement(m[Motor], answers);
                  p.done && forall i :: 0 <= i < |m[Motor]| ==>
                    p.ids[i] < |after[Motor]| && after[Motor][p.ids[i]] == m[Motor][i])
              && |after[Mass]| == |m[Mass]|
              && forall i :: 0 <= i < |m[Mass]| ==>
                   Pushes(polls)[i] < |m[Mass]| && after[Mass][i] == m[Mass][Pushes(polls)[i]]
    ensures next.Some? <==> MotorPlacement(m[Motor], answers).done && |Pushes(polls)| >= |m[Mass]|
  {
    var motorSlots, _, _, motorsDone := RemapMotors(m[Motor], answers);
    MotorPlacementSpec(m[Motor], answers);
    if !motorsDone {
      return None;
    }
    var cellSlots, _, cellsDone := RemapCells(m[Mass], polls);
    if !cellsDone {
      return None;
    }
    var newMotor := Filled(motorSlots);
    var newMass := seq(|cellSlots|, k requires 0 <= k < |cellSlots| => cellSlots[k].value);
    next := Some(m[Motor := newMotor][Mass := newMass]);
  }
}
