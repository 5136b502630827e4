/** The fleet manager (`ArdManager` in src/lib/ard.py): the devices keyed by
    id in ascending order, the component mapping that numbers every channel
    of every device, the combined reading, `MOVE` dispatch, and saving and
    loading the mapping. The schema parameter selects the five-field record
    of src/lib/ard.py or the four-field one of src/ard.py. */
module ArdFleet {
  import opened Py
  import opened ArdLink

  /** One mapped channel: a device id and the index within that device's list. */
  datatype Channel = Channel(dev: int, local: int)

  /** `ArdMapping`: for each component, the channels in their global order. */
  type Mapping = map<Component, seq<Channel>>

  /** `ArdMapping()`: every component maps no channels. */
  function EmptyMapping(schema: seq<Component>): (m: Mapping)
    ensures m.Keys == SchemaSet(schema)
    ensures forall c :: c in m ==> m[c] == []
  {
    map c | c in schema :: []
  }

  /** Ascending device id, then ascending index within the device. */
  predicate Before(a: Channel, b: Channel)
  {
    a.dev < b.dev || (a.dev == b.dev && a.local < b.local)
  }

  predicate Ordered(cs: seq<Channel>)
  {
    forall i, j :: 0 <= i < j < |cs| ==> Before(cs[i], cs[j])
  }

  /** A connected device as the manager iterates its dictionary: its id and
      the line its reader last cached. */
  datatype Link = Link(id: int, line: string)

  predicate IdsIncreasing(links: seq<Link>)
  {
    forall i, j :: 0 <= i < j < |links| ==> links[i].id < links[j].id
  }

  /** The ids of the links. */
  function IdSet(links: seq<Link>): (ids: set<int>)
    ensures forall i :: 0 <= i < |links| ==> links[i].id in ids
    decreases |links|
  {
    if links == [] then {} else IdSet(links[..|links| - 1]) + {links[|links| - 1].id}
  }

  lemma {:induction false} IdSetMembers(links: seq<Link>, d: int)
    ensures d in IdSet(links) <==> exists i :: 0 <= i < |links| && links[i].id == d
    decreases |links|
  {
    if links != [] {
      var n := |links| - 1;
      IdSetMembers(links[..n], d);
      if d in IdSet(links[..n]) {
        var i :| 0 <= i < n && links[..n][i].id == d;
        assert links[i].id == d;
      }
      if exists i :: 0 <= i < |links| && links[i].id == d {
        var i :| 0 <= i < |links| && links[i].id == d;
        if i < n {
          assert links[..n][i].id == d;
        }
      }
    }
  }

  lemma {:induction false} IdSetBelow(links: seq<Link>, bound: int)
    requires forall i :: 0 <= i < |links| ==> links[i].id < bound
    ensures forall d :: d in IdSet(links) ==> d < bound
    decreases |links|
  {
    if links != [] {
      var n := |links| - 1;
      IdSetBelow(links[..n], bound);
    }
  }

  /** The count the device with id `d` reports for component `c`. */
  function CountOf(schema: seq<Component>, links: seq<Link>, decode: string -> Option<Json>, d: int, c: Component): nat
    decreases |links|
  {
    if links == [] then 0
    else if links[|links| - 1].id == d then Count(schema, links[|links| - 1].line, decode, c)
    else CountOf(schema, links[..|links| - 1], decode, d, c)
  }

  // ---------------------------------------------------------------------
  // gen_mapping (src/lib/ard.py:92-103)

  /** The channels a device with `n` values of a component contributes. */
  function DeviceChannels(dev: int, n: nat): (r: seq<Channel>)
    ensures |r| == n && forall k :: 0 <= k < n ==> r[k] == Channel(dev, k)
  {
    seq(n, k => Channel(dev, k))
  }

  /** Extends each component of `cs` (in order) with the channels of one
      device's reading; `len` of a value that has none is a TypeError. */
  function AddComponents(cs: seq<Component>, m: Mapping, dev: int, rd: Reading): (r: Result<Mapping>)
    requires forall c :: c in cs ==> c in rd && c in m
    ensures r.Ok? ==> r.value.Keys == m.Keys
    decreases |cs|
  {
    if cs == [] then Ok(m)
    else
      var prev :- AddComponents(cs[..|cs| - 1], m, dev, rd);
      var c := cs[|cs| - 1];
      var n :- Len(rd[c]);
      Ok(prev[c := prev[c] + DeviceChannels(dev, n)])
  }

  /** What `gen_mapping` computes from the devices in dictionary order. A
      device whose line is not telemetry gives `asdict(None)`, a TypeError. */
  function AutoMap(schema: seq<Component>, links: seq<Link>, decode: string -> Option<Json>): (r: Result<Mapping>)
    ensures r.Ok? ==> r.value.Keys == SchemaSet(schema)
    decreases |links|
  {
    if links == [] then Ok(EmptyMapping(schema))
    else
      var m :- AutoMap(schema, links[..|links| - 1], decode);
      var l := links[|links| - 1];
      var parsed :- ParseTelemetry(schema, l.line, decode);
      if parsed.None? then Err(TypeError)
      else AddComponents(schema, m, l.id, parsed.value)
  }

  /** How many values of component `c` a device's line reports. */
  function ChannelCount(schema: seq<Component>, line: string, decode: string -> Option<Json>,
                        c: Component): Option<nat>
  {
    match ParseTelemetry(schema, line, decode)
    case Ok(Some(rd)) => if c in rd && Len(rd[c]).Ok? then Some(Len(rd[c]).value) else None
    case _ => None
  }

  function Count(schema: seq<Component>, line: string, decode: string -> Option<Json>, c: Component): nat
  {
    match ChannelCount(schema, line, decode, c)
    case Some(n) => n
    case None => 0
  }

  /** The reference numbering: for each device in turn, its channels
      `0 .. n-1`. */
  function Expected(schema: seq<Component>, links: seq<Link>, decode: string -> Option<Json>,
                    c: Component): seq<Channel>
    decreases |links|
  {
    if links == [] then []
    else
      var l := links[|links| - 1];
      Expected(schema, links[..|links| - 1], decode, c) + DeviceChannels(l.id, Count(schema, l.line, decode, c))
  }

  /** The sum of the per-device counts of component `c`. */
  function TotalCount(schema: seq<Component>, links: seq<Link>, decode: string -> Option<Json>, c: Component): nat
    decreases |links|
  {
    if links == [] then 0
    else TotalCount(schema, links[..|links| - 1], decode, c) + Count(schema, links[|links| - 1].line, decode, c)
  }

  lemma {:induction false} AddComponentsEffect(cs: seq<Component>, m: Mapping, dev: int, rd: Reading)
    requires Distinct(cs)
    requires forall c :: c in cs ==> c in rd && c in m
    ensures AddComponents(cs, m, dev, rd).Ok? <==> forall c :: c in cs ==> Len(rd[c]).Ok?
    ensures AddComponents(cs, m, dev, rd).Ok? ==>
              var m' := AddComponents(cs, m, dev, rd).value;
              (forall c :: c in cs ==> m'[c] == m[c] + DeviceChannels(dev, Len(rd[c]).value))
              && (forall c :: c in m && c !in cs ==> m'[c] == m[c])
    decreases |cs|
  {
    if cs != [] {
      var init := cs[..|cs| - 1];
      assert forall c :: c in init ==> c in cs;
      assert Distinct(init);
      assert cs == init + [cs[|cs| - 1]];
      assert cs[|cs| - 1] !in init;
      AddComponentsEffect(init, m, dev, rd);
    }
  }

  /** `gen_mapping` numbers each component's channels exactly as the
      reference numbering does, and every device reports a count. */
  lemma {:induction false} AutoMapIsExpected(schema: seq<Component>, links: seq<Link>, decode: string -> Option<Json>)
    requires Distinct(schema)
    requires AutoMap(schema, links, decode).Ok?
    ensures forall i, c :: 0 <= i < |links| && c in schema ==> ChannelCount(schema, links[i].line, decode, c).Some?
    ensures forall c :: c in schema ==> AutoMap(schema, links, decode).value[c] == Expected(schema, links, decode, c)
    decreases |links|
  {
    if links != [] {
      var init := links[..|links| - 1];
      var l := links[|links| - 1];
      AutoMapIsExpected(schema, init, decode);
      var m := AutoMap(schema, init, decode).value;
      var rd := ParseTelemetry(schema, l.line, decode).value.value;
      AddComponentsEffect(schema, m, l.id, rd);
      forall i, c | 0 <= i < |links| && c in schema
        ensures ChannelCount(schema, links[i].line, decode, c).Some?
      {
        if i < |links| - 1 {
          assert links[i] == init[i];
        }
      }
    }
  }

  lemma {:induction false} ExpectedLength(schema: seq<Component>, links: seq<Link>, decode: string -> Option<Json>,
                                          c: Component)
    ensures |Expected(schema, links, decode, c)| == TotalCount(schema, links, decode, c)
    decreases |links|
  {
    if links != [] {
      ExpectedLength(schema, links[..|links| - 1], decode, c);
    }
  }

  /** The reference numbering lists exactly the channels the devices have,
      once each, in ascending device id and then ascending index. */
  lemma {:induction false} ExpectedChannels(schema: seq<Component>, links: seq<Link>, decode: string -> Option<Json>,
                                            c: Component)
    requires IdsIncreasing(links)
    ensures Ordered(Expected(schema, links, decode, c))
    ensures forall ch :: ch in Expected(schema, links, decode, c) <==>
              ch.dev in IdSet(links) && 0 <= ch.local < CountOf(schema, links, decode, ch.dev, c)
    decreases |links|
  {
    if links != [] {
      var n := |links| - 1;
      var init := links[..n];
      var l := links[n];
      assert IdsIncreasing(init);
      ExpectedChannels(schema, init, decode, c);
      var prev := Expected(schema, init, decode, c);
      var mine := DeviceChannels(l.id, Count(schema, l.line, decode, c));
      IdSetBelow(init, l.id);
      assert forall ch :: ch in prev ==> ch.dev < l.id;
      forall i, j | 0 <= i < j < |prev + mine|
        ensures Before((prev + mine)[i], (prev + mine)[j])
      {
        if j >= |prev| && i < |prev| {
          assert prev[i] in prev;
        }
      }
      forall ch
        ensures ch in prev + mine <==> ch.dev in IdSet(links) && 0 <= ch.local < CountOf(schema, links, decode, ch.dev, c)
      {
        if ch.dev == l.id && 0 <= ch.local < Count(schema, l.line, decode, c) {
          assert mine[ch.local] == ch;
        }
      }
    }
  }

  /** `gen_mapping`'s numbering of component `c` has one entry per channel
      the devices report (the sum of their counts), in ascending device id
      and then ascending index. */
  lemma AutoMapOrderAndLength(schema: seq<Component>, links: seq<Link>, decode: string -> Option<Json>, c: Component)
    requires Distinct(schema) && c in schema
    requires IdsIncreasing(links)
    requires AutoMap(schema, links, decode).Ok?
    ensures forall i :: 0 <= i < |links| ==> ChannelCount(schema, links[i].line, decode, c).Some?
    ensures var m := AutoMap(schema, links, decode).value;
            Ordered(m[c]) && |m[c]| == TotalCount(schema, links, decode, c)
            && forall ch :: ch in m[c] <==> ch.dev in IdSet(links) && 0 <= ch.local < CountOf(schema, links, decode, ch.dev, c)
  {
    AutoMapIsExpected(schema, links, decode);
    ExpectedChannels(schema, links, decode, c);
    ExpectedLength(schema, links, decode, c);
  }

  /** One more device: its line decides what the mapping so far becomes. */
  lemma AutoMapStep(schema: seq<Component>, links: seq<Link>, j: nat, decode: string -> Option<Json>, m: Mapping)
    requires j < |links| && AutoMap(schema, links[..j], decode) == Ok(m)
    ensures var p := ParseTelemetry(schema, links[j].line, decode);
            AutoMap(schema, links[..j + 1], decode) ==
              if p.Err? then Err(p.error)
              else if p.value.None? then Err(TypeError)
              else AddComponents(schema, m, links[j].id, p.value.value)
  {
    assert links[..j + 1][..j] == links[..j];
  }

  lemma {:induction false} AutoMapErrPersists(schema: seq<Component>, links: seq<Link>, j: nat,
                                              decode: string -> Option<Json>)
    requires j <= |links|
    requires AutoMap(schema, links[..j], decode).Err?
    ensures AutoMap(schema, links, decode) == AutoMap(schema, links[..j], decode)
    decreases |links| - j
  {
    if j < |links| {
      assert links[..j + 1][..j] == links[..j];
      AutoMapErrPersists(schema, links, j + 1, decode);
    } else {
      assert links[..j] == links;
    }
  }

  lemma {:induction false} AddComponentsErrPersists(cs: seq<Component>, j: nat, m: Mapping, dev: int, rd: Reading)
    requires j <= |cs|
    requires forall c :: c in cs ==> c in rd && c in m
    requires AddComponents(cs[..j], m, dev, rd).Err?
    ensures AddComponents(cs, m, dev, rd) == AddComponents(cs[..j], m, dev, rd)
    decreases |cs| - j
  {
    if j < |cs| {
      assert cs[..j + 1][..j] == cs[..j];
      AddComponentsErrPersists(cs, j + 1, m, dev, rd);
    } else {
      assert cs[..j] == cs;
    }
  }

  // ---------------------------------------------------------------------
  // get_reading (src/lib/ard.py:164-175)

  /** `{dev_id: arduino.get_reading() ...}`: the first failing parse in
      dictionary order, or every device's reading (None for a line that is
      not telemetry). */
  function ReadAll(schema: seq<Component>, links: seq<Link>, decode: string -> Option<Json>)
    : (r: Result<map<int, Option<Reading>>>)
    ensures r.Ok? ==> r.value.Keys == IdSet(links)
    decreases |links|
  {
    if links == [] then Ok(map[])
    else
      var n := |links| - 1;
      var prev :- ReadAll(schema, links[..n], decode);
      var rd :- ParseTelemetry(schema, links[n].line, decode);
      Ok(prev[links[n].id := rd])
  }

  /** With distinct ids, each device's entry is the parse of its own line. */
  lemma {:induction false} ReadAllValues(schema: seq<Component>, links: seq<Link>, decode: string -> Option<Json>)
    requires IdsIncreasing(links)
    requires ReadAll(schema, links, decode).Ok?
    ensures forall i :: 0 <= i < |links| ==>
              Ok(ReadAll(schema, links, decode).value[links[i].id]) == ParseTelemetry(schema, links[i].line, decode)
  {
    forall i | 0 <= i < |links|
      ensures Ok(ReadAll(schema, links, decode).value[links[i].id]) == ParseTelemetry(schema, links[i].line, decode)
    {
      ReadAllValueAt(schema, links, decode, i);
    }
  }

  /** Device `i`'s entry is the parse of its own line. */
  lemma {:induction false} ReadAllValueAt(schema: seq<Component>, links: seq<Link>, decode: string -> Option<Json>, i: nat)
    requires IdsIncreasing(links) && i < |links|
    requires ReadAll(schema, links, decode).Ok?
    ensures Ok(ReadAll(schema, links, decode).value[links[i].id]) == ParseTelemetry(schema, links[i].line, decode)
    decreases |links|
  {
    var n := |links| - 1;
    if i < n {
      var init := links[..n];
      assert IdsIncreasing(init) && ReadAll(schema, init, decode).Ok? && init[i] == links[i] &&
             ReadAll(schema, links, decode).value[links[i].id] == ReadAll(schema, init, decode).value[links[i].id] by {
        ReadAllKeepsOthers(schema, links, decode, i);
      }
      ReadAllValueAt(schema, init, decode, i);
    } else {
      assert i == n;
      ReadAllLastValue(schema, links, decode);
    }
  }

  /** The last device's entry is the parse of its line. */
  lemma ReadAllLastValue(schema: seq<Component>, links: seq<Link>, decode: string -> Option<Json>)
    requires links != [] && ReadAll(schema, links, decode).Ok?
    ensures var n := |links| - 1;
            Ok(ReadAll(schema, links, decode).value[links[n].id]) == ParseTelemetry(schema, links[n].line, decode)
  {
    ReadAllLast(schema, links, decode);
  }

  /** Adding the last device leaves the entries of the others as they were. */
  lemma ReadAllKeepsOthers(schema: seq<Component>, links: seq<Link>, decode: string -> Option<Json>, i: nat)
    requires IdsIncreasing(links) && i < |links| - 1 && ReadAll(schema, links, decode).Ok?
    ensures var n := |links| - 1;
            IdsIncreasing(links[..n]) && links[..n][i] == links[i] &&
            ReadAll(schema, links[..n], decode).Ok? && links[i].id in ReadAll(schema, links[..n], decode).value &&
            ReadAll(schema, links, decode).value[links[i].id] == ReadAll(schema, links[..n], decode).value[links[i].id]
  {
    var n := |links| - 1;
    IdsIncreasingPrefix(links, n);
    ReadAllLast(schema, links, decode);
    assert links[i].id < links[n].id;
    IdSetMembers(links[..n], links[i].id);
    assert links[..n][i] == links[i];
  }

  lemma IdsIncreasingPrefix(links: seq<Link>, n: nat)
    requires IdsIncreasing(links) && n <= |links|
    ensures IdsIncreasing(links[..n])
  {
  }

  /** The last device's reading is added to the readings of the others. */
  lemma ReadAllLast(schema: seq<Component>, links: seq<Link>, decode: string -> Option<Json>)
    requires links != [] && ReadAll(schema, links, decode).Ok?
    ensures var n := |links| - 1;
            ReadAll(schema, links[..n], decode).Ok? && ParseTelemetry(schema, links[n].line, decode).Ok? &&
            ReadAll(schema, links, decode).value ==
              ReadAll(schema, links[..n], decode).value[links[n].id := ParseTelemetry(schema, links[n].line, decode).value]
  {
  }

  /** The values of component `c` at the channels `cs`, in order. */
  function Gather(cs: seq<Channel>, c: Component, readings: map<int, Option<Reading>>): (r: Result<seq<Json>>)
    ensures r.Ok? ==> |r.value| == |cs|
    decreases |cs|
  {
    if cs == [] then Ok([])
    else
      var prev :- Gather(cs[..|cs| - 1], c, readings);
      var v :- ChannelValue(cs[|cs| - 1], c, readings);
      Ok(prev + [v])
  }

  /** `getattr(readings[ch.dev], c)[ch.local]`: an unknown device is a
      KeyError, a device without a reading an AttributeError. */
  function ChannelValue(ch: Channel, c: Component, readings: map<int, Option<Reading>>): (r: Result<Json>)
    ensures ch.dev !in readings ==> r == Err(KeyError)
    ensures ch.dev in readings && readings[ch.dev].None? ==> r == Err(AttributeError)
  {
    if ch.dev !in readings then Err(KeyError)
    else if readings[ch.dev].None? || c !in readings[ch.dev].value then Err(AttributeError)
    else Index(readings[ch.dev].value[c], ch.local)
  }

  /** Fills the components `cs` of `base` from the mapping. */
  function Combine(cs: seq<Component>, m: Mapping, readings: map<int, Option<Reading>>, base: Reading)
    : (r: Result<Reading>)
    requires forall c :: c in cs ==> c in m
    ensures r.Ok? ==> r.value.Keys == base.Keys + SchemaSet(cs)
    decreases |cs|
  {
    if cs == [] then Ok(base)
    else
      var prev :- Combine(cs[..|cs| - 1], m, readings, base);
      var c := cs[|cs| - 1];
      var vs :- Gather(m[c], c, readings);
      Ok(prev[c := JList(vs)])
  }

  /** What `ArdManager.get_reading` returns: all device readings are taken
      first, then each component is gathered in mapping order. Without a
      mapping, `asdict(None)` is a TypeError. */
  function CombinedReading(schema: seq<Component>, links: seq<Link>, mapping: Option<Mapping>,
                           decode: string -> Option<Json>): (r: Result<Reading>)
    requires mapping.Some? ==> mapping.value.Keys == SchemaSet(schema)
    ensures r.Ok? ==> r.value.Keys == SchemaSet(schema)
  {
    var readings :- ReadAll(schema, links, decode);
    if mapping.None? then Err(TypeError)
    else Combine(schema, mapping.value, readings, EmptyReading(schema))
  }

  /** A successful gather has one value per channel: the value at the
      channel's index in its device's reading. */
  lemma {:induction false} GatherValues(cs: seq<Channel>, c: Component, readings: map<int, Option<Reading>>)
    requires Gather(cs, c, readings).Ok?
    ensures var vs := Gather(cs, c, readings).value;
            forall k :: 0 <= k < |cs| ==>
              cs[k].dev in readings && readings[cs[k].dev].Some? && c in readings[cs[k].dev].value
              && Index(readings[cs[k].dev].value[c], cs[k].local) == Ok(vs[k])
    decreases |cs|
  {
    if cs != [] {
      GatherValues(cs[..|cs| - 1], c, readings);
    }
  }

  /** A channel on a device that gave no reading makes the gather fail:
      no channel is silently dropped. */
  lemma {:induction false} GatherUnknownDevice(cs: seq<Channel>, c: Component, readings: map<int, Option<Reading>>, k: nat)
    requires k < |cs| && cs[k].dev !in readings
    ensures Gather(cs, c, readings).Err?
    decreases |cs|
  {
    if k < |cs| - 1 {
      assert cs[..|cs| - 1][k] == cs[k];
      GatherUnknownDevice(cs[..|cs| - 1], c, readings, k);
    }
  }

  lemma {:induction false} CombineValues(cs: seq<Component>, m: Mapping, readings: map<int, Option<Reading>>,
                                         base: Reading)
    requires forall c :: c in cs ==> c in m
    requires Combine(cs, m, readings, base).Ok?
    ensures forall c :: c in cs ==>
              Gather(m[c], c, readings).Ok? && Combine(cs, m, readings, base).value[c] == JList(Gather(m[c], c, readings).value)
    decreases |cs|
  {
    if cs != [] {
      var init := cs[..|cs| - 1];
      var last := cs[|cs| - 1];
      assert cs == init + [last];
      assert forall c :: c in init ==> c in cs;
      var prev := Combine(init, m, readings, base);
      var vs := Gather(m[last], last, readings);
      assert prev.Ok? && vs.Ok?;
      assert Combine(cs, m, readings, base).value == prev.value[last := JList(vs.value)];
      CombineValues(init, m, readings, base);
      forall c | c in cs
        ensures Gather(m[c], c, readings).Ok? && Combine(cs, m, readings, base).value[c] == JList(Gather(m[c], c, readings).value)
      {
        if c != last {
          assert c in init;
        }
      }
    }
  }

  lemma {:induction false} CombineFails(cs: seq<Component>, m: Mapping, readings: map<int, Option<Reading>>,
                                        base: Reading, c: Component)
    requires forall x :: x in cs ==> x in m
    requires c in cs && Gather(m[c], c, readings).Err?
    ensures Combine(cs, m, readings, base).Err?
    decreases |cs|
  {
    if cs[|cs| - 1] != c {
      var init := cs[..|cs| - 1];
      assert cs == init + [cs[|cs| - 1]];
      CombineFails(init, m, readings, base, c);
    }
  }

  /** The combined reading has, for every component, one entry per mapped
      channel, and entry `k` is channel `k`'s device reading at channel
      `k`'s index. */
  lemma CombinedReadingEntries(schema: seq<Component>, links: seq<Link>, mapping: Mapping,
                               decode: string -> Option<Json>, c: Component, k: nat)
    requires Distinct(schema) && c in schema
    requires IdsIncreasing(links)
    requires mapping.Keys == SchemaSet(schema)
    requires CombinedReading(schema, links, Some(mapping), decode).Ok?
    requires k < |mapping[c]|
    ensures var out := CombinedReading(schema, links, Some(mapping), decode).value;
            var ch := mapping[c][k];
            out[c].JList? && |out[c].items| == |mapping[c]|
            && exists i, rd :: 0 <= i < |links| && links[i].id == ch.dev
                               && ParseTelemetry(schema, links[i].line, decode) == Ok(Some(rd))
                               && c in rd && Index(rd[c], ch.local) == Ok(out[c].items[k])
  {
    var readings := ReadAll(schema, links, decode).value;
    CombineValues(schema, mapping, readings, EmptyReading(schema));
    GatherValues(mapping[c], c, readings);
    ReadAllValues(schema, links, decode);
    var ch := mapping[c][k];
    IdSetMembers(links, ch.dev);
    var i :| 0 <= i < |links| && links[i].id == ch.dev;
    var rd := readings[ch.dev].value;
    assert ParseTelemetry(schema, links[i].line, decode) == Ok(Some(rd));
  }

  /** A mapped channel on a device that is not connected makes
      `get_reading` fail rather than skip the channel. */
  lemma CombinedReadingUnknownDevice(schema: seq<Component>, links: seq<Link>, mapping: Mapping,
                                     decode: string -> Option<Json>, c: Component, k: nat)
    requires c in schema
    requires mapping.Keys == SchemaSet(schema)
    requires k < |mapping[c]| && mapping[c][k].dev !in IdSet(links)
    ensures CombinedReading(schema, links, Some(mapping), decode).Err?
  {
    var r := ReadAll(schema, links, decode);
    if r.Ok? {
      GatherUnknownDevice(mapping[c], c, r.value, k);
      CombineFails(schema, mapping, r.value, EmptyReading(schema), c);
    }
  }

  lemma {:induction false} GatherErrPersists(cs: seq<Channel>, j: nat, c: Component, readings: map<int, Option<Reading>>)
    requires j <= |cs| && Gather(cs[..j], c, readings).Err?
    ensures Gather(cs, c, readings) == Gather(cs[..j], c, readings)
    decreases |cs| - j
  {
    if j < |cs| {
      assert cs[..j + 1][..j] == cs[..j];
      GatherErrPersists(cs, j + 1, c, readings);
    } else {
      assert cs[..j] == cs;
    }
  }

  lemma {:induction false} CombineErrPersists(cs: seq<Component>, j: nat, m: Mapping,
                                              readings: map<int, Option<Reading>>, base: Reading)
    requires j <= |cs|
    requires forall c :: c in cs ==> c in m
    requires Combine(cs[..j], m, readings, base).Err?
    ensures Combine(cs, m, readings, base) == Combine(cs[..j], m, readings, base)
    decreases |cs| - j
  {
    if j < |cs| {
      assert cs[..j + 1][..j] == cs[..j];
      CombineErrPersists(cs, j + 1, m, readings, base);
    } else {
      assert cs[..j] == cs;
    }
  }

  lemma {:induction false} ReadAllErrPersists(schema: seq<Component>, links: seq<Link>, j: nat,
                                              decode: string -> Option<Json>)
    requires j <= |links|
    requires ReadAll(schema, links[..j], decode).Err?
    ensures ReadAll(schema, links, decode) == ReadAll(schema, links[..j], decode)
    decreases |links| - j
  {
    if j < |links| {
      assert links[..j + 1][..j] == links[..j];
      ReadAllErrPersists(schema, links, j + 1, decode);
    } else {
      assert links[..j] == links;
    }
  }

  // ---------------------------------------------------------------------
  // move / move_motor (src/lib/ard.py:190-225)

  /** A `move` target: one step count for every motor, or one per motor. */
  datatype Target = Broadcast(steps: int) | PerMotor(list: seq<int>)

  /** A call of `Arduino.move` on device `dev`: it writes
      `MoveMessage(steps)` to that device. */
  datatype Command = Command(dev: int, steps: seq<int>)

  /** The commands sent, and how the call ended. */
  datatype Sends = Sends(sent: seq<Command>, result: Result<()>)

  /** The per-motor step counts for `n` motors. */
  function Targets(t: Target, n: nat): (r: Result<seq<int>>)
    ensures r.Ok? ==> |r.value| == n
    ensures t.Broadcast? ==> r.Ok? && forall i :: 0 <= i < n ==> r.value[i] == t.steps
    ensures t.PerMotor? ==> (r.Ok? <==> |t.list| == n) && (r.Ok? ==> r.value == t.list)
    ensures r.Err? ==> r.error == Raised
  {
    match t
    case Broadcast(s) => Ok(seq(n, _ => s))
    case PerMotor(s) => if |s| != n then Err(Raised) else Ok(s)
  }

  /** `target_by_dev`: the devices in order of first appearance, each
      device's local ids in order of first appearance, and the step count
      each local id was last given. */
  datatype Grouping = Grouping(order: seq<int>, locals: map<int, seq<int>>, steps: map<int, map<int, int>>)

  ghost predicate WellGrouped(g: Grouping)
  {
    Distinct(g.order)
    && (forall d :: d in g.order <==> d in g.steps)
    && (forall d :: d in g.steps ==> DeviceWellGrouped(g, d))
  }

  /** Device `d`'s local ids are listed once each, and are exactly the ids
      that have a step count. */
  ghost predicate DeviceWellGrouped(g: Grouping, d: int)
  {
    d in g.locals && d in g.steps && Distinct(g.locals[d])
    && forall l :: l in g.locals[d] <==> l in g.steps[d]
  }

  function Group(cs: seq<Channel>, vs: seq<int>): (g: Grouping)
    requires |cs| == |vs|
    decreases |cs|
  {
    if cs == [] then Grouping([], map[], map[])
    else
      var g := Group(cs[..|cs| - 1], vs[..|vs| - 1]);
      var ch := cs[|cs| - 1];
      var v := vs[|vs| - 1];
      if ch.dev in g.steps && ch.dev in g.locals then
        var ls := if ch.local in g.steps[ch.dev] then g.locals[ch.dev] else g.locals[ch.dev] + [ch.local];
        Grouping(g.order, g.locals[ch.dev := ls], g.steps[ch.dev := g.steps[ch.dev][ch.local := v]])
      else
        Grouping(g.order + [ch.dev], g.locals[ch.dev := [ch.local]], g.steps[ch.dev := map[ch.local := v]])
  }

  lemma {:induction false} GroupWellFormed(cs: seq<Channel>, vs: seq<int>)
    requires |cs| == |vs|
    ensures WellGrouped(Group(cs, vs))
    decreases |cs|
  {
    if cs != [] {
      var g := Group(cs[..|cs| - 1], vs[..|vs| - 1]);
      GroupWellFormed(cs[..|cs| - 1], vs[..|vs| - 1]);
      var ch := cs[|cs| - 1];
      var v := vs[|vs| - 1];
      var r := Group(cs, vs);
      if ch.dev in g.steps && ch.dev in g.locals {
        assert r.order == g.order && r.locals.Keys == g.locals.Keys && r.steps.Keys == g.steps.Keys;
        if ch.local !in g.steps[ch.dev] {
          DistinctAppend(g.locals[ch.dev], ch.local);
        }
        assert DeviceWellGrouped(r, ch.dev);
        forall d | d in r.steps && d != ch.dev
          ensures DeviceWellGrouped(r, d)
        {
          assert r.locals[d] == g.locals[d] && r.steps[d] == g.steps[d];
        }
      } else {
        assert ch.dev !in g.order;
        DistinctAppend(g.order, ch.dev);
        assert DeviceWellGrouped(r, ch.dev);
        forall d | d in r.steps && d != ch.dev
          ensures DeviceWellGrouped(r, d)
        {
          assert r.locals[d] == g.locals[d] && r.steps[d] == g.steps[d];
        }
      }
    }
  }

  /** The step counts sent to device `d`: its values sorted by local id. */
  function DeviceSteps(g: Grouping, d: int): (r: seq<int>)
    requires DeviceWellGrouped(g, d)
    ensures |r| == |g.locals[d]|
  {
    var ls := SortInts(g.locals[d]);
    assert forall k :: 0 <= k < |ls| ==> ls[k] in g.steps[d] by {
      SortIntsMembers(g.locals[d]);
      forall k | 0 <= k < |ls|
        ensures ls[k] in g.steps[d]
      {
        var l := ls[k];
        assert l in g.locals[d];
      }
    }
    seq(|ls|, k requires 0 <= k < |ls| => g.steps[d][ls[k]])
  }

  /** The `MOVE` command device `d` is sent. */
  function MoveCommand(g: Grouping, d: int): Command
    requires DeviceWellGrouped(g, d)
  {
    Command(d, DeviceSteps(g, d))
  }

  /** The `MOVE` commands of the devices of `order`, in that order. */
  function Commands(g: Grouping, order: seq<int>): (cs: seq<Command>)
    requires forall i :: 0 <= i < |order| ==> DeviceWellGrouped(g, order[i])
    ensures |cs| == |order|
    ensures forall i :: 0 <= i < |order| ==> cs[i] == MoveCommand(g, order[i])
  {
    seq(|order|, i requires 0 <= i < |order| => MoveCommand(g, order[i]))
  }

  /** Sends the commands in turn; a command for a device that is not
      connected is a KeyError, after the earlier sends. */
  function Dispatch(cmds: seq<Command>, present: set<int>): (s: Sends)
    decreases |cmds|
  {
    if cmds == [] then Sends([], Ok(()))
    else
      var p := Dispatch(cmds[..|cmds| - 1], present);
      var c := cmds[|cmds| - 1];
      if p.result.Err? then p
      else if c.dev !in present then Sends(p.sent, Err(KeyError))
      else Sends(p.sent + [c], Ok(()))
  }

  /** What `ArdManager.move` sends and how it ends, given the mapping and
      the connected device ids. */
  function ExpectedMove(mapping: Option<Mapping>, present: set<int>, t: Target): Sends
  {
    if mapping.None? || Motor !in mapping.value then Sends([], Err(AttributeError))
    else
      var cs := mapping.value[Motor];
      match Targets(t, |cs|)
      case Err(e) => Sends([], Err(e))
      case Ok(vs) =>
        var g := Group(cs, vs);
        GroupWellFormed(cs, vs);
        OrderWellGrouped(g);
        Dispatch(Commands(g, g.order), present)
  }

  /** Broadcast reaches every motor, and a list of the wrong length raises
      before anything is sent. */
  lemma MoveTargets(m: Mapping, present: set<int>, t: Target)
    requires Motor in m
    ensures t.PerMotor? && |t.list| != |m[Motor]| ==> ExpectedMove(Some(m), present, t) == Sends([], Err(Raised))
    ensures t.Broadcast? ==>
              ExpectedMove(Some(m), present, t) == ExpectedMove(Some(m), present, PerMotor(seq(|m[Motor]|, _ => t.steps)))
  {
  }

  /** The devices of the grouping are exactly those of the channels. */
  lemma {:induction false} GroupOrderCovers(cs: seq<Channel>, vs: seq<int>)
    requires |cs| == |vs|
    ensures forall d :: d in Group(cs, vs).order <==> exists ch: Channel :: ch in cs && ch.dev == d
    decreases |cs|
  {
    if cs != [] {
      var n := |cs| - 1;
      GroupOrderCovers(cs[..n], vs[..n]);
      GroupWellFormed(cs[..n], vs[..n]);
      assert cs == cs[..n] + [cs[n]];
      forall d
        ensures d in Group(cs, vs).order <==> exists ch: Channel :: ch in cs && ch.dev == d
      {
        if d == cs[n].dev {
          assert cs[n] in cs;
        }
      }
    }
  }

  /** A device's step counts are keyed by exactly the local ids the
      channels give it. */
  lemma {:induction false} GroupStepsCover(cs: seq<Channel>, vs: seq<int>)
    requires |cs| == |vs|
    ensures var g := Group(cs, vs);
            forall ch: Channel :: ch.dev in g.steps && ch.local in g.steps[ch.dev] <==> ch in cs
    decreases |cs|
  {
    if cs != [] {
      var n := |cs| - 1;
      GroupStepsCover(cs[..n], vs[..n]);
      GroupWellFormed(cs[..n], vs[..n]);
      var g0 := Group(cs[..n], vs[..n]);
      if cs[n].dev in g0.steps {
        assert DeviceWellGrouped(g0, cs[n].dev);
      }
      assert cs == cs[..n] + [cs[n]];
    }
  }

  /** Each channel receives the value given at its last position in the
      target list (the value given once, when channels are distinct). */
  lemma {:induction false} GroupLastWriteWins(cs: seq<Channel>, vs: seq<int>, k: nat)
    requires |cs| == |vs| && k < |cs|
    requires forall j :: k < j < |cs| ==> cs[j] != cs[k]
    ensures var g := Group(cs, vs);
            cs[k].dev in g.steps && cs[k].local in g.steps[cs[k].dev]
            && g.steps[cs[k].dev][cs[k].local] == vs[k]
    decreases |cs|
  {
    var n := |cs| - 1;
    if k < n {
      assert forall j :: k < j < n ==> cs[..n][j] == cs[j];
      GroupLastWriteWins(cs[..n], vs[..n], k);
      GroupWellFormed(cs[..n], vs[..n]);
      var g0 := Group(cs[..n], vs[..n]);
      var g := Group(cs, vs);
      var ch := cs[n];
      var d := cs[k].dev;
      assert cs[..n][k] == cs[k] && vs[..n][k] == vs[k];
      if ch.dev in g0.steps {
        assert DeviceWellGrouped(g0, ch.dev);
        if ch.dev == d {
          assert ch.local != cs[k].local;
          assert g.steps[d] == g0.steps[d][ch.local := vs[n]];
        } else {
          assert g.steps[d] == g0.steps[d];
        }
      } else {
        assert ch.dev != d;
        assert g.steps[d] == g0.steps[d];
      }
    }
  }

  /** Device `d`'s command lists its step counts by strictly ascending local id. */
  lemma DeviceStepsAscending(g: Grouping, d: int)
    requires DeviceWellGrouped(g, d)
    ensures var ls := SortInts(g.locals[d]);
            StrictlyIncreasing(ls) && |ls| == |DeviceSteps(g, d)|
            && (forall l :: l in ls <==> l in g.steps[d])
            && forall k :: 0 <= k < |ls| ==> ls[k] in g.steps[d] && DeviceSteps(g, d)[k] == g.steps[d][ls[k]]
  {
    var ls := SortInts(g.locals[d]);
    SortIntsMembers(g.locals[d]);
    SortIntsSorted(g.locals[d]);
  }

  /** With every device connected, every command is sent, in order. */
  lemma {:induction false} DispatchAllPresent(cmds: seq<Command>, present: set<int>)
    requires forall i :: 0 <= i < |cmds| ==> cmds[i].dev in present
    ensures Dispatch(cmds, present) == Sends(cmds, Ok(()))
    decreases |cmds|
  {
    if cmds != [] {
      var n := |cmds| - 1;
      var init := cmds[..n];
      assert init + [cmds[n]] == cmds;
      assert forall i :: 0 <= i < |init| ==> init[i].dev in present;
      DispatchAllPresent(init, present);
      assert cmds[n].dev in present;
    }
  }

  /** The first command for a device that is not connected stops the
      dispatch with a KeyError; the commands before it have been sent. */
  lemma {:induction false} DispatchStopsAtMissing(cmds: seq<Command>, present: set<int>, i: nat)
    requires i < |cmds| && cmds[i].dev !in present
    requires forall j :: 0 <= j < i ==> cmds[j].dev in present
    ensures Dispatch(cmds, present) == Sends(cmds[..i], Err(KeyError))
    decreases |cmds|
  {
    var n := |cmds| - 1;
    var init := cmds[..n];
    if i < n {
      assert init[..i] == cmds[..i] && init[i] == cmds[i];
      DispatchStopsAtMissing(init, present, i);
      assert Dispatch(init, present).result.Err?;
    } else {
      assert init == cmds[..i];
      DispatchAllPresent(init, present);
      assert Dispatch(init, present).result.Ok? && cmds[n].dev !in present;
    }
  }

  lemma {:induction false} DispatchErrPersists(cmds: seq<Command>, j: nat, present: set<int>)
    requires j <= |cmds| && Dispatch(cmds[..j], present).result.Err?
    ensures Dispatch(cmds, present) == Dispatch(cmds[..j], present)
    decreases |cmds| - j
  {
    if j < |cmds| {
      assert cmds[..j + 1][..j] == cmds[..j];
      DispatchErrPersists(cmds, j + 1, present);
    } else {
      assert cmds[..j] == cmds;
    }
  }

  /** One step of the dispatch: after the first `j` commands went out, the
      next one is sent, or its device is missing and the dispatch ends. */
  lemma DispatchStep(cmds: seq<Command>, j: nat, present: set<int>, sent: seq<Command>)
    requires j < |cmds| && Dispatch(cmds[..j], present) == Sends(sent, Ok(()))
    ensures cmds[j].dev in present ==> Dispatch(cmds[..j + 1], present) == Sends(sent + [cmds[j]], Ok(()))
    ensures cmds[j].dev !in present ==> Dispatch(cmds, present) == Sends(sent, Err(KeyError))
  {
    assert cmds[..j + 1][..j] == cmds[..j];
    if cmds[j].dev !in present {
      DispatchErrPersists(cmds, j + 1, present);
    }
  }

  /** Motors 0 and 2 on device 1 and motor 1 on device 2: the list
      `[10, 20, 30]` sends `MOVE 10 30` to device 1, then `MOVE 20` to device 2. */
  lemma MoveExample()
    ensures ExpectedMove(Some(map[Motor := [Channel(1, 0), Channel(2, 0), Channel(1, 1)]]), {1, 2},
                         PerMotor([10, 20, 30]))
         == Sends([Command(1, [10, 30]), Command(2, [20])], Ok(()))
  {
    var cs := [Channel(1, 0), Channel(2, 0), Channel(1, 1)];
    var vs := [10, 20, 30];
    var g := Grouping([1, 2], map[1 := [0, 1], 2 := [0]], map[1 := map[0 := 10, 1 := 30], 2 := map[0 := 20]]);
    var m := map[Motor := cs];
    assert m[Motor] == cs && Targets(PerMotor(vs), |cs|) == Ok(vs);
    GroupExample();
    DispatchExample(g);
    assert ExpectedMove(Some(m), {1, 2}, PerMotor(vs)) == Dispatch(Commands(g, g.order), {1, 2});
  }

  /** The dispatch of the example above. */
  lemma DispatchExample(g: Grouping)
    requires g == Grouping([1, 2], map[1 := [0, 1], 2 := [0]], map[1 := map[0 := 10, 1 := 30], 2 := map[0 := 20]])
    ensures DeviceWellGrouped(g, 1) && DeviceWellGrouped(g, 2)
    ensures Dispatch(Commands(g, [1, 2]), {1, 2}) == Sends([Command(1, [10, 30]), Command(2, [20])], Ok(()))
  {
    ExampleWellGrouped(g);
    ExampleSteps(g);
    var cmds := [Command(1, [10, 30]), Command(2, [20])];
    assert Commands(g, [1, 2]) == cmds;
    DispatchAllPresent(cmds, {1, 2});
  }

  lemma ExampleWellGrouped(g: Grouping)
    requires g == Grouping([1, 2], map[1 := [0, 1], 2 := [0]], map[1 := map[0 := 10, 1 := 30], 2 := map[0 := 20]])
    ensures DeviceWellGrouped(g, 1) && DeviceWellGrouped(g, 2)
  {
    assert g.locals[1] == [0, 1] && g.steps[1] == map[0 := 10, 1 := 30];
    assert g.locals[2] == [0] && g.steps[2] == map[0 := 20];
  }

  lemma ExampleSteps(g: Grouping)
    requires g == Grouping([1, 2], map[1 := [0, 1], 2 := [0]], map[1 := map[0 := 10, 1 := 30], 2 := map[0 := 20]])
    ensures DeviceWellGrouped(g, 1) && DeviceWellGrouped(g, 2)
    ensures DeviceSteps(g, 1) == [10, 30] && DeviceSteps(g, 2) == [20]
  {
    ExampleWellGrouped(g);
    assert SortInts([0]) == [0] by {
      assert [0][..0] == [];
    }
    assert SortInts([0, 1]) == [0, 1] by {
      assert [0, 1][..1] == [0];
      assert Insert(1, [0]) == [0, 1] by { assert [0][1..] == []; }
    }
    assert DeviceSteps(g, 1)[0] == 10 && DeviceSteps(g, 1)[1] == 30;
    assert DeviceSteps(g, 2)[0] == 20;
  }

  /** The grouping of the example above. */
  lemma GroupExample()
    ensures Group([Channel(1, 0), Channel(2, 0), Channel(1, 1)], [10, 20, 30])
         == Grouping([1, 2], map[1 := [0, 1], 2 := [0]], map[1 := map[0 := 10, 1 := 30], 2 := map[0 := 20]])
  {
    var cs := [Channel(1, 0), Channel(2, 0), Channel(1, 1)];
    var vs := [10, 20, 30];
    var g2 := Grouping([1, 2], map[1 := [0], 2 := [0]], map[1 := map[0 := 10], 2 := map[0 := 20]]);
    assert cs[..2] == [Channel(1, 0), Channel(2, 0)] && vs[..2] == [10, 20];
    GroupExampleTwo();
    assert Group(cs, vs) == Grouping([1, 2], g2.locals[1 := [0] + [1]], g2.steps[1 := map[0 := 10][1 := 30]]);
    assert [0] + [1] == [0, 1];
    assert g2.locals[1 := [0] + [1]] == map[1 := [0, 1], 2 := [0]];
    assert g2.steps[1 := map[0 := 10][1 := 30]] == map[1 := map[0 := 10, 1 := 30], 2 := map[0 := 20]];
  }

  lemma GroupExampleTwo()
    ensures Group([Channel(1, 0), Channel(2, 0)], [10, 20])
         == Grouping([1, 2], map[1 := [0], 2 := [0]], map[1 := map[0 := 10], 2 := map[0 := 20]])
  {
    var cs := [Channel(1, 0), Channel(2, 0)];
    var vs := [10, 20];
    assert cs[..1] == [Channel(1, 0)] && vs[..1] == [10];
    assert Group([Channel(1, 0)], [10]) == Grouping([1], map[1 := [0]], map[1 := map[0 := 10]]) by {
      assert [Channel(1, 0)][..0] == [] && [10][..0] == [];
    }
  }

  /** `move_motor`'s target: zero for every motor but `motor`. */
  function MotorTarget(n: nat, motor: int, steps: int): (r: seq<int>)
    ensures |r| == n && forall i :: 0 <= i < n ==> r[i] == (if i == motor then steps else 0)
  {
    seq(n, i => if i == motor then steps else 0)
  }

  /** With distinct channels, `move_motor` gives `steps` to the chosen motor's
      channel and 0 to every other mapped channel. */
  lemma MoveMotorMovesOne(cs: seq<Channel>, motor: nat, steps: int)
    requires Distinct(cs) && motor < |cs|
    ensures var g := Group(cs, MotorTarget(|cs|, motor, steps));
            forall d, l :: d in g.steps && l in g.steps[d] ==>
              g.steps[d][l] == (if Channel(d, l) == cs[motor] then steps else 0)
  {
    var vs := MotorTarget(|cs|, motor, steps);
    var g := Group(cs, vs);
    GroupStepsCover(cs, vs);
    forall d, l | d in g.steps && l in g.steps[d]
      ensures g.steps[d][l] == (if Channel(d, l) == cs[motor] then steps else 0)
    {
      assert Channel(d, l) in cs;
      var k :| 0 <= k < |cs| && cs[k] == Channel(d, l);
      GroupLastWriteWins(cs, vs, k);
    }
  }

  // ---------------------------------------------------------------------
  // Saving and loading the mapping (src/lib/ard.py:49-65)

  /** A saved mapping: component name to channel list. */
  type MappingFile = map<string, seq<Channel>>

  /** The files on disk, by name. */
  type Disk = map<string, MappingFile>

  /** `asdict` of a mapping: each field under its name. */
  function MappingFields(m: Mapping): (f: MappingFile)
    ensures forall c :: c in m ==> Name(c) in f && f[Name(c)] == m[c]
    ensures forall c :: c !in m ==> Name(c) !in f
  {
    var f := map c | c in m :: Name(c) := m[c];
    assert forall c :: c in m ==> Name(c) in f && f[Name(c)] == m[c] by {
      forall c | c in m
        ensures Name(c) in f && f[Name(c)] == m[c]
      {
        forall c' | c' in m
          ensures Name(c') == Name(c) ==> c' == c
        {
          NameInjective(c', c);
        }
      }
    }
    assert forall c :: c !in m ==> Name(c) !in f by {
      forall c, c' | c !in m && c' in m
        ensures Name(c') != Name(c)
      {
        NameInjective(c', c);
      }
    }
    f
  }

  /** `ArdMapping.dump`: refuses an existing file, otherwise writes every field. */
  function DumpMapping(m: Mapping, disk: Disk, name: string): (r: Result<Disk>)
    ensures r.Err? <==> name in disk
    ensures r.Err? ==> r.error == IOError
    ensures r.Ok? ==> r.value.Keys == disk.Keys + {name}
    ensures r.Ok? ==> forall other :: other in disk ==> r.value[other] == disk[other]
    ensures r.Ok? ==> r.value[name] == MappingFields(m)
  {
    if name in disk then Err(IOError)
    else
      Ok(disk[name := MappingFields(m)])
  }

  /** `ArdMapping.load`: refuses a missing file; keys naming a field replace
      it, other keys are ignored. */
  function LoadMapping(m: Mapping, disk: Disk, name: string): (r: Result<Mapping>)
    ensures r.Err? <==> name !in disk
    ensures r.Err? ==> r.error == IOError
    ensures r.Ok? ==> r.value.Keys == m.Keys
    ensures r.Ok? ==> forall c :: c in m && Name(c) !in disk[name] ==> r.value[c] == m[c]
    ensures r.Ok? ==> forall c :: c in m && Name(c) in disk[name] ==> r.value[c] == disk[name][Name(c)]
  {
    if name !in disk then Err(IOError)
    else
      var f := disk[name];
      Ok(map c | c in m :: if Name(c) in f then f[Name(c)] else m[c])
  }

  /** Loading what was dumped restores the mapping, whatever the fields
      held before. */
  lemma MappingRoundTrip(m: Mapping, before: Mapping, disk: Disk, name: string)
    requires name !in disk
    requires before.Keys == m.Keys
    ensures DumpMapping(m, disk, name).Ok?
    ensures LoadMapping(before, DumpMapping(m, disk, name).value, name) == Ok(m)
  {
    var d := DumpMapping(m, disk, name).value;
    var r := LoadMapping(before, d, name).value;
    assert r.Keys == m.Keys;
    assert forall c :: c in m ==> r[c] == m[c];
    assert r == m;
  }

  /** The inner loop of `get_reading`: appends each channel's value. */
  method GatherChannels(cs: seq<Channel>, c: Component, readings: map<int, Option<Reading>>)
    returns (r: Result<seq<Json>>)
    ensures r == Gather(cs, c, readings)
  {
    var vs: seq<Json> := [];
    for k := 0 to |cs|
      invariant Gather(cs[..k], c, readings) == Ok(vs)
    {
      var ch := cs[k];
      assert cs[..k + 1][..k] == cs[..k] && cs[..k + 1][k] == ch;
      var v := ChannelValue(ch, c, readings);
      if v.Err? {
        assert Gather(cs[..k + 1], c, readings) == Err(v.error);
        GatherErrPersists(cs, k + 1, c, readings);
        return Err(v.error);
      }
      assert Gather(cs[..k + 1], c, readings) == Ok(vs + [v.value]);
      vs := vs + [v.value];
    }
    assert cs[..|cs|] == cs;
    r := Ok(vs);
  }

  /** The inner loop of `gen_mapping`: numbers one device's channels. */
  method AddDevice(schema: seq<Component>, m0: Mapping, dev: int, rd: Reading) returns (r: Result<Mapping>)
    requires forall c :: c in schema ==> c in rd && c in m0
    ensures r == AddComponents(schema, m0, dev, rd)
  {
    var m := m0;
    for c := 0 to |schema|
      invariant AddComponents(schema[..c], m0, dev, rd) == Ok(m)
    {
      assert schema[..c + 1][..c] == schema[..c] && schema[..c + 1][c] == schema[c];
      var n := Len(rd[schema[c]]);
      if n.Err? {
        assert AddComponents(schema[..c + 1], m0, dev, rd) == Err(n.error);
        AddComponentsErrPersists(schema, c + 1, m0, dev, rd);
        return Err(n.error);
      }
      assert AddComponents(schema[..c + 1], m0, dev, rd) == Ok(m[schema[c] := m[schema[c]] + DeviceChannels(dev, n.value)]);
      m := m[schema[c] := m[schema[c]] + DeviceChannels(dev, n.value)];
    }
    assert schema[..|schema|] == schema;
    r := Ok(m);
  }

  /** The outer loop of `gen_mapping`: the devices in dictionary order. */
  method AutoMapLinks(schema: seq<Component>, links: seq<Link>, decode: string -> Option<Json>)
    returns (r: Result<Mapping>)
    ensures r == AutoMap(schema, links, decode)
  {
    var m := EmptyMapping(schema);
    for j := 0 to |links|
      invariant AutoMap(schema, links[..j], decode) == Ok(m)
    {
      var parsed := ParseTelemetry(schema, links[j].line, decode);
      AutoMapStep(schema, links, j, decode, m);
      if parsed.Err? || parsed.value.None? {
        AutoMapErrPersists(schema, links, j + 1, decode);
        return if parsed.Err? then Err(parsed.error) else Err(TypeError);
      }
      var next := AddDevice(schema, m, links[j].id, parsed.value.value);
      if next.Err? {
        AutoMapErrPersists(schema, links, j + 1, decode);
        return next;
      }
      m := next.value;
    }
    assert links[..|links|] == links;
    r := Ok(m);
  }

  /** The dictionary comprehension of `get_reading`: every device's reading. */
  method ReadLinks(schema: seq<Component>, links: seq<Link>, decode: string -> Option<Json>)
    returns (r: Result<map<int, Option<Reading>>>)
    ensures r == ReadAll(schema, links, decode)
  {
    var readings: map<int, Option<Reading>> := map[];
    for j := 0 to |links|
      invariant ReadAll(schema, links[..j], decode) == Ok(readings)
    {
      assert links[..j + 1][..j] == links[..j];
      var p := ParseTelemetry(schema, links[j].line, decode);
      if p.Err? {
        ReadAllErrPersists(schema, links, j + 1, decode);
        return Err(p.error);
      }
      readings := readings[links[j].id := p.value];
    }
    assert links[..|links|] == links;
    r := Ok(readings);
  }

  /** The component loop of `get_reading`. */
  method CombineFields(schema: seq<Component>, m: Mapping, readings: map<int, Option<Reading>>)
    returns (r: Result<Reading>)
    requires forall c :: c in schema ==> c in m
    ensures r == Combine(schema, m, readings, EmptyReading(schema))
  {
    var out := EmptyReading(schema);
    for c := 0 to |schema|
      invariant Combine(schema[..c], m, readings, EmptyReading(schema)) == Ok(out)
    {
      assert schema[..c + 1][..c] == schema[..c];
      var vs := GatherChannels(m[schema[c]], schema[c], readings);
      if vs.Err? {
        CombineErrPersists(schema, c + 1, m, readings, EmptyReading(schema));
        return Err(vs.error);
      }
      out := out[schema[c] := JList(vs.value)];
    }
    assert schema[..|schema|] == schema;
    r := Ok(out);
  }

  /** The first loop of `move`: builds `target_by_dev`. */
  method GroupTargets(cs: seq<Channel>, target: seq<int>) returns (g: Grouping)
    requires |cs| == |target|
    ensures g == Group(cs, target)
  {
    var order: seq<int> := [];
    var locals: map<int, seq<int>> := map[];
    var steps: map<int, map<int, int>> := map[];
    for i := 0 to |cs|
      invariant Grouping(order, locals, steps) == Group(cs[..i], target[..i])
    {
      assert cs[..i + 1][..i] == cs[..i] && target[..i + 1][..i] == target[..i];
      var ch := cs[i];
      if ch.dev !in steps || ch.dev !in locals {
        order := order + [ch.dev];
        locals := locals[ch.dev := [ch.local]];
        steps := steps[ch.dev := map[ch.local := target[i]]];
      } else {
        if ch.local !in steps[ch.dev] {
          locals := locals[ch.dev := locals[ch.dev] + [ch.local]];
        }
        steps := steps[ch.dev := steps[ch.dev][ch.local := target[i]]];
      }
    }
    assert cs[..|cs|] == cs && target[..|target|] == target;
    g := Grouping(order, locals, steps);
  }

  lemma OrderWellGrouped(g: Grouping)
    requires WellGrouped(g)
    ensures forall i :: 0 <= i < |g.order| ==> DeviceWellGrouped(g, g.order[i])
  {
    forall i | 0 <= i < |g.order|
      ensures DeviceWellGrouped(g, g.order[i])
    {
      assert g.order[i] in g.order;
    }
  }

  /** The second loop of `move`: one `Arduino.move` per device, with the
      step counts sorted by local id. */
  method DispatchMoves(g: Grouping, present: set<int>) returns (s: Sends)
    requires forall i :: 0 <= i < |g.order| ==> DeviceWellGrouped(g, g.order[i])
    ensures s == Dispatch(Commands(g, g.order), present)
  {
    var sent: seq<Command> := [];
    ghost var cmds := Commands(g, g.order);
    for j := 0 to |g.order|
      invariant Dispatch(cmds[..j], present) == Sends(sent, Ok(()))
    {
      var d := g.order[j];
      DispatchStep(cmds, j, present, sent);
      if d !in present {
        return Sends(sent, Err(KeyError));
      }
      sent := sent + [MoveCommand(g, d)];
    }
    assert cmds[..|g.order|] == cmds;
    s := Sends(sent, Ok(()));
  }

  // ---------------------------------------------------------------------
  // The manager

  /** Every link found has reported its id. */
  predicate AllIdentified(found: seq<Arduino>)
    reads found
  {
    forall k :: 0 <= k < |found| ==> found[k].devId.Some?
  }

  /** `self.arduinos[ard.dev_id] = ard` for each link in turn. */
  function ById(found: seq<Arduino>): (m: map<int, Arduino>)
    requires AllIdentified(found)
    reads found
    decreases |found|
  {
    if found == [] then map[]
    else ById(found[..|found| - 1])[found[|found| - 1].devId.value := found[|found| - 1]]
  }

  /** The links are keyed by exactly the ids they reported. */
  lemma {:induction false} ByIdKeys(found: seq<Arduino>)
    requires AllIdentified(found)
    ensures forall d :: d in ById(found) <==> exists k :: 0 <= k < |found| && found[k].devId == Some(d)
    decreases |found|
  {
    if found != [] {
      var n := |found| - 1;
      ByIdKeys(found[..n]);
      forall d
        ensures d in ById(found) <==> exists k :: 0 <= k < |found| && found[k].devId == Some(d)
      {
        if d in ById(found[..n]) {
          var k :| 0 <= k < n && found[..n][k].devId == Some(d);
          assert found[k].devId == Some(d);
        }
        if exists k :: 0 <= k < |found| && found[k].devId == Some(d) {
          var k :| 0 <= k < |found| && found[k].devId == Some(d);
          if k < n {
            assert found[..n][k].devId == Some(d);
          }
        }
      }
    }
  }

  /** A link whose id no later link reports is the one kept for that id. */
  lemma {:induction false} ByIdLastWins(found: seq<Arduino>, k: nat)
    requires AllIdentified(found) && k < |found|
    requires forall j :: k < j < |found| ==> found[j].devId != found[k].devId
    ensures found[k].devId.value in ById(found) && ById(found)[found[k].devId.value] == found[k]
    decreases |found|
  {
    var n := |found| - 1;
    if k < n {
      assert forall j :: k < j < n ==> found[..n][j] == found[j];
      ByIdLastWins(found[..n], k);
    }
  }

  function LinksOf(ids: seq<int>, arduinos: map<int, Arduino>): (links: seq<Link>)
    requires forall i :: 0 <= i < |ids| ==> ids[i] in arduinos
    reads arduinos.Values
    ensures |links| == |ids|
    ensures forall i :: 0 <= i < |ids| ==> links[i] == Link(ids[i], arduinos[ids[i]].line)
    decreases |ids|
  {
    if ids == [] then []
    else LinksOf(ids[..|ids| - 1], arduinos) + [Link(ids[|ids| - 1], arduinos[ids[|ids| - 1]].line)]
  }

  class ArdManager {
    /** The fields of the reading and mapping records. */
    const schema: seq<Component>
    /** The connected device ids, ascending (the dictionary is sorted). */
    var ids: seq<int>
    var arduinos: map<int, Arduino>
    var mapping: Option<Mapping>

    ghost predicate Valid()
      reads this
    {
      Distinct(schema) && Motor in schema && Mass in schema
      && StrictlyIncreasing(ids)
      && (forall i :: 0 <= i < |ids| ==> ids[i] in arduinos)
      && (forall d :: d in arduinos ==> d in ids)
      && (mapping.Some? ==> mapping.value.Keys == SchemaSet(schema))
    }

    /** `__init__` without the port scan and the initial mapping: the links
        found, keyed by the id each reported, sorted by id; no mapping yet. */
    constructor (schema: seq<Component>, found: seq<Arduino>)
      requires Distinct(schema) && Motor in schema && Mass in schema
      requires AllIdentified(found)
      ensures Valid() && this.schema == schema && mapping.None?
      ensures arduinos == ById(found)
    {
      this.schema := schema;
      var m: map<int, Arduino> := map[];
      var keys: seq<int> := [];
      for i := 0 to |found|
        invariant Distinct(keys)
        invariant forall d :: d in m <==> d in keys
        invariant m == ById(found[..i])
      {
        assert found[..i + 1][..i] == found[..i];
        var d := found[i].devId.value;
        if d !in m {
          keys := keys + [d];
        }
        m := m[d := found[i]];
      }
      assert found[..|found|] == found;
      ids := SortInts(keys);
      SortIntsSorted(keys);
      SortIntsMembers(keys);
      arduinos := m;
      mapping := None;
    }

    /** The devices in dictionary order, with their cached lines. */
    function Links(): (links: seq<Link>)
      requires Valid()
      reads this, arduinos.Values
      ensures |links| == |ids| && IdsIncreasing(links)
      ensures forall i :: 0 <= i < |ids| ==> links[i] == Link(ids[i], arduinos[ids[i]].line)
    {
      LinksOf(ids, arduinos)
    }

    /** `gen_mapping`: numbers the channels of every device as `AutoMap`
        does; on an error the previous mapping stays. */
    method GenMapping(decode: string -> Option<Json>) returns (r: Result<()>)
      requires Valid()
      modifies this
      ensures Valid()
      ensures ids == old(ids) && arduinos == old(arduinos)
      ensures var spec := AutoMap(schema, Links(), decode);
              (spec.Ok? ==> r.Ok? && mapping == Some(spec.value))
              && (spec.Err? ==> r == Err(spec.error) && mapping == old(mapping))
    {
      var m := AutoMapLinks(schema, Links(), decode);
      if m.Err? {
        return Err(m.error);
      }
      mapping := Some(m.value);
      r := Ok(());
    }

    /** `get_reading`: the combined reading `CombinedReading` describes. */
    method GetReading(decode: string -> Option<Json>) returns (r: Result<Reading>)
      requires Valid()
      ensures r == CombinedReading(schema, Links(), mapping, decode)
    {
      var readings := ReadLinks(schema, Links(), decode);
      if readings.Err? {
        return Err(readings.error);
      }
      if mapping.None? {
        return Err(TypeError);
      }
      r := CombineFields(schema, mapping.value, readings.value);
    }

    /** `move` without blocking: the commands `ExpectedMove` describes. */
    method Move(t: Target) returns (s: Sends)
      requires Valid()
      ensures s == ExpectedMove(mapping, arduinos.Keys, t)
    {
      if mapping.None? {
        return Sends([], Err(AttributeError));
      }
      var cs := mapping.value[Motor];
      var target: seq<int>;
      match t {
        case Broadcast(x) => target := seq(|cs|, _ => x);
        case PerMotor(xs) => target := xs;
      }
      if |target| != |cs| {
        return Sends([], Err(Raised));
      }
      var g := GroupTargets(cs, target);
      GroupWellFormed(cs, target);
      OrderWellGrouped(g);
      s := DispatchMoves(g, arduinos.Keys);
    }

    /** `move_motor`: moves one motor by `steps`, every other by 0. */
    method MoveMotor(motor: int, steps: int) returns (s: Sends)
      requires Valid()
      ensures mapping.None? ==> s == Sends([], Err(AttributeError))
      ensures mapping.Some? ==>
                s == ExpectedMove(mapping, arduinos.Keys, PerMotor(MotorTarget(|mapping.value[Motor]|, motor, steps)))
    {
      if mapping.None? {
        return Sends([], Err(AttributeError));
      }
      s := Move(PerMotor(MotorTarget(|mapping.value[Motor]|, motor, steps)));
    }

    /** `ArdManager.dump`: raises without a mapping, else saves it. */
    method Dump(disk: Disk, name: string) returns (r: Result<Disk>)
      requires Valid()
      ensures mapping.None? ==> r == Err(Raised)
      ensures mapping.Some? ==> r == DumpMapping(mapping.value, disk, name)
    {
      if mapping.None? {
        return Err(Raised);
      }
      r := DumpMapping(mapping.value, disk, name);
    }

    /** `ArdManager.load` with the record class named as the manager's own
        (the source's unqualified name fails, see `LoadAsWritten`): refuses
        to replace a mapping, otherwise starts from an empty one and loads
        the file into it; a missing file leaves the empty mapping. */
    method Load(disk: Disk, name: string) returns (r: Result<()>)
      requires Valid()
      modifies this
      ensures Valid()
      ensures ids == old(ids) && arduinos == old(arduinos)
      ensures old(mapping).Some? ==> r == Err(Raised) && mapping == old(mapping)
      ensures old(mapping).None? ==>
                match LoadMapping(EmptyMapping(schema), disk, name)
                case Ok(m) => r == Ok(()) && mapping == Some(m)
                case Err(e) => r == Err(e) && mapping == Some(EmptyMapping(schema))
    {
      if mapping.Some? {
        return Err(Raised);
      }
      mapping := Some(EmptyMapping(schema));
      var loaded := LoadMapping(EmptyMapping(schema), disk, name);
      if loaded.Err? {
        return Err(loaded.error);
      }
      mapping := Some(loaded.value);
      r := Ok(());
    }
  }

  /** `ArdManager.load` as written: with no mapping it calls the nested
      record class by an unqualified name (`ArdMapping()` at
      src/lib/ard.py:244), a NameError. */
  function LoadAsWritten(mapping: Option<Mapping>): (e: Error)
    ensures mapping.Some? ==> e == Raised
  {
    if mapping.Some? then Raised else NameError
  }

  /** As written, `ArdManager.load` never loads a mapping: it raises whether
      or not one exists, while the corrected `Load` restores a saved one. */
  lemma LoadAsWrittenNeverLoads(m: Mapping, schema: seq<Component>, disk: Disk, name: string)
    requires m.Keys == SchemaSet(schema) && name !in disk
    ensures LoadAsWritten(None) == NameError
    ensures LoadMapping(EmptyMapping(schema), DumpMapping(m, disk, name).value, name) == Ok(m)
  {
    MappingRoundTrip(m, EmptyMapping(schema), disk, name);
  }
}
