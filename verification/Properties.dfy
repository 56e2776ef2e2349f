/** The properties of a device object and the PropertiesChanged signals about them. */
module Properties {
  import opened Wrappers
  import Csv

  /** `Ids` is without a value where reading an id is undefined. */
  datatype Value = Text(text: string) | Texts(texts: seq<string>) | Ids(ids: Option<seq<nat>>)

  type Props = map<string, Value>

  const DEVICE_INTERFACE := "com.intel.dLeynaDiagnostics.Device"
  const STATUS_INFO := "StatusInfo"
  const TEST_IDS := "TestIDs"
  const ACTIVE_TEST_IDS := "ActiveTestIDs"

  /** What the device description says. */
  datatype Description = Description(
    deviceType: string, udn: string, friendlyName: string, iconUrl: string, manufacturer: string,
    manufacturerUrl: string, modelDescription: string, modelName: string, modelNumber: string,
    serialNumber: string, presentationUrl: string)

  function Described(d: Description): Props {
    map["DeviceType" := Text(d.deviceType), "UDN" := Text(d.udn), "FriendlyName" := Text(d.friendlyName),
        "IconURL" := Text(d.iconUrl), "Manufacturer" := Text(d.manufacturer),
        "ManufacturerUrl" := Text(d.manufacturerUrl), "ModelDescription" := Text(d.modelDescription),
        "ModelName" := Text(d.modelName), "ModelNumber" := Text(d.modelNumber),
        "SerialNumber" := Text(d.serialNumber), "PresentationURL" := Text(d.presentationUrl)]
  }

  /** A change of an evented state variable of the device. */
  datatype Event = DeviceStatus(text: string) | TestIds(text: string) | ActiveTestIds(text: string)

  function KeyOf(e: Event): string {
    match e
    case DeviceStatus(_) => STATUS_INFO
    case TestIds(_) => TEST_IDS
    case ActiveTestIds(_) => ACTIVE_TEST_IDS
  }

  function ValueOf(e: Event): Value {
    match e
    case DeviceStatus(text) => Texts(Csv.Decode(text))
    case TestIds(text) => Ids(Csv.DecodeIds(text))
    case ActiveTestIds(text) => Ids(Csv.DecodeIds(text))
  }

  datatype Signal = PropertiesChanged(interface: string, changed: Props, invalidated: set<string>)

  /** The signals a sequence of events causes. */
  function SignalsOf(events: seq<Event>): (signals: seq<Signal>)
    ensures |signals| == |events|
  {
    seq(|events|, i requires 0 <= i < |events| =>
          PropertiesChanged(DEVICE_INTERFACE, map[KeyOf(events[i]) := ValueOf(events[i])], {}))
  }

  /** The current value of a property: the one of the last event about it, if there was one. */
  function Current(before: Props, events: seq<Event>, key: string): Option<Value> {
    if events == [] then (if key in before then Some(before[key]) else None)
    else
      var n := |events| - 1;
      if KeyOf(events[n]) == key then Some(ValueOf(events[n])) else Current(before, events[..n], key)
  }

  /** The table holds the current values, and nothing else. */
  ghost predicate Holds(props: Props, before: Props, events: seq<Event>) {
    forall key :: Current(before, events, key) == if key in props then Some(props[key]) else None
  }

  // ----- what a client makes of the signals -----

  /** The client side of the signal, by the section "Standard Interfaces" of the D-Bus
      Specification: changed values replace cached ones and invalidated ones are dropped. */
  function Receive(cache: Props, signal: Signal): Props {
    (cache + signal.changed) - signal.invalidated
  }

  function ReceiveAll(cache: Props, signals: seq<Signal>): Props
    decreases |signals|
  {
    if signals == [] then cache else ReceiveAll(Receive(cache, signals[0]), signals[1..])
  }

  lemma ReceiveOne(cache: Props, key: string, value: Value)
    ensures Receive(cache, PropertiesChanged(DEVICE_INTERFACE, map[key := value], {})) == cache[key := value]
  {}

  lemma {:induction false} ReceiveAllHolds(cache: Props, events: seq<Event>)
    ensures Holds(ReceiveAll(cache, SignalsOf(events)), cache, events)
    decreases |events|
  {
    hide KeyOf, ValueOf, Receive;
    if events != [] {
      var signals := SignalsOf(events);
      ReceiveOne(cache, KeyOf(events[0]), ValueOf(events[0]));
      var next := Receive(cache, signals[0]);
      assert signals[1..] == SignalsOf(events[1..]);
      ReceiveAllHolds(next, events[1..]);
      forall key ensures Current(cache, events, key) == Current(next, events[1..], key) {
        CurrentFromFirst(cache, events, key);
      }
    }
  }

  lemma {:induction false} CurrentFromFirst(before: Props, events: seq<Event>, key: string)
    requires events != []
    ensures var next := before[KeyOf(events[0]) := ValueOf(events[0])];
            Current(before, events, key) == Current(next, events[1..], key)
    decreases |events|
  {
    hide KeyOf, ValueOf;
    var n := |events| - 1;
    var rest := events[1..];
    if n == 0 {
      assert events[..0] == [] && rest == [];
    } else {
      assert rest[..n - 1] == events[..n][1..] && rest[n - 1] == events[n] && events[..n][0] == events[0];
      CurrentFromFirst(before, events[..n], key);
    }
  }

  lemma {:induction false} CurrentConcat(before: Props, es: seq<Event>, fs: seq<Event>, props: Props, key: string)
    requires Holds(props, before, es)
    ensures Current(before, es + fs, key) == Current(props, fs, key)
  {
    hide KeyOf, ValueOf;
    if fs == [] {
      assert es + fs == es;
    } else {
      var n := |fs| - 1;
      assert (es + fs)[|es| + n] == fs[n];
      assert (es + fs)[..|es| + n] == es + fs[..n];
      CurrentConcat(before, es, fs[..n], props, key);
    }
  }

  lemma HoldsUnique(p: Props, q: Props, before: Props, events: seq<Event>)
    requires Holds(p, before, events) && Holds(q, before, events)
    ensures p == q
  {}

  /** Whatever happened before a snapshot was taken and whatever happens after it: replaying the
      signals emitted since onto the snapshot gives the properties of the moment. */
  lemma ReplayIsCurrent(first: Props, before: seq<Event>, after: seq<Event>, snapshot: Props, now: Props)
    requires Holds(snapshot, first, before) && Holds(now, first, before + after)
    ensures ReceiveAll(snapshot, SignalsOf(after)) == now
  {
    var replayed := ReceiveAll(snapshot, SignalsOf(after));
    ReceiveAllHolds(snapshot, after);
    forall key ensures Current(first, before + after, key) == if key in replayed then Some(replayed[key]) else None {
      CurrentConcat(first, before, after, snapshot, key);
    }
    HoldsUnique(replayed, now, first, before + after);
  }

  // ----- a snapshot that is delivered late -----

  predicate Touches(events: seq<Event>, key: string) {
    exists i :: 0 <= i < |events| && KeyOf(events[i]) == key
  }

  lemma {:induction false} CurrentUntouched(before: Props, events: seq<Event>, key: string)
    requires !Touches(events, key)
    ensures Current(before, events, key) == if key in before then Some(before[key]) else None
  {
    if events != [] {
      var n := |events| - 1;
      assert forall i :: 0 <= i < n ==> events[..n][i] == events[i];
      CurrentUntouched(before, events[..n], key);
    }
  }

  lemma {:induction false} CurrentTouched(before: Props, other: Props, events: seq<Event>, key: string)
    requires Touches(events, key)
    ensures Current(before, events, key) == Current(other, events, key)
  {
    var n := |events| - 1;
    if KeyOf(events[n]) != key {
      var i :| 0 <= i < |events| && KeyOf(events[i]) == key;
      assert events[..n][i] == events[i];
      CurrentTouched(before, other, events[..n], key);
    }
  }

  /** A property changed while the answer was on its way, not changed since, and left different. */
  predicate Missed(snapshot: Props, between: seq<Event>, after: seq<Event>, key: string) {
    && Touches(between, key) && !Touches(after, key)
    && Current(snapshot, between, key) != (if key in snapshot then Some(snapshot[key]) else None)
  }

  /** The answer to GetAll is built when the task starts and delivered by a later idle turn. A
      client that replays only the signals received after the answer is up to date exactly when no
      property was missed in between. */
  lemma LateReplayExactly(snapshot: Props, between: seq<Event>, after: seq<Event>, now: Props)
    requires Holds(now, snapshot, between + after)
    ensures ReceiveAll(snapshot, SignalsOf(after)) == now <==> forall key :: !Missed(snapshot, between, after, key)
  {
    var replayed := ReceiveAll(snapshot, SignalsOf(after));
    ReceiveAllHolds(snapshot, after);
    forall key
      ensures (if key in replayed then Some(replayed[key]) else None) == (if key in now then Some(now[key]) else None)
         <==> !Missed(snapshot, between, after, key)
    {
      var middle := ReceiveAll(snapshot, SignalsOf(between));
      ReceiveAllHolds(snapshot, between);
      CurrentConcat(snapshot, between, after, middle, key);
      assert Current(snapshot, after, key) == if key in replayed then Some(replayed[key]) else None;
      assert Current(snapshot, between + after, key) == if key in now then Some(now[key]) else None;
      if Touches(after, key) {
        CurrentTouched(snapshot, middle, after, key);
      } else {
        CurrentUntouched(snapshot, after, key);
        CurrentUntouched(middle, after, key);
        if !Touches(between, key) { CurrentUntouched(snapshot, between, key); }
        assert Current(snapshot, between, key) == if key in middle then Some(middle[key]) else None;
      }
    }
    if forall key :: !Missed(snapshot, between, after, key) { SameEntries(replayed, now); }
  }

  lemma SameEntries(p: Props, q: Props)
    requires forall key :: (if key in p then Some(p[key]) else None) == (if key in q then Some(q[key]) else None)
    ensures p == q
  {}

  // ----- the values, by name -----

  predicate Evented(key: string) {
    key in ["StatusInfo", "TestIDs", "ActiveTestIDs"]
  }

  /** A status event with these entries gives the status property that list, and no other property
      anything. */
  lemma StatusValue(before: Props, events: seq<Event>, xs: seq<string>)
    requires (forall x :: x in xs ==> Csv.Clean(x)) && xs != [""]
    ensures var after := events + [DeviceStatus(Csv.Join(xs))];
            && Current(before, after, "StatusInfo") == Some(Texts(xs))
            && forall key :: key != "StatusInfo" ==> Current(before, after, key) == Current(before, events, key)
  {
    hide Csv.Decode, Csv.Join, Csv.Clean;
    Csv.DecodeUndoesJoin(xs);
    assert (events + [DeviceStatus(Csv.Join(xs))])[..|events|] == events;
  }

  /** The same for an event with these test ids. */
  lemma TestIdsValue(before: Props, events: seq<Event>, ns: seq<nat>, active: bool)
    requires forall n :: n in ns ==> n <= 2147483647
    ensures var text := Csv.Join(Csv.PrintAll(ns));
            var after := events + [if active then ActiveTestIds(text) else TestIds(text)];
            var name := if active then "ActiveTestIDs" else "TestIDs";
            && Current(before, after, name) == Some(Ids(Some(ns)))
            && forall key :: key != name ==> Current(before, after, key) == Current(before, events, key)
  {
    hide Csv.DecodeIds, Csv.Join, Csv.PrintAll;
    Csv.DecodeUndoesPrint(ns);
    var text := Csv.Join(Csv.PrintAll(ns));
    assert (events + [if active then ActiveTestIds(text) else TestIds(text)])[..|events|] == events;
  }

  lemma {:induction false} NotTouched(before: Props, events: seq<Event>, key: string)
    requires !Evented(key) || events == []
    ensures Current(before, events, key) == if key in before then Some(before[key]) else None
  {
    hide ValueOf;
    if events != [] { NotTouched(before, events[..|events| - 1], key); }
  }

  /** What the description says stays as it is, whatever happens; there are no other properties than these
      and, after the first event, the three evented ones. */
  lemma DescriptionStays(d: Description, events: seq<Event>, key: string)
    requires !Evented(key) || events == []
    ensures Current(Described(d), events, key) ==
            match key
            case "DeviceType" => Some(Text(d.deviceType))
            case "UDN" => Some(Text(d.udn))
            case "FriendlyName" => Some(Text(d.friendlyName))
            case "IconURL" => Some(Text(d.iconUrl))
            case "Manufacturer" => Some(Text(d.manufacturer))
            case "ManufacturerUrl" => Some(Text(d.manufacturerUrl))
            case "ModelDescription" => Some(Text(d.modelDescription))
            case "ModelName" => Some(Text(d.modelName))
            case "ModelNumber" => Some(Text(d.modelNumber))
            case "SerialNumber" => Some(Text(d.serialNumber))
            case "PresentationURL" => Some(Text(d.presentationUrl))
            case _ => None
  {
    hide Current;
    NotTouched(Described(d), events, key);
  }

  /** Every signal is about the device interface and changes one of the three, to its new value. */
  lemma SignalsExactly(before: Props, events: seq<Event>, i: nat)
    requires i < |events|
    ensures var signal := SignalsOf(events)[i];
            && signal.interface == "com.intel.dLeynaDiagnostics.Device" && signal.invalidated == {}
            && |signal.changed| == 1
            && forall key :: key in signal.changed ==>
                 Evented(key) && Current(before, events[..i + 1], key) == Some(signal.changed[key])
  {
    hide ValueOf;
    var upTo := events[..i + 1];
    assert upTo[i] == events[i];
  }

  /** One status event in between is enough. */
  lemma LateReplayCanMiss(d: Description, text: string)
    ensures var late := ReceiveAll(Described(d), SignalsOf([]));
            !Holds(late, Described(d), [DeviceStatus(text)])
  {
    var events := [DeviceStatus(text)];
    assert Current(Described(d), events, STATUS_INFO) == Some(ValueOf(events[0]));
    assert STATUS_INFO !in Described(d);
  }

  // ----- the object -----

  datatype Reply<T> = Given(value: T) | UnknownInterface | UnknownProperty

  class DeviceProperties {
    var props: Props

    /** Everything sent to the bus, and everything that has happened. */
    var signals: seq<Signal>
    ghost const description: Description
    ghost var events: seq<Event>

    ghost predicate Valid()
      reads this
    {
      Holds(props, Described(description), events) && signals == SignalsOf(events)
    }

    constructor (d: Description)
      ensures Valid() && description == d && events == [] && props == Described(d)
    {
      description, events := d, [];
      signals := [];
      props := Described(d);
    }

    /** Stores a value and tells the clients. */
    method ChangeProperty(key: string, value: Value)
      modifies `props, `signals
      ensures props == old(props)[key := value]
      ensures signals == old(signals) + [PropertiesChanged(DEVICE_INTERFACE, map[key := value], {})]
    {
      var changed: Props := map[];
      props := props[key := value];
      changed := changed[key := value];
      signals := signals + [PropertiesChanged(DEVICE_INTERFACE, changed, {})];
    }

    lemma Happens(e: Event, next: Props)
      requires Valid() && next == props[KeyOf(e) := ValueOf(e)]
      ensures Holds(next, Described(description), events + [e])
      ensures SignalsOf(events + [e])
           == SignalsOf(events) + [PropertiesChanged(DEVICE_INTERFACE, map[KeyOf(e) := ValueOf(e)], {})]
    {}

    method OnDeviceStatus(text: string)
      requires Valid()
      modifies this
      ensures Valid() && events == old(events) + [DeviceStatus(text)]
    {
      var parts := Csv.DecodeList(text);
      Happens(DeviceStatus(text), props[STATUS_INFO := Texts(parts)]);
      ChangeProperty(STATUS_INFO, Texts(parts));
      events := events + [DeviceStatus(text)];
    }

    method OnTestIds(text: string)
      requires Valid()
      modifies this
      ensures Valid() && events == old(events) + [TestIds(text)]
    {
      var ids := Csv.DecodeIdList(text);
      Happens(TestIds(text), props[TEST_IDS := Ids(ids)]);
      ChangeProperty(TEST_IDS, Ids(ids));
      events := events + [TestIds(text)];
    }

    method OnActiveTestIds(text: string)
      requires Valid()
      modifies this
      ensures Valid() && events == old(events) + [ActiveTestIds(text)]
    {
      var ids := Csv.DecodeIdList(text);
      Happens(ActiveTestIds(text), props[ACTIVE_TEST_IDS := Ids(ids)]);
      ChangeProperty(ACTIVE_TEST_IDS, Ids(ids));
      events := events + [ActiveTestIds(text)];
    }

    method GetProperty(interface: string, key: string) returns (reply: Reply<Value>)
      requires Valid()
      ensures var current := Current(Described(description), events, key);
              reply == if interface != DEVICE_INTERFACE && interface != "" then UnknownInterface
                       else if current.Some? then Given(current.value) else UnknownProperty
    {
      if interface == DEVICE_INTERFACE || interface == "" {
        reply := if key in props then Given(props[key]) else UnknownProperty;
      } else {
        reply := UnknownInterface;
      }
    }

    method GetProperties(interface: string) returns (reply: Reply<Props>)
      requires Valid()
      ensures if interface != DEVICE_INTERFACE && interface != "" then reply == UnknownInterface
              else reply.Given? && Holds(reply.value, Described(description), events)
    {
      if interface == DEVICE_INTERFACE || interface == "" {
        var all: Props := map[];
        var rest := props.Keys;
        while rest != {}
          invariant rest <= props.Keys
          invariant all == map key | key in props && key !in rest :: props[key]
        {
          var key :| key in rest;
          all := all[key := props[key]];
          rest := rest - {key};
        }
        assert all == props;
        reply := Given(all);
      } else {
        reply := UnknownInterface;
      }
    }
  }
}
