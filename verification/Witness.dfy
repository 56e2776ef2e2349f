/** A published device can be left without any event subscription: the construction moved to
    another address after its subscribe step, and nothing subscribes there. */
module Witness {
  import opened Wrappers
  import opened Registry
  import opened TreeWalks
  import opened Invariant
  import opened Runs
  import opened DeviceTree
  import Contexts

  function Dev(udn: string, cs: seq<Contexts.Context>, step: nat, ids: seq<nat>, exposed: bool): Device {
    Device(udn, PathOf(0), cs, false, step, ids, exposed)
  }

  function Fresh(ip: string): Contexts.Context {
    Contexts.Context(ip, false, false)
  }

  /** One device, number 0, built by chain `q` on address `ip`, with nothing published. */
  predicate Building(s: State, dev: Device, q: nat, ip: string, pending: seq<Task>) {
    && s.devices == map[0 := dev] && s.chains == map[q := Chain(dev.udn, ip, 0, pending)]
    && s.published == map[] && s.building == map[dev.udn := q] && s.started == q + 1
  }

  lemma First(udn: string, a: string)
    ensures AddDevice(INIT, a, udn).Ok?
    ensures Building(AddDevice(INIT, a, udn).value, Dev(udn, [Fresh(a)], 0, [0, 0], false), 0, a, [Subscribe, Declare])
  {
    hide PathOf;
    var t := AddDevice(INIT, a, udn).value;
    var dev := Dev(udn, [Fresh(a)], 0, [0, 0], false);
    assert NewDevice(0, udn, a).ids == [0, 0];
    assert t.devices == map[0 := dev];
    assert PendingFrom(0) == [Subscribe, Declare];
    assert t.chains == map[0 := Chain(udn, a, 0, [Subscribe, Declare])];
  }

  lemma Second(s: State, udn: string, a: string, b: string)
    requires a != b && !Contexts.IsLoopback(a) && !Contexts.IsLoopback(b)
    requires Building(s, Dev(udn, [Fresh(a)], 0, [0, 0], false), 0, a, [Subscribe, Declare])
    ensures AddDevice(s, b, udn).Ok?
    ensures Building(AddDevice(s, b, udn).value,
                     Dev(udn, [Fresh(a).(subscribed := true), Fresh(b)], 0, [0, 0], false), 0, a, [Subscribe, Declare])
  {
    hide PathOf, Contexts.IsLoopback;
    var cs := [Fresh(a)] + [Fresh(b)];
    assert Contexts.FirstSubscribed(cs) == 2;
    assert Contexts.FirstLoopback(cs) == 2;
    assert Contexts.Append([Fresh(a)], b) == [Fresh(a).(subscribed := true), Fresh(b)];
  }

  lemma Third(s: State, udn: string, a: string, b: string)
    requires a != b && !Contexts.IsLoopback(a) && !Contexts.IsLoopback(b)
    requires Building(s, Dev(udn, [Fresh(a).(subscribed := true), Fresh(b)], 0, [0, 0], false), 0, a,
                      [Subscribe, Declare])
    ensures TakeTurn(s, 0, [0, 0]).Ok?
    ensures Building(TakeTurn(s, 0, [0, 0]).value,
                     Dev(udn, [Fresh(a).(subscribed := true), Fresh(b)], 1, [0, 0], false), 0, a, [Declare])
  {}

  /** The switch: the subscription goes with the address, and no timer is armed. */
  lemma Fourth(s: State, udn: string, a: string, b: string)
    requires a != b && !Contexts.IsLoopback(b)
    requires Building(s, Dev(udn, [Fresh(a).(subscribed := true), Fresh(b)], 1, [0, 0], false), 0, a, [Declare])
    ensures RemoveDevice(s, a, udn).Ok?
    ensures Building(RemoveDevice(s, a, udn).value, Dev(udn, [Fresh(b)], 1, [0, 0], true), 1, b, [Declare])
  {
    hide PathOf, Contexts.IsLoopback, DropContext, EndChain;
    var cs := s.devices[0].contexts;
    assert Contexts.IndexOfIp(cs, a) == 0;
    assert Contexts.RemoveAt(cs, 0) == [Fresh(b)];
    DropBuiltResult(s, udn, 0, 0, 0);
    assert (s.chains - {0})[1 := Chain(udn, b, 0, [Declare])] == map[1 := Chain(udn, b, 0, [Declare])];
    assert Contexts.Preferred([Fresh(b)]) == 0;
    var t := RemoveDevice(s, a, udn).value;
    var dev := Dev(udn, [Fresh(b)], 1, [0, 0], true);
    assert t.devices == map[0 := dev];
    assert PendingFrom(1) == [Declare];
    assert t.chains == map[1 := Chain(udn, b, 0, [Declare])];
    assert t.building == map[udn := 1];
  }

  lemma Fifth(s: State, udn: string, b: string)
    requires Inv(s)
    requires Building(s, Dev(udn, [Fresh(b)], 1, [0, 0], true), 1, b, [Declare])
    ensures LiveIds([1, 2]) == 2 && FreshReplies(s, TaskTurn(1, [1, 2]))
    ensures TakeTurn(s, 1, [1, 2]).Ok?
    ensures Building(TakeTurn(s, 1, [1, 2]).value, Dev(udn, [Fresh(b)], 2, [1, 2], true), 1, b, [])
  {
    hide PathOf, EndChain, Linked, SourcesOk, ProgressOk, DevicesOk;
    LiveIdsUnique([1, 2], 2);
    assert DeclaredIds([0, 0], [1, 2]) == [1, 2];
    assert [Declare][1..] == [];
  }

  lemma Sixth(s: State, udn: string, b: string)
    requires Building(s, Dev(udn, [Fresh(b)], 2, [1, 2], true), 1, b, [])
    ensures TakeTurn(s, 1, [0, 0]).Ok?
    ensures TakeTurn(s, 1, [0, 0]).value.published == map[udn := 0]
    ensures TakeTurn(s, 1, [0, 0]).value.devices == map[0 := Dev(udn, [Fresh(b)], 2, [1, 2], true)]
  {}

  /** For every UDN and every two non-loopback addresses such a run exists. */
  lemma UncoveredIsReachable(udn: string, a: string, b: string)
    requires a != b && !Contexts.IsLoopback(a) && !Contexts.IsLoopback(b)
    ensures exists s :: Reachable(s) && udn in s.published && s.published[udn] in s.devices
                        && !Covered(s.devices[s.published[udn]])
  {
    hide Reachable, PathOf, AddDevice, RemoveDevice, TakeTurn, Announce, Withdraw, FreshReplies, Inv,
         Contexts.IsLoopback, LiveIds;
    var s0 := INIT;
    InitReachable();
    PlainWalks(s0, udn, a);
    First(udn, a);
    NoReplies(s0, Announced(Plain(udn), Some(a)));
    ReachableStep(s0, Announced(Plain(udn), Some(a)));
    var s1 := AddDevice(s0, a, udn).value;
    PlainWalks(s1, udn, b);
    Second(s1, udn, a, b);
    NoReplies(s1, Announced(Plain(udn), Some(b)));
    ReachableStep(s1, Announced(Plain(udn), Some(b)));
    var s2 := AddDevice(s1, b, udn).value;
    Third(s2, udn, a, b);
    NothingGranted(s2, 0);
    ReachableStep(s2, TaskTurn(0, [0, 0]));
    var s3 := TakeTurn(s2, 0, [0, 0]).value;
    PlainWalks(s3, udn, a);
    Fourth(s3, udn, a, b);
    NoReplies(s3, Withdrawn(Plain(udn), Some(a)));
    ReachableStep(s3, Withdrawn(Plain(udn), Some(a)));
    var s4 := RemoveDevice(s3, a, udn).value;
    ReachableInv(s4);
    Fifth(s4, udn, b);
    ReachableStep(s4, TaskTurn(1, [1, 2]));
    var s5 := TakeTurn(s4, 1, [1, 2]).value;
    Sixth(s5, udn, b);
    NothingGranted(s5, 1);
    ReachableStep(s5, TaskTurn(1, [0, 0]));
    var s6 := TakeTurn(s5, 1, [0, 0]).value;
    assert Reachable(s6) && !Covered(s6.devices[0]);
  }

  lemma NoReplies(s: State, e: Event)
    requires !e.TaskTurn?
    ensures FreshReplies(s, e)
  {}

  lemma NothingGranted(s: State, q: nat)
    ensures FreshReplies(s, TaskTurn(q, [0, 0]))
  {}

  lemma ReachableInv(s: State)
    requires Reachable(s)
    ensures Inv(s)
  {
    ReachableGood(s);
  }
}
