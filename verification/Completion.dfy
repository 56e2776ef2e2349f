/** An announced device does get published, when its queue is given its turns and the connector
    accepts its interfaces; and what happens once the 32-bit counter has gone round. */
module Completion {
  import opened Wrappers
  import opened Registry
  import opened TreeWalks
  import opened Invariant
  import opened History
  import opened Bus
  import opened Runs
  import opened Causes
  import opened Paths
  import opened DeviceTree
  import Contexts

  function Built(d: nat, udn: string, ip: string, subscribed: bool, step: nat, ids: seq<nat>): Device {
    Device(udn, PathOf(d), [Contexts.Context(ip, subscribed, false)], false, step, ids, false)
  }

  /** `s` with device `d` for `udn` under construction by chain `q`. */
  predicate Underway(s: State, t: State, d: nat, q: nat, udn: string, dev: Device, pending: seq<Task>) {
    && dev.contexts != [] && t.devices == s.devices[d := dev]
    && t.chains == s.chains[q := Chain(udn, dev.contexts[0].ip, d, pending)]
    && t.building == s.building[udn := q] && t.published == s.published
    && t.sources == s.sources && t.lossSources == s.lossSources && t.created == d + 1 && t.started == q + 1
  }

  lemma AfterAnnouncement(s: State, udn: string, ip: string)
    requires udn !in s.published && udn !in s.building
    ensures AddDevice(s, ip, udn).Ok?
    ensures var t := AddDevice(s, ip, udn).value;
            && Underway(s, t, s.created, s.started, udn, Built(s.created, udn, ip, false, 0, [0, 0]),
                        [Subscribe, Declare])
            && t.objects == s.objects && t.signals == s.signals && s.log <= t.log
  {
    hide PathOf;
    assert NewDevice(s.created, udn, ip).ids == [0, 0];
    assert PendingFrom(0) == [Subscribe, Declare];
  }

  lemma AfterSubscribe(s: State, t: State, d: nat, q: nat, udn: string, ip: string)
    requires Underway(s, t, d, q, udn, Built(d, udn, ip, false, 0, [0, 0]), [Subscribe, Declare])
    ensures TakeTurn(t, q, [0, 0]).Ok?
    ensures var u := TakeTurn(t, q, [0, 0]).value;
            && Underway(s, u, d, q, udn, Built(d, udn, ip, true, 1, [0, 0]), [Declare])
            && u.objects == t.objects && u.signals == t.signals && t.log <= u.log
  {
    hide PathOf;
    var cs := t.devices[d].contexts;
    assert Contexts.FirstSubscribed(cs) == 1;
    assert Contexts.Preferred(cs) == 0;
    assert Contexts.MoveSubscription(cs) == [Contexts.Context(ip, true, false)];
    assert [Subscribe, Declare][1..] == [Declare];
  }

  lemma GrantedBoth(objects: map<nat, nat>, d: nat, a: nat, b: nat)
    requires a != 0 && b != 0
    ensures LiveIds([a, b]) == 2 && DeclaredIds([0, 0], [a, b]) == [a, b]
    ensures objects + Granted([a, b], d) == objects[a := d][b := d]
  {
    hide LiveIds;
    LiveIdsUnique([a, b], 2);
    assert [a, b][..2] == [a, b];
  }

  lemma AfterDeclare(s: State, t: State, d: nat, q: nat, udn: string, ip: string, a: nat, b: nat)
    requires Underway(s, t, d, q, udn, Built(d, udn, ip, true, 1, [0, 0]), [Declare])
    requires a != 0 && b != 0
    ensures TakeTurn(t, q, [a, b]).Ok?
    ensures var u := TakeTurn(t, q, [a, b]).value;
            && Underway(s, u, d, q, udn, Built(d, udn, ip, true, 2, [a, b]), [])
            && u.objects == t.objects[a := d][b := d] && u.signals == t.signals && t.log <= u.log
  {
    hide PathOf, EndChain, LiveIds, DeclaredIds, Granted, Emit;
    GrantedBoth(t.objects, d, a, b);
    EmitExtends(t.log, Ran(d, Declare));
    assert [Declare][1..] == [];
  }

  lemma EmitExtends(log: seq<Output>, o: Output)
    ensures log <= Emit(log, o)
  {}

  lemma AfterLastTurn(s: State, t: State, d: nat, q: nat, udn: string, ip: string, a: nat, b: nat)
    requires Underway(s, t, d, q, udn, Built(d, udn, ip, true, 2, [a, b]), [])
    requires q !in s.chains && udn !in s.building && udn !in s.published
    ensures TakeTurn(t, q, [0, 0]).Ok?
    ensures var u := TakeTurn(t, q, [0, 0]).value;
            && u.devices == s.devices[d := Built(d, udn, ip, true, 2, [a, b])]
            && u.chains == s.chains && u.building == s.building && u.published == s.published[udn := d]
            && u.sources == s.sources && u.lossSources == s.lossSources && u.created == d + 1 && u.started == q + 1
            && u.objects == t.objects && u.signals == t.signals + [FoundDevice(PathOf(d))]
            && t.log <= u.log && Found(d) in u.log
  {}

  lemma TurnReaches(s: State, q: nat, replies: Replies)
    requires Reachable(s) && TakeTurn(s, q, replies).Ok?
    requires LiveIds(replies) == 0 || FreshReplies(s, TaskTurn(q, replies))
    ensures Reachable(TakeTurn(s, q, replies).value)
  {
    hide Reachable, TakeTurn;
    ReachableStep(s, TaskTurn(q, replies));
  }

  /** In every reachable state, a device not known yet is published three turns after its
      announcement, subscribed and with the ids the connector gave; everything else is as before. */
  lemma ConstructionCompletes(s: State, udn: string, ip: string, a: nat, b: nat) returns (t: State)
    requires Reachable(s) && udn !in s.published && udn !in s.building
    requires a != 0 && b != 0 && a != b && a !in s.objects && b !in s.objects
    ensures Run(s, [Announced(Plain(udn), Some(ip)), TaskTurn(s.started, [0, 0]), TaskTurn(s.started, [a, b]),
                    TaskTurn(s.started, [0, 0])]) == Ok(t)
    ensures Reachable(t)
    ensures t.devices == s.devices[s.created := Built(s.created, udn, ip, true, 2, [a, b])]
    ensures t.published == s.published[udn := s.created] && t.building == s.building && t.chains == s.chains
    ensures t.objects == s.objects[a := s.created][b := s.created]
    ensures t.sources == s.sources && t.lossSources == s.lossSources
    ensures t.created == s.created + 1 && t.started == s.started + 1
    ensures t.signals == s.signals + [FoundDevice(PathOf(s.created))]
    ensures s.log <= t.log && Found(s.created) in t.log
  {
    hide Reachable, PathOf, AddDevice, RemoveDevice, TakeTurn, Announce, Withdraw, Inv, Underway, LiveIds;
    var d, q := s.created, s.started;
    NewChain(s);
    PlainWalks(s, udn, ip);
    AfterAnnouncement(s, udn, ip);
    var e0 := Announced(Plain(udn), Some(ip));
    ReachableStep(s, e0);
    var s1 := AddDevice(s, ip, udn).value;
    AfterSubscribe(s, s1, d, q, udn, ip);
    LiveIdsUnique([0, 0], 0);
    TurnReaches(s1, q, [0, 0]);
    var s2 := TakeTurn(s1, q, [0, 0]).value;
    LiveIdsUnique([a, b], 2);
    AfterDeclare(s, s2, d, q, udn, ip, a, b);
    TurnReaches(s2, q, [a, b]);
    var s3 := TakeTurn(s2, q, [a, b]).value;
    AfterLastTurn(s, s3, d, q, udn, ip, a, b);
    TurnReaches(s3, q, [0, 0]);
    t := TakeTurn(s3, q, [0, 0]).value;
    RunFour(s, e0, TaskTurn(q, [0, 0]), TaskTurn(q, [a, b]), TaskTurn(q, [0, 0]), s1, s2, s3, t);
  }

  lemma NewChain(s: State)
    requires Reachable(s)
    ensures s.started !in s.chains && s.created !in s.devices
  {
    hide InvBut;
    ReachableGood(s);
    LinkedOf(s);
    if s.started in s.chains { LinkOf(s, s.started); }
    if s.created in s.devices { OwnerOf(s, s.created); }
  }

  lemma RunFour(s: State, e0: Event, e1: Event, e2: Event, e3: Event, s1: State, s2: State, s3: State, s4: State)
    requires Step(s, e0) == Ok(s1) && Step(s1, e1) == Ok(s2) && Step(s2, e2) == Ok(s3) && Step(s3, e3) == Ok(s4)
    ensures Run(s, [e0, e1, e2, e3]) == Ok(s4)
  {
    hide Step;
    assert [e0, e1, e2, e3][1..] == [e1, e2, e3] && [e1, e2, e3][1..] == [e2, e3] && [e2, e3][1..] == [e3];
    assert [e3][1..] == [] && Run(s4, []) == Ok(s4);
    assert Run(s3, [e3]) == Ok(s4);
    assert Run(s2, [e2, e3]) == Ok(s4);
    assert Run(s1, [e1, e2, e3]) == Ok(s4);
  }

  // ----- construction amid other events -----

  /** The turns a queue gets. */
  function Turns(events: seq<Event>, q: nat): nat {
    if events == [] then 0
    else (if events[0].TaskTurn? && events[0].chain == q then 1 else 0) + Turns(events[1..], q)
  }

  /** No event ends the construction: no interface is refused, and the address it is on stays. */
  predicate Undisturbed(s: State, events: seq<Event>, q: nat)
    decreases |events|
  {
    events != [] ==>
      && q in s.chains && !Ends(s, events[0], q)
      && Step(s, events[0]).Ok? && Undisturbed(Step(s, events[0]).value, events[1..], q)
  }

  /** Whatever else happens in between, each turn takes a queue one task further. */
  lemma {:induction false} RunAdvances(s: State, events: seq<Event>, q: nat)
    requires Good(s) && FreshRun(s, events) && q in s.chains && Undisturbed(s, events, q)
    ensures Run(s, events).Ok? && Turns(events, q) <= |s.chains[q].pending|
    ensures q in Run(s, events).value.chains
    ensures Run(s, events).value.chains[q] == s.chains[q].(pending := s.chains[q].pending[Turns(events, q)..])
    decreases |events|
  {
    hide Inv, PathsOk, HistoryOk, Step, FreshReplies, Ends;
    if events != [] {
      LiveRecord(s, q);
      StepGood(s, events[0]);
      StepAdvances(s, events[0], q);
      RunAdvances(Step(s, events[0]).value, events[1..], q);
    }
  }

  lemma LiveRecord(s: State, q: nat)
    requires Good(s) && q in s.chains
    ensures q < s.started && s.chains[q].device in s.devices
  {
    hide InvBut, PathsOk, HistoryOk;
    LinkedOf(s);
    LinkOf(s, q);
  }

  /** A construction that nothing ends is complete once its queue has had a turn for each pending
      task, whatever other devices, contexts, losses and timers come in between: the next turn
      publishes its device and announces it. */
  lemma CompletesAmid(s: State, events: seq<Event>, q: nat, replies: Replies)
    requires Good(s) && FreshRun(s, events) && q in s.chains && Undisturbed(s, events, q)
    requires Turns(events, q) == |s.chains[q].pending|
    ensures Run(s, events).Ok? && TakeTurn(Run(s, events).value, q, replies).Ok?
    ensures var t := Run(s, events).value;
            var u := TakeTurn(t, q, replies).value;
            var d := s.chains[q].device;
            && !IsPublished(t, d) && IsPublished(u, d) && q !in u.chains
            && u.published == t.published[s.chains[q].udn := d]
            && u.signals == t.signals + [FoundDevice(PathOf(d))]
            && (forall id :: id in u.devices[d].ids ==> id != 0 && id in u.objects && u.objects[id] == d)
  {
    hide InvBut, HistoryOk, Run, FreshRun, Undisturbed, PathOf;
    RunAdvances(s, events, q);
    RunGood(s, events);
    var t := Run(s, events).value;
    ChainOf(t, q);
    PublishKeeps(t, q);
    var u := TakeTurn(t, q, replies).value;
    PublishedIds(u, t.chains[q].device);
  }

  lemma PublishedIds(s: State, d: nat)
    requires Inv(s) && IsPublished(s, d)
    ensures forall id :: id in s.devices[d].ids ==> id != 0 && id in s.objects && s.objects[id] == d
  {
    DeviceOf(s, d);
    assert s.devices[d].step == 2;
    forall id | id in s.devices[d].ids ensures id != 0 && id in s.objects && s.objects[id] == d {
      var i :| 0 <= i < |s.devices[d].ids| && s.devices[d].ids[i] == id;
    }
  }

  // ----- once round the counter -----

  /** An announcement withdrawn before its first turn leaves no trace but its number. */
  lemma CycleLeavesNoTrace(s: State, udn: string, ip: string) returns (t: State)
    requires Reachable(s) && udn !in s.published && udn !in s.building
    ensures Reachable(t) && t.created == s.created + 1 && s.log <= t.log
    ensures t == s.(created := s.created + 1, started := s.started + 1, log := t.log)
  {
    hide Reachable, PathOf, AddDevice, RemoveDevice, Announce, Withdraw, Inv, EndChain;
    var d, q := s.created, s.started;
    NewChain(s);
    PlainWalks(s, udn, ip);
    AfterAnnouncement(s, udn, ip);
    ReachableStep(s, Announced(Plain(udn), Some(ip)));
    var u := AddDevice(s, ip, udn).value;
    PlainWalks(u, udn, ip);
    NewIsRemoved(s, u, udn, ip);
    ReachableStep(u, Withdrawn(Plain(udn), Some(ip)));
    t := RemoveDevice(u, ip, udn).value;
  }

  lemma NewIsRemoved(s: State, u: State, udn: string, ip: string)
    requires s.created !in s.devices && s.started !in s.chains && udn !in s.published && udn !in s.building
    requires Underway(s, u, s.created, s.started, udn, Built(s.created, udn, ip, false, 0, [0, 0]),
                      [Subscribe, Declare])
    requires u.objects == s.objects && u.signals == s.signals
    ensures RemoveDevice(u, ip, udn).Ok?
    ensures var t := RemoveDevice(u, ip, udn).value;
            && t == s.(created := s.created + 1, started := s.started + 1, log := t.log) && u.log <= t.log
  {}

  lemma {:induction false} Cycles(s: State, udn: string, ip: string, n: nat) returns (t: State)
    requires Reachable(s) && udn !in s.published && udn !in s.building
    ensures Reachable(t) && t.created == s.created + n && s.log <= t.log
    ensures t == s.(created := t.created, started := t.started, log := t.log)
    decreases n
  {
    hide Reachable;
    t := s;
    if n > 0 {
      t := Cycles(s, udn, ip, n - 1);
      t := CycleLeavesNoTrace(t, udn, ip);
    }
  }

  /** After 2^32 devices, two published devices can have the same path, and clients have been told
      of that path twice. */
  lemma PathsRepeat(udn: string, other: string, ip: string) returns (s: State)
    requires udn != other
    ensures Reachable(s) && s.created == COUNTER_SIZE + 1
    ensures s.published == map[udn := 0][other := COUNTER_SIZE] && s.devices.Keys == {0, COUNTER_SIZE}
    ensures s.devices[0].path == s.devices[COUNTER_SIZE].path
    ensures s.signals == [FoundDevice(PathOf(0)), FoundDevice(PathOf(0))]
  {
    hide Reachable, PathOf;
    InitReachable();
    var s1 := ConstructionCompletes(INIT, udn, ip, 1, 2);
    var s2 := Cycles(s1, other, ip, COUNTER_SIZE - 1);
    s := ConstructionCompletes(s2, other, ip, 3, 4);
    PathsCollideExactly(0, COUNTER_SIZE);
  }

  lemma PublishedIsRemoved(s: State, t: State, udn: string, ip: string, a: nat, b: nat)
    requires s.created !in s.devices && udn !in s.published && udn !in s.building
    requires a != 0 && b != 0 && a !in s.objects && b !in s.objects
    requires t.devices == s.devices[s.created := Built(s.created, udn, ip, true, 2, [a, b])]
    requires t.published == s.published[udn := s.created] && t.objects == s.objects[a := s.created][b := s.created]
    ensures RemoveDevice(t, ip, udn).Ok?
    ensures var u := RemoveDevice(t, ip, udn).value;
            && u == t.(devices := s.devices, published := s.published, objects := s.objects, log := u.log,
                       signals := t.signals + [LostDevice(PathOf(s.created))])
  {
    hide PathOf, DropContext, LiveIds;
    var d := s.created;
    assert Contexts.IndexOfIp(t.devices[d].contexts, ip) == 0;
    DropLostResult(t, udn, d, 0);
    LiveIdsUnique([a, b], 2);
    var gone := set i | 0 <= i < 2 :: [a, b][i];
    assert [a, b][0] in gone && [a, b][1] in gone;
    assert Unpublish(t.objects, [a, b]) == s.objects;
    assert t.devices - {d} == s.devices && t.published - {udn} == s.published;
  }

  /** A device that is published and then withdrawn leaves nothing but its two signals. */
  lemma LifeLeavesSignals(s: State, udn: string, ip: string, a: nat, b: nat) returns (u: State)
    requires Reachable(s) && udn !in s.published && udn !in s.building
    requires a != 0 && b != 0 && a != b && a !in s.objects && b !in s.objects
    ensures Reachable(u)
    ensures u == s.(created := s.created + 1, started := s.started + 1, log := u.log,
                    signals := s.signals + [FoundDevice(PathOf(s.created)), LostDevice(PathOf(s.created))])
  {
    hide Reachable, PathOf, RemoveDevice, Withdraw, Announce, Run;
    NewChain(s);
    var t := ConstructionCompletes(s, udn, ip, a, b);
    PublishedIsRemoved(s, t, udn, ip, a, b);
    PlainWalks(t, udn, ip);
    ReachableStep(t, Withdrawn(Plain(udn), Some(ip)));
    u := RemoveDevice(t, ip, udn).value;
  }

  /** A path can come into use again: GetDevices then answers it although it has been withdrawn,
      and it can be withdrawn a second time. */
  lemma PathsAreReused(udn: string, ip: string) returns (s: State, t: State)
    ensures var path := PathOf(0);
            && Reachable(s) && path in DeviceIds(s)
            && s.signals == [FoundDevice(path), LostDevice(path), FoundDevice(path)]
            && Reachable(t) && path !in DeviceIds(t)
            && t.signals == [FoundDevice(path), LostDevice(path), FoundDevice(path), LostDevice(path)]
  {
    hide Reachable, PathOf, Run;
    InitReachable();
    PathsCollideExactly(0, COUNTER_SIZE);
    var s1 := LifeLeavesSignals(INIT, udn, ip, 1, 2);
    var s2 := Cycles(s1, udn, ip, COUNTER_SIZE - 1);
    s := ConstructionCompletes(s2, udn, ip, 1, 2);
    assert s.published[udn] == COUNTER_SIZE && s.devices[COUNTER_SIZE].path == PathOf(0);
    t := LifeLeavesSignals(s2, udn, ip, 1, 2);
  }
}
