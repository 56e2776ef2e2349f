/** The registry object: two hash tables pointing to shared records, updated in place by the
    network callbacks, the construction queues and the timers. */
module Upnp {
  import opened Wrappers
  import opened Devices
  import opened DeviceTree
  import R = Registry
  import C = Contexts
  import I = Invariant
  import P = Paths
  import B = Runs

  /** A construction record and the queue that owns it. */
  class Construction {
    ghost const handle: nat
    const udn: string
    const ip: string
    const device: Device
    var pending: seq<R.Task>

    /** A record for `device` with the tasks the device still needs queued. */
    constructor (ghost handle: nat, udn: string, ip: string, device: Device)
      ensures this.handle == handle && this.device == device
      ensures Value() == R.Chain(udn, ip, device.handle, R.PendingFrom(device.step))
    {
      this.handle, this.udn, this.ip, this.device := handle, udn, ip, device;
      pending := [];
      new;
      Construct();
    }

    ghost function Value(): R.Chain
      reads this
    {
      R.Chain(udn, ip, device.handle, pending)
    }

    /** Queues the construction tasks the device still needs. */
    method Construct()
      requires pending == []
      modifies `pending
      ensures pending == R.PendingFrom(device.step)
    {
      if device.step < 1 { pending := pending + [R.Subscribe]; }
      if device.step < 2 { pending := pending + [R.Declare]; }
    }
  }

  /** The live device records are what the state says. */
  ghost predicate DevicesMatch(live: map<nat, Device>, devices: map<nat, R.Device>, created: nat, repr: set<object>)
    reads set d | d in live :: live[d]
    reads set d, i | d in live && 0 <= i < |live[d].contexts| :: live[d].contexts[i]
  {
    && live.Keys == devices.Keys
    && (forall d :: d in live ==>
          && d < created && live[d].handle == d && live[d].Within(repr)
          && live[d].Valid() && live[d].Value() == devices[d])
  }

  ghost predicate ChainsMatch(queues: map<nat, Construction>, chains: map<nat, R.Chain>, started: nat,
                              repr: set<object>)
    reads set q | q in queues :: queues[q]
  {
    && queues.Keys == chains.Keys
    && (forall q :: q in queues ==>
          q < started && queues[q].handle == q && queues[q] in repr && queues[q].Value() == chains[q])
  }

  /** A pointer leads to the record of its handle, as long as that is allocated. */
  ghost predicate Points(live: map<nat, Device>, created: nat, device: Device) {
    device.handle < created && (device.handle in live ==> live[device.handle] == device)
  }

  ghost predicate PublishedMatch(m: map<string, Device>, live: map<nat, Device>, published: map<string, nat>,
                                 created: nat)
  {
    && m.Keys == published.Keys
    && (forall u :: u in m ==> m[u].handle == published[u] && Points(live, created, m[u]))
  }

  ghost predicate BuildingMatch(m: map<string, Construction>, queues: map<nat, Construction>,
                                building: map<string, nat>, started: nat)
  {
    && m.Keys == building.Keys
    && (forall u :: u in m ==>
          && m[u].handle == building[u] && building[u] < started
          && (building[u] in queues ==> queues[building[u]] == m[u]))
  }

  ghost predicate QueuesPoint(queues: map<nat, Construction>, live: map<nat, Device>, created: nat) {
    forall q :: q in queues ==> Points(live, created, queues[q].device)
  }

  lemma SameHandles(live: map<nat, Device>, devices: map<nat, R.Device>, created: nat, repr: set<object>)
    requires DevicesMatch(live, devices, created, repr)
    ensures live.Keys == devices.Keys
    ensures forall d :: d in live ==> d < created && live[d].handle == d && live[d].Value() == devices[d]
  {}

  lemma RecordOf(live: map<nat, Device>, devices: map<nat, R.Device>, created: nat, repr: set<object>, d: nat)
    requires DevicesMatch(live, devices, created, repr) && d in live
    ensures live.Keys == devices.Keys && d < created && live[d].handle == d
    ensures live[d].Valid() && live[d].Within(repr) && live[d].Value() == devices[d]
  {}

  lemma SameChains(queues: map<nat, Construction>, chains: map<nat, R.Chain>, started: nat, repr: set<object>)
    requires ChainsMatch(queues, chains, started, repr)
    ensures queues.Keys == chains.Keys
    ensures forall q :: q in queues ==>
              q < started && queues[q].handle == q && queues[q] in repr && queues[q].Value() == chains[q]
  {}

  lemma PublishedPointer(m: map<string, Device>, live: map<nat, Device>, s: R.State, udn: string)
    requires PublishedMatch(m, live, s.published, s.created)
    ensures m.Keys == s.published.Keys
    ensures udn in m ==> m[udn].handle == s.published[udn] && Points(live, s.created, m[udn])
  {}

  lemma BuildingPointer(m: map<string, Construction>, queues: map<nat, Construction>, live: map<nat, Device>,
                        s: R.State, udn: string)
    requires BuildingMatch(m, queues, s.building, s.started) && QueuesPoint(queues, live, s.created)
    ensures m.Keys == s.building.Keys
    ensures udn in m && s.building[udn] in queues ==>
              m[udn] == queues[s.building[udn]] && Points(live, s.created, m[udn].device)
  {}

  // ----- adding records -----

  lemma Started(s: R.State, udn: string, ip: string, d: nat)
    requires d in s.devices
    ensures R.StartChain(s, udn, ip, d).Ok?
    ensures var t := R.StartChain(s, udn, ip, d).value;
            && t.devices == s.devices && t.published == s.published && t.created == s.created
            && t.chains == s.chains[s.started := R.Chain(udn, ip, d, R.PendingFrom(s.devices[d].step))]
            && t.building == s.building[udn := s.started] && t.started == s.started + 1
  {}

  lemma AddedChain(queues: map<nat, Construction>, chains: map<nat, R.Chain>, started: nat, repr: set<object>,
                   chain: Construction)
    requires ChainsMatch(queues, chains, started, repr) && chain.handle == started
    ensures ChainsMatch(queues[started := chain], chains[started := chain.Value()], started + 1, repr + {chain})
  {}

  lemma AddedBuilding(m: map<string, Construction>, queues: map<nat, Construction>, building: map<string, nat>,
                      started: nat, udn: string, chain: Construction)
    requires BuildingMatch(m, queues, building, started) && chain.handle == started
    ensures BuildingMatch(m[udn := chain], queues[started := chain], building[udn := started], started + 1)
  {}

  lemma AddedPointer(queues: map<nat, Construction>, live: map<nat, Device>, created: nat, q: nat, chain: Construction)
    requires QueuesPoint(queues, live, created) && Points(live, created, chain.device)
    ensures QueuesPoint(queues[q := chain], live, created)
  {}

  lemma AddedDevice(live: map<nat, Device>, devices: map<nat, R.Device>, created: nat, repr: set<object>,
                    device: Device, more: set<object>)
    requires DevicesMatch(live, devices, created, repr) && device.handle == created
    requires device.Valid() && device.Within(more) && repr <= more
    ensures DevicesMatch(live[created := device], devices[created := device.Value()], created + 1, more)
  {}

  lemma AddedPointee(m: map<string, Device>, queues: map<nat, Construction>, live: map<nat, Device>, s: R.State,
                     device: Device)
    requires PublishedMatch(m, live, s.published, s.created) && QueuesPoint(queues, live, s.created)
    requires device.handle == s.created
    ensures PublishedMatch(m, live[s.created := device], s.published, s.created + 1)
    ensures QueuesPoint(queues, live[s.created := device], s.created + 1)
  {}

  lemma MoreDevices(live: map<nat, Device>, devices: map<nat, R.Device>, created: nat, repr: set<object>,
                    more: set<object>)
    requires DevicesMatch(live, devices, created, repr) && repr <= more
    ensures DevicesMatch(live, devices, created, more)
  {}

  lemma MoreChains(queues: map<nat, Construction>, chains: map<nat, R.Chain>, started: nat, repr: set<object>,
                   more: set<object>)
    requires ChainsMatch(queues, chains, started, repr) && repr <= more
    ensures ChainsMatch(queues, chains, started, more)
  {}

  // ----- removing records -----

  lemma RemovedDevice(live: map<nat, Device>, devices: map<nat, R.Device>, created: nat, repr: set<object>, d: nat)
    requires DevicesMatch(live, devices, created, repr)
    ensures DevicesMatch(live - {d}, devices - {d}, created, repr)
  {}

  lemma RemovedPointee(m: map<string, Device>, queues: map<nat, Construction>, live: map<nat, Device>,
                       published: map<string, nat>, created: nat, d: nat)
    requires PublishedMatch(m, live, published, created) && QueuesPoint(queues, live, created)
    ensures PublishedMatch(m, live - {d}, published, created) && QueuesPoint(queues, live - {d}, created)
  {}

  lemma RemovedChain(m: map<string, Construction>, queues: map<nat, Construction>, live: map<nat, Device>,
                     s: R.State, repr: set<object>, q: nat)
    requires ChainsMatch(queues, s.chains, s.started, repr) && BuildingMatch(m, queues, s.building, s.started)
    requires QueuesPoint(queues, live, s.created)
    ensures ChainsMatch(queues - {q}, s.chains - {q}, s.started, repr)
    ensures BuildingMatch(m, queues - {q}, s.building, s.started)
    ensures QueuesPoint(queues - {q}, live, s.created)
  {}

  lemma PublishedMore(m: map<string, Device>, live: map<nat, Device>, published: map<string, nat>, created: nat,
                      udn: string, device: Device)
    requires PublishedMatch(m, live, published, created) && Points(live, created, device)
    ensures PublishedMatch(m[udn := device], live, published[udn := device.handle], created)
  {}

  lemma UnpublishedKeys(objects: map<nat, nat>, ids: seq<nat>)
    ensures R.Unpublish(objects, ids).Keys == objects.Keys - set i | 0 <= i < R.LiveIds(ids) :: ids[i]
  {}

  lemma GrantedKeys(objects: map<nat, nat>, replies: R.Replies, d: nat)
    ensures (objects + R.Granted(replies, d)).Keys == objects.Keys + set i | 0 <= i < R.LiveIds(replies) :: replies[i]
  {}

  lemma Unpublished(m: map<string, Device>, live: map<nat, Device>, published: map<string, nat>, created: nat,
                    udn: string)
    requires PublishedMatch(m, live, published, created)
    ensures PublishedMatch(m - {udn}, live, published - {udn}, created)
  {}

  lemma Unbuilt(m: map<string, Construction>, queues: map<nat, Construction>, building: map<string, nat>,
                started: nat, udn: string)
    requires BuildingMatch(m, queues, building, started)
    ensures BuildingMatch(m - {udn}, queues, building - {udn}, started)
  {}

  // ----- editing a record -----

  /** All live records but one are what the state says. */
  ghost predicate OthersMatch(live: map<nat, Device>, devices: map<nat, R.Device>, created: nat, repr: set<object>,
                              d: nat)
    reads set e | e in live && e != d :: live[e]
    reads set e, i | e in live && e != d && 0 <= i < |live[e].contexts| :: live[e].contexts[i]
  {
    && live.Keys == devices.Keys
    && (forall e :: e in live && e != d ==>
          && e < created && live[e].handle == e && live[e].Within(repr)
          && live[e].Valid() && live[e].Value() == devices[e])
  }

  /** Once record `d` is in order again, all are. */
  lemma PutBack(live: map<nat, Device>, devices: map<nat, R.Device>, created: nat, repr: set<object>, d: nat,
                more: set<object>)
    requires OthersMatch(live, devices, created, repr, d) && d in live && d < created && repr <= more
    requires live[d].handle == d && live[d].Valid() && live[d].Within(more)
    ensures DevicesMatch(live, devices[d := live[d].Value()], created, more)
  {}

  /** All live queues but one are what the state says. */
  ghost predicate OtherQueuesMatch(queues: map<nat, Construction>, chains: map<nat, R.Chain>, started: nat,
                                   repr: set<object>, q: nat)
    reads set r | r in queues && r != q :: queues[r]
  {
    && queues.Keys == chains.Keys
    && (forall r :: r in queues && r != q ==>
          r < started && queues[r].handle == r && queues[r] in repr && queues[r].Value() == chains[r])
  }

  lemma SetQueueApart(queues: map<nat, Construction>, chains: map<nat, R.Chain>, started: nat, repr: set<object>,
                      q: nat)
    requires ChainsMatch(queues, chains, started, repr) && q in queues
    ensures OtherQueuesMatch(queues, chains, started, repr, q)
    ensures q < started && queues[q] in repr && q in chains && queues[q].Value() == chains[q]
    ensures forall r :: r in queues && r != q ==> queues[r] != queues[q]
  {}

  lemma PutQueueBack(queues: map<nat, Construction>, chains: map<nat, R.Chain>, started: nat, repr: set<object>, q: nat)
    requires OtherQueuesMatch(queues, chains, started, repr, q) && q in queues && q < started
    requires queues[q].handle == q && queues[q] in repr
    ensures ChainsMatch(queues, chains[q := queues[q].Value()], started, repr)
  {}

  class Upnp {
    var deviceUdnMap: map<string, Device>
    var deviceUcMap: map<string, Construction>
    var counter: nat

    /** What has been sent to the bus, and the object ids now published there. */
    var signals: seq<R.Signal>
    var objects: set<nat>

    /** What the object stands for, the records now allocated, by handle, and all the records it
        has ever used. */
    ghost var state: R.State
    ghost var live: map<nat, Device>
    ghost var queues: map<nat, Construction>
    ghost var repr: set<object>

    /** The two tables and all records are what the state says. */
    ghost predicate Sound()
      reads `deviceUdnMap, `deviceUcMap, `live, `queues, `state, `repr
      reads set d | d in live :: live[d], set q | q in queues :: queues[q]
      reads set d, i | d in live && 0 <= i < |live[d].contexts| :: live[d].contexts[i]
    {
      && DevicesMatch(live, state.devices, state.created, repr)
      && ChainsMatch(queues, state.chains, state.started, repr)
      && PublishedMatch(deviceUdnMap, live, state.published, state.created)
      && BuildingMatch(deviceUcMap, queues, state.building, state.started)
      && QueuesPoint(queues, live, state.created)
    }

    ghost predicate Valid()
      reads this, set d | d in live :: live[d], set q | q in queues :: queues[q]
      reads set d, i | d in live && 0 <= i < |live[d].contexts| :: live[d].contexts[i]
    {
      && this in repr && Sound()
      && counter == state.created % R.COUNTER_SIZE
      && signals == state.signals && objects == state.objects.Keys
    }

    ghost predicate IsLive(device: Device)
      reads this
    {
      device.handle in live && live[device.handle] == device
    }

    ghost predicate IsQueued(chain: Construction)
      reads this
    {
      chain.handle in queues && queues[chain.handle] == chain
    }

    /** Valid, except for what device `d` has in its fields, and for what is on the bus. */
    ghost predicate ValidBut(d: nat)
      reads `deviceUdnMap, `deviceUcMap, `counter, `live, `queues, `state, `repr
      reads set q | q in queues :: queues[q]
      reads set e | e in live && e != d :: live[e]
      reads set e, i | e in live && e != d && 0 <= i < |live[e].contexts| :: live[e].contexts[i]
    {
      && d in live && live[d].handle == d && d < state.created
      && OthersMatch(live, state.devices, state.created, repr, d)
      && ChainsMatch(queues, state.chains, state.started, repr)
      && PublishedMatch(deviceUdnMap, live, state.published, state.created)
      && BuildingMatch(deviceUcMap, queues, state.building, state.started)
      && QueuesPoint(queues, live, state.created)
      && counter == state.created % R.COUNTER_SIZE
    }

    lemma Record(device: Device)
      requires Valid() && IsLive(device)
      ensures device.handle in state.devices && device.Value() == state.devices[device.handle]
      ensures device.Valid() && device.Within(repr) && device.handle < state.created
    {}

    lemma Queue(chain: Construction)
      requires Valid() && IsQueued(chain)
      ensures chain.handle in state.chains && chain.Value() == state.chains[chain.handle] && chain in repr
      ensures chain.device.handle in state.devices ==> IsLive(chain.device)
    {}

    /** Before editing a device record: nothing else depends on its fields. */
    lemma Open(device: Device)
      requires Valid() && IsLive(device)
      ensures ValidBut(device.handle) && device.Valid() && device.Within(repr)
      ensures device.handle in state.devices && device.Value() == state.devices[device.handle]
      ensures forall e :: e in live && e != device.handle ==> live[e] != device
      ensures forall e, i, j ::
                (e in live && e != device.handle && 0 <= i < |live[e].contexts| && 0 <= j < |device.contexts|) ==>
                live[e].contexts[i] != device.contexts[j]
    {}

    /** After editing it: the state is told, and everything is in order again. */
    ghost method Close(device: Device, t: R.State, more: set<object>)
      requires this in repr && ValidBut(device.handle) && IsLive(device)
      requires device.Valid() && device.Within(more) && repr <= more
      requires t.devices == state.devices[device.handle := device.Value()] && t.chains == state.chains
      requires t.published == state.published && t.building == state.building
      requires t.created == state.created && t.started == state.started
      requires signals == t.signals && objects == t.objects.Keys
      modifies this`state, this`repr
      ensures Valid() && state == t && repr == more
    {
      hide DevicesMatch, OthersMatch, ChainsMatch, PublishedMatch, BuildingMatch, QueuesPoint,
           Device.Valid, Device.Within, Device.Value;
      PutBack(live, state.devices, state.created, repr, device.handle, more);
      MoreChains(queues, state.chains, state.started, repr, more);
      state, repr := t, more;
    }

    constructor ()
      ensures Valid() && state == R.INIT && fresh(repr)
    {
      deviceUdnMap, deviceUcMap, counter, signals, objects := map[], map[], 0, [], {};
      live, queues, state, repr := map[], map[], R.INIT, {this};
    }

    // ----- allocating and freeing records -----

    ghost method Retire(d: nat)
      requires Sound() && d in state.devices
      modifies this`live, this`state
      ensures Sound() && R.DeleteDevice(old(state), d) == Ok(state) && live == old(live) - {d}
    {
      hide DevicesMatch, ChainsMatch, PublishedMatch, BuildingMatch, QueuesPoint, R.Unpublish, R.Emit;
      RemovedDevice(live, state.devices, state.created, repr, d);
      RemovedPointee(deviceUdnMap, queues, live, state.published, state.created, d);
      state := R.DeleteDevice(state, d).value;
      live := live - {d};
    }

    /** Frees a device record: its timer, its objects on the bus and its contexts. */
    method DeleteDevice(device: Device)
      requires Valid() && IsLive(device)
      modifies this`live, this`state, this`objects
      ensures Valid() && R.DeleteDevice(old(state), device.handle) == Ok(state)
      ensures live == old(live) - {device.handle}
    {
      hide Sound, Device.Within, R.Unpublish, R.Emit;
      Record(device);
      var gone := device.UnpublishInterfaces();
      UnpublishedKeys(state.objects, device.ids);
      objects := objects - gone;
      Retire(device.handle);
    }

    method FreeChain(chain: Construction)
      requires Valid() && IsQueued(chain)
      modifies this`queues, this`state
      ensures Valid() && R.FreeChain(old(state), chain.handle) == Ok(state)
      ensures queues == old(queues) - {chain.handle}
    {
      hide DevicesMatch, ChainsMatch, PublishedMatch, BuildingMatch, QueuesPoint, Points;
      SameChains(queues, state.chains, state.started, repr);
      RemovedChain(deviceUcMap, queues, live, state, repr, chain.handle);
      state := R.FreeChain(state, chain.handle).value;
      queues := queues - {chain.handle};
    }

    /** Enters a construction record under its UDN, where it replaces nothing. */
    method EnterBuilding(chain: Construction, udn: string, ip: string)
      requires Sound() && IsLive(chain.device) && udn !in state.building && chain.handle == state.started
      requires chain.device.handle in state.devices && chain.device.handle < state.created
      requires chain.Value() ==
               R.Chain(udn, ip, chain.device.handle, R.PendingFrom(state.devices[chain.device.handle].step))
      modifies this`deviceUcMap, this`queues, this`state, this`repr
      ensures Sound() && R.StartChain(old(state), udn, ip, chain.device.handle) == Ok(state)
      ensures repr == old(repr) + {chain}
    {
      hide DevicesMatch, ChainsMatch, PublishedMatch, BuildingMatch, QueuesPoint, Construction.Value,
           R.StartChain, R.PendingFrom;
      Started(state, udn, ip, chain.device.handle);
      AddedChain(queues, state.chains, state.started, repr, chain);
      AddedBuilding(deviceUcMap, queues, state.building, state.started, udn, chain);
      AddedPointer(queues, live, state.created, state.started, chain);
      MoreDevices(live, state.devices, state.created, repr, repr + {chain});
      deviceUcMap := deviceUcMap[udn := chain];
      queues := queues[state.started := chain];
      state := R.StartChain(state, udn, ip, chain.device.handle).value;
      repr := repr + {chain};
    }

    /** Allocates a construction record and its queue, enters it in the table and queues the tasks
        still needed. */
    method StartChain(udn: string, ip: string, device: Device)
      requires Valid() && IsLive(device) && udn !in state.building
      modifies this`deviceUcMap, this`queues, this`state, this`repr
      ensures Valid() && R.StartChain(old(state), udn, ip, device.handle) == Ok(state)
      ensures fresh(repr - old(repr))
    {
      hide Sound, Values, Device.Valid, Device.Within, Construction.Value, R.PendingFrom;
      Record(device);
      var chain := new Construction(state.started, udn, ip, device);
      EnterBuilding(chain, udn, ip);
    }

    ghost method Enroll(device: Device, more: set<object>)
      requires Sound() && device.handle == state.created
      requires device.Valid() && device.Within(more) && repr <= more
      modifies this`live, this`state, this`repr
      ensures Sound() && IsLive(device) && repr == more
      ensures state == old(state).(devices := old(state).devices[device.handle := device.Value()],
                                   created := device.handle + 1,
                                   log := R.Emit(old(state).log, R.Created(device.handle)))
    {
      hide DevicesMatch, ChainsMatch, PublishedMatch, BuildingMatch, QueuesPoint, Device.Valid, Device.Within,
           Device.Value, R.Emit;
      AddedDevice(live, state.devices, state.created, repr, device, more);
      AddedPointee(deviceUdnMap, queues, live, state, device);
      MoreChains(queues, state.chains, state.started, repr, more);
      live, repr := live[state.created := device], more;
      state := state.(devices := state.devices[state.created := device.Value()],
                      created := state.created + 1,
                      log := R.Emit(state.log, R.Created(state.created)));
    }

    method AllocateDevice(ip: string, udn: string) returns (device: Device)
      requires Valid()
      modifies this`live, this`counter, this`state, this`repr
      ensures Valid() && IsLive(device) && device.handle == old(state).created
      ensures fresh(repr - old(repr))
      ensures var d := old(state).created;
              state == old(state).(devices := old(state).devices[d := R.NewDevice(d, udn, ip)],
                                   created := d + 1,
                                   log := R.Emit(old(state).log, R.Created(d)))
    {
      hide Sound, Device.Value, R.NewDevice, R.Emit;
      device := new Device(state.created, udn, counter, ip);
      Enroll(device, repr + {device, device.contexts[0]});
      counter := (counter + 1) % R.COUNTER_SIZE;
    }

    // ----- the ends of a construction -----

    /** Takes a UDN out of the table of devices under construction. */
    method ForgetBuilding(udn: string)
      requires Valid()
      modifies this`deviceUcMap, this`state
      ensures Valid() && state == old(state).(building := old(state).building - {udn})
    {
      hide DevicesMatch, ChainsMatch, PublishedMatch, BuildingMatch, QueuesPoint, Points;
      Unbuilt(deviceUcMap, queues, state.building, state.started, udn);
      deviceUcMap := deviceUcMap - {udn};
      state := state.(building := state.building - {udn});
    }

    /** Enters a completed device in the table and announces it. Inserting over an entry would
        free the device it holds; no caller does. */
    method Publish(chain: Construction)
      requires Valid() && IsQueued(chain) && IsLive(chain.device) && chain.udn !in state.published
      modifies this`deviceUdnMap, this`state, this`signals
      ensures Valid()
      ensures var d := chain.device.handle;
              && d in old(state).devices
              && state == old(state).(published := old(state).published[chain.udn := d],
                                      log := R.Emit(old(state).log, R.Found(d)),
                                      signals := old(state).signals + [R.FoundDevice(old(state).devices[d].path)])
    {
      hide DevicesMatch, ChainsMatch, PublishedMatch, BuildingMatch, QueuesPoint, Values, Device.Valid,
           Device.Within, R.Emit;
      Record(chain.device);
      RecordOf(live, state.devices, state.created, repr, chain.device.handle);
      PublishedMore(deviceUdnMap, live, state.published, state.created, chain.udn, chain.device);
      deviceUdnMap := deviceUdnMap[chain.udn := chain.device];
      signals := signals + [R.FoundDevice(chain.device.path)];
      state := state.(published := state.published[chain.udn := chain.device.handle],
                      log := R.Emit(state.log, R.Found(chain.device.handle)),
                      signals := signals);
    }

    /** The queue's `finally` callback. */
    method OnChainEnd(chain: Construction, cancelled: bool)
      requires Valid() && IsQueued(chain) && IsLive(chain.device)
      requires cancelled || chain.udn !in state.published
      modifies this
      ensures Valid() && R.EndChain(old(state), chain.handle, cancelled) == Ok(state)
      ensures repr == old(repr)
    {
      hide DevicesMatch, ChainsMatch, PublishedMatch, BuildingMatch, QueuesPoint, Points, Values, Device.Valid,
           Device.Within, Device.Value, R.Emit, R.DeleteDevice;
      Record(chain.device);
      Queue(chain);
      var device := chain.device;
      if !cancelled { Publish(chain); }
      ForgetBuilding(chain.udn);
      FreeChain(chain);
      if cancelled { DeleteDevice(device); }
    }

    /** Gives the construction up on its context and restarts it on the preferred one. */
    method SwitchContext(chain: Construction, udn: string)
      requires Valid() && IsQueued(chain) && IsLive(chain.device) && chain.device.contexts != [] && chain.udn == udn
      modifies this
      ensures Valid() && R.SwitchChain(old(state), udn, chain.handle) == Ok(state)
      ensures fresh(repr - old(repr))
    {
      hide DevicesMatch, ChainsMatch, PublishedMatch, BuildingMatch, QueuesPoint, Points, Device.Valid,
           Device.Within, R.Emit, R.StartChain, C.Preferred;
      Record(chain.device);
      Queue(chain);
      ForgetBuilding(chain.udn);
      FreeChain(chain);
      var context := chain.device.GetContext();
      StartChain(udn, context.ip, chain.device);
    }

    // ----- announcements -----

    /** The device known under a UDN, and its construction record when it is not published yet. */
    method FindDevice(udn: string) returns (device: Device?, chain: Construction?)
      requires Valid() && I.Inv(state)
      ensures device == null ==> chain == null && R.Lookup(state, udn) == Ok(None)
      ensures device != null ==> IsLive(device) && R.Lookup(state, udn) == Ok(Some(device.handle))
      ensures chain == null <==> udn in state.published || udn !in state.building
      ensures chain != null ==> IsQueued(chain) && chain.device == device && chain.udn == udn
      ensures chain != null ==> state.building[udn] == chain.handle
    {
      hide DevicesMatch, ChainsMatch, PublishedMatch, BuildingMatch, QueuesPoint, I.InvBut;
      I.LinkedOf(state);
      SameHandles(live, state.devices, state.created, repr);
      SameChains(queues, state.chains, state.started, repr);
      PublishedPointer(deviceUdnMap, live, state, udn);
      BuildingPointer(deviceUcMap, queues, live, state, udn);
      device, chain := null, null;
      if udn in deviceUdnMap {
        device := deviceUdnMap[udn];
        I.PublishedOf(state, udn);
      } else if udn in deviceUcMap {
        chain := deviceUcMap[udn];
        device := chain.device;
        I.BuildingOf(state, udn);
      }
    }

    method CreateDevice(ip: string, udn: string)
      requires Valid() && udn !in state.building
      modifies this
      ensures Valid() && R.CreateDevice(old(state), ip, udn) == Ok(state)
      ensures fresh(repr - old(repr))
    {
      hide DevicesMatch, ChainsMatch, PublishedMatch, BuildingMatch, QueuesPoint, R.NewDevice, R.Emit, R.StartChain;
      var device := AllocateDevice(ip, udn);
      StartChain(udn, ip, device);
    }

    method AddContext(device: Device, ip: string)
      requires Valid() && IsLive(device) && C.IndexOfIp(Values(device.contexts), ip) == |device.contexts|
      modifies this`state, this`repr, device, device.contexts
      ensures Valid() && R.AddContext(old(state), device.handle, ip) == Ok(state)
      ensures fresh(repr - old(repr))
    {
      hide ValidBut, C.Append, C.IndexOfIp, R.ReleaseMoved, DevicesMatch, ChainsMatch, PublishedMatch,
           BuildingMatch, QueuesPoint;
      Open(device);
      ghost var loss := R.ReleaseMoved(state.lossSources, device.handle,
                                       Values(device.contexts) + [C.Context(ip, false, false)]);
      device.AppendNewContext(ip);
      Close(device, state.(devices := state.devices[device.handle := device.Value()], lossSources := loss),
            repr + {device.contexts[|device.contexts| - 1]});
    }

    method AddDevice(ip: string, udn: string)
      requires Valid() && I.Inv(state)
      modifies repr
      ensures Valid() && I.Inv(state) && R.AddDevice(old(state), ip, udn) == Ok(state)
      ensures fresh(repr - old(repr))
    {
      hide DevicesMatch, ChainsMatch, PublishedMatch, BuildingMatch, QueuesPoint, Device.Valid, I.InvBut,
           R.CreateDevice, C.Append;
      I.AddKeeps(state, ip, udn);
      var device, _ := FindDevice(udn);
      if device == null {
        CreateDevice(ip, udn);
      } else {
        Record(device);
        var i := device.FindContext(ip);
        if i == |device.contexts| { AddContext(device, ip); }
      }
    }

    // ----- withdrawals -----

    /** The last context of a published device is gone. */
    method LoseDevice(device: Device, udn: string)
      requires Valid() && IsLive(device)
      modifies this
      ensures Valid() && R.LoseDevice(old(state), udn, device.handle) == Ok(state)
      ensures repr == old(repr)
    {
      hide DevicesMatch, ChainsMatch, PublishedMatch, BuildingMatch, QueuesPoint, Points, Values,
           Device.Within, R.Emit, R.DeleteDevice;
      Record(device);
      signals := signals + [R.LostDevice(device.path)];
      Unpublished(deviceUdnMap, live, state.published, state.created, udn);
      deviceUdnMap := deviceUdnMap - {udn};
      state := state.(published := state.published - {udn}, log := R.Emit(state.log, R.Lost(device.handle)),
                      signals := signals);
      DeleteDevice(device);
    }

    /** Takes one context out of a device record. */
    method TakeContext(device: Device, i: nat, ghost exposed: bool)
      requires Valid() && IsLive(device) && i < |device.contexts|
      modifies this`state, this`repr, device, device.contexts
      ensures Valid() && repr == old(repr)
      ensures var d := device.handle;
              && d in old(state).devices
              && i < |old(state).devices[d].contexts|
              && state == old(state).(devices := old(state).devices[d := old(state).devices[d].(
                   contexts := C.RemoveAt(old(state).devices[d].contexts, i), exposed := exposed)],
                 lossSources := R.Release(old(state).lossSources, d, old(state).devices[d].contexts[i]))
    {
      hide ValidBut, C.RemoveAt, DevicesMatch, ChainsMatch, PublishedMatch, BuildingMatch, QueuesPoint;
      Open(device);
      ghost var loss := R.Release(state.lossSources, device.handle, device.contexts[i].Value());
      device.RemoveContext(i);
      device.exposed := exposed;
      Close(device, state.(devices := state.devices[device.handle := device.Value()], lossSources := loss), repr);
    }

    method ArmTimer(device: Device)
      requires Valid() && IsLive(device)
      modifies this`state, this`repr, device
      ensures Valid() && R.ArmTimer(old(state), device.handle) == Ok(state)
      ensures repr == old(repr)
    {
      hide ValidBut, DevicesMatch, ChainsMatch, PublishedMatch, BuildingMatch, QueuesPoint;
      Open(device);
      device.timer := true;
      Close(device, state.(devices := state.devices[device.handle := device.Value()],
                           sources := state.sources + {device.handle}), repr);
    }

    /** What a removal does once the device and the context to remove are known. */
    method DropContext(device: Device, chain: Construction?, udn: string, i: nat)
      requires Valid() && IsLive(device) && i < |device.contexts|
      requires chain != null ==> IsQueued(chain) && chain.device == device && chain.udn == udn
      modifies repr
      ensures Valid() && fresh(repr - old(repr))
      ensures var q := if chain == null then None else Some(chain.handle);
              && device.handle in old(state).devices && i < |old(state).devices[device.handle].contexts|
              && (chain != null ==> chain.handle in old(state).chains)
              && R.DropContext(old(state), udn, device.handle, q, i) == Ok(state)
    {
      hide DevicesMatch, ChainsMatch, PublishedMatch, BuildingMatch, QueuesPoint, Device.Valid,
           R.LoseDevice, R.EndChain, R.SwitchChain;
      Record(device);
      if chain != null { Queue(chain); }
      var context := device.contexts[i];
      var subscribed := context.subscribed;
      var constructionContext := chain != null && context.ip == chain.ip;
      ghost var uncovered := constructionContext && |device.contexts| > 1 && subscribed && !device.timer;
      TakeContext(device, i, device.exposed || uncovered);
      Record(device);
      if device.contexts == [] {
        if chain == null { LoseDevice(device, udn); } else { OnChainEnd(chain, true); }
      } else if constructionContext {
        SwitchContext(chain, udn);
      } else if subscribed && !device.timer {
        ArmTimer(device);
      }
    }

    method RemoveDevice(ip: string, udn: string)
      requires Valid() && I.Inv(state)
      modifies repr
      ensures Valid() && I.Inv(state) && R.RemoveDevice(old(state), ip, udn) == Ok(state)
      ensures fresh(repr - old(repr))
    {
      hide DevicesMatch, ChainsMatch, PublishedMatch, BuildingMatch, QueuesPoint, Device.Valid, I.InvBut, R.DropContext;
      I.RemoveKeeps(state, ip, udn);
      var device, chain := FindDevice(udn);
      if device != null {
        Record(device);
        var i := device.FindContext(ip);
        if i < |device.contexts| { DropContext(device, chain, udn, i); }
      }
    }

    // ----- device trees -----

    method AddSubDevice(udn: Option<string>, ip: string)
      requires Valid() && I.Inv(state)
      modifies repr
      ensures Valid() && I.Inv(state) && R.Visit(old(state), true, ip, udn) == Ok(state)
      ensures fresh(repr - old(repr))
    {
      hide Valid, I.Inv, R.AddDevice;
      if udn.Some? { AddDevice(ip, udn.value); }
    }

    method RemoveSubDevice(udn: Option<string>, ip: string)
      requires Valid() && I.Inv(state)
      modifies repr
      ensures Valid() && I.Inv(state) && R.Visit(old(state), false, ip, udn) == Ok(state)
      ensures fresh(repr - old(repr))
    {
      hide Valid, I.Inv, R.RemoveDevice;
      if udn.Some? { RemoveDevice(ip, udn.value); }
    }

    method AddSubDevices(info: DeviceInfo, ip: string) returns (service: Option<string>)
      requires Valid() && I.Inv(state)
      modifies repr
      ensures Valid() && I.Inv(state) && R.WalkBelow(old(state), true, ip, info) == Ok((state, service))
      ensures fresh(repr - old(repr))
      decreases info
    {
      hide Valid, I.Inv, R.Visit;
      service := None;
      var next := 0;
      while next < |info.children|
        invariant 0 <= next <= |info.children|
        invariant Valid() && I.Inv(state) && fresh(repr - old(repr))
        invariant R.WalkChildren(state, true, ip, info.children[next..], service)
               == R.WalkBelow(old(state), true, ip, info)
      {
        var child := info.children[next];
        assert info.children[next..][1..] == info.children[next + 1..];
        service := child.service;
        if service != None { AddSubDevice(child.udn, ip); }
        service := AddSubDevices(child, ip);
        if service != None { AddSubDevice(child.udn, ip); }
        next := next + 1;
      }
    }

    method RemoveSubDevices(info: DeviceInfo, ip: string) returns (service: Option<string>)
      requires Valid() && I.Inv(state)
      modifies repr
      ensures Valid() && I.Inv(state) && R.WalkBelow(old(state), false, ip, info) == Ok((state, service))
      ensures fresh(repr - old(repr))
      decreases info
    {
      hide Valid, I.Inv, R.Visit;
      service := None;
      var next := 0;
      while next < |info.children|
        invariant 0 <= next <= |info.children|
        invariant Valid() && I.Inv(state) && fresh(repr - old(repr))
        invariant R.WalkChildren(state, false, ip, info.children[next..], service)
               == R.WalkBelow(old(state), false, ip, info)
      {
        var child := info.children[next];
        assert info.children[next..][1..] == info.children[next + 1..];
        service := child.service;
        if service != None { RemoveSubDevice(child.udn, ip); }
        service := RemoveSubDevices(child, ip);
        if service != None { RemoveSubDevice(child.udn, ip); }
        next := next + 1;
      }
    }

    method OnDeviceAvailable(info: DeviceInfo, ip: Option<string>)
      requires Valid() && I.Inv(state)
      modifies repr
      ensures Valid() && I.Inv(state) && R.Step(old(state), R.Announced(info, ip)) == Ok(state)
      ensures fresh(repr - old(repr))
    {
      hide Valid, I.Inv, R.AddDevice, R.WalkBelow;
      if info.udn.Some? && ip.Some? {
        if info.service.Some? { AddDevice(ip.value, info.udn.value); }
        var _ := AddSubDevices(info, ip.value);
      }
    }

    method OnDeviceUnavailable(info: DeviceInfo, ip: Option<string>)
      requires Valid() && I.Inv(state)
      modifies repr
      ensures Valid() && I.Inv(state) && R.Step(old(state), R.Withdrawn(info, ip)) == Ok(state)
      ensures fresh(repr - old(repr))
    {
      hide Valid, I.Inv, R.RemoveDevice, R.WalkBelow;
      if info.udn.Some? && ip.Some? {
        var _ := RemoveSubDevices(info, ip.value);
        RemoveDevice(ip.value, info.udn.value);
      }
    }

    // ----- construction -----

    /** Takes the next task off a construction queue. */
    method NextTask(chain: Construction) returns (task: R.Task)
      requires Valid() && IsQueued(chain) && chain.pending != []
      modifies this`state, chain
      ensures Valid() && task == old(chain.pending[0])
      ensures var q := chain.handle;
              && q in old(state).chains && old(state).chains[q].pending == old(chain.pending)
              && state == old(state).(chains := old(state).chains[q := old(state).chains[q].(
                   pending := old(state).chains[q].pending[1..])])
    {
      hide DevicesMatch, ChainsMatch, OtherQueuesMatch, PublishedMatch, BuildingMatch, QueuesPoint;
      SetQueueApart(queues, state.chains, state.started, repr, chain.handle);
      task := chain.pending[0];
      chain.pending := chain.pending[1..];
      PutQueueBack(queues, state.chains, state.started, repr, chain.handle);
      state := state.(chains := state.chains[chain.handle := chain.Value()]);
    }

    method RunSubscribe(device: Device)
      requires Valid() && IsLive(device) && device.contexts != []
      modifies this`state, this`repr, device, device.contexts
      ensures Valid() && repr == old(repr)
      ensures var d := device.handle;
              && d in old(state).devices && old(state).devices[d].contexts != []
              && state == old(state).(
                   devices := old(state).devices[d := old(state).devices[d].(
                     step := old(state).devices[d].step + 1,
                     contexts := C.MoveSubscription(old(state).devices[d].contexts),
                     exposed := false)],
                   lossSources := R.ReleaseMoved(old(state).lossSources, d, old(state).devices[d].contexts),
                   log := R.Emit(old(state).log, R.Ran(d, R.Subscribe)))
    {
      hide ValidBut, DevicesMatch, ChainsMatch, PublishedMatch, BuildingMatch, QueuesPoint, C.MoveSubscription,
           R.ReleaseMoved, R.Emit;
      Open(device);
      ghost var loss := R.ReleaseMoved(state.lossSources, device.handle, Values(device.contexts));
      device.step := device.step + 1;
      device.SubscribeContext();
      device.exposed := false;
      Close(device, state.(devices := state.devices[device.handle := device.Value()], lossSources := loss,
                           log := R.Emit(state.log, R.Ran(device.handle, R.Subscribe))), repr);
    }

    method RunDeclare(device: Device, replies: R.Replies) returns (failed: bool)
      requires Valid() && IsLive(device)
      modifies this`state, this`repr, this`objects, device
      ensures Valid() && repr == old(repr)
      ensures failed <==> R.LiveIds(replies) < |replies|
      ensures var d := device.handle;
              && d in old(state).devices && |old(state).devices[d].ids| == R.INTERFACES
              && state == old(state).(
                   devices := old(state).devices[d := old(state).devices[d].(
                     step := old(state).devices[d].step + 1,
                     ids := R.DeclaredIds(old(state).devices[d].ids, replies))],
                   objects := old(state).objects + R.Granted(replies, d),
                   log := R.Emit(old(state).log, R.Ran(d, R.Declare)))
    {
      hide ValidBut, DevicesMatch, ChainsMatch, PublishedMatch, BuildingMatch, QueuesPoint, R.DeclaredIds,
           R.Granted, R.Emit;
      Open(device);
      device.step := device.step + 1;
      var granted: set<nat>;
      failed, granted := device.PublishInterfaces(replies);
      objects := objects + granted;
      GrantedKeys(state.objects, replies, device.handle);
      Close(device, state.(devices := state.devices[device.handle := device.Value()],
                           objects := state.objects + R.Granted(replies, device.handle),
                           log := R.Emit(state.log, R.Ran(device.handle, R.Declare))), repr);
    }

    /** Runs the next task of a construction queue. A task that fails ends the queue. */
    method RunTask(chain: Construction, replies: R.Replies)
      requires Valid() && IsQueued(chain) && IsLive(chain.device) && chain.pending != [] && chain.device.contexts != []
      modifies repr
      ensures Valid() && repr == old(repr)
      ensures var q := chain.handle;
              && q in old(state).chains && old(state).chains[q].pending == old(chain.pending)
              && (if old(chain.pending)[0] == R.Subscribe then R.RunSubscribe(old(state), q)
                  else R.RunDeclare(old(state), q, replies)) == Ok(state)
    {
      hide Sound, Device.Valid, R.EndChain, R.Emit, C.MoveSubscription, R.DeclaredIds, R.Granted;
      Queue(chain);
      Record(chain.device);
      var task := NextTask(chain);
      if task == R.Subscribe {
        RunSubscribe(chain.device);
      } else {
        var failed := RunDeclare(chain.device, replies);
        if failed { OnChainEnd(chain, true); }
      }
    }

    /** One turn of a construction queue: its next task, or its end when none is left. */
    method OnTurn(chain: Construction, replies: R.Replies)
      requires Valid() && I.Inv(state) && IsQueued(chain)
      requires R.FreshReplies(state, R.TaskTurn(chain.handle, replies))
      modifies repr
      ensures Valid() && I.Inv(state)
      ensures R.Step(old(state), R.TaskTurn(chain.handle, replies)) == Ok(state)
      ensures repr == old(repr)
    {
      hide Sound, Device.Valid, I.Inv, R.EndChain, R.RunSubscribe, R.RunDeclare, R.FreshReplies;
      I.TurnKeeps(state, chain.handle, replies);
      Queue(chain);
      I.ChainOf(state, chain.handle);
      Record(chain.device);
      if chain.pending == [] { OnChainEnd(chain, false); } else { RunTask(chain, replies); }
    }

    // ----- timers and losses -----

    method OnResubscribeTimer(device: Device)
      requires Valid() && I.Inv(state) && IsLive(device) && device.handle in state.sources
      modifies repr
      ensures Valid() && I.Inv(state) && R.FireTimer(old(state), device.handle) == Ok(state)
      ensures repr == old(repr)
    {
      hide ValidBut, Sound, I.InvBut, C.SubscribePreferred;
      I.TimerKeeps(state, device.handle);
      Open(device);
      device.timer := false;
      device.SubscribeToServiceChanges();
      device.exposed := false;
      Close(device, state.(devices := state.devices[device.handle := device.Value()],
                           sources := state.sources - {device.handle}), repr);
    }

    method OnSubscriptionLost(device: Device, i: nat)
      requires Valid() && I.Inv(state) && IsLive(device) && i < |device.contexts|
      modifies repr
      ensures Valid() && I.Inv(state) && R.ReportLoss(old(state), device.handle, i) == Ok(state)
      ensures repr == old(repr)
    {
      hide ValidBut, Sound, I.InvBut, C.LoseSubscription;
      I.LossKeeps(state, device.handle, i);
      Open(device);
      var context := device.contexts[i];
      ghost var values := Values(device.contexts);
      ghost var key := (device.handle, context.ip);
      ghost var loss := if context.lossTimer then state.lossSources - {key} else state.lossSources + {key};
      device.exposed := device.exposed || (context.subscribed && context.lossTimer && !device.timer);
      context.OnSubscriptionLost();
      assert Values(device.contexts) == values[i := C.LoseSubscription(values[i])];
      Close(device, state.(devices := state.devices[device.handle := device.Value()], lossSources := loss), repr);
    }

    method OnLossTimer(device: Device, i: nat)
      requires Valid() && I.Inv(state) && IsLive(device) && i < |device.contexts|
      requires (device.handle, device.contexts[i].ip) in state.lossSources
      modifies repr
      ensures Valid() && I.Inv(state)
      ensures R.FireLossTimer(old(state), device.handle, old(device.contexts[i].ip)) == Ok(state)
      ensures repr == old(repr)
    {
      hide ValidBut, Sound, I.InvBut;
      ghost var ip := device.contexts[i].ip;
      I.LossTimerKeeps(state, device.handle, ip);
      I.DeviceOf(state, device.handle);
      Open(device);
      ghost var values := Values(device.contexts);
      assert C.IndexOfIp(values, ip) == i;
      device.contexts[i].OnLossTimer();
      assert Values(device.contexts) == values[i := values[i].(lossTimer := false)];
      Close(device, state.(devices := state.devices[device.handle := device.Value()],
                           lossSources := state.lossSources - {(device.handle, ip)}), repr);
    }

    // ----- client requests -----

    lemma Published(udn: string)
      requires Valid() && I.Inv(state)
      ensures deviceUdnMap.Keys == state.published.Keys
      ensures udn in deviceUdnMap ==>
                && IsLive(deviceUdnMap[udn]) && state.published[udn] == deviceUdnMap[udn].handle
                && state.published[udn] in state.devices
                && state.devices[state.published[udn]].path == deviceUdnMap[udn].path
    {}

    lemma SamePaths(path: string)
      requires Valid() && I.Inv(state)
      ensures path in P.DeviceIds(state) <==> exists udn :: udn in deviceUdnMap && deviceUdnMap[udn].path == path
    {}

    /** The paths of the published devices, in whatever order the table is walked. */
    method GetDeviceIds() returns (paths: seq<string>)
      requires Valid() && I.Inv(state)
      ensures |paths| == |state.published|
      ensures forall path :: path in paths <==> path in P.DeviceIds(state)
    {
      hide Valid, I.Inv, P.DeviceIds;
      Published("");
      paths := [];
      var rest := deviceUdnMap.Keys;
      while rest != {}
        invariant rest <= deviceUdnMap.Keys && |paths| + |rest| == |deviceUdnMap.Keys|
        invariant forall path :: path in paths <==>
                    exists udn :: udn in deviceUdnMap && udn !in rest && deviceUdnMap[udn].path == path
      {
        var udn :| udn in rest;
        paths := paths + [deviceUdnMap[udn].path];
        rest := rest - {udn};
      }
      forall path ensures path in paths <==> path in P.DeviceIds(state) { SamePaths(path); }
    }

    /** The device with a path. It is the only one, so that the order in which the table is walked
        does not matter, exactly when no other published device is numbered 2^32 apart. */
    method DeviceFromPath(path: string) returns (device: Device?)
      requires Valid() && I.Inv(state)
      ensures device == null <==> path !in P.DeviceIds(state)
      ensures device != null ==> IsLive(device) && device.path == path
      ensures device != null ==> exists udn :: udn in deviceUdnMap && deviceUdnMap[udn] == device
      ensures B.Reachable(state) ==>
                forall udn :: udn in deviceUdnMap && deviceUdnMap[udn].path == path && P.OnlyCarrier(state, udn) ==>
                  device == deviceUdnMap[udn]
    {
      hide Valid, I.Inv, P.DeviceIds, B.Reachable;
      SamePaths(path);
      device := null;
      var rest := deviceUdnMap.Keys;
      while rest != {} && device == null
        invariant rest <= deviceUdnMap.Keys
        invariant device == null ==>
                    forall udn :: udn in deviceUdnMap && udn !in rest ==> deviceUdnMap[udn].path != path
        invariant device != null ==> device.path == path
        invariant device != null ==> exists udn :: udn in deviceUdnMap && deviceUdnMap[udn] == device
        decreases |rest|
      {
        var udn :| udn in rest;
        if deviceUdnMap[udn].path == path { device := deviceUdnMap[udn]; }
        rest := rest - {udn};
      }
      if device != null {
        ghost var u :| u in deviceUdnMap && deviceUdnMap[u] == device;
        Published(u);
        forall udn | B.Reachable(state) && udn in deviceUdnMap && deviceUdnMap[udn].path == path
                     && P.OnlyCarrier(state, udn)
          ensures device == deviceUdnMap[udn]
        {
          Published(udn);
          P.LivePathsDistinct(state, device.handle, deviceUdnMap[udn].handle);
        }
      }
    }

    /** A client operation starts on the preferred context of the device it names. */
    method BeginAction(path: string) returns (context: Context?)
      requires Valid() && I.Inv(state)
      ensures context == null <==> path !in P.DeviceIds(state)
      ensures context != null ==>
                && IsLive(context.device) && context.device.path == path && context.device.contexts != []
                && context == context.device.contexts[C.Preferred(Values(context.device.contexts))]
    {
      hide Sound, I.InvBut, P.DeviceIds, B.Reachable;
      context := null;
      var device := DeviceFromPath(path);
      if device != null {
        Record(device);
        I.DeviceOf(state, device.handle);
        context := device.GetContext();
      }
    }
  }
}
