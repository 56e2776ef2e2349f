/** The joint invariant of the registry and its preservation by every primitive operation.
    Preservation includes absence of faults: no stale pointer is followed, nothing is freed twice
    and no context array is indexed out of range. */
module Invariant {
  import opened Wrappers
  import opened Registry
  import Contexts

  /** A subscription is held, or a timer is armed that will take one. */
  predicate Covered(dev: Device) {
    Contexts.HasSubscription(dev.contexts) || dev.timer
  }

  predicate AllZero(ids: seq<nat>) {
    forall i :: 0 <= i < |ids| ==> ids[i] == 0
  }

  predicate AllNonZero(ids: seq<nat>) {
    forall i :: 0 <= i < |ids| ==> ids[i] != 0
  }

  /** The shape on which delete's stop-at-first-zero loop misses nothing. */
  predicate NonZeroPrefix(ids: seq<nat>) {
    forall i :: LiveIds(ids) <= i < |ids| ==> ids[i] == 0
  }

  predicate DeviceOk(dev: Device) {
    && Contexts.Valid(dev.contexts)
    && |dev.ids| == INTERFACES
    && dev.step <= 2
    && (dev.step < 2 ==> AllZero(dev.ids))
    && (dev.step == 2 ==> AllNonZero(dev.ids))
    && (dev.step >= 1 ==> (Covered(dev) <==> !dev.exposed))
  }

  /** Published under its own UDN, or the device of the chain building that UDN. */
  predicate Owned(s: State, d: nat)
    requires d in s.devices
  {
    var u := s.devices[d].udn;
    || (u in s.published && s.published[u] == d)
    || (u in s.building && s.building[u] in s.chains && s.chains[s.building[u]].device == d)
  }

  predicate ChainLinked(s: State, q: nat)
    requires q in s.chains
  {
    var c := s.chains[q];
    && q < s.started
    && c.udn in s.building && s.building[c.udn] == q
    && c.device in s.devices && s.devices[c.device].udn == c.udn
  }

  predicate Linked(s: State) {
    && (forall u :: u in s.published ==>
          s.published[u] in s.devices && s.devices[s.published[u]].udn == u && u !in s.building)
    && (forall u :: u in s.building ==> s.building[u] in s.chains && s.chains[s.building[u]].udn == u)
    && (forall q :: q in s.chains ==> ChainLinked(s, q))
    && (forall d :: d in s.devices ==> d < s.created && Owned(s, d))
  }

  /** The published objects are exactly the non-zero ids of the live devices. */
  predicate ObjectsOk(s: State) {
    && (forall o :: o in s.objects ==> o != 0 && s.objects[o] in s.devices && o in s.devices[s.objects[o]].ids)
    && (forall d, i :: d in s.devices && 0 <= i < |s.devices[d].ids| && s.devices[d].ids[i] != 0 ==>
          s.devices[d].ids[i] in s.objects && s.objects[s.devices[d].ids[i]] == d)
  }

  /** The main loop holds exactly the timers of live devices. */
  predicate SourcesOk(s: State) {
    && (forall d :: d in s.sources ==> d in s.devices && s.devices[d].timer)
    && (forall d :: d in s.devices && s.devices[d].timer ==> d in s.sources)
  }

  /** It holds exactly the loss timers armed for contexts of live devices. */
  ghost predicate LossOk(s: State) {
    forall d: nat, ip: string :: (d, ip) in s.lossSources <==>
                                 d in s.devices && ip in Contexts.LossIps(s.devices[d].contexts)
  }

  predicate DevicesOk(s: State, but: set<nat>) {
    forall d :: d in s.devices && d !in but ==> DeviceOk(s.devices[d])
  }

  predicate ChainOk(s: State, q: nat)
    requires q in s.chains && s.chains[q].device in s.devices
  {
    var dev := s.devices[s.chains[q].device];
    s.chains[q].ip in Contexts.Ips(dev.contexts) && s.chains[q].pending == PendingFrom(dev.step)
  }

  predicate ProgressOk(s: State, but: set<nat>)
    requires Linked(s)
  {
    && (forall u :: u in s.published && s.published[u] !in but ==> s.devices[s.published[u]].step == 2)
    && (forall q :: q in s.chains && s.chains[q].device !in but ==> ChainOk(s, q))
  }

  /** The invariant, except for what it says of the devices in `but` taken by themselves. */
  ghost predicate InvBut(s: State, but: set<nat>) {
    Linked(s) && ObjectsOk(s) && SourcesOk(s) && LossOk(s) && DevicesOk(s, but) && ProgressOk(s, but)
  }

  ghost predicate Inv(s: State) {
    InvBut(s, {})
  }

  lemma InitInv()
    ensures Inv(INIT)
  {}

  lemma LinkOf(s: State, q: nat)
    requires Linked(s) && q in s.chains
    ensures ChainLinked(s, q)
  {}

  /** A chain, its device and the relation between them. */
  lemma ChainOf(s: State, q: nat)
    requires Inv(s) && q in s.chains
    ensures ChainLinked(s, q) && ChainOk(s, q) && s.chains[q].udn !in s.published
    ensures DeviceOk(s.devices[s.chains[q].device])
  {}

  lemma OwnerOf(s: State, d: nat)
    requires Linked(s) && d in s.devices
    ensures d < s.created && Owned(s, d)
  {}

  lemma PublishedOf(s: State, u: string)
    requires Linked(s) && u in s.published
    ensures s.published[u] in s.devices && s.devices[s.published[u]].udn == u && u !in s.building
  {}

  lemma BuildingOf(s: State, u: string)
    requires Linked(s) && u in s.building
    ensures s.building[u] in s.chains && s.chains[s.building[u]].udn == u && u !in s.published
    ensures ChainLinked(s, s.building[u])
  {}

  lemma SourceOf(s: State, d: nat)
    requires SourcesOk(s) && d in s.sources
    ensures d in s.devices && s.devices[d].timer
  {}

  lemma LinkedOf(s: State)
    requires Inv(s)
    ensures Linked(s)
  {}

  lemma DeviceOf(s: State, d: nat)
    requires Inv(s) && d in s.devices
    ensures DeviceOk(s.devices[d])
  {}

  // ----- ids -----

  lemma LiveIdsUnique(ids: seq<nat>, k: nat)
    requires k <= |ids| && (forall i :: 0 <= i < k ==> ids[i] != 0) && (k < |ids| ==> ids[k] == 0)
    ensures LiveIds(ids) == k
  {}

  /** Declaring over all-zero ids leaves the granted replies followed by zeros. */
  lemma DeclareLeavesPrefix(ids: seq<nat>, replies: seq<nat>)
    requires |ids| == |replies| && AllZero(ids)
    ensures LiveIds(DeclaredIds(ids, replies)) == LiveIds(replies)
    ensures NonZeroPrefix(DeclaredIds(ids, replies))
    ensures forall i :: 0 <= i < LiveIds(replies) ==> DeclaredIds(ids, replies)[i] == replies[i]
  {
    LiveIdsUnique(DeclaredIds(ids, replies), LiveIds(replies));
  }

  /** Deleting unpublishes exactly the objects the device had published. */
  lemma UnpublishExact(s: State, d: nat)
    requires ObjectsOk(s) && d in s.devices && NonZeroPrefix(s.devices[d].ids)
    ensures forall o :: o in Unpublish(s.objects, s.devices[d].ids) <==> o in s.objects && s.objects[o] != d
    ensures forall o :: o in Unpublish(s.objects, s.devices[d].ids) ==>
              Unpublish(s.objects, s.devices[d].ids)[o] == s.objects[o]
  {}

  // ----- one component of the invariant at a time -----

  /** Device and chain records are edited, but nothing is allocated, freed or re-linked. */
  predicate SameLinks(s: State, t: State) {
    && t.published == s.published && t.building == s.building
    && t.created == s.created && t.started == s.started
    && t.devices.Keys == s.devices.Keys && t.chains.Keys == s.chains.Keys
    && (forall d :: d in s.devices ==> t.devices[d].udn == s.devices[d].udn)
    && (forall q :: q in s.chains ==>
          t.chains[q].udn == s.chains[q].udn && t.chains[q].device == s.chains[q].device)
  }

  lemma EditLinked(s: State, t: State)
    requires Linked(s) && SameLinks(s, t)
    ensures Linked(t)
  {
    forall u | u in t.published
      ensures t.published[u] in t.devices && t.devices[t.published[u]].udn == u && u !in t.building
    {}
    forall q | q in t.chains ensures ChainLinked(t, q) { assert ChainLinked(s, q); }
    forall d | d in t.devices ensures d < t.created && Owned(t, d) { assert Owned(s, d); }
  }

  lemma EditObjects(s: State, t: State)
    requires ObjectsOk(s) && t.objects == s.objects && t.devices.Keys == s.devices.Keys
    requires forall d :: d in s.devices ==> t.devices[d].ids == s.devices[d].ids
    ensures ObjectsOk(t)
  {}

  /** The steps, chains and publications are kept, and no context is lost that a chain builds on. */
  lemma EditProgress(s: State, t: State, d: nat)
    requires Linked(s) && Linked(t) && ProgressOk(s, {}) && d in s.devices && d in t.devices
    requires t.published == s.published && t.chains == s.chains
    requires forall e :: e in s.devices && e != d ==> e in t.devices && t.devices[e] == s.devices[e]
    requires t.devices[d].step == s.devices[d].step
    requires forall q :: q in s.chains && s.chains[q].device == d ==>
               s.chains[q].ip in Contexts.Ips(t.devices[d].contexts)
    ensures ProgressOk(t, {})
  {}

  lemma EditProgressBut(s: State, t: State, d: nat)
    requires Linked(s) && Linked(t) && ProgressOk(s, {}) && d in s.devices && d in t.devices
    requires t.published == s.published && t.chains == s.chains
    requires forall e :: e in s.devices && e != d ==> e in t.devices && t.devices[e] == s.devices[e]
    ensures ProgressOk(t, {d})
  {}

  lemma EditSources(s: State, t: State, d: nat)
    requires SourcesOk(s) && d in s.devices && d in t.devices
    requires t.devices.Keys == s.devices.Keys
    requires forall e :: e in s.devices && e != d ==> t.devices[e].timer == s.devices[e].timer
    requires forall e :: e in t.sources <==> if e == d then t.devices[d].timer else e in s.sources
    ensures SourcesOk(t)
  {}

  lemma SameSources(s: State, t: State)
    requires SourcesOk(s) && t.sources == s.sources && t.devices.Keys == s.devices.Keys
    requires forall e :: e in s.devices ==> t.devices[e].timer == s.devices[e].timer
    ensures SourcesOk(t)
  {}

  /** The contexts whose loss timer the main loop should hold once the contexts of `d` are `cs`. */
  ghost predicate LossFor(s: State, d: nat, cs: seq<Contexts.Context>, loss: LossSources) {
    forall e: nat, ip: string :: (e, ip) in loss <==>
                                 if e == d then ip in Contexts.LossIps(cs) else (e, ip) in s.lossSources
  }

  lemma EditLoss(s: State, t: State, d: nat)
    requires LossOk(s) && d in t.devices && t.devices.Keys == s.devices.Keys
    requires forall e :: e in s.devices && e != d ==> t.devices[e].contexts == s.devices[e].contexts
    requires LossFor(s, d, t.devices[d].contexts, t.lossSources)
    ensures LossOk(t)
  {}

  lemma SameLoss(s: State, t: State)
    requires LossOk(s) && t.lossSources == s.lossSources && t.devices.Keys == s.devices.Keys
    requires forall e :: e in s.devices ==> t.devices[e].contexts == s.devices[e].contexts
    ensures LossOk(t)
  {}

  lemma LossHere(s: State, d: nat)
    requires LossOk(s) && d in s.devices
    ensures LossFor(s, d, s.devices[d].contexts, s.lossSources)
    ensures forall ip: string :: (d, ip) in s.lossSources <==> ip in Contexts.LossIps(s.devices[d].contexts)
  {}

  /** Editing the contexts, the timer and the history flag of one device. */
  ghost predicate Edit(s: State, d: nat, dev: Device, sources: set<nat>, loss: LossSources)
    requires d in s.devices
  {
    && dev == s.devices[d].(contexts := dev.contexts, timer := dev.timer, exposed := dev.exposed)
    && (forall e :: e in sources <==> if e == d then dev.timer else e in s.sources)
    && LossFor(s, d, dev.contexts, loss)
  }

  lemma EditKeeps(s: State, d: nat, dev: Device, sources: set<nat>, loss: LossSources)
    requires Inv(s) && d in s.devices && Edit(s, d, dev, sources, loss) && DeviceOk(dev)
    requires forall q :: q in s.chains && s.chains[q].device == d ==> s.chains[q].ip in Contexts.Ips(dev.contexts)
    ensures Inv(s.(devices := s.devices[d := dev], sources := sources, lossSources := loss))
  {
    hide LossOk, LossFor;
    var t := s.(devices := s.devices[d := dev], sources := sources, lossSources := loss);
    EditLinked(s, t);
    EditObjects(s, t);
    EditSources(s, t, d);
    EditLoss(s, t, d);
    EditProgress(s, t, d);
    assert DevicesOk(t, {});
  }

  /** The common case: the addresses and the timer stay. */
  lemma EditContextsKeeps(s: State, d: nat, cs: seq<Contexts.Context>, exposed: bool, loss: LossSources)
    requires Inv(s) && d in s.devices && LossFor(s, d, cs, loss)
    requires DeviceOk(s.devices[d].(contexts := cs, exposed := exposed))
    requires Contexts.Ips(s.devices[d].contexts) <= Contexts.Ips(cs)
    ensures Inv(s.(devices := s.devices[d := s.devices[d].(contexts := cs, exposed := exposed)], lossSources := loss))
  {
    hide LossOk, LossFor;
    ChainIps(s, d);
    EditKeeps(s, d, s.devices[d].(contexts := cs, exposed := exposed), s.sources, loss);
  }

  lemma ChainIps(s: State, d: nat)
    requires Linked(s) && ProgressOk(s, {}) && d in s.devices
    ensures forall q :: q in s.chains && s.chains[q].device == d ==>
              s.chains[q].ip in Contexts.Ips(s.devices[d].contexts)
  {}

  lemma CancelLinked(s: State, t: State, q: nat)
    requires Linked(s) && q in s.chains
    requires t.published == s.published && t.building == s.building - {s.chains[q].udn}
    requires t.chains == s.chains - {q} && t.devices == s.devices - {s.chains[q].device}
    requires t.created == s.created && t.started == s.started
    ensures Linked(t)
  {}

  lemma LoseLinked(s: State, t: State, udn: string)
    requires Linked(s) && udn in s.published
    requires t.published == s.published - {udn} && t.building == s.building
    requires t.chains == s.chains && t.devices == s.devices - {s.published[udn]}
    requires t.created == s.created && t.started == s.started
    ensures Linked(t)
  {}

  lemma CreateLinked(s: State, t: State, udn: string)
    requires Linked(s) && udn !in s.published && udn !in s.building
    requires s.created in t.devices && t.devices == s.devices[s.created := t.devices[s.created]]
    requires s.started in t.chains && t.chains == s.chains[s.started := t.chains[s.started]]
    requires t.devices[s.created].udn == udn && t.chains[s.started].udn == udn
    requires t.chains[s.started].device == s.created
    requires t.published == s.published && t.building == s.building[udn := s.started]
    requires t.created == s.created + 1 && t.started == s.started + 1
    ensures Linked(t)
  {
    forall q | q in t.chains ensures ChainLinked(t, q) {
      if q != s.started { assert ChainLinked(s, q); }
    }
    forall d | d in t.devices ensures d < t.created && Owned(t, d) {
      if d != s.created { assert Owned(s, d); }
    }
    forall u | u in t.published
      ensures t.published[u] in t.devices && t.devices[t.published[u]].udn == u && u !in t.building
    { assert s.published[u] < s.created; }
  }

  lemma SwitchLinked(s: State, t: State, q: nat)
    requires Linked(s) && q in s.chains
    requires s.started in t.chains && t.chains == (s.chains - {q})[s.started := t.chains[s.started]]
    requires t.chains[s.started].udn == s.chains[q].udn && t.chains[s.started].device == s.chains[q].device
    requires t.published == s.published
    requires t.building == (s.building - {s.chains[q].udn})[s.chains[q].udn := s.started]
    requires t.devices == s.devices && t.created == s.created && t.started == s.started + 1
    ensures Linked(t)
  {
    assert ChainLinked(s, q);
    forall r | r in t.chains ensures ChainLinked(t, r) {
      if r != s.started { assert ChainLinked(s, r); }
    }
    forall d | d in t.devices ensures d < t.created && Owned(t, d) { assert Owned(s, d); }
  }

  lemma PublishLinked(s: State, t: State, q: nat)
    requires Linked(s) && q in s.chains
    requires t.published == s.published[s.chains[q].udn := s.chains[q].device]
    requires t.building == s.building - {s.chains[q].udn}
    requires t.chains == s.chains - {q} && t.devices == s.devices
    requires t.created == s.created && t.started == s.started
    ensures Linked(t)
  {
    assert ChainLinked(s, q);
    forall r | r in t.chains ensures ChainLinked(t, r) { assert ChainLinked(s, r); }
    forall d | d in t.devices ensures d < t.created && Owned(t, d) { assert Owned(s, d); }
  }

  // ----- deletion -----

  lemma {:induction false} ReleasedAll(sources: LossSources, d: nat, cs: seq<Contexts.Context>)
    ensures forall e: nat, ip: string ::
              (e, ip) in ReleaseAll(sources, d, cs) <==>
              (e, ip) in sources && !(e == d && ip in Contexts.LossIps(cs))
  {
    if cs != [] {
      ReleasedAll(Release(sources, d, cs[0]), d, cs[1..]);
      forall ip ensures ip in Contexts.LossIps(cs) <==>
                        ip in Contexts.LossIps(cs[1..]) || (cs[0].lossTimer && ip == cs[0].ip) {
        if ip in Contexts.LossIps(cs[1..]) {
          var k :| 0 <= k < |cs| - 1 && cs[1..][k].lossTimer && cs[1..][k].ip == ip;
          assert cs[k + 1].ip == ip;
        }
        if ip in Contexts.LossIps(cs) {
          var k :| 0 <= k < |cs| && cs[k].lossTimer && cs[k].ip == ip;
          if k > 0 { assert cs[1..][k - 1].ip == ip; }
        }
      }
    }
  }

  lemma DeleteKeeps(s: State, d: nat)
    requires ObjectsOk(s) && SourcesOk(s) && LossOk(s) && d in s.devices && NonZeroPrefix(s.devices[d].ids)
    ensures DeleteDevice(s, d).Ok?
    ensures var t := DeleteDevice(s, d).value; ObjectsOk(t) && SourcesOk(t) && LossOk(t)
  {
    hide NonZeroPrefix, Unpublish;
    UnpublishExact(s, d);
    ReleasedAll(s.lossSources, d, s.devices[d].contexts);
  }

  /** Cancelling the queue of a device under construction frees the record and the device. */
  lemma CancelKeeps(s: State, q: nat)
    requires q in s.chains && InvBut(s, {s.chains[q].device})
    requires NonZeroPrefix(s.devices[s.chains[q].device].ids)
    ensures EndChain(s, q, true).Ok? && Inv(EndChain(s, q, true).value)
  {
    var d := s.chains[q].device;
    var u := FreeChain(s.(building := s.building - {s.chains[q].udn}), q).value;
    DeleteKeeps(u, d);
    var t := EndChain(s, q, true).value;
    CancelLinked(s, t, q);
    forall r | r in t.chains ensures t.chains[r].device != d && ChainOk(t, r) {
      assert ChainLinked(s, r) && ChainLinked(s, q);
      assert ChainOk(s, r);
    }
  }

  lemma LoseKeeps(s: State, udn: string)
    requires udn in s.published && InvBut(s, {s.published[udn]})
    requires NonZeroPrefix(s.devices[s.published[udn]].ids)
    ensures LoseDevice(s, udn, s.published[udn]).Ok? && Inv(LoseDevice(s, udn, s.published[udn]).value)
  {
    var d := s.published[udn];
    var u := s.(log := Emit(s.log, Lost(d)), signals := s.signals + [LostDevice(s.devices[d].path)],
                published := s.published - {udn});
    DeleteKeeps(u, d);
    var t := LoseDevice(s, udn, d).value;
    LoseLinked(s, t, udn);
    forall q | q in t.chains ensures ChainOk(t, q) {
      assert ChainLinked(s, q);
      assert ChainOk(s, q);
    }
  }

  // ----- announcements -----

  lemma CreateProgress(s: State, t: State)
    requires Linked(s) && Linked(t) && ProgressOk(s, {})
    requires t.published == s.published
    requires s.created in t.devices && forall d :: d in s.devices ==> d in t.devices && t.devices[d] == s.devices[d]
    requires s.started in t.chains && t.chains.Keys == s.chains.Keys + {s.started}
    requires forall q :: q in s.chains ==> q != s.started ==> t.chains[q] == s.chains[q]
    requires ChainOk(t, s.started)
    ensures ProgressOk(t, {})
  {}

  lemma CreateObjects(s: State, t: State)
    requires ObjectsOk(s) && SourcesOk(s) && LossOk(s)
    requires t.objects == s.objects && t.sources == s.sources && t.lossSources == s.lossSources
    requires t.devices.Keys == s.devices.Keys + {s.created} && s.created !in s.devices
    requires forall d :: d in s.devices ==> t.devices[d] == s.devices[d]
    requires AllZero(t.devices[s.created].ids) && !t.devices[s.created].timer
    requires Contexts.LossIps(t.devices[s.created].contexts) == {}
    ensures ObjectsOk(t) && SourcesOk(t) && LossOk(t)
  {}

  lemma CreateKeeps(s: State, ip: string, udn: string)
    requires Inv(s) && udn !in s.published && udn !in s.building
    ensures CreateDevice(s, ip, udn).Ok? && Inv(CreateDevice(s, ip, udn).value)
  {
    var dev := NewDevice(s.created, udn, ip);
    assert dev.contexts[0].ip in Contexts.Ips(dev.contexts);
    assert DeviceOk(dev);
    var t := CreateDevice(s, ip, udn).value;
    assert t.devices[s.created] == dev && t.chains[s.started] == Chain(udn, ip, s.created, PendingFrom(0));
    AllocationKeeps(s, t, udn);
  }

  lemma AllocationKeeps(s: State, t: State, udn: string)
    requires Inv(s) && udn !in s.published && udn !in s.building
    requires s.created in t.devices && t.devices == s.devices[s.created := t.devices[s.created]]
    requires s.started in t.chains && t.chains == s.chains[s.started := t.chains[s.started]]
    requires t.devices[s.created].udn == udn && t.chains[s.started].udn == udn
    requires t.chains[s.started].device == s.created && ChainOk(t, s.started)
    requires t.published == s.published && t.building == s.building[udn := s.started]
    requires t.created == s.created + 1 && t.started == s.started + 1
    requires t.objects == s.objects && t.sources == s.sources && t.lossSources == s.lossSources
    requires Contexts.LossIps(t.devices[s.created].contexts) == {}
    requires DeviceOk(t.devices[s.created]) && !t.devices[s.created].timer && t.devices[s.created].step == 0
    ensures Inv(t)
  {
    CreateLinked(s, t, udn);
    CreateObjects(s, t);
    CreateProgress(s, t);
    assert DevicesOk(t, {});
  }

  /** Moving the subscription of a device releases exactly the loss timer it ends. */
  lemma MoveLoss(s: State, d: nat, cs: seq<Contexts.Context>)
    requires LossFor(s, d, cs, s.lossSources) && cs != [] && Contexts.DistinctIps(cs)
    ensures LossFor(s, d, Contexts.MoveSubscription(cs), ReleaseMoved(s.lossSources, d, cs))
  {
    Contexts.MoveLossIps(cs);
    var i := Contexts.FirstSubscribed(cs);
    if i < |cs| && !cs[i].lossTimer { assert cs[i].ip !in Contexts.LossIps(cs); }
  }

  lemma AppendLoss(s: State, d: nat, ip: string)
    requires LossOk(s) && d in s.devices && Contexts.DistinctIps(s.devices[d].contexts)
    requires Contexts.IndexOfIp(s.devices[d].contexts, ip) == |s.devices[d].contexts|
    ensures var cs := s.devices[d].contexts + [Contexts.Context(ip, false, false)];
            LossFor(s, d, Contexts.Append(s.devices[d].contexts, ip), ReleaseMoved(s.lossSources, d, cs))
  {
    var before := s.devices[d].contexts;
    var cs := before + [Contexts.Context(ip, false, false)];
    forall x ensures x in Contexts.LossIps(cs) <==> x in Contexts.LossIps(before) {
      if x in Contexts.LossIps(before) {
        var k :| 0 <= k < |before| && before[k].lossTimer && before[k].ip == x;
        assert cs[k] == before[k];
      }
    }
    MoveLoss(s, d, cs);
  }

  lemma AddContextKeeps(s: State, d: nat, ip: string)
    requires Inv(s) && d in s.devices
    ensures AddContext(s, d, ip).Ok? && Inv(AddContext(s, d, ip).value)
  {
    var dev := s.devices[d];
    if Contexts.IndexOfIp(dev.contexts, ip) == |dev.contexts| {
      assert DeviceOk(dev);
      Contexts.AppendKeepsValid(dev.contexts, ip);
      AppendLoss(s, d, ip);
      EditContextsKeeps(s, d, Contexts.Append(dev.contexts, ip), false,
                        ReleaseMoved(s.lossSources, d, dev.contexts + [Contexts.Context(ip, false, false)]));
    }
  }

  lemma AddKeeps(s: State, ip: string, udn: string)
    requires Inv(s)
    ensures AddDevice(s, ip, udn).Ok? && Inv(AddDevice(s, ip, udn).value)
  {
    match Lookup(s, udn).value
    case Some(d) => AddContextKeeps(s, d, ip);
    case None => CreateKeeps(s, ip, udn);
  }

  // ----- withdrawals -----

  lemma SwitchKeeps(s: State, udn: string, q: nat)
    requires q in s.chains && s.chains[q].udn == udn && InvBut(s, {s.chains[q].device})
    requires DeviceOk(s.devices[s.chains[q].device])
    ensures SwitchChain(s, udn, q).Ok? && Inv(SwitchChain(s, udn, q).value)
  {
    var d := s.chains[q].device;
    var cs := s.devices[d].contexts;
    assert cs[Contexts.Preferred(cs)].ip in Contexts.Ips(cs);
    var t := SwitchChain(s, udn, q).value;
    assert ChainLinked(s, q);
    SwitchLinked(s, t, q);
    EditObjects(s, t);
    SameLoss(s, t);
    SwitchProgress(s, t, q);
  }

  lemma SwitchProgress(s: State, t: State, q: nat)
    requires q in s.chains && Linked(s) && Linked(t) && ProgressOk(s, {s.chains[q].device})
    requires s.chains[q].udn !in s.published
    requires t.published == s.published && t.devices == s.devices
    requires s.started in t.chains && t.chains == (s.chains - {q})[s.started := t.chains[s.started]]
    requires t.chains[s.started].device == s.chains[q].device && ChainOk(t, s.started)
    ensures ProgressOk(t, {})
  {}

  /** Replacing the context list of a device, before reacting to it. */
  lemma RemovalKeepsBut(s: State, d: nat, cs: seq<Contexts.Context>, exposed: bool, loss: LossSources)
    requires Inv(s) && d in s.devices && LossFor(s, d, cs, loss)
    ensures InvBut(s.(devices := s.devices[d := s.devices[d].(contexts := cs, exposed := exposed)],
                      lossSources := loss), {d})
  {
    hide Linked, ObjectsOk, SourcesOk, LossOk, LossFor, ProgressOk;
    var t := s.(devices := s.devices[d := s.devices[d].(contexts := cs, exposed := exposed)], lossSources := loss);
    EditLinked(s, t);
    EditObjects(s, t);
    SameSources(s, t);
    EditLoss(s, t, d);
    EditProgressBut(s, t, d);
  }

  /** Removing a context releases exactly its loss timer. */
  lemma RemovalLoss(s: State, d: nat, i: nat)
    requires LossOk(s) && d in s.devices && i < |s.devices[d].contexts|
    requires Contexts.DistinctIps(s.devices[d].contexts)
    ensures var cs := s.devices[d].contexts;
            LossFor(s, d, Contexts.RemoveAt(cs, i), Release(s.lossSources, d, cs[i]))
  {
    var cs := s.devices[d].contexts;
    Contexts.RemovalLossIps(cs, i);
    if !cs[i].lossTimer { assert cs[i].ip !in Contexts.LossIps(cs); }
  }

  /** What the caller of DropContext knows. */
  predicate Denotes(s: State, udn: string, d: nat, chain: Option<nat>, i: nat) {
    && d in s.devices && i < |s.devices[d].contexts|
    && Lookup(s, udn) == Ok(Some(d))
    && (udn in s.published <==> chain.None?)
    && (chain.Some? ==> udn in s.building && chain.value == s.building[udn] && chain.value in s.chains)
  }

  lemma DropLastKeeps(s: State, udn: string, d: nat, chain: Option<nat>, i: nat)
    requires Inv(s) && Denotes(s, udn, d, chain, i) && |s.devices[d].contexts| == 1
    ensures DropContext(s, udn, d, chain, i).Ok? && Inv(DropContext(s, udn, d, chain, i).value)
  {
    hide Linked, ObjectsOk, SourcesOk, LossOk, LossFor, DevicesOk, ProgressOk, EndChain, LoseDevice, Release;
    var loss := Release(s.lossSources, d, s.devices[d].contexts[i]);
    var t := s.(devices := s.devices[d := s.devices[d].(contexts := [])], lossSources := loss);
    DeviceOf(s, d);
    RemovalLoss(s, d, i);
    assert Contexts.RemoveAt(s.devices[d].contexts, i) == [];
    RemovalKeepsBut(s, d, [], s.devices[d].exposed, loss);
    if chain.None? { LoseKeeps(t, udn); } else { CancelKeeps(t, chain.value); }
  }

  lemma DropBuiltKeeps(s: State, udn: string, d: nat, q: nat, i: nat)
    requires Inv(s) && Denotes(s, udn, d, Some(q), i) && |s.devices[d].contexts| > 1
    requires s.devices[d].contexts[i].ip == s.chains[q].ip
    ensures DropContext(s, udn, d, Some(q), i).Ok? && Inv(DropContext(s, udn, d, Some(q), i).value)
  {
    var dev := s.devices[d];
    var rest := Contexts.RemoveAt(dev.contexts, i);
    Contexts.RemovalKeepsValid(dev.contexts, i);
    var exposed := dev.exposed || (dev.contexts[i].subscribed && !dev.timer);
    var loss := Release(s.lossSources, d, dev.contexts[i]);
    RemovalLoss(s, d, i);
    RemovalKeepsBut(s, d, rest, exposed, loss);
    assert DeviceOk(dev) && ChainLinked(s, q);
    assert DeviceOk(dev.(contexts := rest, exposed := exposed));
    SwitchKeeps(s.(devices := s.devices[d := dev.(contexts := rest, exposed := exposed)], lossSources := loss), udn, q);
  }

  lemma DropPlainChains(s: State, udn: string, d: nat, chain: Option<nat>, i: nat)
    requires Linked(s) && ProgressOk(s, {}) && Denotes(s, udn, d, chain, i)
    requires Contexts.DistinctIps(s.devices[d].contexts)
    requires chain.None? || s.devices[d].contexts[i].ip != s.chains[chain.value].ip
    ensures forall q :: q in s.chains && s.chains[q].device == d ==>
              s.chains[q].ip in Contexts.Ips(Contexts.RemoveAt(s.devices[d].contexts, i))
  {
    Contexts.RemovalIps(s.devices[d].contexts, i);
    forall q | q in s.chains && s.chains[q].device == d
      ensures s.chains[q].ip in Contexts.Ips(Contexts.RemoveAt(s.devices[d].contexts, i))
    {
      assert ChainLinked(s, q) && ChainOk(s, q);
      assert udn == s.chains[q].udn;
    }
  }

  // ----- the outcome of a removal, spelled out -----

  lemma DropLostResult(s: State, udn: string, d: nat, i: nat)
    requires Denotes(s, udn, d, None, i) && |s.devices[d].contexts| == 1
    ensures var dev := s.devices[d];
            DropContext(s, udn, d, None, i) ==
            Ok(s.(devices := s.devices - {d},
                  published := s.published - {udn},
                  objects := Unpublish(s.objects, dev.ids),
                  sources := if dev.timer then s.sources - {d} else s.sources,
                  lossSources := Release(s.lossSources, d, dev.contexts[i]),
                  log := Emit(Emit(s.log, Lost(d)), Deleted(d)),
                  signals := s.signals + [LostDevice(dev.path)]))
  {
    assert s.devices[d := s.devices[d].(contexts := [])] - {d} == s.devices - {d};
  }

  lemma DropCancelledResult(s: State, udn: string, d: nat, q: nat, i: nat)
    requires Denotes(s, udn, d, Some(q), i) && |s.devices[d].contexts| == 1
    ensures var dev := s.devices[d];
            DropContext(s, udn, d, Some(q), i) ==
            Ok(s.(devices := s.devices - {d},
                  building := s.building - {s.chains[q].udn},
                  chains := s.chains - {q},
                  objects := Unpublish(s.objects, dev.ids),
                  sources := if dev.timer then s.sources - {d} else s.sources,
                  lossSources := Release(s.lossSources, d, dev.contexts[i]),
                  log := Emit(Emit(s.log, ChainFreed(q)), Deleted(d))))
  {
    assert s.devices[d := s.devices[d].(contexts := [])] - {d} == s.devices - {d};
  }

  /** The removal of the context under construction replaces the chain, and nothing else but the
      device's context list changes. */
  lemma DropBuiltResult(s: State, udn: string, d: nat, q: nat, i: nat)
    requires Denotes(s, udn, d, Some(q), i) && |s.devices[d].contexts| > 1
    requires s.devices[d].contexts[i].ip == s.chains[q].ip
    ensures var dev := s.devices[d];
            var rest := Contexts.RemoveAt(dev.contexts, i);
            DropContext(s, udn, d, Some(q), i) ==
            Ok(s.(devices := s.devices[d := dev.(contexts := rest,
                                                 exposed := dev.exposed || (dev.contexts[i].subscribed && !dev.timer))],
                  building := (s.building - {s.chains[q].udn})[udn := s.started],
                  chains := (s.chains - {q})[s.started := Chain(udn, rest[Contexts.Preferred(rest)].ip, d,
                                                                PendingFrom(dev.step))],
                  started := s.started + 1,
                  lossSources := Release(s.lossSources, d, dev.contexts[i]),
                  log := Emit(Emit(s.log, ChainFreed(q)), ChainMade(s.started))))
  {}

  /** A plain removal edits one device and, when it took the subscription, arms its timer. */
  lemma DropPlainResult(s: State, udn: string, d: nat, chain: Option<nat>, i: nat)
    requires Denotes(s, udn, d, chain, i) && |s.devices[d].contexts| > 1
    requires chain.None? || s.devices[d].contexts[i].ip != s.chains[chain.value].ip
    ensures var dev := s.devices[d];
            var arm := dev.contexts[i].subscribed && !dev.timer;
            DropContext(s, udn, d, chain, i) ==
            Ok(s.(devices := s.devices[d := dev.(contexts := Contexts.RemoveAt(dev.contexts, i),
                                                 timer := dev.timer || arm)],
                  sources := if arm then s.sources + {d} else s.sources,
                  lossSources := Release(s.lossSources, d, dev.contexts[i])))
  {
    var dev := s.devices[d];
    var rest := Contexts.RemoveAt(dev.contexts, i);
    assert s.devices[d := dev.(contexts := rest)][d := dev.(contexts := rest, timer := true)]
        == s.devices[d := dev.(contexts := rest, timer := true)];
  }

  lemma DropPlainKeeps(s: State, udn: string, d: nat, chain: Option<nat>, i: nat)
    requires Inv(s) && Denotes(s, udn, d, chain, i) && |s.devices[d].contexts| > 1
    requires chain.None? || s.devices[d].contexts[i].ip != s.chains[chain.value].ip
    ensures DropContext(s, udn, d, chain, i).Ok? && Inv(DropContext(s, udn, d, chain, i).value)
  {
    hide Linked, ObjectsOk, LossOk, LossFor, DevicesOk, ProgressOk, Release, DropContext;
    var dev := s.devices[d];
    DeviceOf(s, d);
    DropPlainResult(s, udn, d, chain, i);
    DropPlainChains(s, udn, d, chain, i);
    Contexts.RemovalKeepsValid(dev.contexts, i);
    var arm := dev.contexts[i].subscribed && !dev.timer;
    RemovalLoss(s, d, i);
    EditKeeps(s, d, dev.(contexts := Contexts.RemoveAt(dev.contexts, i), timer := dev.timer || arm),
              if arm then s.sources + {d} else s.sources, Release(s.lossSources, d, dev.contexts[i]));
  }

  lemma RemoveKeeps(s: State, ip: string, udn: string)
    requires Inv(s)
    ensures RemoveDevice(s, ip, udn).Ok? && Inv(RemoveDevice(s, ip, udn).value)
  {
    assert udn in s.building ==> ChainLinked(s, s.building[udn]);
    match Lookup(s, udn).value
    case None =>
    case Some(d) =>
      var cs := s.devices[d].contexts;
      var i := Contexts.IndexOfIp(cs, ip);
      var chain := if udn in s.published then None else Some(s.building[udn]);
      if i == |cs| {
      } else if |cs| == 1 {
        DropLastKeeps(s, udn, d, chain, i);
      } else if chain.Some? && cs[i].ip == s.chains[chain.value].ip {
        DropBuiltKeeps(s, udn, d, chain.value, i);
      } else {
        DropPlainKeeps(s, udn, d, chain, i);
      }
  }

  // ----- construction -----

  lemma SubscribeKeeps(s: State, q: nat)
    requires Inv(s) && q in s.chains && s.chains[q].pending != [] && s.chains[q].pending[0] == Subscribe
    ensures RunSubscribe(s, q).Ok? && Inv(RunSubscribe(s, q).value)
  {
    hide Linked, ObjectsOk, SourcesOk, DevicesOk, ProgressOk;
    var d := s.chains[q].device;
    ChainOf(s, q);
    Contexts.MoveSubscriptionKeepsValid(s.devices[d].contexts);
    var t := RunSubscribe(s, q).value;
    assert DeviceOk(t.devices[d]);
    LossHere(s, d);
    MoveLoss(s, d, s.devices[d].contexts);
    StepKeeps(s, t, q);
  }

  lemma StepKeeps(s: State, t: State, q: nat)
    requires Inv(s) && q in s.chains && s.chains[q].pending != []
    requires s.chains[q].device in s.devices && s.chains[q].device in t.devices
    requires var d := s.chains[q].device;
             && t.devices == s.devices[d := t.devices[d]]
             && t.devices[d].step == s.devices[d].step + 1
             && t.devices[d].udn == s.devices[d].udn
             && t.devices[d].ids == s.devices[d].ids
             && t.devices[d].timer == s.devices[d].timer
             && Contexts.Ips(t.devices[d].contexts) == Contexts.Ips(s.devices[d].contexts)
             && DeviceOk(t.devices[d])
    requires t.chains == s.chains[q := s.chains[q].(pending := s.chains[q].pending[1..])]
    requires LossFor(s, s.chains[q].device, t.devices[s.chains[q].device].contexts, t.lossSources)
    requires t == s.(devices := t.devices, chains := t.chains, lossSources := t.lossSources, log := t.log)
    ensures Inv(t)
  {
    hide Linked, ObjectsOk, SourcesOk, LossOk, LossFor, ProgressOk;
    EditLinked(s, t);
    EditObjects(s, t);
    SameSources(s, t);
    EditLoss(s, t, s.chains[q].device);
    StepProgress(s, t, q);
    assert DevicesOk(t, {});
  }

  /** One task has run: the device is a step further and the queue a task shorter. */
  lemma StepProgress(s: State, t: State, q: nat)
    requires Linked(s) && Linked(t) && ProgressOk(s, {}) && q in s.chains && s.chains[q].pending != []
    requires t.published == s.published
    requires t.chains == s.chains[q := s.chains[q].(pending := s.chains[q].pending[1..])]
    requires s.chains[q].device in t.devices
    requires t.devices == s.devices[s.chains[q].device := t.devices[s.chains[q].device]]
    requires t.devices[s.chains[q].device].step == s.devices[s.chains[q].device].step + 1
    requires Contexts.Ips(t.devices[s.chains[q].device].contexts)
          == Contexts.Ips(s.devices[s.chains[q].device].contexts)
    ensures ProgressOk(t, {})
  {
    assert ChainLinked(s, q) && ChainOk(s, q);
    forall r | r in t.chains ensures ChainOk(t, r) {
      assert ChainLinked(s, r) && ChainOk(s, r);
    }
  }

  lemma DeclaredObjects(s: State, t: State, d: nat, replies: Replies)
    requires ObjectsOk(s) && d in s.devices && |s.devices[d].ids| == INTERFACES && AllZero(s.devices[d].ids)
    requires forall i :: 0 <= i < LiveIds(replies) ==> replies[i] !in s.objects
    requires t.devices.Keys == s.devices.Keys
    requires forall e :: e in s.devices && e != d ==> t.devices[e].ids == s.devices[e].ids
    requires t.devices[d].ids == DeclaredIds(s.devices[d].ids, replies)
    requires t.objects == s.objects + Granted(replies, d)
    ensures ObjectsOk(t) && NonZeroPrefix(t.devices[d].ids)
  {
    DeclareLeavesPrefix(s.devices[d].ids, replies);
    var k := LiveIds(replies);
    forall o | o in t.objects
      ensures o != 0 && t.objects[o] in t.devices && o in t.devices[t.objects[o]].ids
    {
      if o in replies[..k] {
        var i :| 0 <= i < k && replies[i] == o;
        assert t.devices[d].ids[i] == o;
      } else {
        assert s.objects[o] != d;
      }
    }
    forall e, i | e in t.devices && 0 <= i < |t.devices[e].ids| && t.devices[e].ids[i] != 0
      ensures t.devices[e].ids[i] in t.objects && t.objects[t.devices[e].ids[i]] == e
    {
      if e == d { assert replies[..k][i] == t.devices[e].ids[i]; }
    }
  }

  lemma DevicesBut(s: State, t: State, d: nat)
    requires DevicesOk(s, {}) && t.devices.Keys == s.devices.Keys
    requires forall e :: e in s.devices && e != d ==> t.devices[e] == s.devices[e]
    ensures DevicesOk(t, {d})
  {}

  lemma ProgressBut(s: State, d: nat)
    requires Linked(s) && ProgressOk(s, {})
    ensures ProgressOk(s, {d})
  {}

  lemma DeclaredKeepsBut(s: State, q: nat, replies: Replies)
    requires Inv(s) && q in s.chains && s.chains[q].pending != [] && s.chains[q].pending[0] == Declare
    requires FreshReplies(s, TaskTurn(q, replies))
    ensures s.chains[q].device in s.devices
    ensures DeviceOk(s.devices[s.chains[q].device])
    ensures var t := Declared(s, q, replies);
            InvBut(t, {s.chains[q].device}) && ProgressOk(t, {}) && NonZeroPrefix(t.devices[s.chains[q].device].ids)
  {
    hide Linked, ObjectsOk, SourcesOk, LossOk, DevicesOk, ProgressOk, NonZeroPrefix, DeclaredIds, Granted;
    var d := s.chains[q].device;
    ChainOf(s, q);
    var t := Declared(s, q, replies);
    DeclaredObjects(s, t, d, replies);
    EditLinked(s, t);
    SameSources(s, t);
    SameLoss(s, t);
    StepProgress(s, t, q);
    DevicesBut(s, t, d);
    ProgressBut(t, d);
  }

  /** The end of a cancelled chain, spelled out. */
  lemma CancelResult(s: State, q: nat)
    requires q in s.chains && s.chains[q].device in s.devices
    ensures var c := s.chains[q];
            var dev := s.devices[c.device];
            EndChain(s, q, true) ==
            Ok(s.(devices := s.devices - {c.device},
                  building := s.building - {c.udn},
                  chains := s.chains - {q},
                  objects := Unpublish(s.objects, dev.ids),
                  sources := if dev.timer then s.sources - {c.device} else s.sources,
                  lossSources := ReleaseAll(s.lossSources, c.device, dev.contexts),
                  log := Emit(Emit(s.log, ChainFreed(q)), Deleted(c.device))))
  {}

  lemma DeclareKeeps(s: State, q: nat, replies: Replies)
    requires Inv(s) && q in s.chains && s.chains[q].pending != [] && s.chains[q].pending[0] == Declare
    requires FreshReplies(s, TaskTurn(q, replies))
    ensures RunDeclare(s, q, replies).Ok? && Inv(RunDeclare(s, q, replies).value)
  {
    hide Linked, ObjectsOk, SourcesOk, LossOk, ProgressOk, EndChain, Granted;
    var d := s.chains[q].device;
    ChainOf(s, q);
    DeclaredKeepsBut(s, q, replies);
    var t := Declared(s, q, replies);
    if LiveIds(replies) < |replies| {
      CancelKeeps(t, q);
    } else {
      assert t.devices[d].ids == replies;
      assert DeviceOk(t.devices[d]);
    }
  }

  /** The end of a chain: its device is complete, and takes no published device's place. */
  lemma PublishKeeps(s: State, q: nat)
    requires Inv(s) && q in s.chains && s.chains[q].pending == []
    ensures s.chains[q].udn !in s.published
    ensures EndChain(s, q, false).Ok? && Inv(EndChain(s, q, false).value)
  {
    hide Linked, ObjectsOk, SourcesOk, LossOk, ProgressOk;
    ChainOf(s, q);
    var t := EndChain(s, q, false).value;
    SameSources(s, t);
    SameLoss(s, t);
    PublishLinked(s, t, q);
    EditObjects(s, t);
    PublishProgress(s, t, q);
  }

  lemma PublishProgress(s: State, t: State, q: nat)
    requires Linked(s) && Linked(t) && ProgressOk(s, {}) && q in s.chains && s.chains[q].pending == []
    requires t.published == s.published[s.chains[q].udn := s.chains[q].device]
    requires t.chains == s.chains - {q} && t.devices == s.devices
    requires s.chains[q].device in s.devices && s.devices[s.chains[q].device].step <= 2
    ensures ProgressOk(t, {})
  {}

  lemma TurnKeeps(s: State, q: nat, replies: Replies)
    requires Inv(s) && FreshReplies(s, TaskTurn(q, replies))
    ensures TakeTurn(s, q, replies).Ok? && Inv(TakeTurn(s, q, replies).value)
  {
    if q in s.chains {
      if s.chains[q].pending == [] { PublishKeeps(s, q); }
      else if s.chains[q].pending[0] == Subscribe { SubscribeKeeps(s, q); }
      else { DeclareKeeps(s, q, replies); }
    }
  }

  // ----- timers and losses -----

  lemma TimerKeeps(s: State, d: nat)
    requires Inv(s)
    ensures FireTimer(s, d).Ok? && Inv(FireTimer(s, d).value)
  {
    hide Linked, ObjectsOk, LossOk, DevicesOk, ProgressOk, Contexts.LossIps;
    if d in s.sources {
      SourceOf(s, d);
      var dev := s.devices[d];
      DeviceOf(s, d);
      Contexts.SubscribePreferredKeepsValid(dev.contexts);
      Contexts.SubscribePreferredLossIps(dev.contexts);
      LossHere(s, d);
      ChainIps(s, d);
      EditKeeps(s, d, dev.(timer := false, contexts := Contexts.SubscribePreferred(dev.contexts), exposed := false),
                s.sources - {d}, s.lossSources);
    }
  }

  lemma LossKeeps(s: State, d: nat, i: nat)
    requires Inv(s)
    ensures ReportLoss(s, d, i).Ok? && Inv(ReportLoss(s, d, i).value)
  {
    hide Linked, ObjectsOk, SourcesOk, LossOk, DevicesOk, ProgressOk, Contexts.LossIps;
    if d in s.devices && i < |s.devices[d].contexts| {
      var dev := s.devices[d];
      var c := dev.contexts[i];
      DeviceOf(s, d);
      Contexts.LossKeepsValid(dev.contexts, i);
      LossHere(s, d);
      Contexts.EditLossIps(dev.contexts, i, Contexts.LoseSubscription(c));
      EditContextsKeeps(s, d, dev.contexts[i := Contexts.LoseSubscription(c)],
                        dev.exposed || (c.subscribed && c.lossTimer && !dev.timer),
                        if c.lossTimer then s.lossSources - {(d, c.ip)} else s.lossSources + {(d, c.ip)});
    }
  }

  /** A loss timer held by the main loop is armed for a context of a live device. */
  lemma LossSourceOf(s: State, d: nat, ip: string)
    requires LossOk(s) && (d, ip) in s.lossSources
    ensures d in s.devices
    ensures var cs := s.devices[d].contexts;
            Contexts.IndexOfIp(cs, ip) < |cs|
            && (Contexts.DistinctIps(cs) ==> cs[Contexts.IndexOfIp(cs, ip)].lossTimer)
  {
    var cs := s.devices[d].contexts;
    assert ip in Contexts.LossIps(cs);
    var i :| 0 <= i < |cs| && cs[i].lossTimer && cs[i].ip == ip;
  }

  lemma LossTimerKeeps(s: State, d: nat, ip: string)
    requires Inv(s)
    ensures FireLossTimer(s, d, ip).Ok? && Inv(FireLossTimer(s, d, ip).value)
  {
    hide Linked, ObjectsOk, SourcesOk, LossOk, DevicesOk, ProgressOk, Contexts.LossIps;
    if (d, ip) in s.lossSources {
      LossSourceOf(s, d, ip);
      var dev := s.devices[d];
      DeviceOf(s, d);
      var i := Contexts.IndexOfIp(dev.contexts, ip);
      var c := dev.contexts[i].(lossTimer := false);
      Contexts.LossTimerKeepsValid(dev.contexts, i);
      LossHere(s, d);
      Contexts.EditLossIps(dev.contexts, i, c);
      EditContextsKeeps(s, d, dev.contexts[i := c], dev.exposed, s.lossSources - {(d, ip)});
    }
  }
}
