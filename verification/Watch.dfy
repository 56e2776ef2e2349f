/** What happens to one device's addresses, subscription and timers, told without records: a small
    machine over addresses that every event of the registry is one move of. */
module Watch {
  import opened Wrappers
  import opened Registry
  import opened Invariant
  import opened TreeWalks
  import opened Refinement
  import opened Causes
  import opened Bus
  import History
  import C = Contexts

  /** The device's addresses, oldest first; the one it is subscribed on, if any; whether a timer will
      subscribe again; and the addresses whose subscription has been lost within the last ten seconds. */
  datatype Watch = Watch(addresses: seq<string>, holder: Option<string>, retry: bool, windows: set<string>)

  /** The first loopback address, if there is one. */
  function FirstLocal(addresses: seq<string>): Option<string> {
    if addresses == [] then None
    else if C.IsLoopback(addresses[0]) then Some(addresses[0])
    else FirstLocal(addresses[1..])
  }

  function Best(addresses: seq<string>): string {
    if FirstLocal(addresses).Some? then FirstLocal(addresses).value
    else if addresses != [] then addresses[0]
    else ""
  }

  /** The subscription goes to the best address; an address that it leaves forgets its loss. */
  function Settle(w: Watch): Watch {
    var best := Some(Best(w.addresses));
    if w.holder == best then w
    else w.(holder := best, windows := if w.holder.Some? then w.windows - {w.holder.value} else w.windows)
  }

  function Join(w: Watch, ip: string): Watch {
    if ip in w.addresses then w else Settle(w.(addresses := w.addresses + [ip]))
  }

  function Without(addresses: seq<string>, ip: string): seq<string> {
    if addresses == [] then []
    else if addresses[0] == ip then addresses[1..]
    else [addresses[0]] + Without(addresses[1..], ip)
  }

  /** Whoever loses the address it is subscribed on subscribes again later, unless it is being built on
      that address. */
  function Leave(w: Watch, ip: string, building: bool): Watch {
    if ip !in w.addresses then w
    else
      var held := w.holder == Some(ip);
      Watch(Without(w.addresses, ip), if held then None else w.holder, w.retry || (held && !building),
            w.windows - {ip})
  }

  function Retry(w: Watch): Watch {
    if w.retry then w.(retry := false, holder := Some(Best(w.addresses))) else w
  }

  /** The second loss on an address within its window ends the subscription held there. */
  function Lose(w: Watch, ip: string): Watch {
    if ip !in w.windows then w.(windows := w.windows + {ip})
    else w.(windows := w.windows - {ip}, holder := if w.holder == Some(ip) then None else w.holder)
  }

  // ----- a context list as seen from here -----

  function Addresses(cs: seq<C.Context>): seq<string> {
    seq(|cs|, i requires 0 <= i < |cs| => cs[i].ip)
  }

  function HolderIn(cs: seq<C.Context>): Option<string> {
    var i := C.FirstSubscribed(cs);
    if i < |cs| then Some(cs[i].ip) else None
  }

  function WatchOf(dev: Device): Watch {
    Watch(Addresses(dev.contexts), HolderIn(dev.contexts), dev.timer, C.LossIps(dev.contexts))
  }

  lemma {:induction false} FirstLocalAt(cs: seq<C.Context>)
    ensures FirstLocal(Addresses(cs)) ==
            if C.FirstLoopback(cs) < |cs| then Some(cs[C.FirstLoopback(cs)].ip) else None
  {
    if cs != [] {
      assert Addresses(cs)[1..] == Addresses(cs[1..]);
      FirstLocalAt(cs[1..]);
    }
  }

  lemma BestIsPreferred(cs: seq<C.Context>)
    requires cs != []
    ensures Best(Addresses(cs)) == cs[C.Preferred(cs)].ip
  {
    hide FirstLocal, C.FirstLoopback;
    FirstLocalAt(cs);
  }

  lemma HolderAt(cs: seq<C.Context>, i: nat)
    requires i < |cs| && cs[i].subscribed
    requires forall j :: 0 <= j < |cs| && cs[j].subscribed ==> j == i
    ensures HolderIn(cs) == Some(cs[i].ip)
  {}

  lemma NoHolder(cs: seq<C.Context>)
    requires forall j :: 0 <= j < |cs| ==> !cs[j].subscribed
    ensures HolderIn(cs) == None
  {}

  /** At most one context is subscribed, and no two are on one address. */
  predicate Fit(cs: seq<C.Context>) {
    cs != [] && C.DistinctIps(cs) && forall i, j :: 0 <= i < j < |cs| ==> !(cs[i].subscribed && cs[j].subscribed)
  }

  lemma MoveHolds(cs: seq<C.Context>)
    requires Fit(cs)
    ensures Addresses(C.MoveSubscription(cs)) == Addresses(cs)
    ensures HolderIn(C.MoveSubscription(cs)) == Some(Best(Addresses(cs)))
  {
    hide C.MoveSubscription, C.Preferred, Best;
    BestIsPreferred(cs);
    C.MoveSubscriptionEstablishes(cs);
    var ds := C.MoveSubscription(cs);
    C.SameIpsSamePreferred(cs, ds);
    HolderAt(ds, C.Preferred(cs));
  }

  lemma MoveSettles(cs: seq<C.Context>, retry: bool)
    requires Fit(cs)
    ensures Settle(Watch(Addresses(cs), HolderIn(cs), retry, C.LossIps(cs))) ==
            Watch(Addresses(C.MoveSubscription(cs)), HolderIn(C.MoveSubscription(cs)), retry,
                  C.LossIps(C.MoveSubscription(cs)))
  {
    hide C.LossIps, Best, C.MoveSubscription, C.Preferred;
    BestIsPreferred(cs);
    MoveHolds(cs);
    C.MoveLossIps(cs);
    var i, p := C.FirstSubscribed(cs), C.Preferred(cs);
    if i < |cs| && i != p { assert cs[i].ip != cs[p].ip; }
  }

  lemma AppendJoins(cs: seq<C.Context>, ip: string, retry: bool)
    requires C.Valid(cs) && C.IndexOfIp(cs, ip) == |cs|
    ensures Join(Watch(Addresses(cs), HolderIn(cs), retry, C.LossIps(cs)), ip) ==
            Watch(Addresses(C.Append(cs, ip)), HolderIn(C.Append(cs, ip)), retry, C.LossIps(C.Append(cs, ip)))
  {
    hide C.MoveSubscription, Settle, C.Preferred;
    var ds := cs + [C.Context(ip, false, false)];
    assert Addresses(ds) == Addresses(cs) + [ip];
    forall a | a in C.LossIps(cs) ensures a in C.LossIps(ds) {
      var k :| 0 <= k < |cs| && cs[k].lossTimer && cs[k].ip == a;
      assert ds[k].lossTimer && ds[k].ip == a;
    }
    assert C.LossIps(ds) == C.LossIps(cs);
    AppendHolder(cs, ip);
    MoveSettles(ds, retry);
  }

  lemma AppendHolder(cs: seq<C.Context>, ip: string)
    ensures HolderIn(cs + [C.Context(ip, false, false)]) == HolderIn(cs)
  {
    var ds := cs + [C.Context(ip, false, false)];
    var i, j := C.FirstSubscribed(cs), C.FirstSubscribed(ds);
    if i < |cs| { assert ds[i].subscribed; }
    if j < |cs| { assert cs[j].subscribed; }
  }

  lemma {:induction false} WithoutAt(cs: seq<C.Context>, i: nat)
    requires i < |cs| && forall j :: 0 <= j < i ==> cs[j].ip != cs[i].ip
    ensures Without(Addresses(cs), cs[i].ip) == Addresses(C.RemoveAt(cs, i))
  {
    var addresses := Addresses(cs);
    assert addresses[1..] == Addresses(cs[1..]);
    if i == 0 {
      assert C.RemoveAt(cs, 0) == cs[1..];
    } else {
      WithoutAt(cs[1..], i - 1);
      assert C.RemoveAt(cs, i) == [cs[0]] + C.RemoveAt(cs[1..], i - 1);
    }
  }

  lemma RemovalLeaves(cs: seq<C.Context>, i: nat, retry: bool, building: bool)
    requires Fit(cs) && i < |cs|
    ensures Leave(Watch(Addresses(cs), HolderIn(cs), retry, C.LossIps(cs)), cs[i].ip, building) ==
            Watch(Addresses(C.RemoveAt(cs, i)), HolderIn(C.RemoveAt(cs, i)),
                  retry || (cs[i].subscribed && !building), C.LossIps(C.RemoveAt(cs, i)))
  {
    hide C.LossIps, C.RemoveAt, Without, HolderIn, Fit;
    FitDistinct(cs);
    WithoutAt(cs, i);
    C.RemovalLossIps(cs, i);
    assert cs[i].ip == Addresses(cs)[i];
    RemovalHolder(cs, i);
  }

  lemma FitDistinct(cs: seq<C.Context>)
    requires Fit(cs)
    ensures C.DistinctIps(cs)
  {}

  lemma RemovalHolder(cs: seq<C.Context>, i: nat)
    requires Fit(cs) && i < |cs|
    ensures HolderIn(C.RemoveAt(cs, i)) == if cs[i].subscribed then None else HolderIn(cs)
    ensures cs[i].subscribed <==> HolderIn(cs) == Some(cs[i].ip)
  {
    C.RemovalElements(cs, i);
    hide C.RemoveAt;
    var ds := C.RemoveAt(cs, i);
    var h := C.FirstSubscribed(cs);
    if h < |cs| && h != i {
      assert cs[h].ip != cs[i].ip;
      HolderAt(ds, if h < i then h else h - 1);
    } else {
      NoHolder(ds);
    }
  }

  lemma SubscribeRetries(cs: seq<C.Context>, windows: set<string>)
    requires C.Valid(cs) && windows == C.LossIps(cs)
    ensures Retry(Watch(Addresses(cs), HolderIn(cs), true, windows)) ==
            Watch(Addresses(C.SubscribePreferred(cs)), HolderIn(C.SubscribePreferred(cs)), false,
                  C.LossIps(C.SubscribePreferred(cs)))
  {
    hide C.LossIps, Best;
    BestIsPreferred(cs);
    C.SubscribePreferredLossIps(cs);
    var ds := C.SubscribePreferred(cs);
    assert Addresses(ds) == Addresses(cs);
    HolderAt(ds, C.Preferred(cs));
  }

  lemma LossLoses(cs: seq<C.Context>, i: nat, retry: bool)
    requires Fit(cs) && i < |cs|
    ensures var ds := cs[i := C.LoseSubscription(cs[i])];
            Lose(Watch(Addresses(cs), HolderIn(cs), retry, C.LossIps(cs)), cs[i].ip) ==
            Watch(Addresses(ds), HolderIn(ds), retry, C.LossIps(ds))
  {
    var ds := cs[i := C.LoseSubscription(cs[i])];
    C.EditLossIps(cs, i, ds[i]);
    assert cs[i].ip in C.LossIps(cs) <==> cs[i].lossTimer;
    hide C.LossIps;
    assert Addresses(ds) == Addresses(cs);
    var h := C.FirstSubscribed(cs);
    if h < |cs| {
      if h != i { assert cs[h].ip != cs[i].ip; }
      if ds[h].subscribed { HolderAt(ds, h); } else { NoHolder(ds); }
    } else {
      NoHolder(ds);
    }
  }

  lemma WindowCloses(cs: seq<C.Context>, i: nat)
    requires Fit(cs) && i < |cs|
    ensures var ds := cs[i := cs[i].(lossTimer := false)];
            && Addresses(ds) == Addresses(cs) && HolderIn(ds) == HolderIn(cs)
            && C.LossIps(ds) == C.LossIps(cs) - {cs[i].ip}
  {
    var ds := cs[i := cs[i].(lossTimer := false)];
    C.EditLossIps(cs, i, ds[i]);
    hide C.LossIps;
    var h := C.FirstSubscribed(cs);
    if h < |cs| { HolderAt(ds, h); } else { NoHolder(ds); }
  }

  // ----- events -----

  /** The device is being built on this address. */
  predicate BuiltOn(s: State, d: nat, ip: string) {
    && d in s.devices && s.devices[d].udn !in s.published
    && s.devices[d].udn in s.building && s.building[s.devices[d].udn] in s.chains
    && s.chains[s.building[s.devices[d].udn]].ip == ip
  }

  /** The move an event is for device `d`. */
  function Moves(w: Watch, s: State, e: Event, d: nat): Watch
    requires d in s.devices
  {
    match e
    case Announced(info, ip) => if s.devices[d].udn in Announces(info, ip) then Join(w, Address(ip)) else w
    case Withdrawn(info, ip) =>
      if s.devices[d].udn in Withdraws(info, ip) then Leave(w, Address(ip), BuiltOn(s, d, Address(ip))) else w
    case TaskTurn(q, _) =>
      if q in s.chains && s.chains[q].device == d && s.chains[q].pending != [] && s.chains[q].pending[0] == Subscribe
      then Settle(w) else w
    case ResubscribeTimer(x) => if x == d then Retry(w) else w
    case SubscriptionLost(x, i) => if x == d && i < |w.addresses| then Lose(w, w.addresses[i]) else w
    case LossTimer(x, ip) => if x == d then w.(windows := w.windows - {ip}) else w
    case ClientAction(_) => w
  }

  lemma AddWatched(s: State, ip: string, d: nat)
    requires Inv(s) && d in s.devices
    ensures AddDevice(s, ip, s.devices[d].udn).Ok?
    ensures var t := AddDevice(s, ip, s.devices[d].udn).value;
            && d in t.devices && t.devices[d].udn == s.devices[d].udn
            && WatchOf(t.devices[d]) == Join(WatchOf(s.devices[d]), ip)
  {
    hide InvBut, Join, C.Append, C.LossIps, HolderIn;
    LinkedOf(s);
    OwnerIsHolder(s, d);
    DeviceOf(s, d);
    var cs := s.devices[d].contexts;
    var i := C.IndexOfIp(cs, ip);
    if i == |cs| {
      AppendJoins(cs, ip, s.devices[d].timer);
    } else {
      JoinKnown(s.devices[d], i);
    }
  }

  lemma JoinKnown(dev: Device, i: nat)
    requires i < |dev.contexts|
    ensures Join(WatchOf(dev), dev.contexts[i].ip) == WatchOf(dev)
  {
    assert Addresses(dev.contexts)[i] == dev.contexts[i].ip;
  }

  lemma JoinTwice(w: Watch, ip: string)
    ensures Join(Join(w, ip), ip) == Join(w, ip)
  {}

  lemma NewWatched(s: State, ip: string, udn: string, d: nat)
    requires Inv(s) && d !in s.devices && AddDevice(s, ip, udn).Ok? && d in AddDevice(s, ip, udn).value.devices
    ensures WatchOf(AddDevice(s, ip, udn).value.devices[d]) == Watch([ip], None, false, {})
  {
    hide InvBut, C.Append;
    LinkedOf(s);
    if udn in s.published || udn in s.building { HolderOf(s, udn); }
    var cs := [C.Context(ip, false, false)];
    assert C.FirstSubscribed(cs) == 1 && Addresses(cs) == [ip];
  }

  lemma {:induction false} AddAllWatched(s: State, ip: string, udns: seq<string>, d: nat)
    requires Inv(s)
    ensures VisitAll(s, true, ip, udns).Ok?
    ensures var t := VisitAll(s, true, ip, udns).value;
            && (d in s.devices ==>
                  && d in t.devices
                  && WatchOf(t.devices[d]) == (if s.devices[d].udn in udns then Join(WatchOf(s.devices[d]), ip)
                                               else WatchOf(s.devices[d])))
            && (d !in s.devices && d in t.devices ==> WatchOf(t.devices[d]) == Watch([ip], None, false, {}))
    decreases |udns|
  {
    hide Inv, AddDevice, Join, WatchOf;
    if udns != [] {
      AddKeeps(s, ip, udns[0]);
      var t := AddDevice(s, ip, udns[0]).value;
      if d in s.devices {
        if s.devices[d].udn == udns[0] { AddWatched(s, ip, d); } else { AddOther(s, ip, udns[0], d); }
        JoinTwice(WatchOf(s.devices[d]), ip);
      } else if d in t.devices {
        NewWatched(s, ip, udns[0], d);
        JoinNew(ip);
      }
      AddAllWatched(t, ip, udns[1..], d);
    }
  }

  lemma JoinNew(ip: string)
    ensures Join(Watch([ip], None, false, {}), ip) == Watch([ip], None, false, {})
  {
    assert ip in [ip];
  }

  lemma RemoveWatched(s: State, ip: string, d: nat)
    requires Inv(s) && d in s.devices
    ensures RemoveDevice(s, ip, s.devices[d].udn).Ok?
    ensures var t := RemoveDevice(s, ip, s.devices[d].udn).value;
            if Leave(WatchOf(s.devices[d]), ip, false).addresses == [] then d !in t.devices
            else
              && d in t.devices && t.devices[d].udn == s.devices[d].udn
              && WatchOf(t.devices[d]) == Leave(WatchOf(s.devices[d]), ip, BuiltOn(s, d, ip))
  {
    hide InvBut, DropContext, Release, Emit, Unpublish, PendingFrom, C.LossIps, HolderIn, Leave;
    LinkedOf(s);
    OwnerIsHolder(s, d);
    DeviceOf(s, d);
    var dev := s.devices[d];
    var udn, cs := dev.udn, dev.contexts;
    var i := C.IndexOfIp(cs, ip);
    if i < |cs| {
      RemovalLeaves(cs, i, dev.timer, BuiltOn(s, d, ip));
      RemovalLeaves(cs, i, dev.timer, false);
      var chain := if udn in s.published then None else Some(s.building[udn]);
      if |cs| == 1 {
        if chain.None? { DropLostResult(s, udn, d, i); } else { DropCancelledResult(s, udn, d, chain.value, i); }
      } else if chain.Some? && ip == s.chains[chain.value].ip {
        DropBuiltResult(s, udn, d, chain.value, i);
      } else {
        DropPlainResult(s, udn, d, chain, i);
      }
    } else {
      LeaveUnknown(dev, ip, BuiltOn(s, d, ip));
      LeaveUnknown(dev, ip, false);
    }
  }

  lemma LeaveUnknown(dev: Device, ip: string, building: bool)
    requires C.IndexOfIp(dev.contexts, ip) == |dev.contexts|
    ensures Leave(WatchOf(dev), ip, building) == WatchOf(dev)
  {}

  lemma RemoveOtherWatched(s: State, ip: string, udn: string, d: nat)
    requires Inv(s) && d in s.devices && s.devices[d].udn != udn
    ensures RemoveDevice(s, ip, udn).Ok?
    ensures var t := RemoveDevice(s, ip, udn).value;
            && d in t.devices && t.devices[d] == s.devices[d]
            && forall a :: BuiltOn(t, d, a) <==> BuiltOn(s, d, a)
  {
    hide InvBut, RemoveDevice;
    LinkedOf(s);
    RemoveOther(s, ip, udn, d);
    if s.devices[d].udn in s.building { BuildingOf(s, s.devices[d].udn); }
  }

  lemma LeaveTwice(w: Watch, ip: string, b: bool, c: bool)
    requires forall i, j :: 0 <= i < j < |w.addresses| ==> w.addresses[i] != w.addresses[j]
    ensures Leave(Leave(w, ip, b), ip, c) == Leave(w, ip, b)
  {
    if ip in w.addresses { WithoutIt(w.addresses, ip); }
  }

  lemma {:induction false} WithoutIt(addresses: seq<string>, ip: string)
    requires forall i, j :: 0 <= i < j < |addresses| ==> addresses[i] != addresses[j]
    ensures ip !in Without(addresses, ip)
    ensures forall a :: a in Without(addresses, ip) ==> a in addresses
  {
    if addresses != [] && addresses[0] != ip { WithoutIt(addresses[1..], ip); }
  }

  lemma DistinctAddresses(s: State, d: nat)
    requires Inv(s) && d in s.devices
    ensures var addresses := WatchOf(s.devices[d]).addresses;
            addresses != [] && forall i, j :: 0 <= i < j < |addresses| ==> addresses[i] != addresses[j]
  {
    hide InvBut;
    DeviceOf(s, d);
  }

  lemma {:induction false} RemoveAllWatched(s: State, ip: string, udns: seq<string>, d: nat)
    requires Inv(s)
    ensures VisitAll(s, false, ip, udns).Ok?
    ensures var t := VisitAll(s, false, ip, udns).value;
            && (d !in s.devices ==> d !in t.devices)
            && (d in s.devices ==>
                  var w := if s.devices[d].udn in udns then Leave(WatchOf(s.devices[d]), ip, BuiltOn(s, d, ip))
                           else WatchOf(s.devices[d]);
                  if w.addresses == [] then d !in t.devices else d in t.devices && WatchOf(t.devices[d]) == w)
    decreases |udns|
  {
    hide Inv, RemoveDevice, WatchOf, Leave, BuiltOn;
    if d in s.devices { DistinctAddresses(s, d); }
    if udns != [] {
      RemoveKeeps(s, ip, udns[0]);
      var t := RemoveDevice(s, ip, udns[0]).value;
      if d !in s.devices {
        RemoveNone(s, ip, udns[0], d);
      } else {
        var w := WatchOf(s.devices[d]);
        LeaveTwice(w, ip, BuiltOn(s, d, ip), BuiltOn(t, d, ip));
        LeaveEmpties(w, ip, BuiltOn(s, d, ip), false);
        if s.devices[d].udn == udns[0] { RemoveWatched(s, ip, d); } else { RemoveOtherWatched(s, ip, udns[0], d); }
      }
      RemoveAllWatched(t, ip, udns[1..], d);
    }
  }

  lemma LeaveEmpties(w: Watch, ip: string, b: bool, c: bool)
    ensures Leave(w, ip, b).addresses == Leave(w, ip, c).addresses
  {}

  lemma TurnWatched(s: State, e: Event, d: nat)
    requires Inv(s) && FreshReplies(s, e) && e.TaskTurn?
    ensures Step(s, e).Ok?
    ensures var t := Step(s, e).value;
            d in t.devices ==> d in s.devices && WatchOf(t.devices[d]) == Moves(WatchOf(s.devices[d]), s, e, d)
  {
    hide InvBut, FreshReplies, Settle, HolderIn, C.LossIps, C.MoveSubscription, C.Valid;
    var q := e.chain;
    TurnKeeps(s, q, e.replies);
    if q in s.chains {
      ChainOf(s, q);
      var x := s.chains[q].device;
      if s.chains[q].pending == [] {
      } else if s.chains[q].pending[0] == Subscribe {
        ValidIsFit(s.devices[x].contexts);
        MoveSettles(s.devices[x].contexts, s.devices[x].timer);
      } else {
        CancelResult(Declared(s, q, e.replies), q);
      }
    }
  }

  lemma ValidIsFit(cs: seq<C.Context>)
    requires C.Valid(cs)
    ensures Fit(cs)
  {}

  lemma TimerWatched(s: State, x: nat, d: nat)
    requires Inv(s) && d in s.devices
    ensures FireTimer(s, x).Ok?
    ensures var t := FireTimer(s, x).value;
            && d in t.devices
            && WatchOf(t.devices[d]) == if x == d then Retry(WatchOf(s.devices[d])) else WatchOf(s.devices[d])
  {
    hide Linked, ObjectsOk, LossOk, DevicesOk, ProgressOk, HolderIn, C.LossIps, C.SubscribePreferred;
    TimerKeeps(s, x);
    if x in s.sources {
      SourceOf(s, x);
      DeviceOf(s, x);
      var dev := s.devices[x];
      SubscribeRetries(dev.contexts, C.LossIps(dev.contexts));
    }
  }

  lemma LossWatched(s: State, x: nat, i: nat, d: nat)
    requires Inv(s) && d in s.devices
    ensures ReportLoss(s, x, i).Ok?
    ensures var t := ReportLoss(s, x, i).value;
            d in t.devices && WatchOf(t.devices[d]) == Moves(WatchOf(s.devices[d]), s, SubscriptionLost(x, i), d)
  {
    hide InvBut, HolderIn, C.LossIps, C.LoseSubscription, Lose;
    if x in s.devices && i < |s.devices[x].contexts| {
      DeviceOf(s, x);
      ValidIsFit(s.devices[x].contexts);
      LossLoses(s.devices[x].contexts, i, s.devices[x].timer);
    }
  }

  lemma LossTimerWatched(s: State, x: nat, ip: string, d: nat)
    requires Inv(s) && d in s.devices
    ensures FireLossTimer(s, x, ip).Ok?
    ensures var t := FireLossTimer(s, x, ip).value;
            d in t.devices && WatchOf(t.devices[d]) == Moves(WatchOf(s.devices[d]), s, LossTimer(x, ip), d)
  {
    hide Linked, ObjectsOk, SourcesOk, DevicesOk, ProgressOk, HolderIn, C.LossIps;
    if (x, ip) in s.lossSources {
      LossSourceOf(s, x, ip);
      DeviceOf(s, x);
      ValidIsFit(s.devices[x].contexts);
      WindowCloses(s.devices[x].contexts, C.IndexOfIp(s.devices[x].contexts, ip));
    }
  }

  /** Every event, whole device trees included, is exactly one move for each device that is there before
      and after; a new device starts on its one address. */
  lemma StepWatched(s: State, e: Event, d: nat)
    requires Inv(s) && FreshReplies(s, e)
    ensures Step(s, e).Ok?
    ensures var t := Step(s, e).value;
            d in t.devices ==>
              if d in s.devices then WatchOf(t.devices[d]) == Moves(WatchOf(s.devices[d]), s, e, d)
              else e.Announced? && e.ip.Some? && WatchOf(t.devices[d]) == Watch([e.ip.value], None, false, {})
  {
    hide Inv, FreshReplies, WatchOf, Join, Leave, Settle, Retry, Lose, BuiltOn;
    match e
    case Announced(info, ip) =>
      AnnounceIsOnePass(s, info, ip);
      AddAllWatched(s, Address(ip), Announces(info, ip), d);
    case Withdrawn(info, ip) =>
      WithdrawIsOnePass(s, info, ip);
      RemoveAllWatched(s, Address(ip), Withdraws(info, ip), d);
    case TaskTurn(_, _) => TurnWatched(s, e, d);
    case ResubscribeTimer(x) => if d in s.devices { TimerWatched(s, x, d); } else { TimerKeeps(s, x); }
    case SubscriptionLost(x, i) => if d in s.devices { LossWatched(s, x, i, d); }
    case LossTimer(x, ip) => if d in s.devices { LossTimerWatched(s, x, ip, d); } else { LossTimerKeeps(s, x, ip); }
    case ClientAction(udn) => ActionRefines(s, udn);
  }

  // ----- runs -----

  /** The moves of a run for device `d`, from its creation on and as long as it is there. */
  function Watched(s: State, events: seq<Event>, d: nat, before: Option<Watch>): Option<Watch>
    decreases |events|
  {
    if events == [] then before
    else
      var e := events[0];
      var t := Step(s, e);
      if t.Fault? then None
      else
        Watched(t.value, events[1..], d,
                if d !in t.value.devices then None
                else if d in s.devices && before.Some? then Some(Moves(before.value, s, e, d))
                else if e.Announced? && e.ip.Some? then Some(Watch([e.ip.value], None, false, {}))
                else None)
  }

  function WatchIn(s: State, d: nat): Option<Watch> {
    if d in s.devices then Some(WatchOf(s.devices[d])) else None
  }

  /** Over every run a device has exactly the addresses, the subscription and the timers that the moves of
      the run give it. */
  lemma {:induction false} RunWatched(s: State, events: seq<Event>, d: nat)
    requires Good(s) && FreshRun(s, events)
    ensures Run(s, events).Ok?
    ensures WatchIn(Run(s, events).value, d) == Watched(s, events, d, WatchIn(s, d))
    decreases |events|
  {
    hide Inv, PathsOk, History.HistoryOk, Step, FreshReplies, WatchOf, Moves;
    if events != [] {
      StepGood(s, events[0]);
      StepWatched(s, events[0], d);
      RunWatched(Step(s, events[0]).value, events[1..], d);
    }
  }
}
