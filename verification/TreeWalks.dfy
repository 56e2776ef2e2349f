/** What the two recursions over embedded devices really do: they never return a service, so
    their second visit is dead code, and they visit exactly the descendants that have a service
    and a UDN, once each, in pre-order. */
module TreeWalks {
  import opened Wrappers
  import opened Registry
  import opened DeviceTree

  function VisitOne(s: State, add: bool, ip: string, udn: string): Outcome<State> {
    if add then AddDevice(s, ip, udn) else RemoveDevice(s, ip, udn)
  }

  /** Visiting a list of UDNs from left to right. */
  function VisitAll(s: State, add: bool, ip: string, udns: seq<string>): Outcome<State>
    decreases |udns|
  {
    if udns == [] then Ok(s)
    else
      var t :- VisitOne(s, add, ip, udns[0]);
      VisitAll(t, add, ip, udns[1..])
  }

  lemma {:induction false} VisitAllConcat(s: State, add: bool, ip: string, us: seq<string>, vs: seq<string>)
    ensures VisitAll(s, add, ip, us + vs) ==
            match VisitAll(s, add, ip, us)
            case Ok(t) => VisitAll(t, add, ip, vs)
            case Fault => Fault
    decreases |us|
  {
    if us == [] {
      assert us + vs == vs;
    } else {
      assert (us + vs)[1..] == us[1..] + vs;
      var t := VisitOne(s, add, ip, us[0]);
      if t.Ok? { VisitAllConcat(t.value, add, ip, us[1..], vs); }
    }
  }

  lemma VisitSingle(s: State, add: bool, ip: string, udn: string)
    ensures VisitAll(s, add, ip, [udn]) == VisitOne(s, add, ip, udn)
  {}

  function Paired(r: Outcome<State>, service: Option<string>): Outcome<(State, Option<string>)> {
    match r
    case Ok(t) => Ok((t, service))
    case Fault => Fault
  }

  /** For every device tree the recursion returns no service and equals one left-to-right pass
      over the managed descendants. */
  lemma {:induction false} WalkIsOnePass(s: State, add: bool, ip: string, info: DeviceInfo)
    ensures WalkBelow(s, add, ip, info) == Paired(VisitAll(s, add, ip, ManagedBelow(info)), None)
    decreases info, 1
  {
    WalkChildrenIsOnePass(s, add, ip, info.children, None);
  }

  lemma {:induction false} WalkChildrenIsOnePass(s: State, add: bool, ip: string, infos: seq<DeviceInfo>,
                                                 last: Option<string>)
    ensures WalkChildren(s, add, ip, infos, last) ==
            Paired(VisitAll(s, add, ip, ManagedForest(infos)), if infos == [] then last else None)
    decreases infos, 0
  {
    if infos != [] {
      var child := infos[0];
      var own := if child.service.Some? && child.udn.Some? then [child.udn.value] else [];
      var s1 := if child.service.Some? then Visit(s, add, ip, child.udn) else Ok(s);
      assert s1 == VisitAll(s, add, ip, own);
      VisitAllConcat(s, add, ip, own, ManagedBelow(child));
      VisitAllConcat(s, add, ip, Managed(child), ManagedForest(infos[1..]));
      if s1.Ok? {
        WalkIsOnePass(s1.value, add, ip, child);
        var r := WalkBelow(s1.value, add, ip, child);
        if r.Ok? { WalkChildrenIsOnePass(r.value.0, add, ip, infos[1..], r.value.1); }
      }
    }
  }

  /** The UDNs an announcement adds. */
  function Announces(info: DeviceInfo, ip: Option<string>): seq<string> {
    if info.udn.None? || ip.None? then [] else Managed(info)
  }

  /** The UDNs a withdrawal removes: the root goes last, and whether or not it has a service. */
  function Withdraws(info: DeviceInfo, ip: Option<string>): seq<string> {
    if info.udn.None? || ip.None? then [] else ManagedBelow(info) + [info.udn.value]
  }

  function Address(ip: Option<string>): string {
    if ip.Some? then ip.value else ""
  }

  lemma AnnounceIsOnePass(s: State, info: DeviceInfo, ip: Option<string>)
    ensures Announce(s, info, ip) == VisitAll(s, true, Address(ip), Announces(info, ip))
  {
    if info.udn.Some? && ip.Some? {
      var own := if info.service.Some? then [info.udn.value] else [];
      VisitSingle(s, true, ip.value, info.udn.value);
      var t := VisitAll(s, true, ip.value, own);
      assert t == if info.service.Some? then AddDevice(s, ip.value, info.udn.value) else Ok(s);
      VisitAllConcat(s, true, ip.value, own, ManagedBelow(info));
      if t.Ok? { WalkIsOnePass(t.value, true, ip.value, info); }
    }
  }

  lemma WithdrawIsOnePass(s: State, info: DeviceInfo, ip: Option<string>)
    ensures Withdraw(s, info, ip) == VisitAll(s, false, Address(ip), Withdraws(info, ip))
  {
    if info.udn.Some? && ip.Some? {
      WalkIsOnePass(s, false, ip.value, info);
      VisitAllConcat(s, false, ip.value, ManagedBelow(info), [info.udn.value]);
      var t := VisitAll(s, false, ip.value, ManagedBelow(info));
      if t.Ok? { VisitSingle(t.value, false, ip.value, info.udn.value); }
    }
  }

  lemma PlainWalks(s: State, udn: string, ip: string)
    ensures Announce(s, Plain(udn), Some(ip)) == AddDevice(s, ip, udn)
    ensures Withdraw(s, Plain(udn), Some(ip)) == RemoveDevice(s, ip, udn)
  {
    AnnounceIsOnePass(s, Plain(udn), Some(ip));
    WithdrawIsOnePass(s, Plain(udn), Some(ip));
    assert Managed(Plain(udn)) == [udn] && ManagedBelow(Plain(udn)) + [udn] == [udn];
    VisitSingle(s, true, ip, udn);
    VisitSingle(s, false, ip, udn);
  }
}
