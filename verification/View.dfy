/** The reference the registry is measured against: for every known UDN the set of addresses it
    is reachable on and how far its construction has come. No records, queues, timers or
    subscriptions. */
module View {

  /** `stage` counts finished construction tasks; PUBLISHED once the device is announced. */
  datatype Entry = Entry(ips: set<string>, stage: nat)

  const PUBLISHED: nat := 3

  type View = map<string, Entry>

  function Join(v: View, udn: string, ip: string): View {
    if udn in v then v[udn := v[udn].(ips := v[udn].ips + {ip})]
    else v[udn := Entry({ip}, 0)]
  }

  function Leave(v: View, udn: string, ip: string): View {
    if udn !in v then v
    else if v[udn].ips - {ip} == {} then v - {udn}
    else v[udn := v[udn].(ips := v[udn].ips - {ip})]
  }

  /** One construction turn: subscribe, declare (which a refusal turns into failure), publish. */
  function Turn(v: View, udn: string, refused: bool): View {
    if udn !in v then v
    else if v[udn].stage == 1 && refused then v - {udn}
    else v[udn := v[udn].(stage := v[udn].stage + 1)]
  }

  datatype Move =
    | Joined(udns: seq<string>, ip: string)
    | Left(udns: seq<string>, ip: string)
    | Turned(udn: string, refused: bool)
    | Quiet

  function JoinAll(v: View, udns: seq<string>, ip: string): View
    decreases |udns|
  {
    if udns == [] then v else JoinAll(Join(v, udns[0], ip), udns[1..], ip)
  }

  function LeaveAll(v: View, udns: seq<string>, ip: string): View
    decreases |udns|
  {
    if udns == [] then v else LeaveAll(Leave(v, udns[0], ip), udns[1..], ip)
  }

  function Play(v: View, m: Move): View {
    match m
    case Joined(udns, ip) => JoinAll(v, udns, ip)
    case Left(udns, ip) => LeaveAll(v, udns, ip)
    case Turned(udn, refused) => Turn(v, udn, refused)
    case Quiet => v
  }

  function PlayAll(v: View, moves: seq<Move>): View
    decreases |moves|
  {
    if moves == [] then v else PlayAll(Play(v, moves[0]), moves[1..])
  }

  // ----- laws of the reference -----

  /** No UDN is kept without an address. */
  predicate ViewOk(v: View) {
    forall u :: u in v ==> v[u].ips != {}
  }

  /** What is known: which UDN is reachable on which address. */
  predicate Knows(v: View, udn: string, ip: string) {
    udn in v && ip in v[udn].ips
  }

  lemma JoinKnows(v: View, udn: string, ip: string)
    requires ViewOk(v)
    ensures ViewOk(Join(v, udn, ip))
    ensures forall u, i :: Knows(Join(v, udn, ip), u, i) <==> Knows(v, u, i) || (u == udn && i == ip)
  {}

  lemma LeaveKnows(v: View, udn: string, ip: string)
    requires ViewOk(v)
    ensures ViewOk(Leave(v, udn, ip))
    ensures forall u, i :: Knows(Leave(v, udn, ip), u, i) <==> Knows(v, u, i) && !(u == udn && i == ip)
  {
    if udn in v && v[udn].ips - {ip} == {} {
      assert forall i :: i in v[udn].ips ==> i == ip || i in v[udn].ips - {ip};
    }
  }

  lemma {:induction false} JoinAllKnows(v: View, udns: seq<string>, ip: string)
    requires ViewOk(v)
    ensures ViewOk(JoinAll(v, udns, ip))
    ensures forall u, i :: Knows(JoinAll(v, udns, ip), u, i) <==> Knows(v, u, i) || (u in udns && i == ip)
    decreases |udns|
  {
    if udns != [] {
      JoinKnows(v, udns[0], ip);
      JoinAllKnows(Join(v, udns[0], ip), udns[1..], ip);
    }
  }

  lemma {:induction false} LeaveAllKnows(v: View, udns: seq<string>, ip: string)
    requires ViewOk(v)
    ensures ViewOk(LeaveAll(v, udns, ip))
    ensures forall u, i :: Knows(LeaveAll(v, udns, ip), u, i) <==> Knows(v, u, i) && !(u in udns && i == ip)
    decreases |udns|
  {
    if udns != [] {
      LeaveKnows(v, udns[0], ip);
      LeaveAllKnows(Leave(v, udns[0], ip), udns[1..], ip);
    }
  }
}
