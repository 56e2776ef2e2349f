/** The device registry as a transition system: the two hash tables, the records they point to,
    the construction task chains, and what the outside world sees. Pointers are handles into
    `devices` and `chains`, which hold exactly the records that are currently allocated, so that
    following a stale pointer is a visible `Fault`. */
module Registry {
  import opened Wrappers
  import Contexts
  import Decimal
  import opened DeviceTree

  // ----- records -----

  datatype Task = Subscribe | Declare

  /** A device record. `exposed` is history: a subscription was given up with nothing armed to
      take it over, and no subscription has been made since. */
  datatype Device = Device(
    udn: string,
    path: string,
    contexts: seq<Contexts.Context>,
    timer: bool,
    step: nat,
    ids: seq<nat>,
    exposed: bool)

  /** A construction record together with its own task queue. */
  datatype Chain = Chain(udn: string, ip: string, device: nat, pending: seq<Task>)

  /** What has happened so far, as seen by the connector, the allocator and the task processor. */
  datatype Output =
    | Created(device: nat)
    | Deleted(device: nat)
    | ChainMade(chain: nat)
    | ChainFreed(chain: nat)
    | Ran(device: nat, task: Task)
    | Found(device: nat)
    | Lost(device: nat)

  /** What clients see of it on the bus. */
  datatype Signal =
    | FoundDevice(path: string)
    | LostDevice(path: string)

  type LossSources = set<(nat, string)>

  /** `objects` are the connector ids now published, with the device that published them;
      `sources` are the devices named by the re-subscribe timers the main loop still holds, and
      `lossSources` the contexts, by device and address, named by its loss timers. */
  datatype State = State(
    devices: map<nat, Device>,
    chains: map<nat, Chain>,
    published: map<string, nat>,
    building: map<string, nat>,
    objects: map<nat, nat>,
    sources: set<nat>,
    lossSources: LossSources,
    created: nat,
    started: nat,
    log: seq<Output>,
    signals: seq<Signal>)

  const INIT := State(map[], map[], map[], map[], map[], {}, {}, 0, 0, [], [])

  const INTERFACES: nat := 2

  const PATH_PREFIX := "/com/intel/dLeynaDiagnostics/device"

  /** The counter in a path is a 32-bit unsigned integer. */
  const COUNTER_SIZE: nat := 0x1_0000_0000

  function PathOf(d: nat): string {
    PATH_PREFIX + "/" + Decimal.Print(d % COUNTER_SIZE)
  }

  /** The path of device `d` ends in the number `d`, as a 32-bit unsigned integer prints it. */
  lemma PathNames(d: nat)
    ensures PathOf(d) == "/com/intel/dLeynaDiagnostics/device/" + Decimal.Print(d % 4294967296)
  {}

  /** How often an output has been produced. */
  function Count(log: seq<Output>, o: Output): nat {
    if log == [] then 0
    else Count(log[..|log| - 1], o) + if log[|log| - 1] == o then 1 else 0
  }

  lemma {:induction false} CountIn(log: seq<Output>, o: Output)
    ensures Count(log, o) > 0 <==> o in log
  {
    if log != [] {
      var n := |log| - 1;
      assert log == log[..n] + [log[n]];
      CountIn(log[..n], o);
    }
  }

  function Emit(log: seq<Output>, o: Output): (r: seq<Output>)
    ensures forall x :: Count(r, x) == Count(log, x) + if x == o then 1 else 0
  {
    var r := log + [o];
    assert r[..|r| - 1] == log;
    r
  }

  // ----- device records -----

  /** The construction tasks still to run from a given step on. */
  function PendingFrom(step: nat): seq<Task> {
    (if step < 1 then [Subscribe] else []) + (if step < 2 then [Declare] else [])
  }

  /** The length of the prefix of non-zero ids. */
  function LiveIds(ids: seq<nat>): (k: nat)
    ensures k <= |ids|
    ensures forall i :: 0 <= i < k ==> ids[i] != 0
    ensures k < |ids| ==> ids[k] == 0
  {
    if ids == [] || ids[0] == 0 then 0
    else
      var k := LiveIds(ids[1..]);
      assert forall i :: 1 <= i < k + 1 ==> ids[i] == ids[1..][i - 1];
      k + 1
  }

  function Unpublish(objects: map<nat, nat>, ids: seq<nat>): map<nat, nat> {
    objects - (set i | 0 <= i < LiveIds(ids) :: ids[i])
  }

  /** Unsubscribing a context removes its loss timer from the main loop, if it has one. */
  function Release(sources: LossSources, d: nat, c: Contexts.Context): LossSources {
    if c.lossTimer then sources - {(d, c.ip)} else sources
  }

  /** Freeing a list of contexts unsubscribes each of them. */
  function ReleaseAll(sources: LossSources, d: nat, cs: seq<Contexts.Context>): LossSources {
    if cs == [] then sources else ReleaseAll(Release(sources, d, cs[0]), d, cs[1..])
  }

  /** So does moving the subscription, for the context it leaves. */
  function ReleaseMoved(sources: LossSources, d: nat, cs: seq<Contexts.Context>): LossSources {
    var i := Contexts.FirstSubscribed(cs);
    if i == |cs| || i == Contexts.Preferred(cs) then sources else Release(sources, d, cs[i])
  }

  function DeleteDevice(s: State, d: nat): Outcome<State> {
    if d !in s.devices then Fault
    else
      var dev := s.devices[d];
      Ok(s.(devices := s.devices - {d},
            objects := Unpublish(s.objects, dev.ids),
            sources := if dev.timer then s.sources - {d} else s.sources,
            lossSources := ReleaseAll(s.lossSources, d, dev.contexts),
            log := Emit(s.log, Deleted(d))))
  }

  // ----- construction chains -----

  /** Allocates a record and a queue for device `d`, records them under `udn`, queues the tasks
      that device still needs and starts the queue. */
  function StartChain(s: State, udn: string, ip: string, d: nat): Outcome<State> {
    if d !in s.devices then Fault
    else
      Ok(s.(chains := s.chains[s.started := Chain(udn, ip, d, PendingFrom(s.devices[d].step))],
            building := s.building[udn := s.started],
            started := s.started + 1,
            log := Emit(s.log, ChainMade(s.started))))
  }

  function FreeChain(s: State, q: nat): Outcome<State> {
    if q !in s.chains then Fault
    else Ok(s.(chains := s.chains - {q}, log := Emit(s.log, ChainFreed(q))))
  }

  /** Inserting into the table of published devices deletes the device it replaces, if any. */
  function Publish(s: State, udn: string, d: nat): Outcome<State> {
    var t :- if udn in s.published then DeleteDevice(s, s.published[udn]) else Ok(s);
    Ok(t.(published := t.published[udn := d]))
  }

  /** The `finally` callback of a construction queue. */
  function EndChain(s: State, q: nat, cancelled: bool): Outcome<State> {
    if q !in s.chains || s.chains[q].device !in s.devices then Fault
    else
      var c := s.chains[q];
      if cancelled then
        var t :- FreeChain(s.(building := s.building - {c.udn}), q);
        DeleteDevice(t, c.device)
      else
        var t :- Publish(s, c.udn, c.device);
        var u := t.(log := Emit(t.log, Found(c.device)),
                    signals := t.signals + [FoundDevice(s.devices[c.device].path)]);
        FreeChain(u.(building := u.building - {c.udn}), q)
  }

  // ----- announcements -----

  /** The device a UDN denotes: published, else under construction. */
  function Lookup(s: State, udn: string): Outcome<Option<nat>> {
    if udn in s.published then Ok(Some(s.published[udn]))
    else if udn in s.building then
      if s.building[udn] in s.chains then Ok(Some(s.chains[s.building[udn]].device)) else Fault
    else Ok(None)
  }

  function NewDevice(d: nat, udn: string, ip: string): Device {
    Device(udn, PathOf(d), [Contexts.Context(ip, false, false)], false, 0,
           seq(INTERFACES, i => 0), false)
  }

  function CreateDevice(s: State, ip: string, udn: string): Outcome<State> {
    var d := s.created;
    StartChain(s.(devices := s.devices[d := NewDevice(d, udn, ip)],
                  created := d + 1,
                  log := Emit(s.log, Created(d))),
               udn, ip, d)
  }

  function AddContext(s: State, d: nat, ip: string): Outcome<State> {
    if d !in s.devices then Fault
    else
      var dev := s.devices[d];
      if Contexts.IndexOfIp(dev.contexts, ip) < |dev.contexts| then Ok(s)
      else
        Ok(s.(devices := s.devices[d := dev.(contexts := Contexts.Append(dev.contexts, ip),
                                             exposed := false)],
              lossSources := ReleaseMoved(s.lossSources, d, dev.contexts + [Contexts.Context(ip, false, false)])))
  }

  function AddDevice(s: State, ip: string, udn: string): Outcome<State> {
    var found :- Lookup(s, udn);
    match found
    case Some(d) => AddContext(s, d, ip)
    case None => CreateDevice(s, ip, udn)
  }

  // ----- withdrawals -----

  /** The last context of a published device is gone. */
  function LoseDevice(s: State, udn: string, d: nat): Outcome<State> {
    if d !in s.devices then Fault
    else
      var t := s.(log := Emit(s.log, Lost(d)),
                  signals := s.signals + [LostDevice(s.devices[d].path)]);
      DeleteDevice(t.(published := t.published - {udn}), d)
  }

  /** The context chain `q` was building on is gone: drop the chain and start another one, from
      the current step, on the context preferred now. */
  function SwitchChain(s: State, udn: string, q: nat): Outcome<State> {
    if q !in s.chains then Fault
    else
      var c := s.chains[q];
      var t :- FreeChain(s.(building := s.building - {c.udn}), q);
      if c.device !in t.devices || t.devices[c.device].contexts == [] then Fault
      else
        var cs := t.devices[c.device].contexts;
        StartChain(t, udn, cs[Contexts.Preferred(cs)].ip, c.device)
  }

  function ArmTimer(s: State, d: nat): Outcome<State> {
    if d !in s.devices then Fault
    else
      Ok(s.(devices := s.devices[d := s.devices[d].(timer := true)], sources := s.sources + {d}))
  }

  /** Removes context `i` of device `d`, known as `udn`, and reacts to the removal. `chain` is the
      chain under construction, when the device is not published yet. */
  function DropContext(s: State, udn: string, d: nat, chain: Option<nat>, i: nat): Outcome<State>
    requires d in s.devices && i < |s.devices[d].contexts|
    requires chain.Some? ==> chain.value in s.chains
  {
    var dev := s.devices[d];
    var gone := dev.contexts[i];
    var rest := Contexts.RemoveAt(dev.contexts, i);
    var loss := Release(s.lossSources, d, gone);
    if rest == [] then
      var t := s.(devices := s.devices[d := dev.(contexts := [])], lossSources := loss);
      match chain
      case None => LoseDevice(t, udn, d)
      case Some(q) => EndChain(t, q, true)
    else if chain.Some? && gone.ip == s.chains[chain.value].ip then
      var exposed := dev.exposed || (gone.subscribed && !dev.timer);
      SwitchChain(s.(devices := s.devices[d := dev.(contexts := rest, exposed := exposed)], lossSources := loss),
                  udn, chain.value)
    else
      var t := s.(devices := s.devices[d := dev.(contexts := rest)], lossSources := loss);
      if gone.subscribed && !dev.timer then ArmTimer(t, d) else Ok(t)
  }

  function RemoveDevice(s: State, ip: string, udn: string): Outcome<State> {
    var found :- Lookup(s, udn);
    match found
    case None => Ok(s)
    case Some(d) =>
      if d !in s.devices then Fault
      else
        var i := Contexts.IndexOfIp(s.devices[d].contexts, ip);
        if i == |s.devices[d].contexts| then Ok(s)
        else DropContext(s, udn, d, if udn in s.published then None else Some(s.building[udn]), i)
  }

  // ----- device trees -----

  /** The common shape of both tree walks: `add` selects announcement or withdrawal. */
  function Visit(s: State, add: bool, ip: string, udn: Option<string>): Outcome<State> {
    match udn
    case None => Ok(s)
    case Some(u) => if add then AddDevice(s, ip, u) else RemoveDevice(s, ip, u)
  }

  /** The recursion over embedded devices, as written: each child is visited when it has a
      service, and once more when the recursion into it returns a service. The second component
      is the service returned to the caller. */
  function WalkBelow(s: State, add: bool, ip: string, info: DeviceInfo): Outcome<(State, Option<string>)>
    decreases info, 1
  {
    WalkChildren(s, add, ip, info.children, None)
  }

  function WalkChildren(s: State, add: bool, ip: string, infos: seq<DeviceInfo>, last: Option<string>)
    : Outcome<(State, Option<string>)>
    decreases infos, 0
  {
    if infos == [] then Ok((s, last))
    else
      var child := infos[0];
      var s1 :- if child.service.Some? then Visit(s, add, ip, child.udn) else Ok(s);
      var r :- WalkBelow(s1, add, ip, child);
      var s2 :- if r.1.Some? then Visit(r.0, add, ip, child.udn) else Ok(r.0);
      WalkChildren(s2, add, ip, infos[1..], r.1)
  }

  function Announce(s: State, info: DeviceInfo, ip: Option<string>): Outcome<State> {
    if info.udn.None? || ip.None? then Ok(s)
    else
      var t :- if info.service.Some? then AddDevice(s, ip.value, info.udn.value) else Ok(s);
      var r :- WalkBelow(t, true, ip.value, info);
      Ok(r.0)
  }

  function Withdraw(s: State, info: DeviceInfo, ip: Option<string>): Outcome<State> {
    if info.udn.None? || ip.None? then Ok(s)
    else
      var r :- WalkBelow(s, false, ip.value, info);
      RemoveDevice(r.0, ip.value, info.udn.value)
  }

  // ----- construction tasks -----

  function RunSubscribe(s: State, q: nat): Outcome<State>
    requires q in s.chains && s.chains[q].pending != []
  {
    var c := s.chains[q];
    if c.device !in s.devices || s.devices[c.device].contexts == [] then Fault
    else
      var dev := s.devices[c.device];
      Ok(s.(devices := s.devices[c.device := dev.(step := dev.step + 1,
                                                  contexts := Contexts.MoveSubscription(dev.contexts),
                                                  exposed := false)],
            lossSources := ReleaseMoved(s.lossSources, c.device, dev.contexts),
            chains := s.chains[q := c.(pending := c.pending[1..])],
            log := Emit(s.log, Ran(c.device, Subscribe))))
  }

  /** The ids after publishing stopped at the first refusal (a zero reply). */
  function DeclaredIds(ids: seq<nat>, replies: seq<nat>): (r: seq<nat>)
    requires |ids| == |replies|
    ensures |r| == |ids|
  {
    seq(|ids|, i requires 0 <= i < |ids| => if i <= LiveIds(replies) then replies[i] else ids[i])
  }

  /** The objects device `d` gets published before the first refusal. */
  function Granted(replies: seq<nat>, d: nat): map<nat, nat> {
    map o | o in replies[..LiveIds(replies)] :: d
  }

  type Replies = r: seq<nat> | |r| == INTERFACES witness [1, 2]

  /** The connector answers the publication of interface `i` with `replies[i]`, zero for a
      refusal. This is the state in which publishing stops. */
  function Declared(s: State, q: nat, replies: Replies): State
    requires q in s.chains && s.chains[q].pending != []
    requires s.chains[q].device in s.devices && |s.devices[s.chains[q].device].ids| == INTERFACES
  {
    var c := s.chains[q];
    var dev := s.devices[c.device];
    s.(devices := s.devices[c.device := dev.(step := dev.step + 1, ids := DeclaredIds(dev.ids, replies))],
       objects := s.objects + Granted(replies, c.device),
       chains := s.chains[q := c.(pending := c.pending[1..])],
       log := Emit(s.log, Ran(c.device, Declare)))
  }

  /** A refusal cancels the queue. */
  function RunDeclare(s: State, q: nat, replies: Replies): Outcome<State>
    requires q in s.chains && s.chains[q].pending != []
  {
    var d := s.chains[q].device;
    if d !in s.devices || |s.devices[d].ids| != INTERFACES then Fault
    else
      var t := Declared(s, q, replies);
      if LiveIds(replies) < |replies| then EndChain(t, q, true) else Ok(t)
  }

  // ----- the transition system -----

  datatype Event =
    | Announced(info: DeviceInfo, ip: Option<string>)
    | Withdrawn(info: DeviceInfo, ip: Option<string>)
    | TaskTurn(chain: nat, replies: Replies)
    | ResubscribeTimer(device: nat)
    | SubscriptionLost(device: nat, context: nat)
    | LossTimer(device: nat, address: string)
    | ClientAction(udn: string)

  /** One turn of a construction queue: its next task, or its end when none is left. */
  function TakeTurn(s: State, q: nat, replies: Replies): Outcome<State> {
    if q !in s.chains then Ok(s)
    else if s.chains[q].pending == [] then EndChain(s, q, false)
    else
      match s.chains[q].pending[0]
      case Subscribe => RunSubscribe(s, q)
      case Declare => RunDeclare(s, q, replies)
  }

  /** A timer held by the main loop fires; it is gone afterwards. */
  function FireTimer(s: State, d: nat): Outcome<State> {
    if d !in s.sources then Ok(s)
    else if d !in s.devices || s.devices[d].contexts == [] then Fault
    else
      var dev := s.devices[d];
      Ok(s.(devices := s.devices[d := dev.(timer := false,
                                           contexts := Contexts.SubscribePreferred(dev.contexts),
                                           exposed := false)],
            sources := s.sources - {d}))
  }

  /** One call of the loss handler of a context. The code connects another handler with every
      subscription, so that one loss can bring several calls, the later ones after the flag has been
      cleared. */
  function ReportLoss(s: State, d: nat, i: nat): Outcome<State> {
    if d in s.devices && i < |s.devices[d].contexts| then
      var dev := s.devices[d];
      var c := dev.contexts[i];
      Ok(s.(devices := s.devices[d := dev.(contexts := dev.contexts[i := Contexts.LoseSubscription(c)],
                                           exposed := dev.exposed || (c.subscribed && c.lossTimer && !dev.timer))],
            lossSources := if c.lossTimer then s.lossSources - {(d, c.ip)} else s.lossSources + {(d, c.ip)}))
    else Ok(s)
  }

  /** A loss timer held by the main loop fires, and writes into its context; it is gone afterwards. */
  function FireLossTimer(s: State, d: nat, ip: string): Outcome<State> {
    if (d, ip) !in s.lossSources then Ok(s)
    else if d !in s.devices then Fault
    else
      var dev := s.devices[d];
      var i := Contexts.IndexOfIp(dev.contexts, ip);
      if i == |dev.contexts| then Fault
      else
        var cs := dev.contexts[i := dev.contexts[i].(lossTimer := false)];
        Ok(s.(devices := s.devices[d := dev.(contexts := cs)], lossSources := s.lossSources - {(d, ip)}))
  }

  /** A client operation on a published device begins by asking for its preferred context. */
  function StartAction(s: State, udn: string): Outcome<State> {
    if udn !in s.published then Ok(s)
    else if s.published[udn] !in s.devices || s.devices[s.published[udn]].contexts == [] then Fault
    else Ok(s)
  }

  function Step(s: State, e: Event): Outcome<State> {
    match e
    case Announced(info, ip) => Announce(s, info, ip)
    case Withdrawn(info, ip) => Withdraw(s, info, ip)
    case TaskTurn(q, replies) => TakeTurn(s, q, replies)
    case ResubscribeTimer(d) => FireTimer(s, d)
    case SubscriptionLost(d, i) => ReportLoss(s, d, i)
    case LossTimer(d, ip) => FireLossTimer(s, d, ip)
    case ClientAction(udn) => StartAction(s, udn)
  }

  function Run(s: State, events: seq<Event>): Outcome<State>
    decreases |events|
  {
    if events == [] then Ok(s)
    else
      var t :- Step(s, events[0]);
      Run(t, events[1..])
  }

  /** The connector hands out ids that are not in use, and different ones within one chain. */
  predicate FreshReplies(s: State, e: Event) {
    e.TaskTurn? ==>
      var k := LiveIds(e.replies);
      && (forall i :: 0 <= i < k ==> e.replies[i] !in s.objects)
      && (forall i, j :: 0 <= i < j < k ==> e.replies[i] != e.replies[j])
  }

  predicate FreshRun(s: State, events: seq<Event>)
    decreases |events|
  {
    events != [] ==>
      && FreshReplies(s, events[0])
      && (var t := Step(s, events[0]); t.Ok? ==> FreshRun(t.value, events[1..]))
  }
}
