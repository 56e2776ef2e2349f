# A verified model of dleyna-diagnostics

dleyna-diagnostics makes UPnP devices that offer the BasicManagement service available on D-Bus. This
project models the part of it that keeps state and the part that decodes device data, and proves what
holds over every sequence of events. `dafny verify dfyconfig.toml` checks all of it.

## What is modelled

**The device registry.** UPnP announcements and withdrawals arrive per network address and drive two
tables, the published devices and the devices under construction. Each device has an ordered list of
contexts, one per address; one of them holds the event subscription. A device is built by its own queue
of two tasks (subscribe, declare), which can be cancelled or moved to another address half way.

| file | contents |
|---|---|
| `Contexts.dfy` | one device's context list as a value: preference and subscription |
| `DeviceTree.dfy` | a device description with its embedded devices |
| `Registry.dfy` | the registry as a transition system; every stale pointer is a visible `Fault` |
| `Invariant.dfy` | the joint invariant and its preservation, operation by operation |
| `TreeWalks.dfy` | what the two recursions over embedded devices do |
| `View.dfy`, `Refinement.dfy` | a much simpler machine (addresses and stage per UDN) and the refinement |
| `History.dfy`, `Bus.dfy` | allocation, release and signal history; everything that holds in every state |
| `Runs.dfy`, `Paths.dfy` | the main results over all runs |
| `Causes.dfy` | what ends a device's event coverage and what frees a construction record, event by event and over all runs |
| `Watch.dfy` | a machine over one device's addresses, subscription and timers, and that every event is one move of it |
| `Completion.dfy`, `Witness.dfy` | that construction completes, alone and amid other events, and runs that reach the awkward cases |
| `Devices.dfy`, `Upnp.dfy` | the records and the registry as objects updated in place, each method proved against its description in `Registry.dfy` |

**Client invocations.** `Tasks.dfy` describes the task record, its asynchronous operation and the
callbacks that end it, next to a small machine of what the client sees; `AsyncTasks.dfy` is the record
updated in place. `Joint.dfy` puts registry and invocations together, `Delivery.dfy` says what each client's
task gets to see of it, and `Stranding.dfy` what a withdrawal does to the actions begun on its address.

**Device data.** `Csv.dfy` and `Decimal.dfy` decode comma-separated values and test ids, `Xml.dfy` and
`NsLookup.dfy` look things up in parsed XML and decode NSLookup results, and `Properties.dfy` keeps the
properties of a device object and its PropertiesChanged signals.

`Wrappers.dfy` holds the option and outcome types.

## Step rules taken as given

dleyna-core, GLib, GUPnP and libsoup are not part of this model. What the code relies on is written into
the step functions:

- A queue runs its tasks in order, one per step. Its `finally` callback runs exactly once, with
  `cancelled` set exactly when the queue was cancelled or a task set `*failed`; cancelled tasks do not run,
  and an empty queue that is started ends normally. Cancelling and the `finally` call are one step.
- The connector answers a publication with zero (refused) or with an id that is not in use.
- A timer fires at any later step while the main loop holds it, which is until it fires or is removed.
- Registered service proxies are not null. A loss event is one call of the "subscription-lost" handler of a
  context the device still has; the context need not be subscribed.
- Removing the queues of a path, when its device is lost, cancels the task that runs and deletes those that
  wait. A client's task for a device has the device's path for its queue.
- A client queue starts a task at most once and deletes it before it starts or after it was reported
  complete, not in between.
- A cancellable calls its handlers the first time it is cancelled, and never after they were
  disconnected. A cancelled service action does not call back, and a service proxy that goes away cancels
  its outstanding actions. A cancelled download calls back at once, with the status CANCELLED.
- A context holds the only lasting reference to its service proxy, so the proxy goes when the context is
  removed (`libdleyna/diagnostics/device.c:126-140`), and not before.

Clocks, the network and the connector's answers are parameters of events.

## Findings

- **A published device can be left without an event subscription** (`Witness.UncoveredIsReachable`). When
  the context under construction is withdrawn after the subscribe step, the new queue does not subscribe
  again and, unlike every other removal of the subscribed context, no timer is armed. The other way is a
  second call of the loss handler within ten seconds. There is no third: `Causes.OnlyTwoWays` says so for every run, and
  `Causes.StepCoverage` gives the exact conditions for every event.
- **Object paths repeat after 2^32 devices**: the path is a 32-bit counter. Two published devices can then
  have the same path, which FoundDevice announces twice (`Completion.PathsRepeat`); a path can come into
  use again after LostDevice, so that GetDevices answers it although it was lost
  (`Completion.PathsAreReused`). `Paths.SentTwiceExactly` and `Paths.ListedExactly` say exactly when;
  `Paths.PathBalance` is what holds regardless.
- **The second visit in both tree recursions is dead code**: they always return NULL
  (`TreeWalks.WalkIsOnePass`).
- **A withdrawal also removes a root device that has no service**, while an announcement adds the root only
  when it has one; so withdrawing is not the exact inverse of announcing (`Runs.WithdrawAfterAnnounce`).
- **An action whose service proxy goes away is finished by a cancel and by nothing else**
  (`Tasks.LostUntilCancelled`): `Tasks.ActionsCanHang` is such a run, and `Tasks.HangsExactly` says for
  every sequence of events whether a task ends up running with nothing left that could end it. The
  withdrawal of one address of a device that has another does this to every open action begun on that
  address, while the device stays published and no client is told (`Stranding.WithdrawalStrands`, reached in
  `Stranding.HangingOccurs`); `Joint.RunHangs` gives the exact condition over every run of the whole service.
- **One loss can count as two.** The "subscription-lost" handler is connected at every subscription
  (`libdleyna/diagnostics/device.c:368-371`) and never disconnected. Once a context has been subscribed a
  second time, one signal calls the handler twice, and the second call gives the subscription up at once:
  it survives only a single call with no earlier loss in the window (`Contexts.RepeatedLoss`). In the model
  these are two loss events in a row, so everything proved over runs covers them.
- **A list holding one empty string does not survive CSV**: it is written like the empty list and read back
  as that (`Csv.DecodeUndoesJoin`). Test ids of 2^31 and more are not read back either
  (`Csv.DecodeUndoesPrint`).
- **A GetAll answer can be stale when it arrives**: it is built when the task starts and sent by a later
  idle turn (`Properties.LateReplayCanMiss`, `Properties.LateReplayExactly`).
- **NSLookup results reach the client in reverse document order** (`NsLookup.ReverseDocumentOrder`).
- **An XML path lookup does not backtrack** (`Xml.NoBacktracking`).
- `doc/server/dbus/API.txt` lists Status and StatusChangedDate among the device properties; the code
  publishes neither. The model follows the code.

## Model

| member | source | states |
|---|---|---|
| Runs.NoRunFaults | libdleyna/diagnostics/upnp.c:149-424 | over every run no freed device, context or construction record is used or freed again, also by no timer, and no empty context list is asked for its preferred context |
| Bus.RunGood | libdleyna/diagnostics/upnp.c:41-51 | every run keeps the joint invariant of the two tables, the records, the timers, the bus objects and the history |
| Bus.StepGood | libdleyna/diagnostics/upnp.c:149-529 | each single event keeps it and cannot fault |
| Runs.RunKnows | libdleyna/diagnostics/upnp.c:149-202 | after any run the registry knows exactly the (UDN, address) pairs announced and neither withdrawn nor lost with a failed construction since |
| Runs.StepKnows | libdleyna/diagnostics/upnp.c:277-317 | what one event adds to and takes from the known pairs |
| Refinement.RunRefines | libdleyna/diagnostics/upnp.c:41-51 | every run of the registry is a run of the machine that knows only addresses and a stage per UDN |
| Refinement.StepRefines | libdleyna/diagnostics/upnp.c:149-529 | each event is one move of that machine |
| Refinement.AddRefines | libdleyna/diagnostics/upnp.c:149-202 | an announcement adds its address to its UDN, or the UDN at stage 0, and changes no other entry |
| Refinement.RemoveRefines | libdleyna/diagnostics/upnp.c:329-424 | a withdrawal removes the address, and the UDN with its last one, whichever of the five reactions it takes |
| Refinement.DeclareRefines | libdleyna/diagnostics/device.c:395-433 | a refused interface forgets the UDN, accepted ones advance its stage |
| Refinement.PublishRefines | libdleyna/diagnostics/upnp.c:72-99 | the end of a construction moves the UDN to the published stage with its addresses unchanged |
| Runs.OwnedExactlyOnce | libdleyna/diagnostics/upnp.c:563-568 | each device ever created is under construction, published or deleted, exactly one of these, and has been freed once in the last case only |
| Runs.RecordsExactlyOnce | libdleyna/diagnostics/upnp.c:63-110 | each construction record ever made is either live, and then the one entry for its UDN in either table, or has been freed exactly once |
| Causes.StepFrees | libdleyna/diagnostics/upnp.c:72-110 | a record is freed by the last or the refused turn of its own queue or by the withdrawal of the address it builds on, by nothing else, and does not come back |
| Causes.StepAdvances | libdleyna/diagnostics/device.c:375-433 | an event that does not end a construction leaves its record, one task shorter if it was a turn of its own queue |
| Runs.ChainRunsTheSuffix | libdleyna/diagnostics/device.c:435-464 | however often construction switched context, the pending tasks are the suffix of subscribe, declare from the device's step, on a current address, and none ran twice |
| Runs.PublishedComplete | libdleyna/diagnostics/upnp.c:84-87 | a published device is at step 2, has a context, ran both tasks once, and all its interface ids are non-zero and on the bus in its name |
| Runs.ObjectsExact | libdleyna/diagnostics/device.c:264-287 | the objects on the bus are exactly the non-zero ids of live devices |
| Runs.SubscribedIsPreferred | libdleyna/diagnostics/device.c:205-253 | a subscribed context is the one the device prefers, so at most one is subscribed |
| Runs.AddressesDistinct | libdleyna/diagnostics/upnp.c:188-198 | no two contexts of a device are on one address |
| Runs.CoverageFlagExact | libdleyna/diagnostics/device.c:312-373 | past the subscribe step a device has a subscription or an armed timer unless the history flag is set, and not otherwise |
| Causes.StepCoverage | libdleyna/diagnostics/upnp.c:388-416 | for every event, whole device trees included, exactly when a device is covered after it; only its own subscribe turn takes a device past that step |
| Causes.RunCoverage | libdleyna/diagnostics/device.c:235-253 | over every run a device is covered exactly by the account of the two events that give coverage and the two that end it |
| Causes.OnlyTwoWays | libdleyna/diagnostics/device.c:312-338 | in every run from the start, an uncovered device past the subscribe step has met one of the two events that end coverage |
| Watch.StepWatched | libdleyna/diagnostics/upnp.c:149-424 | every event, whole device trees included, changes a device's addresses in their order, its subscription, its re-subscribe timer and its loss windows exactly as one move of a machine that knows only these; a new device starts on its one address, not subscribed |
| Watch.RunWatched | libdleyna/diagnostics/device.c:205-373 | the same over every run, from a device's creation to its deletion |
| Runs.TimersExact | libdleyna/diagnostics/device.c:96-103 | the main loop holds exactly the re-subscribe and loss timers armed for live devices and their contexts, so none outlives its record |
| Runs.SwitchRestartsOnPreferred | libdleyna/diagnostics/upnp.c:388-409 | after a switch the old record is gone and a new one has its remaining tasks on the context preferred among the addresses left |
| Witness.UncoveredIsReachable | libdleyna/diagnostics/upnp.c:388-409 | for every UDN and any two non-loopback addresses some run publishes the device uncovered |
| Runs.AnnounceTwice | libdleyna/diagnostics/upnp.c:277-317 | announcing a tree a second time changes nothing |
| Runs.WithdrawAfterAnnounce | libdleyna/diagnostics/upnp.c:499-529 | announcing then withdrawing leaves the earlier pairs minus this address for the root and its service-bearing descendants |
| TreeWalks.WalkIsOnePass | libdleyna/diagnostics/upnp.c:230-275 | on every device tree the recursion returns no service and visits each service-bearing descendant with a UDN once, in pre-order |
| TreeWalks.WalkChildrenIsOnePass | libdleyna/diagnostics/upnp.c:452-497 | the same for the loop over siblings, starting anywhere |
| TreeWalks.AnnounceIsOnePass | libdleyna/diagnostics/upnp.c:277-317 | an announcement is one left-to-right pass over the root, if it has a service, and those descendants |
| TreeWalks.WithdrawIsOnePass | libdleyna/diagnostics/upnp.c:499-529 | a withdrawal is one pass over those descendants and then the root |
| Paths.PathsCollideExactly | libdleyna/diagnostics/device.c:481 | two devices have the same path exactly when their numbers agree modulo 2^32 |
| Registry.PathNames | libdleyna/diagnostics/device.c:481 | the path of a device is the device prefix and its number modulo 2^32 in decimal |
| Paths.LivePathsDistinct | libdleyna/diagnostics/device.c:506-523 | live devices share a path exactly in that case, so never before 2^32 have been created |
| Paths.OnlyCarrierExactly | libdleyna/diagnostics/device.c:506-523 | a published device is alone on its path exactly when no other is numbered 2^32 apart |
| Paths.PathBalance | libdleyna/diagnostics/upnp.c:590-610 | in every reachable state a path has been announced once per withdrawal and once per device published under it, and GetDevices gives the paths announced more often than withdrawn |
| Paths.SentTwiceExactly | libdleyna/diagnostics/server.c:844-868 | a path is announced more than once exactly when two devices 2^32 apart have been announced under it, and withdrawn more than once exactly when two have been withdrawn |
| Paths.ListedExactly | libdleyna/diagnostics/upnp.c:590-610 | GetDevices gives a path exactly if it was found and not lost, except for exactly the paths published again by a device whose twin was withdrawn |
| Paths.SignalsPerPath | libdleyna/diagnostics/upnp.c:375-380 | at no time more LostDevice than FoundDevice signals for a path, each LostDevice after a FoundDevice; while at most 2^32 devices have been created also at most one of each, and GetDevices gives exactly the paths found and not lost |
| Completion.ConstructionCompletes | libdleyna/diagnostics/device.c:375-464 | from every reachable state an unknown device is published three turns after its announcement, subscribed and with the granted ids, and nothing else changes |
| Completion.RunAdvances | libdleyna/diagnostics/device.c:435-464 | whatever else happens, a construction nothing ends has run one task per turn of its queue and has the rest pending |
| Completion.CompletesAmid | libdleyna/diagnostics/device.c:375-464 | amid any other events, a construction nothing ends publishes and announces its device at the turn after its last task, with all ids granted |
| Completion.CycleLeavesNoTrace | libdleyna/diagnostics/upnp.c:381-387 | an announcement withdrawn before its first turn leaves everything but the counters and the log as it was |
| Completion.LifeLeavesSignals | libdleyna/diagnostics/upnp.c:374-380 | a device published and then withdrawn leaves the counters, the log and its two signals, and nothing else |
| Completion.PathsRepeat | libdleyna/diagnostics/upnp.c:184 | a run exists in which two published devices have one path, announced twice |
| Completion.PathsAreReused | libdleyna/diagnostics/upnp.c:184 | a run exists in which GetDevices gives a path that has been withdrawn, and one in which a path is withdrawn twice |
| Invariant.InitInv | libdleyna/diagnostics/upnp.c:551-577 | the empty registry satisfies the invariant |
| Invariant.AddKeeps | libdleyna/diagnostics/upnp.c:149-202 | an announcement keeps the invariant and cannot fault |
| Invariant.RemoveKeeps | libdleyna/diagnostics/upnp.c:329-424 | a withdrawal keeps it in all of its reactions |
| Invariant.SubscribeKeeps | libdleyna/diagnostics/device.c:375-393 | the subscribe task keeps it |
| Invariant.DeclareKeeps | libdleyna/diagnostics/device.c:395-433 | the declare task keeps it, also when an interface is refused and the device is deleted at once |
| Invariant.PublishKeeps | libdleyna/diagnostics/upnp.c:72-99 | publishing keeps it and replaces no published device |
| Invariant.TimerKeeps | libdleyna/diagnostics/upnp.c:319-327 | the re-subscribe timer only fires for a live device with a context, and keeps it |
| Invariant.LossKeeps | libdleyna/diagnostics/device.c:312-338 | loss reports keep it |
| Invariant.LossTimerKeeps | libdleyna/diagnostics/device.c:303-310 | the loss timer keeps it |
| Invariant.DeclareLeavesPrefix | libdleyna/diagnostics/device.c:414-426 | declaring leaves the granted ids followed by zeros, refused or not |
| Invariant.UnpublishExact | libdleyna/diagnostics/device.c:273-276 | the loop that stops at the first zero unpublishes exactly the device's own objects |
| Contexts.RemovalKeepsPreference | libdleyna/diagnostics/device.c:525-544 | removing a context other than the preferred one leaves the preference on the same context |
| Contexts.PreferredExactly | libdleyna/diagnostics/device.c:525-544 | a context is preferred exactly if it is the first on an address that starts with 127.0.0. or is one of the two IPv6 loopback spellings, or the first of all when there is none such |
| Contexts.RemovalKeepsValid | libdleyna/diagnostics/upnp.c:365-372 | removal keeps distinct addresses and the subscription on the preferred context, and loses the subscription exactly with its holder |
| Contexts.RemovalIps | libdleyna/diagnostics/upnp.c:365-372 | removal takes exactly one address off the device |
| Contexts.MoveSubscriptionEstablishes | libdleyna/diagnostics/device.c:235-253 | from any list with at most one subscription, exactly the preferred context is subscribed afterwards |
| Contexts.AppendKeepsValid | libdleyna/diagnostics/device.c:255-262 | appending a new address adds it, keeps the list valid and leaves the device subscribed |
| Contexts.SubscribePreferredKeepsValid | libdleyna/diagnostics/device.c:340-373 | subscribing at any time keeps the list valid and leaves a subscription |
| Contexts.LossKeepsValid | libdleyna/diagnostics/device.c:312-338 | a loss report ends the subscription exactly when it is for the subscribed context with the loss timer armed |
| Contexts.RepeatedLoss | libdleyna/diagnostics/device.c:312-338 | when one loss calls the handler n times, the subscription survives exactly if n is 0, or 1 with no timer armed |
| Contexts.MoveLossIps | libdleyna/diagnostics/device.c:96-103 | moving the subscription disarms the loss timer of the context it leaves and no other |
| Contexts.LossTimerKeepsValid | libdleyna/diagnostics/device.c:303-310 | the loss timer changes no subscription |
| Contexts.FirstLoopback | libdleyna/diagnostics/device.c:529-541 | the first context on one of the recognised loopback addresses, if there is one |
| Devices.Context.constructor | libdleyna/diagnostics/device.c:185-203 | a new context is not subscribed and has no timer |
| Devices.Context.Unsubscribe | libdleyna/diagnostics/device.c:96-124 | timer and subscription are both gone |
| Devices.Context.OnSubscriptionLost | libdleyna/diagnostics/device.c:312-338 | first report arms the timer, second gives the subscription up |
| Devices.Device.constructor | libdleyna/diagnostics/device.c:466-504 | a device has one context, all-zero ids, step 0 and the path of the counter |
| Devices.Device.GetContext | libdleyna/diagnostics/device.c:525-544 | the loop finds the preferred context of a non-empty list, which Contexts.PreferredExactly characterises |
| Devices.Device.GetSubscribedContext | libdleyna/diagnostics/device.c:205-222 | the first subscribed context, or none when there is none |
| Devices.Device.FindContext | libdleyna/diagnostics/upnp.c:188-192 | the position of the address, or the length when it is new |
| Devices.Device.SubscribeToServiceChanges | libdleyna/diagnostics/device.c:340-373 | exactly the preferred context becomes subscribed |
| Devices.Device.SubscribeContext | libdleyna/diagnostics/device.c:235-253 | the subscription moves to the preferred context, other contexts keep their state |
| Devices.Device.AppendContext | libdleyna/diagnostics/device.c:224-233 | a fresh, unsubscribed record at the end, older ones untouched |
| Devices.Device.AppendNewContext | libdleyna/diagnostics/device.c:255-262 | the same and the subscription moved |
| Devices.Device.RemoveContext | libdleyna/diagnostics/device.c:126-140 | one record is unsubscribed and taken out, the others keep order and state |
| Devices.Device.PublishInterfaces | libdleyna/diagnostics/device.c:414-426 | which ids are stored and which objects are on the bus when the first refusal ends the loop |
| Devices.Device.UnpublishInterfaces | libdleyna/diagnostics/device.c:273-276 | the objects taken off are the ids before the first zero |
| Upnp.Construction.constructor | libdleyna/diagnostics/upnp.c:112-147 | a construction record points to its device and holds the pending tasks of the device's step |
| Upnp.Construction.Construct | libdleyna/diagnostics/device.c:451-459 | exactly the tasks still needed are queued, in order |
| Upnp.Upnp.constructor | libdleyna/diagnostics/upnp.c:551-577 | both tables start empty |
| Upnp.Upnp.FindDevice | libdleyna/diagnostics/upnp.c:343-357 | the live device of a UDN, published first, with its construction record when it is not published |
| Upnp.Upnp.AddDevice | libdleyna/diagnostics/upnp.c:149-202 | the object moves to the state described for an announcement, keeping the invariant |
| Upnp.Upnp.CreateDevice | libdleyna/diagnostics/upnp.c:170-184 | a new device under construction, entered under a UDN not in the table |
| Upnp.Upnp.AllocateDevice | libdleyna/diagnostics/device.c:466-504 | a device numbered by the 32-bit counter, which advances |
| Upnp.Upnp.EnterBuilding | libdleyna/diagnostics/upnp.c:134-147 | the record is entered and replaces no entry |
| Upnp.Upnp.StartChain | libdleyna/diagnostics/upnp.c:112-147 | a fresh record and queue for a live device |
| Upnp.Upnp.AddContext | libdleyna/diagnostics/upnp.c:194-198 | only this device changes, by a context and a moved subscription |
| Upnp.Upnp.RemoveDevice | libdleyna/diagnostics/upnp.c:329-424 | the object moves to the state described for a withdrawal, keeping the invariant |
| Upnp.Upnp.DropContext | libdleyna/diagnostics/upnp.c:365-416 | which of loss, cancellation, switch, timer or nothing follows a removal, and the state after it |
| Upnp.Upnp.TakeContext | libdleyna/diagnostics/upnp.c:372 | one context leaves one device, nothing else changes |
| Upnp.Upnp.LoseDevice | libdleyna/diagnostics/upnp.c:375-380 | LostDevice is sent, the entry goes and the device is freed |
| Upnp.Upnp.SwitchContext | libdleyna/diagnostics/upnp.c:388-409 | the old record is freed and a new one started on the context preferred now |
| Upnp.Upnp.ArmTimer | libdleyna/diagnostics/upnp.c:410-416 | the device's re-subscribe timer is armed and held by the main loop |
| Upnp.Upnp.OnChainEnd | libdleyna/diagnostics/upnp.c:72-99 | cancelled: entry, record and device are gone; otherwise the device is published and announced and the record freed |
| Upnp.Upnp.Publish | libdleyna/diagnostics/upnp.c:84-87 | the device enters the table, where it replaces none, and FoundDevice is sent with its path |
| Upnp.Upnp.ForgetBuilding | libdleyna/diagnostics/upnp.c:91 | one entry leaves the table of devices under construction |
| Upnp.Upnp.FreeChain | libdleyna/diagnostics/upnp.c:63-70 | one live construction record is freed |
| Upnp.Upnp.DeleteDevice | libdleyna/diagnostics/device.c:264-287 | timer, bus objects and record of one device are gone |
| Upnp.Upnp.AddSubDevice | libdleyna/diagnostics/upnp.c:204-228 | a child without a UDN is passed over |
| Upnp.Upnp.RemoveSubDevice | libdleyna/diagnostics/upnp.c:426-450 | the same for withdrawal |
| Upnp.Upnp.AddSubDevices | libdleyna/diagnostics/upnp.c:230-275 | the loop and recursion reach the state of the described walk and return its service |
| Upnp.Upnp.RemoveSubDevices | libdleyna/diagnostics/upnp.c:452-497 | the same for withdrawal |
| Upnp.Upnp.OnDeviceAvailable | libdleyna/diagnostics/upnp.c:277-317 | the callback performs the announcement step, and nothing without a UDN or address |
| Upnp.Upnp.OnDeviceUnavailable | libdleyna/diagnostics/upnp.c:499-529 | the callback performs the withdrawal step |
| Upnp.Upnp.RunSubscribe | libdleyna/diagnostics/device.c:375-393 | the step counter advances and the subscription moves to the preferred context |
| Upnp.Upnp.RunDeclare | libdleyna/diagnostics/device.c:395-433 | the step counter advances, granted ids are stored and on the bus, and failure is reported exactly on a refusal |
| Upnp.Upnp.RunTask | libdleyna/diagnostics/device.c:375-433 | the next task runs, and a failed one ends the queue as cancelled |
| Upnp.Upnp.OnTurn | libdleyna/diagnostics/device.c:435-464 | a queue turn performs the turn step, keeping the invariant |
| Upnp.Upnp.OnResubscribeTimer | libdleyna/diagnostics/upnp.c:319-327 | the timer is cleared before the preferred context is subscribed |
| Upnp.Upnp.OnSubscriptionLost | libdleyna/diagnostics/device.c:312-338 | one context of one device changes, as described for a loss |
| Upnp.Upnp.OnLossTimer | libdleyna/diagnostics/device.c:303-310 | one timer flag of one device changes |
| Upnp.Upnp.GetDeviceIds | libdleyna/diagnostics/upnp.c:590-610 | as many paths as published devices, and exactly theirs, in whatever order the table is walked |
| Upnp.Upnp.DeviceFromPath | libdleyna/diagnostics/device.c:506-523 | finds a published device exactly for published paths; whatever the walking order it is the one asked for unless another published device is numbered 2^32 apart |
| Upnp.Upnp.BeginAction | libdleyna/diagnostics/upnp.c:617-639 | a client operation starts on the preferred context of a live device, and is refused exactly for unpublished paths |
| Tasks.RunRefines | libdleyna/diagnostics/async.c:36-72 | every interleaving of events on the record matches the client's view, without fault, and schedules the completion callback once per fixed outcome |
| Tasks.StepRefines | libdleyna/diagnostics/task.c:362-456 | the same for each single event |
| Tasks.CancelDownloadRefines | libdleyna/diagnostics/device.c:847-902 | a cancelled icon download, whose callback runs inside the cancellation, is freed once and completes once |
| Tasks.CompletedExactlyOnce | libdleyna/diagnostics/async.c:36-72 | over every run the completion callback is pending or has run at most once in all, exactly once when the outcome is fixed, and a download record lives exactly while it is outstanding |
| Tasks.AnsweredExactlyOnce | libdleyna/diagnostics/task.c:362-456 | the client gets at most one reply, exactly one by deletion, of the kind the first deciding event fixed |
| Tasks.FirstAnswerStands | libdleyna/diagnostics/task.c:369-404 | later events never change an answer given |
| Tasks.CancelledFirst | libdleyna/diagnostics/server.c:464-478 | after a cancel that came first, whatever follows sends nothing more |
| Tasks.WaitsExactly | libdleyna/diagnostics/server.c:552-560 | a task waits exactly until its queue starts or deletes it |
| Tasks.ReplyReaches | libdleyna/diagnostics/device.c:1109-1149 | whatever else happens, an action or download that gets its reply, and then its idle turn, uncancelled, tells the client exactly what the reply says |
| Tasks.LocalReaches | libdleyna/diagnostics/device.c:934-962 | the same for an operation that ends where it begins, and for an invalid icon URL |
| Tasks.SyncReaches | libdleyna/diagnostics/server.c:435-462 | a synchronous task answers with its value where it starts, whatever follows |
| Tasks.LostUntilCancelled | libdleyna/diagnostics/device.c:987-996 | an operation that lost its service proxy is unfinished exactly as long as no cancel comes; the cancel fixes its outcome |
| Tasks.HangsExactly | libdleyna/diagnostics/device.c:979-997 | from the request on, for every sequence of events: the task ends up running with nothing scheduled and nothing outstanding exactly if it was begun as a service action, its proxy went before a reply or a cancel, and no cancel followed; its client has then heard nothing, unless it cancelled before the start |
| Tasks.ActionsCanHang | libdleyna/diagnostics/device.c:979-997 | such a run: the action begins and its proxy goes |
| Tasks.CancelSuffices | libdleyna/diagnostics/task.c:412-434 | from any running state a cancel, an idle turn and a deletion end the task, answered and completed once |
| AsyncTasks.AsyncTask.constructor | libdleyna/diagnostics/task.c:121-136 | a task starts with its invocation unanswered and nothing outstanding |
| AsyncTasks.AsyncTask.Complete | libdleyna/diagnostics/task.c:362-394 | one response, with the result only where there is a format and a result, and none if already answered |
| AsyncTasks.AsyncTask.Fail | libdleyna/diagnostics/task.c:396-410 | one error reply unless already answered |
| AsyncTasks.AsyncTask.Cancel | libdleyna/diagnostics/task.c:412-434 | the CANCELLED reply, then the cancellation of an asynchronous operation |
| AsyncTasks.AsyncTask.Delete | libdleyna/diagnostics/task.c:436-456 | the DIED reply if there was none |
| AsyncTasks.AsyncTask.OnIdle | libdleyna/diagnostics/async.c:36-50 | the weak pointer is withdrawn and the completion callback runs once |
| AsyncTasks.AsyncTask.OnComplete | libdleyna/diagnostics/server.c:464-478 | error or result is sent and the queue told |
| AsyncTasks.AsyncTask.OnCancelled | libdleyna/diagnostics/async.c:52-66 | the action is cancelled while its proxy lives, an earlier error is kept, and the callback is scheduled |
| AsyncTasks.AsyncTask.CancelOperation | libdleyna/diagnostics/async.c:68-72 | handlers fire on the first cancel only, and none before the operation started |
| AsyncTasks.AsyncTask.OnIconCancelled | libdleyna/diagnostics/device.c:847-859 | the download is cancelled and freed by the callback inside it |
| AsyncTasks.AsyncTask.OnSession | libdleyna/diagnostics/device.c:869-902 | result or error and a scheduled callback unless cancelled; the download is freed in each case |
| AsyncTasks.AsyncTask.FreeDownload | libdleyna/diagnostics/device.c:861-867 | only an allocated download is freed |
| AsyncTasks.AsyncTask.GetIcon | libdleyna/diagnostics/device.c:934-962 | either a connected, outstanding download or, for an invalid URL, a freed one and a scheduled error |
| AsyncTasks.AsyncTask.OnAction | libdleyna/diagnostics/device.c:1109-1149 | outcome stored, callback scheduled, handler disconnected |
| AsyncTasks.AsyncTask.ProcessSync | libdleyna/diagnostics/server.c:435-462 | a synchronous task is answered and finished at once |
| AsyncTasks.AsyncTask.Process | libdleyna/diagnostics/server.c:552-560 | what a task looks like after its queue started it, for each kind of operation |
| AsyncTasks.AsyncTask.Deliver | libdleyna/diagnostics/server.c:480-550 | one event moves the record as described and the client's view with it |
| Causes.ContextGoes | libdleyna/diagnostics/upnp.c:365-372 | a published device loses a context exactly by the withdrawal of its address |
| Joint.GoneIsSignalled | libdleyna/diagnostics/upnp.c:374-380 | a published device goes only in a step that sends LostDevice with its path |
| Joint.HappenOk | libdleyna/diagnostics/server.c:856-868 | registry and client tasks together: no single event faults, whatever depends on a device stays with a published device of its path, and a job hangs afterwards exactly if it did or its address was withdrawn now, with neither a cancel nor LostDevice for its path |
| Joint.RunOk | libdleyna/diagnostics/device.c:869-902 | over every run of both together no download writes into a freed device record |
| Joint.JobsSafe | libdleyna/diagnostics/server.c:856-868 | in every such run, an outstanding download, an action tied to a proxy and a hanging one belong to a published device with the path of their job |
| Joint.RunHangs | libdleyna/diagnostics/device.c:979-997 | over every run a job hangs exactly when the address it was begun on was withdrawn before it replied, and neither a cancel nor the loss of its path came after |
| Delivery.HappenDelivers | libdleyna/diagnostics/server.c:552-560 | one happening moves every client's task by exactly the events that it is for this task: its start on a published device of its path, its own progress, the end of its proxy, and the cancel or the deletion that LostDevice brings |
| Delivery.HappenOutside | libdleyna/diagnostics/server.c:480-550 | the registry moves by its own events only, and tasks are added by requests only |
| Delivery.BegunDelivers | libdleyna/diagnostics/upnp.c:617-639 | an operation that needs a device is begun on the context that device prefers |
| Delivery.RunDelivers | libdleyna/diagnostics/server.c:552-560 | over every run of the service each task is in exactly the state its own events lead to, so that what is proved of tasks alone holds for it |
| Delivery.LostAnswers | libdleyna/diagnostics/server.c:856-868 | when its path is announced lost, a waiting task is deleted, its client told that it died unless it had cancelled, and a running one is cancelled, answered and about to complete |
| Delivery.LostIsAnswered | libdleyna/diagnostics/server.c:856-868 | over every run, once the path of a task has been announced lost its client has exactly one answer and the task does not wait |
| Stranding.WithdrawalStrands | libdleyna/diagnostics/upnp.c:365-416 | in every state, the withdrawal of its address leaves an open action hanging exactly if the device has another address; the device then stays published and no signal is sent |
| Stranding.HangingOccurs | libdleyna/diagnostics/device.c:126-140 | for every UDN and any two non-loopback addresses, a run of the service in which an unanswered action hangs on a published device |
| Csv.SplitAtCommas | libdleyna/diagnostics/device.c:641 | the pieces between the commas, and none for the empty text |
| Csv.StripSpaces | libdleyna/diagnostics/device.c:643 | both blank ends are gone |
| Csv.StripPadded | libdleyna/diagnostics/device.c:643 | a trimmed text is what stripping leaves of any padding of it |
| Csv.StripSplits | libdleyna/diagnostics/device.c:643 | every text is its stripped, trimmed form between two blank ends |
| Csv.StripsSpaces | libdleyna/diagnostics/device.c:643 | a space, tab, line feed, carriage return or form feed at either end is taken off |
| Csv.StripsNothingElse | libdleyna/diagnostics/device.c:643 | a text is left as it is exactly if it is empty or neither end is one of these five |
| Csv.DecodeList | libdleyna/diagnostics/device.c:1696-1702 | the list of stripped pieces |
| Csv.DecodeClean | libdleyna/diagnostics/device.c:641-647 | decoded items are comma-free and trimmed, one more than there are commas, none for the empty text |
| Csv.DecodeUndoesJoin | libdleyna/diagnostics/device.c:641-647 | decoding undoes joining for exactly the lists of comma-free trimmed strings other than the one empty string |
| Csv.DecodeCut | libdleyna/diagnostics/device.c:1479-1485 | decoding distributes over a comma exactly when neither side is empty |
| Csv.DecodeIdList | libdleyna/diagnostics/device.c:681-687 | the ids as 32-bit unsigned values, undefined where one is out of range |
| Csv.ReadEach | libdleyna/diagnostics/device.c:681-687 | each item gives one id by itself, negative ones from the upper half of the unsigned range, and the list is defined exactly when each item is |
| Csv.DecodeUndoesPrint | libdleyna/diagnostics/device.c:681-687 | a list of ids is recovered exactly when all are below 2^31 |
| Csv.NegativeIds | libdleyna/diagnostics/device.c:685 | negative items give the upper half of the unsigned range |
| Decimal.PrintInjective | libdleyna/diagnostics/device.c:481 | different counters print differently |
| Decimal.PrintAppends | libdleyna/diagnostics/device.c:481 | the digits of a number are those of its tenth, followed by its last one |
| Decimal.AtoiPrint | libdleyna/diagnostics/device.c:685 | a printed number is read back exactly when it fits an int |
| Decimal.AtoiNegative | libdleyna/diagnostics/device.c:685 | the same for negative numbers |
| Decimal.AtoiReads | libdleyna/diagnostics/device.c:685 | white space, a sign, leading zeros, a number and anything else after it are read as that number, if it fits an int |
| Decimal.AtoiNothing | libdleyna/diagnostics/device.c:685 | without a digit after white space and sign the value is zero |
| Xml.GetChildNode | libdleyna/diagnostics/xml-util.c:28-50 | the node the described path lookup gives, together with its parent, for every list of names |
| Xml.LookupExactly | libdleyna/diagnostics/xml-util.c:28-50 | a lookup succeeds exactly when the leftmost choice at every level spells the names, and gives that node |
| Xml.NoBacktracking | libdleyna/diagnostics/xml-util.c:34-44 | a path through a later sibling is missed |
| Xml.GetChildrenList | libdleyna/diagnostics/xml-util.c:52-66 | all children with the name, last one first |
| Xml.NamedExactly | libdleyna/diagnostics/xml-util.c:52-66 | the nodes with a name are those at the increasing positions of all such nodes |
| Xml.GetChildStringList | libdleyna/diagnostics/xml-util.c:68-107 | the texts of all children with the last name of the path, in document order, and without a name those of the siblings named like the starting node |
| Xml.StringListExactly | libdleyna/diagnostics/xml-util.c:68-107 | the list is the texts at the increasing positions of exactly the children, under the node the path leads to, that have the last name and a text |
| Xml.GetChildString | libdleyna/diagnostics/xml-util.c:109-133 | the text of the node at a path, if there is one |
| NsLookup.ExtractResult | libdleyna/diagnostics/device.c:1349-1399 | a row exactly when all six fields are there and hostname and addresses have at most 256 bytes |
| NsLookup.DecodeResult | libdleyna/diagnostics/device.c:1401-1458 | nothing unless the root is NSLookupResult, otherwise the rows that count, reversed |
| NsLookup.ReverseDocumentOrder | libdleyna/diagnostics/device.c:1440-1449 | the decoded list enumerates exactly the Result children that count, each once, last one first |
| NsLookup.DecodeUndoesEncode | libdleyna/diagnostics/device.c:1385-1393 | rows written as a document come back, reversed, exactly when none is over the limit |
| NsLookup.BuildResults | libdleyna/diagnostics/device.c:1460-1520 | the answers described for the document, which the next two rows characterise |
| NsLookup.AnswersCarryFields | libdleyna/diagnostics/device.c:1349-1495 | each answer carries, field by field, the texts of one Result element that counts, last one first, with its addresses decoded and its time read |
| NsLookup.ResultsUndoDocument | libdleyna/diagnostics/device.c:1401-1520 | answers written as a document come back as they were, last one first, exactly when hostname and address text have at most 256 bytes, the addresses survive CSV and the time fits an int |
| Properties.ReplayIsCurrent | libdleyna/diagnostics/device.c:142-182 | replaying the signals sent since any snapshot onto it gives the current properties |
| Properties.ReceiveAllHolds | libdleyna/diagnostics/device.c:142-182 | a client that replays signals holds, for each property, the value of the last event about it |
| Properties.LateReplayExactly | libdleyna/diagnostics/device.c:821-833 | a client replaying only what follows the delivered answer is current exactly when no property changed in between without changing again |
| Properties.LateReplayCanMiss | libdleyna/diagnostics/device.c:821-833 | one event in between is enough to miss a property |
| Properties.StatusValue | libdleyna/diagnostics/device.c:619-665 | a status event with given comma-free, trimmed entries, other than one empty one alone, gives StatusInfo exactly that list and changes no other property |
| Properties.TestIdsValue | libdleyna/diagnostics/device.c:667-737 | an event with given ids below 2^31 gives TestIDs, or ActiveTestIDs, exactly these numbers and changes no other property |
| Properties.DescriptionStays | libdleyna/diagnostics/device.c:739-805 | the eleven properties of the description keep their values whatever happens, and there are no others but the three evented ones |
| Properties.SignalsExactly | libdleyna/diagnostics/device.c:142-182 | every signal is about the device interface, invalidates nothing and carries the one property that changed, with its value of that moment |
| Properties.DeviceProperties.constructor | libdleyna/diagnostics/device.c:739-805 | the eleven described properties and nothing else |
| Properties.DeviceProperties.OnDeviceStatus | libdleyna/diagnostics/device.c:619-665 | the event is recorded, with table and signals still telling the same story |
| Properties.DeviceProperties.OnTestIds | libdleyna/diagnostics/device.c:707-721 | the same for test ids |
| Properties.DeviceProperties.OnActiveTestIds | libdleyna/diagnostics/device.c:723-737 | the same for active test ids |
| Properties.DeviceProperties.GetProperty | libdleyna/diagnostics/device.c:546-575 | the value of the last event about the property, or the error for an unknown property or interface |
| Properties.DeviceProperties.GetProperties | libdleyna/diagnostics/device.c:577-617 | exactly the current values, in whatever order the table is walked, or the error for an unknown interface |

## Left out

- A separate state between cancelling a construction queue and its `finally` call; the two are one step.
- How often a handler is connected: a context appended while the re-subscribe timer is armed gets its notify handlers twice, and every new subscription of a context adds a "subscription-lost" handler. Subscriptions are modelled by their flag; how many handler calls one loss brings is left open (`Contexts.RepeatedLoss` holds for any number).
- A loss handler called for a context that has been freed, on a service proxy that is still alive.
- Xml.GetChildStringList: a starting node without a name and no names given is excluded, as the C function would compare with a null string.
- A record and its queue are one value in the model; that a queue's `finally` callback gets the record of that queue (libdleyna/diagnostics/upnp.c:127-128) is taken as given.
- XML parsing, character sets and entities: documents are trees that are already parsed, texts are strings of bytes.
- Lookups of interface and property names with different character case or with embedded zero bytes.
- The bytes an icon download stores, and the icon's MIME type; what is modelled is that the device record is there.
- The marshalling of the results of the single tests (Ping, Traceroute, GetTestInfo), beyond the lists in them.
- Method dispatch, argument unpacking, introspection data, logging, signal handling, start-up and shutdown.
- Watching clients, Release and quitting (libdleyna/diagnostics/server.c:572-587).
- `manager.c`: settings and white list, calls into libraries that are not part of this model.
- Rescanning and the network context manager (libdleyna/diagnostics/upnp.c:531-549).
