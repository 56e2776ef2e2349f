/** Device and context records with the in-place operations on them. Every operation is proved
    against its description on plain values. */
module Devices {
  import R = Registry
  import C = Contexts

  class Context {
    const ip: string
    const device: Device
    var subscribed: bool
    var lossTimer: bool

    constructor (ip: string, device: Device)
      ensures this.ip == ip && this.device == device
      ensures Value() == C.Context(ip, false, false)
    {
      this.ip, this.device := ip, device;
      subscribed, lossTimer := false, false;
    }

    function Value(): C.Context
      reads this
    {
      C.Context(ip, subscribed, lossTimer)
    }

    /** Cancels the loss timer and gives the subscription up, where there is one. */
    method Unsubscribe()
      modifies this
      ensures Value() == C.Unsubscribed(old(Value()))
    {
      if lossTimer { lossTimer := false; }
      if subscribed { subscribed := false; }
    }

    method OnSubscriptionLost()
      modifies this
      ensures Value() == C.LoseSubscription(old(Value()))
    {
      if !lossTimer {
        lossTimer := true;
      } else {
        lossTimer := false;
        subscribed := false;
      }
    }

    method OnLossTimer()
      modifies this
      ensures Value() == old(Value()).(lossTimer := false)
    {
      lossTimer := false;
    }
  }

  function Values(cs: seq<Context>): (vs: seq<C.Context>)
    reads cs
    ensures |vs| == |cs| && forall i :: 0 <= i < |cs| ==> vs[i] == cs[i].Value()
  {
    seq(|cs|, i requires 0 <= i < |cs| reads cs => cs[i].Value())
  }

  class Device {
    ghost const handle: nat
    const udn: string
    const path: string
    var contexts: seq<Context>
    var timer: bool
    var step: nat
    var ids: seq<nat>
    ghost var exposed: bool

    /** There is an id for each interface; the context records are this device's own, and all
        different. */
    ghost predicate Valid()
      reads this
    {
      && |ids| == R.INTERFACES
      && (forall i :: 0 <= i < |contexts| ==> contexts[i].device == this)
      && (forall i, j :: 0 <= i < j < |contexts| ==> contexts[i] != contexts[j])
    }

    /** The device record and its context records are among `repr`. */
    ghost predicate Within(repr: set<object>)
      reads this
    {
      this in repr && forall i :: 0 <= i < |contexts| ==> contexts[i] in repr
    }

    ghost function Value(): R.Device
      reads this, contexts
    {
      R.Device(udn, path, Values(contexts), timer, step, ids, exposed)
    }

    /** A device record with one context, not subscribed. */
    constructor (ghost handle: nat, udn: string, counter: nat, ip: string)
      requires counter == handle % R.COUNTER_SIZE
      ensures Valid() && this.handle == handle && fresh(this)
      ensures |contexts| == 1 && fresh(contexts[0]) && Value() == R.NewDevice(handle, udn, ip)
    {
      this.handle, this.udn := handle, udn;
      this.path := R.PATH_PREFIX + "/" + R.Decimal.Print(counter);
      contexts, timer, step, exposed := [], false, 0, false;
      ids := seq(R.INTERFACES, i => 0);
      new;
      AppendContext(ip);
    }

    method GetContext() returns (context: Context)
      requires contexts != []
      ensures context == contexts[C.Preferred(Values(contexts))]
    {
      var i := 0;
      while i < |contexts| && !C.IsLoopback(contexts[i].ip)
        invariant 0 <= i <= |contexts|
        invariant forall j :: 0 <= j < i ==> !C.IsLoopback(contexts[j].ip)
      {
        i := i + 1;
      }
      assert i == C.FirstLoopback(Values(contexts));
      if i == |contexts| { i := 0; }
      context := contexts[i];
    }

    method GetSubscribedContext() returns (context: Context?)
      ensures var i := C.FirstSubscribed(Values(contexts));
              context == if i < |contexts| then contexts[i] else null
    {
      var i := 0;
      while i < |contexts| && !contexts[i].subscribed
        invariant 0 <= i <= |contexts|
        invariant forall j :: 0 <= j < i ==> !contexts[j].subscribed
      {
        i := i + 1;
      }
      assert i == C.FirstSubscribed(Values(contexts));
      context := if i < |contexts| then contexts[i] else null;
    }

    /** The index of the context on an address, or the number of contexts. */
    method FindContext(ip: string) returns (i: nat)
      ensures i == C.IndexOfIp(Values(contexts), ip)
    {
      i := 0;
      while i < |contexts| && contexts[i].ip != ip
        invariant 0 <= i <= |contexts|
        invariant forall j :: 0 <= j < i ==> contexts[j].ip != ip
      {
        i := i + 1;
      }
    }

    method SubscribeToServiceChanges()
      requires Valid() && contexts != []
      modifies contexts
      ensures Values(contexts) == C.SubscribePreferred(old(Values(contexts)))
    {
      var context := GetContext();
      context.subscribed := true;
    }

    method SubscribeContext()
      requires Valid() && contexts != []
      modifies contexts
      ensures Values(contexts) == C.MoveSubscription(old(Values(contexts)))
    {
      var subscribed := GetSubscribedContext();
      var preferred := GetContext();
      ghost var i := C.FirstSubscribed(Values(contexts));
      if subscribed != preferred {
        if subscribed != null {
          subscribed.Unsubscribe();
          assert Values(contexts) == old(Values(contexts))[i := C.Unsubscribed(old(Values(contexts))[i])];
        }
        SubscribeToServiceChanges();
      }
    }

    method AppendContext(ip: string)
      requires Valid()
      modifies this`contexts
      ensures Valid() && |contexts| == |old(contexts)| + 1
      ensures old(contexts) == contexts[..|old(contexts)|] && fresh(contexts[|old(contexts)|])
      ensures Values(contexts) == old(Values(contexts)) + [C.Context(ip, false, false)]
    {
      var context := new Context(ip, this);
      contexts := contexts + [context];
    }

    method AppendNewContext(ip: string)
      requires Valid()
      modifies this`contexts, this`exposed, contexts
      ensures Valid() && |contexts| == |old(contexts)| + 1
      ensures old(contexts) == contexts[..|old(contexts)|] && fresh(contexts[|old(contexts)|])
      ensures Value() == old(Value()).(contexts := C.Append(old(Values(contexts)), ip), exposed := false)
    {
      AppendContext(ip);
      SubscribeContext();
      exposed := false;
    }

    /** Removes and frees one context, keeping the order of the others. */
    method RemoveContext(i: nat)
      requires Valid() && i < |contexts|
      modifies this`contexts, contexts[i]
      ensures Valid() && contexts == old(contexts)[..i] + old(contexts)[i + 1..]
      ensures Values(contexts) == C.RemoveAt(old(Values(contexts)), i)
    {
      var context := contexts[i];
      contexts := contexts[..i] + contexts[i + 1..];
      context.Unsubscribe();
    }

    /** Publishes the interfaces one by one; the first refusal ends the loop. */
    method PublishInterfaces(replies: R.Replies) returns (failed: bool, granted: set<nat>)
      requires |ids| == R.INTERFACES
      modifies this`ids
      ensures ids == R.DeclaredIds(old(ids), replies)
      ensures failed <==> R.LiveIds(replies) < |replies|
      ensures granted == set i | 0 <= i < R.LiveIds(replies) :: replies[i]
    {
      failed, granted := false, {};
      var i := 0;
      while i < R.INTERFACES && !failed
        invariant 0 <= i <= R.INTERFACES && |ids| == |old(ids)|
        invariant forall j :: 0 <= j < (if failed then i - 1 else i) ==> replies[j] != 0
        invariant failed ==> i > 0 && replies[i - 1] == 0
        invariant forall j :: 0 <= j < |ids| ==> ids[j] == if j < i then replies[j] else old(ids)[j]
        invariant granted == set j | 0 <= j < (if failed then i - 1 else i) :: replies[j]
        decreases R.INTERFACES - i, !failed
      {
        ids := ids[i := replies[i]];
        if ids[i] == 0 { failed := true; } else { granted := granted + {ids[i]}; }
        i := i + 1;
      }
      assert R.LiveIds(replies) == if failed then i - 1 else i;
    }

    /** The objects to take off the bus when the device goes: the ids up to the first zero. */
    method UnpublishInterfaces() returns (gone: set<nat>)
      requires |ids| == R.INTERFACES
      ensures gone == set i | 0 <= i < R.LiveIds(ids) :: ids[i]
    {
      gone := {};
      var i := 0;
      while i < R.INTERFACES && ids[i] != 0
        invariant 0 <= i <= R.INTERFACES
        invariant forall j :: 0 <= j < i ==> ids[j] != 0
        invariant gone == set j | 0 <= j < i :: ids[j]
      {
        gone := gone + {ids[i]};
        i := i + 1;
      }
      assert R.LiveIds(ids) == i;
    }
  }
}
