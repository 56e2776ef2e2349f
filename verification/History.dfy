/** What the history of outputs says in every state: who has been created, deleted, announced and
    withdrawn, how often, and in which order. */
module History {
  import opened Registry
  import opened Invariant

  predicate IsPublished(s: State, d: nat) {
    d in s.devices && s.devices[d].udn in s.published && s.published[s.devices[d].udn] == d
  }

  function Bit(b: bool): nat { if b then 1 else 0 }

  /** Every handle below `created` was allocated once, and freed once unless it is live. */
  predicate AllocatedOnce(s: State, d: nat) {
    && Count(s.log, Created(d)) == Bit(d < s.created)
    && Count(s.log, Deleted(d)) == Bit(d < s.created && d !in s.devices)
  }

  /** A device under construction has not been announced, a published one has, and a deleted one
      has been withdrawn exactly if it was announced. */
  predicate SignalledOnce(s: State, d: nat) {
    var found, lost := Count(s.log, Found(d)), Count(s.log, Lost(d));
    if d in s.devices then lost == 0 && found == Bit(IsPublished(s, d))
    else found == lost <= Bit(d < s.created)
  }

  /** Each construction task has run at most once for a device, and exactly once if its step
      counter says so. */
  predicate ConstructedOnce(s: State, d: nat) {
    var m, n := Count(s.log, Ran(d, Subscribe)), Count(s.log, Ran(d, Declare));
    if d in s.devices then m == Bit(s.devices[d].step >= 1) && n == Bit(s.devices[d].step >= 2)
    else m <= Bit(d < s.created) && n <= Bit(d < s.created)
  }

  predicate DeviceHistory(s: State, d: nat) {
    AllocatedOnce(s, d) && SignalledOnce(s, d) && ConstructedOnce(s, d)
  }

  predicate ChainHistory(s: State, q: nat) {
    && Count(s.log, ChainMade(q)) == Bit(q < s.started)
    && Count(s.log, ChainFreed(q)) == Bit(q < s.started && q !in s.chains)
  }

  /** No device is withdrawn before it was announced. */
  predicate Ordered(log: seq<Output>) {
    forall k :: 0 <= k < |log| && log[k].Lost? ==> Found(log[k].device) in log[..k]
  }

  ghost predicate HistoryOk(s: State) {
    && (forall d: nat :: DeviceHistory(s, d))
    && (forall q: nat :: ChainHistory(s, q))
    && Ordered(s.log)
  }

  lemma OrderedEmit(log: seq<Output>, o: Output)
    requires Ordered(log) && (o.Lost? ==> Count(log, Found(o.device)) > 0)
    ensures Ordered(Emit(log, o))
  {
    if o.Lost? { CountIn(log, Found(o.device)); }
    var r := Emit(log, o);
    forall k | 0 <= k < |r| && r[k].Lost? ensures Found(r[k].device) in r[..k] {
      if k < |log| { assert r[..k] == log[..k]; } else { assert r[..k] == log; }
    }
  }

  /** The parts of a state the history refers to, for one device or chain not in question. */
  predicate SameStatus(s: State, t: State, d: nat) {
    && (d in s.devices <==> d in t.devices)
    && (d < s.created <==> d < t.created)
    && (d in s.devices ==> s.devices[d].step == t.devices[d].step && IsPublished(s, d) == IsPublished(t, d))
  }

  /** Operations without outputs. */
  lemma EditHistory(s: State, t: State)
    requires HistoryOk(s) && t.log == s.log && SameLinks(s, t)
    requires forall d :: d in s.devices ==> t.devices[d].step == s.devices[d].step
    ensures HistoryOk(t)
  {
    forall d: nat ensures DeviceHistory(t, d) { assert DeviceHistory(s, d) && SameStatus(s, t, d); }
    forall q: nat ensures ChainHistory(t, q) { assert ChainHistory(s, q); }
  }

  lemma CancelHistory(s: State, t: State, q: nat)
    requires HistoryOk(s) && q in s.chains && q < s.started
    requires s.chains[q].device in s.devices && s.chains[q].device < s.created
    requires !IsPublished(s, s.chains[q].device)
    requires t.log == Emit(Emit(s.log, ChainFreed(q)), Deleted(s.chains[q].device))
    requires t.chains == s.chains - {q} && t.devices == s.devices - {s.chains[q].device}
    requires t.created == s.created && t.started == s.started && t.published == s.published
    ensures HistoryOk(t)
  {
    hide Ordered, Count;
    var d := s.chains[q].device;
    OrderedEmit(s.log, ChainFreed(q));
    OrderedEmit(Emit(s.log, ChainFreed(q)), Deleted(d));
    forall e: nat ensures DeviceHistory(t, e) {
      assert DeviceHistory(s, e);
      if e != d { assert SameStatus(s, t, e); }
    }
    forall r: nat ensures ChainHistory(t, r) { assert ChainHistory(s, r); }
  }

  lemma LoseHistory(s: State, t: State, udn: string)
    requires HistoryOk(s) && udn in s.published
    requires s.published[udn] in s.devices && s.published[udn] < s.created && s.devices[s.published[udn]].udn == udn
    requires t.log == Emit(Emit(s.log, Lost(s.published[udn])), Deleted(s.published[udn]))
    requires t.chains == s.chains && t.devices == s.devices - {s.published[udn]}
    requires t.created == s.created && t.started == s.started && t.published == s.published - {udn}
    ensures HistoryOk(t)
  {
    hide Ordered, Count;
    var d := s.published[udn];
    assert DeviceHistory(s, d);
    OrderedEmit(s.log, Lost(d));
    OrderedEmit(Emit(s.log, Lost(d)), Deleted(d));
    forall e: nat ensures DeviceHistory(t, e) {
      assert DeviceHistory(s, e);
      if e != d { assert SameStatus(s, t, e); }
    }
    forall r: nat ensures ChainHistory(t, r) { assert ChainHistory(s, r); }
  }

  lemma CreateHistory(s: State, t: State)
    requires HistoryOk(s) && s.created !in s.devices && s.started !in s.chains
    requires t.log == Emit(Emit(s.log, Created(s.created)), ChainMade(s.started))
    requires s.created in t.devices && t.devices == s.devices[s.created := t.devices[s.created]]
    requires t.chains.Keys == s.chains.Keys + {s.started}
    requires t.published == s.published && t.created == s.created + 1 && t.started == s.started + 1
    requires t.devices[s.created].step == 0 && t.devices[s.created].udn !in s.published
    ensures HistoryOk(t)
  {
    hide Ordered, Count;
    OrderedEmit(s.log, Created(s.created));
    OrderedEmit(Emit(s.log, Created(s.created)), ChainMade(s.started));
    forall e: nat ensures DeviceHistory(t, e) {
      assert DeviceHistory(s, e);
      if e != s.created { assert SameStatus(s, t, e); }
    }
    forall r: nat ensures ChainHistory(t, r) { assert ChainHistory(s, r); }
  }

  lemma SwitchHistory(s: State, t: State, q: nat)
    requires HistoryOk(s) && q in s.chains && q < s.started && s.started !in s.chains
    requires t.log == Emit(Emit(s.log, ChainFreed(q)), ChainMade(s.started))
    requires t.chains.Keys == s.chains.Keys - {q} + {s.started}
    requires t.devices == s.devices && t.published == s.published
    requires t.created == s.created && t.started == s.started + 1
    ensures HistoryOk(t)
  {
    hide Ordered, Count;
    OrderedEmit(s.log, ChainFreed(q));
    OrderedEmit(Emit(s.log, ChainFreed(q)), ChainMade(s.started));
    forall e: nat ensures DeviceHistory(t, e) { assert DeviceHistory(s, e) && SameStatus(s, t, e); }
    forall r: nat ensures ChainHistory(t, r) { assert ChainHistory(s, r); }
  }

  lemma StepHistory(s: State, t: State, d: nat)
    requires HistoryOk(s) && SameLinks(s, t) && d in s.devices && s.devices[d].step < 2
    requires t.log == Emit(s.log, Ran(d, if s.devices[d].step == 0 then Subscribe else Declare))
    requires t.devices[d].step == s.devices[d].step + 1
    requires forall e :: e in s.devices && e != d ==> t.devices[e].step == s.devices[e].step
    ensures HistoryOk(t)
  {
    hide Ordered, Count;
    OrderedEmit(s.log, Ran(d, if s.devices[d].step == 0 then Subscribe else Declare));
    forall e: nat ensures DeviceHistory(t, e) {
      assert DeviceHistory(s, e);
      assert IsPublished(s, e) == IsPublished(t, e);
    }
    forall r: nat ensures ChainHistory(t, r) { assert ChainHistory(s, r); }
  }

  lemma PublishHistory(s: State, t: State, q: nat)
    requires HistoryOk(s) && q in s.chains && q < s.started && s.chains[q].udn !in s.published
    requires s.chains[q].device in s.devices && s.devices[s.chains[q].device].udn == s.chains[q].udn
    requires t.log == Emit(Emit(s.log, Found(s.chains[q].device)), ChainFreed(q))
    requires t.published == s.published[s.chains[q].udn := s.chains[q].device]
    requires t.chains == s.chains - {q} && t.devices == s.devices
    requires t.created == s.created && t.started == s.started
    ensures HistoryOk(t)
  {
    hide Ordered, Count;
    var d := s.chains[q].device;
    OrderedEmit(s.log, Found(d));
    OrderedEmit(Emit(s.log, Found(d)), ChainFreed(q));
    forall e: nat ensures DeviceHistory(t, e) {
      assert DeviceHistory(s, e);
      if e != d { assert SameStatus(s, t, e); }
    }
    forall r: nat ensures ChainHistory(t, r) { assert ChainHistory(s, r); }
  }
}
