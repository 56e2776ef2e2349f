/** Object paths: when two devices share one, what clients are told about each, and what
    GetDevices answers. */
module Paths {
  import opened Registry
  import opened Invariant
  import opened History
  import opened Bus
  import opened Runs
  import Decimal

  /** The 32-bit counter is the only way two devices can end up with the same path. */
  lemma PathsCollideExactly(d: nat, e: nat)
    ensures PathOf(d) == PathOf(e) <==> d % COUNTER_SIZE == e % COUNTER_SIZE
  {
    if PathOf(d) == PathOf(e) {
      var p := PATH_PREFIX + "/";
      assert PathOf(d)[|p|..] == Decimal.Print(d % COUNTER_SIZE);
      assert PathOf(e)[|p|..] == Decimal.Print(e % COUNTER_SIZE);
      Decimal.PrintInjective(d % COUNTER_SIZE, e % COUNTER_SIZE);
    }
  }

  /** Live devices have different paths exactly as long as no two of them were created a multiple
      of 2^32 apart; in particular while fewer than 2^32 have been created. */
  lemma LivePathsDistinct(s: State, d: nat, e: nat)
    requires Reachable(s) && d in s.devices && e in s.devices
    ensures s.devices[d].path == s.devices[e].path <==> d % COUNTER_SIZE == e % COUNTER_SIZE
    ensures s.created <= COUNTER_SIZE && d != e ==> s.devices[d].path != s.devices[e].path
  {
    hide PathOf, InvBut;
    ReachableGood(s);
    PathsCollideExactly(d, e);
    LinkedOf(s);
    OwnerOf(s, d);
    OwnerOf(s, e);
  }

  /** No other published device is numbered a multiple of 2^32 apart. */
  predicate OnlyCarrier(s: State, udn: string)
    requires udn in s.published
  {
    forall v :: v in s.published && v != udn ==> s.published[v] % COUNTER_SIZE != s.published[udn] % COUNTER_SIZE
  }

  /** A published device is alone on its path exactly then, and always while fewer than 2^32
      devices have been created. */
  lemma OnlyCarrierExactly(s: State, udn: string)
    requires Reachable(s) && udn in s.published
    ensures OnlyCarrier(s, udn) <==>
            forall v :: v in s.published && v != udn && s.published[v] in s.devices && s.published[udn] in s.devices ==>
              s.devices[s.published[v]].path != s.devices[s.published[udn]].path
    ensures s.created <= COUNTER_SIZE ==> OnlyCarrier(s, udn)
  {
    hide InvBut, PathsOk, HistoryOk;
    ReachableGood(s);
    LinkedOf(s);
    PublishedOf(s, udn);
    OwnerOf(s, s.published[udn]);
    forall v | v in s.published && v != udn
      ensures s.published[v] in s.devices && s.published[v] < s.created && s.published[v] != s.published[udn]
      ensures s.devices[s.published[v]].path == s.devices[s.published[udn]].path <==>
              s.published[v] % COUNTER_SIZE == s.published[udn] % COUNTER_SIZE
    {
      PublishedOf(s, v);
      OwnerOf(s, s.published[v]);
      LivePathsDistinct(s, s.published[v], s.published[udn]);
    }
  }

  // ----- signals per path -----

  function SignOf(lost: bool, path: string): Signal {
    if lost then LostDevice(path) else FoundDevice(path)
  }

  function OutputOf(lost: bool, d: nat): Output {
    if lost then Lost(d) else Found(d)
  }

  /** How often a path has been announced, or withdrawn. */
  function Sent(s: State, lost: bool, path: string): nat {
    multiset(s.signals)[SignOf(lost, path)]
  }

  /** How often, by the log, the devices numbered below `n` that have this path were. */
  function Logged(log: seq<Output>, lost: bool, path: string, n: nat): nat {
    if n == 0 then 0
    else Logged(log, lost, path, n - 1) + if PathOf(n - 1) == path then Count(log, OutputOf(lost, n - 1)) else 0
  }

  predicate Below(log: seq<Output>, n: nat) {
    forall k :: 0 <= k < |log| && (log[k].Found? || log[k].Lost?) ==> log[k].device < n
  }

  /** The last output counts for its own device and path only. */
  lemma {:induction false} LoggedLast(log: seq<Output>, lost: bool, path: string, n: nat)
    requires log != []
    ensures var o := log[|log| - 1];
            Logged(log, lost, path, n) ==
            Logged(log[..|log| - 1], lost, path, n)
            + if (if lost then o.Lost? else o.Found?) && o.device < n && PathOf(o.device) == path then 1 else 0
  {
    hide PathOf;
    if n > 0 { LoggedLast(log, lost, path, n - 1); }
  }

  lemma {:induction false} LoggedNothing(lost: bool, path: string, n: nat)
    ensures Logged([], lost, path, n) == 0
  {
    hide PathOf;
    if n > 0 { LoggedNothing(lost, path, n - 1); }
  }

  lemma {:induction false} SignalsAreLogged(log: seq<Output>, lost: bool, path: string, n: nat)
    requires Below(log, n)
    ensures multiset(SignalsOf(log))[SignOf(lost, path)] == Logged(log, lost, path, n)
  {
    hide PathOf;
    if log == [] {
      LoggedNothing(lost, path, n);
    } else {
      var init, o := log[..|log| - 1], log[|log| - 1];
      SignalsAreLogged(init, lost, path, n);
      LoggedLast(log, lost, path, n);
    }
  }

  lemma LogIsBelow(s: State)
    requires Linked(s) && HistoryOk(s)
    ensures Below(s.log, s.created)
  {
    hide Linked, Ordered;
    forall k | 0 <= k < |s.log| && (s.log[k].Found? || s.log[k].Lost?) ensures s.log[k].device < s.created {
      var d := s.log[k].device;
      assert s.log[k] in s.log;
      CountIn(s.log, s.log[k]);
      assert s.log[k] == Found(d) || s.log[k] == Lost(d);
      assert DeviceHistory(s, d);
      if d in s.devices { OwnerOf(s, d); }
    }
  }

  lemma SentIsLogged(s: State, lost: bool, path: string)
    requires Good(s)
    ensures Sent(s, lost, path) == Logged(s.log, lost, path, s.created)
  {
    hide PathOf, InvBut, HistoryOk;
    LinkedOf(s);
    LogIsBelow(s);
    SignalsAreLogged(s.log, lost, path, s.created);
  }

  // ----- the balance of a path -----

  /** The published devices with a path. */
  function Carriers(s: State, path: string): set<nat> {
    set d | d in s.devices && IsPublished(s, d) && s.devices[d].path == path
  }

  function CarriersBelow(s: State, path: string, n: nat): set<nat> {
    set d | d in s.devices && d < n && IsPublished(s, d) && PathOf(d) == path
  }

  lemma {:induction false} LogBalance(s: State, path: string, n: nat)
    requires HistoryOk(s)
    ensures Logged(s.log, false, path, n) == Logged(s.log, true, path, n) + |CarriersBelow(s, path, n)|
  {
    hide PathOf, Ordered, Count;
    if n == 0 {
      assert CarriersBelow(s, path, n) == {};
    } else {
      LogBalance(s, path, n - 1);
      assert DeviceHistory(s, n - 1);
      var before, after := CarriersBelow(s, path, n - 1), CarriersBelow(s, path, n);
      if IsPublished(s, n - 1) && PathOf(n - 1) == path {
        assert after == before + {n - 1};
      } else {
        assert after == before;
      }
    }
  }

  /** What GetDevices answers. */
  function DeviceIds(s: State): set<string> {
    set u | u in s.published && s.published[u] in s.devices :: s.devices[s.published[u]].path
  }

  lemma CarriersAreListed(s: State, path: string)
    requires Good(s)
    ensures Carriers(s, path) == CarriersBelow(s, path, s.created)
    ensures path in DeviceIds(s) <==> Carriers(s, path) != {}
  {
    hide PathOf, InvBut, HistoryOk;
    LinkedOf(s);
    forall d ensures d in Carriers(s, path) <==> d in CarriersBelow(s, path, s.created) {
      if d in s.devices { OwnerOf(s, d); }
    }
    if path in DeviceIds(s) {
      var u :| u in s.published && s.published[u] in s.devices && s.devices[s.published[u]].path == path;
      PublishedOf(s, u);
      assert s.published[u] in Carriers(s, path);
    }
    if Carriers(s, path) != {} {
      var d :| d in Carriers(s, path);
      assert s.published[s.devices[d].udn] == d;
    }
  }

  /** A path has been announced once for each time it was withdrawn and once for each device that
      is published under it now. */
  lemma PathBalance(s: State, path: string)
    requires Reachable(s)
    ensures Sent(s, false, path) == Sent(s, true, path) + |Carriers(s, path)|
    ensures path in DeviceIds(s) <==> Sent(s, false, path) > Sent(s, true, path)
  {
    hide Inv, PathsOk, HistoryOk, Carriers, CarriersBelow, DeviceIds, Logged, Sent;
    ReachableGood(s);
    SentIsLogged(s, false, path);
    SentIsLogged(s, true, path);
    LogBalance(s, path, s.created);
    CarriersAreListed(s, path);
  }

  // ----- order -----

  predicate LostOnce(log: seq<Output>) {
    Ordered(log) && forall k :: 0 <= k < |log| && log[k].Lost? ==> Count(log, log[k]) <= 1
  }

  lemma {:induction false} LostIsFound(log: seq<Output>, path: string, n: nat)
    requires LostOnce(log)
    ensures Logged(log, true, path, n) <= Logged(log, false, path, n)
  {
    hide PathOf;
    if n > 0 {
      LostIsFound(log, path, n - 1);
      CountIn(log, Lost(n - 1));
      CountIn(log, Found(n - 1));
      if Lost(n - 1) in log {
        var k :| 0 <= k < |log| && log[k] == Lost(n - 1);
        assert Found(n - 1) in log[..k];
      }
    }
  }

  lemma AllInOrder(log: seq<Output>, path: string, n: nat)
    requires Below(log, n) && LostOnce(log)
    ensures multiset(SignalsOf(log))[LostDevice(path)] <= multiset(SignalsOf(log))[FoundDevice(path)]
  {
    hide PathOf, LostOnce, Logged, Below;
    LostIsFound(log, path, n);
    SignalsAreLogged(log, true, path, n);
    SignalsAreLogged(log, false, path, n);
  }

  lemma InitInOrder(log: seq<Output>, n: nat)
    requires log != [] && LostOnce(log) && Below(log, n)
    ensures LostOnce(log[..|log| - 1]) && Below(log[..|log| - 1], n)
  {
    var init := log[..|log| - 1];
    forall k | 0 <= k < |init| && init[k].Lost? ensures Found(init[k].device) in init[..k] {
      assert log[k] == init[k] && log[..k] == init[..k];
    }
  }

  /** At no time has a path been withdrawn more often than announced. */
  predicate NeverAhead(signals: seq<Signal>, path: string) {
    forall k :: 0 <= k <= |signals| ==>
      multiset(signals[..k])[LostDevice(path)] <= multiset(signals[..k])[FoundDevice(path)]
  }

  lemma NeverAheadAgain(before: seq<Signal>, last: seq<Signal>, path: string)
    requires NeverAhead(before, path) && |last| <= 1
    requires multiset(before + last)[LostDevice(path)] <= multiset(before + last)[FoundDevice(path)]
    ensures NeverAhead(before + last, path)
  {
    var signals := before + last;
    forall k | 0 <= k <= |signals|
      ensures multiset(signals[..k])[LostDevice(path)] <= multiset(signals[..k])[FoundDevice(path)]
    {
      assert signals[..k] == if k <= |before| then before[..k] else signals;
    }
  }

  lemma {:induction false} LogNeverAhead(log: seq<Output>, path: string, n: nat)
    requires Below(log, n) && LostOnce(log)
    ensures NeverAhead(SignalsOf(log), path)
  {
    hide PathOf, LostOnce, Below, NeverAhead;
    if log == [] {
      NothingAhead(path);
    } else {
      var init := log[..|log| - 1];
      InitInOrder(log, n);
      LogNeverAhead(init, path, n);
      AllInOrder(log, path, n);
      NeverAheadAgain(SignalsOf(init), SignalOf(log[|log| - 1]), path);
    }
  }

  lemma NothingAhead(path: string)
    ensures NeverAhead([], path)
  {}

  /** No LostDevice signal without an earlier FoundDevice signal for the same path. */
  predicate SignalsOrdered(signals: seq<Signal>) {
    forall k :: 0 <= k < |signals| && signals[k].LostDevice? ==> FoundDevice(signals[k].path) in signals[..k]
  }

  lemma NeverAheadIsOrdered(signals: seq<Signal>)
    requires forall path :: NeverAhead(signals, path)
    ensures SignalsOrdered(signals)
  {
    forall k | 0 <= k < |signals| && signals[k].LostDevice? ensures FoundDevice(signals[k].path) in signals[..k] {
      var path := signals[k].path;
      assert NeverAhead(signals, path);
      assert signals[..k + 1] == signals[..k] + [signals[k]];
      assert multiset(signals[..k + 1])[LostDevice(path)] > 0;
      assert multiset(signals[..k])[FoundDevice(path)] > 0;
    }
  }

  lemma SignalsNeverAhead(s: State)
    requires Reachable(s)
    ensures SignalsOrdered(s.signals) && forall path :: NeverAhead(s.signals, path)
  {
    hide PathOf, InvBut, Ordered, NeverAhead, SignalsOrdered;
    ReachableGood(s);
    LinkedOf(s);
    LogIsBelow(s);
    forall k | 0 <= k < |s.log| && s.log[k].Lost? ensures Count(s.log, s.log[k]) <= 1 {
      assert s.log[k] == Lost(s.log[k].device) && DeviceHistory(s, s.log[k].device);
    }
    forall path ensures NeverAhead(s.signals, path) { LogNeverAhead(s.log, path, s.created); }
    NeverAheadIsOrdered(s.signals);
  }

  // ----- paths announced or withdrawn twice -----

  lemma {:induction false} LoggedBy(log: seq<Output>, lost: bool, path: string, n: nat) returns (d: nat)
    requires Logged(log, lost, path, n) > 0
    ensures d < n && PathOf(d) == path && Count(log, OutputOf(lost, d)) > 0
  {
    hide PathOf;
    d := n - 1;
    if !(PathOf(d) == path && Count(log, OutputOf(lost, d)) > 0) { d := LoggedBy(log, lost, path, n - 1); }
  }

  lemma {:induction false} LoggedByTwo(log: seq<Output>, lost: bool, path: string, n: nat) returns (d: nat, e: nat)
    requires Logged(log, lost, path, n) > 1 && forall x: nat :: Count(log, OutputOf(lost, x)) <= 1
    ensures d < e < n && PathOf(d) == path == PathOf(e)
    ensures Count(log, OutputOf(lost, d)) > 0 && Count(log, OutputOf(lost, e)) > 0
  {
    hide PathOf;
    e := n - 1;
    if PathOf(e) == path && Count(log, OutputOf(lost, e)) > 0 {
      d := LoggedBy(log, lost, path, n - 1);
    } else {
      d, e := LoggedByTwo(log, lost, path, n - 1);
    }
  }

  lemma {:induction false} LoggedAtLeast(log: seq<Output>, lost: bool, path: string, n: nat, d: nat)
    requires d < n && PathOf(d) == path
    ensures Logged(log, lost, path, n) >= Count(log, OutputOf(lost, d))
  {
    hide PathOf;
    if d < n - 1 { LoggedAtLeast(log, lost, path, n - 1, d); }
  }

  lemma {:induction false} LoggedAtLeastTwo(log: seq<Output>, lost: bool, path: string, n: nat, d: nat, e: nat)
    requires d < e < n && PathOf(d) == path == PathOf(e)
    ensures Logged(log, lost, path, n) >= Count(log, OutputOf(lost, d)) + Count(log, OutputOf(lost, e))
  {
    hide PathOf;
    if e == n - 1 {
      LoggedAtLeast(log, lost, path, n - 1, d);
    } else {
      LoggedAtLeastTwo(log, lost, path, n - 1, d, e);
    }
  }

  /** Two different devices, both announced (or both withdrawn), with the same path: their numbers
      differ by a multiple of 2^32. */
  ghost predicate Twins(s: State, lost: bool, path: string) {
    exists d: nat, e: nat :: d < e && OutputOf(lost, d) in s.log && OutputOf(lost, e) in s.log
                             && PathOf(d) == path && d % COUNTER_SIZE == e % COUNTER_SIZE
  }

  lemma AtMostOnce(s: State, lost: bool, d: nat)
    requires Good(s)
    ensures Count(s.log, OutputOf(lost, d)) <= 1
    ensures OutputOf(lost, d) in s.log ==> d < s.created && Count(s.log, OutputOf(lost, d)) == 1
  {
    hide InvBut, Ordered;
    LinkedOf(s);
    assert DeviceHistory(s, d);
    CountIn(s.log, OutputOf(lost, d));
    if d in s.devices { OwnerOf(s, d); }
  }

  /** A path is announced more than once exactly when two devices 2^32 apart have both been
      announced under it, and withdrawn more than once exactly when two have been withdrawn. */
  lemma SentTwiceExactly(s: State, lost: bool, path: string)
    requires Reachable(s)
    ensures Sent(s, lost, path) > 1 <==> Twins(s, lost, path)
  {
    hide PathOf, Good, Sent, Logged, Count;
    ReachableGood(s);
    SentIsLogged(s, lost, path);
    forall x: nat ensures Count(s.log, OutputOf(lost, x)) <= 1 { AtMostOnce(s, lost, x); }
    if Sent(s, lost, path) > 1 {
      var d, e := LoggedByTwo(s.log, lost, path, s.created);
      CountIn(s.log, OutputOf(lost, d));
      CountIn(s.log, OutputOf(lost, e));
      PathsCollideExactly(d, e);
    }
    if Twins(s, lost, path) {
      var d: nat, e: nat :| d < e && OutputOf(lost, d) in s.log && OutputOf(lost, e) in s.log
                            && PathOf(d) == path && d % COUNTER_SIZE == e % COUNTER_SIZE;
      PathsCollideExactly(d, e);
      AtMostOnce(s, lost, d);
      AtMostOnce(s, lost, e);
      LoggedAtLeastTwo(s.log, lost, path, s.created, d, e);
    }
  }

  // ----- what GetDevices answers -----

  /** The path is in use, by a device whose twin has been withdrawn. */
  ghost predicate Reused(s: State, path: string) {
    exists d: nat, e: nat :: IsPublished(s, d) && Lost(e) in s.log
                             && PathOf(d) == path && d % COUNTER_SIZE == e % COUNTER_SIZE
  }

  lemma ReusedExactly(s: State, path: string)
    requires Reachable(s)
    ensures Reused(s, path) <==> Carriers(s, path) != {} && Sent(s, true, path) > 0
  {
    hide PathOf, InvBut, HistoryOk, Sent, Logged, Count;
    ReachableGood(s);
    SentIsLogged(s, true, path);
    if Reused(s, path) {
      var d: nat, e: nat :| IsPublished(s, d) && Lost(e) in s.log
                            && PathOf(d) == path && d % COUNTER_SIZE == e % COUNTER_SIZE;
      PathsCollideExactly(d, e);
      AtMostOnce(s, true, e);
      LoggedAtLeast(s.log, true, path, s.created, e);
      assert d in Carriers(s, path);
    }
    if Carriers(s, path) != {} && Sent(s, true, path) > 0 {
      var d :| d in Carriers(s, path);
      var e := LoggedBy(s.log, true, path, s.created);
      CountIn(s.log, Lost(e));
      PathsCollideExactly(d, e);
    }
  }

  /** GetDevices answers with the paths announced and not withdrawn, except for the paths that are
      in use again. */
  lemma ListedExactly(s: State, path: string)
    requires Reachable(s)
    ensures (path in DeviceIds(s) <==> FoundDevice(path) in s.signals && LostDevice(path) !in s.signals)
       <==> !Reused(s, path)
  {
    hide Reachable, DeviceIds, Reused, Carriers;
    PathBalance(s, path);
    ReusedExactly(s, path);
    CarriersCount(s, path);
  }

  lemma CarriersCount(s: State, path: string)
    ensures |Carriers(s, path)| > 0 <==> Carriers(s, path) != {}
  {}

  lemma NoTwinsYet(s: State, path: string)
    requires Reachable(s) && s.created <= COUNTER_SIZE
    ensures !Twins(s, false, path) && !Reused(s, path)
  {
    hide Reachable, PathOf, Good;
    ReachableGood(s);
    if Twins(s, false, path) {
      var d: nat, e: nat :| d < e && Found(d) in s.log && Found(e) in s.log && d % COUNTER_SIZE == e % COUNTER_SIZE;
      AtMostOnce(s, false, e);
    }
    if Reused(s, path) {
      var d: nat, e: nat :| IsPublished(s, d) && Lost(e) in s.log && d % COUNTER_SIZE == e % COUNTER_SIZE;
      AtMostOnce(s, true, e);
      PublishedIsNotLost(s, d, e);
    }
  }

  /** For each object path: never more LostDevice than FoundDevice signals, at any time, and
      GetDevices answers the paths with more of the latter. Until the counter has gone round once
      that means at most one of each, and exactly the paths found and not lost. */
  lemma SignalsPerPath(s: State, path: string)
    requires Reachable(s)
    ensures NeverAhead(s.signals, path) && SignalsOrdered(s.signals)
    ensures Sent(s, true, path) <= Sent(s, false, path)
    ensures path in DeviceIds(s) <==> Sent(s, false, path) > Sent(s, true, path)
    ensures s.created <= COUNTER_SIZE ==>
              && Sent(s, true, path) <= Sent(s, false, path) <= 1
              && (path in DeviceIds(s) <==> FoundDevice(path) in s.signals && LostDevice(path) !in s.signals)
  {
    hide Reachable, DeviceIds, Sent, Twins, Reused;
    SignalsNeverAhead(s);
    PathBalance(s, path);
    if s.created <= COUNTER_SIZE {
      NoTwinsYet(s, path);
      SentTwiceExactly(s, false, path);
      ListedExactly(s, path);
    }
  }

  lemma PublishedIsNotLost(s: State, d: nat, e: nat)
    requires Good(s) && IsPublished(s, d) && Lost(e) in s.log
    ensures d != e && d < s.created
  {
    hide InvBut, Ordered;
    LinkedOf(s);
    OwnerOf(s, d);
    assert DeviceHistory(s, d);
    CountIn(s.log, Lost(e));
  }
}
