/** The ordered list of network contexts of one device: which context is preferred, which one
    holds the event subscription, and how both change when the list is edited. */
module Contexts {

  /** `subscribed` and `lossTimer` are the `subscribed` flag and the armed 10 second timer of the
      context's BasicManagement service. */
  datatype Context = Context(ip: string, subscribed: bool, lossTimer: bool)

  const LOOPBACK_PREFIX := "127.0.0."

  /** The loopback forms the code recognises: section 3.2.1.3 of RFC 1122 restricted to
      127.0.0.*, and two of the spellings of the loopback address in section 2.5.3 of RFC 4291. */
  predicate IsLoopback(ip: string) {
    || LOOPBACK_PREFIX <= ip
    || ip == "::1"
    || ip == "0:0:0:0:0:0:0:1"
  }

  /** The index of the first loopback context, or `|cs|`. */
  function FirstLoopback(cs: seq<Context>): (i: nat)
    ensures i <= |cs|
    ensures forall j :: 0 <= j < i ==> !IsLoopback(cs[j].ip)
    ensures i < |cs| ==> IsLoopback(cs[i].ip)
  {
    if cs == [] then 0
    else if IsLoopback(cs[0].ip) then 0
    else
      var i := FirstLoopback(cs[1..]);
      assert forall j :: 1 <= j < i + 1 ==> cs[j] == cs[1..][j - 1];
      i + 1
  }

  /** The index of the first subscribed context, or `|cs|`. */
  function FirstSubscribed(cs: seq<Context>): (i: nat)
    ensures i <= |cs|
    ensures forall j :: 0 <= j < i ==> !cs[j].subscribed
    ensures i < |cs| ==> cs[i].subscribed
  {
    if cs == [] then 0
    else if cs[0].subscribed then 0
    else
      var i := FirstSubscribed(cs[1..]);
      assert forall j :: 1 <= j < i + 1 ==> cs[j] == cs[1..][j - 1];
      i + 1
  }

  /** The index of the first context on address `ip`, or `|cs|`. */
  function IndexOfIp(cs: seq<Context>, ip: string): (i: nat)
    ensures i <= |cs|
    ensures forall j :: 0 <= j < i ==> cs[j].ip != ip
    ensures i < |cs| ==> cs[i].ip == ip
  {
    if cs == [] then 0
    else if cs[0].ip == ip then 0
    else
      var i := IndexOfIp(cs[1..], ip);
      assert forall j :: 1 <= j < i + 1 ==> cs[j] == cs[1..][j - 1];
      i + 1
  }

  /** The context all traffic of the device should go through: the first loopback one, otherwise
      the oldest. */
  function Preferred(cs: seq<Context>): (r: nat)
    ensures cs != [] ==> r < |cs|
  {
    var i := FirstLoopback(cs);
    if i == |cs| then 0 else i
  }

  /** The preferred context is the first one on a loopback address; without one it is the first of all. */
  lemma PreferredExactly(cs: seq<Context>, i: nat)
    requires i < |cs|
    ensures var local := (ip: string) => "127.0.0." <= ip || ip == "::1" || ip == "0:0:0:0:0:0:0:1";
            Preferred(cs) == i <==>
            || (local(cs[i].ip) && forall j :: 0 <= j < i ==> !local(cs[j].ip))
            || (i == 0 && forall j :: 0 <= j < |cs| ==> !local(cs[j].ip))
  {
    var f := FirstLoopback(cs);
    if f < |cs| { assert IsLoopback(cs[f].ip); }
  }

  function Unsubscribed(c: Context): Context {
    c.(subscribed := false, lossTimer := false)
  }

  /** Subscribes the preferred context, whatever the others hold. */
  function SubscribePreferred(cs: seq<Context>): seq<Context>
    requires cs != []
  {
    var i := Preferred(cs);
    cs[i := cs[i].(subscribed := true)]
  }

  /** Moves the subscription to the preferred context if it is not there yet. */
  function MoveSubscription(cs: seq<Context>): seq<Context>
    requires cs != []
  {
    var i := FirstSubscribed(cs);
    if i == Preferred(cs) then cs
    else SubscribePreferred(if i < |cs| then cs[i := Unsubscribed(cs[i])] else cs)
  }

  function Append(cs: seq<Context>, ip: string): seq<Context> {
    MoveSubscription(cs + [Context(ip, false, false)])
  }

  function RemoveAt(cs: seq<Context>, i: nat): seq<Context>
    requires i < |cs|
  {
    cs[..i] + cs[i + 1..]
  }

  /** A loss report: the first one arms the 10 second timer, a second one while it is armed gives
      the subscription up. */
  function LoseSubscription(c: Context): Context {
    if !c.lossTimer then c.(lossTimer := true)
    else c.(lossTimer := false, subscribed := false)
  }

  // ----- what every edit keeps -----

  predicate DistinctIps(cs: seq<Context>) {
    forall i, j :: 0 <= i < j < |cs| ==> cs[i].ip != cs[j].ip
  }

  predicate OnlyPreferredSubscribed(cs: seq<Context>) {
    forall i :: 0 <= i < |cs| && cs[i].subscribed ==> i == Preferred(cs)
  }

  predicate Valid(cs: seq<Context>) {
    cs != [] && DistinctIps(cs) && OnlyPreferredSubscribed(cs)
  }

  predicate HasSubscription(cs: seq<Context>) {
    exists i :: 0 <= i < |cs| && cs[i].subscribed
  }

  function Ips(cs: seq<Context>): set<string> {
    set i | 0 <= i < |cs| :: cs[i].ip
  }

  lemma SameIpsSamePreferred(cs: seq<Context>, ds: seq<Context>)
    requires |cs| == |ds| && forall i :: 0 <= i < |cs| ==> cs[i].ip == ds[i].ip
    ensures Preferred(cs) == Preferred(ds)
    ensures Ips(cs) == Ips(ds)
  {}

  /** Order-preserving removal of a context other than the preferred one leaves the preference on
      the same context. */
  lemma RemovalKeepsPreference(cs: seq<Context>, i: nat)
    requires i < |cs| && i != Preferred(cs)
    ensures |RemoveAt(cs, i)| > 0
    ensures Preferred(RemoveAt(cs, i)) == if i < Preferred(cs) then Preferred(cs) - 1 else Preferred(cs)
    ensures RemoveAt(cs, i)[Preferred(RemoveAt(cs, i))] == cs[Preferred(cs)]
  {
    var ds := RemoveAt(cs, i);
    assert forall k :: 0 <= k < |ds| ==> ds[k] == if k < i then cs[k] else cs[k + 1];
    var f, g := FirstLoopback(cs), FirstLoopback(ds);
    if f == |cs| {
      assert forall k :: 0 <= k < |cs| ==> !IsLoopback(cs[k].ip);
    } else {
      var p := if i < f then f - 1 else f;
      assert ds[p] == cs[f];
      assert forall k :: 0 <= k < p ==> !IsLoopback(ds[k].ip);
      assert g == p;
    }
  }

  lemma RemovalElements(cs: seq<Context>, i: nat)
    requires i < |cs|
    ensures |RemoveAt(cs, i)| == |cs| - 1
    ensures forall k :: 0 <= k < |cs| - 1 ==> RemoveAt(cs, i)[k] == cs[if k < i then k else k + 1]
  {}

  lemma RemovalIps(cs: seq<Context>, i: nat)
    requires i < |cs| && DistinctIps(cs)
    ensures Ips(RemoveAt(cs, i)) == Ips(cs) - {cs[i].ip}
  {
    RemovalElements(cs, i);
    var ds := RemoveAt(cs, i);
    forall ip ensures ip in Ips(ds) <==> ip in Ips(cs) && ip != cs[i].ip {
      if ip in Ips(cs) && ip != cs[i].ip {
        var k :| 0 <= k < |cs| && cs[k].ip == ip;
        assert ds[if k < i then k else k - 1].ip == ip;
      }
    }
  }

  lemma RemovalSubscription(cs: seq<Context>, i: nat)
    requires i < |cs| && OnlyPreferredSubscribed(cs) && |cs| > 1
    ensures OnlyPreferredSubscribed(RemoveAt(cs, i))
    ensures HasSubscription(RemoveAt(cs, i)) <==> HasSubscription(cs) && !cs[i].subscribed
  {
    RemovalElements(cs, i);
    var ds := RemoveAt(cs, i);
    if i != Preferred(cs) { RemovalKeepsPreference(cs, i); }
    if HasSubscription(cs) && !cs[i].subscribed {
      var k :| 0 <= k < |cs| && cs[k].subscribed;
      assert ds[if k < i then k else k - 1].subscribed;
    }
  }

  lemma RemovalKeepsValid(cs: seq<Context>, i: nat)
    requires Valid(cs) && i < |cs| && |cs| > 1
    ensures Valid(RemoveAt(cs, i))
    ensures HasSubscription(RemoveAt(cs, i)) <==> HasSubscription(cs) && !cs[i].subscribed
  {
    RemovalElements(cs, i);
    RemovalSubscription(cs, i);
    var ds := RemoveAt(cs, i);
    assert DistinctIps(ds);
  }

  lemma SubscribePreferredKeepsValid(cs: seq<Context>)
    requires Valid(cs)
    ensures Valid(SubscribePreferred(cs)) && HasSubscription(SubscribePreferred(cs))
    ensures Ips(SubscribePreferred(cs)) == Ips(cs)
  {
    var ds := SubscribePreferred(cs);
    SameIpsSamePreferred(cs, ds);
    assert ds[Preferred(cs)].subscribed;
  }

  /** Moving the subscription repairs any list with at most one subscribed context, wherever that
      one is: afterwards exactly the preferred context is subscribed. */
  lemma MoveSubscriptionEstablishes(cs: seq<Context>)
    requires cs != [] && DistinctIps(cs)
    requires forall i, j :: 0 <= i < j < |cs| ==> !(cs[i].subscribed && cs[j].subscribed)
    ensures Valid(MoveSubscription(cs)) && HasSubscription(MoveSubscription(cs))
    ensures |MoveSubscription(cs)| == |cs|
    ensures forall i :: 0 <= i < |cs| ==> MoveSubscription(cs)[i].ip == cs[i].ip
    ensures Ips(MoveSubscription(cs)) == Ips(cs)
  {
    var i, p := FirstSubscribed(cs), Preferred(cs);
    if i == p {
      assert cs[p].subscribed;
    } else {
      var ds := if i < |cs| then cs[i := Unsubscribed(cs[i])] else cs;
      SameIpsSamePreferred(cs, ds);
      assert forall k :: 0 <= k < |cs| && k != i ==> !cs[k].subscribed;
      SubscribePreferredKeepsValid(ds);
      SameIpsSamePreferred(cs, MoveSubscription(cs));
    }
  }

  lemma AppendKeepsValid(cs: seq<Context>, ip: string)
    requires Valid(cs) && IndexOfIp(cs, ip) == |cs|
    ensures Valid(Append(cs, ip)) && HasSubscription(Append(cs, ip))
    ensures Ips(Append(cs, ip)) == Ips(cs) + {ip}
  {
    var ds := cs + [Context(ip, false, false)];
    MoveSubscriptionEstablishes(ds);
    forall x ensures x in Ips(ds) <==> x in Ips(cs) || x == ip {
      if x in Ips(cs) {
        var k :| 0 <= k < |cs| && cs[k].ip == x;
        assert ds[k].ip == x;
      }
      if x == ip { assert ds[|cs|].ip == ip; }
      if x in Ips(ds) {
        var k :| 0 <= k < |ds| && ds[k].ip == x;
        if k < |cs| { assert cs[k].ip == x; }
      }
    }
  }

  lemma MoveSubscriptionKeepsValid(cs: seq<Context>)
    requires Valid(cs)
    ensures Valid(MoveSubscription(cs)) && HasSubscription(MoveSubscription(cs))
    ensures Ips(MoveSubscription(cs)) == Ips(cs)
  {
    MoveSubscriptionEstablishes(cs);
  }

  /** A loss report ends the subscription of the device exactly when it is for the subscribed
      context and the second one inside the 10 second window. */
  lemma LossKeepsValid(cs: seq<Context>, i: nat)
    requires Valid(cs) && i < |cs|
    ensures Valid(cs[i := LoseSubscription(cs[i])])
    ensures Ips(cs[i := LoseSubscription(cs[i])]) == Ips(cs)
    ensures HasSubscription(cs[i := LoseSubscription(cs[i])]) <==>
            HasSubscription(cs) && !(cs[i].subscribed && cs[i].lossTimer)
  {
    var ds := cs[i := LoseSubscription(cs[i])];
    SameIpsSamePreferred(cs, ds);
    if HasSubscription(cs) && !(cs[i].subscribed && cs[i].lossTimer) {
      var k :| 0 <= k < |cs| && cs[k].subscribed;
      assert ds[k].subscribed;
    }
  }

  /** As many calls of the loss handler as one loss brings. */
  function LoseRepeatedly(c: Context, n: nat): Context
    decreases n
  {
    if n == 0 then c else LoseRepeatedly(LoseSubscription(c), n - 1)
  }

  /** Every subscription of a context connects the handler once more, so that one loss brings as many
      calls. The subscription survives it exactly when there is a single call and no window open. */
  lemma {:induction false} RepeatedLoss(c: Context, n: nat)
    ensures LoseRepeatedly(c, n).subscribed <==> c.subscribed && (n == 0 || (n == 1 && !c.lossTimer))
    ensures LoseRepeatedly(c, n).lossTimer <==> c.lossTimer == (n % 2 == 0)
    decreases n
  {
    if n > 0 { RepeatedLoss(LoseSubscription(c), n - 1); }
  }

  lemma LossTimerKeepsValid(cs: seq<Context>, i: nat)
    requires Valid(cs) && i < |cs|
    ensures Valid(cs[i := cs[i].(lossTimer := false)])
    ensures Ips(cs[i := cs[i].(lossTimer := false)]) == Ips(cs)
    ensures HasSubscription(cs[i := cs[i].(lossTimer := false)]) <==> HasSubscription(cs)
  {
    var ds := cs[i := cs[i].(lossTimer := false)];
    SameIpsSamePreferred(cs, ds);
    assert forall k :: 0 <= k < |cs| ==> ds[k].subscribed == cs[k].subscribed;
    if HasSubscription(cs) {
      var k :| 0 <= k < |cs| && cs[k].subscribed;
      assert ds[k].subscribed;
    }
  }

  // ----- loss timers -----

  /** The addresses of the contexts whose loss timer is armed. */
  function LossIps(cs: seq<Context>): set<string> {
    set i | 0 <= i < |cs| && cs[i].lossTimer :: cs[i].ip
  }

  /** What editing one context in place does to them. */
  lemma EditLossIps(cs: seq<Context>, i: nat, c: Context)
    requires i < |cs| && DistinctIps(cs) && c.ip == cs[i].ip
    ensures LossIps(cs[i := c]) == if c.lossTimer then LossIps(cs) + {c.ip} else LossIps(cs) - {c.ip}
  {
    var ds := cs[i := c];
    forall ip ensures ip in LossIps(ds) <==> if ip == c.ip then c.lossTimer else ip in LossIps(cs) {
      if ip in LossIps(cs) && ip != c.ip {
        var k :| 0 <= k < |cs| && cs[k].lossTimer && cs[k].ip == ip;
        assert ds[k] == cs[k];
      }
      if ip == c.ip && c.lossTimer { assert ds[i].ip == ip; }
    }
  }

  lemma RemovalLossIps(cs: seq<Context>, i: nat)
    requires i < |cs| && DistinctIps(cs)
    ensures LossIps(RemoveAt(cs, i)) == LossIps(cs) - {cs[i].ip}
  {
    RemovalElements(cs, i);
    var ds := RemoveAt(cs, i);
    forall ip ensures ip in LossIps(ds) <==> ip in LossIps(cs) && ip != cs[i].ip {
      if ip in LossIps(cs) && ip != cs[i].ip {
        var k :| 0 <= k < |cs| && cs[k].lossTimer && cs[k].ip == ip;
        assert ds[if k < i then k else k - 1].ip == ip;
      }
    }
  }

  lemma SubscribePreferredLossIps(cs: seq<Context>)
    requires cs != [] && DistinctIps(cs)
    ensures LossIps(SubscribePreferred(cs)) == LossIps(cs)
  {
    var i := Preferred(cs);
    EditLossIps(cs, i, cs[i].(subscribed := true));
    if !cs[i].lossTimer {
      assert cs[i].ip !in LossIps(cs);
    } else {
      assert cs[i].ip in LossIps(cs);
    }
  }

  /** The address, if any, that moving the subscription unsubscribes. */
  function Moved(cs: seq<Context>): set<string> {
    var i := FirstSubscribed(cs);
    if i == |cs| || i == Preferred(cs) then {} else {cs[i].ip}
  }

  lemma MoveLossIps(cs: seq<Context>)
    requires cs != [] && DistinctIps(cs)
    ensures LossIps(MoveSubscription(cs)) == LossIps(cs) - Moved(cs)
  {
    var i := FirstSubscribed(cs);
    if i != Preferred(cs) {
      if i < |cs| {
        EditLossIps(cs, i, Unsubscribed(cs[i]));
        SubscribePreferredLossIps(cs[i := Unsubscribed(cs[i])]);
        SameIpsSamePreferred(cs, cs[i := Unsubscribed(cs[i])]);
      } else {
        SubscribePreferredLossIps(cs);
      }
    }
  }
}
