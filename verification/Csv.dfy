/** Comma-separated values as the event variables and action results carry them: splitting at
    every comma, stripping white space, and reading test ids. */
module Csv {
  import opened Wrappers
  import Decimal

  // ----- splitting -----

  /** The pieces between commas, the empty ones included. */
  function Parts(s: string): (ps: seq<string>)
    ensures |ps| > 0
  {
    if s == "" then [""]
    else
      var ps := Parts(s[1..]);
      if s[0] == ',' then [""] + ps else [[s[0]] + ps[0]] + ps[1..]
  }

  /** Splitting the empty string gives no piece at all, rather than an empty one. */
  function Split(s: string): seq<string> {
    if s == "" then [] else Parts(s)
  }

  function Commas(s: string): nat {
    if s == "" then 0 else (if s[0] == ',' then 1 else 0) + Commas(s[1..])
  }

  lemma {:induction false} PartsUncut(s: string)
    requires ',' !in s
    ensures Parts(s) == [s]
  {
    if s != "" {
      PartsUncut(s[1..]);
      assert [s[0]] + s[1..] == s;
    }
  }

  lemma {:induction false} PartsCut(a: string, b: string)
    ensures Parts(a + "," + b) == Parts(a) + Parts(b)
  {
    var s := a + "," + b;
    if a == "" {
      assert s[1..] == b;
    } else {
      assert s[1..] == a[1..] + "," + b;
      PartsCut(a[1..], b);
    }
  }

  lemma {:induction false} PartsShape(s: string)
    ensures |Parts(s)| == Commas(s) + 1
    ensures forall p :: p in Parts(s) ==> ',' !in p
  {
    if s != "" { PartsShape(s[1..]); }
  }

  lemma {:induction false} CommasCut(a: string, b: string)
    ensures Commas(a + "," + b) == Commas(a) + 1 + Commas(b)
  {
    var s := a + "," + b;
    if a == "" {
      assert s[1..] == b;
    } else {
      assert s[1..] == a[1..] + "," + b;
      CommasCut(a[1..], b);
    }
  }

  method FindComma(s: string) returns (i: nat)
    ensures i <= |s| && ',' !in s[..i] && (i < |s| ==> s[i] == ',')
  {
    i := 0;
    while i < |s| && s[i] != ','
      invariant i <= |s| && ',' !in s[..i]
    {
      i := i + 1;
    }
  }

  method SplitAtCommas(s: string) returns (parts: seq<string>)
    ensures parts == Split(s)
  {
    hide Parts;
    parts := [];
    var remainder := s;
    assert Parts(s) == parts + Parts(remainder);
    var comma := FindComma(remainder);
    while comma < |remainder|
      invariant Parts(s) == parts + Parts(remainder)
      invariant 0 <= comma <= |remainder| && ',' !in remainder[..comma]
      invariant comma < |remainder| ==> remainder[comma] == ','
      invariant s == "" ==> parts == [] && remainder == ""
      decreases |remainder|
    {
      var part := remainder[..comma];
      var rest := remainder[comma + 1..];
      assert remainder == part + "," + rest;
      PartsCut(part, rest);
      PartsUncut(part);
      assert parts + ([part] + Parts(rest)) == parts + [part] + Parts(rest);
      parts, remainder := parts + [part], rest;
      comma := FindComma(remainder);
    }
    assert remainder[..comma] == remainder;
    PartsUncut(remainder);
    if s != "" { parts := parts + [remainder]; }
  }

  // ----- stripping -----

  /** GLib's ASCII white space, which leaves out the vertical tab. */
  predicate IsSpace(c: char) {
    c == ' ' || c == '\t' || c == '\n' || c == '\r' || c == '\U{000C}'
  }

  function Chug(s: string): string {
    if s != "" && IsSpace(s[0]) then Chug(s[1..]) else s
  }

  function Chomp(s: string): string {
    if s != "" && IsSpace(s[|s| - 1]) then Chomp(s[..|s| - 1]) else s
  }

  function Strip(s: string): string {
    Chug(Chomp(s))
  }

  predicate Blank(s: string) {
    forall i :: 0 <= i < |s| ==> IsSpace(s[i])
  }

  predicate Trimmed(s: string) {
    s == "" || (!IsSpace(s[0]) && !IsSpace(s[|s| - 1]))
  }

  lemma {:induction false} ChugBlank(pre: string, s: string)
    requires Blank(pre) && (s == "" || !IsSpace(s[0]))
    ensures Chug(pre + s) == s
  {
    if pre != "" {
      assert (pre + s)[0] == pre[0] && (pre + s)[1..] == pre[1..] + s;
      ChugBlank(pre[1..], s);
    } else {
      assert pre + s == s;
    }
  }

  lemma {:induction false} ChompBlank(s: string, post: string)
    requires Blank(post) && (s == "" || !IsSpace(s[|s| - 1]))
    ensures Chomp(s + post) == s
  {
    if post != "" {
      var n := |post| - 1;
      assert (s + post)[..|s + post| - 1] == s + post[..n];
      assert (s + post)[|s + post| - 1] == post[n];
      ChompBlank(s, post[..n]);
    } else {
      assert s + post == s;
    }
  }

  /** Stripping takes off exactly the blank ends: a trimmed text is what is left of any padding
      of it. */
  lemma StripPadded(pre: string, s: string, post: string)
    requires Trimmed(s) && Blank(pre) && Blank(post)
    ensures Strip(pre + s + post) == s
  {
    if s == "" {
      assert pre + s + post == "" + (pre + post);
      ChompBlank("", pre + post);
    } else {
      ChompBlank(pre + s, post);
      ChugBlank(pre, s);
    }
  }

  lemma {:induction false} ChugSplits(s: string)
    ensures |Chug(s)| <= |s| && Chug(s) == s[|s| - |Chug(s)|..] && Blank(s[..|s| - |Chug(s)|])
    ensures Chug(s) != "" ==> !IsSpace(Chug(s)[0])
  {
    if s != "" && IsSpace(s[0]) {
      ChugSplits(s[1..]);
      var k := |s| - |Chug(s)|;
      assert s[..k] == [s[0]] + s[1..][..k - 1];
    }
  }

  lemma {:induction false} ChompSplits(s: string)
    ensures |Chomp(s)| <= |s| && Chomp(s) == s[..|Chomp(s)|] && Blank(s[|Chomp(s)|..])
    ensures Chomp(s) != "" ==> !IsSpace(Chomp(s)[|Chomp(s)| - 1])
  {
    if s != "" && IsSpace(s[|s| - 1]) {
      var n := |s| - 1;
      ChompSplits(s[..n]);
      var k := |Chomp(s)|;
      assert s[k..] == s[..n][k..] + [s[n]];
    }
  }

  /** Every text is its stripped form between blank ends, and that form is trimmed. */
  lemma StripSplits(s: string) returns (pre: string, post: string)
    ensures s == pre + Strip(s) + post && Blank(pre) && Blank(post) && Trimmed(Strip(s))
  {
    var c := Chomp(s);
    ChompSplits(s);
    ChugSplits(c);
    pre, post := c[..|c| - |Strip(s)|], s[|c|..];
  }

  /** The five white space characters are taken off both ends. */
  lemma StripsSpaces(s: string, c: char)
    requires c in " \t\n\r\U{000C}"
    ensures Strip([c] + s) == Strip(s) && Strip(s + [c]) == Strip(s)
  {
    var pre, post := StripSplits(s);
    assert Blank([c] + pre) && Blank(post + [c]);
    assert [c] + s == ([c] + pre) + Strip(s) + post && s + [c] == pre + Strip(s) + (post + [c]);
    StripPadded([c] + pre, Strip(s), post);
    StripPadded(pre, Strip(s), post + [c]);
  }

  /** And nothing else is. */
  lemma StripsNothingElse(s: string)
    ensures Strip(s) == s <==> s == "" || (s[0] !in " \t\n\r\U{000C}" && s[|s| - 1] !in " \t\n\r\U{000C}")
  {
    StripIdle(s);
  }

  lemma StripIdle(s: string)
    ensures Strip(s) == s <==> Trimmed(s)
  {
    if Trimmed(s) { StripPadded("", s, ""); assert "" + s + "" == s; }
    var _, _ := StripSplits(s);
  }

  lemma StripUncut(s: string)
    requires ',' !in s
    ensures ',' !in Strip(s)
  {
    var pre, post := StripSplits(s);
    assert forall c :: c in Strip(s) ==> c in pre + Strip(s) + post;
  }

  method StripSpaces(s: string) returns (r: string)
    ensures r == Strip(s)
  {
    var hi := |s|;
    while hi > 0 && IsSpace(s[hi - 1])
      invariant 0 <= hi <= |s| && Blank(s[hi..])
    {
      hi := hi - 1;
      assert s[hi..] == [s[hi]] + s[hi + 1..];
    }
    var lo := 0;
    while lo < hi && IsSpace(s[lo])
      invariant 0 <= lo <= hi && Blank(s[..lo])
    {
      lo := lo + 1;
      assert s[..lo] == s[..lo - 1] + [s[lo - 1]];
    }
    r := s[lo..hi];
    assert s == s[..lo] + r + s[hi..];
    StripPadded(s[..lo], r, s[hi..]);
  }

  // ----- lists of strings -----

  function StripAll(ps: seq<string>): (r: seq<string>)
    ensures |r| == |ps| && forall i :: 0 <= i < |ps| ==> r[i] == Strip(ps[i])
  {
    seq(|ps|, i requires 0 <= i < |ps| => Strip(ps[i]))
  }

  function Decode(s: string): seq<string> {
    StripAll(Split(s))
  }

  method DecodeList(s: string) returns (items: seq<string>)
    ensures items == Decode(s)
  {
    var parts := SplitAtCommas(s);
    items := [];
    var i := 0;
    while i < |parts|
      invariant 0 <= i <= |parts| && |items| == i
      invariant forall j :: 0 <= j < i ==> items[j] == Strip(parts[j])
    {
      var item := StripSpaces(parts[i]);
      items := items + [item];
      i := i + 1;
    }
  }

  function Join(xs: seq<string>): string {
    if xs == [] then "" else if |xs| == 1 then xs[0] else xs[0] + "," + Join(xs[1..])
  }

  lemma {:induction false} PartsJoin(xs: seq<string>)
    requires xs != [] && forall x :: x in xs ==> ',' !in x
    ensures Parts(Join(xs)) == xs
  {
    PartsUncut(xs[0]);
    if |xs| > 1 {
      PartsCut(xs[0], Join(xs[1..]));
      PartsJoin(xs[1..]);
    } else {
      assert xs == [xs[0]];
    }
  }

  predicate Clean(x: string) {
    ',' !in x && Trimmed(x)
  }

  lemma DecodeClean(s: string)
    ensures forall x :: x in Decode(s) ==> Clean(x)
    ensures |Decode(s)| == if s == "" then 0 else Commas(s) + 1
  {
    PartsShape(s);
    forall x | x in Decode(s) ensures Clean(x) {
      var i :| 0 <= i < |Decode(s)| && Decode(s)[i] == x;
      assert Parts(s)[i] in Parts(s);
      StripUncut(Parts(s)[i]);
      var _, _ := StripSplits(Parts(s)[i]);
    }
  }

  lemma JoinEmpty(xs: seq<string>)
    requires Join(xs) == ""
    ensures xs == [] || xs == [""]
  {}

  /** Decoding undoes joining for exactly the lists of comma-free, trimmed strings other than the
      list of one empty string, which is joined to the same text as the empty list. */
  lemma DecodeUndoesJoin(xs: seq<string>)
    ensures Decode(Join(xs)) == xs <==> (forall x :: x in xs ==> Clean(x)) && xs != [""]
  {
    if (forall x :: x in xs ==> Clean(x)) && xs != [""] {
      if xs != [] {
        PartsJoin(xs);
        if Join(xs) == "" { JoinEmpty(xs); }
        forall i | 0 <= i < |xs| ensures Decode(Join(xs))[i] == xs[i] {
          assert Clean(xs[i]);
          StripIdle(xs[i]);
        }
      }
    }
    if Decode(Join(xs)) == xs { DecodeClean(Join(xs)); }
  }

  lemma StripAllConcat(ps: seq<string>, qs: seq<string>)
    ensures StripAll(ps + qs) == StripAll(ps) + StripAll(qs)
  {}

  /** Decoding distributes over a comma between two texts exactly when neither is empty. */
  lemma DecodeCut(a: string, b: string)
    ensures Decode(a + "," + b) == Decode(a) + Decode(b) <==> a != "" && b != ""
  {
    hide StripAll, Parts, Commas, Clean;
    PartsCut(a, b);
    CommasCut(a, b);
    DecodeClean(a);
    DecodeClean(b);
    DecodeClean(a + "," + b);
    StripAllConcat(Parts(a), Parts(b));
  }

  // ----- lists of test ids -----

  const UINT_SIZE: int := 0x1_0000_0000

  /** An `int` passed where a 32-bit unsigned integer is expected. */
  function ToUnsigned(n: int): (u: nat)
    ensures u < UINT_SIZE && (0 <= n < UINT_SIZE ==> u == n) && (-UINT_SIZE <= n < 0 ==> u == n + UINT_SIZE)
  {
    n % UINT_SIZE
  }

  /** `None` when some item is outside the range in which reading it is defined. */
  function ReadIds(items: seq<string>): Option<seq<nat>> {
    if items == [] then Some([])
    else
      var head, tail := Decimal.Atoi(items[0]), ReadIds(items[1..]);
      if head.Some? && tail.Some? then Some([ToUnsigned(head.value)] + tail.value) else None
  }

  function DecodeIds(s: string): Option<seq<nat>> {
    ReadIds(Decode(s))
  }

  lemma {:induction false} ReadIdsConcat(xs: seq<string>, ys: seq<string>)
    ensures ReadIds(xs + ys) ==
            if ReadIds(xs).Some? && ReadIds(ys).Some? then Some(ReadIds(xs).value + ReadIds(ys).value) else None
  {
    hide Decimal.Atoi, ToUnsigned;
    if xs == [] {
      assert xs + ys == ys;
      if ReadIds(ys).Some? { assert [] + ReadIds(ys).value == ReadIds(ys).value; }
    } else {
      assert (xs + ys)[1..] == xs[1..] + ys;
      ReadIdsConcat(xs[1..], ys);
      if ReadIds(xs + ys).Some? {
        var head := [ToUnsigned(Decimal.Atoi(xs[0]).value)];
        assert head + (ReadIds(xs[1..]).value + ReadIds(ys).value) == head + ReadIds(xs[1..]).value + ReadIds(ys).value;
      }
    }
  }

  /** Each item is read by itself: a list has ids exactly when each of its items has one. */
  lemma {:induction false} ReadEach(items: seq<string>)
    ensures ReadIds(items).Some? <==> forall x :: x in items ==> Decimal.Atoi(x).Some?
    ensures ReadIds(items).Some? ==>
              && |ReadIds(items).value| == |items|
              && forall k :: 0 <= k < |items| ==>
                   var n, id := Decimal.Atoi(items[k]), ReadIds(items).value[k];
                   n.Some? && id == if n.value < 0 then 4294967296 + n.value else n.value
  {
    hide Decimal.Atoi;
    if items != [] {
      AtoiInRange(items[0]);
      ReadEach(items[1..]);
      assert items == [items[0]] + items[1..];
    }
  }

  lemma AtoiInRange(x: string)
    ensures Decimal.Atoi(x).Some? ==> -2147483648 <= Decimal.Atoi(x).value <= 2147483647
  {}

  lemma ReadNone()
    ensures ReadIds([]) == Some([])
  {}

  lemma ReadOne(x: string)
    ensures ReadIds([x]) == if Decimal.Atoi(x).Some? then Some([ToUnsigned(Decimal.Atoi(x).value)]) else None
  {
    assert [x][1..] == [];
    if Decimal.Atoi(x).Some? {
      assert [ToUnsigned(Decimal.Atoi(x).value)] + [] == [ToUnsigned(Decimal.Atoi(x).value)];
    }
  }

  method DecodeIdList(s: string) returns (ids: Option<seq<nat>>)
    ensures ids == DecodeIds(s)
  {
    hide ReadIds, StripAll, Strip, Decimal.Atoi, ToUnsigned;
    var parts := SplitAtCommas(s);
    ReadNone();
    ids := Some([]);
    var i := 0;
    while i < |parts|
      invariant 0 <= i <= |parts| && ids == ReadIds(StripAll(parts)[..i])
    {
      var item := StripSpaces(parts[i]);
      var id := Decimal.Atoi(item);
      assert StripAll(parts)[..i + 1] == StripAll(parts)[..i] + [item];
      ReadOne(item);
      ReadIdsConcat(StripAll(parts)[..i], [item]);
      ids := if ids.Some? && id.Some? then Some(ids.value + [ToUnsigned(id.value)]) else None;
      i := i + 1;
    }
    assert StripAll(parts)[..i] == StripAll(parts);
  }

  function PrintAll(ns: seq<nat>): (xs: seq<string>)
    ensures |xs| == |ns| && forall i :: 0 <= i < |ns| ==> xs[i] == Decimal.Print(ns[i])
  {
    seq(|ns|, i requires 0 <= i < |ns| => Decimal.Print(ns[i]))
  }

  lemma {:induction false} ReadPrinted(ns: seq<nat>)
    ensures ReadIds(PrintAll(ns)) ==
            if forall n :: n in ns ==> n <= Decimal.INT_MAX then Some(ns) else None
  {
    hide Decimal.Atoi, Decimal.Print;
    if ns != [] {
      var xs := PrintAll(ns);
      assert xs[1..] == PrintAll(ns[1..]) && xs[0] == Decimal.Print(ns[0]);
      Decimal.AtoiPrint(ns[0]);
      ReadPrinted(ns[1..]);
      assert ns == [ns[0]] + ns[1..];
      if n :| n in ns && n > Decimal.INT_MAX {
        assert n == ns[0] || n in ns[1..];
        assert ReadIds(xs) == None;
      } else {
        assert ns[0] in ns && forall n :: n in ns[1..] ==> n in ns;
        assert ReadIds(xs) == Some([ns[0]] + ns[1..]);
      }
    }
  }

  /** A list of test ids survives printing and decoding exactly when all of them are below 2^31. */
  lemma DecodeUndoesPrint(ns: seq<nat>)
    ensures DecodeIds(Join(PrintAll(ns))) == Some(ns) <==> forall n :: n in ns ==> n <= Decimal.INT_MAX
  {
    var xs := PrintAll(ns);
    forall x | x in xs ensures Clean(x) && x != "" {
      var i :| 0 <= i < |xs| && xs[i] == x;
      assert x == Decimal.Print(ns[i]);
      assert forall k :: 0 <= k < |x| ==> Decimal.IsDigit(x[k]);
    }
    DecodeUndoesJoin(xs);
    assert xs != [""] by {
      if |xs| == 1 { assert xs[0] in xs; }
    }
    ReadPrinted(ns);
  }

  /** The larger half of the unsigned range is what negative numbers decode to. */
  lemma NegativeIds(n: nat)
    requires 0 < n
    ensures DecodeIds("-" + Decimal.Print(n)) ==
            if n <= Decimal.INT_MAX + 1 then Some([UINT_SIZE - n]) else None
  {
    var x := "-" + Decimal.Print(n);
    assert forall k :: 1 <= k < |x| ==> x[k] == Decimal.Print(n)[k - 1] && Decimal.IsDigit(x[k]);
    assert Clean(x) && x != "";
    PartsUncut(x);
    StripIdle(x);
    assert Decode(x) == [x];
    Decimal.AtoiNegative(n);
    ReadOne(x);
  }
}
