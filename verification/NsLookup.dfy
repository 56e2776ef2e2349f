/** Decoding the result document of an NSLookup test. */
module NsLookup {
  import opened Wrappers
  import opened Xml
  import Csv
  import Decimal

  datatype Row = Row(status: string, answerType: string, hostname: string, addresses: string, server: string,
                     time: string)

  const ROOT := "NSLookupResult"
  const RESULT := "Result"

  /** Texts are strings of bytes. */
  const LIMIT: nat := 256

  function Field(node: Node, name: string): Option<string> {
    match Lookup(node, [name])
    case None => None
    case Some(child) => child.content
  }

  /** All six fields are there, and the two free-form ones are short enough. */
  predicate Complete(node: Node) {
    && Field(node, "Status").Some?
    && Field(node, "AnswerType").Some?
    && Field(node, "HostNameReturned").Some? && |Field(node, "HostNameReturned").value| <= LIMIT
    && Field(node, "IPAddresses").Some? && |Field(node, "IPAddresses").value| <= LIMIT
    && Field(node, "DNSServerIP").Some?
    && Field(node, "ResponseTime").Some?
  }

  function RowOf(node: Node): Row
    requires Complete(node)
  {
    Row(Field(node, "Status").value, Field(node, "AnswerType").value, Field(node, "HostNameReturned").value,
        Field(node, "IPAddresses").value, Field(node, "DNSServerIP").value, Field(node, "ResponseTime").value)
  }

  predicate Counts(node: Node) {
    Has(node, RESULT) && Complete(node)
  }

  /** The rows of the nodes that count, in document order. */
  function Rows(nodes: seq<Node>): seq<Row> {
    if nodes == [] then []
    else (if Counts(nodes[0]) then [RowOf(nodes[0])] else []) + Rows(nodes[1..])
  }

  lemma {:induction false} RowsConcat(xs: seq<Node>, ys: seq<Node>)
    ensures Rows(xs + ys) == Rows(xs) + Rows(ys)
  {
    hide Complete, RowOf;
    if xs == [] {
      assert xs + ys == ys;
    } else {
      assert (xs + ys)[1..] == xs[1..] + ys && (xs + ys)[0] == xs[0];
      RowsConcat(xs[1..], ys);
      var own := if Counts(xs[0]) then [RowOf(xs[0])] else [];
      assert own + (Rows(xs[1..]) + Rows(ys)) == own + Rows(xs[1..]) + Rows(ys);
    }
  }

  lemma RowsNone()
    ensures Rows([]) == []
  {}

  lemma RowsOne(node: Node)
    ensures Counts(node) <==> Has(node, RESULT) && Complete(node)
    ensures Rows([node]) == if Counts(node) then [RowOf(node)] else []
  {}

  method ExtractResult(node: Node) returns (row: Option<Row>)
    ensures row == if Complete(node) then Some(RowOf(node)) else None
  {
    var status := GetChildString(node, ["Status"]);
    var answerType := GetChildString(node, ["AnswerType"]);
    var hostname := GetChildString(node, ["HostNameReturned"]);
    var addresses := GetChildString(node, ["IPAddresses"]);
    var server := GetChildString(node, ["DNSServerIP"]);
    var time := GetChildString(node, ["ResponseTime"]);
    if (hostname.None? || |hostname.value| > LIMIT) || (addresses.None? || |addresses.value| > LIMIT)
       || status.None? || answerType.None? || server.None? || time.None?
    {
      return None;
    }
    return Some(Row(status.value, answerType.value, hostname.value, addresses.value, server.value, time.value));
  }

  /** The rows of a document, given its root element, when it could be parsed and has one. */
  method DecodeResult(root: Option<Node>) returns (rows: seq<Row>)
    ensures rows == if root.Some? && Has(root.value, ROOT) then Reverse(Rows(root.value.children)) else []
  {
    hide Counts, Complete, RowOf, Rows, Reverse;
    rows := [];
    if root.None? || root.value.name.None? || root.value.name.value != ROOT { return; }
    var nodes := root.value.children;
    var i := 0;
    assert Rows([]) == [] by { RowsNone(); }
    while i < |nodes|
      invariant 0 <= i <= |nodes| && rows == Reverse(Rows(nodes[..i]))
    {
      assert nodes[..i + 1] == nodes[..i] + [nodes[i]];
      RowsConcat(nodes[..i], [nodes[i]]);
      RowsOne(nodes[i]);
      assert Rows(nodes[..i]) + [] == Rows(nodes[..i]);
      if Has(nodes[i], RESULT) {
        var row := ExtractResult(nodes[i]);
        if row.Some? {
          ReversePush(Rows(nodes[..i]), row.value);
          rows := [row.value] + rows;
        }
      }
      i := i + 1;
    }
    assert nodes[..i] == nodes;
  }

  /** The positions of the nodes that count, last one first. */
  ghost predicate Lists(positions: seq<nat>, nodes: seq<Node>) {
    && (forall k, m :: 0 <= k < m < |positions| ==> positions[k] > positions[m])
    && (forall k :: 0 <= k < |positions| ==> positions[k] < |nodes| && Counts(nodes[positions[k]]))
    && (forall i :: 0 <= i < |nodes| && Counts(nodes[i]) ==> i in positions)
  }

  /** A decoded list is the reverse document order of exactly the nodes that count: every one is
      there, once, and nothing else. */
  lemma {:induction false} ReverseDocumentOrder(nodes: seq<Node>) returns (positions: seq<nat>)
    ensures Lists(positions, nodes) && |positions| == |Rows(nodes)|
    ensures forall k :: 0 <= k < |positions| ==> Reverse(Rows(nodes))[k] == RowOf(nodes[positions[k]])
  {
    hide Counts, Complete, RowOf, Reverse, Rows;
    positions := [];
    RowsNone();
    if nodes != [] {
      var n := |nodes| - 1;
      var init := nodes[..n];
      assert nodes == init + [nodes[n]];
      RowsConcat(init, [nodes[n]]);
      RowsOne(nodes[n]);
      assert Rows(init) + [] == Rows(init);
      var before := ReverseDocumentOrder(init);
      ListsNext(before, nodes);
      positions := (if Counts(nodes[n]) then [n] else []) + before;
      if Counts(nodes[n]) { ReversePush(Rows(init), RowOf(nodes[n])); }
    }
  }

  lemma ListsNext(before: seq<nat>, nodes: seq<Node>)
    requires nodes != [] && Lists(before, nodes[..|nodes| - 1])
    ensures Lists((if Counts(nodes[|nodes| - 1]) then [|nodes| - 1] else []) + before, nodes)
  {
    hide Counts;
    var n := |nodes| - 1;
    var positions := (if Counts(nodes[n]) then [n] else []) + before;
    forall i | 0 <= i < |nodes| && Counts(nodes[i]) ensures i in positions {
      if i < n { assert nodes[..n][i] == nodes[i] && i in before; }
    }
  }

  // ----- what the client gets -----

  /** `time` is `None` where reading the text as an `int` is undefined. */
  datatype Answer = Answer(status: string, answerType: string, hostname: string, addresses: seq<string>,
                           server: string, time: Option<nat>)

  function AnswerOf(row: Row): Answer {
    var time := Decimal.Atoi(row.time);
    Answer(row.status, row.answerType, row.hostname, Csv.Decode(row.addresses), row.server,
           if time.Some? then Some(Csv.ToUnsigned(time.value)) else None)
  }

  /** What the client gets for a document with this root. */
  function Answers(root: Option<Node>): (answers: seq<Answer>)
    ensures var rows := if root.Some? && Has(root.value, ROOT) then Reverse(Rows(root.value.children)) else [];
            |answers| == |rows| && forall k :: 0 <= k < |rows| ==> answers[k] == AnswerOf(rows[k])
  {
    var rows := if root.Some? && Has(root.value, ROOT) then Reverse(Rows(root.value.children)) else [];
    seq(|rows|, k requires 0 <= k < |rows| => AnswerOf(rows[k]))
  }

  /** Each answer carries, field by field, the texts of one `Result` element: those that count, last one
      first. */
  lemma AnswersCarryFields(root: Node) returns (positions: seq<nat>)
    requires root.name == Some("NSLookupResult")
    ensures Lists(positions, root.children) && |positions| == |Answers(Some(root))|
    ensures forall k :: 0 <= k < |positions| ==>
              var a, node := Answers(Some(root))[k], root.children[positions[k]];
              && node.name == Some("Result")
              && Field(node, "Status") == Some(a.status)
              && Field(node, "AnswerType") == Some(a.answerType)
              && Field(node, "HostNameReturned") == Some(a.hostname) && |a.hostname| <= 256
              && Field(node, "DNSServerIP") == Some(a.server)
              && Field(node, "IPAddresses").Some? && |Field(node, "IPAddresses").value| <= 256
              && a.addresses == Csv.Decode(Field(node, "IPAddresses").value)
              && Field(node, "ResponseTime").Some?
              && var time := Decimal.Atoi(Field(node, "ResponseTime").value);
                 a.time == if time.Some? then Some(Csv.ToUnsigned(time.value)) else None
  {
    hide Field, Reverse, Csv.Decode, Csv.ToUnsigned, Decimal.Atoi, Rows;
    positions := ReverseDocumentOrder(root.children);
  }

  method BuildResults(root: Option<Node>) returns (answers: seq<Answer>)
    ensures answers == Answers(root)
  {
    hide Rows, Reverse, Csv.Decode, Csv.ToUnsigned, Decimal.Atoi;
    var rows := DecodeResult(root);
    answers := [];
    var i := 0;
    while i < |rows|
      invariant 0 <= i <= |rows| && |answers| == i
      invariant forall k :: 0 <= k < i ==> answers[k] == AnswerOf(rows[k])
    {
      var addresses := Csv.DecodeList(rows[i].addresses);
      var time := Decimal.Atoi(rows[i].time);
      answers := answers + [Answer(rows[i].status, rows[i].answerType, rows[i].hostname, addresses, rows[i].server,
                                   if time.Some? then Some(Csv.ToUnsigned(time.value)) else None)];
      i := i + 1;
    }
  }

  // ----- documents for given rows -----

  function Element(name: string, text: string): Node {
    Node(Some(name), [], Some(text))
  }

  function ResultElement(row: Row): Node {
    Node(Some("Result"),
         [Element("Status", row.status), Element("AnswerType", row.answerType),
          Element("HostNameReturned", row.hostname), Element("IPAddresses", row.addresses),
          Element("DNSServerIP", row.server), Element("ResponseTime", row.time)],
         None)
  }

  function ResultElements(rows: seq<Row>): seq<Node> {
    if rows == [] then [] else [ResultElement(rows[0])] + ResultElements(rows[1..])
  }

  predicate Short(row: Row) {
    |row.hostname| <= 256 && |row.addresses| <= 256
  }

  lemma FieldAt(node: Node, name: string, i: nat)
    requires i < |node.children| && Has(node.children[i], name)
    requires forall j :: 0 <= j < i ==> !Has(node.children[j], name)
    ensures Field(node, name) == node.children[i].content
  {
    assert FirstNamed(node.children, name) == i;
    assert [name][1..] == [] && [name][0] == name;
    assert Lookup(node.children[i], []) == Some(node.children[i]);
    assert Lookup(node, [name]) == Some(node.children[i]);
  }

  lemma ResultElementCounts(row: Row)
    ensures Counts(ResultElement(row)) <==> Short(row)
    ensures Short(row) ==> RowOf(ResultElement(row)) == row
  {
    hide Field;
    var node := ResultElement(row);
    FieldAt(node, "Status", 0);
    FieldAt(node, "AnswerType", 1);
    FieldAt(node, "HostNameReturned", 2);
    FieldAt(node, "IPAddresses", 3);
    FieldAt(node, "DNSServerIP", 4);
    FieldAt(node, "ResponseTime", 5);
  }

  lemma {:induction false} RowsOfElements(rows: seq<Row>)
    ensures Rows(ResultElements(rows)) == rows <==> forall row :: row in rows ==> Short(row)
    ensures |Rows(ResultElements(rows))| <= |rows|
    ensures |Rows(ResultElements(rows))| == |rows| ==> Rows(ResultElements(rows)) == rows
  {
    hide Counts, RowOf, ResultElement, Short;
    if rows != [] {
      var nodes := ResultElements(rows);
      assert nodes[1..] == ResultElements(rows[1..]) && rows == [rows[0]] + rows[1..];
      ResultElementCounts(rows[0]);
      RowsOfElements(rows[1..]);
      assert forall row :: row in rows <==> row == rows[0] || row in rows[1..];
    }
  }

  /** Writing rows as a document and decoding it gives them back, last one first, exactly when no
      hostname and no address list is longer than the limit. */
  lemma DecodeUndoesEncode(rows: seq<Row>)
    ensures Reverse(Rows(ResultElements(rows))) == Reverse(rows) <==> forall row :: row in rows ==> Short(row)
  {
    hide Rows, ResultElements, Short;
    RowsOfElements(rows);
    var got := Rows(ResultElements(rows));
    if Reverse(got) == Reverse(rows) {
      forall i | 0 <= i < |rows| ensures got[i] == rows[i] {
        assert Reverse(got)[|rows| - 1 - i] == Reverse(rows)[|rows| - 1 - i];
      }
    }
  }

  // ----- documents for given answers -----

  function RowFor(a: Answer): Row
    requires a.time.Some?
  {
    Row(a.status, a.answerType, a.hostname, Csv.Join(a.addresses), a.server, Decimal.Print(a.time.value))
  }

  function RowsFor(answers: seq<Answer>): (rows: seq<Row>)
    requires forall a :: a in answers ==> a.time.Some?
    ensures |rows| == |answers| && forall k :: 0 <= k < |rows| ==> rows[k] == RowFor(answers[k])
  {
    seq(|answers|, k requires 0 <= k < |answers| => RowFor(answers[k]))
  }

  function Document(answers: seq<Answer>): Node
    requires forall a :: a in answers ==> a.time.Some?
  {
    Node(Some("NSLookupResult"), ResultElements(RowsFor(answers)), None)
  }

  /** The hostname and the written addresses are short enough, the addresses can be told apart again, and
      the time fits an `int`. */
  predicate Fits(a: Answer)
    requires a.time.Some?
  {
    && |a.hostname| <= 256 && |Csv.Join(a.addresses)| <= 256
    && (forall x :: x in a.addresses ==> Csv.Clean(x)) && a.addresses != [""]
    && a.time.value <= 2147483647
  }

  lemma RowForFits(a: Answer)
    requires a.time.Some?
    ensures Fits(a) <==> Short(RowFor(a)) && AnswerOf(RowFor(a)) == a
  {
    hide Csv.Decode, Csv.Join, Csv.Clean, Decimal.Atoi, Decimal.Print;
    Csv.DecodeUndoesJoin(a.addresses);
    Decimal.AtoiPrint(a.time.value);
  }

  lemma RowsShort(answers: seq<Answer>)
    requires forall a :: a in answers ==> a.time.Some?
    ensures (forall row :: row in RowsFor(answers) ==> Short(row)) <==> forall a :: a in answers ==> Short(RowFor(a))
  {
    hide Short, RowFor;
    var rows := RowsFor(answers);
    forall k | 0 <= k < |answers| ensures rows[k] in rows && answers[k] in answers {}
  }

  lemma DocumentGives(answers: seq<Answer>)
    requires forall a :: a in answers ==> a.time.Some? && Short(RowFor(a))
    ensures |Answers(Some(Document(answers)))| == |answers|
    ensures forall k :: 0 <= k < |answers| ==>
              Answers(Some(Document(answers)))[k] == AnswerOf(RowFor(Reverse(answers)[k]))
  {
    hide Short, RowFor, AnswerOf, Rows, ResultElements, Reverse;
    RowsShort(answers);
    RowsOfElements(RowsFor(answers));
    forall k | 0 <= k < |answers| ensures Reverse(RowsFor(answers))[k] == RowFor(Reverse(answers)[k]) {}
  }

  lemma DocumentCount(answers: seq<Answer>)
    requires forall a :: a in answers ==> a.time.Some?
    ensures |Answers(Some(Document(answers)))| == |answers| ==> forall a :: a in answers ==> Short(RowFor(a))
  {
    hide Short, RowFor, Rows, ResultElements, Reverse;
    RowsOfElements(RowsFor(answers));
    RowsShort(answers);
  }

  /** Answers written as a document reach the client as they were, last one first, exactly when all of
      them fit. */
  lemma ResultsUndoDocument(answers: seq<Answer>)
    requires forall a :: a in answers ==> a.time.Some?
    ensures Answers(Some(Document(answers))) == Reverse(answers) <==> forall a :: a in answers ==> Fits(a)
  {
    hide Fits, Short, RowFor, AnswerOf, Answers, Document, Reverse;
    var got := Answers(Some(Document(answers)));
    DocumentCount(answers);
    forall a | a in answers ensures Fits(a) <==> Short(RowFor(a)) && AnswerOf(RowFor(a)) == a { RowForFits(a); }
    if forall a :: a in answers ==> Short(RowFor(a)) {
      DocumentGives(answers);
      if got == Reverse(answers) {
        forall a | a in answers ensures Fits(a) {
          var k :| 0 <= k < |answers| && answers[k] == a;
          assert got[|answers| - 1 - k] == answers[k];
        }
      } else {
        var k :| 0 <= k < |answers| && got[k] != Reverse(answers)[k];
        assert Reverse(answers)[k] in answers;
      }
    }
  }
}
