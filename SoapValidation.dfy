/**
 * `AbstractService::validateSOAPResponse`. XML parsing and XPath evaluation are not
 * modelled: a document is given by the results of the queries the classifier runs.
 */
module SoapValidation {
  import opened Wrappers
  import opened PhpValues
  import opened Errors

  /** The text of one `common:ExceptionData` element's own children (None when absent). */
  datatype ExceptionNode = ExceptionNode(description: Option<string>, errorMsg: Option<string>, errorNumber: Option<string>)

  /** A SOAP response as seen through its queries:
      `faultTexts`   — the texts matched by `//env:Fault/env:Reason/env:Text`;
      `exceptionData` — the nodes matched by `//common:CifException/common:Errors/common:ExceptionData`;
      `descriptions`, `errorMsgs`, `errorNumbers` — the texts matched by `//common:Description`,
      `//common:ErrorMsg` and `//common:ErrorNumber`: every such element in the whole document,
      in document order, whichever node the query is asked from. */
  datatype SoapDocument = SoapDocument(
    faultTexts: seq<string>,
    exceptionData: seq<ExceptionNode>,
    descriptions: seq<string>,
    errorMsgs: seq<string>,
    errorNumbers: seq<string>)

  /** `(string) $matches[0]`: a missing first match reads as null, which casts to "". */
  function FirstText(matches: seq<string>): (t: string)
    ensures matches != [] ==> t == matches[0]
    ensures matches == [] ==> t == ""
  {
    if matches == [] then "" else matches[0]
  }

  /** `(int) $matches[0]`, 0 for a missing match. */
  function FirstCode(matches: seq<string>): (c: int)
    ensures matches == [] ==> c == 0
  {
    if matches == [] then 0 else StringToInt(matches[0])
  }

  /** The record the source builds for every ExceptionData node: its document-wide
      sub-queries make it the same record for each node. */
  function DocumentRecord(doc: SoapDocument): ErrorRecord {
    ErrorRecord(Str(FirstText(doc.descriptions)), Str(FirstText(doc.errorMsgs)), FirstCode(doc.errorNumbers))
  }

  /** `validateSOAPResponse`, as written. */
  function ValidateSoap(doc: SoapDocument): (r: Outcome<ServiceError>)
    ensures r.Pass? <==> doc.faultTexts == [] && doc.exceptionData == []
    ensures doc.faultTexts != [] ==> r == Fail(CifDown(Str(doc.faultTexts[0])))
    ensures doc.faultTexts == [] && doc.exceptionData != [] ==>
      r.Fail? && r.error.Cif? && |r.error.errors| == |doc.exceptionData| &&
      forall i :: 0 <= i < |doc.exceptionData| ==> r.error.errors[i] == DocumentRecord(doc)
  {
    if |doc.faultTexts| >= 1 then
      Fail(CifDown(Str(doc.faultTexts[0])))
    else if |doc.exceptionData| > 0 then
      Fail(Cif(seq(|doc.exceptionData|, _ => DocumentRecord(doc))))
    else
      Pass
  }

  // ---------------------------------------------------------------- node-relative reading

  /** The record of one node read from its own children. */
  function NodeRecord(node: ExceptionNode): (e: ErrorRecord)
    ensures node.description.Some? ==> e.description == Str(node.description.value)
    ensures node.errorMsg.Some? ==> e.message == Str(node.errorMsg.value)
    ensures node.errorNumber.None? ==> e.code == 0
  {
    ErrorRecord(
      Str(FirstText(if node.description.Some? then [node.description.value] else [])),
      Str(FirstText(if node.errorMsg.Some? then [node.errorMsg.value] else [])),
      FirstCode(if node.errorNumber.Some? then [node.errorNumber.value] else []))
  }

  /** The classifier with node-relative sub-queries (`common:Description` asked of each
      ExceptionData node): one record per node, each from that node. */
  function ValidateSoapPerNode(doc: SoapDocument): (r: Outcome<ServiceError>)
    ensures r.Pass? <==> doc.faultTexts == [] && doc.exceptionData == []
    ensures doc.faultTexts != [] ==> r == Fail(CifDown(Str(doc.faultTexts[0])))
    ensures doc.faultTexts == [] && doc.exceptionData != [] ==>
      r.Fail? && r.error.Cif? && |r.error.errors| == |doc.exceptionData| &&
      forall i :: 0 <= i < |doc.exceptionData| ==> r.error.errors[i] == NodeRecord(doc.exceptionData[i])
  {
    if |doc.faultTexts| >= 1 then
      Fail(CifDown(Str(doc.faultTexts[0])))
    else if |doc.exceptionData| > 0 then
      Fail(Cif(seq(|doc.exceptionData|, i requires 0 <= i < |doc.exceptionData| => NodeRecord(doc.exceptionData[i]))))
    else
      Pass
  }

  /** The three child elements an ExceptionData node may hold. */
  datatype Child = DescriptionChild | ErrorMsgChild | ErrorNumberChild

  function ChildText(node: ExceptionNode, child: Child): Option<string> {
    match child
    case DescriptionChild => node.description
    case ErrorMsgChild => node.errorMsg
    case ErrorNumberChild => node.errorNumber
  }

  /** The present texts of one child kind, node after node: what a document-wide query
      returns when no such element occurs outside the nodes. */
  function Collect(nodes: seq<ExceptionNode>, child: Child): (r: seq<string>)
    ensures nodes != [] && ChildText(nodes[0], child).Some? ==> r != [] && r[0] == ChildText(nodes[0], child).value
    ensures nodes != [] && ChildText(nodes[0], child).None? ==> r == Collect(nodes[1..], child)
    decreases |nodes|
  {
    if nodes == [] then []
    else (if ChildText(nodes[0], child).Some? then [ChildText(nodes[0], child).value] else []) + Collect(nodes[1..], child)
  }

  /** The document has Description, ErrorMsg and ErrorNumber elements only inside its
      ExceptionData nodes. */
  predicate OnlyInsideNodes(doc: SoapDocument) {
    && doc.descriptions == Collect(doc.exceptionData, DescriptionChild)
    && doc.errorMsgs == Collect(doc.exceptionData, ErrorMsgChild)
    && doc.errorNumbers == Collect(doc.exceptionData, ErrorNumberChild)
  }

  /** With a single ExceptionData node the two readings agree. */
  lemma SingleNodeReadingsAgree(doc: SoapDocument)
    requires OnlyInsideNodes(doc) && |doc.exceptionData| == 1
    ensures ValidateSoap(doc) == ValidateSoapPerNode(doc)
  {
    var n := doc.exceptionData[0];
    assert doc.exceptionData[1..] == [];
    forall child: Child
      ensures Collect(doc.exceptionData, child) == if ChildText(n, child).Some? then [ChildText(n, child).value] else []
    {
      assert Collect(doc.exceptionData[1..], child) == [];
    }
    if doc.faultTexts == [] {
      assert DocumentRecord(doc) == NodeRecord(n);
      var asWritten := ValidateSoap(doc).error.errors;
      var perNode := ValidateSoapPerNode(doc).error.errors;
      assert |asWritten| == |perNode| == 1 && asWritten[0] == perNode[0];
      assert asWritten == perNode;
      assert ValidateSoap(doc) == Fail(Cif(asWritten));
      assert ValidateSoapPerNode(doc) == Fail(Cif(perNode));
    }
  }

  /** Two ExceptionData nodes with different texts: as written, both records repeat the
      first node's texts, while the node-relative reading keeps the second node's. */
  lemma DocumentWideQueriesRepeatFirstNode()
    ensures var doc := SoapDocument([],
        [ExceptionNode(Some("A"), Some("a"), Some("1")), ExceptionNode(Some("B"), Some("b"), Some("2"))],
        ["A", "B"], ["a", "b"], ["1", "2"]);
      && OnlyInsideNodes(doc)
      && ValidateSoap(doc) == Fail(Cif([ErrorRecord(Str("A"), Str("a"), 1), ErrorRecord(Str("A"), Str("a"), 1)]))
      && ValidateSoapPerNode(doc) == Fail(Cif([ErrorRecord(Str("A"), Str("a"), 1), ErrorRecord(Str("B"), Str("b"), 2)]))
  {
    var n1 := ExceptionNode(Some("A"), Some("a"), Some("1"));
    var n2 := ExceptionNode(Some("B"), Some("b"), Some("2"));
    var doc := SoapDocument([], [n1, n2], ["A", "B"], ["a", "b"], ["1", "2"]);
    assert [n1, n2][1..] == [n2];
    assert [n2][1..] == [];
    forall child: Child
      ensures Collect([n1, n2], child) == [ChildText(n1, child).value, ChildText(n2, child).value]
    {
      assert Collect([n2][1..], child) == [];
      assert Collect([n2], child) == [ChildText(n2, child).value];
    }
    assert StringToInt("1") == 1 by { assert LeadingDigits("1") == "1"; }
    assert StringToInt("2") == 2 by { assert LeadingDigits("2") == "2"; }
    assert DocumentRecord(doc) == ErrorRecord(Str("A"), Str("a"), 1);
    assert NodeRecord(n1) == ErrorRecord(Str("A"), Str("a"), 1);
    assert NodeRecord(n2) == ErrorRecord(Str("B"), Str("b"), 2);
    var asWritten := ValidateSoap(doc).error.errors;
    var perNode := ValidateSoapPerNode(doc).error.errors;
    assert asWritten == [ErrorRecord(Str("A"), Str("a"), 1), ErrorRecord(Str("A"), Str("a"), 1)];
    assert perNode == [ErrorRecord(Str("A"), Str("a"), 1), ErrorRecord(Str("B"), Str("b"), 2)];
  }
}
