/**
 * The DCHK response demultiplexer (trunk/src/lib/xmlparser.c) over the
 * abstract document tree: the well-formedness check, the mapping of the
 * i-th resultSet onto the i-th record of a batch, the domain answer, and the
 * size-information and other-information payloads.
 */
module XmlParser {
  import opened Wrappers
  import opened LibC
  import opened XmlTree
  import opened IrisTypes
  import opened Errors

  /** The element and attribute names the parser looks for, and the statuses it sets. */
  const ResponseTag := "response"
  const ResultSetTag := "resultSet"
  const AnswerTag := "answer"
  const DomainTag := "domain"
  const StatusTag := "status"
  const DomainNameTag := "domainName"
  const IdnTag := "idn"
  const LastUpdateTag := "lastDatabaseUpdateDateTime"
  const NameNotFoundTag := "nameNotFound"
  const InvalidNameTag := "invalidName"
  const OtherTag := "other"
  const TypeAttribute := "type"
  const DescriptionTag := "description"
  const FreeStatus := "free"
  const InvalidStatus := "invalid"

  /** The element children of nodes named name, in document order. */
  function ElementsNamed(nodes: seq<Node>, name: string): (r: seq<Node>)
    ensures |r| <= |nodes|
    ensures forall k :: 0 <= k < |r| ==> r[k].Element? && r[k].name == name
  {
    if |nodes| == 0 then []
    else (if nodes[0].Element? && nodes[0].name == name then [nodes[0]] else []) + ElementsNamed(nodes[1..], name)
  }

  function Children(n: Node): seq<Node>
  {
    if n.Element? then n.children else []
  }

  /** Every element in document order (the nodes //x ranges over). */
  function Descendants(nodes: seq<Node>): seq<Node>
  {
    if |nodes| == 0 then []
    else (if nodes[0].Element? then [nodes[0]] + Descendants(nodes[0].children) else []) + Descendants(nodes[1..])
  }

  /** For each node, its i-th (1-based) resultSet element child, when it has one. */
  function ResultSetsOf(responses: seq<Node>, i: int): seq<Node>
  {
    if |responses| == 0 then []
    else
      var sets := ElementsNamed(Children(responses[0]), ResultSetTag);
      (if 1 <= i <= |sets| then [sets[i - 1]] else []) + ResultSetsOf(responses[1..], i)
  }

  /** The node set of //response/resultSet[i]. */
  function ResultSets(doc: Document, i: int): seq<Node>
  {
    ResultSetsOf(ElementsNamed(Descendants(doc), ResponseTag), i)
  }

  /** Whether some node of the set has an element child called name. */
  predicate SomeHasChild(sets: seq<Node>, name: string)
  {
    exists k :: 0 <= k < |sets| && |ElementsNamed(Children(sets[k]), name)| > 0
  }

  function Flatten(s: seq<seq<Node>>): seq<Node>
  {
    if |s| == 0 then [] else s[0] + Flatten(s[1..])
  }

  /** The domain children of the answer children of the given nodes, in order. */
  function AnswerDomainsOf(sets: seq<Node>): seq<Node>
  {
    if |sets| == 0 then []
    else
      var answers := ElementsNamed(Children(sets[0]), AnswerTag);
      Flatten(seq(|answers|, k requires 0 <= k < |answers| => ElementsNamed(Children(answers[k]), DomainTag)))
        + AnswerDomainsOf(sets[1..])
  }

  /** The children of the last element of nodes called name; [] (NULL) when there is none. */
  function LastChildrenNamed(nodes: seq<Node>, name: string): (r: seq<Node>)
    ensures r != [] ==> exists k :: 0 <= k < |nodes| && nodes[k].Element? && nodes[k].name == name && nodes[k].children == r
  {
    if |nodes| == 0 then []
    else
      var n := nodes[|nodes| - 1];
      if n.Element? && n.name == name then n.children else LastChildrenNamed(nodes[..|nodes| - 1], name)
  }

  /** The name of the last element node of nodes. */
  function LastElementName(nodes: seq<Node>): (r: Option<string>)
    ensures r.Some? ==> exists k :: 0 <= k < |nodes| && nodes[k].Element? && nodes[k].name == r.value &&
                                   (forall j :: k < j < |nodes| ==> !nodes[j].Element?)
    ensures r.None? ==> forall k :: 0 <= k < |nodes| ==> !nodes[k].Element?
  {
    if |nodes| == 0 then None
    else if nodes[|nodes| - 1].Element? then Some(nodes[|nodes| - 1].name)
    else LastElementName(nodes[..|nodes| - 1])
  }

  /** The content of the last text node of nodes. */
  function LastText(nodes: seq<Node>): (r: Option<string>)
    ensures r.Some? ==> exists k :: 0 <= k < |nodes| && nodes[k] == Text(r.value) &&
                                   (forall j :: k < j < |nodes| ==> !nodes[j].Text?)
    ensures r.None? ==> forall k :: 0 <= k < |nodes| ==> !nodes[k].Text?
  {
    if |nodes| == 0 then None
    else if nodes[|nodes| - 1].Text? then Some(nodes[|nodes| - 1].content)
    else LastText(nodes[..|nodes| - 1])
  }

  /** What dchk_XML_ParseDomain does with a domain node: success, and the record afterwards. */
  function DomainAnswer(node: Node, r: Record): (Record, bool)
  {
    var status := LastChildrenNamed(Children(node), StatusTag);
    var domainName := LastChildrenNamed(Children(node), DomainNameTag);
    if status == [] || domainName == [] then (r, false)
    else
      var dbStatus := LastElementName(status);
      var dbUpdate := LastText(LastChildrenNamed(Children(node), LastUpdateTag));
      (r.(status := if dbStatus.Some? then dbStatus else r.status,
          lastDatabaseUpdate := if dbUpdate.Some? then dbUpdate else r.lastDatabaseUpdate), true)
  }

  /** What dchk_XML_ParseResult makes of the record answered by the i-th resultSet. */
  function ResultFor(doc: Document, i: int, r: Record): (a: Record)
    ensures a.domain == r.domain
  {
    var sets := ResultSets(doc, i);
    if SomeHasChild(sets, NameNotFoundTag) then r.(status := Some(FreeStatus))
    else if SomeHasChild(sets, InvalidNameTag) then r.(status := Some(InvalidStatus))
    else if |AnswerDomainsOf(sets)| > 0 then DomainAnswer(AnswerDomainsOf(sets)[0], r).0
    else r
  }

  /** The records of a request after its answer doc: the i-th gets the answer of resultSet i + 1. */
  function Answered(doc: Document, batch: seq<Record>): (r: seq<Record>)
    ensures |r| == |batch|
    ensures forall i :: 0 <= i < |batch| ==> r[i] == ResultFor(doc, i + 1, batch[i])
  {
    if batch == [] then []
    else Answered(doc, batch[..|batch| - 1]) + [ResultFor(doc, |batch|, batch[|batch| - 1])]
  }

  /** Whether the i-th resultSet carries a domain answer that dchk_XML_ParseDomain rejects. */
  predicate AnswerRejected(doc: Document, i: int)
  {
    var sets := ResultSets(doc, i);
    !SomeHasChild(sets, NameNotFoundTag) && !SomeHasChild(sets, InvalidNameTag) &&
    |AnswerDomainsOf(sets)| > 0 && !DomainAnswer(AnswerDomainsOf(sets)[0], Record("", None, None)).1
  }

  /** Whether p holds for one of 1..n. */
  ghost predicate AnyUpTo(p: int -> bool, n: int)
    decreases n
  {
    n >= 1 && (AnyUpTo(p, n - 1) || p(n))
  }

  lemma {:induction false} AnyUpToMeaning(p: int -> bool, n: int)
    decreases n
    ensures AnyUpTo(p, n) <==> exists k :: 1 <= k <= n && p(k)
  {
    if n >= 1 {
      AnyUpToMeaning(p, n - 1);
    }
  }

  /** Whether one of resultSets 1..n carries a rejected domain answer. */
  ghost predicate SomeAnswerRejected(doc: Document, n: int)
  {
    AnyUpTo(k => AnswerRejected(doc, k), n)
  }

  lemma {:induction false} SomeAnswerRejectedMeaning(doc: Document, n: int)
    ensures SomeAnswerRejected(doc, n) <==> exists k :: 1 <= k <= n && AnswerRejected(doc, k)
  {
    var rejected := k => AnswerRejected(doc, k);
    AnyUpToMeaning(rejected, n);
    assert forall k :: rejected(k) == AnswerRejected(doc, k);
  }

  /** irislwz_Validate: fails with 74044 when text is not a well-formed document. */
  method Validate(h: Handle, parse: seq<byte> -> Option<Document>, text: seq<byte>) returns (ok: bool)
    modifies h`error, h`errorText
    ensures ok <==> parse(UpToNul(text)).Some?
    ensures !ok && old(h.initialized) ==> h.error == 74044 && h.errorText.None?
    ensures ok ==> h.error == old(h.error) && h.errorText == old(h.errorText)
  {
    var doc := parse(UpToNul(text));
    if doc.None? {
      SetError(h, 74044, None);
      return false;
    }
    return true;
  }

  /** The first loop of dchk_XML_ParseDomain: the children of the last element of each name. */
  method ScanDomainChildren(children: seq<Node>) returns (status: seq<Node>, domainName: seq<Node>, idn: seq<Node>, lastUpdate: seq<Node>)
    ensures status == LastChildrenNamed(children, StatusTag)
    ensures domainName == LastChildrenNamed(children, DomainNameTag)
    ensures idn == LastChildrenNamed(children, IdnTag)
    ensures lastUpdate == LastChildrenNamed(children, LastUpdateTag)
  {
    status, domainName, idn, lastUpdate := [], [], [], [];
    var i := 0;
    while i < |children|
      invariant 0 <= i <= |children|
      invariant status == LastChildrenNamed(children[..i], StatusTag)
      invariant domainName == LastChildrenNamed(children[..i], DomainNameTag)
      invariant idn == LastChildrenNamed(children[..i], IdnTag)
      invariant lastUpdate == LastChildrenNamed(children[..i], LastUpdateTag)
    {
      var n := children[i];
      assert children[..i + 1][..i] == children[..i];
      if n.Element? {
        if n.name == StatusTag {
          status := n.children;
        } else if n.name == DomainNameTag {
          domainName := n.children;
        } else if n.name == IdnTag {
          idn := n.children;
        } else if n.name == LastUpdateTag {
          lastUpdate := n.children;
        }
      }
      i := i + 1;
    }
    assert children[..i] == children;
  }

  /** The status loop of dchk_XML_ParseDomain: the name of the last element node. */
  method LastElementNameOf(nodes: seq<Node>) returns (name: Option<string>)
    ensures name == LastElementName(nodes)
  {
    name := None;
    var i := 0;
    while i < |nodes|
      invariant 0 <= i <= |nodes|
      invariant name == LastElementName(nodes[..i])
    {
      assert nodes[..i + 1][..i] == nodes[..i];
      if nodes[i].Element? {
        name := Some(nodes[i].name);
      }
      i := i + 1;
    }
    assert nodes[..i] == nodes;
  }

  /** The lastDatabaseUpdateDateTime loop of dchk_XML_ParseDomain: the content of the last text node. */
  method LastTextOf(nodes: seq<Node>) returns (text: Option<string>)
    ensures text == LastText(nodes)
  {
    text := None;
    var i := 0;
    while i < |nodes|
      invariant 0 <= i <= |nodes|
      invariant text == LastText(nodes[..i])
    {
      assert nodes[..i + 1][..i] == nodes[..i];
      if nodes[i].Text? {
        text := Some(nodes[i].content);
      }
      i := i + 1;
    }
    assert nodes[..i] == nodes;
  }

  /**
   * The domain name dchk_XML_ParseDomain reads from an accepted answer: the
   * last text of the idn children when there are any, otherwise of the
   * domainName children.
   */
  function AnsweredName(node: Node): Option<string>
  {
    var idn := LastChildrenNamed(Children(node), IdnTag);
    LastText(if idn != [] then idn else LastChildrenNamed(Children(node), DomainNameTag))
  }

  /** An idn child takes the place of domainName; without one, domainName is read. */
  lemma {:induction false} IdnReplacesDomainName(name: string, idn: string, extra: seq<Node>)
    ensures AnsweredName(Element(DomainTag, [], extra + [Element(DomainNameTag, [], [Text(name)]), Element(IdnTag, [], [Text(idn)])])) == Some(idn)
    ensures AnsweredName(Element(DomainTag, [], extra + [Element(IdnTag, [], [Text(idn)]), Element(DomainNameTag, [], [Text(name)])])) == Some(idn)
    ensures (forall k :: 0 <= k < |extra| ==> !(extra[k].Element? && extra[k].name == IdnTag)) ==>
      AnsweredName(Element(DomainTag, [], extra + [Element(DomainNameTag, [], [Text(name)])])) == Some(name)
  {
    IdnAfterDomainName(name, idn, extra);
    IdnBeforeDomainName(name, idn, extra);
    if forall k :: 0 <= k < |extra| ==> !(extra[k].Element? && extra[k].name == IdnTag) {
      DomainNameWithoutIdn(name, extra);
    }
  }

  lemma {:induction false} IdnAfterDomainName(name: string, idn: string, extra: seq<Node>)
    ensures AnsweredName(Element(DomainTag, [], extra + [Element(DomainNameTag, [], [Text(name)]), Element(IdnTag, [], [Text(idn)])])) == Some(idn)
  {
    var a := extra + [Element(DomainNameTag, [], [Text(name)]), Element(IdnTag, [], [Text(idn)])];
    assert a[..|a| - 1] == extra + [Element(DomainNameTag, [], [Text(name)])];
  }

  lemma {:induction false} IdnBeforeDomainName(name: string, idn: string, extra: seq<Node>)
    ensures AnsweredName(Element(DomainTag, [], extra + [Element(IdnTag, [], [Text(idn)]), Element(DomainNameTag, [], [Text(name)])])) == Some(idn)
  {
    var b := extra + [Element(IdnTag, [], [Text(idn)]), Element(DomainNameTag, [], [Text(name)])];
    assert b[..|b| - 1] == extra + [Element(IdnTag, [], [Text(idn)])];
    assert LastChildrenNamed(b, IdnTag) == LastChildrenNamed(b[..|b| - 1], IdnTag) == [Text(idn)];
  }

  lemma {:induction false} DomainNameWithoutIdn(name: string, extra: seq<Node>)
    requires forall k :: 0 <= k < |extra| ==> !(extra[k].Element? && extra[k].name == IdnTag)
    ensures AnsweredName(Element(DomainTag, [], extra + [Element(DomainNameTag, [], [Text(name)])])) == Some(name)
  {
    var c := extra + [Element(DomainNameTag, [], [Text(name)])];
    assert c[..|c| - 1] == extra;
    NoLastChildren(extra, IdnTag);
  }

  lemma {:induction false} NoLastChildren(nodes: seq<Node>, name: string)
    requires forall k :: 0 <= k < |nodes| ==> !(nodes[k].Element? && nodes[k].name == name)
    ensures LastChildrenNamed(nodes, name) == []
  {
    if |nodes| > 0 {
      NoLastChildren(nodes[..|nodes| - 1], name);
    }
  }

  /**
   * dchk_XML_ParseDomain: fails with 74017 unless the node has a status and a
   * domainName child with content; otherwise stores the status and the last
   * database update that it finds, and leaves the rest of the record alone.
   * name is the domain name the function reads (and the source discards).
   */
  method ParseDomain(h: Handle, node: Node, r: Record) returns (ok: bool, r': Record, name: Option<string>)
    modifies h`error, h`errorText
    ensures (r', ok) == DomainAnswer(node, r)
    ensures name == if ok then AnsweredName(node) else None
    ensures !ok && old(h.initialized) ==> h.error == 74017 && h.errorText.None?
    ensures ok ==> h.error == old(h.error) && h.errorText == old(h.errorText)
  {
    var status, domainName, idn, lastUpdate := ScanDomainChildren(Children(node));
    if status == [] || domainName == [] {
      SetError(h, 74017, None);
      return false, r, None;
    }
    if idn != [] {
      domainName := idn;
    }
    name := LastTextOf(domainName);
    var dbUpdate := LastTextOf(lastUpdate);
    var dbStatus := LastElementNameOf(status);
    r' := r;
    if dbStatus.Some? {
      r' := r'.(status := dbStatus);
    }
    if dbUpdate.Some? {
      r' := r'.(lastDatabaseUpdate := dbUpdate);
    }
    ok := true;
  }

  /** One pass of the record loop of dchk_XML_ParseResult. */
  method ParseResultSet(h: Handle, d: Document, i: int, r: Record) returns (r': Record, rejected: bool)
    modifies h`error, h`errorText
    ensures r' == ResultFor(d, i, r)
    ensures rejected == AnswerRejected(d, i)
    ensures rejected && old(h.initialized) ==> h.error == 74017
    ensures !rejected ==> h.error == old(h.error)
  {
    var sets := ResultSets(d, i);
    r', rejected := r, false;
    if SomeHasChild(sets, NameNotFoundTag) {
      r' := r.(status := Some(FreeStatus));
    } else if SomeHasChild(sets, InvalidNameTag) {
      r' := r.(status := Some(InvalidStatus));
    } else if |AnswerDomainsOf(sets)| > 0 {
      var domainOk, name;
      domainOk, r', name := ParseDomain(h, AnswerDomainsOf(sets)[0], r);
      rejected := !domainOk;
      assert DomainAnswer(AnswerDomainsOf(sets)[0], r).1 == DomainAnswer(AnswerDomainsOf(sets)[0], Record("", None, None)).1;
    }
  }

  /** The record loop of dchk_XML_ParseResult over a parsed response. */
  method ParseBatch(h: Handle, d: Document, batch: seq<Record>) returns (updated: seq<Record>)
    modifies h`error, h`errorText
    ensures updated == Answered(d, batch)
    ensures SomeAnswerRejected(d, |batch|) && old(h.initialized) ==> h.error == 74017
    ensures !SomeAnswerRejected(d, |batch|) ==> h.error == old(h.error)
  {
    updated := [];
    var i := 1;
    while i <= |batch|
      invariant 1 <= i <= |batch| + 1
      invariant updated == Answered(d, batch[..i - 1])
      invariant SomeAnswerRejected(d, i - 1) && old(h.initialized) ==> h.error == 74017
      invariant !SomeAnswerRejected(d, i - 1) ==> h.error == old(h.error)
    {
      var r, rej := ParseResultSet(h, d, i, batch[i - 1]);
      updated := updated + [r];
      assert batch[..i][..i - 1] == batch[..i - 1];
      i := i + 1;
    }
    assert batch[..|batch|] == batch;
  }

  /**
   * dchk_XML_ParseResult: 74014 when the response does not parse; otherwise
   * the k-th record of the batch receives the answer of resultSet k + 1, and
   * the call succeeds even where a domain answer was rejected (which leaves
   * 74017 on the handle).
   */
  method ParseResult(h: Handle, parse: seq<byte> -> Option<Document>, text: seq<byte>, batch: seq<Record>)
    returns (ok: bool, updated: seq<Record>)
    modifies h`error, h`errorText
    ensures ok <==> parse(text).Some?
    ensures !ok ==> updated == batch
    ensures !ok && old(h.initialized) ==> h.error == 74014
    ensures ok ==> updated == Answered(parse(text).value, batch)
    ensures ok && old(h.initialized) && (exists k :: 1 <= k <= |batch| && AnswerRejected(parse(text).value, k)) ==>
      h.error == 74017
    ensures ok && (forall k :: 1 <= k <= |batch| ==> !AnswerRejected(parse(text).value, k)) ==>
      h.error == old(h.error)
  {
    var doc := parse(text);
    if doc.None? {
      SetError(h, 74014, None);
      return false, batch;
    }
    updated := ParseBatch(h, doc.value, batch);
    SomeAnswerRejectedMeaning(doc.value, |batch|);
    ok := true;
  }

  /**
   * The text contents reachable from nodes along path: an element named
   * path[0], then one of its element children named path[1], and so on, and
   * finally a text child; in document order.
   */
  function Reach(nodes: seq<Node>, path: seq<string>): seq<string>
    decreases |path|, nodes
  {
    if |nodes| == 0 then []
    else
      var n := nodes[0];
      var here :=
        if |path| == 0 then (if n.Text? then [n.content] else [])
        else if n.Element? && n.name == path[0] then Reach(n.children, path[1..])
        else [];
      here + Reach(nodes[1..], path)
  }

  lemma {:induction false} ReachAppend(a: seq<Node>, b: seq<Node>, path: seq<string>)
    decreases a
    ensures Reach(a + b, path) == Reach(a, path) + Reach(b, path)
  {
    if |a| > 0 {
      assert (a + b)[1..] == a[1..] + b;
      ReachAppend(a[1..], b, path);
    } else {
      assert a + b == b;
    }
  }

  /** The nested loops of dchk_XML_ParseSize: the first text reachable along path. */
  method FirstReachable(nodes: seq<Node>, path: seq<string>) returns (t: Option<string>)
    decreases |path|
    ensures t.None? <==> Reach(nodes, path) == []
    ensures t.Some? ==> t.value == Reach(nodes, path)[0]
  {
    var i := 0;
    while i < |nodes|
      invariant 0 <= i <= |nodes|
      invariant Reach(nodes[..i], path) == []
    {
      ReachAppend(nodes[..i], [nodes[i]], path);
      ReachAppend(nodes[..i + 1], nodes[i + 1..], path);
      ReachAppend([nodes[i]], nodes[i + 1..], path);
      assert nodes[..i] + [nodes[i]] == nodes[..i + 1];
      assert nodes[..i + 1] + nodes[i + 1..] == nodes;
      assert ([nodes[i]] + nodes[i + 1..])[1..] == nodes[i + 1..];
      var n := nodes[i];
      if |path| == 0 {
        if n.Text? {
          return Some(n.content);
        }
      } else if n.Element? && n.name == path[0] {
        t := FirstReachable(n.children, path[1..]);
        if t.Some? {
          return t;
        }
      }
      i := i + 1;
    }
    assert nodes[..i] == nodes;
    return None;
  }

  /** The path from the document to the octets text of a size-information payload. */
  const SizePath: seq<string> := ["size", "response", "octets"]

  /**
   * dchk_XML_ParseSize: the atoi of the first octets text of the size
   * information in the response; 0 with 74014 when the payload does not
   * parse, 0 with 74041 when it holds no octets text.
   */
  method ParseSize(h: Handle, parse: seq<byte> -> Option<Document>) returns (octets: int)
    modifies h`error, h`errorText
    ensures parse(h.response.UncompressedText()).None? ==>
      octets == 0 && (old(h.initialized) ==> h.error == 74014)
    ensures parse(h.response.UncompressedText()).Some? ==>
      var texts := Reach(parse(h.response.UncompressedText()).value, SizePath);
      (texts == [] ==> octets == 0 && (old(h.initialized) ==> h.error == 74041)) &&
      (texts != [] ==> octets == Atoi(texts[0]) && h.error == old(h.error) && h.errorText == old(h.errorText))
  {
    var doc := parse(h.response.UncompressedText());
    if doc.None? {
      SetError(h, 74014, None);
      return 0;
    }
    var t := FirstReachable(doc.value, SizePath);
    if t.None? {
      SetError(h, 74041, None);
      return 0;
    }
    octets := Atoi(t.value);
  }

  /** The first element of nodes named name. */
  function FirstElementNamed(nodes: seq<Node>, name: string): (r: Option<Node>)
    ensures r.Some? <==> exists k :: 0 <= k < |nodes| && nodes[k].Element? && nodes[k].name == name
    ensures r.Some? ==> r.value.Element? && r.value.name == name && r.value in nodes
  {
    if |nodes| == 0 then None
    else if nodes[0].Element? && nodes[0].name == name then Some(nodes[0])
    else
      var r := FirstElementNamed(nodes[1..], name);
      assert forall k :: 1 <= k < |nodes| ==> nodes[k] == nodes[1..][k - 1];
      r
  }

  /** The content of the first text node of nodes. */
  function FirstText(nodes: seq<Node>): (r: Option<string>)
    ensures r.Some? <==> exists k :: 0 <= k < |nodes| && nodes[k].Text?
    ensures r.Some? ==> Text(r.value) in nodes
  {
    if |nodes| == 0 then None
    else if nodes[0].Text? then Some(nodes[0].content)
    else
      var r := FirstText(nodes[1..]);
      assert forall k :: 1 <= k < |nodes| ==> nodes[k] == nodes[1..][k - 1];
      r
  }

  /** The first attribute named name. */
  function FirstAttributeNamed(attrs: seq<Attribute>, name: string): (r: Option<Attribute>)
    ensures r.Some? <==> exists k :: 0 <= k < |attrs| && attrs[k].name == name
    ensures r.Some? ==> r.value.name == name && r.value in attrs
  {
    if |attrs| == 0 then None
    else if attrs[0].name == name then Some(attrs[0])
    else
      var r := FirstAttributeNamed(attrs[1..], name);
      assert forall k :: 1 <= k < |attrs| ==> attrs[k] == attrs[1..][k - 1];
      r
  }

  /** The type attribute text of the first other element of an other-information payload. */
  function OtherType(doc: Document): Option<string>
  {
    match FirstElementNamed(doc, OtherTag)
    case None => None
    case Some(o) =>
      match FirstAttributeNamed(o.attributes, TypeAttribute)
      case None => None
      case Some(a) => FirstText(a.children)
  }

  /** The text of the first description child of the first other element. */
  function OtherDescription(doc: Document): Option<string>
  {
    match FirstElementNamed(doc, OtherTag)
    case None => None
    case Some(o) =>
      match FirstElementNamed(o.children, DescriptionTag)
      case None => None
      case Some(d) => FirstText(d.children)
  }

  /** The error dchk_XML_ParseOther raises for an other-information type (RFC 4993 section 3.3). */
  function OtherErrorCode(t: string): (code: int)
    ensures 74048 <= code <= 74053
  {
    if CaseEq(t, "descriptor-error") then 74048
    else if CaseEq(t, "payload-error") then 74049
    else if CaseEq(t, "system-error") then 74050
    else if CaseEq(t, "authority-error") then 74051
    else if CaseEq(t, "no-inflation-support-error") then 74052
    else 74053
  }

  /** The type name each recognised other-information error stands for. */
  function OtherTypeName(code: int): string
  {
    if code == 74048 then "descriptor-error"
    else if code == 74049 then "payload-error"
    else if code == 74050 then "system-error"
    else if code == 74051 then "authority-error"
    else if code == 74052 then "no-inflation-support-error"
    else ""
  }

  /**
   * The five RFC 4993 types are told apart: each name maps to its own code,
   * and every type that maps to one of them equals that name up to case.
   */
  lemma {:induction false} OtherErrorCodeInverse(t: string, code: int)
    ensures 74048 <= code <= 74052 ==> OtherErrorCode(OtherTypeName(code)) == code
    ensures OtherErrorCode(t) != 74053 ==> CaseEq(t, OtherTypeName(OtherErrorCode(t)))
    ensures OtherErrorCode(t) == 74053 <==> forall c :: 74048 <= c <= 74052 ==> !CaseEq(t, OtherTypeName(c))
  {
  }

  /**
   * The error dchk_XML_ParseOther reports for a parsed payload: the one its
   * type names, 74053 for an unknown type. A payload without a type makes
   * the C code compare a NULL pointer; the model reports 74053 for it too.
   */
  function OtherCode(doc: Document): (code: int)
    ensures 74048 <= code <= 74053
    ensures OtherType(doc).None? ==> code == 74053
  {
    match OtherType(doc)
    case None => 74053
    case Some(t) => OtherErrorCode(t)
  }

  /** The detail dchk_XML_ParseOther stores: the description, passed as the format of the detail. */
  function OtherDetail(doc: Document): (detail: Option<string>)
    ensures detail.Some? <==> OtherDescription(doc).Some?
    ensures detail.Some? && '%' !in OtherDescription(doc).value ==> detail == OtherDescription(doc)
  {
    match OtherDescription(doc)
    case None => None
    case Some(d) => Some(FormatDetail(d))
  }

  /**
   * dchk_XML_ParseOther: 74014 when the payload does not parse; otherwise the
   * error named by the type attribute, carrying the description (used as a
   * format) as its additional text, or 74053 for an unknown or missing type.
   */
  method ParseOther(h: Handle, parse: seq<byte> -> Option<Document>) returns (ok: bool)
    modifies h`error, h`errorText
    ensures parse(h.response.UncompressedText()).None? ==> !ok && (old(h.initialized) ==> h.error == 74014)
    ensures parse(h.response.UncompressedText()).Some? ==>
      var doc := parse(h.response.UncompressedText()).value;
      var code := OtherCode(doc);
      (ok <==> code != 74053) &&
      (old(h.initialized) ==> h.error == code && h.errorText == (if ok then OtherDetail(doc) else None))
  {
    var doc := parse(h.response.UncompressedText());
    if doc.None? {
      SetError(h, 74014, None);
      return false;
    }
    var typ := OtherType(doc.value);
    if typ.None? {
      SetError(h, 74053, None);
      return false;
    }
    var t := typ.value;
    var desc := OtherDetail(doc.value);
    if CaseEq(t, "descriptor-error") {
      SetError(h, 74048, desc);
    } else if CaseEq(t, "payload-error") {
      SetError(h, 74049, desc);
    } else if CaseEq(t, "system-error") {
      SetError(h, 74050, desc);
    } else if CaseEq(t, "authority-error") {
      SetError(h, 74051, desc);
    } else if CaseEq(t, "no-inflation-support-error") {
      SetError(h, 74052, desc);
    } else {
      SetError(h, 74053, None);
      return false;
    }
    ok := true;
  }
}
