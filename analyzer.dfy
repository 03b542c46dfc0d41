/** parse_query (KG1.py): the five query fragments extracted from the single
    edge `e00` and its subject and object nodes. */
module Analyzer {
  import opened PyText
  import opened KgTypes

  /** The dict parse_query returns: "string1" .. "string5". */
  datatype Fragments = Fragments(
    subjectLabel: string,   // string1, "n00:<category>"
    edgeType: string,       // string2, "e00:<PREDICATE>"
    objectLabel: string,    // string3, "n01:<category>"
    subjectFilter: string,  // string4, "n00.<type>=<value>"
    objectFilter: string)   // string5, "n01.<type>=<value>"

  /** A node's property value after classification: upper-cased text, or the
      Python int that `int()` returned. */
  datatype FilterValue = Text(s: string) | Integer

  /** The filters a node without ids produces; query_KG treats them as "no filter". */
  const SubjectSentinel: string := "n00.="
  const ObjectSentinel: string := "n01.="

  /** `xs[0].split(':')[1]`, raising IndexError at `line`. */
  function SecondSegmentOfFirst(xs: seq<string>, line: nat): (r: Result<string>)
    ensures r.Ok? <==> HasSecondField(xs)
    ensures r.Ok? ==> r.value == SecondField(xs[0], ':')
    ensures r.Err? ==> r.error == Raised(IndexError, line)
  {
    if xs == [] then Err(Raised(IndexError, line))
    else
      var parts := Split(xs[0], ':');
      SplitFields(xs[0], ':');
      if |parts| < 2 then Err(Raised(IndexError, line)) else Ok(parts[1])
  }

  /** `e00_predicates[0].split(':')[1].upper()` */
  function PredicateType(predicates: seq<string>): (r: Result<string>)
    ensures r.Ok? <==> HasSecondField(predicates)
    ensures r.Ok? ==> r.value == Upper(SecondField(predicates[0], ':'))
    ensures r.Err? ==> r.error == Raised(IndexError, 97)
  {
    var p :- SecondSegmentOfFirst(predicates, 97);
    Ok(Upper(p))
  }

  /** The property type and value the id loop leaves behind: the split of the
      last id, or the initial empty strings when there are no ids. The loop
      splits every id, so any id without ':' raises IndexError at `line`. */
  function LastIdParts(ids: seq<string>, line: nat): (r: Result<(string, string)>)
    ensures r.Err? <==> exists k :: 0 <= k < |ids| && ':' !in ids[k]
    ensures r.Err? ==> r.error == Raised(IndexError, line)
    ensures ids == [] ==> r == Ok(("", ""))
    ensures r.Ok? && ids != [] ==>
              r.value == (FirstField(ids[|ids| - 1], ':'), SecondField(ids[|ids| - 1], ':'))
  {
    if exists k :: 0 <= k < |ids| && ':' !in ids[k] then Err(Raised(IndexError, line))
    else if ids == [] then Ok(("", ""))
    else
      var parts := Split(ids[|ids| - 1], ':');
      SplitFields(ids[|ids| - 1], ':');
      Ok((parts[0], parts[1]))
  }

  /** The `for id in ids` loop: each iteration overwrites the property type
      and value with the two first fields of the current id. */
  method ScanIds(ids: seq<string>, line: nat) returns (r: Result<(string, string)>)
    ensures r == LastIdParts(ids, line)
  {
    var propertyType, propertyValue := "", "";
    var i := 0;
    while i < |ids|
      invariant 0 <= i <= |ids|
      invariant forall k :: 0 <= k < i ==> ':' in ids[k]
      invariant i == 0 ==> propertyType == "" && propertyValue == ""
      invariant i > 0 ==> propertyType == Split(ids[i - 1], ':')[0]
      invariant i > 0 ==> propertyValue == Split(ids[i - 1], ':')[1]
    {
      var parts := Split(ids[i], ':');
      propertyType := parts[0];
      if |parts| < 2 {
        return Err(Raised(IndexError, line));
      }
      propertyValue := parts[1];
      i := i + 1;
    }
    return Ok((propertyType, propertyValue));
  }

  /** The classification after the loop: "Symbol" and "Name" keep their type and
      upper-case the value; any other type gets "_ID" appended and its value
      goes through `int()`, which raises ValueError at `intLine` on text that is
      not an integer literal. */
  function Classify(propertyType: string, propertyValue: string, intLine: nat): (r: Result<(string, FilterValue)>)
    ensures (r.Ok? && r.value.1.Text?) <==> propertyType in {"Symbol", "Name"}
    ensures r.Err? <==> propertyType !in {"Symbol", "Name"} && !IsPyIntLiteral(propertyValue)
    ensures r.Err? ==> r.error == Raised(ValueError, intLine)
  {
    if propertyType != "Symbol" && propertyType != "Name" then
      if IsPyIntLiteral(propertyValue) then Ok((propertyType + "_ID", Integer))
      else Err(Raised(ValueError, intLine))
    else
      Ok((propertyType, Text(Upper(propertyValue))))
  }

  /** A node's property type and value: both empty when `ids` is None, else the
      classified split of the last id. */
  function NodeFilter(ids: Option<seq<string>>, loopLine: nat, intLine: nat): (r: Result<(string, FilterValue)>)
    ensures r.Err? ==> r.error in {Raised(IndexError, loopLine), Raised(ValueError, intLine)}
  {
    match ids
    case None => Ok(("", Text("")))
    case Some(list) =>
      var parts :- LastIdParts(list, loopLine);
      Classify(parts.0, parts.1, intLine)
  }

  /** `prefix + type + '=' + value`: concatenating an int onto a str raises
      TypeError at `line`. */
  function FilterFragment(prefix: string, filter: (string, FilterValue), line: nat): (r: Result<string>)
    ensures r.Ok? <==> filter.1.Text?
    ensures r.Ok? ==> |r.value| > |prefix| && r.value[..|prefix|] == prefix
    ensures r.Err? ==> r.error == Raised(TypeError, line)
  {
    match filter.1
    case Text(v) => Ok(prefix + filter.0 + "=" + v)
    case Integer => Err(Raised(TypeError, line))
  }

  /** One of the two "Handle node" blocks of parse_query: look the node up
      (KeyError at `keyLine`), take its category name (IndexError at
      `categoryLine`), then its property type and value. */
  function ParseNode(nodes: map<string, NodeParams>, key: string, keyLine: nat, categoryLine: nat,
                     loopLine: nat, intLine: nat): (r: Result<(string, (string, FilterValue))>)
    ensures r.Err? ==> r.error in {Raised(KeyError, keyLine), Raised(IndexError, categoryLine),
                                   Raised(IndexError, loopLine), Raised(ValueError, intLine)}
  {
    var node :- Lookup(nodes, key, keyLine);
    var category :- SecondSegmentOfFirst(node.categories, categoryLine);
    var property :- NodeFilter(node.ids, loopLine, intLine);
    Ok((category, property))
  }

  /** The exceptions parse_query can raise, each at the line that raises it. */
  const ParseFailures: set<Failure> := {
    Raised(KeyError, 76), Raised(IndexError, 97),
    Raised(KeyError, 110), Raised(IndexError, 119), Raised(IndexError, 129), Raised(ValueError, 134),
    Raised(KeyError, 140), Raised(IndexError, 149), Raised(IndexError, 159), Raised(ValueError, 164),
    Raised(TypeError, 173), Raised(TypeError, 174)}

  /** parse_query, statement by statement, with the exceptions it raises in
      the order it raises them. */
  function Parse(q: Query): (r: Result<Fragments>)
    ensures r.Err? ==> r.error in ParseFailures
  {
    var graph := q.message.query_graph;
    var e00 :- Lookup(graph.edges, "e00", 76);
    var predicateType :- PredicateType(e00.predicates);
    var subjectNode :- ParseNode(graph.nodes, e00.subject, 110, 119, 129, 134);
    var objectNode :- ParseNode(graph.nodes, e00.obj, 140, 149, 159, 164);
    var string4 :- FilterFragment("n00.", subjectNode.1, 173);
    var string5 :- FilterFragment("n01.", objectNode.1, 174);
    Ok(Fragments("n00:" + subjectNode.0, "e00:" + predicateType, "n01:" + objectNode.0, string4, string5))
  }

  /** A "Handle node" block as the source runs it, with the id loop as a loop. */
  method ReadNode(nodes: map<string, NodeParams>, key: string, keyLine: nat, categoryLine: nat,
                  loopLine: nat, intLine: nat) returns (r: Result<(string, (string, FilterValue))>)
    ensures r == ParseNode(nodes, key, keyLine, categoryLine, loopLine, intLine)
  {
    var node :- Lookup(nodes, key, keyLine);
    var category :- SecondSegmentOfFirst(node.categories, categoryLine);
    var propertyType, propertyValue := "", Text("");
    if node.ids.Some? {
      var parts :- ScanIds(node.ids.value, loopLine);
      var classified :- Classify(parts.0, parts.1, intLine);
      propertyType, propertyValue := classified.0, classified.1;
    }
    r := Ok((category, (propertyType, propertyValue)));
  }

  /** parse_query as the source runs it. */
  method ParseQuery(q: Query) returns (r: Result<Fragments>)
    ensures r == Parse(q)
  {
    var graph := q.message.query_graph;
    var e00 :- Lookup(graph.edges, "e00", 76);
    var predicateType :- PredicateType(e00.predicates);
    var subjectNode :- ReadNode(graph.nodes, e00.subject, 110, 119, 129, 134);
    var objectNode :- ReadNode(graph.nodes, e00.obj, 140, 149, 159, 164);
    var string4 :- FilterFragment("n00.", subjectNode.1, 173);
    var string5 :- FilterFragment("n01.", objectNode.1, 174);
    r := Ok(Fragments("n00:" + subjectNode.0, "e00:" + predicateType, "n01:" + objectNode.0, string4, string5));
  }

  /** `xs[0]` exists and contains ':', so `xs[0].split(':')[1]` does not raise. */
  predicate HasSecondField(xs: seq<string>)
  {
    |xs| > 0 && ':' in xs[0]
  }

  /** The last of a non-empty list of ids. */
  function LastId(ids: seq<string>): string
    requires |ids| > 0
  {
    ids[|ids| - 1]
  }

  /** Ids parse_query accepts: none at all, or a non-empty list whose every
      entry contains ':' and whose last entry has type "Symbol" or "Name". */
  predicate IdsAccepted(ids: Option<seq<string>>)
  {
    match ids
    case None => true
    case Some(list) =>
      && |list| > 0
      && (forall k :: 0 <= k < |list| ==> ':' in list[k])
      && FirstField(LastId(list), ':') in {"Symbol", "Name"}
  }

  predicate NodeAccepted(node: NodeParams)
  {
    HasSecondField(node.categories) && IdsAccepted(node.ids)
  }

  /** The inputs on which parse_query returns, stated field by field. */
  predicate WellFormed(q: Query)
  {
    var graph := q.message.query_graph;
    && "e00" in graph.edges
    && HasSecondField(graph.edges["e00"].predicates)
    && graph.edges["e00"].subject in graph.nodes
    && NodeAccepted(graph.nodes[graph.edges["e00"].subject])
    && graph.edges["e00"].obj in graph.nodes
    && NodeAccepted(graph.nodes[graph.edges["e00"].obj])
  }

  /** The filter fragment of a node whose ids are accepted: the sentinel
      `prefix + "="` without ids, else the last id's type and upper-cased value. */
  function ExpectedFilter(prefix: string, ids: Option<seq<string>>): string
  {
    if ids.None? || ids.value == [] then prefix + "="
    else
      var id := LastId(ids.value);
      prefix + FirstField(id, ':') + "=" + Upper(SecondField(id, ':'))
  }

  /** A node's ids lead to a text filter exactly when they are accepted, and
      that filter is the last id's type with its upper-cased value. */
  lemma NodeFilterText(prefix: string, ids: Option<seq<string>>, loopLine: nat, intLine: nat, line: nat)
    ensures NodeFilter(ids, loopLine, intLine).Ok? && NodeFilter(ids, loopLine, intLine).value.1.Text?
            <==> IdsAccepted(ids)
    ensures IdsAccepted(ids) ==>
              FilterFragment(prefix, NodeFilter(ids, loopLine, intLine).value, line) == Ok(ExpectedFilter(prefix, ids))
  {
    if ids.None? {
      assert prefix + "" + "=" + "" == prefix + "=";
    } else if |ids.value| > 0 {
      SplitFields(LastId(ids.value), ':');
    }
  }

  /** A node block returns a text filter exactly when the node exists and is
      accepted; its results are then the category name and the filter of
      ExpectedFilter. */
  lemma ParseNodeAccepted(nodes: map<string, NodeParams>, key: string, keyLine: nat, categoryLine: nat,
                          loopLine: nat, intLine: nat, prefix: string, line: nat)
    ensures
      var r := ParseNode(nodes, key, keyLine, categoryLine, loopLine, intLine);
      r.Ok? && r.value.1.1.Text? <==> key in nodes && NodeAccepted(nodes[key])
    ensures
      var r := ParseNode(nodes, key, keyLine, categoryLine, loopLine, intLine);
      key in nodes && NodeAccepted(nodes[key]) ==>
        && r.value.0 == SecondField(nodes[key].categories[0], ':')
        && FilterFragment(prefix, r.value.1, line) == Ok(ExpectedFilter(prefix, nodes[key].ids))
  {
    if key in nodes {
      var node := nodes[key];
      NodeFilterText(prefix, node.ids, loopLine, intLine, line);
      if node.categories != [] {
        SplitFields(node.categories[0], ':');
      }
    }
  }

  /** parse_query returns exactly on well-formed queries. */
  lemma ParseSucceedsIff(q: Query)
    ensures Parse(q).Ok? <==> WellFormed(q)
  {
    var graph := q.message.query_graph;
    if "e00" in graph.edges {
      var e00 := graph.edges["e00"];
      ParseNodeAccepted(graph.nodes, e00.subject, 110, 119, 129, 134, "n00.", 173);
      ParseNodeAccepted(graph.nodes, e00.obj, 140, 149, 159, 164, "n01.", 174);
    }
  }

  /** On a well-formed query the fragments are: the category names after the
      first ':' (case kept), the predicate name after the first ':' upper-cased,
      and each node's filter from its last id or the sentinel. */
  lemma ParseFragments(q: Query)
    requires WellFormed(q)
    ensures
      var graph := q.message.query_graph;
      var e00 := graph.edges["e00"];
      var subjectNode, objectNode := graph.nodes[e00.subject], graph.nodes[e00.obj];
      Parse(q) == Ok(Fragments(
        "n00:" + SecondField(subjectNode.categories[0], ':'),
        "e00:" + Upper(SecondField(e00.predicates[0], ':')),
        "n01:" + SecondField(objectNode.categories[0], ':'),
        ExpectedFilter("n00.", subjectNode.ids),
        ExpectedFilter("n01.", objectNode.ids)))
  {
    var graph := q.message.query_graph;
    var e00 := graph.edges["e00"];
    SplitFields(e00.predicates[0], ':');
    ParseNodeAccepted(graph.nodes, e00.subject, 110, 119, 129, 134, "n00.", 173);
    ParseNodeAccepted(graph.nodes, e00.obj, 140, 149, 159, 164, "n01.", 174);
  }

  /** On success a filter fragment is the sentinel exactly when its node has
      no ids: a node with ids always contributes "n0x.Symbol=..." or "n0x.Name=...". */
  lemma SentinelIffNoIds(q: Query)
    requires Parse(q).Ok?
    ensures
      var graph := q.message.query_graph;
      var e00 := graph.edges["e00"];
      && (Parse(q).value.subjectFilter == SubjectSentinel <==> graph.nodes[e00.subject].ids.None?)
      && (Parse(q).value.objectFilter == ObjectSentinel <==> graph.nodes[e00.obj].ids.None?)
  {
    ParseSucceedsIff(q);
    ParseFragments(q);
    var graph := q.message.query_graph;
    var e00 := graph.edges["e00"];
    FilterNotSentinel("n00.", graph.nodes[e00.subject].ids);
    FilterNotSentinel("n01.", graph.nodes[e00.obj].ids);
  }

  lemma FilterNotSentinel(prefix: string, ids: Option<seq<string>>)
    requires |prefix| == 4
    requires IdsAccepted(ids)
    ensures ExpectedFilter(prefix, ids) == prefix + "=" <==> ids.None?
  {
    if ids.Some? {
      var t := FirstField(LastId(ids.value), ':');
      assert ExpectedFilter(prefix, ids)[4] == t[0];
    }
  }

  /** Ids before the last one only have to contain ':'; they do not change
      the filter. */
  lemma {:induction false} OnlyLastIdCounts(earlier: seq<string>, id: string, loopLine: nat, intLine: nat)
    requires forall k :: 0 <= k < |earlier| ==> ':' in earlier[k]
    ensures NodeFilter(Some(earlier + [id]), loopLine, intLine) == NodeFilter(Some([id]), loopLine, intLine)
  {
    var ids := earlier + [id];
    assert ids[|ids| - 1] == id;
    if ':' in id {
      assert forall k :: 0 <= k < |ids| ==> ':' in ids[k] by {
        forall k | 0 <= k < |ids| ensures ':' in ids[k] {
          if k < |earlier| { assert ids[k] == earlier[k]; }
        }
      }
    } else {
      assert ':' !in ids[|ids| - 1];
      assert ':' !in [id][0];
    }
  }

  /** Any id without ':', wherever it stands, makes the loop raise IndexError. */
  lemma IdWithoutColonRaises(ids: seq<string>, k: nat, loopLine: nat, intLine: nat)
    requires k < |ids| && ':' !in ids[k]
    ensures NodeFilter(Some(ids), loopLine, intLine) == Err(Raised(IndexError, loopLine))
  {
  }

  /** The statements parse_query runs before it reaches the subject's ids. */
  predicate ReachesSubjectIds(q: Query)
  {
    var graph := q.message.query_graph;
    && "e00" in graph.edges
    && HasSecondField(graph.edges["e00"].predicates)
    && graph.edges["e00"].subject in graph.nodes
    && HasSecondField(graph.nodes[graph.edges["e00"].subject].categories)
  }

  /** A subject id list that is empty or whose last type is neither "Symbol"
      nor "Name" takes the numeric branch, which never returns: `int()` raises
      ValueError at line 134 on a value that is not an integer. Otherwise the
      object block runs next: an exception it raises propagates, and when it
      completes, with a text or an int, the concatenation of the subject's int
      raises TypeError at line 173. */
  lemma NumericSubjectIdRaises(q: Query)
    requires ReachesSubjectIds(q)
    requires
      var graph := q.message.query_graph;
      var ids := graph.nodes[graph.edges["e00"].subject].ids;
      && ids.Some?
      && (forall k :: 0 <= k < |ids.value| ==> ':' in ids.value[k])
      && (ids.value == [] || FirstField(LastId(ids.value), ':') !in {"Symbol", "Name"})
    ensures
      var graph := q.message.query_graph;
      var e00 := graph.edges["e00"];
      var list := graph.nodes[e00.subject].ids.value;
      var value := if list == [] then "" else SecondField(LastId(list), ':');
      && (!IsPyIntLiteral(value) ==> Parse(q) == Err(Raised(ValueError, 134)))
      && var objectBlock := ParseNode(graph.nodes, e00.obj, 140, 149, 159, 164);
      && (IsPyIntLiteral(value) && objectBlock.Ok? ==> Parse(q) == Err(Raised(TypeError, 173)))
      && (IsPyIntLiteral(value) && objectBlock.Err? ==> Parse(q) == Err(objectBlock.error))
  {
    var graph := q.message.query_graph;
    var e00 := graph.edges["e00"];
    var subjectNode := graph.nodes[e00.subject];
    assert PredicateType(e00.predicates).Ok?;
    assert SecondSegmentOfFirst(subjectNode.categories, 119).Ok?;
    NumericNodeFilter(subjectNode.ids.value, 129, 134);
  }

  /** The statements parse_query runs before it reaches the object's ids:
      the subject block completes with a text filter. */
  predicate ReachesObjectIds(q: Query)
  {
    var graph := q.message.query_graph;
    && "e00" in graph.edges
    && HasSecondField(graph.edges["e00"].predicates)
    && graph.edges["e00"].subject in graph.nodes
    && NodeAccepted(graph.nodes[graph.edges["e00"].subject])
    && graph.edges["e00"].obj in graph.nodes
    && HasSecondField(graph.nodes[graph.edges["e00"].obj].categories)
  }

  /** The object-side counterpart of NumericSubjectIdRaises: an object id list
      that is empty or whose last type is neither "Symbol" nor "Name" makes
      `int()` raise ValueError at line 164 on a non-integer value, and
      otherwise the concatenation raises TypeError at line 174. */
  lemma NumericObjectIdRaises(q: Query)
    requires ReachesObjectIds(q)
    requires
      var graph := q.message.query_graph;
      var ids := graph.nodes[graph.edges["e00"].obj].ids;
      && ids.Some?
      && (forall k :: 0 <= k < |ids.value| ==> ':' in ids.value[k])
      && (ids.value == [] || FirstField(LastId(ids.value), ':') !in {"Symbol", "Name"})
    ensures
      var graph := q.message.query_graph;
      var list := graph.nodes[graph.edges["e00"].obj].ids.value;
      var value := if list == [] then "" else SecondField(LastId(list), ':');
      && (!IsPyIntLiteral(value) ==> Parse(q) == Err(Raised(ValueError, 164)))
      && (IsPyIntLiteral(value) ==> Parse(q) == Err(Raised(TypeError, 174)))
  {
    var graph := q.message.query_graph;
    var e00 := graph.edges["e00"];
    assert PredicateType(e00.predicates).Ok?;
    ParseNodeAccepted(graph.nodes, e00.subject, 110, 119, 129, 134, "n00.", 173);
    var subjectBlock := ParseNode(graph.nodes, e00.subject, 110, 119, 129, 134);
    assert subjectBlock.Ok? && subjectBlock.value.1.1.Text?;
    NumericNodeBlock(graph.nodes, e00.obj, 140, 149, 159, 164);
  }

  /** A node block whose ids take the numeric branch: it completes with an
      int when `int()` accepts the value, and raises ValueError otherwise. */
  lemma NumericNodeBlock(nodes: map<string, NodeParams>, key: string, keyLine: nat, categoryLine: nat,
                         loopLine: nat, intLine: nat)
    requires key in nodes && HasSecondField(nodes[key].categories)
    requires
      var ids := nodes[key].ids;
      && ids.Some?
      && (forall k :: 0 <= k < |ids.value| ==> ':' in ids.value[k])
      && (ids.value == [] || FirstField(LastId(ids.value), ':') !in {"Symbol", "Name"})
    ensures
      var list := nodes[key].ids.value;
      var value := if list == [] then "" else SecondField(LastId(list), ':');
      var r := ParseNode(nodes, key, keyLine, categoryLine, loopLine, intLine);
      && (IsPyIntLiteral(value) ==> r.Ok? && r.value.1.1 == Integer)
      && (!IsPyIntLiteral(value) ==> r == Err(Raised(ValueError, intLine)))
  {
    assert SecondSegmentOfFirst(nodes[key].categories, categoryLine).Ok?;
    NumericNodeFilter(nodes[key].ids.value, loopLine, intLine);
  }

  /** The numeric branch of the classification: type + "_ID" with an int when
      `int()` accepts the value, ValueError at `intLine` otherwise. */
  lemma NumericNodeFilter(list: seq<string>, loopLine: nat, intLine: nat)
    requires forall k :: 0 <= k < |list| ==> ':' in list[k]
    requires list == [] || FirstField(LastId(list), ':') !in {"Symbol", "Name"}
    ensures
      var propertyType := if list == [] then "" else FirstField(LastId(list), ':');
      var value := if list == [] then "" else SecondField(LastId(list), ':');
      NodeFilter(Some(list), loopLine, intLine)
      == if IsPyIntLiteral(value) then Ok((propertyType + "_ID", Integer)) else Err(Raised(ValueError, intLine))
  {
    var propertyType := if list == [] then "" else FirstField(LastId(list), ':');
    var value := if list == [] then "" else SecondField(LastId(list), ':');
    if list != [] {
      SplitFields(LastId(list), ':');
    }
    assert LastIdParts(list, loopLine) == Ok((propertyType, value));
    assert propertyType != "Symbol" && propertyType != "Name";
  }
}
