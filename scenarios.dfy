/** Worked examples of parse_query on one-edge queries. */
module Scenarios {
  import opened PyText
  import opened KgTypes
  import opened Analyzer

  /** A one-edge query "e00" from node "n0" to node "n1", each node with one
      category and one id. */
  function SingleEdgeQuery(edgePredicate: string, subjectCategory: string, subjectId: string,
                           objectCategory: string, objectId: string): Query
  {
    Query(QueryMessage(QueryGraph(
      map["e00" := EdgeParams("n0", "n1", [edgePredicate], None)],
      map["n0" := NodeParams([subjectCategory], Some([subjectId])),
          "n1" := NodeParams([objectCategory], Some([objectId]))])))
  }

  /** The drug–gene query: a drug targets a gene. */
  function DrugGeneQuery(subjectId: string, objectId: string): Query
  {
    SingleEdgeQuery("biolink:TARGETS", "biolink:Drug", subjectId, "biolink:Gene", objectId)
  }

  lemma SingleEdgeParts(edgePredicate: string, subjectCategory: string, subjectId: string,
                        objectCategory: string, objectId: string)
    ensures
      var graph := SingleEdgeQuery(edgePredicate, subjectCategory, subjectId, objectCategory, objectId).message.query_graph;
      && "e00" in graph.edges
      && graph.edges["e00"] == EdgeParams("n0", "n1", [edgePredicate], None)
      && "n0" in graph.nodes && graph.nodes["n0"] == NodeParams([subjectCategory], Some([subjectId]))
      && "n1" in graph.nodes && graph.nodes["n1"] == NodeParams([objectCategory], Some([objectId]))
  {
  }

  /** The one-id node for `id` is accepted when the id's type is "Symbol" or
      "Name". */
  lemma SingleIdNode(category: string, id: string)
    requires ':' in category && ':' in id && FirstField(id, ':') in {"Symbol", "Name"}
    ensures NodeAccepted(NodeParams([category], Some([id])))
  {
  }

  /** With text ids on both nodes a single-edge query parses to the three
      labels and the two filters of the ids. */
  lemma SingleEdgeFragments(edgePredicate: string, subjectCategory: string, subjectId: string,
                            objectCategory: string, objectId: string)
    requires ':' in edgePredicate && ':' in subjectCategory && ':' in objectCategory
    requires ':' in subjectId && FirstField(subjectId, ':') in {"Symbol", "Name"}
    requires ':' in objectId && FirstField(objectId, ':') in {"Symbol", "Name"}
    ensures Parse(SingleEdgeQuery(edgePredicate, subjectCategory, subjectId, objectCategory, objectId))
            == Ok(Fragments("n00:" + SecondField(subjectCategory, ':'),
                            "e00:" + Upper(SecondField(edgePredicate, ':')),
                            "n01:" + SecondField(objectCategory, ':'),
                            "n00." + FirstField(subjectId, ':') + "=" + Upper(SecondField(subjectId, ':')),
                            "n01." + FirstField(objectId, ':') + "=" + Upper(SecondField(objectId, ':'))))
  {
    var q := SingleEdgeQuery(edgePredicate, subjectCategory, subjectId, objectCategory, objectId);
    SingleEdgeParts(edgePredicate, subjectCategory, subjectId, objectCategory, objectId);
    SingleIdNode(subjectCategory, subjectId);
    SingleIdNode(objectCategory, objectId);
    ParseFragments(q);
  }

  /** A one-id node whose id has a ':' and either a text type or a value
      `int()` accepts completes its block, with a text or an int. */
  lemma SingleIdBlockCompletes(category: string, id: string, key: string, nodes: map<string, NodeParams>,
                               keyLine: nat, categoryLine: nat, loopLine: nat, intLine: nat)
    requires key in nodes && nodes[key] == NodeParams([category], Some([id]))
    requires ':' in category && ':' in id
    requires FirstField(id, ':') in {"Symbol", "Name"} || IsPyIntLiteral(SecondField(id, ':'))
    ensures ParseNode(nodes, key, keyLine, categoryLine, loopLine, intLine).Ok?
  {
    assert LastIdParts([id], loopLine) == Ok((FirstField(id, ':'), SecondField(id, ':')));
  }

  /** A subject id of another type whose value `int()` accepts makes a
      single-edge query raise TypeError at line 173, whether the object's id
      gives a text or an int. */
  lemma NumericSubjectTypeError(edgePredicate: string, subjectCategory: string, subjectId: string,
                                objectCategory: string, objectId: string)
    requires ':' in edgePredicate && ':' in subjectCategory && ':' in objectCategory
    requires ':' in subjectId && FirstField(subjectId, ':') !in {"Symbol", "Name"}
    requires IsPyIntLiteral(SecondField(subjectId, ':'))
    requires ':' in objectId
    requires FirstField(objectId, ':') in {"Symbol", "Name"} || IsPyIntLiteral(SecondField(objectId, ':'))
    ensures Parse(SingleEdgeQuery(edgePredicate, subjectCategory, subjectId, objectCategory, objectId))
            == Err(Raised(TypeError, 173))
  {
    var q := SingleEdgeQuery(edgePredicate, subjectCategory, subjectId, objectCategory, objectId);
    SingleEdgeParts(edgePredicate, subjectCategory, subjectId, objectCategory, objectId);
    SingleIdBlockCompletes(objectCategory, objectId, "n1", q.message.query_graph.nodes, 140, 149, 159, 164);
    NumericSubjectIdRaises(q);
  }

  /** A subject id of another type whose value `int()` rejects makes a
      single-edge query raise ValueError at line 134. */
  lemma NumericSubjectValueError(edgePredicate: string, subjectCategory: string, subjectId: string,
                                 objectCategory: string, objectId: string)
    requires ':' in edgePredicate && ':' in subjectCategory
    requires ':' in subjectId && FirstField(subjectId, ':') !in {"Symbol", "Name"}
    requires !IsPyIntLiteral(SecondField(subjectId, ':'))
    ensures Parse(SingleEdgeQuery(edgePredicate, subjectCategory, subjectId, objectCategory, objectId))
            == Err(Raised(ValueError, 134))
  {
    var q := SingleEdgeQuery(edgePredicate, subjectCategory, subjectId, objectCategory, objectId);
    SingleEdgeParts(edgePredicate, subjectCategory, subjectId, objectCategory, objectId);
    NumericSubjectIdRaises(q);
  }

  lemma TargetsFields()
    ensures ':' in "biolink:TARGETS" && SecondField("biolink:TARGETS", ':') == "TARGETS"
  {
    FieldsOfPair("biolink:TARGETS", "biolink", ':', "TARGETS");
  }

  lemma DrugFields()
    ensures ':' in "biolink:Drug" && SecondField("biolink:Drug", ':') == "Drug"
  {
    FieldsOfPair("biolink:Drug", "biolink", ':', "Drug");
  }

  lemma GeneFields()
    ensures ':' in "biolink:Gene" && SecondField("biolink:Gene", ':') == "Gene"
  {
    FieldsOfPair("biolink:Gene", "biolink", ':', "Gene");
  }

  lemma PaclitaxelFields()
    ensures ':' in "Name:PACLITAXEL"
    ensures FirstField("Name:PACLITAXEL", ':') == "Name" && SecondField("Name:PACLITAXEL", ':') == "PACLITAXEL"
  {
    FieldsOfPair("Name:PACLITAXEL", "Name", ':', "PACLITAXEL");
  }

  lemma Bcl2Fields()
    ensures ':' in "Symbol:BCL2"
    ensures FirstField("Symbol:BCL2", ':') == "Symbol" && SecondField("Symbol:BCL2", ':') == "BCL2"
  {
    FieldsOfPair("Symbol:BCL2", "Symbol", ':', "BCL2");
  }

  lemma NcbiFields()
    ensures ':' in "NCBI:1234"
    ensures FirstField("NCBI:1234", ':') == "NCBI" && SecondField("NCBI:1234", ':') == "1234"
  {
    FieldsOfPair("NCBI:1234", "NCBI", ':', "1234");
  }

  lemma UpperFacts()
    ensures Upper("TARGETS") == "TARGETS"
    ensures Upper("PACLITAXEL") == "PACLITAXEL"
    ensures Upper("BCL2") == "BCL2"
  {
    UpperKeepsNonLower("TARGETS");
    UpperKeepsNonLower("PACLITAXEL");
    UpperKeepsNonLower("BCL2");
  }

  lemma DigitsAreIntLiteral()
    ensures IsPyIntLiteral("1234")
  {
    ShortDigitStringAccepted("1234");
  }

  /** A Name id and a Symbol id give the two labels, the edge type and two
      upper-cased filters. */
  lemma DrugTargetsGene()
    ensures Parse(DrugGeneQuery("Name:PACLITAXEL", "Symbol:BCL2"))
            == Ok(Fragments("n00:Drug", "e00:TARGETS", "n01:Gene", "n00.Name=PACLITAXEL", "n01.Symbol=BCL2"))
  {
    assert "n00:" + "Drug" == "n00:Drug";
    assert "e00:" + "TARGETS" == "e00:TARGETS";
    assert "n01:" + "Gene" == "n01:Gene";
    assert "n00." + "Name" + "=" + "PACLITAXEL" == "n00.Name=PACLITAXEL";
    assert "n01." + "Symbol" + "=" + "BCL2" == "n01.Symbol=BCL2";
    TargetsFields();
    DrugFields();
    GeneFields();
    PaclitaxelFields();
    Bcl2Fields();
    UpperFacts();
    SingleEdgeFragments("biolink:TARGETS", "biolink:Drug", "Name:PACLITAXEL", "biolink:Gene", "Symbol:BCL2");
  }

  /** An "NCBI:1234" subject id does not give the filter "n00.NCBI_ID=1234":
      `int("1234")` succeeds and the str + int concatenation raises TypeError. */
  lemma NcbiIdRaisesTypeError()
    ensures Parse(DrugGeneQuery("NCBI:1234", "Symbol:BCL2")) == Err(Raised(TypeError, 173))
  {
    TargetsFields();
    DrugFields();
    GeneFields();
    NcbiFields();
    Bcl2Fields();
    DigitsAreIntLiteral();
    NumericSubjectTypeError("biolink:TARGETS", "biolink:Drug", "NCBI:1234", "biolink:Gene", "Symbol:BCL2");
  }

  lemma PaddedNcbiFields()
    ensures ':' in "NCBI:\U{1c}1234"
    ensures FirstField("NCBI:\U{1c}1234", ':') == "NCBI" && SecondField("NCBI:\U{1c}1234", ':') == "\U{1c}1234"
  {
    FieldsOfPair("NCBI:\U{1c}1234", "NCBI", ':', "\U{1c}1234");
  }

  /** The information separator U+001C is white space to `str.isspace` but not
      to `int()`, which rejects a value that starts with it. */
  lemma SeparatorIsNotIntSpace()
    ensures !IsPyIntLiteral("\U{1c}1234")
  {
    assert TrimStart("\U{1c}1234") == "\U{1c}1234";
    assert TrimEnd("\U{1c}1234") == "\U{1c}1234";
  }

  /** An "NCBI:" id whose value starts with U+001C raises ValueError at
      line 134 rather than reaching the concatenation. */
  lemma PaddedNcbiIdRaisesValueError()
    ensures Parse(DrugGeneQuery("NCBI:\U{1c}1234", "Symbol:BCL2")) == Err(Raised(ValueError, 134))
  {
    TargetsFields();
    DrugFields();
    PaddedNcbiFields();
    SeparatorIsNotIntSpace();
    NumericSubjectValueError("biolink:TARGETS", "biolink:Drug", "NCBI:\U{1c}1234", "biolink:Gene", "Symbol:BCL2");
  }

  lemma Ncbi5678Fields()
    ensures ':' in "NCBI:5678"
    ensures FirstField("NCBI:5678", ':') == "NCBI" && SecondField("NCBI:5678", ':') == "5678"
  {
    FieldsOfPair("NCBI:5678", "NCBI", ':', "5678");
  }

  lemma OtherDigitsAreIntLiteral()
    ensures IsPyIntLiteral("5678")
  {
    ShortDigitStringAccepted("5678");
  }

  /** With numeric ids on both nodes the object block completes with an int,
      and the subject's concatenation at line 173 raises first. */
  lemma TwoNcbiIdsRaiseAtSubject()
    ensures Parse(SingleEdgeQuery("biolink:TARGETS", "biolink:Drug", "NCBI:1234", "biolink:Gene", "NCBI:5678"))
            == Err(Raised(TypeError, 173))
  {
    TargetsFields();
    DrugFields();
    GeneFields();
    NcbiFields();
    Ncbi5678Fields();
    DigitsAreIntLiteral();
    OtherDigitsAreIntLiteral();
    NumericSubjectTypeError("biolink:TARGETS", "biolink:Drug", "NCBI:1234", "biolink:Gene", "NCBI:5678");
  }
}
