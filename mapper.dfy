/** query_KG (KG1.py): the choice of query text from the five fragments and
    the reshaping of the rows the database returns into result records. */
module Mapper {
  import opened KgTypes
  import opened PyList
  import Analyzer

  /** The clause that closes every query text. */
  const ReturnClause: string := " RETURN DISTINCT n00, e00, n01, type(e00)"

  /** The database name every query is sent to. */
  const DatabaseName: string := "neo4j"

  /** The pattern part shared by the three templates. */
  function MatchClause(string1: string, string2: string, string3: string): string
  {
    "MATCH (" + string1 + ")-[" + string2 + "]-(" + string3 + ")"
  }

  /** The query text of lines 194-211. The three templates share the MATCH
      pattern and the RETURN clause; they differ in the WHERE condition and in
      the leading space of the first. The last branch, the empty query, is
      never taken: the second test already holds whenever the first and the
      third fail. */
  function BuildQuery(string1: string, string2: string, string3: string, string4: string, string5: string): (query: string)
    ensures query != ""
  {
    if string4 != Analyzer.SubjectSentinel && string5 != Analyzer.ObjectSentinel then
      " " + MatchClause(string1, string2, string3) + " WHERE " + (string4 + " AND " + string5) + ReturnClause
    else if string4 == Analyzer.SubjectSentinel then
      MatchClause(string1, string2, string3) + " WHERE " + string5 + ReturnClause
    else if string5 == Analyzer.ObjectSentinel then
      MatchClause(string1, string2, string3) + " WHERE " + string4 + ReturnClause
    else
      ""
  }

  /** The condition after WHERE: the filters that are not the sentinel, joined
      by AND; when both are the sentinel, the object's. */
  function WhereCondition(string4: string, string5: string): string
  {
    var subjectReal := string4 != Analyzer.SubjectSentinel;
    var objectReal := string5 != Analyzer.ObjectSentinel;
    if subjectReal && objectReal then string4 + " AND " + string5
    else if subjectReal then string4
    else string5
  }

  /** With both filters the sentinel, the second template is chosen and its
      condition is the object's sentinel "n01.=". */
  lemma SentinelsQueryText(string1: string, string2: string, string3: string)
    ensures BuildQuery(string1, string2, string3, Analyzer.SubjectSentinel, Analyzer.ObjectSentinel)
            == MatchClause(string1, string2, string3) + " WHERE n01.=" + ReturnClause
  {
    var pattern := MatchClause(string1, string2, string3);
    assert " WHERE " + Analyzer.ObjectSentinel == " WHERE n01.=";
    assert pattern + " WHERE " + Analyzer.ObjectSentinel == pattern + (" WHERE " + Analyzer.ObjectSentinel);
  }

  /** Whether the query text starts with the space of the first template. */
  function Lead(string4: string, string5: string): string
  {
    if string4 != Analyzer.SubjectSentinel && string5 != Analyzer.ObjectSentinel then " " else ""
  }

  /** Every query text is the match clause, WHERE, the condition and the
      return clause, with a leading space exactly when both filters are real;
      the text starts with a space in that case and with "M" otherwise. */
  lemma QueryTextShape(string1: string, string2: string, string3: string, string4: string, string5: string)
    ensures
      var query := BuildQuery(string1, string2, string3, string4, string5);
      && query == Lead(string4, string5) + MatchClause(string1, string2, string3)
                  + " WHERE " + WhereCondition(string4, string5) + ReturnClause
      && (query[0] == ' ' <==> string4 != Analyzer.SubjectSentinel && string5 != Analyzer.ObjectSentinel)
  {
    var match_ := MatchClause(string1, string2, string3);
    assert match_[0] == 'M';
    assert "" + match_ == match_;
  }

  /** `part` occurs in `text`. */
  predicate Occurs(part: string, text: string)
  {
    exists i, j :: 0 <= i <= j <= |text| && text[i..j] == part
  }

  lemma OccursSelf(part: string)
    ensures Occurs(part, part)
  {
    assert part[0..|part|] == part;
  }

  lemma OccursInConcat(part: string, left: string, right: string)
    requires Occurs(part, left) || Occurs(part, right)
    ensures Occurs(part, left + right)
  {
    var text := left + right;
    if Occurs(part, left) {
      var i, j :| 0 <= i <= j <= |left| && left[i..j] == part;
      assert text[i..j] == part;
    } else {
      var i, j :| 0 <= i <= j <= |right| && right[i..j] == part;
      assert text[|left| + i..|left| + j] == part;
    }
  }

  /** The labels and every filter that is not the sentinel appear in the
      query text, and so does " WHERE ": no template leaves the WHERE clause out. */
  lemma QueryMentionsFragments(string1: string, string2: string, string3: string, string4: string, string5: string)
    ensures
      var query := BuildQuery(string1, string2, string3, string4, string5);
      && Occurs(string1, query) && Occurs(string2, query) && Occurs(string3, query)
      && Occurs(" WHERE ", query)
      && (string4 != Analyzer.SubjectSentinel ==> Occurs(string4, query))
      && (string5 != Analyzer.ObjectSentinel ==> Occurs(string5, query))
  {
    QueryTextShape(string1, string2, string3, string4, string5);
    var lead, condition := Lead(string4, string5), WhereCondition(string4, string5);
    var match_ := MatchClause(string1, string2, string3);
    // the pattern holds the three labels
    OccursSelf(string1);
    OccursInConcat(string1, "MATCH (", string1);
    OccursInConcat(string1, "MATCH (" + string1, ")-[");
    OccursInConcat(string1, "MATCH (" + string1 + ")-[", string2);
    OccursInConcat(string1, "MATCH (" + string1 + ")-[" + string2, "]-(");
    OccursInConcat(string1, "MATCH (" + string1 + ")-[" + string2 + "]-(", string3);
    OccursInConcat(string1, "MATCH (" + string1 + ")-[" + string2 + "]-(" + string3, ")");
    OccursSelf(string2);
    OccursInConcat(string2, "MATCH (" + string1 + ")-[", string2);
    OccursInConcat(string2, "MATCH (" + string1 + ")-[" + string2, "]-(");
    OccursInConcat(string2, "MATCH (" + string1 + ")-[" + string2 + "]-(", string3);
    OccursInConcat(string2, "MATCH (" + string1 + ")-[" + string2 + "]-(" + string3, ")");
    OccursSelf(string3);
    OccursInConcat(string3, "MATCH (" + string1 + ")-[" + string2 + "]-(", string3);
    OccursInConcat(string3, "MATCH (" + string1 + ")-[" + string2 + "]-(" + string3, ")");
    // the condition holds the real filters
    if string4 != Analyzer.SubjectSentinel && string5 != Analyzer.ObjectSentinel {
      OccursSelf(string4);
      OccursInConcat(string4, string4, " AND ");
      OccursInConcat(string4, string4 + " AND ", string5);
      OccursSelf(string5);
      OccursInConcat(string5, string4 + " AND ", string5);
    } else {
      OccursSelf(condition);
    }
    OccursSelf(" WHERE ");
    forall part | Occurs(part, match_) || part == " WHERE " || Occurs(part, condition)
      ensures Occurs(part, lead + match_ + " WHERE " + condition + ReturnClause)
    {
      if Occurs(part, match_) {
        OccursInConcat(part, lead, match_);
        OccursInConcat(part, lead + match_, " WHERE ");
      } else if part == " WHERE " {
        OccursInConcat(part, lead + match_, " WHERE ");
      } else {
        OccursInConcat(part, lead + match_ + " WHERE ", condition);
      }
      OccursInConcat(part, lead + match_ + " WHERE ", condition);
      OccursInConcat(part, lead + match_ + " WHERE " + condition, ReturnClause);
    }
  }

  /** The renamed node properties, in the order the records list them. */
  const NodeFields: seq<string> := ["Name", "Symbol", "Category"]
  const SubjectAttributeFields: seq<string> := ["NCBI_ID", "MONDO_ID", "Chembl_ID", "Pubchem_ID", "Prefixes"]
  const ObjectAttributeFields: seq<string> := ["NCBI_ID", "MONDO_ID", "Chembl_ID", "Pubchem_ID", "Synonym", "Prefixes"]

  /** Edge properties and the keys they are stored under. */
  const EdgeAttributeKeys: seq<(string, string)> := [
    ("Publications", "Edge_attribute_publications"),
    ("Knowledge_Source", "Edge_attribute_knowledge_source"),
    ("Provided_by", "Edge_attribute_provided_by"),
    ("FDA_approval_status", "Edge_attribute_FDA_approval_status")]

  /** `nodes["n00"]` of a record (lines 245-257). */
  function SubjectRecord(n0: map<string, Json>): Json
  {
    Obj(map[
      "Subject_Name" := Get(n0, "Name"),
      "Subject_Symbol" := Get(n0, "Symbol"),
      "Subject_Category" := Get(n0, "Category"),
      "Subject_attributes" := Obj(map[
        "Subject_NCBI_ID" := Get(n0, "NCBI_ID"),
        "Subject_MONDO_ID" := Get(n0, "MONDO_ID"),
        "Subject_Chembl_ID" := Get(n0, "Chembl_ID"),
        "Subject_Pubchem_ID" := Get(n0, "Pubchem_ID"),
        "Subject_Prefixes" := Get(n0, "Prefixes")])])
  }

  /** `edges["e00"]` of a record (lines 259-268). */
  function EdgeRecord(edgeType: Json, e0: map<string, Json>): Json
  {
    Obj(map[
      "Predicate" := edgeType,
      "Edge_attributes" := Obj(map[
        "Edge_attribute_publications" := Get(e0, "Publications"),
        "Edge_attribute_knowledge_source" := Get(e0, "Knowledge_Source"),
        "Edge_attribute_provided_by" := Get(e0, "Provided_by"),
        "Edge_attribute_FDA_approval_status" := Get(e0, "FDA_approval_status")])])
  }

  /** `nodes["n01"]` of a record (lines 270-283). */
  function ObjectRecord(n1: map<string, Json>): Json
  {
    Obj(map[
      "Object_Name" := Get(n1, "Name"),
      "Object_Symbol" := Get(n1, "Symbol"),
      "Object_Category" := Get(n1, "Category"),
      "Object_attributes" := Obj(map[
        "Object_NCBI_ID" := Get(n1, "NCBI_ID"),
        "Object_MONDO_ID" := Get(n1, "MONDO_ID"),
        "Object_Chembl_ID" := Get(n1, "Chembl_ID"),
        "Object_Pubchem_ID" := Get(n1, "Pubchem_ID"),
        "Object_Synonym" := Get(n1, "Synonym"),
        "Object_Prefixes" := Get(n1, "Prefixes")])])
  }

  /** The keys a record gives the listed properties of one side. */
  function RenamedKeys(side: string, fields: seq<string>): set<string>
  {
    set f | f in fields :: side + "_" + f
  }

  /** `record` stores each listed property `f` of `node` under `<side>_f`. */
  predicate Renames(record: Json, side: string, node: map<string, Json>, fields: seq<string>)
  {
    && record.Obj?
    && forall f | f in fields :: side + "_" + f in record.fields && record.fields[side + "_" + f] == Get(node, f)
  }

  lemma RenamedThree(side: string, a: string, b: string, c: string)
    ensures RenamedKeys(side, [a, b, c]) == {side + "_" + a, side + "_" + b, side + "_" + c}
  {
  }

  lemma RenamedFive(side: string, a: string, b: string, c: string, d: string, e: string)
    ensures RenamedKeys(side, [a, b, c, d, e])
         == {side + "_" + a, side + "_" + b, side + "_" + c, side + "_" + d, side + "_" + e}
  {
  }

  lemma RenamedSix(side: string, a: string, b: string, c: string, d: string, e: string, g: string)
    ensures RenamedKeys(side, [a, b, c, d, e, g])
         == {side + "_" + a, side + "_" + b, side + "_" + c, side + "_" + d, side + "_" + e, side + "_" + g}
  {
  }

  /** The subject record holds the subject's name, symbol and category under
      "Subject_" keys, and an attributes object; nothing else. */
  lemma SubjectRecordRenames(n0: map<string, Json>)
    ensures Renames(SubjectRecord(n0), "Subject", n0, NodeFields)
    ensures SubjectRecord(n0).fields.Keys == RenamedKeys("Subject", NodeFields) + {"Subject_attributes"}
  {
    assert "Subject" + "_" + "Name" == "Subject_Name";
    assert "Subject" + "_" + "Symbol" == "Subject_Symbol";
    assert "Subject" + "_" + "Category" == "Subject_Category";
    RenamedThree("Subject", "Name", "Symbol", "Category");
  }

  /** The subject's attributes object renames its identifiers and prefixes
      with "Subject_". */
  lemma SubjectAttributesRename(n0: map<string, Json>)
    ensures
      var attrs := SubjectRecord(n0).fields["Subject_attributes"];
      Renames(attrs, "Subject", n0, SubjectAttributeFields)
  {
    assert "Subject" + "_" + "NCBI_ID" == "Subject_NCBI_ID";
    assert "Subject" + "_" + "MONDO_ID" == "Subject_MONDO_ID";
    assert "Subject" + "_" + "Chembl_ID" == "Subject_Chembl_ID";
    assert "Subject" + "_" + "Pubchem_ID" == "Subject_Pubchem_ID";
    assert "Subject" + "_" + "Prefixes" == "Subject_Prefixes";
    var attrs := SubjectRecord(n0).fields["Subject_attributes"];
    forall f | f in SubjectAttributeFields
      ensures "Subject" + "_" + f in attrs.fields && attrs.fields["Subject" + "_" + f] == Get(n0, f)
    {
      if f == "NCBI_ID" {
      } else if f == "MONDO_ID" {
      } else if f == "Chembl_ID" {
      } else if f == "Pubchem_ID" {
      } else {
        assert f == "Prefixes";
      }
    }
  }

  /** The subject's attributes object holds nothing but the renamed fields, so
      no synonym: only the object side reports one. */
  lemma SubjectAttributeKeys(n0: map<string, Json>)
    ensures
      var attrs := SubjectRecord(n0).fields["Subject_attributes"];
      && attrs.Obj? && attrs.fields.Keys == RenamedKeys("Subject", SubjectAttributeFields)
      && "Subject_Synonym" !in attrs.fields
  {
    assert "Subject" + "_" + "NCBI_ID" == "Subject_NCBI_ID";
    assert "Subject" + "_" + "MONDO_ID" == "Subject_MONDO_ID";
    assert "Subject" + "_" + "Chembl_ID" == "Subject_Chembl_ID";
    assert "Subject" + "_" + "Pubchem_ID" == "Subject_Pubchem_ID";
    assert "Subject" + "_" + "Prefixes" == "Subject_Prefixes";
    RenamedFive("Subject", "NCBI_ID", "MONDO_ID", "Chembl_ID", "Pubchem_ID", "Prefixes");
  }

  /** The object record holds the object's name, symbol and category under
      "Object_" keys, and an attributes object; nothing else. */
  lemma ObjectRecordRenames(n1: map<string, Json>)
    ensures Renames(ObjectRecord(n1), "Object", n1, NodeFields)
    ensures ObjectRecord(n1).fields.Keys == RenamedKeys("Object", NodeFields) + {"Object_attributes"}
  {
    assert "Object" + "_" + "Name" == "Object_Name";
    assert "Object" + "_" + "Symbol" == "Object_Symbol";
    assert "Object" + "_" + "Category" == "Object_Category";
    RenamedThree("Object", "Name", "Symbol", "Category");
  }

  /** The object's attributes object renames its identifiers, synonym and
      prefixes with "Object_". */
  lemma ObjectAttributesRename(n1: map<string, Json>)
    ensures
      var attrs := ObjectRecord(n1).fields["Object_attributes"];
      Renames(attrs, "Object", n1, ObjectAttributeFields)
  {
    assert "Object" + "_" + "NCBI_ID" == "Object_NCBI_ID";
    assert "Object" + "_" + "MONDO_ID" == "Object_MONDO_ID";
    assert "Object" + "_" + "Chembl_ID" == "Object_Chembl_ID";
    assert "Object" + "_" + "Pubchem_ID" == "Object_Pubchem_ID";
    assert "Object" + "_" + "Synonym" == "Object_Synonym";
    assert "Object" + "_" + "Prefixes" == "Object_Prefixes";
    var attrs := ObjectRecord(n1).fields["Object_attributes"];
    forall f | f in ObjectAttributeFields
      ensures "Object" + "_" + f in attrs.fields && attrs.fields["Object" + "_" + f] == Get(n1, f)
    {
      if f == "NCBI_ID" {
      } else if f == "MONDO_ID" {
      } else if f == "Chembl_ID" {
      } else if f == "Pubchem_ID" {
      } else if f == "Synonym" {
      } else {
        assert f == "Prefixes";
      }
    }
  }

  /** The object's attributes object holds nothing but the renamed fields. */
  lemma ObjectAttributeKeys(n1: map<string, Json>)
    ensures
      var attrs := ObjectRecord(n1).fields["Object_attributes"];
      attrs.Obj? && attrs.fields.Keys == RenamedKeys("Object", ObjectAttributeFields)
  {
    assert "Object" + "_" + "NCBI_ID" == "Object_NCBI_ID";
    assert "Object" + "_" + "MONDO_ID" == "Object_MONDO_ID";
    assert "Object" + "_" + "Chembl_ID" == "Object_Chembl_ID";
    assert "Object" + "_" + "Pubchem_ID" == "Object_Pubchem_ID";
    assert "Object" + "_" + "Synonym" == "Object_Synonym";
    assert "Object" + "_" + "Prefixes" == "Object_Prefixes";
    RenamedSix("Object", "NCBI_ID", "MONDO_ID", "Chembl_ID", "Pubchem_ID", "Synonym", "Prefixes");
  }

  /** The keys a table of renames stores its properties under. */
  function StoredKeys(table: seq<(string, string)>): set<string>
  {
    set entry | entry in table :: entry.1
  }

  lemma StoredFour(a: (string, string), b: (string, string), c: (string, string), d: (string, string))
    ensures StoredKeys([a, b, c, d]) == {a.1, b.1, c.1, d.1}
  {
  }

  /** The edge record carries the relationship type as "Predicate" and stores
      each edge property under the key the rename table gives it. */
  lemma EdgeRecordRenames(edgeType: Json, e0: map<string, Json>)
    ensures EdgeRecord(edgeType, e0).Obj?
    ensures EdgeRecord(edgeType, e0).fields.Keys == {"Predicate", "Edge_attributes"}
    ensures EdgeRecord(edgeType, e0).fields["Predicate"] == edgeType
    ensures
      var attrs := EdgeRecord(edgeType, e0).fields["Edge_attributes"];
      && attrs.Obj?
      && forall entry | entry in EdgeAttributeKeys :: entry.1 in attrs.fields && attrs.fields[entry.1] == Get(e0, entry.0)
  {
  }

  /** The edge attributes hold nothing but the keys of the rename table. */
  lemma EdgeAttributeKeysOnly(edgeType: Json, e0: map<string, Json>)
    ensures
      var attrs := EdgeRecord(edgeType, e0).fields["Edge_attributes"];
      attrs.Obj? && attrs.fields.Keys == StoredKeys(EdgeAttributeKeys)
  {
    StoredFour(EdgeAttributeKeys[0], EdgeAttributeKeys[1], EdgeAttributeKeys[2], EdgeAttributeKeys[3]);
  }

  /** The response message built for one row (lines 222-283): it echoes the
      query, leaves "results" empty, and holds the edge and the two nodes. */
  function MapRow(jsonQuery: Query, row: Row): (r: ResultRecord)
    ensures r.query_graph == jsonQuery && r.results == map[]
    ensures r.knowledge_graph.Keys == {"edges", "nodes"}
  {
    ResultRecord(
      jsonQuery,
      map[],
      map[
        "edges" := Obj(map["e00" := EdgeRecord(row.edgeType, row.e00)]),
        "nodes" := Obj(map["n00" := SubjectRecord(row.n00), "n01" := ObjectRecord(row.n01)])])
  }

  /** The records of all rows, in the database's order. */
  function MapRows(jsonQuery: Query, rows: seq<Row>): seq<ResultRecord>
  {
    seq(|rows|, k requires 0 <= k < |rows| => MapRow(jsonQuery, rows[k]))
  }

  /** Mapping one row more appends its record to the mapped prefix. */
  lemma MapRowsSnoc(jsonQuery: Query, rows: seq<Row>, i: nat)
    requires i < |rows|
    ensures MapRows(jsonQuery, rows[..i + 1]) == MapRows(jsonQuery, rows[..i]) + [MapRow(jsonQuery, rows[i])]
  {
  }

  /** Records of the response list, in the order the inserts at index
      `len - 1` leave them: the record of the first row moves to the end,
      and every other record keeps the row order. The response holds exactly
      one record per row. */
  lemma ResponseOrder(jsonQuery: Query, rows: seq<Row>)
    ensures |RotateLeft(MapRows(jsonQuery, rows))| == |rows|
    ensures multiset(RotateLeft(MapRows(jsonQuery, rows))) == multiset(MapRows(jsonQuery, rows))
    ensures forall k | 0 <= k < |rows| - 1 :: RotateLeft(MapRows(jsonQuery, rows))[k] == MapRow(jsonQuery, rows[k + 1])
    ensures |rows| > 0 ==> RotateLeft(MapRows(jsonQuery, rows))[|rows| - 1] == MapRow(jsonQuery, rows[0])
  {
    var records := MapRows(jsonQuery, rows);
    RotateLeftPermutes(records);
    forall k | 0 <= k < |rows| - 1
      ensures RotateLeft(records)[k] == MapRow(jsonQuery, rows[k + 1])
    {
      RotateLeftAt(records, k);
    }
    if |rows| > 0 {
      RotateLeftAt(records, |rows| - 1);
    }
  }

  /** Every record of the response echoes the query it answers, has an empty
      "results" placeholder, and a knowledge graph made of "edges" and "nodes". */
  lemma RecordsEchoQuery(jsonQuery: Query, rows: seq<Row>)
    ensures forall record | record in RotateLeft(MapRows(jsonQuery, rows)) ::
              && record.query_graph == jsonQuery
              && record.results == map[]
              && record.knowledge_graph.Keys == {"edges", "nodes"}
  {
    var records := MapRows(jsonQuery, rows);
    RotateLeftPermutes(records);
    forall record | record in RotateLeft(records)
      ensures record.query_graph == jsonQuery && record.results == map[]
              && record.knowledge_graph.Keys == {"edges", "nodes"}
    {
      assert record in multiset(RotateLeft(records));
      assert record in records;
    }
  }

  /** query_KG (lines 192-289): sends the query text chosen from the five
      fragments to the database "neo4j" and collects one record per row,
      inserting each at index `len - 1` of the list built so far. */
  method QueryKG(jsonQuery: Query, db: (string, string) -> seq<Row>,
                 string1: string, string2: string, string3: string, string4: string, string5: string)
    returns (response: Response)
    ensures
      var rows := db(BuildQuery(string1, string2, string3, string4, string5), DatabaseName);
      && response.message == RotateLeft(MapRows(jsonQuery, rows))
      && |response.message| == |rows|
      && (|rows| > 0 ==> response.message[|rows| - 1] == MapRow(jsonQuery, rows[0]))
      && (forall k | 0 <= k < |rows| - 1 :: response.message[k] == MapRow(jsonQuery, rows[k + 1]))
  {
    var query := BuildQuery(string1, string2, string3, string4, string5);
    var rows := db(query, DatabaseName);
    var responseList: seq<ResultRecord> := [];
    var i := 0;
    while i < |rows|
      invariant 0 <= i <= |rows|
      invariant responseList == RotateLeft(MapRows(jsonQuery, rows[..i]))
    {
      var responseMessage := MapRow(jsonQuery, rows[i]);
      InsertBeforeLastRotates(MapRows(jsonQuery, rows[..i]), responseMessage);
      MapRowsSnoc(jsonQuery, rows, i);
      responseList := PyInsert(responseList, |responseList| - 1, responseMessage);
      i := i + 1;
    }
    assert rows[..i] == rows;
    ResponseOrder(jsonQuery, rows);
    response := Response(responseList);
  }
}
