/** Query_KG_all (KG1.py): parse the TRAPI query, then run the knowledge-graph
    query built from its fragments. */
module Pipeline {
  import opened KgTypes
  import opened PyList
  import PyText
  import Analyzer
  import Mapper

  /** The query text for a set of parsed fragments. */
  function QueryText(f: Analyzer.Fragments): string
  {
    Mapper.BuildQuery(f.subjectLabel, f.edgeType, f.objectLabel, f.subjectFilter, f.objectFilter)
  }

  /** The response for a query: the exception parse_query raises, or the
      rotated records of the rows the database returns for the query text. */
  function Answer(jsonQuery: Query, db: (string, string) -> seq<Row>): (r: Result<Response>)
    ensures r.Err? <==> Analyzer.Parse(jsonQuery).Err?
    ensures r.Err? ==> r.error == Analyzer.Parse(jsonQuery).error
    ensures r.Ok? ==>
              |r.value.message| == |db(QueryText(Analyzer.Parse(jsonQuery).value), Mapper.DatabaseName)|
  {
    var fragments :- Analyzer.Parse(jsonQuery);
    Ok(Response(RotateLeft(Mapper.MapRows(jsonQuery, db(QueryText(fragments), Mapper.DatabaseName)))))
  }

  /** Query_KG_all (lines 290-294). An exception of parse_query propagates
      unchanged and no query reaches the database; otherwise the response is
      query_KG's. */
  method QueryKGAll(jsonQuery: Query, db: (string, string) -> seq<Row>) returns (r: Result<Response>)
    ensures Analyzer.Parse(jsonQuery).Err? ==> r == Err(Analyzer.Parse(jsonQuery).error)
    ensures Analyzer.Parse(jsonQuery).Ok? ==>
              var rows := db(QueryText(Analyzer.Parse(jsonQuery).value), Mapper.DatabaseName);
              r == Ok(Response(RotateLeft(Mapper.MapRows(jsonQuery, rows))))
    ensures r.Ok? <==> Analyzer.WellFormed(jsonQuery)
    ensures r == Answer(jsonQuery, db)
  {
    Analyzer.ParseSucceedsIff(jsonQuery);
    var result := Analyzer.ParseQuery(jsonQuery);
    if result.Err? {
      return Err(result.error);
    }
    var f := result.value;
    var response := Mapper.QueryKG(jsonQuery, db, f.subjectLabel, f.edgeType, f.objectLabel,
                                   f.subjectFilter, f.objectFilter);
    r := Ok(response);
  }

  /** End to end, on a well-formed query the text sent to the database is the
      MATCH pattern of the categories and the upper-cased predicate, then
      WHERE and the filters of the nodes' last ids. */
  lemma WellFormedQueryText(q: Query)
    requires Analyzer.WellFormed(q)
    ensures
      var graph := q.message.query_graph;
      var e00 := graph.edges["e00"];
      var subjectNode, objectNode := graph.nodes[e00.subject], graph.nodes[e00.obj];
      var subjectFilter := Analyzer.ExpectedFilter("n00.", subjectNode.ids);
      var objectFilter := Analyzer.ExpectedFilter("n01.", objectNode.ids);
      QueryText(Analyzer.Parse(q).value)
        == Mapper.Lead(subjectFilter, objectFilter)
           + Mapper.MatchClause("n00:" + PyText.SecondField(subjectNode.categories[0], ':'),
                                "e00:" + PyText.Upper(PyText.SecondField(e00.predicates[0], ':')),
                                "n01:" + PyText.SecondField(objectNode.categories[0], ':'))
           + " WHERE " + Mapper.WhereCondition(subjectFilter, objectFilter) + Mapper.ReturnClause
  {
    Analyzer.ParseFragments(q);
    var f := Analyzer.Parse(q).value;
    Mapper.QueryTextShape(f.subjectLabel, f.edgeType, f.objectLabel, f.subjectFilter, f.objectFilter);
  }

  /** When neither node has ids, both filters are the sentinel and the query
      text still holds a WHERE clause, with the object's sentinel "n01.=" as
      its whole condition; the empty query of the source's last branch is
      never produced. */
  lemma NoIdsQueryText(q: Query)
    requires Analyzer.WellFormed(q)
    requires
      var graph := q.message.query_graph;
      graph.nodes[graph.edges["e00"].subject].ids.None? && graph.nodes[graph.edges["e00"].obj].ids.None?
    ensures
      var f := Analyzer.Parse(q).value;
      QueryText(f) == Mapper.MatchClause(f.subjectLabel, f.edgeType, f.objectLabel) + " WHERE n01.=" + Mapper.ReturnClause
  {
    Analyzer.ParseSucceedsIff(q);
    Analyzer.SentinelIffNoIds(q);
    var f := Analyzer.Parse(q).value;
    Mapper.SentinelsQueryText(f.subjectLabel, f.edgeType, f.objectLabel);
  }

  /** One record per database row whenever the query is well formed, with the
      first row's record last. */
  lemma AnswerRecords(q: Query, db: (string, string) -> seq<Row>)
    requires Analyzer.WellFormed(q)
    ensures
      var rows := db(QueryText(Analyzer.Parse(q).value), Mapper.DatabaseName);
      && Answer(q, db).Ok?
      && multiset(Answer(q, db).value.message) == multiset(Mapper.MapRows(q, rows))
      && (|rows| > 0 ==> Answer(q, db).value.message[|rows| - 1] == Mapper.MapRow(q, rows[0]))
  {
    Analyzer.ParseSucceedsIff(q);
    var rows := db(QueryText(Analyzer.Parse(q).value), Mapper.DatabaseName);
    Mapper.ResponseOrder(q, rows);
  }
}
