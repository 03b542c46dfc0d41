/** The request and response shapes of the knowledge-graph query service:
    the pydantic models of KG1.py as datatypes, the exceptions parse_query can
    raise, the rows the graph database returns and the nested records built
    from them. */
module KgTypes {

  datatype Option<+T> = None | Some(value: T)

  /** The Python exceptions the core raises; each failure records the source
      line of the statement that raised it. */
  datatype PyException = KeyError | IndexError | ValueError | TypeError

  datatype Failure = Raised(exception: PyException, line: nat)

  datatype Result<+T> = Ok(value: T) | Err(error: Failure) {
    predicate IsFailure() {
      Err?
    }

    function PropagateFailure<U>(): Result<U>
      requires Err?
    {
      Err(error)
    }

    function Extract(): T
      requires Ok?
    {
      value
    }
  }

  /** `d[key]`, raising KeyError at `line` when the key is missing. */
  function Lookup<V>(d: map<string, V>, key: string, line: nat): (r: Result<V>)
    ensures r.Ok? <==> key in d
    ensures r.Ok? ==> r.value == d[key]
    ensures r.Err? ==> r.error == Raised(KeyError, line)
  {
    if key in d then Ok(d[key]) else Err(Raised(KeyError, line))
  }

  /** EdgeParams: the keys of the subject and object nodes (`obj` stands for the
      Python field `object`), the predicates and the unused attributes. */
  datatype EdgeParams = EdgeParams(
    subject: string,
    obj: string,
    predicates: seq<string>,
    attributes: Option<map<string, string>>)

  /** NodeParams: categories such as "biolink:Drug" and optional ids such as
      "Symbol:BCL2". */
  datatype NodeParams = NodeParams(categories: seq<string>, ids: Option<seq<string>>)

  datatype QueryGraph = QueryGraph(edges: map<string, EdgeParams>, nodes: map<string, NodeParams>)

  datatype QueryMessage = QueryMessage(query_graph: QueryGraph)

  /** The whole request; it is echoed in every result record. */
  datatype Query = Query(message: QueryMessage)

  /** A value as it appears in a Python dict built from database properties;
      `Null` is Python's None. */
  datatype Json =
    | Null
    | Bool(b: bool)
    | Int(i: int)
    | Str(s: string)
    | Arr(items: seq<Json>)
    | Obj(fields: map<string, Json>)

  /** One row returned by the database: the property maps of the `n00`, `e00`
      and `n01` columns and the `type(e00)` column (`Null` when missing). */
  datatype Row = Row(
    n00: map<string, Json>,
    e00: map<string, Json>,
    n01: map<string, Json>,
    edgeType: Json)

  /** One entry of the response list: the echoed request, an always empty
      `results` dict and the `knowledge_graph` dict. */
  datatype ResultRecord = ResultRecord(
    query_graph: Query,
    results: map<string, Json>,
    knowledge_graph: map<string, Json>)

  /** The returned dict `{"message": response_list}`. */
  datatype Response = Response(message: seq<ResultRecord>)

  /** `d.get(key)`: the value under `key`, or None. */
  function Get(d: map<string, Json>, key: string): (r: Json)
    ensures key in d ==> r == d[key]
    ensures key !in d ==> r == Null
  {
    if key in d then d[key] else Null
  }
}
