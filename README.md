# KG1 query translation, modelled in Dafny

KG1.py answers a one-edge TRAPI query against a Neo4j knowledge graph in three steps:

- `parse_query` reads the edge `e00` and its subject and object nodes. It produces five Cypher fragments:
  - the node labels `n00:<category>` and `n01:<category>`;
  - the relationship type `e00:<PREDICATE>`;
  - one property filter per node, `n00.<type>=<value>` and `n01.<type>=<value>`.
- `query_KG` picks one of three query templates from those fragments and sends the text to the database `neo4j`. It reshapes every returned row into a result record with renamed node and edge properties.
- `Query_KG_all` chains the two.

The model follows the code statement by statement. Every exception Python raises is a value `Err(Raised(<exception>, <line>))`:

- `KeyError` for a missing edge or node (lines 76, 110, 140);
- `IndexError` from `split(':')[1]` and `[0]` (lines 97, 119, 129, 149, 159);
- `ValueError` from `int()` (lines 134, 164);
- `TypeError` from concatenating an `int` onto a `str` (lines 173, 174).

Modules:

- `PyText`: the parts of Python's `str` that the parser relies on: `split`, `join`, `upper`, and the base-10 literals `int()` accepts: the white space `int()` skips (tab to carriage return, and space), an optional sign, digit groups joined by single underscores, and at most 4300 digits.
- `PyList`: `list.insert` with Python's index clamping, and the left rotation it produces.
- `KgTypes`: the pydantic models, the JSON values of result records, the database rows, and the Python exceptions.
- `Analyzer`: `parse_query`. It is a function `Parse`. A method `ParseQuery` runs the `for id in ids` loop as a loop (`ScanIds`) and is proved equal to it.
- `Mapper`: `query_KG`. The query templates are `BuildQuery`, the record built for one row is `MapRow`, and the collecting loop is the method `QueryKG`.
- `Pipeline`: `Query_KG_all`.
- `Scenarios`: worked queries, including the drug–gene example in the comment at lines 181-184.

The database is a parameter `db: (string, string) -> seq<Row>`. It maps the query text and the database name to the rows returned.

Where the code does something other than its comments and names suggest, the model follows the code:

- **Only the last id is used, but every id must contain `':'`.** The id loop splits every id and keeps the last one's fields. An earlier id without `':'` still raises `IndexError` (`Analyzer.IdWithoutColonRaises`, `Analyzer.OnlyLastIdCounts`).
- **An id whose type is not `Symbol` or `Name` never yields a filter.**
  - If the value is not an integer literal, `int()` raises `ValueError` (line 134 for the subject, 164 for the object).
  - If it is one, `int()` succeeds. For the object, the concatenation at line 174 then raises `TypeError`. For the subject, the object block runs first. If it raises (`KeyError` at 140, `IndexError` at 149 or 159, `ValueError` at 164), that exception propagates. If it completes, with a text or an int, the concatenation at line 173 raises `TypeError` (`Scenarios.TwoNcbiIdsRaiseAtSubject`).
  - An empty `ids` list reaches `int('')` and raises `ValueError`.
  - `int()` skips less white space than `str.isspace`: a value that starts with the separator U+001C raises `ValueError` (`Scenarios.PaddedNcbiIdRaisesValueError`).
  - So there is no `n00.<type>_ID=<int>` filter (`Analyzer.NumericSubjectIdRaises`, `Analyzer.NumericObjectIdRaises`, `Scenarios.NcbiIdRaisesTypeError`).
- **Filter values are not quoted.** The example in the comment at line 183 shows `n00.Name="PACLITAXEL"`. The code builds `n00.Name=PACLITAXEL`.
- **A query without ids still has a WHERE clause.** When neither node has ids, both filters are the sentinels `n00.=` and `n01.=`. The second template is then chosen, so the query ends `WHERE n01.= RETURN ...`. The empty-query branch at lines 209-211 is unreachable (`Pipeline.NoIdsQueryText`, `Mapper.BuildQuery`).
- **Records are rotated, not appended.**
  - `insert(len(list) - 1, x)` puts each record before the last one. On an empty list it puts the record at index 0.
  - The response therefore lists the records of rows 2, 3, …, n, then the record of row 1.
  - No record is lost (`Mapper.ResponseOrder`, `PyList.InsertBeforeLastRotates`).
- **Some keys differ from what one might expect:**
  - Edge attributes are stored under lower-case-suffixed keys such as `Edge_attribute_publications`.
  - Only the object record has a synonym.
  - Each record echoes the whole query object, not just its query graph.

## Model

| member | source | states |
|---|---|---|
| PyText.Split | KG1.py:97 | `s.split(sep)` has at least one piece, and has a second piece exactly when `sep` occurs in `s` |
| PyText.JoinSplit | KG1.py:97 | joining the pieces of `s.split(sep)` with `sep` gives back `s` |
| PyText.SplitJoin | KG1.py:97 | splitting the join of non-empty-list, separator-free pieces gives back the pieces |
| PyText.SplitPiecesLackSeparator | KG1.py:128-129 | no piece of a split contains the separator |
| PyText.SplitFields | KG1.py:128-129 | `split(sep)[0]` is the text before the first separator and `split(sep)[1]` the text between the first and second |
| PyText.FieldsOfJoined | KG1.py:119 | for `a + sep + b` with `a` separator-free, the first field is `a` and the second is the part of `b` before its first separator |
| PyText.FieldsOfPair | KG1.py:119 | for `a + sep + b` with neither part holding the separator, the fields are exactly `a` and `b` |
| PyText.Upper | KG1.py:137 | `upper()` keeps the length, turns each lower-case letter into its upper-case letter and keeps every other character |
| PyText.UpperIsUpper | KG1.py:97 | `upper()` leaves no lower-case letter and is idempotent |
| PyText.UpperKeepsNonLower | KG1.py:137 | text without lower-case letters is unchanged by `upper()` |
| PyText.TrimStart | KG1.py:134 | the leading white space `int()` skips (tab to carriage return, and space) is removed, leaving a suffix that is empty or starts with a non-space |
| PyText.TrimEnd | KG1.py:134 | the trailing white space `int()` skips (tab to carriage return, and space) is removed, leaving a prefix that is empty or ends with a non-space |
| PyText.TrimStartSkips | KG1.py:134 | white space in front of a text that starts with a non-space is exactly what is skipped |
| PyText.TrimEndSkips | KG1.py:134 | white space after a text that ends with a non-space is exactly what is skipped |
| PyText.IntLiteralParts | KG1.py:134 | every text `int()` accepts is white space, an optional `+` or `-`, underscore-joined digit groups of at most 4300 digits, white space |
| PyText.IntLiteralFromParts | KG1.py:134 | conversely `int()` accepts every text of that form |
| PyText.ShortDigitStringAccepted | KG1.py:134 | `int()` accepts a non-empty digit string of at most 4300 digits |
| PyText.LongDigitStringRejected | KG1.py:134 | `int()` rejects a digit string of more than 4300 digits |
| PyList.InsertPosition | KG1.py:285 | the position `list.insert(i, x)` uses: `i` inside the list, `len + i` for a negative `i` in range, clamped to 0 or `len` outside |
| PyList.PyInsert | KG1.py:285 | `list.insert(i, x)` adds one element: `x` at the clamped position, the elements before it unchanged, those after it moved up by one |
| PyList.PyInsertAddsOne | KG1.py:285 | an insert adds exactly the element to the multiset of elements |
| PyList.RotateLeft | KG1.py:285 | the rotation keeps the length, moves the first element to the end and every other element one place forward |
| PyList.RotateLeftPermutes | KG1.py:285 | the rotation keeps length and multiset of elements |
| PyList.RotateLeftAt | KG1.py:285 | element `k` of the rotation is input element `k + 1`, and the last is input element 0 |
| PyList.InsertBeforeLastRotates | KG1.py:285 | inserting at `len - 1` into the rotation of `s` gives the rotation of `s + [x]`, the step of the collecting loop |
| KgTypes.Get | KG1.py:246-281 | `d.get(key)` is the stored value when the key is present and `None` otherwise |
| KgTypes.Lookup | KG1.py:76 | dictionary indexing gives the stored value exactly when the key is present, else `KeyError` at that line |
| Analyzer.SecondSegmentOfFirst | KG1.py:119 | `xs[0].split(':')[1]` succeeds exactly when `xs[0]` exists and holds a `':'`, giving the text between the first and second `':'`, else `IndexError` at that line |
| Analyzer.PredicateType | KG1.py:97 | the predicate type succeeds exactly when the first predicate exists and holds a `':'`, and is the upper-cased second field, else `IndexError` at 97 |
| Analyzer.LastIdParts | KG1.py:126-129 | the id loop raises `IndexError` at the loop exactly when some id lacks `':'`; otherwise it leaves the two first fields of the last id, or empty strings for no ids |
| Analyzer.Classify | KG1.py:131-137 | `Symbol` and `Name` give a text value, any other type goes through `int()`, which raises `ValueError` exactly when the value is not an integer literal |
| Analyzer.NodeFilter | KG1.py:121-137 | a node's ids fail only with `IndexError` at the loop or `ValueError` at `int()` |
| Analyzer.FilterFragment | KG1.py:173-174 | the concatenation succeeds exactly on a text value, giving the prefix followed by more text, else `TypeError` at that line |
| Analyzer.ParseNode | KG1.py:110-137 | a node block fails only with `KeyError` for the node, `IndexError` at the category or the loop, or `ValueError` at `int()` |
| Analyzer.Parse | KG1.py:63-190 | every exception parse_query raises is one of the twelve listed above, at its line |
| Analyzer.ScanIds | KG1.py:126-129 | the id loop: `IndexError` when any id lacks `':'`, otherwise the two first fields of the last id, or empty strings for no ids |
| Analyzer.ReadNode | KG1.py:110-137 | a node block: `KeyError` for an unknown node, `IndexError` for a bad category, then the classified property of the ids |
| Analyzer.ParseQuery | KG1.py:63-190 | parse_query as it runs, equal to `Parse`, whose properties the lemmas below state |
| Analyzer.NodeFilterText | KG1.py:121-137 | a node's ids give a text filter exactly when they are accepted, and the filter is the last id's type `=` its upper-cased value |
| Analyzer.ParseNodeAccepted | KG1.py:110-137 | a node block yields a text filter exactly when the node exists and is accepted, with the category name and that filter |
| Analyzer.ParseSucceedsIff | KG1.py:63-190 | parse_query returns exactly on well-formed queries: `e00` present, predicate and categories with a `':'`, nodes present, ids accepted |
| Analyzer.ParseFragments | KG1.py:170-174 | on a well-formed query the five fragments are the category names, the upper-cased predicate name and the last ids' filters |
| Analyzer.SentinelIffNoIds | KG1.py:122 | after a successful parse a filter is the sentinel `n0x.=` exactly when its node has no ids |
| Analyzer.OnlyLastIdCounts | KG1.py:126-129 | earlier ids containing `':'` do not change the node's filter |
| Analyzer.IdWithoutColonRaises | KG1.py:129 | an id without `':'` anywhere in the list makes the node raise `IndexError` at the loop |
| Analyzer.NumericNodeFilter | KG1.py:132-134 | a type other than Symbol/Name becomes `type_ID` with an int when `int()` accepts the value, else `ValueError` |
| Analyzer.NumericSubjectIdRaises | KG1.py:132-173 | a subject id of another type never parses: `ValueError` at 134 for a non-integer value; for an integer one, the object block's exception when it raises, else `TypeError` at 173 |
| Analyzer.NumericNodeBlock | KG1.py:140-164 | a node block whose ids take the numeric branch completes with an int when `int()` accepts the value, else raises `ValueError` at the `int()` line |
| Analyzer.NumericObjectIdRaises | KG1.py:162-174 | once the subject is accepted, an object id of another type never parses: `ValueError` at 164 for a non-integer value, `TypeError` at 174 for an integer one |
| Mapper.BuildQuery | KG1.py:194-211 | the query text is never empty: the else branch producing `''` cannot be reached |
| Mapper.SentinelsQueryText | KG1.py:199-201 | with both filters the sentinel, the second template is chosen and its condition is `n01.=` |
| Mapper.QueryTextShape | KG1.py:194-207 | every query text is MATCH pattern, WHERE, the non-sentinel filters joined by AND (the object's when both are sentinels), RETURN; it starts with a space exactly when both filters are real |
| Mapper.QueryMentionsFragments | KG1.py:194-207 | the three labels, " WHERE " and every non-sentinel filter occur in the query text |
| Mapper.SubjectRecordRenames | KG1.py:245-250 | the subject record holds Name, Symbol and Category as `Subject_<field>` plus `Subject_attributes`, and nothing else |
| Mapper.SubjectAttributesRename | KG1.py:251-256 | the subject attributes hold each id field and Prefixes as `Subject_<field>` |
| Mapper.SubjectAttributeKeys | KG1.py:251-256 | the subject attributes hold nothing but the renamed fields, so no synonym |
| Mapper.ObjectRecordRenames | KG1.py:270-274 | the object record holds Name, Symbol and Category as `Object_<field>` plus `Object_attributes`, and nothing else |
| Mapper.ObjectAttributesRename | KG1.py:275-281 | the object attributes hold each id field, Synonym and Prefixes as `Object_<field>` |
| Mapper.ObjectAttributeKeys | KG1.py:275-281 | the object attributes hold nothing but the renamed fields |
| Mapper.EdgeRecordRenames | KG1.py:259-268 | the edge record holds just `Predicate`, the relationship type, and `Edge_attributes`, with each edge property under its `Edge_attribute_*` key |
| Mapper.EdgeAttributeKeysOnly | KG1.py:261-267 | the edge attributes hold nothing but the four `Edge_attribute_*` keys |
| Mapper.MapRow | KG1.py:222-283 | the record for a row echoes the query, has empty results and a knowledge graph of just `edges` and `nodes` |
| Mapper.MapRowsSnoc | KG1.py:220-285 | mapping one more row appends its record |
| Mapper.ResponseOrder | KG1.py:217-285 | the response has one record per row, the same multiset of records, rows 2..n in order, then row 1 |
| Mapper.RecordsEchoQuery | KG1.py:222-233 | every record echoes the query, has empty results, and a knowledge graph of `edges` and `nodes` |
| Mapper.QueryKG | KG1.py:192-289 | query_KG as it runs: the rows for the chosen query text on `neo4j`, mapped and rotated; one record per row, the first row's last |
| Pipeline.Answer | KG1.py:290-294 | the response fails exactly when parsing does, with the same exception, and otherwise holds one record per returned row |
| Pipeline.QueryKGAll | KG1.py:290-294 | a parse exception propagates and no query runs; otherwise query_KG's response; it succeeds exactly on well-formed queries |
| Pipeline.WellFormedQueryText | KG1.py:170-207 | on a well-formed query the text sent is the MATCH pattern of the categories and upper-cased predicate, WHERE, and the last ids' filters |
| Pipeline.NoIdsQueryText | KG1.py:197-201 | with no ids on either node the text is the MATCH pattern, `WHERE n01.=`, and the RETURN clause |
| Pipeline.AnswerRecords | KG1.py:290-294 | on a well-formed query the response holds the records of all rows, the first row's last |
| Scenarios.SingleIdNode | KG1.py:121-137 | a single id of type Symbol or Name is accepted |
| Scenarios.SingleEdgeFragments | KG1.py:170-174 | a one-edge query with text ids parses to the labels and the two `type=VALUE` filters |
| Scenarios.SingleIdBlockCompletes | KG1.py:140-167 | a one-id node with a text type, or with a value `int()` accepts, completes its block |
| Scenarios.NumericSubjectTypeError | KG1.py:132-173 | a one-edge query whose subject id is numeric raises `TypeError` at 173, whether the object's id gives a text or an int |
| Scenarios.NumericSubjectValueError | KG1.py:132-134 | a one-edge query whose subject id has another type and a non-integer value raises `ValueError` at 134 |
| Scenarios.DrugTargetsGene | KG1.py:181-184 | Drug `Name:PACLITAXEL` TARGETS Gene `Symbol:BCL2` gives `n00:Drug`, `e00:TARGETS`, `n01:Gene`, `n00.Name=PACLITAXEL`, `n01.Symbol=BCL2` |
| Scenarios.NcbiIdRaisesTypeError | KG1.py:132-173 | a subject id `NCBI:1234` raises `TypeError` at line 173 instead of giving a filter |
| Scenarios.SeparatorIsNotIntSpace | KG1.py:134 | `int()` rejects a value that starts with U+001C, which `str.isspace` counts as white space |
| Scenarios.TwoNcbiIdsRaiseAtSubject | KG1.py:162-173 | with ids `NCBI:1234` and `NCBI:5678` the object block completes with an int and line 173 raises `TypeError` |
| Scenarios.PaddedNcbiIdRaisesValueError | KG1.py:134 | a subject id `NCBI:` followed by U+001C and `1234` raises `ValueError` at line 134 |

## Left out

- `db_connect` (lines 8-26), the Neo4j driver session, is replaced by the `db` parameter.
  - When `session.run` fails, the code prints the error and then returns the unbound `response`, which raises `UnboundLocalError`.
  - Neither the printed message nor that exception is modelled.
- Pydantic validation of the input models (lines 27-60) is taken as given: the `Query` datatype only holds values of the declared shapes.
- Rows are records with `n00`, `e00` and `n01` property maps and a relationship type. A row missing one of these, which makes `dict(None)` raise `TypeError` at lines 238-240, is not modelled.
- Neo4j values are represented by a small JSON datatype. The driver's own node and relationship types are not modelled.
- `Upper`, `IsIntSpace` and the digits of `IsPyIntLiteral` cover ASCII only. Python's Unicode case mapping, non-ASCII white space and non-ASCII digits, which `int()` also accepts, are not modelled.
- PyText.IsPyIntLiteral: the digit limit is CPython's default of 4300, present since the 2022 security releases (3.7.14, 3.8.14, 3.9.14, 3.10.7) and in 3.11. A limit changed with `sys.set_int_max_str_digits`, or the absence of a limit in earlier releases, is not modelled.
- Analyzer.NumericNodeFilter: the value `int()` returns is not kept, only that it returned an int. No later step uses the number: the concatenation raises before the number is used.
- The edge `attributes` field is carried but never read, as in the code. The commented-out code at lines 98-108 is not modelled.
- What the Cypher text means to the database is not modelled. Only the text and the rows returned for it are.

