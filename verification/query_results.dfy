/** Normalisation of the analytics API's query results into a table
    (columns, column types, rows, row count), and the pure steps of running a
    query: rewriting the query text, picking the result out of the response,
    and turning every failure into an empty result. */
module QueryResults {
  import opened JsValues
  import Text

  /** The column types the formatter reports: "number" and "string". */
  datatype ColumnType = NumberColumn | StringColumn

  /** An output row: a fresh object whose keys are the table's columns. */
  type Row = seq<(string, JValue)>

  datatype QueryResult = QueryResult(
    columns: seq<string>,
    columnTypes: seq<ColumnType>,
    data: seq<Row>,
    rowCount: nat,
    error: Option<JValue>)

  function RowKeys(row: Row): seq<string> {
    seq(|row|, i requires 0 <= i < |row| => row[i].0)
  }

  // ---------------------------------------------------------------------------
  // queryHasResults

  /** The result keys that count as holding rows. */
  const KnownKeys: seq<string> := ["transaction", "log", "account", "block", "object", "coin"]

  predicate IsNonEmptyArray(v: Option<JValue>) {
    v.Some? && v.value.JArr? && |v.value.items| > 0
  }

  /** `keys.some(key => Array.isArray(result[key]) && result[key].length > 0)` */
  function SomeKeyHasRows(result: JValue, keys: seq<string>): (b: bool)
    ensures b <==> exists i :: 0 <= i < |keys| && IsNonEmptyArray(Prop(result, keys[i]))
  {
    if keys == [] then false
    else
      var rest := SomeKeyHasRows(result, keys[1..]);
      assert forall i :: 1 <= i < |keys| ==> keys[i] == keys[1..][i - 1];
      IsNonEmptyArray(Prop(result, keys[0])) || rest
  }

  /** Whether an API payload holds any rows; `None` is `undefined`, and reading
      a key of null or undefined throws. */
  function QueryHasResults(result: Option<JValue>): (r: Outcome<bool>)
    ensures r.Threw? <==> result.None? || result == Some(JNull)
    ensures r.Threw? ==> r.error == TypeError
    ensures result.Some? && result.value.JArr? ==>
              (r == Returned(true) <==> |result.value.items| > 0)
    ensures result.Some? && !result.value.JArr? && !result.value.JNull? ==>
              (r == Returned(true) <==> exists k :: k in KnownKeys && IsNonEmptyArray(Prop(result.value, k)))
  {
    match result
    case None => Threw(TypeError)
    case Some(JNull) => Threw(TypeError)
    case Some(JArr(xs)) => Returned(|xs| > 0)
    case Some(v) =>
      var b := SomeKeyHasRows(v, KnownKeys);
      assert b <==> exists k :: k in KnownKeys && IsNonEmptyArray(Prop(v, k)) by {
        assert forall k :: k in KnownKeys <==> exists i :: 0 <= i < |KnownKeys| && KnownKeys[i] == k;
      }
      Returned(b)
  }

  lemma {:induction false} LookupSkipsOtherKey(pre: seq<(string, JValue)>, post: seq<(string, JValue)>, k: string, v: JValue, key: string)
    requires key != k
    ensures Lookup(pre + [(k, v)] + post, key) == Lookup(pre + post, key)
  {
    if pre == [] {
      assert pre + [(k, v)] + post == [(k, v)] + post && pre + post == post;
      assert ([(k, v)] + post)[1..] == post;
    } else {
      assert (pre + [(k, v)] + post)[1..] == pre[1..] + [(k, v)] + post;
      assert (pre + post)[1..] == pre[1..] + post;
      if pre[0].0 != key {
        LookupSkipsOtherKey(pre[1..], post, k, v, key);
      }
    }
  }

  /** A field under any key other than the six known ones, wherever it stands,
      does not change whether the payload has results. */
  lemma QueryHasResultsIgnoresOtherKeys(pre: seq<(string, JValue)>, post: seq<(string, JValue)>, k: string, v: JValue)
    requires k !in KnownKeys
    ensures QueryHasResults(Some(JObj(pre + [(k, v)] + post))) == QueryHasResults(Some(JObj(pre + post)))
  {
    forall key | key in KnownKeys
      ensures Prop(JObj(pre + [(k, v)] + post), key) == Prop(JObj(pre + post), key)
    {
      LookupSkipsOtherKey(pre, post, k, v, key);
    }
  }

  // ---------------------------------------------------------------------------
  // Combining the payload into one list of items

  /** What one field of an object payload adds to the dataset. */
  function Contribution(v: JValue): seq<JValue> {
    if v.JArr? && |v.items| > 0 then v.items else []
  }

  /** The array-valued fields' items, concatenated in key order. */
  function Flatten(fields: seq<(string, JValue)>): seq<JValue> {
    if fields == [] then []
    else Flatten(fields[..|fields| - 1]) + Contribution(fields[|fields| - 1].1)
  }

  /** The dataset `formatApiResultToQueryResult` builds: a flat array as it is,
      otherwise the concatenation over `Object.keys(result)`, which throws on
      null. A string's keys hold one-character strings, so it adds nothing. */
  function Combined(result: JValue): Outcome<seq<JValue>> {
    match result
    case JNull => Threw(TypeError)
    case JArr(xs) => Returned(xs)
    case JObj(fs) => Returned(Flatten(fs))
    case _ => Returned([])
  }

  method CombineResults(result: JValue) returns (all: Outcome<seq<JValue>>)
    ensures all == Combined(result)
  {
    if result.JArr? {
      return Returned(result.items);
    }
    if result.JNull? {
      return Threw(TypeError);
    }
    if !result.JObj? {
      return Returned([]);
    }
    var fields := result.fields;
    var acc: seq<JValue> := [];
    var i := 0;
    while i < |fields|
      invariant 0 <= i <= |fields|
      invariant acc == Flatten(fields[..i])
    {
      var v := fields[i].1;
      if v.JArr? && |v.items| > 0 {
        acc := acc + v.items;
      }
      assert fields[..i + 1][..i] == fields[..i];
      i := i + 1;
    }
    assert fields[..|fields|] == fields;
    return Returned(acc);
  }

  /** An item is in the combined dataset exactly when some field is an array holding it. */
  lemma {:induction false} FlattenMembers(fields: seq<(string, JValue)>, x: JValue)
    ensures x in Flatten(fields) <==> exists i :: 0 <= i < |fields| && fields[i].1.JArr? && x in fields[i].1.items
  {
    if fields != [] {
      var n := |fields| - 1;
      FlattenMembers(fields[..n], x);
      assert forall i :: 0 <= i < n ==> fields[..n][i] == fields[i];
    }
  }

  /** The combined dataset is as long as all array fields together. */
  lemma {:induction false} FlattenLength(fields: seq<(string, JValue)>)
    ensures |Flatten(fields)| == ArrayItemCount(fields)
  {
    if fields != [] {
      FlattenLength(fields[..|fields| - 1]);
    }
  }

  function ArrayItemCount(fields: seq<(string, JValue)>): nat {
    if fields == [] then 0
    else
      var v := fields[|fields| - 1].1;
      ArrayItemCount(fields[..|fields| - 1]) + (if v.JArr? then |v.items| else 0)
  }

  /** A payload that `queryHasResults` accepts gives the formatter at least one item. */
  lemma HasResultsGivesItems(result: JValue)
    requires QueryHasResults(Some(result)) == Returned(true)
    ensures Combined(result).Returned? && |Combined(result).value| > 0
  {
    if result.JObj? {
      var k :| k in KnownKeys && IsNonEmptyArray(Prop(result, k));
      var fs := result.fields;
      var i :| 0 <= i < |fs| && fs[i] == (k, Prop(result, k).value);
      FlattenMembers(fs, fs[i].1.items[0]);
    }
  }

  /** The converse fails: an array under an unknown key is combined into rows,
      but `queryHasResults` does not count it. */
  lemma UnknownKeyRowsAreNotResults()
    ensures var payload := JObj([("events", JArr([JNum(1.0)]))]);
            QueryHasResults(Some(payload)) == Returned(false) && Combined(payload) == Returned([JNum(1.0)])
  {
    var payload := JObj([("events", JArr([JNum(1.0)]))]);
    assert payload.fields[..0] == [];
    assert Flatten(payload.fields[..0]) == [];
    assert Contribution(payload.fields[0].1) == [JNum(1.0)];
    assert Flatten(payload.fields) == [JNum(1.0)];
    forall k | k in KnownKeys ensures Prop(payload, k) == None {
      assert k != "events";
    }
  }

  // ---------------------------------------------------------------------------
  // Column types and rows

  /** `columns.map(...)`: a column is numeric when the first item's value for it
      is a number or a one-element array holding a number. */
  function ColumnTypes(first: JValue, columns: seq<string>): (types: seq<ColumnType>)
    ensures |types| == |columns|
    ensures forall i :: 0 <= i < |columns| ==>
              (types[i] == NumberColumn <==>
                 var v := Prop(first, columns[i]);
                 v.Some? && (v.value.JNum? || (v.value.JArr? && |v.value.items| == 1 && v.value.items[0].JNum?)))
  {
    seq(|columns|, i requires 0 <= i < |columns| => TypeOfValue(Prop(first, columns[i])))
  }

  function TypeOfValue(v: Option<JValue>): ColumnType {
    match v
    case Some(JNum(_)) => NumberColumn
    case Some(JArr(xs)) => if |xs| == 1 && xs[0].JNum? then NumberColumn else StringColumn
    case _ => StringColumn
  }

  /** One cell: a one-element array is unwrapped, a missing value becomes null,
      anything else is kept. */
  function Cell(v: Option<JValue>): JValue {
    match v
    case None => JNull
    case Some(JArr(xs)) => if |xs| == 1 then xs[0] else JArr(xs)
    case Some(x) => x
  }

  function NormalizedRow(item: JValue, columns: seq<string>): Row {
    seq(|columns|, i requires 0 <= i < |columns| => (columns[i], Cell(Prop(item, columns[i]))))
  }

  /** Builds one output row by assigning each column in turn; reading a column
      of a null item throws. */
  method FormatRow(item: JValue, columns: seq<string>) returns (r: Outcome<Row>)
    ensures item.JNull? && |columns| > 0 ==> r == Threw(TypeError)
    ensures !(item.JNull? && |columns| > 0) ==> r == Returned(NormalizedRow(item, columns))
  {
    var row: Row := [];
    var i := 0;
    while i < |columns|
      invariant 0 <= i <= |columns|
      invariant |row| == i
      invariant item.JNull? ==> i == 0
      invariant forall j :: 0 <= j < i ==> row[j] == (columns[j], Cell(Prop(item, columns[j])))
    {
      if item.JNull? {
        return Threw(TypeError);
      }
      var col := columns[i];
      row := row + [(col, Cell(Prop(item, col)))];
      i := i + 1;
    }
    assert row == NormalizedRow(item, columns);
    return Returned(row);
  }

  /** `allData.map(...)`: every item becomes a row over the same columns. */
  method FormatRows(items: seq<JValue>, columns: seq<string>) returns (r: Outcome<seq<Row>>)
    ensures r.Threw? <==> |columns| > 0 && exists j :: 0 <= j < |items| && items[j].JNull?
    ensures r.Threw? ==> r.error == TypeError
    ensures r.Returned? ==>
              && |r.value| == |items|
              && forall j :: 0 <= j < |items| ==> r.value[j] == NormalizedRow(items[j], columns)
  {
    var rows: seq<Row> := [];
    var j := 0;
    while j < |items|
      invariant 0 <= j <= |items|
      invariant |rows| == j
      invariant forall m :: 0 <= m < j ==> rows[m] == NormalizedRow(items[m], columns)
      invariant |columns| > 0 ==> forall m :: 0 <= m < j ==> !items[m].JNull?
    {
      var row := FormatRow(items[j], columns);
      if row.Threw? {
        return Threw(row.error);
      }
      rows := rows + [row.value];
      j := j + 1;
    }
    return Returned(rows);
  }

  /** What `formatApiResultToQueryResult` returns or throws. */
  function Formatted(result: JValue): Outcome<QueryResult> {
    match Combined(result)
    case Threw(e) => Threw(e)
    case Returned(items) =>
      if items == [] then Returned(QueryResult([], [], [], 0, None))
      else if items[0].JNull? then Threw(TypeError)
      else
        var columns := OwnKeys(items[0]);
        if |columns| > 0 && exists j :: 0 <= j < |items| && items[j].JNull? then Threw(TypeError)
        else
          var data := seq(|items|, j requires 0 <= j < |items| => NormalizedRow(items[j], columns));
          Returned(QueryResult(columns, ColumnTypes(items[0], columns), data, |data|, None))
  }

  method FormatApiResultToQueryResult(result: JValue) returns (r: Outcome<QueryResult>)
    ensures r == Formatted(result)
  {
    var all := CombineResults(result);
    if all.Threw? {
      return Threw(all.error);
    }
    var items := all.value;
    if |items| == 0 {
      return Returned(QueryResult([], [], [], 0, None));
    }
    if items[0].JNull? {
      return Threw(TypeError);
    }
    var columns := OwnKeys(items[0]);
    var types := ColumnTypes(items[0], columns);
    var data := FormatRows(items, columns);
    if data.Threw? {
      return Threw(data.error);
    }
    assert data.value == seq(|items|, j requires 0 <= j < |items| => NormalizedRow(items[j], columns));
    return Returned(QueryResult(columns, types, data.value, |data.value|, None));
  }

  /** An empty dataset gives the empty table, with no error. */
  lemma FormattedEmpty(result: JValue)
    requires Combined(result) == Returned([])
    ensures Formatted(result) == Returned(QueryResult([], [], [], 0, None))
  {
  }

  /** The shape of a formatted table: one type per column, one row per item
      in order, every row keyed by exactly the first item's keys, and each cell
      the item's value unwrapped from a one-element array or null when missing. */
  lemma FormattedShape(result: JValue)
    requires Formatted(result).Returned?
    ensures var q := Formatted(result).value;
            var items := Combined(result).value;
            && |q.columnTypes| == |q.columns|
            && q.rowCount == |q.data| == |items|
            && q.error == None
            && (|items| > 0 ==> q.columns == OwnKeys(items[0]))
            && forall j :: 0 <= j < |q.data| ==>
                 && RowKeys(q.data[j]) == q.columns
                 && forall i :: 0 <= i < |q.columns| ==> q.data[j][i].1 == Cell(Prop(items[j], q.columns[i]))
  {
  }

  // ---------------------------------------------------------------------------
  // runQuery

  /** The characters the pattern `\s` matches. */
  predicate IsJsWhitespace(c: char) {
    || '\t' <= c <= '\r'
    || c == ' ' || c == '\U{00A0}' || c == '\U{1680}'
    || '\U{2000}' <= c <= '\U{200A}'
    || c == '\U{2028}' || c == '\U{2029}' || c == '\U{202F}' || c == '\U{205F}'
    || c == '\U{3000}' || c == '\U{FEFF}'
  }

  /** `query.replace(/\s/g, "+")` */
  function FormatQuery(query: string): (r: string)
    ensures |r| == |query|
    ensures forall i :: 0 <= i < |query| ==> r[i] == if IsJsWhitespace(query[i]) then '+' else query[i]
  {
    if query == [] then []
    else [if IsJsWhitespace(query[0]) then '+' else query[0]] + FormatQuery(query[1..])
  }

  /** No whitespace survives the rewrite, and rewriting again changes nothing. */
  lemma FormatQueryIdempotent(query: string)
    ensures forall i :: 0 <= i < |FormatQuery(query)| ==> !IsJsWhitespace(FormatQuery(query)[i])
    ensures FormatQuery(FormatQuery(query)) == FormatQuery(query)
  {
  }

  /** The request URL: the API URL, the execution type, and the rewritten
      query, which ends the URL and holds no whitespace. */
  function RequestUrl(apiUrl: string, executionType: string, query: string): (url: string)
    ensures |url| >= |apiUrl| && url[..|apiUrl|] == apiUrl
    ensures |url| >= |query| && url[|url| - |query|..] == FormatQuery(query)
    ensures forall i :: |url| - |query| <= i < |url| ==> !IsJsWhitespace(url[i])
  {
    var url := apiUrl + "type_param=" + executionType + "&query=" + FormatQuery(query);
    assert url[|url| - |query|..] == FormatQuery(query);
    FormatQueryIdempotent(query);
    url
  }

  /** `emptyResult(error)`: a table with no columns and no rows that carries
      the error. */
  function EmptyResult(error: JValue): (q: QueryResult)
    ensures q.columns == [] && q.columnTypes == [] && q.data == [] && q.rowCount == |q.data|
    ensures q.error == Some(error)
  {
    QueryResult([], [], [], 0, Some(error))
  }

  /** The formatter never reports an error, so no formatted table can be taken
      for an empty result. */
  lemma FormattedIsNeverEmptyResult(result: JValue, error: JValue)
    ensures Formatted(result) != Returned(EmptyResult(error))
  {
    if Formatted(result).Returned? {
      FormattedShape(result);
    }
  }

  /** What the transport delivers for a request: a rejection (an abort
      included), or a response with its Content-Type header, its text and what
      parsing that text as JSON gives. */
  datatype Response =
    | FetchFailed(error: Thrown)
    | Replied(contentType: Option<string>, text: string, json: Outcome<JValue>)

  /** The `catch` of runQuery: an abort is rethrown as "QueryAborted", any
      other failure becomes an empty result carrying its message. The engine's
      TypeError message is a parameter of the model. */
  function Caught(e: Thrown, typeErrorMessage: string): (r: Outcome<QueryResult>)
    ensures r.Threw? <==> IsAbort(e)
    ensures r.Threw? ==> r.error == JsError("Error", "QueryAborted")
    // an Error's message, the engine's TypeError text, or "Unknown fetch error" for anything else
    ensures e.JsError? && !IsAbort(e) ==> r == Returned(EmptyResult(JStr(e.message)))
    ensures e.TypeError? ==> r == Returned(EmptyResult(JStr(typeErrorMessage)))
    ensures e.NotAnError? ==> r == Returned(EmptyResult(JStr("Unknown fetch error")))
  {
    match e
    case JsError(name, message) =>
      if name == "AbortError" then Threw(JsError("Error", "QueryAborted"))
      else Returned(EmptyResult(JStr(message)))
    case TypeError => Returned(EmptyResult(JStr(typeErrorMessage)))
    case NotAnError => Returned(EmptyResult(JStr("Unknown fetch error")))
  }

  /** An `Error` whose name is "AbortError", as a fetch rejects with when its
      signal is aborted. */
  predicate IsAbort(e: Thrown) {
    e.JsError? && e.name == "AbortError"
  }

  function ShowHeader(h: Option<string>): string {
    if h.Some? then h.value else "null"
  }

  predicate IsJsonContentType(h: Option<string>) {
    h.Some? && Text.Contains(h.value, "application/json")
  }

  /** `v?.key` */
  function OptionalProp(v: Option<JValue>, key: string): Option<JValue> {
    if v.None? || v.value.JNull? then None else Prop(v.value, key)
  }

  /** `data[0]?.result?.indexed` for the "indexed" execution type and
      `data[0]?.result` otherwise; indexing a null or undefined `data` throws. */
  function SelectResult(data: Option<JValue>, executionType: string): (r: Outcome<Option<JValue>>)
    ensures r.Threw? <==> data.None? || data == Some(JNull)
    ensures data.Some? && data.value.JArr? && |data.value.items| > 0 && data.value.items[0].JObj? ==>
              var result := Lookup(data.value.items[0].fields, "result");
              r == Returned(if executionType == "indexed" then OptionalProp(result, "indexed") else result)
    ensures data.Some? && data.value.JArr? && |data.value.items| == 0 ==> r == Returned(None)
  {
    if data.None? || data.value.JNull? then Threw(TypeError)
    else
      var result := OptionalProp(Prop(data.value, "0"), "result");
      assert data.value.JArr? && |data.value.items| > 0 ==> ParseIndex("0") == Some(0) by {
        assert DigitsValue("0") == DigitsValue("") * 10 + 0;
      }
      Returned(if executionType == "indexed" then OptionalProp(result, "indexed") else result)
  }

  /** The request was aborted: the fetch, or reading the JSON body, rejected
      with an `AbortError`. */
  predicate Aborted(resp: Response) {
    || (resp.FetchFailed? && IsAbort(resp.error))
    || (resp.Replied? && IsJsonContentType(resp.contentType) && resp.json.Threw? && IsAbort(resp.json.error))
  }

  /** The reply's JSON body was read and is not null. */
  predicate JsonBody(resp: Response) {
    resp.Replied? && IsJsonContentType(resp.contentType) && resp.json.Returned? && !resp.json.value.JNull?
  }

  /** The body of runQuery once the transport has answered. */
  method RunQuery(apiUrl: string, query: string, executionType: string,
                  fetch: string -> Response, typeErrorMessage: string)
    returns (r: Outcome<QueryResult>)
    // Only an aborted request escapes, as "QueryAborted".
    ensures r.Threw? <==> Aborted(fetch(RequestUrl(apiUrl, executionType, query)))
    ensures r.Threw? ==> r.error == JsError("Error", "QueryAborted")
    // A failed transport, an unexpected content type, a body that is not JSON,
    // and a null body all go through the catch.
    ensures var resp := fetch(RequestUrl(apiUrl, executionType, query));
            resp.FetchFailed? ==> r == Caught(resp.error, typeErrorMessage)
    ensures var resp := fetch(RequestUrl(apiUrl, executionType, query));
            resp.Replied? && !IsJsonContentType(resp.contentType) ==>
              r == Returned(EmptyResult(JStr("Unexpected content type: " + ShowHeader(resp.contentType) + ". Body: " + resp.text)))
    ensures var resp := fetch(RequestUrl(apiUrl, executionType, query));
            resp.Replied? && IsJsonContentType(resp.contentType) && resp.json.Threw? ==>
              r == Caught(resp.json.error, typeErrorMessage)
    ensures var resp := fetch(RequestUrl(apiUrl, executionType, query));
            resp.Replied? && IsJsonContentType(resp.contentType) && resp.json == Returned(JNull) ==>
              r == Caught(TypeError, typeErrorMessage)
    // An error reported by the API gives an empty result carrying it.
    ensures var resp := fetch(RequestUrl(apiUrl, executionType, query));
            JsonBody(resp) && Truthy(Prop(resp.json.value, "error")) ==>
              r == Returned(EmptyResult(Prop(resp.json.value, "error").value))
    // A missing or null `data`, and a selected result that is undefined or
    // null (as for `data: []`), are read as objects and throw a TypeError.
    ensures var resp := fetch(RequestUrl(apiUrl, executionType, query));
            JsonBody(resp) && !Truthy(Prop(resp.json.value, "error")) ==>
              var selected := SelectResult(Prop(resp.json.value, "data"), executionType);
              (selected.Threw? || selected.value.None? || selected.value == Some(JNull)) ==>
                r == Caught(TypeError, typeErrorMessage)
    // Otherwise the selected result decides: no rows gives "No results", rows give the formatted table.
    ensures var resp := fetch(RequestUrl(apiUrl, executionType, query));
            JsonBody(resp) && !Truthy(Prop(resp.json.value, "error"))
            && SelectResult(Prop(resp.json.value, "data"), executionType).Returned? ==>
              var selected := SelectResult(Prop(resp.json.value, "data"), executionType).value;
              && (QueryHasResults(selected) == Returned(false) ==> r == Returned(EmptyResult(JStr("No results"))))
              && (QueryHasResults(selected) == Returned(true) ==>
                    r == match Formatted(selected.value)
                         case Returned(q) => Returned(q)
                         case Threw(e) => Caught(e, typeErrorMessage))
    // A successful table never comes with an error.
    ensures r.Returned? && r.value.error.None? ==> r.value.rowCount == |r.value.data|
  {
    var url := RequestUrl(apiUrl, executionType, query);
    var resp := fetch(url);
    if resp.FetchFailed? {
      return Caught(resp.error, typeErrorMessage);
    }
    if !IsJsonContentType(resp.contentType) {
      var message := "Unexpected content type: " + ShowHeader(resp.contentType) + ". Body: " + resp.text;
      return Caught(JsError("Error", message), typeErrorMessage);
    }
    if resp.json.Threw? {
      return Caught(resp.json.error, typeErrorMessage);
    }
    var body := resp.json.value;
    if body.JNull? {
      // destructuring null throws
      return Caught(TypeError, typeErrorMessage);
    }
    var data, error := Prop(body, "data"), Prop(body, "error");
    if Truthy(error) {
      return Returned(EmptyResult(error.value));
    }
    var selected := SelectResult(data, executionType);
    if selected.Threw? {
      return Caught(selected.error, typeErrorMessage);
    }
    var has := QueryHasResults(selected.value);
    if has.Threw? {
      return Caught(has.error, typeErrorMessage);
    }
    if !has.value {
      return Returned(EmptyResult(JStr("No results")));
    }
    var formatted := FormatApiResultToQueryResult(selected.value.value);
    if formatted.Threw? {
      return Caught(formatted.error, typeErrorMessage);
    }
    if formatted.value.error.None? {
      FormattedShape(selected.value.value);
    }
    return formatted;
  }
}
