/**
 * The vertex step builder of the `api` package: a vertex holds the ordered list of query
 * builders appended so far, each step method appends exactly one rendered Gremlin step,
 * and the query text is the in-order concatenation of the builders' texts.
 *
 * `Escape` and `multiParamQuery` belong to files outside this model; they are passed in as
 * function parameters so that the model commits to nothing about their output.
 */
module Api {
  import opened Wrappers
  import opened Format

  /** A query builder as the vertex holds it, with the text its `String()` gives. */
  datatype QueryBuilder =
    | Simple(text: string)  // NewSimpleQB: its format already applied to its arguments
    | Graph(text: string)   // the graph traversal a vertex is started from
    | Edge(text: string)    // the edge traversal a vertex is started from
  {
    function String(): string {
      text
    }
  }

  /** The in-order concatenation of the builders' texts. */
  function Concat(builders: seq<QueryBuilder>): string
    decreases |builders|
  {
    if builders == [] then "" else builders[0].String() + Concat(builders[1..])
  }

  /** Appending builders never rewrites the text already rendered: it only extends it. */
  lemma {:induction false} ConcatAppend(builders: seq<QueryBuilder>, more: seq<QueryBuilder>)
    ensures Concat(builders + more) == Concat(builders) + Concat(more)
  {
    if builders != [] {
      assert (builders + more)[1..] == builders[1..] + more;
      ConcatAppend(builders[1..], more);
    } else {
      assert builders + more == more;
    }
  }

  /**
   * The values `toKeyValueString` distinguishes. The parts rendered by code outside this
   * model are carried as the text that code produces.
   */
  datatype Value =
    | Str(s: string)
    | Bool(b: bool)
    | Integer(n: int)              // int, int16, int32, int64, uint, uint8, uint16, uint32, uint64
    | Float64(formatted: string)   // the value as `%f` formats it
    | Time(formatted: string)      // the value's own `String()` text
    | Other(cast: Option<string>)  // any other type (int8 among them): what `cast.ToStringE` gives, None when it fails

  datatype CastError = CastFailed

  /** `("key",value)`, the key quoted and never escaped. */
  function Pair(key: string, valueText: string): string {
    "(" + Quote(key) + "," + valueText + ")"
  }

  /**
   * toKeyValueString: strings, times and other values are quoted, booleans, integers and
   * floats are not; only strings and converted values go through `escape`.
   */
  function KeyValueString(key: string, value: Value, escape: string -> string): (r: Result<string, CastError>)
    ensures r.Err? <==> value == Other(None)
    ensures r.Ok? ==> |r.value| >= 4 && r.value[..2] == "(\"" && r.value[|r.value| - 1] == ')'
  {
    match value
    case Str(s) => Ok(Pair(key, Quote(escape(s))))
    case Bool(b) => Ok(Pair(key, BoolText(b)))
    case Integer(n) => Ok(Pair(key, Decimal(n)))
    case Float64(f) => Ok(Pair(key, f))
    case Time(t) => Ok(Pair(key, Quote(t)))
    case Other(None) => Err(CastFailed)
    case Other(Some(s)) => Ok(Pair(key, Quote(escape(s))))
  }

  /** How a value stands in a key/value pair: between quotes or as a bare literal. */
  datatype Token = Quoted(text: string) | Bare(text: string)

  function Classify(valueText: string): Token {
    if |valueText| >= 2 && valueText[0] == '"' && valueText[|valueText| - 1] == '"'
    then Quoted(valueText[1..|valueText| - 1])
    else Bare(valueText)
  }

  /** Reference reader for `("key",value)`: the key up to its closing quote, the value up to the final parenthesis. */
  function ParseKeyValue(s: string): Option<(string, Token)> {
    if |s| >= 2 && s[0] == '(' && s[|s| - 1] == ')' then
      match ParseQuoted(s[1..|s| - 1])
      case None => None
      case Some((key, rest)) =>
        if |rest| > 0 && rest[0] == ',' then Some((key, Classify(rest[1..]))) else None
    else None
  }

  /** Reads back a bare boolean or integer literal. */
  function DecodeLiteral(token: Token): Option<Value> {
    match token
    case Quoted(_) => None
    case Bare(t) =>
      if t == "true" then Some(Bool(true))
      else if t == "false" then Some(Bool(false))
      else match ParseDecimal(t)
        case Some(n) => Some(Integer(n))
        case None => None
  }

  lemma PairRoundTrip(key: string, valueText: string)
    requires '"' !in key
    ensures ParseKeyValue(Pair(key, valueText)) == Some((key, Classify(valueText)))
  {
    var s := Pair(key, valueText);
    assert s[1..|s| - 1] == Quote(key) + ("," + valueText);
    QuotedRoundTrip(key, "," + valueText);
    assert ("," + valueText)[1..] == valueText;
  }

  /**
   * A rendered pair reads back as the same key and a value that is quoted exactly for
   * strings, times and other types; bare booleans and integers decode to the value given.
   */
  lemma KeyValueRoundTrip(key: string, value: Value, escape: string -> string)
    requires '"' !in key
    requires value.Float64? ==> '"' !in value.formatted
    ensures KeyValueString(key, value, escape).Ok? ==>
      var parsed := ParseKeyValue(KeyValueString(key, value, escape).value);
      && parsed.Some? && parsed.value.0 == key
      && (parsed.value.1.Quoted? <==> value.Str? || value.Time? || value.Other?)
      && (value.Bool? || value.Integer? ==> DecodeLiteral(parsed.value.1) == Some(value))
      && (value.Str? ==> parsed.value.1.text == escape(value.s))
      && (value.Other? ==> parsed.value.1.text == escape(value.cast.value))
      && (value.Float64? || value.Time? ==> parsed.value.1.text == value.formatted)
  {
    match value
    case Str(s) => PairRoundTrip(key, Quote(escape(s)));
    case Bool(b) => PairRoundTrip(key, BoolText(b));
    case Integer(n) =>
      PairRoundTrip(key, Decimal(n));
      DecimalRoundTrip(n);
      var d := Decimal(n);
      assert d[0] == '-' || IsDigit(d[0]);
      assert d != "true" && d != "false";
    case Float64(f) =>
      PairRoundTrip(key, f);
      assert |f| > 0 ==> f[0] in f;
    case Time(t) => PairRoundTrip(key, Quote(t));
    case Other(c) =>
      if c.Some? {
        PairRoundTrip(key, Quote(escape(c.value)));
      }
  }

  /** The quoting loop of `Properties`: each key wrapped in double quotes, in order. */
  method QuoteKeys(keys: seq<string>) returns (quotedKeys: seq<string>)
    ensures |quotedKeys| == |keys|
    ensures forall i :: 0 <= i < |keys| ==> quotedKeys[i] == Quote(keys[i])
  {
    quotedKeys := [];
    for i := 0 to |keys|
      invariant |quotedKeys| == i
      invariant forall j :: 0 <= j < i ==> quotedKeys[j] == Quote(keys[j])
    {
      quotedKeys := quotedKeys + [Quote(keys[i])];
    }
  }

  /** A traversal under construction: the builders appended so far, oldest first. */
  class Vertex {
    var builders: seq<QueryBuilder>

    /** NewVertexG: a vertex whose only builder is the graph traversal it starts from. */
    constructor FromGraph(graph: string)
      ensures builders == [Graph(graph)]
      ensures Concat(builders) == graph
    {
      builders := [Graph(graph)];
    }

    /** NewVertexE: a vertex whose only builder is the edge traversal it starts from. */
    constructor FromEdge(edge: string)
      ensures builders == [Edge(edge)]
      ensures Concat(builders) == edge
    {
      builders := [Edge(edge)];
    }

    /** The query text: every builder's text, in the order the builders were added. */
    method String() returns (queryString: string)
      ensures queryString == Concat(builders)
      ensures builders == [] ==> queryString == ""
    {
      queryString := "";
      for i := 0 to |builders|
        invariant queryString == Concat(builders[..i])
      {
        ConcatAppend(builders[..i], [builders[i]]);
        assert builders[..i + 1] == builders[..i] + [builders[i]];
        queryString := queryString + builders[i].String();
      }
      assert builders[..|builders|] == builders;
    }

    /** Appends one builder and returns the same vertex; the rendered query grows by exactly its text. */
    method Add(builder: QueryBuilder) returns (v: Vertex)
      modifies this
      ensures v == this
      ensures builders == old(builders) + [builder]
      ensures Concat(builders) == Concat(old(builders)) + builder.String()
    {
      ConcatAppend(builders, [builder]);
      builders := builders + [builder];
      v := this;
    }

    method Limit(maxElements: int) returns (v: Vertex)
      modifies this
      ensures v == this
      ensures builders == old(builders) + [Simple(".limit(" + Decimal(maxElements) + ")")]
    {
      v := Add(Simple(".limit(" + Decimal(maxElements) + ")"));
    }

    method As(labels: seq<string>, multiParamQuery: (string, seq<string>) -> QueryBuilder) returns (v: Vertex)
      modifies this
      ensures v == this
      ensures builders == old(builders) + [multiParamQuery(".as", labels)]
    {
      v := Add(multiParamQuery(".as", labels));
    }

    /**
     * Without values: `.has("key")`. Otherwise `.has` and the first value's key/value pair;
     * later values are ignored. A value that cannot be converted leaves the vertex as it was.
     */
    method Has(key: string, values: seq<Value>, escape: string -> string) returns (r: Result<Vertex, CastError>)
      modifies this
      ensures |values| == 0 ==> r == Ok(this) && builders == old(builders) + [Simple(".has(" + Quote(key) + ")")]
      ensures |values| > 0 ==>
        match KeyValueString(key, values[0], escape)
        case Ok(keyVal) => r == Ok(this) && builders == old(builders) + [Simple(".has" + keyVal)]
        case Err(e) => r == Err(e) && builders == old(builders)
    {
      if |values| == 0 {
        var v := Add(Simple(".has(" + Quote(key) + ")"));
        return Ok(v);
      }
      match KeyValueString(key, values[0], escape)
      case Err(e) =>
        r := Err(e);
      case Ok(keyVal) =>
        var v := Add(Simple(".has" + keyVal));
        r := Ok(v);
    }

    method HasLabel(vertexLabels: seq<string>, multiParamQuery: (string, seq<string>) -> QueryBuilder) returns (v: Vertex)
      modifies this
      ensures v == this
      ensures builders == old(builders) + [multiParamQuery(".hasLabel", vertexLabels)]
    {
      v := Add(multiParamQuery(".hasLabel", vertexLabels));
    }

    method ValuesBy(propertyLabel: string) returns (v: Vertex)
      modifies this
      ensures v == this
      ensures builders == old(builders) + [Simple(".values(" + Quote(propertyLabel) + ")")]
    {
      v := Add(Simple(".values(" + Quote(propertyLabel) + ")"));
    }

    method Values() returns (v: Vertex)
      modifies this
      ensures v == this
      ensures builders == old(builders) + [Simple(".values()")]
    {
      v := Add(Simple(".values()"));
    }

    method ValueMap() returns (v: Vertex)
      modifies this
      ensures v == this
      ensures builders == old(builders) + [Simple(".valueMap()")]
    {
      v := Add(Simple(".valueMap()"));
    }

    /** `.properties()` for no keys, otherwise the keys quoted and joined by commas, in order. */
    method Properties(keys: seq<string>)
      modifies this
      ensures builders == old(builders) + [Simple(".properties(" + Join(QuoteAll(keys), ",") + ")")]
    {
      var query := Simple(".properties()");
      if |keys| > 0 {
        var quotedKeys := QuoteKeys(keys);
        assert quotedKeys == QuoteAll(keys);
        var keyList := Join(quotedKeys, ",");
        query := Simple(".properties(" + keyList + ")");
      } else {
        assert ".properties(" + Join(QuoteAll(keys), ",") + ")" == ".properties()";
      }
      var _ := Add(query);
    }

    method Id() returns (v: Vertex)
      modifies this
      ensures v == this
      ensures builders == old(builders) + [Simple(".id()")]
    {
      v := Add(Simple(".id()"));
    }

    method Drop() returns (v: Vertex)
      modifies this
      ensures v == this
      ensures builders == old(builders) + [Simple(".drop()")]
    {
      v := Add(Simple(".drop()"));
    }

    method AddE(edgeLabel: string)
      modifies this
      ensures builders == old(builders) + [Simple(".addE(" + Quote(edgeLabel) + ")")]
    {
      var _ := Add(Simple(".addE(" + Quote(edgeLabel) + ")"));
    }

    /** `.profile()` in the Gremlin dialect, `.executionProfile()` in the Cosmos DB dialect. */
    method Profile(cosmosDialect: bool) returns (v: Vertex)
      modifies this
      ensures v == this
      ensures builders == old(builders) + [Simple(if cosmosDialect then ".executionProfile()" else ".profile()")]
    {
      if !cosmosDialect {
        v := Add(Simple(".profile()"));
        return;
      }
      v := Add(Simple(".executionProfile()"));
    }

    method HasId(id: string) returns (v: Vertex)
      modifies this
      ensures v == this
      ensures builders == old(builders) + [Simple(".hasId(" + Quote(id) + ")")]
    {
      v := Add(Simple(".hasId(" + Quote(id) + ")"));
    }

    method OutE(labels: seq<string>, multiParamQuery: (string, seq<string>) -> QueryBuilder)
      modifies this
      ensures builders == old(builders) + [multiParamQuery(".outE", labels)]
    {
      var _ := Add(multiParamQuery(".outE", labels));
    }

    method InE(labels: seq<string>, multiParamQuery: (string, seq<string>) -> QueryBuilder)
      modifies this
      ensures builders == old(builders) + [multiParamQuery(".inE", labels)]
    {
      var _ := Add(multiParamQuery(".inE", labels));
    }

    method Count() returns (v: Vertex)
      modifies this
      ensures v == this
      ensures builders == old(builders) + [Simple(".count()")]
    {
      v := Add(Simple(".count()"));
    }

    /** `.property(list,"key","value")`: the value escaped, the key not. */
    method PropertyList(key: string, value: string, escape: string -> string) returns (v: Vertex)
      modifies this
      ensures v == this
      ensures builders == old(builders) + [Simple(".property(list," + Quote(key) + "," + Quote(escape(value)) + ")")]
    {
      v := Add(Simple(".property(list," + Quote(key) + "," + Quote(escape(value)) + ")"));
    }

    /** `.property` and the key/value pair; a value that cannot be converted leaves the vertex as it was. */
    method Property(key: string, value: Value, escape: string -> string) returns (r: Result<Vertex, CastError>)
      modifies this
      ensures match KeyValueString(key, value, escape)
        case Ok(keyVal) => r == Ok(this) && builders == old(builders) + [Simple(".property" + keyVal)]
        case Err(e) => r == Err(e) && builders == old(builders)
    {
      match KeyValueString(key, value, escape)
      case Err(e) =>
        r := Err(e);
      case Ok(keyVal) =>
        var v := Add(Simple(".property" + keyVal));
        r := Ok(v);
    }
  }
}
