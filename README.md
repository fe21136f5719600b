# gremcos vertex step builder, modelled in Dafny

This project models the vertex query-step builder of the gremcos Gremlin client (`api/vertex.go`).
A vertex holds an ordered list of query builders. It starts with the graph or edge traversal it
was created from. Each step method (`Has`, `Limit`, `Properties`, `Profile`, …) appends exactly one
rendered Gremlin step, such as `.has("name","hans")` or `.properties("a","b")`, through `Add`.
`String()` concatenates the builders' texts in order.

Files:
- `wrappers.dfy`: module `Wrappers` with `Option` and `Result`.
- `format.dfy`: module `Format`, the behaviour of Go's `fmt` and `strings` that the builder uses.
  It covers `%d`, `%t`, the `"%s"` quoting and `strings.Join`. Each rendering has a reference
  decoder and a lemma that the decoder reads the rendering back: `ParseDecimal`, `ParseBool` and
  `ParseQuoted` for the three formats, `Split` (Go's `strings.Split` for one separator character)
  for joins of parts that do not hold the separator, and `ParseQuotedList` for comma-joined lists
  of quoted texts.
- `api.dfy`: module `Api`. It holds the `QueryBuilder` and `Value` datatypes, `toKeyValueString`
  (as `KeyValueString`), the quoting loop of `Properties` and the class `Vertex`. The class has
  the field `builders: seq<QueryBuilder>` and one method per step.

Modelling choices:
- A builder is represented by the text its `String()` gives: `Simple` for the builders
  `NewSimpleQB` creates, and `Graph`/`Edge` for the traversal a vertex starts from.
- `Escape` and `multiParamQuery` are defined in files outside this model. The methods that use
  them take them as function parameters (`escape`, `multiParamQuery`), so the model fixes
  nothing about their output.
- The package-level Cosmos DB dialect flag that `Profile` reads is a parameter of `Profile`.
- Where `Has` and `Property` would panic on a failed conversion, the model returns `Err(CastFailed)`.
  The vertex is then left unchanged, since in the Go code the panic happens before `Add`.
- The type switch of `toKeyValueString` becomes the `Value` datatype. `int8` is not among the
  switch's integer cases, so an `int8` falls to the default branch and is an `Other` value.
- The doc comment of `HasId` shows the id in single quotes, but the code renders it in double
  quotes. The model follows the code.

## Model

| member | source | states |
|---|---|---|
| `Api.Vertex.String` | api/vertex.go:17-25 | the query text is the in-order concatenation of every builder's text; no builders give "" |
| `Api.ConcatAppend` | api/vertex.go:17-25 | concatenating two builder lists gives the text of the first followed by the text of the second, so appending never changes text already rendered |
| `Api.Vertex.FromGraph` | api/vertex.go:27-34 | `NewVertexG`: the builder list is exactly `[g]` and the query text is g's text |
| `Api.Vertex.FromEdge` | api/vertex.go:36-43 | `NewVertexE`: the builder list is exactly `[e]` and the query text is e's text |
| `Api.Vertex.Add` | api/vertex.go:56-61 | the list grows by one, the new builder is last, earlier builders are unchanged, the same vertex is returned, and the query text grows by exactly the builder's text |
| `Api.Vertex.Limit` | api/vertex.go:45-48 | appends `.limit(<decimal>)` |
| `Api.Vertex.As` | api/vertex.go:50-54 | appends what `multiParamQuery(".as", labels)` builds |
| `Api.Vertex.Has` | api/vertex.go:63-80 | no values: appends `.has("key")`; otherwise appends `.has` + the key/value pair of the first value and ignores the rest; a failed conversion returns an error and appends nothing |
| `Api.Vertex.HasLabel` | api/vertex.go:82-86 | appends what `multiParamQuery(".hasLabel", labels)` builds |
| `Api.Vertex.ValuesBy` | api/vertex.go:88-91 | appends `.values("label")` |
| `Api.Vertex.Values` | api/vertex.go:93-96 | appends `.values()` and nothing else |
| `Api.Vertex.ValueMap` | api/vertex.go:98-101 | appends `.valueMap()` and nothing else |
| `Api.Vertex.Properties` | api/vertex.go:103-119 | appends `.properties(` + the keys, each in double quotes, comma-joined with no spaces, in order + `)`; no keys gives `.properties()` |
| `Api.QuoteKeys` | api/vertex.go:107-112 | the loop yields one quoted key per key, in the same order |
| `Api.Vertex.Id` | api/vertex.go:121-124 | appends `.id()` and nothing else |
| `Api.Vertex.Drop` | api/vertex.go:126-129 | appends `.drop()` and nothing else |
| `Api.Vertex.AddE` | api/vertex.go:131-135 | appends `.addE("label")` |
| `Api.Vertex.Profile` | api/vertex.go:137-142 | appends `.profile()` when the Cosmos DB dialect is off and `.executionProfile()` when it is on |
| `Api.Vertex.HasId` | api/vertex.go:144-148 | appends `.hasId("id")` with the id in double quotes |
| `Api.Vertex.OutE` | api/vertex.go:150-155 | appends what `multiParamQuery(".outE", labels)` builds |
| `Api.Vertex.InE` | api/vertex.go:157-162 | appends what `multiParamQuery(".inE", labels)` builds |
| `Api.Vertex.Count` | api/vertex.go:164-167 | appends `.count()` and nothing else |
| `Api.Vertex.PropertyList` | api/vertex.go:169-172 | appends `.property(list,"key","Escape(value)")`: the value is escaped and the key is not |
| `Api.Vertex.Property` | api/vertex.go:174-183 | appends `.property` + the key/value pair; a failed conversion returns an error and appends nothing |
| `Api.KeyValueString` | api/vertex.go:185-209 | the conversion fails exactly when the default branch's string cast fails; every success has the shape `("…)` |
| `Api.PairRoundTrip` | api/vertex.go:186-188 | for a key without a double quote, `("key",value)` reads back as that key and that value text |
| `Api.KeyValueRoundTrip` | api/vertex.go:189-209 | a rendered pair reads back as the same, unescaped key; the value is quoted exactly for strings, times and other types, and unquoted for booleans, integers and floats; strings and converted values are escaped; bare booleans and integers decode to the value given |
| `Format.Digits` | api/vertex.go:196 | the digits of a natural number: non-empty, all decimal digits, no leading zero |
| `Format.DigitsRoundTrip` | api/vertex.go:196 | reading the digits back gives the number |
| `Format.Decimal` | api/vertex.go:196 | the `%d` text: a leading minus exactly for negative numbers, otherwise only digits |
| `Format.DecimalRoundTrip` | api/vertex.go:196 | the `%d` text parses back to the same integer |
| `Format.DecimalInjective` | api/vertex.go:47 | two integers give the same `%d` text exactly when they are equal |
| `Format.BoolText` | api/vertex.go:194 | `%t` gives `true` exactly for true and `false` otherwise |
| `Format.BoolRoundTrip` | api/vertex.go:194 | the `%t` text reads back as the same boolean |
| `Format.Quote` | api/vertex.go:110 | `"%s"` puts the text between two double quotes, unchanged |
| `Format.QuotedRoundTrip` | api/vertex.go:110 | a quoted text without inner quotes reads back whole, whatever follows it |
| `Format.Join` | api/vertex.go:112 | `strings.Join`: no parts give ""; otherwise the text starts with the first part |
| `Format.JoinSplitRoundTrip` | api/vertex.go:112 | joining a non-empty list of parts free of a one-character separator and splitting at that separator gives back exactly the parts, in order |
| `Format.QuoteAll` | api/vertex.go:108-112 | one quoted key per key, position by position |
| `Format.QuotedListCons` | api/vertex.go:110-112 | a quote-free key, quoted and followed by a comma, reads as that key in front of the list that follows |
| `Format.QuotedListRoundTrip` | api/vertex.go:107-114 | for keys without double quotes, the comma-joined quoted list reads back as exactly the given keys, in order |

## Left out

- `Escape` and `multiParamQuery` are defined in files that are not part of this model. They are function parameters, so no property depending on their output is stated.
- `NewEdgeV` and `NewPropertyV` are not part of this model. `AddE`, `OutE`, `InE` and `Properties` append their step but return nothing in place of the edge or property wrapper.
- The `%f` rendering of a `float64` is carried as text in `Float64`, because Go's floating-point formatting is not modelled.
- The `String()` of a `time.Time` is carried as text in `Time`, because Go's time formatting is not modelled.
- `cast.ToStringE` in the default branch is carried as its outcome in `Other`, because that conversion is foreign code.
- The message the default branch prints to standard output is left out, because it is I/O.
- The panic message built by `errors.Wrapf` is not modelled; the error result is the single value `CastFailed`.
- Api.Vertex.Property: the key is a string. The Go key is `interface{}`, and `%s` of a non-string key gives Go's `%!s(...)` text, which is not modelled.
- Api.KeyValueRoundTrip: requires a key without double quotes and a float text without double quotes, because the key is never escaped and a quote in it makes the rendered pair ambiguous.
- Graph and edge builders are held by pointer in Go, so a later change to them would show in the vertex's text. The model fixes their text when the vertex is created.
- Go's fixed-width integers for `Limit` and the integer cases: the model takes unbounded integers, because `%d` renders every value of every width the same way.
- The connection pool, connector, request correlator and health monitor are not part of this model; they are concurrent network code.
- `gremcos_test.go` and `examples/cosmos/main.go` need a live server, the environment and signals, and hold no builder logic.
