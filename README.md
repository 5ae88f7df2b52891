# Relay global-id codec

A Dafny model of the global object identifier codec of GraphQL.Relay (the static class `Node`
in `src/GraphQL.Relay/Types/NodeGraphType.cs`) and of the id-field naming rule of
`NodeGraphType.Id(name, expression)`.

- `Node.ToGlobalId(name, id, scope)` in global scope builds the plaintext `"t:<name>:<id>"` and
  passes it through the bookmark encoder. In any other scope it returns the id's string form.
- `Node.FromGlobalId(globalId)` decodes the token and splits the plaintext on `':'`. It throws
  `ArgumentException` unless there are exactly three fields, and the message embeds the token.
  Otherwise it returns `GlobalId { Type = parts[1], Id = join(":", parts[2..]) }`.
- `NodeGraphType.Id(name, expression)` registers an optional local-id field. A name equal to
  "id" ignoring case is renamed to the camel-cased parent type name plus "Id", and that needs a
  parent name. The global "id" field resolves through `ToGlobalId` and defaults to global scope.

Files:
- `wrappers.dfy`: `Option` and `Result`. They stand for null strings and for thrown exceptions.
- `strings.dfy` (module `DotNetStrings`): .NET `String.Split(char)`, `String.Join`,
  `Char.IsWhiteSpace` and `String.IsNullOrWhiteSpace` on `seq<char>`. It also proves the
  split/join laws.
- `node.dfy` (module `Node`): the codec and its laws.
- `node_graph_type.dfy` (module `NodeGraphType`): the field-naming rule and the "id" field's
  scope default.

The bookmark encoder and decoder are not visible, so they are a parameter `b: Bookmark` that
holds two functions. The decoder returns `None` where it rejects its input. Laws that need the
decoder to undo the encoder require `Inverts(b)`. No axiom is assumed.

Two consequences of the code are worth stating, because a reader of the format might expect
otherwise:
- The check `parts.Length != 3` (line 42) runs before the `Skip(2)`/`Join` at line 46. So a
  plaintext with four or more fields is rejected, and the join only ever sees `parts[2]`. An id
  containing `':'` therefore does not round-trip (`Node.DelimiterRejected`,
  `Node.ExtraFieldRejected`).
- Encode checks nothing about the type name. An empty type name round-trips
  (`Node.EmptyTypeNameRoundTrip`). A `':'` in the type name makes the token undecodable, and two
  different pairs can then share one token (`Node.DelimiterInNameCollides`).

## Model

| member | source | states |
|---|---|---|
| `Node.Plaintext` | src/GraphQL.Relay/Types/NodeGraphType.cs:35 | The plaintext record of `"t:{0}:{1}"` is the join with ':' of the three fields: marker "t", type name and id. |
| `Node.ToGlobalId` | src/GraphQL.Relay/Types/NodeGraphType.cs:32-37 | In a non-global scope the result is exactly the id. In global scope it is the encoding of the three-field record of marker "t", type name and id, joined by ':'. |
| `Node.FromGlobalId` | src/GraphQL.Relay/Types/NodeGraphType.cs:39-48 | A decoder rejection fails with `DecodeFailure`. Otherwise it succeeds iff the split gives exactly 3 parts. On success the result is `(parts[1], parts[2])`. On failure it is `ArgumentException` with the message for the input. Returned fields never contain ':'. |
| `Node.MalformedMessage` | src/GraphQL.Relay/Types/NodeGraphType.cs:43 | The `ArgumentException` message contains the offending token verbatim. |
| `Node.RoundTrip` | src/GraphQL.Relay/Types/NodeGraphType.cs:32-48 | If the decoder inverts the encoder and the name and id are ':'-free, decoding a global token gives back exactly (name, id). |
| `Node.DelimiterRejected` | src/GraphQL.Relay/Types/NodeGraphType.cs:34-43 | A ':' in the name or the id makes decoding the global token throw `ArgumentException` naming the token. It is not rejoined. |
| `Node.RoundTripExactly` | src/GraphQL.Relay/Types/NodeGraphType.cs:32-48 | The round trip yields (name, id) if and only if neither contains ':'. |
| `Node.DecodedReencodes` | src/GraphQL.Relay/Types/NodeGraphType.cs:32-48 | Re-encoding whatever a token decodes to gives a token that decodes to the same `GlobalId`. |
| `Node.MarkerIgnored` | src/GraphQL.Relay/Types/NodeGraphType.cs:41-47 | Any plaintext `x:T:I` of ':'-free fields decodes to (T, I), whatever the marker x is. |
| `Node.EmptyTypeNameAccepted` | src/GraphQL.Relay/Types/NodeGraphType.cs:41-47 | The plaintext "t::42" decodes to type "" and id "42". |
| `Node.EmptyTypeNameRoundTrip` | src/GraphQL.Relay/Types/NodeGraphType.cs:32-47 | An empty type name is accepted on encode and comes back unchanged from decode. |
| `Node.ExtraFieldRejected` | src/GraphQL.Relay/Types/NodeGraphType.cs:41-46 | The plaintext "a:b:c:d" is rejected with `ArgumentException`, not rejoined into id "c:d". |
| `Node.SingleFieldRejected` | src/GraphQL.Relay/Types/NodeGraphType.cs:41-43 | The plaintext "onlyOnePart" is rejected with `ArgumentException`. |
| `Node.PlaintextInjective` | src/GraphQL.Relay/Types/NodeGraphType.cs:35 | Two plaintext records with ':'-free type names are equal only when names and ids are equal. |
| `Node.GlobalTokensInjective` | src/GraphQL.Relay/Types/NodeGraphType.cs:34-35 | If the decoder inverts the encoder, distinct pairs with ':'-free names never share a global token. The ids may contain ':'. |
| `Node.DelimiterInNameCollides` | src/GraphQL.Relay/Types/NodeGraphType.cs:35 | ("a:b", "c") and ("a", "b:c") produce the same global token. |
| `Node.LocalIgnoresEncoder` | src/GraphQL.Relay/Types/NodeGraphType.cs:34-36 | In local scope the id is returned whatever the encoder is. |
| `DotNetStrings.Split` | src/GraphQL.Relay/Types/NodeGraphType.cs:41 | `Split(':')` gives one more part than there are ':' in the string, and no part contains ':'. |
| `DotNetStrings.Join` | src/GraphQL.Relay/Types/NodeGraphType.cs:46 | `string.Join` gives "" for no parts and the part itself for one part. For one or more parts, the first part is a prefix of the result. |
| `DotNetStrings.SplitJoin` | src/GraphQL.Relay/Types/NodeGraphType.cs:41 | Splitting a join of one or more ':'-free parts gives back those parts. |
| `DotNetStrings.JoinSplit` | src/GraphQL.Relay/Types/NodeGraphType.cs:46 | Joining the parts of a split with ":" gives back the original string. |
| `DotNetStrings.IsWhiteSpace` | src/GraphQL.Relay/Types/NodeGraphType.cs:82 | `Char.IsWhiteSpace` holds exactly for U+0009..U+000D, U+0020, U+0085, U+00A0, U+1680, U+2000..U+200A, U+2028, U+2029, U+202F, U+205F and U+3000. |
| `DotNetStrings.IsNullOrWhiteSpace` | src/GraphQL.Relay/Types/NodeGraphType.cs:82 | `string.IsNullOrWhiteSpace` holds exactly for null and for strings whose every character is one of the white-space code points above, the empty string included. The same test is used at lines 87 and 129. |
| `NodeGraphType.ToLower` | src/GraphQL.Relay/Types/NodeGraphType.cs:85 | `ToLower` lower-cases ASCII only. It keeps the length, maps each capital A-Z to its small letter, keeps every other character, and leaves no capital A-Z behind. |
| `NodeGraphType.IdFieldNames` | src/GraphQL.Relay/Types/NodeGraphType.cs:82-130 | Throws `InvalidOperationException` iff the name is non-blank, equals "id" ignoring case and the parent name is blank. A blank name gives no local field and no related-field metadata. Any other name is kept for both. An "id" name becomes `ToCamelCase(parent + "Id")`. The metadata is set only when the final name is non-blank, and then equals it. |
| `NodeGraphType.IdNameSpellings` | src/GraphQL.Relay/Types/NodeGraphType.cs:85 | `name.ToLower() == "id"` holds exactly for "id", "Id", "iD" and "ID". |
| `NodeGraphType.ResolveIdField` | src/GraphQL.Relay/Types/NodeGraphType.cs:111-125 | The "id" field is `ToGlobalId` of the parent type name in global scope unless local scope is requested. Local scope gives the bare id. |
| `NodeGraphType.DefaultScopeRoundTrip` | src/GraphQL.Relay/Types/NodeGraphType.cs:111-125 | An "id" field resolved without a scope argument decodes back to (parent type name, id). |

## Left out

- `BookmarkEncode` / `BookmarkDecodeToString`: their bodies are not part of this model. They are the parameter `Bookmark`, and the round trip assumes `Inverts(b)`. The decoder's failure is a bare `DecodeFailure` with no message.
- `Node.FromGlobalId`: a null `globalId` is not modelled. What happens on null is decided inside the unseen `BookmarkDecodeToString`.
- `Node.ToGlobalId`: the id is an `object` in the source and appears here as its string form. A null id is not modelled: `id.ToString()` would throw in local scope, and formatting would give "" in global scope. A null type name is not modelled either. `ToFormat` is taken to substitute its arguments positionally, like `string.Format`.
- `NodeGraphType.ToLower`: only ASCII capitals are lower-cased, and every other character is kept. Non-ASCII case mappings and culture-specific mappings are not captured.
- `NodeGraphType.IdNameSpellings`: `ToLower` is modelled on ASCII letters only. Culture-specific case mappings are not captured, such as a Turkish-culture `"ID".ToLower()` giving a dotless i.
- `NodeGraphType.IdFieldNames`: `StringUtils.ToCamelCase` is a parameter because its body is not visible. Only the field names and the "RelayRelatedLocalIdField" metadata are modelled. The constant flags "RelayLocalIdField" and "RelayGlobalIdField", the description strings, the `format` / `typeFormat` arguments and `_IdRef.MakeIdStr` with its `IdFormat` / `IdTypeFormat` variants are not: they come from unseen libraries or are framework registration.
- The `Id(expression)` overload derives the name by expression reflection and swallows failures into a null name. Reflection is not modelled; the null name is the `None` input of `IdFieldNames`.
- `Node.For`, `GetById`, the `NodeGraphType` / `DefaultNodeGraphType` / `AsyncNodeGraphType` class hierarchy and `Interface<NodeInterface>()` are framework glue with no codec logic. Task-returning node types exist for I/O only.
- `src/GraphQL.Relay.StarWars/*`: hosting, dependency injection and schema wiring, not modelled.
- Type-name validation on encode (empty or ':'-containing names) is not modelled because the code performs none.
