/**
  The Relay global-id codec of the static class `Node`.

  A global id is the plaintext record "t:<type name>:<id>" passed through an opaque, reversible
  string encoder (the "bookmark" encoding). The encoder and its inverse live outside this
  code, so they are a parameter here: a `Bookmark` holds the two functions, and the laws below
  that need the decoder to invert the encoder say so with `Inverts(b)`.
 */
module Node {
  import opened Wrappers
  import opened DotNetStrings

  /** The decoded form of a global id: the node's type name and its local id. */
  datatype GlobalId = GlobalId(Type: string, Id: string)

  /** The scope a node's id is requested in. */
  datatype IdScope = Global | Local

  /**
    The reversible character encoding behind `BookmarkEncode` and `BookmarkDecodeToString`;
    `decode` yields `None` where the decoder rejects its input.
   */
  datatype Bookmark = Bookmark(encode: string -> string, decode: string -> Option<string>)

  /** The decoder recovers every plaintext the encoder was given. */
  ghost predicate Inverts(b: Bookmark)
  {
    forall s :: b.decode(b.encode(s)) == Some(s)
  }

  /** Why `FromGlobalId` fails: the decoder rejected the token, or the plaintext is not three fields. */
  datatype NodeError =
    | DecodeFailure
    | ArgumentException(message: string)

  /** The fixed marker that opens every global-id plaintext. */
  const Marker: string := "t"

  /** The field delimiter of the plaintext record. */
  const Delimiter: char := ':'

  /** `s` occurs in `m` starting at index `i`. */
  ghost predicate OccursAt(m: string, s: string, i: int)
  {
    0 <= i <= |m| - |s| && m[i..i + |s|] == s
  }

  /** `s` occurs in `m` as a contiguous run of characters. */
  ghost predicate ContainsVerbatim(m: string, s: string)
  {
    exists i :: OccursAt(m, s, i)
  }

  /** The message of the `ArgumentException` thrown for a token that is not a valid global id. */
  function MalformedMessage(globalId: string): (m: string)
    ensures ContainsVerbatim(m, globalId)
  {
    var prefix := "String Id value (";
    var m := prefix + globalId + ") is not a valid Global Id";
    assert OccursAt(m, globalId, |prefix|);
    m
  }

  /**
    The plaintext record "t:{0}:{1}" of a global id: the marker, the type name and the id,
    separated by the delimiter.
   */
  function Plaintext(name: string, id: string): (p: string)
    ensures p == Join([Delimiter], [Marker, name, id])
  {
    JoinThree([Delimiter], Marker, name, id);
    Marker + [Delimiter] + name + [Delimiter] + id
  }

  /**
    `Node.ToGlobalId(name, id, scope)`, with `id` given by its string form: in global scope the
    encoded three-field record of marker, type name and id; in any other scope the bare id.
   */
  function ToGlobalId(b: Bookmark, name: string, id: string, scope: IdScope): (token: string)
    ensures scope != Global ==> token == id
    ensures scope == Global ==> token == b.encode(Join([Delimiter], [Marker, name, id]))
  {
    if scope == Global then b.encode(Plaintext(name, id)) else id
  }

  /**
    `Node.FromGlobalId(globalId)`: decode, split on ':', demand exactly three fields, and return
    the second as the type and the join of all fields after the second as the id. Because of
    the length check that join only ever sees the third field.
   */
  function FromGlobalId(b: Bookmark, globalId: string): (r: Result<GlobalId, NodeError>)
    ensures b.decode(globalId) == None ==> r == Failure(DecodeFailure)
    ensures b.decode(globalId).Some? ==>
      var parts := Split(b.decode(globalId).value, Delimiter);
      && (r.Success? <==> |parts| == 3)
      && (r.Success? ==> r.value == GlobalId(parts[1], parts[2]))
      && (r.Failure? ==> r.error == ArgumentException(MalformedMessage(globalId)))
    ensures r.Success? ==> Delimiter !in r.value.Type && Delimiter !in r.value.Id
  {
    match b.decode(globalId)
    case None => Failure(DecodeFailure)
    case Some(plaintext) =>
      var parts := Split(plaintext, Delimiter);
      if |parts| != 3 then
        Failure(ArgumentException(MalformedMessage(globalId)))
      else
        assert parts[2..] == [parts[2]];
        Success(GlobalId(parts[1], Join(":", parts[2..])))
  }

  /** Round trip: a type name and an id free of ':' come back unchanged from a global token. */
  lemma {:induction false} RoundTrip(b: Bookmark, name: string, id: string)
    requires Inverts(b)
    requires Delimiter !in name && Delimiter !in id
    ensures FromGlobalId(b, ToGlobalId(b, name, id, Global)) == Success(GlobalId(name, id))
  {
    var parts := [Marker, name, id];
    var plaintext := Join([Delimiter], parts);
    assert b.decode(b.encode(plaintext)) == Some(plaintext);
    SplitJoin(parts, Delimiter);
  }

  /** A ':' in the type name or in the id makes the global token undecodable. */
  lemma {:induction false} DelimiterRejected(b: Bookmark, name: string, id: string)
    requires Inverts(b)
    requires Delimiter in name || Delimiter in id
    ensures var token := ToGlobalId(b, name, id, Global);
      FromGlobalId(b, token) == Failure(ArgumentException(MalformedMessage(token)))
  {
    var plaintext := Plaintext(name, id);
    var token := b.encode(plaintext);
    assert b.decode(token) == Some(plaintext);
    assert Count(plaintext, Delimiter) == 2 + Count(name, Delimiter) + Count(id, Delimiter);
    assert Count(name, Delimiter) + Count(id, Delimiter) >= 1;
  }

  /** The round trip succeeds exactly when neither the type name nor the id contains ':'. */
  lemma {:induction false} RoundTripExactly(b: Bookmark, name: string, id: string)
    requires Inverts(b)
    ensures FromGlobalId(b, ToGlobalId(b, name, id, Global)) == Success(GlobalId(name, id))
      <==> Delimiter !in name && Delimiter !in id
  {
    if Delimiter !in name && Delimiter !in id {
      RoundTrip(b, name, id);
    } else {
      DelimiterRejected(b, name, id);
    }
  }

  /** Whatever a global token decodes to is re-encoded into a token that decodes the same way. */
  lemma {:induction false} DecodedReencodes(b: Bookmark, globalId: string)
    requires Inverts(b)
    requires FromGlobalId(b, globalId).Success?
    ensures var g := FromGlobalId(b, globalId).value;
      FromGlobalId(b, ToGlobalId(b, g.Type, g.Id, Global)) == Success(g)
  {
    var g := FromGlobalId(b, globalId).value;
    RoundTrip(b, g.Type, g.Id);
  }

  /** The marker field is never checked: any three ':'-free fields decode to the last two. */
  lemma {:induction false} MarkerIgnored(b: Bookmark, globalId: string, marker: string, typeName: string, id: string)
    requires Delimiter !in marker && Delimiter !in typeName && Delimiter !in id
    requires b.decode(globalId) == Some(Join([Delimiter], [marker, typeName, id]))
    ensures FromGlobalId(b, globalId) == Success(GlobalId(typeName, id))
  {
    SplitJoin([marker, typeName, id], Delimiter);
  }

  /** An empty type name is accepted: "t::42" decodes to the empty type and id "42". */
  lemma EmptyTypeNameAccepted(b: Bookmark, globalId: string)
    requires b.decode(globalId) == Some("t::42")
    ensures FromGlobalId(b, globalId) == Success(GlobalId("", "42"))
  {
    assert "t::42" == Plaintext("", "42");
    MarkerIgnored(b, globalId, "t", "", "42");
  }

  /** An empty type name survives encoding and decoding. */
  lemma EmptyTypeNameRoundTrip(b: Bookmark, id: string)
    requires Inverts(b)
    requires Delimiter !in id
    ensures FromGlobalId(b, ToGlobalId(b, "", id, Global)) == Success(GlobalId("", id))
  {
    RoundTrip(b, "", id);
  }

  /** Four fields are rejected, not rejoined into the id: "a:b:c:d" is not a valid global id. */
  lemma ExtraFieldRejected(b: Bookmark, globalId: string)
    requires b.decode(globalId) == Some("a:b:c:d")
    ensures FromGlobalId(b, globalId) == Failure(ArgumentException(MalformedMessage(globalId)))
  {
    var s := "a:b:c:d";
    assert multiset(s)[Delimiter] == 3 by {
      assert s == ['a'] + [':'] + ['b'] + [':'] + ['c'] + [':'] + ['d'];
    }
  }

  /** A single field is rejected: "onlyOnePart" is not a valid global id. */
  lemma SingleFieldRejected(b: Bookmark, globalId: string)
    requires b.decode(globalId) == Some("onlyOnePart")
    ensures FromGlobalId(b, globalId) == Failure(ArgumentException(MalformedMessage(globalId)))
  {
    SplitNoDelimiter("onlyOnePart", Delimiter);
  }

  /** Two plaintext records with ':'-free type names are equal only for equal names and ids. */
  lemma {:induction false} PlaintextInjective(n1: string, i1: string, n2: string, i2: string)
    requires Delimiter !in n1 && Delimiter !in n2
    requires Plaintext(n1, i1) == Plaintext(n2, i2)
    ensures n1 == n2 && i1 == i2
  {
    var p1, p2 := Plaintext(n1, i1), Plaintext(n2, i2);
    assert p1[2..] == n1 + [Delimiter] + i1;
    assert p2[2..] == n2 + [Delimiter] + i2;
    SplitLeadingField(n1, Delimiter, i1);
    SplitLeadingField(n2, Delimiter, i2);
    assert n1 == Split(p1[2..], Delimiter)[0] == n2;
    assert i1 == p1[3 + |n1|..];
    assert i2 == p2[3 + |n2|..];
  }

  /** Distinct (type name, id) pairs with ':'-free type names never share a global token. */
  lemma {:induction false} GlobalTokensInjective(b: Bookmark, n1: string, i1: string, n2: string, i2: string)
    requires Inverts(b)
    requires Delimiter !in n1 && Delimiter !in n2
    requires ToGlobalId(b, n1, i1, Global) == ToGlobalId(b, n2, i2, Global)
    ensures n1 == n2 && i1 == i2
  {
    var p1, p2 := Plaintext(n1, i1), Plaintext(n2, i2);
    assert b.decode(b.encode(p1)) == Some(p1);
    assert b.decode(b.encode(p2)) == Some(p2);
    PlaintextInjective(n1, i1, n2, i2);
  }

  /** A ':' in the type name lets two different pairs share one token. */
  lemma DelimiterInNameCollides(b: Bookmark)
    ensures ToGlobalId(b, "a:b", "c", Global) == ToGlobalId(b, "a", "b:c", Global)
  {
    assert Plaintext("a:b", "c") == Plaintext("a", "b:c");
  }

  /** In local scope the encoder is never consulted: any two encoders give the same id. */
  lemma LocalIgnoresEncoder(b1: Bookmark, b2: Bookmark, name: string, id: string)
    ensures ToGlobalId(b1, name, id, Local) == ToGlobalId(b2, name, id, Local) == id
  {
  }
}
