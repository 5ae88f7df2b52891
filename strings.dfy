/**
  The .NET string operations the global-id codec relies on, written out on `seq<char>`:
  `String.Split(char)` (no options: empty fields are kept), `String.Join(string, parts)`,
  `Char.IsWhiteSpace` and `String.IsNullOrWhiteSpace`, with the laws that relate them.
 */
module DotNetStrings {
  import opened Wrappers

  /** Number of occurrences of `d` in `s`. */
  function Count(s: string, d: char): nat
  {
    multiset(s)[d]
  }

  /** `s.Split(d)`: the maximal `d`-free fields between the delimiters, empty ones included. */
  function Split(s: string, d: char): (parts: seq<string>)
    ensures |parts| == Count(s, d) + 1
    ensures forall i :: 0 <= i < |parts| ==> d !in parts[i]
    decreases |s|
  {
    if s == [] then
      [""]
    else
      assert s == [s[0]] + s[1..];
      var rest := Split(s[1..], d);
      if s[0] == d then
        [""] + rest
      else
        [[s[0]] + rest[0]] + rest[1..]
  }

  /** `String.Join(sep, parts)`: the parts with `sep` between neighbours; empty for no parts. */
  function Join(sep: string, parts: seq<string>): (r: string)
    ensures parts == [] ==> r == ""
    ensures |parts| == 1 ==> r == parts[0]
    ensures parts != [] ==> |parts[0]| <= |r| && parts[0] <= r
  {
    if |parts| == 0 then ""
    else if |parts| == 1 then parts[0]
    else parts[0] + sep + Join(sep, parts[1..])
  }

  /** Joining three parts puts the separator exactly twice. */
  lemma JoinThree(sep: string, a: string, b: string, c: string)
    ensures Join(sep, [a, b, c]) == a + sep + b + sep + c
  {
    assert [a, b, c][1..] == [b, c];
    assert [b, c][1..] == [c];
    assert Join(sep, [b, c]) == b + sep + c;
  }

  /** A string without the delimiter is a single field. */
  lemma {:induction false} SplitNoDelimiter(s: string, d: char)
    requires d !in s
    ensures Split(s, d) == [s]
    decreases |s|
  {
    if s != [] {
      SplitNoDelimiter(s[1..], d);
      assert [s[0]] + s[1..] == s;
    }
  }

  /** A leading `d`-free field followed by the delimiter becomes the first part, the rest splits on. */
  lemma {:induction false} SplitLeadingField(a: string, d: char, rest: string)
    requires d !in a
    ensures Split(a + [d] + rest, d) == [a] + Split(rest, d)
    decreases |a|
  {
    var s := a + [d] + rest;
    if a == [] {
      assert s[1..] == rest;
    } else {
      assert s[0] == a[0];
      assert s[1..] == a[1..] + [d] + rest;
      SplitLeadingField(a[1..], d, rest);
      assert [a[0]] + a[1..] == a;
    }
  }

  /** Splitting undoes joining, provided no part contains the delimiter. */
  lemma {:induction false} SplitJoin(parts: seq<string>, d: char)
    requires |parts| >= 1
    requires forall i :: 0 <= i < |parts| ==> d !in parts[i]
    ensures Split(Join([d], parts), d) == parts
    decreases |parts|
  {
    if |parts| == 1 {
      SplitNoDelimiter(parts[0], d);
    } else {
      SplitJoin(parts[1..], d);
      SplitLeadingField(parts[0], d, Join([d], parts[1..]));
      assert [parts[0]] + parts[1..] == parts;
    }
  }

  /** Prefixing the first part prefixes the whole join. */
  lemma JoinPrefixFirst(sep: string, x: string, parts: seq<string>)
    requires parts != []
    ensures Join(sep, [x + parts[0]] + parts[1..]) == x + Join(sep, parts)
  {
    var q := [x + parts[0]] + parts[1..];
    assert q[1..] == parts[1..];
    if |parts| > 1 {
      assert Join(sep, q) == x + parts[0] + sep + Join(sep, parts[1..]);
    }
  }

  /** Joining undoes splitting, for every string. */
  lemma {:induction false} JoinSplit(s: string, d: char)
    ensures Join([d], Split(s, d)) == s
    decreases |s|
  {
    if s != [] {
      var rest := Split(s[1..], d);
      JoinSplit(s[1..], d);
      assert s == [s[0]] + s[1..];
      if s[0] == d {
        var q := [""] + rest;
        assert Split(s, d) == q;
        assert q[0] == "" && q[1..] == rest && |q| > 1;
        assert Join([d], q) == "" + [d] + Join([d], rest);
      } else {
        assert Split(s, d) == [[s[0]] + rest[0]] + rest[1..];
        JoinPrefixFirst([d], [s[0]], rest);
      }
    }
  }

  /**
    The code points .NET documents as white space: U+0009..U+000D, U+0085, the space separators
    U+0020, U+00A0, U+1680, U+2000..U+200A, U+202F, U+205F, U+3000, the line separator U+2028
    and the paragraph separator U+2029.
   */
  const WhiteSpaceCodePoints: set<int> := {
    0x0009, 0x000A, 0x000B, 0x000C, 0x000D, 0x0020, 0x0085, 0x00A0, 0x1680,
    0x2000, 0x2001, 0x2002, 0x2003, 0x2004, 0x2005, 0x2006, 0x2007, 0x2008, 0x2009, 0x200A,
    0x2028, 0x2029, 0x202F, 0x205F, 0x3000
  }

  /** `Char.IsWhiteSpace`, by code-point ranges. */
  function IsWhiteSpace(c: char): (r: bool)
    ensures r <==> c as int in WhiteSpaceCodePoints
  {
    || ('\U{0009}' <= c <= '\U{000D}')
    || c == '\U{0020}' || c == '\U{0085}' || c == '\U{00A0}' || c == '\U{1680}'
    || ('\U{2000}' <= c <= '\U{200A}')
    || c == '\U{2028}' || c == '\U{2029}' || c == '\U{202F}' || c == '\U{205F}' || c == '\U{3000}'
  }

  /** True when every character of `t` is white space, scanning from the front. */
  function AllWhiteSpace(t: string): (r: bool)
    ensures r <==> forall i :: 0 <= i < |t| ==> IsWhiteSpace(t[i])
  {
    if t == [] then true
    else if !IsWhiteSpace(t[0]) then false
    else AllWhiteSpace(t[1..])
  }

  /** `String.IsNullOrWhiteSpace`, with `None` standing for a null reference. */
  function IsNullOrWhiteSpace(s: Option<string>): (r: bool)
    ensures r <==> s.None? || forall i :: 0 <= i < |s.value| ==> s.value[i] as int in WhiteSpaceCodePoints
    ensures s == Some("") ==> r
  {
    match s
    case None => true
    case Some(t) => AllWhiteSpace(t)
  }
}
