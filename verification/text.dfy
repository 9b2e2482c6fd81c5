/** Option for the `*list.Element` results that may be nil. */
module Wrappers {

  datatype Option<+T> = None | Some(value: T)
}

/**
 Byte-slice helpers the grouper relies on: Go's `bytes.HasPrefix`,
 `bytes.Index`, `bytes.TrimSpace` and `bytes.Trim`, over lines held as strings.
 */
module Text {

  type Line = string

  /** `importMutiPrefix`: only lines starting with this open a block. */
  const ImportMultiPrefix: string := "import ("

  /** `importEnd`: a line starting with this closes a block. */
  const ImportEnd: string := ")"

  /** `newline`: the content of every separator line the grouper inserts. */
  const Marker: Line := "\n"

  /** `bytes.HasPrefix` and `strings.HasPrefix`. */
  predicate HasPrefix(s: string, prefix: string) {
    |prefix| <= |s| && s[..|prefix|] == prefix
  }

  /** `HasPrefix` character by character: the prefix fits, and each of its
      characters matches the one at the same place; the empty prefix
      matches everything. */
  lemma HasPrefixChars(s: string, prefix: string)
    ensures HasPrefix(s, prefix) <==> |prefix| <= |s| && forall k :: 0 <= k < |prefix| ==> s[k] == prefix[k]
    ensures HasPrefix(s, [])
  {
    if |prefix| <= |s| && forall k :: 0 <= k < |prefix| ==> s[k] == prefix[k] {
      assert s[..|prefix|] == prefix;
    }
  }

  /** Go's `unicode.IsSpace`, the predicate `bytes.TrimSpace` strips. */
  predicate IsSpace(c: char) {
    || c == '\t' || c == '\n' || c == '\U{000B}' || c == '\U{000C}' || c == '\r' || c == ' '
    || c == '\U{0085}' || c == '\U{00A0}' || c == '\U{1680}'
    || ('\U{2000}' <= c <= '\U{200A}')
    || c == '\U{2028}' || c == '\U{2029}' || c == '\U{202F}' || c == '\U{205F}' || c == '\U{3000}'
  }

  /** The cutset of `bytes.Trim(_, "\"")`. */
  predicate IsQuote(c: char) {
    c == '"'
  }

  /** The two character classes the grouper trims: `bytes.TrimSpace` strips
      whitespace, `bytes.Trim(_, "\"")` strips quotes. */
  datatype Cutset = Whitespace | Quote {
    predicate Has(c: char) {
      match this
      case Whitespace => IsSpace(c)
      case Quote => IsQuote(c)
    }
  }

  predicate AllSatisfy(s: string, cut: Cutset) {
    forall k :: 0 <= k < |s| ==> cut.Has(s[k])
  }

  /** `bytes.Index(s, []byte{c})`: the first position of `c`, or -1. */
  function IndexOf(s: string, c: char): (r: int)
    ensures -1 <= r < |s|
    ensures r == -1 <==> c !in s
    ensures 0 <= r ==> s[r] == c && c !in s[..r]
  {
    if |s| == 0 then -1
    else if s[0] == c then 0
    else
      var r := IndexOf(s[1..], c);
      assert s[1..][..r + 1] == s[1..r + 2] by { if 0 <= r { assert s[..r + 2] == [s[0]] + s[1..][..r + 1]; } }
      if r == -1 then -1 else r + 1
  }

  /** How many leading characters of `s` belong to the cutset. */
  function LeadingCut(s: string, cut: Cutset): (n: nat)
    ensures n <= |s|
    ensures forall k :: 0 <= k < n ==> cut.Has(s[k])
    ensures n == |s| || !cut.Has(s[n])
    decreases |s|
  {
    if |s| > 0 && cut.Has(s[0]) then
      var t := s[1..];
      var m := LeadingCut(t, cut);
      assert forall k :: 0 < k <= m ==> s[k] == t[k - 1];
      m + 1
    else 0
  }

  /** Drops the leading characters of the cutset: the result is the longest
      suffix of `s` that does not start with one. */
  function TrimLeft(s: string, cut: Cutset): (r: string)
    ensures |r| <= |s|
    ensures forall k :: 0 <= k < |r| ==> r[k] == s[|s| - |r| + k]
    ensures forall k :: 0 <= k < |s| - |r| ==> cut.Has(s[k])
    ensures r == [] || !cut.Has(r[0])
  {
    s[LeadingCut(s, cut)..]
  }

  /** Drops the trailing characters of the cutset: the result is the longest
      prefix of `s` that does not end with one. */
  function TrimRight(s: string, cut: Cutset): (r: string)
    ensures |r| <= |s|
    ensures forall k :: 0 <= k < |r| ==> r[k] == s[k]
    ensures forall k :: |r| <= k < |s| ==> cut.Has(s[k])
    ensures r == [] || !cut.Has(r[|r| - 1])
    decreases |s|
  {
    if |s| > 0 && cut.Has(s[|s| - 1]) then TrimRight(s[..|s| - 1], cut) else s
  }

  /** `bytes.TrimFunc`: both ends stripped; what remains neither starts nor
      ends with a character of the cutset. */
  function Trim(s: string, cut: Cutset): (r: string)
    ensures |r| <= |s|
    ensures r == [] || (!cut.Has(r[0]) && !cut.Has(r[|r| - 1]))
    ensures AllSatisfy(s, cut) ==> r == []
    ensures (forall k :: 0 <= k < |s| ==> !cut.Has(s[k])) ==> r == s
  {
    var l := TrimLeft(s, cut);
    var r := TrimRight(l, cut);
    assert r != [] ==> r[0] == l[0];
    r
  }

  /** Trimming only removes characters: one absent from `s` is absent from
      the result. */
  lemma TrimWithout(s: string, cut: Cutset, c: char)
    ensures c !in s ==> c !in Trim(s, cut)
  {
    if c !in s {
      var l := TrimLeft(s, cut);
      var r := TrimRight(l, cut);
      forall k | 0 <= k < |r| ensures r[k] != c {
        var j := |s| - |l| + k;
        assert r[k] == l[k] == s[j];
        assert s[j] in s;
      }
      assert r == Trim(s, cut);
    }
  }

  /** `bytes.TrimSpace`: leading and trailing whitespace removed. */
  function TrimSpace(s: string): (r: string)
    ensures |r| <= |s|
    ensures r == [] || (!IsSpace(r[0]) && !IsSpace(r[|r| - 1]))
    ensures AllSatisfy(s, Whitespace) ==> r == []
    ensures (forall k :: 0 <= k < |s| ==> !IsSpace(s[k])) ==> r == s
  {
    Trim(s, Whitespace)
  }

  function TrimQuotes(s: string): (r: string)
    ensures |r| <= |s|
    ensures r == [] || (r[0] != '"' && r[|r| - 1] != '"')
    ensures '"' !in s ==> r == s
  {
    Trim(s, Quote)
  }

  lemma {:induction false} TrimLeftOf(a: string, t: string, cut: Cutset)
    requires AllSatisfy(a, cut)
    requires t == [] || !cut.Has(t[0])
    ensures TrimLeft(a + t, cut) == t
    decreases |a|
  {
    if |a| > 0 {
      assert (a + t)[1..] == a[1..] + t;
      TrimLeftOf(a[1..], t, cut);
    } else {
      assert a + t == t;
    }
  }

  lemma {:induction false} TrimRightOf(t: string, b: string, cut: Cutset)
    requires AllSatisfy(b, cut)
    requires t == [] || !cut.Has(t[|t| - 1])
    ensures TrimRight(t + b, cut) == t
    decreases |b|
  {
    if |b| > 0 {
      assert (t + b)[..|t + b| - 1] == t + b[..|b| - 1];
      TrimRightOf(t, b[..|b| - 1], cut);
    } else {
      assert t + b == t;
    }
  }

  /** Trimming `a + r + b` yields `r` whenever the margins `a` and `b` consist of
      cut characters and `r` neither starts nor ends with one. */
  lemma TrimOf(a: string, r: string, b: string, cut: Cutset)
    requires AllSatisfy(a, cut) && AllSatisfy(b, cut)
    requires r == [] || (!cut.Has(r[0]) && !cut.Has(r[|r| - 1]))
    ensures Trim(a + r + b, cut) == r
  {
    if r == [] {
      assert a + r + b == a + b;
      assert AllSatisfy(a + b, cut);
    } else {
      assert a + r + b == a + (r + b);
      TrimLeftOf(a, r + b, cut);
      TrimRightOf(r, b, cut);
    }
  }
}
