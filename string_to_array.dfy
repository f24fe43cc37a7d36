/**
 * stringToArray, which turns the comma-separated XSS tag and attribute white
 * lists of the markdown settings form into arrays.
 */
module StringToArray {
  import Strings

  /**
   * The code points JavaScript's `String.prototype.trim` removes: the
   * ECMAScript WhiteSpace (tab, vertical tab, form feed, space, no-break space,
   * byte order mark and the Unicode space separators) and LineTerminator
   * (line feed, carriage return, line and paragraph separators) characters.
   */
  predicate IsWhitespace(c: char) {
    || c == '\t' || c == '\n' || c == '\U{000B}' || c == '\U{000C}' || c == '\r' || c == ' '
    || c == '\U{00A0}' || c == '\U{1680}' || ('\U{2000}' <= c <= '\U{200A}')
    || c == '\U{2028}' || c == '\U{2029}' || c == '\U{202F}' || c == '\U{205F}'
    || c == '\U{3000}' || c == '\U{FEFF}'
  }

  predicate AllWhitespace(s: string) {
    forall i :: 0 <= i < |s| ==> IsWhitespace(s[i])
  }

  /** The number of commas in s. */
  function Commas(s: string): nat {
    if s == [] then 0 else (if s[0] == ',' then 1 else 0) + Commas(s[1..])
  }

  /**
   * `s.split(',')`: the segments between commas, in order; there is always one
   * more segment than there are commas, and no segment holds a comma.
   */
  function Split(s: string): (parts: seq<string>)
    ensures |parts| == Commas(s) + 1
    ensures forall i :: 0 <= i < |parts| ==> ',' !in parts[i]
  {
    if s == [] then [[]]
    else
      var rest := Split(s[1..]);
      if s[0] == ',' then [[]] + rest
      else [[s[0]] + rest[0]] + rest[1..]
  }

  /** Drops the leading whitespace: the result is a suffix of s, what went before it is whitespace, and it does not start with whitespace. */
  function TrimStart(s: string): (r: string)
    ensures |r| <= |s| && r == s[|s| - |r|..]
    ensures AllWhitespace(s[..|s| - |r|])
    ensures r == [] || !IsWhitespace(r[0])
  {
    if s != [] && IsWhitespace(s[0]) then TrimStart(s[1..]) else s
  }

  /** Drops the trailing whitespace: the result is a prefix of s, what comes after it is whitespace, and it does not end with whitespace. */
  function TrimEnd(s: string): (r: string)
    ensures |r| <= |s| && r == s[..|r|]
    ensures AllWhitespace(s[|r|..])
    ensures r == [] || !IsWhitespace(r[|r| - 1])
  {
    if s != [] && IsWhitespace(s[|s| - 1]) then TrimEnd(s[..|s| - 1]) else s
  }

  /**
   * `s.trim()`: s is whitespace, then the result, then whitespace, and the
   * result neither starts nor ends with whitespace.
   */
  function Trim(s: string): (r: string)
    ensures var lead := |s| - |TrimStart(s)|;
      && lead + |r| <= |s|
      && r == s[lead..lead + |r|]
      && AllWhitespace(s[..lead])
      && AllWhitespace(s[lead + |r|..])
    ensures r == [] || (!IsWhitespace(r[0]) && !IsWhitespace(r[|r| - 1]))
  {
    var t := TrimStart(s);
    var r := TrimEnd(t);
    TrimSlices(s, |s| - |t|, t, r);
    r
  }

  /** The slices of s that Trim's contract speaks of, taken through the suffix t. */
  lemma TrimSlices(s: string, lead: nat, t: string, r: string)
    requires lead <= |s| && t == s[lead..]
    requires |r| <= |t| && r == t[..|r|] && AllWhitespace(t[|r|..])
    ensures lead + |r| <= |s| && r == s[lead..lead + |r|] && AllWhitespace(s[lead + |r|..])
  {
    assert t[|r|..] == s[lead + |r|..];
  }

  /**
   * stringToArray: one element per comma-separated segment, each segment with
   * its surrounding whitespace removed; no element holds a comma or starts or
   * ends with whitespace.
   */
  function StringToArray(s: string): (items: seq<string>)
    ensures |items| == Commas(s) + 1
    ensures forall i :: 0 <= i < |items| ==> items[i] == Trim(Split(s)[i])
    ensures forall i :: 0 <= i < |items| ==> ',' !in items[i]
    ensures forall i :: 0 <= i < |items| ==>
      items[i] == [] || (!IsWhitespace(items[i][0]) && !IsWhitespace(items[i][|items[i]| - 1]))
  {
    var parts := Split(s);
    seq(|parts|, i requires 0 <= i < |parts| => Trim(parts[i]))
  }

  /** Joining the segments back with commas gives the original string. */
  lemma {:induction false} JoinSplit(s: string)
    ensures Strings.Join(Split(s), ',') == s
  {
    if s != [] {
      var rest := Split(s[1..]);
      JoinSplit(s[1..]);
      if s[0] == ',' {
        assert ([[]] + rest)[1..] == rest;
      } else if |rest| > 1 {
        assert ([[s[0]] + rest[0]] + rest[1..])[1..] == rest[1..];
      }
    }
  }

  /** A comma-free string is a single segment. */
  lemma {:induction false} SplitNoComma(p: string)
    requires ',' !in p
    ensures Split(p) == [p]
  {
    if p != [] {
      SplitNoComma(p[1..]);
      assert [p[0]] + p[1..] == p;
    }
  }

  /** A comma-free prefix followed by a comma is split off as the first segment. */
  lemma {:induction false} SplitAfter(p: string, t: string)
    requires ',' !in p
    ensures Split(p + [','] + t) == [p] + Split(t)
  {
    var s := p + [','] + t;
    if p == [] {
      assert s[1..] == t;
    } else {
      assert s[1..] == p[1..] + [','] + t;
      SplitAfter(p[1..], t);
      assert [p[0]] + p[1..] == p;
    }
  }

  /** Splitting comma-free segments joined with commas gives those segments back. */
  lemma {:induction false} SplitJoin(parts: seq<string>)
    requires |parts| >= 1
    requires forall i :: 0 <= i < |parts| ==> ',' !in parts[i]
    ensures Split(Strings.Join(parts, ',')) == parts
  {
    if |parts| == 1 {
      SplitNoComma(parts[0]);
    } else {
      SplitJoin(parts[1..]);
      SplitAfter(parts[0], Strings.Join(parts[1..], ','));
      assert [parts[0]] + parts[1..] == parts;
    }
  }
}
