/** The parts of .NET's string library that the diary's components rely on,
    over `string`, a sequence of characters. */
module Text {
  import opened Wrappers

  /** `char.IsWhiteSpace`: the Unicode White_Space code points of the BMP. */
  predicate IsWhiteSpace(c: char) {
    ('\U{9}' <= c <= '\U{D}') || c == ' ' || c == '\U{85}' || c == '\U{A0}'
    || c == '\U{1680}' || ('\U{2000}' <= c <= '\U{200A}') || c == '\U{2028}' || c == '\U{2029}'
    || c == '\U{202F}' || c == '\U{205F}' || c == '\U{3000}'
  }

  /** `string.IsNullOrEmpty`. */
  predicate IsNullOrEmpty(s: Option<string>) {
    s == None || s == Some("")
  }

  /** `string.IsNullOrWhiteSpace`: null, or made only of white space. */
  predicate IsNullOrWhiteSpace(s: Option<string>) {
    match s
    case None => true
    case Some(t) => forall i :: 0 <= i < |t| ==> IsWhiteSpace(t[i])
  }

  /** What a nullable string contributes to `+` or to an interpolated string. */
  function OrEmpty(s: Option<string>): string {
    s.GetOr("")
  }

  /** `s.IndexOf(c)`: the first position of `c`, or -1. */
  function IndexOf(s: string, c: char): (r: int)
    ensures -1 <= r < |s|
    ensures r == -1 <==> c !in s
    ensures r >= 0 ==> s[r] == c && c !in s[..r]
  {
    if s == [] then -1
    else if s[0] == c then 0
    else
      var k := IndexOf(s[1..], c);
      assert k >= 0 ==> s[..k + 1] == [s[0]] + s[1..][..k];
      if k == -1 then -1 else k + 1
  }

  /** `List<T>.IndexOf(x)`: the first position of `x` in the list, or -1. */
  function ListIndexOf<T(==)>(items: seq<T>, x: T): (r: int)
    ensures -1 <= r < |items|
    ensures r == -1 <==> x !in items
    ensures r >= 0 ==> items[r] == x && x !in items[..r]
  {
    if items == [] then -1
    else if items[0] == x then 0
    else
      var k := ListIndexOf(items[1..], x);
      assert k >= 0 ==> items[..k + 1] == [items[0]] + items[1..][..k];
      if k == -1 then -1 else k + 1
  }

  /** `s.Split(c)[0]`: everything before the first `c`, or all of `s`. */
  function BeforeFirst(s: string, c: char): (r: string)
    ensures c !in r
    ensures r == s || (|r| < |s| && s[|r|] == c && r == s[..|r|])
  {
    SplitFirstPiece(s, c);
    Split(s, c)[0]
  }

  /** `s.Substring(s.IndexOf(c) + 1)`: everything after the first `c`, or all
      of `s` when there is none, because `IndexOf` then answers -1. */
  function AfterFirst(s: string, c: char): (r: string)
    ensures c !in s ==> r == s
    ensures c in s ==> s == BeforeFirst(s, c) + [c] + r
  {
    var k := IndexOf(s, c);
    if k == -1 then s
    else
      BeforeFirstEndsAtIndexOf(s, c);
      s[k + 1..]
  }

  /** The first piece of a split ends where `IndexOf` finds the separator. */
  lemma BeforeFirstEndsAtIndexOf(s: string, c: char)
    requires c in s
    ensures s == BeforeFirst(s, c) + [c] + s[IndexOf(s, c) + 1..]
  {
    var b := BeforeFirst(s, c);
    assert b != s;
    IndexOfAt(s, c, |b|);
    assert s == s[..|b|] + [c] + s[|b| + 1..];
  }

  /** `s.Replace(from, to)` for one-character strings. */
  function ReplaceChar(s: string, from: char, to: char): (r: string)
    ensures |r| == |s|
    ensures forall i :: 0 <= i < |s| ==> r[i] == (if s[i] == from then to else s[i])
  {
    if s == [] then [] else [if s[0] == from then to else s[0]] + ReplaceChar(s[1..], from, to)
  }

  /** `string.Join(sep, parts)`; a null part is written as the empty string. */
  function Join(sep: string, parts: seq<Option<string>>): string
  {
    if parts == [] then ""
    else if |parts| == 1 then OrEmpty(parts[0])
    else Join(sep, parts[..|parts| - 1]) + sep + OrEmpty(parts[|parts| - 1])
  }

  /** `s.Split(c)`: the pieces of `s` between occurrences of `c`. */
  function Split(s: string, c: char): (r: seq<string>)
    ensures |r| > 0
  {
    if s == [] then [""]
    else
      var rest := Split(s[1..], c);
      if s[0] == c then [""] + rest
      else [[s[0]] + rest[0]] + rest[1..]
  }

  /** The first piece of a split is all of `s`, or the part before the
      first `c`. */
  lemma {:induction false} SplitFirstPiece(s: string, c: char)
    ensures var r := Split(s, c);
      c !in r[0] && (r[0] == s || (|r[0]| < |s| && s[|r[0]|] == c && r[0] == s[..|r[0]|]))
  {
    if s != [] && s[0] != c {
      SplitFirstPiece(s[1..], c);
      var p := Split(s[1..], c)[0];
      assert Split(s, c)[0] == [s[0]] + p;
      if p != s[1..] {
        assert s[..|p| + 1] == [s[0]] + s[1..][..|p|];
      }
    }
  }

  /** Splitting a joined list on the separator gives the parts back, as long
      as no part contains the separator. */
  lemma {:induction false} SplitJoin(parts: seq<string>, c: char)
    requires |parts| > 0
    requires forall i :: 0 <= i < |parts| ==> c !in parts[i]
    ensures Split(Join([c], Somes(parts)), c) == parts
  {
    if |parts| == 1 {
      assert Join([c], Somes(parts)) == parts[0];
      SplitNone(parts[0], c);
    } else {
      var init := parts[..|parts| - 1];
      var last := parts[|parts| - 1];
      assert Somes(parts)[..|parts| - 1] == Somes(init);
      assert Join([c], Somes(parts)) == Join([c], Somes(init)) + [c] + last;
      SplitJoin(init, c);
      SplitConcat(Join([c], Somes(init)), last, c);
      SplitNone(last, c);
      assert init + [last] == parts;
    }
  }

  /** A position holding the first `c` is what `IndexOf` answers. */
  lemma IndexOfAt(s: string, c: char, k: int)
    requires 0 <= k < |s| && s[k] == c && c !in s[..k]
    ensures IndexOf(s, c) == k
  {
  }

  /** Splitting at a separator that was put between two strings splits
      each of them on its own. */
  lemma {:induction false} SplitConcat(j: string, last: string, c: char)
    ensures Split(j + [c] + last, c) == Split(j, c) + Split(last, c)
  {
    var s := j + [c] + last;
    if j == [] {
      assert s[1..] == last;
    } else {
      assert s[0] == j[0] && s[1..] == j[1..] + [c] + last;
      SplitConcat(j[1..], last, c);
      // Splitting on whether `j` starts with the separator is all the
      // prover needs to unfold `Split` once on both sides.
      if j[0] == c {
      } else {
      }
    }
  }

  /** A string without the separator is a single piece. */
  lemma {:induction false} SplitNone(s: string, c: char)
    requires c !in s
    ensures Split(s, c) == [s]
  {
    if s != [] {
      SplitNone(s[1..], c);
      assert [s[0]] + s[1..] == s;
    }
  }

  /** Joining nullable parts is joining the strings they contribute. */
  lemma {:induction false} JoinOrEmpty(sep: string, parts: seq<Option<string>>, strs: seq<string>)
    requires |strs| == |parts|
    requires forall i :: 0 <= i < |parts| ==> strs[i] == OrEmpty(parts[i])
    ensures Join(sep, parts) == Join(sep, Somes(strs))
  {
    if |parts| > 1 {
      var n := |parts| - 1;
      JoinOrEmpty(sep, parts[..n], strs[..n]);
      assert Somes(strs)[..n] == Somes(strs[..n]);
    }
  }

  /** The non-empty pieces of a list, in order. */
  function NonEmpty(pieces: seq<string>): (r: seq<string>)
    ensures forall i :: 0 <= i < |r| ==> r[i] != ""
  {
    if pieces == [] then []
    else if pieces[0] == "" then NonEmpty(pieces[1..])
    else [pieces[0]] + NonEmpty(pieces[1..])
  }

  lemma {:induction false} NonEmptyConcat(a: seq<string>, b: seq<string>)
    ensures NonEmpty(a + b) == NonEmpty(a) + NonEmpty(b)
  {
    if a == [] {
      assert a + b == b;
    } else {
      assert (a + b)[0] == a[0] && (a + b)[1..] == a[1..] + b;
      NonEmptyConcat(a[1..], b);
    }
  }

  /** The space-separated words of a string, as a browser reads a `class`
      attribute made of space-separated names. */
  function Words(s: string): seq<string> {
    NonEmpty(Split(s, ' '))
  }

  /** Joining two strings with a space puts their words side by side. */
  lemma WordsConcat(a: string, b: string)
    ensures Words(a + " " + b) == Words(a) + Words(b)
  {
    SplitConcat(a, b, ' ');
    NonEmptyConcat(Split(a, ' '), Split(b, ' '));
  }

  /** A string without spaces is one word, or none when it is empty. */
  lemma WordsOfWord(w: string)
    requires ' ' !in w
    ensures Words(w) == if w == "" then [] else [w]
  {
    SplitNone(w, ' ');
    assert [w][1..] == [] && [w][0] == w;
    assert NonEmpty([w]) == (if w == "" then [] else [w]) + NonEmpty([]);
  }

  /** Every string of `parts`, wrapped as non-null. */
  function Somes(parts: seq<string>): (r: seq<Option<string>>)
    ensures |r| == |parts|
    ensures forall i :: 0 <= i < |parts| ==> r[i] == Some(parts[i])
  {
    seq(|parts|, i requires 0 <= i < |parts| => Some(parts[i]))
  }

  // ----- integer formatting, as `int.ToString()` -----

  function DigitChar(d: nat): (c: char)
    requires d < 10
    ensures '0' <= c <= '9' && c as int - '0' as int == d
  {
    ('0' as int + d) as char
  }

  predicate IsDigits(s: string) {
    forall i :: 0 <= i < |s| ==> '0' <= s[i] <= '9'
  }

  /** The decimal digits of `n`, without leading zeros. */
  function NatToString(n: nat): (s: string)
    ensures |s| > 0 && IsDigits(s)
    ensures |s| > 1 ==> s[0] != '0'
  {
    if n < 10 then [DigitChar(n)] else NatToString(n / 10) + [DigitChar(n % 10)]
  }

  /** The value of a string of decimal digits. */
  function ParseNat(s: string): nat
    requires IsDigits(s)
  {
    if s == [] then 0 else ParseNat(s[..|s| - 1]) * 10 + (s[|s| - 1] as int - '0' as int)
  }

  lemma {:induction false} ParseNatToString(n: nat)
    ensures ParseNat(NatToString(n)) == n
  {
    if n >= 10 {
      var s := NatToString(n);
      assert s[..|s| - 1] == NatToString(n / 10);
      ParseNatToString(n / 10);
    }
  }

  /** `n.ToString()`: a minus sign before the digits of a negative number. */
  function IntToString(n: int): (s: string)
    ensures |s| > 0 && '.' !in s && '?' !in s
  {
    if n < 0 then "-" + NatToString(-n) else NatToString(n)
  }

  /** Reads back what `IntToString` writes. */
  function ParseInt(s: string): Option<int>
  {
    if |s| > 0 && s[0] == '-' then
      if IsDigits(s[1..]) then Some(-(ParseNat(s[1..]) as int)) else None
    else if IsDigits(s) then Some(ParseNat(s))
    else None
  }

  lemma IntToStringRoundTrip(n: int)
    ensures ParseInt(IntToString(n)) == Some(n)
  {
    var s := IntToString(n);
    if n < 0 {
      var digits := NatToString(-n);
      assert s[0] == '-' && s[1..] == digits;
      ParseNatToString(-n);
    } else {
      ParseNatToString(n);
    }
  }
}
