/** The few string operations of Go's `strings` and `fmt` packages that the
    engine uses to render and re-read its labels. */
module Text {
  import opened Decimal

  /** `strings.Join`. */
  function Join(parts: seq<string>, sep: string): string {
    if |parts| == 0 then ""
    else if |parts| == 1 then parts[0]
    else parts[0] + sep + Join(parts[1..], sep)
  }

  /** `strings.Split` with a one-character separator: the pieces between
      separators, so there is always one piece more than separators. */
  function Split(s: string, sep: char): (r: seq<string>)
    ensures |r| >= 1
    ensures forall i :: 0 <= i < |r| ==> sep !in r[i]
    ensures Join(r, [sep]) == s
  {
    if |s| == 0 then [""]
    else
      var rest := Split(s[1..], sep);
      if s[0] == sep then
        assert s == [sep] + s[1..];
        [""] + rest
      else
        var r := [[s[0]] + rest[0]] + rest[1..];
        assert r[1..] == rest[1..];
        assert s == [s[0]] + s[1..];
        r
  }

  lemma {:induction false} SplitNoSeparator(a: string, sep: char)
    requires sep !in a
    ensures Split(a, sep) == [a]
    decreases |a|
  {
    if |a| > 0 {
      SplitNoSeparator(a[1..], sep);
      assert a == [a[0]] + a[1..];
    }
  }

  lemma {:induction false} SplitAfterPiece(a: string, sep: char, b: string)
    requires sep !in a
    ensures Split(a + [sep] + b, sep) == [a] + Split(b, sep)
    decreases |a|
  {
    var s := a + [sep] + b;
    if |a| == 0 {
      assert s[1..] == b;
    } else {
      assert s[1..] == a[1..] + [sep] + b;
      SplitAfterPiece(a[1..], sep, b);
      assert [a[0]] + a[1..] == a;
    }
  }

  /** Splitting a join recovers the pieces, when no piece holds the separator. */
  lemma {:induction false} SplitJoin(parts: seq<string>, sep: char)
    requires |parts| >= 1
    requires forall i :: 0 <= i < |parts| ==> sep !in parts[i]
    ensures Split(Join(parts, [sep]), sep) == parts
    decreases |parts|
  {
    if |parts| == 1 {
      SplitNoSeparator(parts[0], sep);
    } else {
      SplitJoin(parts[1..], sep);
      SplitAfterPiece(parts[0], sep, Join(parts[1..], [sep]));
      assert [parts[0]] + parts[1..] == parts;
    }
  }

  /** `strings.ReplaceAll(s, c, "")`: every occurrence of `c` dropped, the
      other characters kept in order. */
  function RemoveAll(s: string, c: char): (r: string)
    ensures c !in r
    ensures |r| <= |s|
    ensures forall x :: x != c ==> (x in r <==> x in s)
    ensures c !in s ==> r == s
  {
    if |s| == 0 then ""
    else
      var rest := RemoveAll(s[1..], c);
      assert s == [s[0]] + s[1..];
      if s[0] == c then rest else [s[0]] + rest
  }

  lemma {:induction false} RemoveAllAppend(s: string, t: string, c: char)
    ensures RemoveAll(s + t, c) == RemoveAll(s, c) + RemoveAll(t, c)
    decreases |s|
  {
    if |s| == 0 {
      assert s + t == t;
    } else {
      assert (s + t)[1..] == s[1..] + t;
      RemoveAllAppend(s[1..], t, c);
    }
  }

  /** `strings.Replace(s, from, to, -1)` for one-character strings: no
      `from` is left when it differs from `to`. */
  function ReplaceChar(s: string, from: char, to: char): (r: string)
    ensures |r| == |s|
    ensures forall i :: 0 <= i < |s| ==> r[i] == (if s[i] == from then to else s[i])
    ensures from != to ==> from !in r
  {
    seq(|s|, i requires 0 <= i < |s| => if s[i] == from then to else s[i])
  }

  /** `strings.TrimLeft` with a cut set: the longest prefix of cut
      characters is dropped, and nothing more. */
  function TrimLeft(s: string, cut: set<char>): (r: string)
    ensures |r| == 0 || r[0] !in cut
    ensures |r| <= |s| && r == s[|s| - |r|..]
    ensures forall i :: 0 <= i < |s| - |r| ==> s[i] in cut
  {
    if |s| > 0 && s[0] in cut then TrimLeft(s[1..], cut) else s
  }

  /** `strings.TrimRight` with a cut set: the longest suffix of cut
      characters is dropped, and nothing more. */
  function TrimRight(s: string, cut: set<char>): (r: string)
    ensures |r| == 0 || r[|r| - 1] !in cut
    ensures |r| <= |s| && r == s[..|r|]
    ensures forall i :: |r| <= i < |s| ==> s[i] in cut
  {
    if |s| > 0 && s[|s| - 1] in cut then TrimRight(s[..|s| - 1], cut) else s
  }

  /** `strings.Trim`: cut-set characters dropped from both ends. */
  function Trim(s: string, cut: set<char>): string {
    TrimRight(TrimLeft(s, cut), cut)
  }

  /** The decimal renderings of a list of non-negative ints. */
  function Numerals(values: seq<nat>): (r: seq<string>)
    ensures |r| == |values|
    ensures forall i :: 0 <= i < |values| ==> r[i] == NatToString(values[i])
  {
    seq(|values|, i requires 0 <= i < |values| => NatToString(values[i]))
  }

  /** `fmt.Sprint` of an `[]int`: "[" then the elements separated by spaces, then "]". */
  function SprintInts(values: seq<nat>): string {
    "[" + Join(Numerals(values), " ") + "]"
  }

  /** `intSliceToString`: `fmt.Sprint`, spaces replaced by '/', brackets trimmed. */
  function IntSliceToString(values: seq<nat>): (r: string)
    ensures r == Join(Numerals(values), "/")
  {
    IntSliceToStringJoins(values);
    Trim(ReplaceChar(SprintInts(values), ' ', '/'), {'[', ']'})
  }

  /** Every piece is a numeral, so it holds neither a space, a bracket nor a slash. */
  predicate AllDigits(s: string) {
    forall i :: 0 <= i < |s| ==> IsDigitChar(s[i])
  }

  lemma {:induction false} JoinOfDigits(parts: seq<string>, sep: char)
    requires forall i :: 0 <= i < |parts| ==> |parts[i]| >= 1 && AllDigits(parts[i])
    ensures var j := Join(parts, [sep]);
      (|parts| == 0 <==> |j| == 0) &&
      (|j| > 0 ==> IsDigitChar(j[0]) && IsDigitChar(j[|j| - 1]))
    decreases |parts|
  {
    if |parts| > 1 {
      JoinOfDigits(parts[1..], sep);
    }
  }

  lemma {:induction false} ReplaceJoin(parts: seq<string>, from: char, to: char)
    requires forall i :: 0 <= i < |parts| ==> from !in parts[i]
    ensures ReplaceChar(Join(parts, [from]), from, to) == Join(parts, [to])
    decreases |parts|
  {
    if |parts| == 1 {
      assert ReplaceChar(parts[0], from, to) == parts[0];
    } else if |parts| > 1 {
      ReplaceJoin(parts[1..], from, to);
      var rest := Join(parts[1..], [from]);
      var whole := parts[0] + [from] + rest;
      assert ReplaceChar(whole, from, to)
          == ReplaceChar(parts[0], from, to) + [to] + ReplaceChar(rest, from, to);
      assert ReplaceChar(parts[0], from, to) == parts[0];
    }
  }

  lemma ReplaceAcrossBrackets(mid: string, from: char, to: char)
    requires from != '[' && from != ']'
    ensures ReplaceChar("[" + mid + "]", from, to) == "[" + ReplaceChar(mid, from, to) + "]"
  {
  }

  lemma TrimLeftOpening(j: string, cut: set<char>)
    requires '[' in cut && ']' in cut
    requires |j| > 0 ==> j[0] !in cut
    ensures TrimLeft("[" + j + "]", cut) == (if |j| == 0 then "" else j + "]")
  {
    var s := "[" + j + "]";
    assert s[1..] == j + "]";
    if |j| == 0 {
      assert TrimLeft("]", cut) == TrimLeft("]"[1..], cut);
    } else {
      assert (j + "]")[0] == j[0];
    }
  }

  lemma TrimRightClosing(j: string, cut: set<char>)
    requires ']' in cut
    requires |j| > 0 && j[|j| - 1] !in cut
    ensures TrimRight(j + "]", cut) == j
  {
    assert (j + "]")[..|j|] == j;
  }

  /** Trimming brackets off "[j]" gives j back when j starts and ends with a digit. */
  lemma TrimBracketed(j: string)
    requires |j| > 0 ==> IsDigitChar(j[0]) && IsDigitChar(j[|j| - 1])
    ensures Trim("[" + j + "]", {'[', ']'}) == j
  {
    TrimLeftOpening(j, {'[', ']'});
    if |j| > 0 {
      TrimRightClosing(j, {'[', ']'});
    }
  }

  lemma IntSliceToStringJoins(values: seq<nat>)
    ensures Trim(ReplaceChar(SprintInts(values), ' ', '/'), {'[', ']'})
         == Join(Numerals(values), "/")
  {
    var parts := Numerals(values);
    forall i | 0 <= i < |parts|
      ensures ' ' !in parts[i]
    {
      assert forall k :: 0 <= k < |parts[i]| ==> IsDigitChar(parts[i][k]);
    }
    JoinOfDigits(parts, '/');
    ReplaceJoin(parts, ' ', '/');
    ReplaceAcrossBrackets(Join(parts, " "), ' ', '/');
    TrimBracketed(Join(parts, "/"));
  }
}
