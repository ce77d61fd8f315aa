/** The letter table of the name rows: each of the 26 Latin letters carries a
    value 1..9, `revert` turns the value-to-letters table into a letter-to-value
    map, and `charsToDigits` renders the trail of a name's letter sum. */
module Names {
  import opened Decimal
  import opened Text
  import opened Trails
  import opened Stages

  /** `chars`: the letters grouped under the value they carry. */
  const Chars: map<nat, seq<string>> := map[
    1 := ["a", "i", "j", "q", "y"],
    2 := ["b", "k", "r"],
    3 := ["g", "l"],
    4 := ["d", "m"],
    5 := ["h", "n"],
    6 := ["s", "u", "v", "w"],
    7 := ["o", "x", "e", "z"],
    8 := ["c", "p", "f"],
    9 := ["t"]]

  /** Reference reading of the same table, one rune at a time: the value of a
      lower-case letter, and 0 for every rune that is not one. */
  function LetterValue(c: char): (v: nat)
    ensures v <= 9
  {
    if c in "aijqy" then 1
    else if c in "bkr" then 2
    else if c in "gl" then 3
    else if c in "dm" then 4
    else if c in "hn" then 5
    else if c in "suvw" then 6
    else if c in "oxez" then 7
    else if c in "cpf" then 8
    else if c == 't' then 9
    else 0
  }

  /** Exactly the 26 lower-case letters carry a value, and it lies in 1..9. */
  lemma LetterValueRange(c: char)
    ensures 'a' <= c <= 'z' <==> LetterValue(c) != 0
    ensures 'a' <= c <= 'z' ==> 1 <= LetterValue(c) <= 9
  {
  }

  /** No key is listed under two values. */
  predicate Disjoint(table: map<nat, seq<string>>) {
    forall k1, k2, v :: k1 in table && k2 in table && v in table[k1] && v in table[k2] ==> k1 == k2
  }

  /** `revert` after visiting the keys `order` of `table` in that order (Go
      leaves the order of a map range unspecified): every listed value maps to
      the key of a bucket holding it, the later bucket winning a clash. */
  function RevertIn(table: map<nat, seq<string>>, order: seq<nat>): (m: map<string, nat>)
    requires forall i :: 0 <= i < |order| ==> order[i] in table
    ensures forall v :: v in m <==> exists i :: 0 <= i < |order| && v in table[order[i]]
    ensures forall v :: v in m ==> m[v] in order && v in table[m[v]]
  {
    if |order| == 0 then map[]
    else
      var k := order[|order| - 1];
      var m := RevertIn(table, order[..|order| - 1]);
      assert forall i :: 0 <= i < |order| - 1 ==> order[..|order| - 1][i] == order[i];
      m + map v | v in table[k] :: k
  }

  /** An order in which Go may range over a map: every key exactly once. */
  predicate Enumerates(order: seq<nat>, table: map<nat, seq<string>>) {
    && (forall k :: k in table ==> k in order)
    && (forall i :: 0 <= i < |order| ==> order[i] in table)
    && (forall i, j :: 0 <= i < j < |order| ==> order[i] != order[j])
  }

  /** With disjoint buckets a value maps to the one bucket that lists it. */
  lemma RevertLookup(table: map<nat, seq<string>>, order: seq<nat>, k: nat, v: string)
    requires Disjoint(table)
    requires forall i :: 0 <= i < |order| ==> order[i] in table
    requires k in order && v in table[k]
    ensures v in RevertIn(table, order) && RevertIn(table, order)[v] == k
  {
    var i :| 0 <= i < |order| && order[i] == k;
  }

  /** With disjoint buckets the unspecified range order does not matter. */
  lemma RevertOrderIndependent(table: map<nat, seq<string>>, o1: seq<nat>, o2: seq<nat>)
    requires Disjoint(table)
    requires Enumerates(o1, table) && Enumerates(o2, table)
    ensures RevertIn(table, o1) == RevertIn(table, o2)
  {
    var m1, m2 := RevertIn(table, o1), RevertIn(table, o2);
    forall v | v in m1
      ensures v in m2 && m2[v] == m1[v]
    {
      RevertLookup(table, o2, m1[v], v);
    }
    forall v | v in m2
      ensures v in m1
    {
      RevertLookup(table, o1, m2[v], v);
    }
    SameMap(m1, m2);
  }

  lemma SameMap(m1: map<string, nat>, m2: map<string, nat>)
    requires forall v :: v in m1 ==> v in m2 && m2[v] == m1[v]
    requires forall v :: v in m2 ==> v in m1
    ensures m1 == m2
  {
  }

  /** `charMap`, reverting `chars` in ascending key order. */
  const CharMap: map<string, nat> := RevertIn(Chars, [1, 2, 3, 4, 5, 6, 7, 8, 9])

  /** Every entry of `chars` is one letter listed under its own value. */
  lemma CharsBuckets()
    ensures forall k :: k in Chars <==> 1 <= k <= 9
    ensures forall k, v :: k in Chars && v in Chars[k] ==> |v| == 1 && LetterValue(v[0]) == k
  {
  }

  lemma CharsDisjoint()
    ensures Disjoint(Chars)
  {
    forall k1, k2, v | k1 in Chars && k2 in Chars && v in Chars[k1] && v in Chars[k2]
      ensures k1 == k2
    {
      BucketEntry(k1, v);
      BucketEntry(k2, v);
    }
  }

  /** A letter is listed in the bucket of its value. */
  lemma LetterListed(c: char)
    requires LetterValue(c) != 0
    ensures LetterValue(c) in Chars && [c] in Chars[LetterValue(c)]
  {
  }

  /** `charMap` agrees with the reference reading of the table, rune by rune,
      whatever order `revert` visited the buckets in. */
  lemma CharMapLookup(c: char, order: seq<nat>)
    requires Enumerates(order, Chars)
    ensures [c] in RevertIn(Chars, order) <==> LetterValue(c) != 0
    ensures [c] in RevertIn(Chars, order) ==> RevertIn(Chars, order)[[c]] == LetterValue(c)
  {
    var m := RevertIn(Chars, order);
    if [c] in m {
      BucketEntry(m[[c]], [c]);
    }
    if LetterValue(c) != 0 {
      LetterListed(c);
      CharsDisjoint();
      RevertLookup(Chars, order, LetterValue(c), [c]);
    }
  }

  lemma BucketEntry(k: nat, v: string)
    requires k in Chars && v in Chars[k]
    ensures |v| == 1 && LetterValue(v[0]) == k && 1 <= k <= 9
  {
    CharsBuckets();
  }

  lemma CharMapOneLetter(c: char)
    ensures [c] in CharMap <==> LetterValue(c) != 0
    ensures [c] in CharMap ==> CharMap[[c]] == LetterValue(c)
  {
    CharsBuckets();
    CharMapLookup(c, [1, 2, 3, 4, 5, 6, 7, 8, 9]);
  }

  /** `charMap` holds the 26 one-letter strings and nothing else. */
  lemma CharMapKeys(v: string)
    ensures v in CharMap <==> |v| == 1 && 'a' <= v[0] <= 'z'
  {
    CharsBuckets();
    if |v| == 1 {
      assert v == [v[0]];
      CharMapOneLetter(v[0]);
      LetterValueRange(v[0]);
    }
  }

  /** `unicode.ToLower` as far as the table can tell: the runes whose lower
      case is an ASCII letter (A-Z, the dotted capital I U+0130 and the Kelvin
      sign U+212A) are lowered, every other rune is kept. */
  function LowerRune(c: char): (r: char)
    ensures 'a' <= r <= 'z' <==> 'a' <= c <= 'z' || 'A' <= c <= 'Z' || c == '\U{0130}' || c == '\U{212A}'
  {
    if 'A' <= c <= 'Z' then (c as int + 32) as char
    else if c == '\U{0130}' then 'i'
    else if c == '\U{212A}' then 'k'
    else c
  }

  /** `strings.ToLower`, rune by rune. */
  function ToLower(s: string): (r: string)
    ensures |r| == |s|
    ensures forall i :: 0 <= i < |s| ==> r[i] == LowerRune(s[i])
  {
    seq(|s|, i requires 0 <= i < |s| => LowerRune(s[i]))
  }

  /** Lower-casing twice is lower-casing once. */
  lemma ToLowerIdempotent(s: string)
    ensures ToLower(ToLower(s)) == ToLower(s)
  {
    forall i | 0 <= i < |s|
      ensures LowerRune(LowerRune(s[i])) == LowerRune(s[i])
    {
    }
  }

  /** `strings.Split(s, "")`: one string per rune, none for the empty
      string; joining the pieces with "" gives `s` back. */
  function Runes(s: string): (r: seq<string>)
    ensures |r| == |s|
    ensures forall i :: 0 <= i < |s| ==> r[i] == [s[i]]
    ensures Join(r, "") == s
  {
    var r := seq(|s|, i requires 0 <= i < |s| => [s[i]]);
    JoinRunes(s, r);
    r
  }

  /** Joining the one-rune strings of `s`, in order, with "" gives `s`. */
  lemma {:induction false} JoinRunes(s: string, r: seq<string>)
    requires |r| == |s| && forall i :: 0 <= i < |s| ==> r[i] == [s[i]]
    ensures Join(r, "") == s
    decreases |s|
  {
    if |s| == 1 {
      assert r[0] == s;
    } else if |s| > 1 {
      JoinRunes(s[1..], r[1..]);
      assert s == [s[0]] + s[1..];
    }
  }

  /** Reference letter sum of a name: each rune counts the value of its lower case. */
  function NameValue(s: string): nat {
    if |s| == 0 then 0 else NameValue(s[..|s| - 1]) + LetterValue(LowerRune(s[|s| - 1]))
  }

  /** `charsToDigits`, as the loop it is written as: lower-case, split into
      runes, add the `charMap` value of each rune found there. */
  method CharsToDigits(v: string) returns (r: string)
    ensures r == FinalNumber("", [NameValue(v)])
    ensures LeadValue(r) == NameValue(v) && ReducedValue(r) == DigitalRoot(NameValue(v))
  {
    var vs := Runes(ToLower(v));
    var sum := 0;
    for i := 0 to |vs|
      invariant sum == NameValue(v[..i])
    {
      CharMapOneLetter(LowerRune(v[i]));
      if vs[i] in CharMap {
        sum := sum + CharMap[vs[i]];
      }
      assert v[..i + 1][..i] == v[..i];
    }
    assert v[..|vs|] == v;
    r := FinalNumber("", [sum]);
    FinalNumberReadBack("", [sum]);
  }

  /** The letter sum of a concatenation is the sum of the letter sums. */
  lemma {:induction false} NameValueAppend(s: string, t: string)
    ensures NameValue(s + t) == NameValue(s) + NameValue(t)
    decreases |t|
  {
    if |t| == 0 {
      assert s + t == s;
    } else {
      assert (s + t)[..|s + t| - 1] == s + t[..|t| - 1];
      NameValueAppend(s, t[..|t| - 1]);
    }
  }

  /** Case does not matter: two names that lower-case alike have the same sum. */
  lemma {:induction false} NameValueCaseless(s: string, t: string)
    requires |s| == |t|
    requires forall i :: 0 <= i < |s| ==> LowerRune(s[i]) == LowerRune(t[i])
    ensures NameValue(s) == NameValue(t)
    decreases |s|
  {
    if |s| > 0 {
      NameValueCaseless(s[..|s| - 1], t[..|t| - 1]);
    }
  }

  /** Each rune adds at most 9, and runes that are not letters add nothing. */
  lemma {:induction false} NameValueBounds(s: string)
    ensures NameValue(s) <= 9 * |s|
    ensures (forall i :: 0 <= i < |s| ==> LetterValue(LowerRune(s[i])) == 0) ==> NameValue(s) == 0
    decreases |s|
  {
    if |s| > 0 {
      NameValueBounds(s[..|s| - 1]);
    }
  }

  /** The worked examples: "Tom" sums to 9 + 7 + 4 = 20, shown as "20/2";
      the empty name shows "0". */
  lemma NameValueExample()
    ensures NameValue("Tom") == 20
    ensures FinalNumber("", [20]) == "20/2"
    ensures FinalNumber("", [NameValue("")]) == "0"
  {
    NameValueTom();
    FinalNumberTwenty();
    FinalNumberOfOne("", 0);
    TrailStringOfDigit(0);
  }

  lemma NameValueTom()
    ensures NameValue("Tom") == 20
  {
    assert LetterValue(LowerRune('T')) == 9;
    assert LetterValue(LowerRune('o')) == 7;
    assert LetterValue(LowerRune('m')) == 4;
    assert "Tom"[..2] == "To" && "To"[..1] == "T" && "T"[..0] == "";
  }

  lemma FinalNumberTwenty()
    ensures FinalNumber("", [20]) == "20/2"
  {
    FinalNumberOfOne("", 20);
    TrailStringTwenty();
    assert "" + "20/2" == "20/2";
  }

  lemma TrailStringTwenty()
    ensures TrailString(20) == "20/2"
  {
    assert DigitSum(20) == 2;
    assert Trail(20) == [20, 2];
    assert NatToString(20) == "20";
    assert Numerals([20, 2]) == ["20", "2"];
    assert Join(["20", "2"], "/") == "20/2";
  }
}
