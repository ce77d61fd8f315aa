/** The standalone number endpoint `generateNum`: a string of decimal digits
    is answered with the JSON object `{"lifePassword": <trail>}`, where the
    trail is the slash-joined digit trail of the string's digit sum; anything
    else is a bad request. */
module NumEndpoint {
  import opened Decimal
  import opened Text
  import opened Trails

  const StatusOK: nat := 200
  const StatusBadRequest: nat := 400

  /** What the handler answers: the response body (nil in Go, empty here) and the HTTP status. */
  datatype Response = Response(body: string, status: nat)

  /** `^\d+$` as Go's RE2 reads it: `\d` is the ASCII class [0-9], and `$`
      without the multi-line flag matches only at the very end of the text. A
      string it accepts denotes a number whose digit sum is the sum of its
      runes' values, and it is that number's rendering when it has no
      leading zero. */
  predicate MatchesNumber(s: string): (r: bool)
    ensures r <==> |s| >= 1 && forall i :: 0 <= i < |s| ==> IsDigitChar(s[i])
    ensures r ==> SumDigitsByStr(s).0 == DigitSum(ParseDecimal(s))
    ensures r && (s[0] != '0' || |s| == 1) ==> NatToString(ParseDecimal(s)) == s
  {
    if |s| >= 1 && forall i :: 0 <= i < |s| ==> IsDigitChar(s[i]) then
      CharSumIsDigitSum(s);
      if IsCanonical(s) then NatToStringParse(s); true else true
    else
      false
  }

  /** A rune `encoding/json` escapes inside a string: the quote, the backslash,
      control characters, the HTML-sensitive '<', '>' and '&', and U+2028/U+2029. */
  predicate NeedsEscape(c: char) {
    c == '"' || c == '\\' || c < ' ' || c == '<' || c == '>' || c == '&' || c == '\U{2028}' || c == '\U{2029}'
  }

  /** The opening of the marshalled `Result` struct, up to its string value. */
  const JsonHead: string := "{\"lifePassword\":\""

  /** `json.Marshal(&Result{LifePassword: p})` for a value that needs no
      escaping. The body reads back: the value sits between the fixed head
      and the closing `"}`, so the password is recovered exactly. */
  function LifePasswordJson(p: string): (b: string)
    ensures |b| == |p| + 19
    ensures b[..17] == JsonHead
    ensures b[|b| - 2..] == "\"}"
    ensures b[17..|b| - 2] == p
  {
    JsonHead + p + "\"}"
  }

  /** Two passwords give the same body only when they are the same. */
  lemma LifePasswordJsonInjective(p: string, q: string)
    requires LifePasswordJson(p) == LifePasswordJson(q)
    ensures p == q
  {
  }

  /** A rendered trail holds digits and slashes only, none of which the encoder escapes. */
  lemma TrailStringNeedsNoEscape(v: nat)
    ensures forall i :: 0 <= i < |TrailString(v)| ==> !NeedsEscape(TrailString(v)[i])
  {
    TrailStringAlphabet(v);
  }

  /** `generateNum`: a string that is not all ASCII digits (the empty string
      included) is rejected with 400 and no body; otherwise the digit sum of
      the number it denotes is rendered as its trail and sent with 200. */
  method GenerateNum(number: string) returns (r: Response)
    ensures r.status == StatusBadRequest <==> !MatchesNumber(number)
    ensures r.status == StatusBadRequest ==> r.body == []
    ensures r.status != StatusBadRequest ==>
      r.status == StatusOK && r.body == LifePasswordJson(TrailString(DigitSum(ParseDecimal(number))))
  {
    if !MatchesNumber(number) {
      return Response([], StatusBadRequest);
    }
    var sum := SumDigitsByStr(number).0;
    var result := SumDigitsToString(sum);
    TrailStringNeedsNoEscape(sum);
    r := Response(LifePasswordJson(result), StatusOK);
  }

  /** What the password says about the number: its first layer is the digit
      sum of the number and its last layer the number's digital root. */
  lemma PasswordReadBack(number: string)
    requires MatchesNumber(number)
    ensures var layers := Split(TrailString(DigitSum(ParseDecimal(number))), '/');
      && ParseDecimal(layers[0]) == DigitSum(ParseDecimal(number))
      && ParseDecimal(layers[|layers| - 1]) == DigitalRoot(ParseDecimal(number))
  {
    var n := ParseDecimal(number);
    var v := DigitSum(n);
    TrailStringLayers(v);
    TrailEndsInDigitalRoot(v);
    DigitalRootOfDigitSum(n);
  }

  /** Leading zeros do not change the answer. */
  lemma LeadingZeroIgnored(number: string)
    requires MatchesNumber(number)
    ensures MatchesNumber("0" + number)
    ensures DigitSum(ParseDecimal("0" + number)) == DigitSum(ParseDecimal(number))
  {
    CharSumIsDigitSum(number);
    CharSumIsDigitSum("0" + number);
    SumDigitsByStrAppend("0", number);
    assert SumDigitsByStr("0").0 == 0;
  }

  /** The worked example: "1999" has digit sum 28, answered as "28/10/1". */
  lemma GenerateNumExample()
    ensures MatchesNumber("1999")
    ensures DigitSum(ParseDecimal("1999")) == 28
    ensures TrailString(28) == "28/10/1"
  {
    CharSumIsDigitSum("1999");
    assert SumDigitsByStr("1999").0 == 28 by {
      assert "1999"[..3] == "199" && "199"[..2] == "19" && "19"[..1] == "1" && "1"[..0] == "";
    }
    TrailStringTwentyEight();
  }

  lemma TrailStringTwentyEight()
    ensures TrailString(28) == "28/10/1"
  {
    assert Trail(28) == [28, 10, 1] by {
      assert DigitSum(28) == 10;
      assert Trail(10) == [10, 1] by {
        assert DigitSum(10) == 1;
      }
    }
    assert Numerals([28, 10, 1]) == ["28", "10", "1"] by {
      assert NatToString(28) == "28";
      assert NatToString(10) == "10";
    }
    assert Join(["28", "10", "1"], "/") == "28/10/1" by {
      assert Join(["10", "1"], "/") == "10/1";
    }
  }
}
