/** Signed stage labels: `finalNumber` renders a sign followed by the trail
    of a sum, `stageNumbers` builds the five cumulative-prefix labels. */
module Stages {
  import opened Decimal
  import opened Text
  import opened Trails

  /** A sign string is made of '+' and '-' only ("+" solar, "-" lunar, "" for names). */
  predicate IsSign(sign: string) {
    forall i :: 0 <= i < |sign| ==> sign[i] == '+' || sign[i] == '-'
  }

  /** `finalNumber`: the sign, then the slash-joined trail of the sum of
      `values`; the label starts with its sign and has something after it. */
  function FinalNumber(sign: string, values: seq<nat>): (r: string)
    ensures |sign| < |r| && r[..|sign|] == sign
  {
    var t := TrailString(SeqSum(values));
    TrailStringAlphabet(SeqSum(values));
    assert (sign + t)[..|sign|] == sign;
    sign + t
  }

  /** A label is its sign followed by at least one character, all digits and slashes. */
  lemma FinalNumberShape(sign: string, values: seq<nat>)
    ensures var r := FinalNumber(sign, values);
      && |sign| < |r| && r[..|sign|] == sign
      && forall i :: |sign| <= i < |r| ==> IsDigitChar(r[i]) || r[i] == '/'
  {
    TrailStringAlphabet(SeqSum(values));
    SignedBody(sign, TrailString(SeqSum(values)));
  }

  lemma SignedBody(sign: string, t: string)
    requires |t| >= 1
    requires forall i :: 0 <= i < |t| ==> IsDigitChar(t[i]) || t[i] == '/'
    ensures |sign| < |sign + t| && (sign + t)[..|sign|] == sign
    ensures forall i :: |sign| <= i < |sign + t| ==> IsDigitChar((sign + t)[i]) || (sign + t)[i] == '/'
  {
    assert (sign + t)[..|sign|] == sign;
    forall i | |sign| <= i < |sign + t|
      ensures IsDigitChar((sign + t)[i]) || (sign + t)[i] == '/'
    {
      assert (sign + t)[i] == t[i - |sign|];
    }
  }

  /** A label of one value is the sign followed by that value's trail. */
  lemma FinalNumberOfOne(sign: string, v: nat)
    ensures FinalNumber(sign, [v]) == sign + TrailString(v)
  {
    SeqSumOne(v);
  }

  lemma SeqSumOne(v: nat)
    ensures SeqSum([v]) == v
  {
    assert [v][..0] == [];
  }

  /** `stageNumbers`: label `i` is `finalNumber` of the first `i + 1` inputs.
      Read back (for a sign of '+' and '-' only), label `i` leads with the sum
      of those inputs and ends in that sum's digital root, and each label's
      lead is the previous label's lead plus the next input. */
  function StageNumbers(sign: string, values: seq<nat>): (r: seq<string>)
    requires |values| == 5
    ensures |r| == 5
    ensures forall i :: 0 <= i < 5 ==> r[i] == FinalNumber(sign, values[..i + 1])
    ensures IsSign(sign) ==> forall i :: 0 <= i < 5 ==>
      && LeadValue(r[i]) == SeqSum(values[..i + 1])
      && ReducedValue(r[i]) == DigitalRoot(SeqSum(values[..i + 1]))
    ensures IsSign(sign) ==> LeadValue(r[0]) == values[0]
    ensures IsSign(sign) ==> forall i :: 1 <= i < 5 ==> LeadValue(r[i]) == LeadValue(r[i - 1]) + values[i]
  {
    var r := seq(5, i requires 0 <= i < 5 => FinalNumber(sign, values[..i + 1]));
    if IsSign(sign) then PrefixLabelsRead(sign, values, r); r else r
  }

  /** How a label is read back (as `soulDegree` does): every '+' and '-'
      dropped, then split on '/'. */
  function Layers(stage: string): (r: seq<string>)
    ensures |r| >= 1
  {
    Split(RemoveAll(RemoveAll(stage, '+'), '-'), '/')
  }

  lemma {:induction false} StripSign(sign: string)
    requires IsSign(sign)
    ensures RemoveAll(RemoveAll(sign, '+'), '-') == ""
    decreases |sign|
  {
    if |sign| > 0 {
      StripSign(sign[1..]);
      assert RemoveAll(sign, '+') == (if sign[0] == '+' then RemoveAll(sign[1..], '+') else [sign[0]] + RemoveAll(sign[1..], '+'));
      RemoveAllAppend([sign[0]], RemoveAll(sign[1..], '+'), '-');
    }
  }

  /** Dropping the signs from a signed body that holds none gives the body. */
  lemma StripSignedBody(sign: string, body: string)
    requires IsSign(sign)
    requires '+' !in body && '-' !in body
    ensures RemoveAll(RemoveAll(sign + body, '+'), '-') == body
  {
    RemoveAllAppend(sign, body, '+');
    RemoveAllAppend(RemoveAll(sign, '+'), body, '-');
    StripSign(sign);
  }

  /** The layers of a label are the numerals of the trail of its sum, whatever the sign. */
  lemma FinalNumberLayers(sign: string, values: seq<nat>)
    requires IsSign(sign)
    ensures Layers(FinalNumber(sign, values)) == Numerals(Trail(SeqSum(values)))
  {
    var n := SeqSum(values);
    TrailStringSigns(n);
    StripSignedBody(sign, TrailString(n));
    TrailStringLayers(n);
  }

  /** The number a label's first layer denotes. */
  function LeadValue(stage: string): nat {
    ParseDecimal(Layers(stage)[0])
  }

  /** The number a label's last layer denotes (its reduced value). */
  function ReducedValue(stage: string): nat {
    var layers := Layers(stage);
    ParseDecimal(layers[|layers| - 1])
  }

  /** A label reads back as its sum and ends in that sum's digital root. */
  lemma FinalNumberReadBack(sign: string, values: seq<nat>)
    requires IsSign(sign)
    ensures LeadValue(FinalNumber(sign, values)) == SeqSum(values)
    ensures ReducedValue(FinalNumber(sign, values)) == DigitalRoot(SeqSum(values))
  {
    var n := SeqSum(values);
    FinalNumberLayers(sign, values);
    TrailEndsInDigitalRoot(n);
    ParseNatToString(Trail(n)[0]);
    ParseNatToString(Trail(n)[|Trail(n)| - 1]);
  }

  /** The labels of the prefixes of five inputs, read back. */
  lemma PrefixLabelsRead(sign: string, values: seq<nat>, r: seq<string>)
    requires IsSign(sign) && |values| == 5 && |r| == 5
    requires forall i :: 0 <= i < 5 ==> r[i] == FinalNumber(sign, values[..i + 1])
    ensures forall i :: 0 <= i < 5 ==>
      && LeadValue(r[i]) == SeqSum(values[..i + 1])
      && ReducedValue(r[i]) == DigitalRoot(SeqSum(values[..i + 1]))
    ensures LeadValue(r[0]) == values[0]
    ensures forall i :: 1 <= i < 5 ==> LeadValue(r[i]) == LeadValue(r[i - 1]) + values[i]
  {
    forall i | 0 <= i < 5
      ensures LeadValue(r[i]) == SeqSum(values[..i + 1])
      ensures ReducedValue(r[i]) == DigitalRoot(SeqSum(values[..i + 1]))
    {
      FinalNumberReadBack(sign, values[..i + 1]);
    }
    assert values[..1][..0] == [];
    forall i | 1 <= i < 5
      ensures LeadValue(r[i]) == LeadValue(r[i - 1]) + values[i]
    {
      assert values[..i + 1][..i] == values[..i];
    }
  }

  /** The worked example: inputs [3, 9, 2, 5, 1] give "+14/5" for the third label. */
  lemma StageNumbersExample()
    ensures StageNumbers("+", [3, 9, 2, 5, 1])[2] == "+14/5"
  {
    var values := [3, 9, 2, 5, 1];
    assert values[..3] == [3, 9, 2];
    FinalNumberExample();
  }

  lemma FinalNumberExample()
    ensures FinalNumber("+", [3, 9, 2]) == "+14/5"
  {
    assert SeqSum([3, 9, 2]) == 14 by {
      assert [3, 9, 2][..2] == [3, 9];
      assert [3, 9][..1] == [3];
      assert [3][..0] == [];
    }
    TrailStringExampleFourteen();
  }
}
