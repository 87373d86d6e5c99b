/**
 * Brazilian postcodes (CEP) as the funnel handles them: the masked input
 * form '00000-000', the Divinópolis delivery range 35500000–35507999, and
 * the answer of the ViaCEP lookup service, which the model takes as an
 * input rather than fetching.
 */
module Cep {
  import opened Text

  const RangeLow: nat := 35500000
  const RangeHigh: nat := 35507999

  /** `formatCep`: the digits, with '-' after the fifth when there are at least eight. */
  function FormatCep(value: string): (r: string)
    ensures |DigitsOf(value)| >= 8 ==> r == DigitsOf(value)[..5] + "-" + DigitsOf(value)[5..]
    ensures |DigitsOf(value)| < 8 ==> r == DigitsOf(value)
  {
    var numbers := DigitsOf(value);
    if |numbers| >= 8 then numbers[..5] + "-" + numbers[5..] else numbers
  }

  /** The mask adds no digit and loses none. */
  lemma FormatCepKeepsDigits(value: string)
    ensures DigitsOf(FormatCep(value)) == DigitsOf(value)
  {
    var numbers := DigitsOf(value);
    if |numbers| >= 8 {
      var head, tail := numbers[..5], numbers[5..];
      assert AllDigits(head) && AllDigits(tail);
      assert FormatCep(value) == (head + "-") + tail;
      DigitsOfAppend(head + "-", tail);
      DigitsOfAppend(head, "-");
      assert DigitsOf("-") == DigitsOf("-"[1..]) == "";
      assert DigitsOf(head + "-") == head;
      assert head + tail == numbers;
    }
  }

  /** Formatting an already formatted CEP changes nothing. */
  lemma FormatCepIdempotent(value: string)
    ensures FormatCep(FormatCep(value)) == FormatCep(value)
  {
    FormatCepKeepsDigits(value);
  }

  /**
   * `isValidDivinopolisCEP`: the digits, read as a number, lie in the
   * Divinópolis range; a value with no digits reads as NaN and fails.
   */
  predicate IsValidDivinopolisCEP(cep: string) {
    var clean := DigitsOf(cep);
    clean != "" && RangeLow <= DigitsValue(clean) <= RangeHigh
  }

  /** Reading one more digit: the value so far times ten, plus the digit. */
  lemma PrefixStep(s: string, k: nat)
    requires AllDigits(s) && k < |s|
    ensures AllDigits(s[..k]) && AllDigits(s[..k + 1])
    ensures DigitsValue(s[..k + 1]) == DigitsValue(s[..k]) * 10 + (s[k] as int - '0' as int)
  {
    assert AllDigits(s[..k]) && AllDigits(s[..k + 1]);
    assert s[..k + 1][..k] == s[..k];
  }

  /** The value of the digit at position `i`. */
  function DigitAt(d: string, i: nat): int
    requires i < |d|
  {
    d[i] as int - '0' as int
  }

  /** Eight digits read as the five-digit head times a thousand plus the three-digit tail. */
  lemma EightDigitValue(d: string)
    requires AllDigits(d) && |d| == 8
    ensures DigitsValue(d) ==
      ((((DigitAt(d, 0) * 10 + DigitAt(d, 1)) * 10 + DigitAt(d, 2)) * 10 + DigitAt(d, 3)) * 10 + DigitAt(d, 4)) * 1000
      + (DigitAt(d, 5) * 10 + DigitAt(d, 6)) * 10 + DigitAt(d, 7)
  {
    assert d[..0] == [] && d[..8] == d;
    PrefixStep(d, 0);
    PrefixStep(d, 1);
    PrefixStep(d, 2);
    PrefixStep(d, 3);
    PrefixStep(d, 4);
    PrefixStep(d, 5);
    PrefixStep(d, 6);
    PrefixStep(d, 7);
  }

  /** The range 35500000–35507999 in terms of the digit values. */
  lemma RangeByDigits(v0: int, v1: int, v2: int, v3: int, v4: int, v5: int, v6: int, v7: int)
    requires 0 <= v0 <= 9 && 0 <= v1 <= 9 && 0 <= v2 <= 9 && 0 <= v3 <= 9
    requires 0 <= v4 <= 9 && 0 <= v5 <= 9 && 0 <= v6 <= 9 && 0 <= v7 <= 9
    ensures var n := ((((v0 * 10 + v1) * 10 + v2) * 10 + v3) * 10 + v4) * 1000 + (v5 * 10 + v6) * 10 + v7;
      RangeLow <= n <= RangeHigh <==> v0 == 3 && v1 == 5 && v2 == 5 && v3 == 0 && v4 <= 7
  {
    var h4 := ((v0 * 10 + v1) * 10 + v2) * 10 + v3;
    var h5 := h4 * 10 + v4;
    var low := (v5 * 10 + v6) * 10 + v7;
    assert 0 <= low <= 999;
    assert RangeLow <= h5 * 1000 + low <= RangeHigh <==> 35500 <= h5 <= 35507;
    assert 35500 <= h5 <= 35507 <==> h4 == 3550 && v4 <= 7;
    assert h4 == 3550 <==> v0 == 3 && v1 == 5 && v2 == 5 && v3 == 0;
  }

  /**
   * For an eight-digit CEP the range test is a prefix test: the CEP is
   * accepted exactly when it starts with 3550 followed by a digit 0 to 7.
   */
  lemma DivinopolisPrefix(cep: string)
    requires |DigitsOf(cep)| == 8
    ensures var d := DigitsOf(cep);
      IsValidDivinopolisCEP(cep) <==> d[0] == '3' && d[1] == '5' && d[2] == '5' && d[3] == '0' && '0' <= d[4] <= '7'
  {
    var d := DigitsOf(cep);
    EightDigitValue(d);
    assert IsDigit(d[0]) && IsDigit(d[1]) && IsDigit(d[2]) && IsDigit(d[3]);
    assert IsDigit(d[4]) && IsDigit(d[5]) && IsDigit(d[6]) && IsDigit(d[7]);
    RangeByDigits(DigitAt(d, 0), DigitAt(d, 1), DigitAt(d, 2), DigitAt(d, 3),
                  DigitAt(d, 4), DigitAt(d, 5), DigitAt(d, 6), DigitAt(d, 7));
  }

  /** What the ViaCEP lookup gave back. */
  datatype ViaCepResponse =
    /** A response with `erro` set: the CEP does not exist. */
    | NotFound
    /** An address; a field the service left out is `None`. */
    | Found(logradouro: Option<string>, bairro: Option<string>, localidade: Option<string>)
    /** The request or the JSON parse failed. */
    | Failed
}
