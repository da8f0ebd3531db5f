/** The Python string built-ins the integration leans on: `str()` of an int,
    `int()` of a string, `str.zfill` and the substring test `needle in hay`. */
module PyStr {
  import opened Outcomes

  predicate IsDigit(c: char) { '0' <= c <= '9' }

  predicate AllDigits(s: string) { forall i :: 0 <= i < |s| ==> IsDigit(s[i]) }

  predicate IsSign(c: char) { c == '+' || c == '-' }

  function DigitChar(d: nat): (c: char)
    requires d < 10
    ensures IsDigit(c) && c as int - '0' as int == d
  {
    ('0' as int + d) as char
  }

  /** Decimal digits of `n`, most significant first, without leading zeros. */
  function NatToString(n: nat): (s: string)
    ensures |s| >= 1 && AllDigits(s)
    ensures n < 10 <==> |s| == 1
    ensures |s| > 1 ==> s[0] != '0'
    decreases n
  {
    if n < 10 then [DigitChar(n)] else NatToString(n / 10) + [DigitChar(n % 10)]
  }

  /** The value of a string of decimal digits. */
  function DigitsValue(s: string): nat
    requires AllDigits(s)
    decreases |s|
  {
    if |s| == 0 then 0 else DigitsValue(s[..|s| - 1]) * 10 + (s[|s| - 1] as int - '0' as int)
  }

  lemma {:induction false} DigitsValueOfNatToString(n: nat)
    ensures DigitsValue(NatToString(n)) == n
    decreases n
  {
    if n >= 10 {
      var s := NatToString(n);
      assert s[..|s| - 1] == NatToString(n / 10);
      DigitsValueOfNatToString(n / 10);
    }
  }

  /** Python's `str(n)` for an int: an optional minus sign, then the digits. */
  function IntToString(n: int): (s: string)
    ensures |s| >= 1
    ensures n >= 0 ==> AllDigits(s)
    ensures n < 0 ==> |s| >= 2 && s[0] == '-' && AllDigits(s[1..])
    ensures 0 <= n < 10 ==> s == [DigitChar(n)]
    ensures n >= 0 && |s| > 1 ==> s[0] != '0'
    ensures n < 0 ==> s[1] != '0'
  {
    if n < 0 then "-" + NatToString(-n) else NatToString(n)
  }

  /** Python's `int(s)` restricted to an optional sign followed by ASCII
      digits; anything else is the ValueError `int()` raises (None). */
  function ParseInt(s: string): Option<int>
  {
    if |s| >= 2 && IsSign(s[0]) && AllDigits(s[1..]) then
      var v: int := DigitsValue(s[1..]);
      Some(if s[0] == '-' then -v else v)
    else if |s| >= 1 && AllDigits(s) then
      Some(DigitsValue(s))
    else
      None
  }

  /** `int(str(n)) == n` for every int. */
  lemma ParseIntOfIntToString(n: int)
    ensures ParseInt(IntToString(n)) == Some(n)
  {
    var s := IntToString(n);
    if n < 0 {
      assert s[1..] == NatToString(-n);
      DigitsValueOfNatToString(-n);
      assert |s| >= 2 && IsSign(s[0]) && AllDigits(s[1..]);
    } else {
      assert s == NatToString(n);
      DigitsValueOfNatToString(n);
      assert !IsSign(s[0]) && AllDigits(s);
    }
  }

  /** Python's `int()` rejects the empty string and a lone sign. */
  lemma ParseIntRejectsNoDigits(s: string)
    requires s == "" || (|s| == 1 && IsSign(s[0]))
    ensures ParseInt(s) == None
  {
  }

  /** Length of the sign that `zfill` keeps in front of the padding. */
  function SignLength(s: string): nat
  {
    if |s| > 0 && IsSign(s[0]) then 1 else 0
  }

  /** Python's `s.zfill(width)`: pad with '0' on the left up to `width`,
      keeping a leading '+' or '-' in front of the padding. */
  function ZFill(s: string, width: nat): (r: string)
    ensures |r| == if |s| >= width then |s| else width
    ensures |s| >= width ==> r == s
    ensures |s| < width ==>
              var k := SignLength(s);
              && r[..k] == s[..k]
              && r[|r| - (|s| - k)..] == s[k..]
              && forall i :: k <= i < |r| - (|s| - k) ==> r[i] == '0'
  {
    if |s| >= width then s
    else if SignLength(s) == 1 then [s[0]] + seq(width - |s|, _ => '0') + s[1..]
    else seq(width - |s|, _ => '0') + s
  }

  /** The `zfill(2)` used for clock fields: at least two characters, a single
      digit gains a leading "0", and two or more characters are kept as they are. */
  lemma ZFillTwo(s: string)
    ensures |ZFill(s, 2)| >= 2
    ensures |s| == 1 && IsDigit(s[0]) ==> ZFill(s, 2) == ['0', s[0]]
    ensures |s| >= 2 ==> ZFill(s, 2) == s
  {
    if |s| == 1 && IsDigit(s[0]) {
      var r := ZFill(s, 2);
      assert r[1..] == s;
    }
  }

  predicate OccursAt(hay: string, needle: string, i: int)
  {
    0 <= i && i + |needle| <= |hay| && hay[i..i + |needle|] == needle
  }

  lemma OccursShift(hay: string, needle: string)
    requires |hay| > 0
    ensures forall i :: 0 <= i ==> (OccursAt(hay[1..], needle, i) <==> OccursAt(hay, needle, i + 1))
  {
    forall i | 0 <= i ensures OccursAt(hay[1..], needle, i) <==> OccursAt(hay, needle, i + 1) {
      if 0 <= i && i + |needle| <= |hay| - 1 {
        assert hay[1..][i..i + |needle|] == hay[i + 1..i + 1 + |needle|];
      } else {
        assert !OccursAt(hay[1..], needle, i);
        assert !OccursAt(hay, needle, i + 1);
      }
    }
  }

  /** Python's `needle in hay` for strings. */
  function Contains(hay: string, needle: string): (b: bool)
    ensures b <==> exists i :: OccursAt(hay, needle, i)
    decreases |hay|
  {
    if |needle| > |hay| then false
    else if hay[..|needle|] == needle then assert OccursAt(hay, needle, 0); true
    else
      OccursShift(hay, needle);
      assert !OccursAt(hay, needle, 0);
      assert forall i :: OccursAt(hay, needle, i) ==> i == 0 || OccursAt(hay[1..], needle, i - 1);
      Contains(hay[1..], needle)
  }
}
