/**
 * Contact names and integer fields of vox_mother_converter.py.
 *
 * A contact name such as "LAD12" is a lead name followed by a run of decimal
 * digits; the converter splits it with `re.match(r'(.+?)(\d+$)', name)`.
 * Every name comes out of `str.split()`, so it holds no whitespace and the
 * regex's `.` matches each of its characters.
 */
module ContactNames {
  import opened Wrappers

  predicate IsDigit(c: char)
  {
    '0' <= c <= '9'
  }

  predicate AllDigits(s: string)
  {
    forall i :: 0 <= i < |s| ==> IsDigit(s[i])
  }

  function DigitValue(c: char): nat
    requires IsDigit(c)
  {
    (c as int - '0' as int) as nat
  }

  /** The value of a run of decimal digits, as `int()` reads it (leading zeros allowed). */
  function DigitsValue(s: string): nat
    requires AllDigits(s)
    decreases |s|
  {
    if s == [] then 0 else DigitsValue(s[..|s| - 1]) * 10 + DigitValue(s[|s| - 1])
  }

  function DigitChar(d: nat): (c: char)
    requires d < 10
    ensures IsDigit(c) && DigitValue(c) == d
  {
    ('0' as int + d) as char
  }

  /** The decimal text of a natural number, without leading zeros. */
  function NatText(n: nat): (s: string)
    ensures |s| > 0 && AllDigits(s)
    decreases n
  {
    if n < 10 then [DigitChar(n)] else NatText(n / 10) + [DigitChar(n % 10)]
  }

  /** Reading back the decimal text of a number gives the number. */
  lemma {:induction false} NatTextRoundTrip(n: nat)
    ensures DigitsValue(NatText(n)) == n
    decreases n
  {
    if n >= 10 {
      var s := NatText(n);
      assert s[..|s| - 1] == NatText(n / 10);
      NatTextRoundTrip(n / 10);
    }
  }

  /**
   * Python's `int()` on a whitespace-free field: an optional sign followed by
   * at least one decimal digit; anything else raises ValueError (None here).
   */
  function ParseInt(s: string): (r: Option<int>)
    ensures r.Some? <==> (|s| > 0 && AllDigits(s)) || (|s| > 1 && (s[0] == '-' || s[0] == '+') && AllDigits(s[1..]))
  {
    if |s| > 0 && (s[0] == '-' || s[0] == '+') then
      if |s| > 1 && AllDigits(s[1..]) then
        var magnitude: int := DigitsValue(s[1..]);
        Some(if s[0] == '-' then -magnitude else magnitude)
      else None
    else if |s| > 0 && AllDigits(s) then Some(DigitsValue(s))
    else None
  }

  /** The text `str(i)` gives for an integer. */
  function IntText(i: int): string
  {
    if i < 0 then "-" + NatText(-i) else NatText(i)
  }

  /** `int(str(i)) == i`. */
  lemma IntTextRoundTrip(i: int)
    ensures ParseInt(IntText(i)) == Some(i)
  {
    if i < 0 {
      assert IntText(i)[1..] == NatText(-i);
      NatTextRoundTrip(-i);
    } else {
      NatTextRoundTrip(i);
    }
  }

  /** Where the run of digits that ends `s` begins. */
  function TrailingDigitsStart(s: string): (i: nat)
    ensures i <= |s| && AllDigits(s[i..])
    ensures i > 0 ==> !IsDigit(s[i - 1])
    decreases |s|
  {
    if s == [] || !IsDigit(s[|s| - 1]) then |s|
    else
      var i := TrailingDigitsStart(s[..|s| - 1]);
      assert s[i..] == s[..|s| - 1][i..] + [s[|s| - 1]];
      i
  }

  /** `name[..cut]` and `name[cut..]` can be the two groups of the regex. */
  predicate SplitsAt(name: string, cut: int)
  {
    1 <= cut < |name| && AllDigits(name[cut..])
  }

  /** The two groups of a successful match. */
  datatype NameSplit = NameSplit(lead: string, digits: string)

  /**
   * `re.match(r'(.+?)(\d+$)', name)`: the lazy first group takes the shortest
   * non-empty prefix after which only digits remain, and the second group
   * must hold at least one digit.
   */
  function SplitContactName(name: string): (r: Option<NameSplit>)
    ensures r.Some? <==> exists cut :: SplitsAt(name, cut)
    ensures r.Some? ==>
              && r.value.lead + r.value.digits == name
              && |r.value.lead| >= 1 && |r.value.digits| >= 1 && AllDigits(r.value.digits)
    ensures r.Some? ==> forall cut :: SplitsAt(name, cut) ==> |r.value.lead| <= cut
    ensures r.Some? && |r.value.lead| > 1 ==> !IsDigit(r.value.lead[|r.value.lead| - 1])
  {
    var t := TrailingDigitsStart(name);
    var cut := if t == 0 then 1 else t;
    forall c | SplitsAt(name, c)
      ensures cut <= c
    {
    }
    if cut < |name| then
      assert name[cut..] == name[t..][cut - t..];
      assert SplitsAt(name, cut);
      assert name[..cut] + name[cut..] == name;
      Some(NameSplit(name[..cut], name[cut..]))
    else None
  }

  /**
   * A name made of a lead that does not end in a digit and the decimal text of
   * a number splits back into that lead and that number.
   */
  lemma {:induction false} SplitOfComposedName(lead: string, n: nat)
    requires |lead| >= 1 && !IsDigit(lead[|lead| - 1])
    ensures var s := SplitContactName(lead + NatText(n));
            s.Some? && s.value.lead == lead && DigitsValue(s.value.digits) == n
  {
    var name := lead + NatText(n);
    assert name[|lead|..] == NatText(n);
    assert SplitsAt(name, |lead|);
    var s := SplitContactName(name);
    assert s.value.lead == name[..|s.value.lead|];
    assert s.value.digits == NatText(n);
    NatTextRoundTrip(n);
  }
}
