/** `formatPhone` (client/src/utils/formatPhone.js): strips every non-digit and
    lays a seven- or ten-digit number out as `(AAA)-MMM-LLLL`, using the Montreal area code
    514 for seven digits; any other input comes back as it was. */
module PhoneFormat {

  predicate IsDigit(c: char) {
    '0' <= c <= '9'
  }

  predicate AllDigits(s: string) {
    forall i :: 0 <= i < |s| ==> IsDigit(s[i])
  }

  /** `String(value).replace(/\D/g, "")`. */
  function Digits(s: string): (d: string)
    ensures |d| <= |s|
    ensures AllDigits(d)
    ensures AllDigits(s) ==> d == s
  {
    if s == [] then []
    else if IsDigit(s[0]) then [s[0]] + Digits(s[1..])
    else Digits(s[1..])
  }

  lemma {:induction false} DigitsAppend(a: string, b: string)
    ensures Digits(a + b) == Digits(a) + Digits(b)
  {
    if a == [] {
      assert a + b == b;
    } else {
      assert (a + b)[0] == a[0] && (a + b)[1..] == a[1..] + b;
      DigitsAppend(a[1..], b);
    }
  }

  const MontrealAreaCode: string := "514"

  /** The `(AAA)-MMM-LLLL` layout of the ten digits `d`. */
  function Layout(d: string): (r: string)
    requires |d| == 10
  {
    "(" + d[..3] + ")-" + d[3..6] + "-" + d[6..]
  }

  /** A string in the layout formatPhone produces. */
  predicate IsFormatted(r: string) {
    && |r| == 14
    && r[0] == '(' && r[4] == ')' && r[5] == '-' && r[9] == '-'
    && AllDigits(r[1..4]) && AllDigits(r[6..9]) && AllDigits(r[10..])
  }

  function FormatPhone(value: string): (r: string)
    ensures value == [] ==> r == []
    ensures value != [] && |Digits(value)| == 7 ==>
              IsFormatted(r) && Digits(r) == MontrealAreaCode + Digits(value)
    ensures value != [] && |Digits(value)| == 10 ==> IsFormatted(r) && Digits(r) == Digits(value)
    ensures |Digits(value)| != 7 && |Digits(value)| != 10 ==> r == value
  {
    if value == [] then []
    else
      var digits := Digits(value);
      if |digits| == 7 then
        LayoutDigits(MontrealAreaCode + digits);
        assert MontrealAreaCode + digits == "514" + digits[..3] + digits[3..];
        Layout(MontrealAreaCode + digits)
      else if |digits| != 10 then value
      else
        LayoutDigits(digits);
        Layout(digits)
  }

  /** The layout is formatted and keeps exactly its ten digits, in order. */
  lemma LayoutDigits(d: string)
    requires |d| == 10 && AllDigits(d)
    ensures IsFormatted(Layout(d))
    ensures Digits(Layout(d)) == d
  {
    var a, b, c := d[..3], d[3..6], d[6..];
    LayoutIsFormatted(d);
    var x2 := "(" + a + ")-";
    var x4 := x2 + b + "-";
    DigitsAround("(", a, ")-");
    DigitsAround(x2, b, "-");
    DigitsAppend(x4, c);
    assert d == a + b + c;
  }

  lemma LayoutIsFormatted(d: string)
    requires |d| == 10 && AllDigits(d)
    ensures IsFormatted(Layout(d))
  {
    var r := Layout(d);
    assert r[1..4] == d[..3] && r[6..9] == d[3..6] && r[10..] == d[6..];
  }

  /** Digits of `pre + mid + post` when `post` holds no digit. */
  lemma DigitsAround(pre: string, mid: string, post: string)
    requires Digits(post) == []
    ensures Digits(pre + mid + post) == Digits(pre) + Digits(mid)
  {
    DigitsAppend(pre, mid);
    DigitsAppend(pre + mid, post);
  }

  /** A formatted number is its own layout. */
  lemma FormattedIsLayout(r: string)
    requires IsFormatted(r)
    ensures |Digits(r)| == 10 && Layout(Digits(r)) == r
  {
    var d := r[1..4] + r[6..9] + r[10..];
    assert AllDigits(d);
    assert Layout(d) == r;
    LayoutDigits(d);
  }

  /** Formatting a formatted number changes nothing, so formatPhone is idempotent. */
  lemma FormatPhoneIdempotent(value: string)
    ensures FormatPhone(FormatPhone(value)) == FormatPhone(value)
  {
    var r := FormatPhone(value);
    var n := |Digits(value)|;
    if value != [] && (n == 7 || n == 10) {
      FormattedIsLayout(r);
    }
  }

  /** Both layouts have the same length, whatever the digits. */
  lemma FormattedLength(value: string)
    requires value != [] && (|Digits(value)| == 7 || |Digits(value)| == 10)
    ensures |FormatPhone(value)| == 14
  {
  }
}
