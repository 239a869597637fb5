/** Shared value types: optional values, the resolved outcome of an awaited API call,
    the shape of an API error as the pages read it, the status line every page shows, and
    the decimal rendering of numbers used in messages. */
module Common {

  datatype Option<+T> = None | Some(value: T)

  /** What an awaited API call settled to: a resolved response, or a rejection. */
  datatype Result<+T> = Ok(value: T) | Err(error: ApiError)

  /** The fields a page reads from a rejected request: `error.response.data.error`,
      `error.response.data.message` and `error.message`. A missing field is the empty
      string, which is falsy exactly as `undefined` is. */
  datatype ApiError = ApiError(dataError: string, dataMessage: string, message: string)

  /** The `{ type, message }` status banner every page keeps. */
  datatype StatusKind = Idle | Loading | Success | Error
  datatype Status = Status(kind: StatusKind, message: string)

  const IdleStatus: Status := Status(Idle, "")

  /** The decimal text JavaScript's template literals produce for an integer: a minus sign
      for a negative value, then the digits of its magnitude. */
  function ShowInt(n: int): (r: string)
    ensures |r| > 0
    ensures n < 0 <==> r[0] == '-'
    ensures n >= 0 ==> IsDigits(r) && DecimalValue(r) == n
    ensures n < 0 ==> IsDigits(r[1..]) && DecimalValue(r[1..]) == -n && r[1] != '0'
  {
    if n < 0 then
      var d := ShowNat(-n);
      assert ("-" + d)[1..] == d;
      "-" + d
    else ShowNat(n)
  }

  predicate IsDigits(s: string) {
    forall i :: 0 <= i < |s| ==> '0' <= s[i] <= '9'
  }

  /** The number a string of decimal digits denotes. */
  function DecimalValue(s: string): nat
    requires IsDigits(s)
  {
    if s == [] then 0 else DecimalValue(s[..|s| - 1]) * 10 + ((s[|s| - 1] as int) - ('0' as int))
  }

  /** The digits of `n`, without leading zeros. */
  function ShowNat(n: nat): (r: string)
    ensures |r| > 0 && IsDigits(r)
    ensures DecimalValue(r) == n
    ensures r[0] == '0' ==> r == "0"
  {
    if n < 10 then [Digit(n)]
    else
      var front := ShowNat(n / 10);
      var r := front + [Digit(n % 10)];
      assert r[..|r| - 1] == front;
      r
  }

  function Digit(d: nat): (c: char)
    requires d < 10
    ensures '0' <= c <= '9'
    ensures d == (c as int) - ('0' as int)
  {
    ('0' as int + d) as char
  }
}
