/** Task instance ids have the form "<resume count>-<random UUID>". The
    resume count is read back by parsing, as a `long`, the prefix before the first '-'. */
module TaskInstanceId {
  import opened Common

  /** The first position of `c` in `s`, or -1 when there is none. */
  function IndexOf(s: string, c: char): (i: int)
    ensures -1 <= i < |s|
    ensures i == -1 <==> c !in s
    ensures 0 <= i ==> s[i] == c && c !in s[..i]
  {
    if |s| == 0 then -1
    else if s[0] == c then 0
    else
      var j := IndexOf(s[1..], c);
      assert s == [s[0]] + s[1..];
      if j == -1 then -1
      else
        assert s[..j + 1] == [s[0]] + s[1..][..j];
        j + 1
  }

  predicate IsDigit(ch: char) {
    '0' <= ch <= '9'
  }

  predicate AllDigits(s: string) {
    forall i :: 0 <= i < |s| ==> IsDigit(s[i])
  }

  /** The value of a run of decimal digits, most significant first. */
  function DigitsValue(s: string): (r: nat)
    requires AllDigits(s)
  {
    if |s| == 0 then 0
    else 10 * DigitsValue(s[..|s| - 1]) + (s[|s| - 1] as int - '0' as int)
  }

  /** Parsing a decimal `long`: an optional sign, at least one digit,
      and a value that fits in a `long`; otherwise NumberFormatException. */
  function ParseLong(s: string): (r: Result<Long>)
  {
    if |s| == 0 then Err(NumberFormat)
    else
      var signed := s[0] == '-' || s[0] == '+';
      var digits := if signed then s[1..] else s;
      if |digits| == 0 || !AllDigits(digits) then Err(NumberFormat)
      else
        var magnitude: int := DigitsValue(digits);
        var v := if s[0] == '-' then -magnitude else magnitude;
        if LONG_MIN <= v <= LONG_MAX then Ok(v) else Err(NumberFormat)
  }

  /** The resume count of a task instance id: the number before the first
      '-'. Without a '-', taking the prefix throws an index error; an empty or
      malformed prefix throws a number-format error. */
  function ResumeCount(taskInstanceId: string): (r: Result<Long>)
    ensures '-' !in taskInstanceId <==> r == Err(StringIndexOutOfBounds)
    ensures IndexOf(taskInstanceId, '-') == 0 ==> r == Err(NumberFormat)
    ensures r.Ok? ==> IndexOf(taskInstanceId, '-') > 0
  {
    var i := IndexOf(taskInstanceId, '-');
    if i < 0 then Err(StringIndexOutOfBounds)
    else ParseLong(taskInstanceId[..i])
  }

  function DigitChar(d: nat): (ch: char)
    requires d < 10
    ensures IsDigit(ch) && ch as int - '0' as int == d
  {
    ('0' as int + d) as char
  }

  /** The decimal rendering of a count, without sign or leading zeros. */
  function Decimal(n: nat): (s: string)
    ensures |s| > 0 && AllDigits(s)
  {
    if n < 10 then [DigitChar(n)] else Decimal(n / 10) + [DigitChar(n % 10)]
  }

  lemma {:induction false} DigitsValueOfDecimal(n: nat)
    ensures DigitsValue(Decimal(n)) == n
  {
    if n >= 10 {
      DigitsValueOfDecimal(n / 10);
      var s := Decimal(n);
      assert s[..|s| - 1] == Decimal(n / 10);
    }
  }

  /** Parsing the decimal rendering of a `long`-sized count gives it back. */
  lemma ParseLongOfDecimal(n: nat)
    requires n <= LONG_MAX
    ensures ParseLong(Decimal(n)) == Ok(n)
  {
    DigitsValueOfDecimal(n);
    assert IsDigit(Decimal(n)[0]);
  }

  /** Round trip: the id "<n>-<rest>" yields resume count n, whatever the
      random part holds (a UUID has '-' characters of its own). */
  lemma ResumeCountOfInstanceId(n: nat, rest: string)
    requires n <= LONG_MAX
    ensures ResumeCount(Decimal(n) + "-" + rest) == Ok(n)
  {
    var d := Decimal(n);
    var id := d + "-" + rest;
    assert id[|d|] == '-';
    var i := IndexOf(id, '-');
    assert '-' !in d;
    assert forall k :: 0 <= k < |d| ==> id[k] == d[k];
    assert id[..i] == d;
    ParseLongOfDecimal(n);
  }

  /** The test overload registers "0-" + a UUID, so its resume count is 0. */
  lemma ResumeCountOfTestInstanceId(uuid: string)
    ensures ResumeCount("0-" + uuid) == Ok(0)
  {
    assert "0-" + uuid == Decimal(0) + "-" + uuid;
    ResumeCountOfInstanceId(0, uuid);
  }
}
