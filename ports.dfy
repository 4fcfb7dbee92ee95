/** The `-p` flag of `docker run`: each occurrence is parsed as a decimal
    integer (Go's strconv.Atoi on a 64-bit platform) and appended to the list. */
module Ports {
  import opened Wrappers

  /** The range of Go's `int` on amd64 taken as 64 bits wide, as it is from
      Go 1.1 on; an earlier toolchain makes `int` 32 bits wide there and
      rejects values beyond that narrower range. */
  const MinInt: int := -0x8000_0000_0000_0000
  const MaxInt: int := 0x7fff_ffff_ffff_ffff

  predicate IsDigit(c: char) { '0' <= c <= '9' }

  predicate AllDigits(s: string) { forall i :: 0 <= i < |s| ==> IsDigit(s[i]) }

  /** The value of a string of decimal digits, most significant first. */
  function DecimalValue(s: string): nat
    requires AllDigits(s)
  {
    if s == [] then 0 else DecimalValue(s[..|s| - 1]) * 10 + (s[|s| - 1] as int - '0' as int)
  }

  /** The digits part of `s`: `s` without one leading sign. */
  function Unsigned(s: string): string
  {
    if |s| > 0 && (s[0] == '+' || s[0] == '-') then s[1..] else s
  }

  /** strconv.Atoi: an optional sign, then at least one decimal digit and
      nothing else, with a value in the range of `int`. */
  function Atoi(s: string): (r: Option<int>)
    ensures r.Some? ==> MinInt <= r.value <= MaxInt
    ensures r.Some? ==> Unsigned(s) != [] && AllDigits(Unsigned(s))
    ensures r.Some? ==> r.value == if s[0] == '-' then -(DecimalValue(Unsigned(s)) as int) else DecimalValue(Unsigned(s))
    ensures (exists i :: 0 <= i < |Unsigned(s)| && !IsDigit(Unsigned(s)[i])) ==> r.None?
    ensures Unsigned(s) != [] && AllDigits(Unsigned(s)) ==>
      (r.Some? <==> if s[0] == '-' then DecimalValue(Unsigned(s)) <= -MinInt else DecimalValue(Unsigned(s)) <= MaxInt)
  {
    var digits := Unsigned(s);
    if digits == [] || !AllDigits(digits) then None
    else
      var v: int := if s[0] == '-' then -(DecimalValue(digits) as int) else DecimalValue(digits);
      if MinInt <= v <= MaxInt then Some(v) else None
  }

  /** The decimal numeral of `n`, without leading zeros. */
  function Decimal(n: nat): (s: string)
    ensures |s| > 0 && AllDigits(s)
  {
    var d := ['0' + (n % 10) as char];
    if n < 10 then d else Decimal(n / 10) + d
  }

  lemma {:induction false} DecimalValueOfDecimal(n: nat)
    ensures DecimalValue(Decimal(n)) == n
  {
    if n >= 10 {
      DecimalValueOfDecimal(n / 10);
      var s := Decimal(n);
      assert s[..|s| - 1] == Decimal(n / 10);
    }
  }

  /** The numeral `fmt` prints for an `int`. */
  function Format(n: int): string
  {
    if n < 0 then "-" + Decimal(-n) else Decimal(n)
  }

  /** Atoi reads back every `int` written in decimal. */
  lemma AtoiFormat(n: int)
    requires MinInt <= n <= MaxInt
    ensures Atoi(Format(n)) == Some(n)
  {
    if n < 0 {
      assert Unsigned(Format(n)) == Decimal(-n);
      DecimalValueOfDecimal(-n);
    } else {
      var s := Decimal(n);
      assert s[0] != '+' && s[0] != '-' by { assert IsDigit(s[0]); }
      DecimalValueOfDecimal(n);
    }
  }

  /** The `ports` type: the list the `-p` flags accumulate into. */
  class PortList {
    var ports: seq<int>

    constructor ()
      ensures ports == []
    {
      ports := [];
    }

    /** Set(value): append the parsed port, or report `Invalid port` and
        leave the list as it was. */
    method Set(value: string) returns (err: Option<string>)
      modifies this
      ensures Atoi(value).None? ==> err == Some("Invalid port: " + value) && ports == old(ports)
      ensures Atoi(value).Some? ==> err == None && ports == old(ports) + [Atoi(value).value]
    {
      match Atoi(value)
      case None =>
        return Some("Invalid port: " + value);
      case Some(port) =>
        ports := ports + [port];
        return None;
    }
  }
}
