/** The `x-kv-cache-priority` header value: printing it, and reading its leading priority back. */
module HeaderText {
  import opened Basics

  const MIN_INT64: int := -0x8000_0000_0000_0000
  const MAX_INT64: int := 0x7fff_ffff_ffff_ffff

  predicate IsSpace(c: char) {
    c in "\t\n\r \U{000B}\U{000C}\U{0085}\U{00A0}\U{1680}\U{2028}\U{2029}\U{202F}\U{205F}\U{3000}"
    || '\U{2000}' <= c <= '\U{200A}'
  }

  predicate IsDigit(c: char) {
    '0' <= c <= '9'
  }

  /** `strings.TrimSpace`. */
  function Trim(s: string): string {
    if s != "" && IsSpace(s[0]) then Trim(s[1..])
    else if s != "" && IsSpace(s[|s| - 1]) then Trim(s[..|s| - 1])
    else s
  }

  /** Everything before the first `;`. */
  function Head(s: string): string {
    if s == "" || s[0] == ';' then "" else [s[0]] + Head(s[1..])
  }

  function ParseDigits(s: string): Option<nat> {
    if s == "" then Some(0)
    else
      var front := ParseDigits(s[..|s| - 1]);
      var c := s[|s| - 1];
      if front.Some? && IsDigit(c) then Some(10 * front.value + (c as int - '0' as int)) else None
  }

  /** `strconv.Atoi` on a 64-bit platform: an optional sign, decimal digits, no overflow. */
  function Atoi(s: string): Option<int> {
    var signed := s != "" && (s[0] == '-' || s[0] == '+');
    var body := if signed then s[1..] else s;
    if body == "" then None
    else
      match ParseDigits(body)
      case None => None
      case Some(n) =>
        var value := if signed && s[0] == '-' then 0 - n else n;
        if MIN_INT64 <= value <= MAX_INT64 then Some(value) else None
  }

  function DigitOf(d: nat): (c: char)
    requires d < 10
    ensures IsDigit(c) && c as int - '0' as int == d
  {
    "0123456789"[d]
  }

  function NatText(n: nat): (s: string)
    ensures s != ""
  {
    if n < 10 then [DigitOf(n)] else NatText(n / 10) + [DigitOf(n % 10)]
  }

  /** `%d`. */
  function Itoa(n: int): string {
    if n < 0 then "-" + NatText(0 - n) else NatText(n)
  }

  lemma {:induction false} NatTextParses(n: nat)
    ensures ParseDigits(NatText(n)) == Some(n)
    ensures forall i :: 0 <= i < |NatText(n)| ==> IsDigit(NatText(n)[i])
  {
    var s := NatText(n);
    if n < 10 {
      assert s[..|s| - 1] == "";
    } else {
      NatTextParses(n / 10);
      assert s[..|s| - 1] == NatText(n / 10);
    }
  }

  /** Reading back what was printed, for every 64-bit integer. */
  lemma {:induction false} AtoiInvertsItoa(n: int)
    requires MIN_INT64 <= n <= MAX_INT64
    ensures Atoi(Itoa(n)) == Some(n)
  {
    hide ParseDigits, NatText;
    var m := if n < 0 then 0 - n else n;
    NatTextParses(m);
    if n < 0 {
      assert Itoa(n)[1..] == NatText(m);
    } else {
      assert IsDigit(NatText(m)[0]);
    }
  }

  lemma {:induction false} ItoaIsBare(n: int)
    ensures Itoa(n) != "" && Trim(Itoa(n)) == Itoa(n)
    ensures forall i :: 0 <= i < |Itoa(n)| ==> Itoa(n)[i] != ';'
  {
    var m := if n < 0 then 0 - n else n;
    NatTextParses(m);
    var s, t := Itoa(n), NatText(m);
    assert s[|s| - 1] == t[|t| - 1];
    DigitIsPlain(t[0]);
    DigitIsPlain(t[|t| - 1]);
    assert !IsSpace('-');
    hide IsSpace, NatText;
  }

  lemma DigitIsPlain(c: char)
    requires IsDigit(c)
    ensures !IsSpace(c) && c != ';'
  {
  }

  lemma {:induction false} HeadStopsAtSemicolon(s: string, rest: string)
    requires forall i :: 0 <= i < |s| ==> s[i] != ';'
    requires rest == "" || rest[0] == ';'
    ensures Head(s + rest) == s
  {
    if s == "" {
      assert s + rest == rest;
    } else {
      HeadStopsAtSemicolon(s[1..], rest);
      assert (s + rest)[1..] == s[1..] + rest;
    }
  }

  function LeadingPriority(value: string): Option<int> {
    Atoi(Trim(Head(value)))
  }

  /** The printed priority is recovered whatever parameters follow it. */
  lemma {:induction false} LeadingPriorityOfPrinted(n: int, rest: string)
    requires MIN_INT64 <= n <= MAX_INT64 && (rest == "" || rest[0] == ';')
    ensures LeadingPriority(Itoa(n) + rest) == Some(n)
  {
    ItoaIsBare(n);
    HeadStopsAtSemicolon(Itoa(n), rest);
    AtoiInvertsItoa(n);
  }
}
