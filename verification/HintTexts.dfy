/** The gateway plugin's header, character by character: what it writes and what it reads. */
module HintTexts {
  import opened Basics
  import opened Learning
  import opened Retention
  import opened RetentionLaws
  import opened LeaseDecisions
  import opened HeaderText
  import opened PreRequest
  import opened PreRequestLaws
  import Policies

  // ---------------------------------------------------------------------- writing

  /** `ms` is the nearest millisecond to `w` seconds cut to whole nanoseconds, halves upwards. */
  ghost predicate NearestMillisecond(w: real, ms: int) {
    var ns := (w * 1000000000.0).Floor;
    -500_000 < 1_000_000 * ms - ns <= 500_000
  }

  lemma {:induction false} TtlIsNearest(w: real)
    requires w >= 0.0
    ensures NearestMillisecond(w, Ttl(w))
  {
    var ns := Nanoseconds(w);
    assert ns == (w * 1000000000.0).Floor >= 0;
    hide Nanoseconds;
  }

  /** What the plugin says of a request: the whole text. */
  ghost function Said(scope: string, ms: int, render: int -> string): string {
    if scope == "" then "50; ttl=" + render(ms) else "50; ttl=" + render(ms) + "; scope=" + scope
  }

  lemma SmallNumbers()
    ensures Itoa(50) == "50" && Itoa(-1) == "-1"
  {
    assert NatText(5) == "5" && NatText(50) == NatText(5) + "0";
  }

  lemma {:induction false} LeaseTextIsSaid(ms: int, scope: string, render: int -> string)
    ensures LeaseText(ms, scope, render) == Said(scope, ms, render)
  {
    SmallNumbers();
  }

  /**
   The hook over whole runs, if a conversation's times do not decrease: a one-shot is told "-1",
   a document nothing, and a tool turn either its full lease text, with the nearest
   millisecond of the least window, exactly when its tool returns soon and reliably, or nothing.
   */
  lemma {:induction false} SaidInRun(reqs: seq<Seen>, sqrt: real -> real, render: int -> string, k: nat)
    requires k < |reqs| && IsSqrt(sqrt) && NonDecreasing(ToolTurns(reqs, k + 1))
    ensures var r, turns := reqs[k], ToolTurns(reqs, k + 1);
            var d := Emitted(reqs, SHIPPED, sqrt, render, k);
            match r.kind
            case Oneshot => d == Some("-1")
            case Rag => d == None
            case Tool =>
              && turns != [] && turns[|turns| - 1] == Turn(Named(r.scope), Named(r.tool), r.now)
              && if ReturnsSoon(turns, |turns| - 1) then
                   var stat := Behind(turns, |turns| - 1).value;
                   exists w, ms :: LeastWindow(w, stat.mean, stat.variance) && NearestMillisecond(w, ms)
                                   && d == Some(Said(r.scope, ms, render))
                 else d == None
  {
    SmallNumbers();
    if reqs[k].kind == Policies.Tool {
      SaidOfTool(reqs, sqrt, render, k);
    }
    hide IsSqrt, NonDecreasing, HinterRun, Learn, Itoa, Lease, Behind, LeastWindow, NearestMillisecond, Trusted, Said;
  }

  lemma {:induction false} SaidOfTool(reqs: seq<Seen>, sqrt: real -> real, render: int -> string, k: nat)
    requires k < |reqs| && IsSqrt(sqrt) && NonDecreasing(ToolTurns(reqs, k + 1)) && reqs[k].kind == Policies.Tool
    ensures var r, turns := reqs[k], ToolTurns(reqs, k + 1);
            var d := Emitted(reqs, SHIPPED, sqrt, render, k);
            && turns != [] && turns[|turns| - 1] == Turn(Named(r.scope), Named(r.tool), r.now)
            && if ReturnsSoon(turns, |turns| - 1) then
                 var stat := Behind(turns, |turns| - 1).value;
                 exists w, ms :: LeastWindow(w, stat.mean, stat.variance) && NearestMillisecond(w, ms)
                                 && d == Some(Said(r.scope, ms, render))
               else d == None
  {
    var r, turns := reqs[k], ToolTurns(reqs, k + 1);
    var p := PredictGap(LearnAll(turns, SHIPPED, |turns|).index, map[], DEFAULT_PRIOR, Named(r.tool));
    HinterLearnsToolTurns(reqs, SHIPPED, sqrt, render, k + 1);
    assert turns[|turns| - 1] == Turn(Named(r.scope), Named(r.tool), r.now);
    BehindIsPredicted(turns, |turns| - 1);
    DoubtedPrior(p);
    LeaseIsSaid(p, r.scope, sqrt, render);
    hide IsSqrt, NonDecreasing, HinterRun, ToolTurns, Learn, LearnAll, Itoa, Lease, Behind, LeastWindow,
         NearestMillisecond, Trusted, Said, Sane;
    assert Emitted(reqs, SHIPPED, sqrt, render, k) == Lease(SHIPPED, p, r.scope, sqrt, render);
  }

  lemma {:induction false} LeaseIsSaid(p: Prior, scope: string, sqrt: real -> real, render: int -> string)
    requires IsSqrt(sqrt) && p.mean >= 0.0 && p.variance >= 0.0
    ensures if Trusted(p.mean, p.variance) then
              exists w, ms :: LeastWindow(w, p.mean, p.variance) && NearestMillisecond(w, ms)
                              && Lease(SHIPPED, p, scope, sqrt, render) == Some(Said(scope, ms, render))
            else Lease(SHIPPED, p, scope, sqrt, render) == None
  {
    RetainsIsTrusted(p);
    WindowIsLeast(sqrt, p);
    var w := Window(SHIPPED, sqrt, p);
    assert w >= 0.0;
    TtlIsNearest(w);
    LeaseTextIsSaid(Ttl(w), scope, render);
    hide LeastWindow, NearestMillisecond, Trusted, Said, LeaseText, Ttl, Retains, Window, IsSqrt;
  }

  // ---------------------------------------------------------------------- merging

  /**
   The header after the hook, given what the plugin says: a client that asks for no more keeps
   its own text, and any other one reads the plugin's; no other header changes.
   */
  lemma {:induction false} HeaderAfterHook(headers: map<string, string>, l: Learner<string, string>,
                                           kind: Policies.Class, tool: string, scope: string, now: real, cfg: Config,
                                           sqrt: real -> real, render: int -> string)
    requires Sane(l.index) && 0.0 <= cfg.alpha <= 1.0
    ensures var d := Decision(l, kind, tool, scope, now, cfg, sqrt, render).0;
            var name := "x-kv-cache-priority";
            var mine := if kind == Policies.Oneshot then -1 else 50;
            var client := if name in headers then LeadingPriority(headers[name]) else None;
            HeadersAfter(headers, d) ==
            if d.None? || (client.Some? && client.value <= mine) then headers else headers[name := d.value]
  {
    EmittedPriorityReadsBack(l, kind, tool, scope, now, cfg, sqrt, render);
    hide Decision, LeadingPriority, Sane;
  }

  // ---------------------------------------------------------------------- reading

  /** The white space of the language's own trimming, by code point. */
  ghost predicate Blank(s: string) {
    forall i :: 0 <= i < |s| ==>
      var c := s[i] as int;
      || 9 <= c <= 13 || c == 32 || c == 133 || c == 160 || c == 5760 || 8192 <= c <= 8202
      || c == 8232 || c == 8233 || c == 8239 || c == 8287 || c == 12288
  }

  lemma {:induction false} TrimDropsBlanks(a: string, s: string, b: string)
    requires Blank(a) && Blank(b) && s != "" && !IsSpace(s[0]) && !IsSpace(s[|s| - 1])
    ensures Trim(a + s + b) == s
  {
    BlankIsSpace(a);
    BlankIsSpace(b);
    hide IsSpace, Blank, Trim;
    TrimBack(s, b);
    TrimFront(a, s + b);
    assert a + s + b == a + (s + b);
  }

  lemma {:induction false} TrimFront(a: string, t: string)
    requires forall i :: 0 <= i < |a| ==> IsSpace(a[i])
    ensures Trim(a + t) == Trim(t)
  {
    hide IsSpace;
    if a == "" {
      assert a + t == t;
    } else {
      assert (a + t)[0] == a[0] && (a + t)[1..] == a[1..] + t;
      TrimFront(a[1..], t);
    }
  }

  lemma {:induction false} TrimBack(s: string, b: string)
    requires s != "" && !IsSpace(s[0]) && !IsSpace(s[|s| - 1])
    requires forall i :: 0 <= i < |b| ==> IsSpace(b[i])
    ensures Trim(s + b) == s
  {
    hide IsSpace;
    var t := s + b;
    if b == "" {
      assert t == s;
    } else {
      assert t[0] == s[0] && t[|t| - 1] == b[|b| - 1] && t[..|t| - 1] == s + b[..|b| - 1];
      TrimBack(s, b[..|b| - 1]);
    }
  }

  lemma BlankIsSpace(s: string)
    requires Blank(s)
    ensures forall i :: 0 <= i < |s| ==> IsSpace(s[i])
  {
  }

  ghost function Zeros(k: nat): string {
    seq(k, _ => '0')
  }

  /** Leading zeros and the decimal number. */
  ghost predicate Numeral(s: string, n: nat) {
    exists k: nat :: s == Zeros(k) + NatText(n)
  }

  /** A string of digits reads as a number exactly when it is that number behind leading zeros. */
  lemma {:induction false} DigitsAreNumeral(s: string, n: nat)
    ensures Numeral(s, n) <==> s != "" && ParseDigits(s) == Some(n)
    ensures Numeral(s, n) ==> IsDigit(s[0])
  {
    if s != "" && ParseDigits(s) == Some(n) {
      DigitsSplit(s, n);
    }
    NatTextParses(n);
    forall k: nat | s == Zeros(k) + NatText(n) ensures ParseDigits(s) == Some(n) && IsDigit(s[0]) {
      ZerosParse(k, NatText(n), n);
      assert k > 0 ==> s[0] == '0';
      assert k == 0 ==> s[0] == NatText(n)[0];
    }
  }

  lemma {:induction false} ZerosParse(k: nat, t: string, n: nat)
    requires ParseDigits(t) == Some(n)
    ensures ParseDigits(Zeros(k) + t) == Some(n)
  {
    var s := Zeros(k) + t;
    if t != "" {
      assert s[..|s| - 1] == Zeros(k) + t[..|t| - 1];
      ZerosParse(k, t[..|t| - 1], ParseDigits(t[..|t| - 1]).value);
    } else if k > 0 {
      assert s[..|s| - 1] == Zeros(k - 1) + t;
      ZerosParse(k - 1, t, n);
    }
  }

  lemma {:induction false} DigitsSplit(s: string, n: nat)
    requires s != "" && ParseDigits(s) == Some(n)
    ensures exists k: nat :: s == Zeros(k) + NatText(n)
  {
    var front, c := s[..|s| - 1], s[|s| - 1];
    var m, d: nat := ParseDigits(front).value, c as int - '0' as int;
    NatTextSnoc(m, d);
    assert s == front + [c] && n == 10 * m + d && DigitOf(d) == c;
    hide ParseDigits, NatText, DigitOf, Zeros;
    if front == "" {
      NoZeros(NatText(n));
    } else {
      DigitsSplit(front, m);
      var k: nat :| front == Zeros(k) + NatText(m);
      MoreDigits(k, m, [c]);
      assert s == Zeros(if m == 0 then k + 1 else k) + NatText(n);
    }
  }

  lemma NoZeros(t: string)
    ensures t == Zeros(0) + t
  {
  }

  lemma {:induction false} MoreDigits(k: nat, m: nat, t: string)
    ensures Zeros(k) + NatText(m) + t == if m == 0 then Zeros(k + 1) + t else Zeros(k) + (NatText(m) + t)
  {
    NatTextSnoc(0, 0);
    hide NatText;
    assert Zeros(k + 1) == Zeros(k) + "0";
  }

  lemma {:induction false} NatTextSnoc(m: nat, d: nat)
    requires d < 10
    ensures NatText(10 * m + d) == if m == 0 then [DigitOf(d)] else NatText(m) + [DigitOf(d)]
    ensures NatText(0) == "0"
  {
    hide DigitOf;
    assert (10 * m + d) / 10 == m && (10 * m + d) % 10 == d;
  }

  /**
   What counts as a client's priority: an optional sign, leading zeros and the decimal number,
   nothing else, within 64 bits.
   */
  lemma {:induction false} AtoiAccepts(s: string, n: int)
    ensures Atoi(s) == Some(n) <==>
            && -9223372036854775808 <= n <= 9223372036854775807
            && (|| (n >= 0 && Numeral(s, n))
                || (n >= 0 && s != "" && s[0] == '+' && Numeral(s[1..], n))
                || (n <= 0 && s != "" && s[0] == '-' && Numeral(s[1..], 0 - n)))
  {
    if n >= 0 {
      DigitsAreNumeral(s, n);
    }
    if s != "" && n >= 0 {
      DigitsAreNumeral(s[1..], n);
    }
    if s != "" && n <= 0 {
      DigitsAreNumeral(s[1..], 0 - n);
    }
    hide Numeral, ParseDigits;
  }

  /** The priority of a header is what stands before its first semicolon, blanks aside. */
  lemma {:induction false} BlanksAreIgnored(a: string, s: string, b: string, rest: string)
    requires Blank(a) && Blank(b) && s != "" && !IsSpace(s[0]) && !IsSpace(s[|s| - 1])
    requires forall i :: 0 <= i < |s| ==> s[i] != ';'
    requires rest == "" || rest[0] == ';'
    ensures LeadingPriority(a + s + b + rest) == Atoi(s)
  {
    hide IsSpace, Atoi, Trim, Head;
    HeadStopsAtSemicolon(a + s + b, rest);
    TrimDropsBlanks(a, s, b);
  }
}
