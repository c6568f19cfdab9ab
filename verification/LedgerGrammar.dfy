/** The texts of ledgers and recovery requests, character by character: exactly which are read, and as what. */
module LedgerGrammar {
  import opened LedgerText
  import opened Options

  const WHITE := " \t\n\r\U{0B}\U{0C}"
  const FIGURES := "0123456789"
  const CAPITALS := "ABCDEFGHIJKLMNOPQRSTUVWXYZ"
  const SMALL := "abcdefghijklmnopqrstuvwxyz"
  const TOKENS := FIGURES + CAPITALS + SMALL + "-_:"

  predicate Only(s: string, chars: string) {
    forall k :: 0 <= k < |s| ==> s[k] in chars
  }

  predicate Without(s: string, chars: string) {
    forall k :: 0 <= k < |s| ==> s[k] !in chars
  }

  /** The value of figures, the most significant first. */
  function Value(t: string): int {
    if t == "" then 0 else 10 * Value(t[..|t| - 1]) + (t[|t| - 1] as int - 48)
  }

  /** Figures after at most one sign. */
  predicate Numeral(t: string, v: int) {
    t != "" &&
    if t[0] == '-' || t[0] == '+'
    then |t| > 1 && Only(t[1..], FIGURES) && v == (if t[0] == '-' then -Value(t[1..]) else Value(t[1..]))
    else Only(t, FIGURES) && v == Value(t)
  }

  // ---------- what a ledger looks like ----------

  /** The white space and the numerals of a text with a time, an action, a seed and a slot. */
  datatype Layout = Layout(before: string, sent: string, one: string, two: string, three: string, slot: string,
                           after: string)

  function Text(p: Layout, l: Ledger): string {
    p.before + (p.sent + (p.one + (l.action + (p.two + (l.seed + (p.three + (p.slot + p.after)))))))
  }

  /** The words stand apart; only the action may follow its number without a space, if it does not start with a
      figure. */
  predicate Laid(p: Layout, l: Ledger) {
    && Only(p.before, WHITE) && Only(p.one, WHITE) && Only(p.two, WHITE) && Only(p.three, WHITE) && Only(p.after, WHITE)
    && p.two != "" && p.three != ""
    && Numeral(p.sent, l.sent) && -0x8000_0000_0000_0000 <= l.sent <= 0x7fff_ffff_ffff_ffff
    && Numeral(p.slot, l.slot) && -0x8000_0000 <= l.slot <= 0x7fff_ffff
    && l.action != "" && Without(l.action, WHITE) && l.seed != "" && Without(l.seed, WHITE)
    && (p.one == "" ==> l.action[0] !in FIGURES)
  }

  predicate Names(s: string, max: nat) {
    1 <= |s| <= max && Only(s, TOKENS)
  }

  /** A ledger that the planter could have written. */
  predicate Plausible(l: Ledger) {
    1 <= l.sent && l.action in ["pluck", "plant"] && Names(l.seed, 256) && 0 <= l.slot <= 7
  }

  // ---------- what a recovery request looks like ----------

  datatype Heading = Heading(before: string, one: string, two: string, pid: string, three: string, at: string)

  function RequestOf(h: Heading, r: Request, p: Layout): string {
    h.before + ("v1" + (h.one + (r.nonce + (h.two + (h.pid + (h.three + (h.at + Text(p, r.expected))))))))
  }

  /** A number may follow another one without a space only if it has a sign. */
  predicate Headed(h: Heading, r: Request, p: Layout) {
    && Only(h.before, WHITE) && Only(h.one, WHITE) && Only(h.two, WHITE) && Only(h.three, WHITE)
    && h.one != "" && h.two != ""
    && Numeral(h.pid, r.pid) && r.pid <= 0x7fff_ffff_ffff_ffff
    && Numeral(h.at, r.at) && r.at <= 0x7fff_ffff_ffff_ffff
    && (h.three == "" ==> h.at[0] !in FIGURES) && (p.before == "" && p.sent != "" ==> p.sent[0] !in FIGURES)
  }

  predicate PlausibleRequest(r: Request) {
    && Names(r.nonce, 64) && r.pid >= 1 && r.at >= 1
    && (r.expected == Ledger(0, "none", "none", -1) || (Plausible(r.expected) && r.expected.sent <= r.at))
  }

  // ---------- characters ----------

  lemma Characters(s: string)
    ensures Only(s, WHITE) <==> Blank(s)
    ensures s != "" && Without(s, WHITE) <==> Word(s)
    ensures Only(s, FIGURES) <==> Digits(s)
    ensures s != "" ==> (s[0] in FIGURES <==> IsDigit(s[0])) && (s[0] in WHITE <==> IsSpace(s[0]))
  {
  }

  lemma CapitalOf(c: char)
    ensures c in CAPITALS <==> 'A' <= c <= 'Z'
  {
    if 'A' <= c <= 'M' { assert CAPITALS[..13] == "ABCDEFGHIJKLM" && c in CAPITALS[..13]; }
    if 'N' <= c <= 'Z' { assert CAPITALS[13..] == "NOPQRSTUVWXYZ" && c in CAPITALS[13..]; }
  }

  lemma SmallOf(c: char)
    ensures c in SMALL <==> 'a' <= c <= 'z'
  {
    if 'a' <= c <= 'm' { assert SMALL[..13] == "abcdefghijklm" && c in SMALL[..13]; }
    if 'n' <= c <= 'z' { assert SMALL[13..] == "nopqrstuvwxyz" && c in SMALL[13..]; }
  }

  lemma TokenOf(c: char)
    ensures c in TOKENS <==> IsTokenChar(c)
  {
    hide FIGURES, CAPITALS, SMALL;
    CapitalOf(c);
    SmallOf(c);
    assert c in FIGURES <==> IsDigit(c) by { Characters([c]); }
    assert c in "-_:" <==> c == '-' || c == '_' || c == ':';
  }

  lemma NamesIs(s: string, max: nat)
    ensures Names(s, max) <==> SafeToken(s, max)
  {
    hide IsTokenChar;
    forall c: char ensures c in TOKENS <==> IsTokenChar(c) { TokenOf(c); }
  }

  lemma {:induction false} ValueIs(t: string)
    requires Digits(t)
    ensures Value(t) == DigitsValue(t)
  {
    if t != "" { ValueIs(t[..|t| - 1]); }
  }

  // ---------- one number and one word ----------

  lemma {:induction false} SpaceSplits(s: string) returns (b: string)
    ensures Blank(b) && s == b + SkipSpace(s)
  {
    if s != "" && IsSpace(s[0]) {
      var c := SpaceSplits(s[1..]);
      b := [s[0]] + c;
    } else {
      b := "";
    }
  }

  lemma {:induction false} DigitsEnd(s: string)
    ensures var n := DigitsLength(s); n == |s| || !IsDigit(s[n])
  {
    if s != "" && IsDigit(s[0]) { DigitsEnd(s[1..]); }
  }

  lemma WordIn(s: string) returns (b: string)
    requires ReadWord(s).Some?
    ensures var (w, q) := ReadWord(s).value;
      Blank(b) && Word(w) && s == b + (w + q) && (q == "" || IsSpace(q[0]))
  {
    hide SkipSpace, WordLength;
    b := SpaceSplits(s);
    var t := SkipSpace(s);
    assert t == t[..WordLength(t)] + t[WordLength(t)..];
  }

  lemma WordOut(b: string, w: string, q: string)
    requires Blank(b) && Word(w) && (q == "" || IsSpace(q[0]))
    ensures ReadWord(b + (w + q)) == Some((w, q))
  {
    BlankSkipped(b, w + q, 0, 0);
    WordRead(w, q);
  }

  lemma NumberIn(s: string, lo: int, hi: int) returns (b: string, t: string)
    requires ReadNumber(s, lo, hi).Some?
    ensures var (v, q) := ReadNumber(s, lo, hi).value;
      Blank(b) && Numeral(t, v) && lo <= v <= hi && s == b + (t + q) && (q == "" || !IsDigit(q[0]))
  {
    hide SkipSpace, DigitsLength, DigitsValue, Value;
    b := SpaceSplits(s);
    var x := SkipSpace(s);
    var u := if Signed(x) then x[1..] else x;
    var n := DigitsLength(u);
    DigitsEnd(u);
    t := if Signed(x) then [x[0]] + u[..n] else u[..n];
    Characters(u[..n]);
    ValueIs(u[..n]);
    assert x == t + u[n..];
    assert Signed(x) ==> t[1..] == u[..n];
  }

  lemma NumeralStays(t: string, q: string, v: int)
    requires Numeral(t, v)
    ensures SkipSpace(t + q) == t + q
  {
    assert (t + q)[0] == t[0];
    assert !IsSpace(t[0]);
  }

  lemma NumberOut(b: string, t: string, q: string, v: int, lo: int, hi: int)
    requires Blank(b) && Numeral(t, v) && lo <= v <= hi && (q == "" || !IsDigit(q[0]))
    ensures ReadNumber(b + (t + q), lo, hi) == Some((v, q))
  {
    hide SkipSpace, ReadDigits;
    BlankSkipped(b, t + q, lo, hi);
    NumeralStays(t, q, v);
    DigitsOut(t, q, v, lo, hi);
  }

  lemma NumeralIs(t: string, v: int)
    requires Numeral(t, v)
    ensures t != "" && !IsDigit('-') && !IsDigit('+')
    ensures var d := if Signed(t) then t[1..] else t;
      d != "" && Digits(d) && v == if t[0] == '-' then -(DigitsValue(d) as int) else DigitsValue(d)
  {
    hide DigitsValue, Value;
    var d := if Signed(t) then t[1..] else t;
    Characters(d);
    ValueIs(d);
  }

  lemma DigitsOut(t: string, q: string, v: int, lo: int, hi: int)
    requires Numeral(t, v) && lo <= v <= hi && (q == "" || !IsDigit(q[0]))
    ensures ReadDigits(t + q, lo, hi) == Some((v, q))
  {
    hide DigitsValue, Numeral, DigitsLength, Digits;
    NumeralIs(t, v);
    var d := if Signed(t) then t[1..] else t;
    AllDigits(d);
    DigitsKeep(d, q);
    assert (t + q)[0] == t[0] && (t + q)[1..] == t[1..] + q;
    assert (d + q)[..|d|] == d && (d + q)[|d|..] == q;
  }

  // ---------- a ledger ----------

  lemma Starts(a: string, b: string)
    ensures a != "" ==> (a + b)[0] == a[0]
    ensures a == "" ==> a + b == b
  {
  }

  /** Where a place is read from, and where such a text is read. */
  lemma PlaceIn(s: string) returns (two: string, three: string, slot: string, after: string)
    requires ReadPlace(s).Some?
    ensures var (seed, n) := ReadPlace(s).value;
      && Blank(two) && Word(seed) && Blank(three) && three != "" && Numeral(slot, n) && Blank(after)
      && s == two + (seed + (three + (slot + after)))
  {
    hide ReadWord, ReadNumber, Numeral;
    var (seed, rest) := ReadWord(s).value;
    two := WordIn(s);
    three, slot := NumberIn(rest, MIN_INT, MAX_INT);
    var (n, left) := ReadNumber(rest, MIN_INT, MAX_INT).value;
    after := left;
    BlankIsWordless(left);
    NumeralIs(slot, n);
    assert rest[0] == (if three == "" then slot[0] else three[0]);
    assert !IsSpace(slot[0]) by { NumeralStays(slot, "", n); SkipSpaceStays(slot); }
  }

  lemma SkipSpaceStays(t: string)
    requires SkipSpace(t + "") == t + "" && t != ""
    ensures !IsSpace(t[0])
  {
    assert t + "" == t;
  }

  lemma BlankIsWordless(s: string)
    ensures ReadWord(s).None? <==> Blank(s)
  {
  }

  lemma PlaceOut(two: string, seed: string, three: string, slot: string, n: int, after: string)
    requires Blank(two) && Word(seed) && Blank(three) && three != "" && Numeral(slot, n) && Blank(after)
    requires MIN_INT <= n <= MAX_INT
    ensures ReadPlace(two + (seed + (three + (slot + after)))) == Some((seed, n))
  {
    hide ReadWord, ReadNumber, Numeral;
    var rest := three + (slot + after);
    Starts(three, slot + after);
    WordOut(two, seed, rest);
    NumberOut(three, slot, after, n, MIN_INT, MAX_INT);
    BlankIsWordless(after);
  }

  /** Exactly the texts of a layout are read as the ledger. */
  lemma LedgerIn(s: string, l: Ledger) returns (p: Layout)
    requires ReadLedger(s) == Some(l)
    ensures Laid(p, l) && Text(p, l) == s
  {
    hide ReadWord, ReadNumber, ReadPlace, Numeral;
    var before, sent := NumberIn(s, MIN_LONG, MAX_LONG);
    var rest := ReadNumber(s, MIN_LONG, MAX_LONG).value.1;
    var one := WordIn(rest);
    var left := ReadWord(rest).value.1;
    var two, three, slot, after := PlaceIn(left);
    p := Layout(before, sent, one, two, three, slot, after);
    Starts(two, l.seed + (three + (slot + after)));
    Starts(l.action, left);
    Starts(one, l.action + left);
    LaidIs(p, l);
  }

  predicate Places(p: Layout, l: Ledger) {
    && Blank(p.before) && Blank(p.one) && Blank(p.two) && Blank(p.three) && Blank(p.after)
    && p.two != "" && p.three != "" && Numeral(p.sent, l.sent) && Numeral(p.slot, l.slot)
    && Legible(l) && Word(l.seed) && (p.one == "" ==> !IsDigit(l.action[0]))
  }

  lemma LaidIs(p: Layout, l: Ledger)
    ensures Laid(p, l) <==> Places(p, l)
  {
    hide Numeral;
    Characters(p.before);
    Characters(p.one);
    Characters(p.two);
    Characters(p.three);
    Characters(p.after);
    Characters(l.action);
    Characters(l.seed);
  }

  lemma LedgerOut(p: Layout, l: Ledger)
    requires Laid(p, l)
    ensures ReadLedger(Text(p, l)) == Some(l)
  {
    hide ReadWord, ReadNumber, ReadPlace, Numeral, Laid;
    LaidIs(p, l);
    var left := p.two + (l.seed + (p.three + (p.slot + p.after)));
    var rest := p.one + (l.action + left);
    Starts(p.two, l.seed + (p.three + (p.slot + p.after)));
    Starts(l.action, left);
    Starts(p.one, l.action + left);
    assert rest == "" || !IsDigit(rest[0]) by {
      if p.one != "" { assert IsSpace(p.one[0]); }
    }
    NumberOut(p.before, p.sent, rest, l.sent, MIN_LONG, MAX_LONG);
    WordOut(p.one, l.action, left);
    PlaceOut(p.two, l.seed, p.three, p.slot, l.slot, p.after);
  }

  lemma PlausibleIs(l: Ledger)
    ensures Plausible(l) <==> Acceptable(l)
  {
    hide Names, SafeToken;
    NamesIs(l.seed, 256);
  }

  /** A ledger file is read exactly when it has at most 512 characters, is laid out as a ledger, and the ledger is one
      that the planter could have written. */
  lemma LedgerReads(raw: string, l: Ledger)
    ensures ParseLedger(raw) == Some(l)
      <==> |raw| <= 512 && Plausible(l) && exists p :: Laid(p, l) && Text(p, l) == raw
  {
    hide ReadLedger, Laid, Text, Plausible, Acceptable;
    PlausibleIs(l);
    if ReadLedger(raw) == Some(l) {
      var p := LedgerIn(raw, l);
    }
    if p :| Laid(p, l) && Text(p, l) == raw {
      LedgerOut(p, l);
    }
  }

  // ---------- a recovery request ----------

  function Ten(k: nat): nat {
    if k == 0 then 1 else 10 * Ten(k - 1)
  }

  lemma {:induction false} NaturalLength(n: nat, k: nat)
    requires 1 <= k && n < Ten(k)
    ensures |Natural(n)| <= k
  {
    if n >= 10 {
      assert k > 1 && n / 10 < Ten(k - 1) by { assert Ten(k) == 10 * Ten(k - 1) && Ten(0) == 1; }
      NaturalLength(n / 10, k - 1);
    }
  }

  /** The line of an acceptable ledger is always short enough. */
  lemma LineIsShort(l: Ledger)
    requires Legible(l) && Acceptable(l)
    ensures |Line(l, ' ', "")| <= 512
  {
    hide Natural;
    assert Ten(5) == 100_000;
    assert Ten(10) == 100_000 * Ten(5);
    assert Ten(15) == 100_000 * Ten(10);
    assert Ten(19) == 10_000 * Ten(15);
    NaturalLength(l.sent, 19);
    NaturalLength(l.slot, 1);
  }

  lemma Believes(r: Request)
    requires Legible(r.expected) && Word(r.expected.seed)
    ensures BelievableRequest("v1", r) <==> PlausibleRequest(r)
  {
    hide Line, ParseLedger, Trim, Acceptable, Plausible, SafeToken, Names;
    NamesIs(r.nonce, 64);
    var l := r.expected;
    WordTrims(l.seed);
    ParseLine(l, ' ', "");
    PlausibleIs(l);
    if Acceptable(l) { LineIsShort(l); }
    assert l.(seed := l.seed) == l;
    Unexpected();
  }

  lemma Unexpected()
    ensures !Acceptable(Ledger(0, "none", "none", -1))
  {
  }

  lemma StampIn(s: string) returns (two: string, pid: string, three: string, at: string)
    requires ReadStamp(s).Some?
    ensures var (v, w, q) := ReadStamp(s).value;
      && Blank(two) && Numeral(pid, v) && Blank(three) && Numeral(at, w)
      && MIN_LONG <= v <= MAX_LONG && MIN_LONG <= w <= MAX_LONG
      && s == two + (pid + (three + (at + q)))
      && (three == "" ==> !IsDigit(at[0])) && (q == "" || !IsDigit(q[0]))
  {
    hide ReadNumber, Numeral;
    two, pid := NumberIn(s, MIN_LONG, MAX_LONG);
    var (v, rest) := ReadNumber(s, MIN_LONG, MAX_LONG).value;
    three, at := NumberIn(rest, MIN_LONG, MAX_LONG);
    var (w, q) := ReadNumber(rest, MIN_LONG, MAX_LONG).value;
    NumeralIs(at, w);
    Starts(three, at + q);
    Starts(at, q);
  }

  lemma StampOut(two: string, pid: string, v: int, three: string, at: string, w: int, q: string)
    requires Blank(two) && Numeral(pid, v) && Blank(three) && Numeral(at, w)
    requires MIN_LONG <= v <= MAX_LONG && MIN_LONG <= w <= MAX_LONG
    requires (three == "" ==> at == "" || !IsDigit(at[0])) && (q == "" || !IsDigit(q[0]))
    ensures ReadStamp(two + (pid + (three + (at + q)))) == Some((v, w, q))
  {
    hide ReadNumber, Numeral;
    var rest := three + (at + q);
    NumeralIs(at, w);
    Starts(three, at + q);
    Starts(at, q);
    assert !IsDigit(rest[0]) by { if three != "" { assert IsSpace(three[0]); } }
    NumberOut(two, pid, rest, v, MIN_LONG, MAX_LONG);
    NumberOut(three, at, q, w, MIN_LONG, MAX_LONG);
  }

  lemma HeadedIs(h: Heading, r: Request, p: Layout)
    requires Laid(p, r.expected) && PlausibleRequest(r)
    ensures p.sent != "" && Word(r.nonce)
    ensures Headed(h, r, p) <==>
      && Blank(h.before) && Blank(h.one) && Blank(h.two) && Blank(h.three) && h.one != "" && h.two != ""
      && Numeral(h.pid, r.pid) && MIN_LONG <= r.pid <= MAX_LONG && Numeral(h.at, r.at) && MIN_LONG <= r.at <= MAX_LONG
      && (h.three == "" ==> h.at == "" || !IsDigit(h.at[0])) && (p.before == "" ==> !IsDigit(p.sent[0]))
  {
    hide Plausible, IsTokenChar;
    Characters(h.before);
    Characters(h.one);
    Characters(h.two);
    Characters(h.three);
    Characters(h.at);
    Characters(p.sent);
    NamesIs(r.nonce, 64);
    assert Word(r.nonce) by { TokenIsWord(r.nonce, 64); }
  }

  lemma TokenIsWord(s: string, max: nat)
    requires SafeToken(s, max)
    ensures Word(s)
  {
    assert forall c :: IsTokenChar(c) ==> !IsSpace(c);
  }

  lemma RequestIn(raw: string, r: Request) returns (h: Heading, p: Layout)
    requires ParseRecovery(raw) == Some(r)
    ensures |raw| <= 1024 && PlausibleRequest(r) && Laid(p, r.expected) && Headed(h, r, p) && raw == RequestOf(h, r, p)
  {
    hide ReadWord, ReadStamp, ReadLedger, Laid, Headed, Numeral, PlausibleRequest, BelievableRequest, Text;
    var before := WordIn(raw);
    var rest := ReadWord(raw).value.1;
    var one := WordIn(rest);
    var left := ReadWord(rest).value.1;
    var two, pid, three, at := StampIn(left);
    var last := ReadStamp(left).value.2;
    p := LedgerIn(last, r.expected);
    h := Heading(before, one, two, pid, three, at);
    assert Legible(r.expected) && Word(r.expected.seed) by { LaidIs(p, r.expected); }
    assert ReadWord(raw).value.0 == "v1" by { Schema(ReadWord(raw).value.0, r); }
    Believes(r);
    HeadedIs(h, r, p);
    Starts(one, r.nonce + left);
    NumeralIs(pid, r.pid);
    Starts(two, pid + (three + (at + last)));
    Starts(pid, three + (at + last));
    assert p.before == "" ==> !IsDigit(p.sent[0]) by { FirstOfText(p, r.expected); }
    assert !IsSpace(pid[0]) by { NumeralStays(pid, "", r.pid); SkipSpaceStays(pid); }
  }

  lemma Schema(schema: string, r: Request)
    ensures BelievableRequest(schema, r) ==> schema == "v1"
  {
    hide ParseLedger, SafeToken, Line;
  }

  lemma FirstOfText(p: Layout, l: Ledger)
    requires Laid(p, l)
    ensures var s := Text(p, l); s != "" && p.sent != "" && s[0] == if p.before == "" then p.sent[0] else p.before[0]
    ensures p.before == "" || IsSpace(p.before[0])
  {
    hide Legible;
    LaidIs(p, l);
    Starts(p.before, p.sent + (p.one + (l.action + (p.two + (l.seed + (p.three + (p.slot + p.after)))))));
    Starts(p.sent, p.one + (l.action + (p.two + (l.seed + (p.three + (p.slot + p.after))))));
  }

  lemma RequestOut(h: Heading, r: Request, p: Layout)
    requires PlausibleRequest(r) && Laid(p, r.expected) && Headed(h, r, p) && |RequestOf(h, r, p)| <= 1024
    ensures ParseRecovery(RequestOf(h, r, p)) == Some(r)
  {
    hide ReadWord, ReadStamp, ReadLedger, Laid, Headed, Numeral, PlausibleRequest, BelievableRequest, Text;
    HeadedIs(h, r, p);
    var last := Text(p, r.expected);
    FirstOfText(p, r.expected);
    var left := h.two + (h.pid + (h.three + (h.at + last)));
    var rest := h.one + (r.nonce + left);
    Starts(h.two, h.pid + (h.three + (h.at + last)));
    Starts(h.one, r.nonce + left);
    WordOut(h.before, "v1", rest);
    WordOut(h.one, r.nonce, left);
    StampOut(h.two, h.pid, r.pid, h.three, h.at, r.at, last);
    LedgerOut(p, r.expected);
    assert Legible(r.expected) && Word(r.expected.seed) by { LaidIs(p, r.expected); }
    Believes(r);
  }

  /** A request is accepted exactly when it has at most 1024 characters, is laid out as a request, and is one for
      nothing or for a ledger that the planter could have written by then. */
  lemma RequestReads(raw: string, r: Request)
    ensures ParseRecovery(raw) == Some(r)
      <==> |raw| <= 1024 && PlausibleRequest(r)
           && exists h, p :: Laid(p, r.expected) && Headed(h, r, p) && RequestOf(h, r, p) == raw
  {
    hide ParseRecovery, Laid, Headed, RequestOf, PlausibleRequest;
    if ParseRecovery(raw) == Some(r) {
      var h, p := RequestIn(raw, r);
    }
    if |raw| <= 1024 && PlausibleRequest(r) {
      if h, p :| Laid(p, r.expected) && Headed(h, r, p) && RequestOf(h, r, p) == raw {
        RequestOut(h, r, p);
      }
    }
  }
}
