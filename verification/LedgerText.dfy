/** The text of the planter's ledger file and of a recovery request: what is written, and what is read back. */
module LedgerText {
  import opened Options

  datatype Ledger = Ledger(sent: int, action: string, seed: string, slot: int)

  // ---------- formatted input ----------

  predicate IsSpace(c: char) {
    c == ' ' || c == '\t' || c == '\n' || c == '\r' || c == '\U{0B}' || c == '\U{0C}'
  }

  predicate IsDigit(c: char) {
    '0' <= c <= '9'
  }

  predicate Blank(s: string) {
    forall k :: 0 <= k < |s| ==> IsSpace(s[k])
  }

  predicate Word(s: string) {
    s != "" && forall k :: 0 <= k < |s| ==> !IsSpace(s[k])
  }

  predicate Digits(s: string) {
    forall k :: 0 <= k < |s| ==> IsDigit(s[k])
  }

  /** The longest suffix that does not begin with white space. */
  function SkipSpace(s: string): (r: string)
    ensures r == "" || !IsSpace(r[0])
    ensures |r| <= |s|
    ensures r == "" <==> Blank(s)
  {
    if s != "" && IsSpace(s[0]) then SkipSpace(s[1..]) else s
  }

  /** The length of the longest prefix without white space. */
  function WordLength(s: string): (n: nat)
    ensures n <= |s|
    ensures forall k :: 0 <= k < n ==> !IsSpace(s[k])
    ensures n == |s| || IsSpace(s[n])
  {
    if s == "" || IsSpace(s[0]) then 0 else 1 + WordLength(s[1..])
  }

  function DigitsLength(s: string): (n: nat)
    ensures n <= |s|
    ensures Digits(s[..n])
  {
    if s == "" || !IsDigit(s[0]) then 0 else 1 + DigitsLength(s[1..])
  }

  /** Reads a token: leading white space is skipped, and the token ends at white space. */
  function ReadWord(s: string): (r: Option<(string, string)>)
    ensures r.Some? ==> Word(r.value.0)
  {
    var t := SkipSpace(s);
    if t == "" then None else Some((t[..WordLength(t)], t[WordLength(t)..]))
  }

  function DigitValue(c: char): nat
    requires IsDigit(c)
  {
    c as int - '0' as int
  }

  function DigitsValue(s: string): nat
    requires Digits(s)
  {
    if s == "" then 0 else 10 * DigitsValue(s[..|s| - 1]) + DigitValue(s[|s| - 1])
  }

  predicate Signed(t: string) {
    t != "" && (t[0] == '-' || t[0] == '+')
  }

  /** Reads the number at the start of a text, which ends at the first character that is not a digit. */
  function ReadDigits(t: string, lo: int, hi: int): (r: Option<(int, string)>)
    ensures r.Some? ==> lo <= r.value.0 <= hi
  {
    var u := if Signed(t) then t[1..] else t;
    var n := DigitsLength(u);
    if n == 0 then None
    else
      var v := if Signed(t) && t[0] == '-' then -(DigitsValue(u[..n]) as int) else DigitsValue(u[..n]);
      if lo <= v <= hi then Some((v, u[n..])) else None
  }

  function ReadNumber(s: string, lo: int, hi: int): (r: Option<(int, string)>) {
    ReadDigits(SkipSpace(s), lo, hi)
  }

  const MAX_LONG: int := 0x7fff_ffff_ffff_ffff
  const MIN_LONG: int := -0x8000_0000_0000_0000
  const MAX_INT: int := 0x7fff_ffff
  const MIN_INT: int := -0x8000_0000

  // ---------- the ledger ----------

  predicate IsTokenChar(c: char) {
    IsDigit(c) || 'a' <= c <= 'z' || 'A' <= c <= 'Z' || c == '-' || c == '_' || c == ':'
  }

  predicate SafeToken(s: string, max: nat) {
    s != "" && |s| <= max && forall k :: 0 <= k < |s| ==> IsTokenChar(s[k])
  }

  /** Fields that a line can hold. */
  predicate Legible(l: Ledger) {
    MIN_LONG <= l.sent <= MAX_LONG && MIN_INT <= l.slot <= MAX_INT && Word(l.action)
  }

  /** A seed and a slot, followed by nothing but white space. */
  function ReadPlace(s: string): (r: Option<(string, int)>)
    ensures r.Some? ==> Word(r.value.0) && MIN_INT <= r.value.1 <= MAX_INT
  {
    match ReadWord(s)
    case None => None
    case Some((seed, rest)) =>
      match ReadNumber(rest, MIN_INT, MAX_INT)
      case None => None
      case Some((slot, left)) => if ReadWord(left).Some? then None else Some((seed, slot))
  }

  /** A time, an action, a seed and a slot, followed by nothing but white space. */
  function ReadLedger(s: string): (r: Option<Ledger>)
    ensures r.Some? ==> Legible(r.value) && Word(r.value.seed)
  {
    match ReadNumber(s, MIN_LONG, MAX_LONG)
    case None => None
    case Some((sent, rest)) =>
      match ReadWord(rest)
      case None => None
      case Some((action, left)) =>
        var place := ReadPlace(left);
        if place.None? then None else Some(Ledger(sent, action, place.value.0, place.value.1))
  }

  predicate Acceptable(l: Ledger) {
    l.sent > 0 && (l.action == "pluck" || l.action == "plant") && SafeToken(l.seed, 256) && 0 <= l.slot < 8
  }

  function ParseLedger(raw: string): (r: Option<Ledger>)
    ensures r.Some? ==> Acceptable(r.value)
  {
    if |raw| > 512 then None
    else
      var f := ReadLedger(raw);
      if f.Some? && Acceptable(f.value) then f else None
  }

  function Natural(n: nat): (s: string)
    ensures s != "" && Digits(s)
  {
    var digit := ['0' + (n % 10) as char];
    if n < 10 then digit else Natural(n / 10) + digit
  }

  function Decimal(x: int): (s: string) {
    if x < 0 then "-" + Natural(-x) else Natural(x)
  }

  /** The fields of a ledger between separators. */
  function Line(l: Ledger, separator: char, end: string): string {
    Decimal(l.sent) + ([separator] + l.action + ([separator] + l.seed + ([separator] + Decimal(l.slot) + end)))
  }

  /** The line written before an RPC is sent. */
  function Render(l: Ledger): string {
    Line(l, '\t', "\n")
  }

  function TrimEnd(s: string): (r: string)
    ensures |r| <= |s| && r == s[..|r|]
    ensures r == "" || !IsSpace(r[|r| - 1])
    ensures Blank(s[|r|..])
  {
    if s != "" && IsSpace(s[|s| - 1]) then TrimEnd(s[..|s| - 1]) else s
  }

  /** A string without the white space at its ends. */
  function Trim(s: string): string {
    TrimEnd(SkipSpace(s))
  }

  // ---------- recovery requests ----------

  datatype Request = Request(nonce: string, pid: int, at: int, expected: Ledger)

  predicate ExpectsNothing(l: Ledger) {
    l == Ledger(0, "none", "none", -1)
  }

  /** The ledger a request expects is written out and read back before it is believed. */
  predicate BelievableRequest(schema: string, r: Request) {
    && schema == "v1" && SafeToken(r.nonce, 64) && r.pid > 0 && r.at > 0
    && (ExpectsNothing(r.expected)
        || var l := ParseLedger(Line(r.expected, ' ', "")); l.Some? && l.value.sent <= r.at)
  }

  function ReadStamp(s: string): (r: Option<(int, int, string)>) {
    match ReadNumber(s, MIN_LONG, MAX_LONG)
    case None => None
    case Some((pid, rest)) =>
      match ReadNumber(rest, MIN_LONG, MAX_LONG)
      case None => None
      case Some((at, left)) => Some((pid, at, left))
  }

  function ParseRecovery(raw: string): (r: Option<Request>) {
    if |raw| > 1024 then None
    else
      match ReadWord(raw)
      case None => None
      case Some((schema, rest)) =>
        match ReadWord(rest)
        case None => None
        case Some((nonce, left)) =>
          match ReadStamp(left)
          case None => None
          case Some((pid, at, last)) =>
            var expected := ReadLedger(last);
            if expected.Some? && BelievableRequest(schema, Request(nonce, pid, at, expected.value))
            then Some(Request(nonce, pid, at, expected.value)) else None
  }

  // ---------- reading a text that something follows ----------

  lemma {:induction false} SkipKeeps(p: string, q: string)
    ensures SkipSpace(p + q) == if Blank(p) then SkipSpace(q) else SkipSpace(p) + q
  {
    if p == "" {
      assert p + q == q;
    } else if IsSpace(p[0]) {
      assert (p + q)[1..] == p[1..] + q;
      SkipKeeps(p[1..], q);
      assert Blank(p) <==> Blank(p[1..]);
    }
  }

  lemma {:induction false} WordKeeps(p: string, q: string)
    requires q == "" || IsSpace(q[0])
    ensures WordLength(p + q) == WordLength(p)
  {
    if p == "" {
      assert p + q == q;
    } else {
      assert (p + q)[1..] == p[1..] + q;
      WordKeeps(p[1..], q);
    }
  }

  lemma {:induction false} DigitsKeep(p: string, q: string)
    requires q == "" || !IsDigit(q[0])
    ensures DigitsLength(p + q) == DigitsLength(p)
  {
    if p == "" {
      assert p + q == q;
    } else {
      assert (p + q)[1..] == p[1..] + q;
      DigitsKeep(p[1..], q);
    }
  }

  lemma {:induction false} AllDigits(d: string)
    requires Digits(d)
    ensures DigitsLength(d) == |d|
  {
    if d != "" {
      AllDigits(d[1..]);
    }
  }

  lemma {:induction false} ValueOfNatural(n: nat)
    ensures DigitsValue(Natural(n)) == n
  {
    var s := Natural(n);
    if n >= 10 {
      ValueOfNatural(n / 10);
      assert s[..|s| - 1] == Natural(n / 10);
    } else {
      assert s[..|s| - 1] == "";
    }
  }

  /** What follows a token does not change it, once white space ends it. */
  lemma ReadWordKeeps(p: string, q: string)
    requires !Blank(p)
    requires q == "" || IsSpace(q[0])
    ensures ReadWord(p).Some?
    ensures ReadWord(p + q) == Some((ReadWord(p).value.0, ReadWord(p).value.1 + q))
  {
    SkipKeeps(p, q);
    var t := SkipSpace(p);
    WordKeeps(t, q);
    var n := WordLength(t);
    assert (t + q)[..n] == t[..n] && (t + q)[n..] == t[n..] + q;
  }

  lemma ReadDigitsKeeps(t: string, q: string, lo: int, hi: int)
    requires t != ""
    requires q == "" || !IsDigit(q[0])
    ensures ReadDigits(t, lo, hi).None? ==> ReadDigits(t + q, lo, hi).None?
    ensures ReadDigits(t, lo, hi).Some? ==>
              ReadDigits(t + q, lo, hi) == Some((ReadDigits(t, lo, hi).value.0, ReadDigits(t, lo, hi).value.1 + q))
  {
    var u := if Signed(t) then t[1..] else t;
    assert (t + q)[0] == t[0];
    assert (t + q)[1..] == t[1..] + q;
    DigitsKeep(u, q);
    var n := DigitsLength(u);
    assert (u + q)[..n] == u[..n] && (u + q)[n..] == u[n..] + q;
  }

  lemma ReadNumberKeeps(p: string, q: string, lo: int, hi: int)
    requires !Blank(p)
    requires q == "" || !IsDigit(q[0])
    ensures ReadNumber(p, lo, hi).None? ==> ReadNumber(p + q, lo, hi).None?
    ensures ReadNumber(p, lo, hi).Some? ==>
              ReadNumber(p + q, lo, hi) == Some((ReadNumber(p, lo, hi).value.0, ReadNumber(p, lo, hi).value.1 + q))
  {
    hide ReadDigits;
    SkipKeeps(p, q);
    ReadDigitsKeeps(SkipSpace(p), q, lo, hi);
  }

  lemma BlankSkipped(p: string, q: string, lo: int, hi: int)
    requires Blank(p)
    ensures ReadWord(p + q) == ReadWord(q)
    ensures ReadNumber(p + q, lo, hi) == ReadNumber(q, lo, hi)
  {
    SkipKeeps(p, q);
  }

  lemma NaturalRead(n: nat, lo: int, hi: int)
    requires lo <= n <= hi
    ensures ReadDigits(Natural(n), lo, hi) == Some((n, ""))
  {
    var d := Natural(n);
    AllDigits(d);
    ValueOfNatural(n);
    assert IsDigit(d[0]);
    assert d[..|d|] == d && d[|d|..] == "";
  }

  lemma NegativeRead(n: nat, lo: int, hi: int)
    requires lo <= -(n as int) <= hi
    ensures ReadDigits("-" + Natural(n), lo, hi) == Some((-(n as int), ""))
  {
    hide Natural, DigitsValue;
    var d := Natural(n);
    var s := "-" + d;
    AllDigits(d);
    ValueOfNatural(n);
    assert s[0] == '-' && s[1..] == d;
    assert d[..|d|] == d && d[|d|..] == "";
  }

  lemma DecimalWord(x: int)
    ensures Word(Decimal(x))
  {
    hide Natural;
  }

  lemma WordSkips(w: string)
    requires Word(w)
    ensures SkipSpace(w) == w && !Blank(w)
  {
    assert !IsSpace(w[0]);
  }

  /** A written number is read back, whatever follows it. */
  lemma DecimalRead(x: int, q: string, lo: int, hi: int)
    requires lo <= x <= hi
    requires q == "" || !IsDigit(q[0])
    ensures ReadNumber(Decimal(x) + q, lo, hi) == Some((x, q))
  {
    hide ReadDigits, Natural;
    if x < 0 { NegativeRead(-x, lo, hi); } else { NaturalRead(x, lo, hi); }
    DecimalWord(x);
    WordSkips(Decimal(x));
    ReadNumberKeeps(Decimal(x), q, lo, hi);
    assert "" + q == q;
  }

  lemma {:induction false} WholeWord(w: string)
    requires Word(w)
    ensures WordLength(w) == |w|
  {
    if |w| > 1 {
      WholeWord(w[1..]);
    }
  }

  lemma WordRead(w: string, q: string)
    requires Word(w)
    requires q == "" || IsSpace(q[0])
    ensures ReadWord(w + q) == Some((w, q))
  {
    WordSkips(w);
    WholeWord(w);
    ReadWordKeeps(w, q);
    assert w[..|w|] == w && w[|w|..] + q == q;
  }

  // ---------- reading a line ----------

  predicate Separates(separator: char, end: string) {
    IsSpace(separator) && Blank(end)
  }

  /** A seed whose white space is all outside one word is read as that word. */
  lemma ReadTrimmedPlace(seed: string, slot: int, separator: char, end: string)
    requires Separates(separator, end) && MIN_INT <= slot <= MAX_INT
    requires !Blank(seed) && Blank(ReadWord(seed).value.1)
    ensures ReadPlace(seed + ([separator] + Decimal(slot) + end)) == Some((ReadWord(seed).value.0, slot))
  {
    hide Decimal, ReadDigits, WordLength;
    var tail := [separator] + Decimal(slot) + end;
    ReadWordKeeps(seed, tail);
    var rest := ReadWord(seed).value.1;
    var p := rest + [separator];
    assert rest + tail == p + (Decimal(slot) + end);
    BlankSkipped(p, Decimal(slot) + end, MIN_INT, MAX_INT);
    DecimalRead(slot, end, MIN_INT, MAX_INT);
    assert ReadWord(end).None?;
  }

  /** A seed of several words is refused: the last field is left over. */
  lemma ReadBrokenPlace(seed: string, slot: int, separator: char, end: string)
    requires Separates(separator, end)
    requires !Blank(seed) && !Blank(ReadWord(seed).value.1)
    ensures ReadPlace(seed + ([separator] + Decimal(slot) + end)).None?
  {
    hide Decimal, ReadDigits, WordLength;
    var tail := [separator] + Decimal(slot) + end;
    ReadWordKeeps(seed, tail);
    var rest := ReadWord(seed).value.1;
    ReadNumberKeeps(rest, tail, MIN_INT, MAX_INT);
    var number := ReadNumber(rest, MIN_INT, MAX_INT);
    if number.Some? {
      DecimalWord(slot);
      assert !IsSpace(Decimal(slot)[0]);
      assert tail[1] == Decimal(slot)[0];
      var left := number.value.1 + tail;
      assert left[|number.value.1| + 1] == tail[1];
      assert ReadWord(left).Some?;
    }
  }

  /** Without a seed, the slot is taken for the seed and nothing is left for the slot. */
  lemma ReadNoSeed(seed: string, slot: int, separator: char, end: string)
    requires Separates(separator, end)
    requires Blank(seed)
    ensures ReadPlace(seed + ([separator] + Decimal(slot) + end)).None?
  {
    hide Decimal, WordLength;
    var p := seed + [separator];
    assert seed + ([separator] + Decimal(slot) + end) == p + (Decimal(slot) + end);
    BlankSkipped(p, Decimal(slot) + end, 0, 0);
    DecimalWord(slot);
    WordRead(Decimal(slot), end);
    assert ReadNumber(end, MIN_INT, MAX_INT).None?;
  }

  lemma BlankAfter(t: string, m: nat, k: int)
    requires m <= |t|
    ensures Blank(t[m..]) && m <= k < |t| ==> IsSpace(t[k])
  {
    if Blank(t[m..]) && m <= k < |t| {
      assert t[m..][k - m] == t[k];
    }
  }

  lemma TrimIsWord(seed: string)
    requires !Blank(seed) && Blank(ReadWord(seed).value.1)
    ensures Trim(seed) == ReadWord(seed).value.0
  {
    hide WordLength, SkipSpace;
    var t := SkipSpace(seed);
    var n := WordLength(t);
    var r := TrimEnd(t);
    assert n > 0 && !IsSpace(t[n - 1]);
    BlankAfter(t, |r|, n - 1);
    BlankAfter(t, n, |r| - 1);
  }

  lemma TrimIsBroken(seed: string, max: nat)
    requires !Blank(seed) && !Blank(ReadWord(seed).value.1)
    ensures !SafeToken(Trim(seed), max)
  {
    hide WordLength, SkipSpace;
    var t := SkipSpace(seed);
    var n := WordLength(t);
    var r := TrimEnd(t);
    var k :| 0 <= k < |t[n..]| && !IsSpace(t[n..][k]);
    BlankAfter(t, |r|, n + k);
    assert r[n] == t[n];
    assert IsSpace(t[n]);
  }

  lemma ReadPlaceOf(seed: string, slot: int, separator: char, end: string, max: nat)
    requires Separates(separator, end) && MIN_INT <= slot <= MAX_INT
    ensures var p := ReadPlace(seed + ([separator] + Decimal(slot) + end));
            if p.Some? then p == Some((Trim(seed), slot)) else !SafeToken(Trim(seed), max)
  {
    hide ReadPlace, Decimal, SkipSpace, TrimEnd, WordLength;
    if Blank(seed) {
      ReadNoSeed(seed, slot, separator, end);
      assert Trim(seed) == "";
    } else if Blank(ReadWord(seed).value.1) {
      ReadTrimmedPlace(seed, slot, separator, end);
      TrimIsWord(seed);
    } else {
      ReadBrokenPlace(seed, slot, separator, end);
      TrimIsBroken(seed, max);
    }
  }

  lemma ReadLine(l: Ledger, separator: char, end: string)
    requires Separates(separator, end) && Legible(l)
    ensures var place := ReadPlace(l.seed + ([separator] + Decimal(l.slot) + end));
            ReadLedger(Line(l, separator, end)) ==
              if place.None? then None else Some(Ledger(l.sent, l.action, place.value.0, place.value.1))
  {
    hide Decimal, ReadDigits, WordLength, SkipSpace;
    var last := l.seed + ([separator] + Decimal(l.slot) + end);
    var rest := [separator] + l.action + ([separator] + last);
    assert Line(l, separator, end) == Decimal(l.sent) + rest by {
      assert [separator] + last == [separator] + l.seed + ([separator] + Decimal(l.slot) + end);
    }
    DecimalRead(l.sent, rest, MIN_LONG, MAX_LONG);
    assert rest == [separator] + (l.action + ([separator] + last));
    BlankSkipped([separator], l.action + ([separator] + last), 0, 0);
    WordRead(l.action, [separator] + last);
    assert ReadPlace([separator] + last) == ReadPlace(last) by {
      BlankSkipped([separator], last, 0, 0);
    }
  }

  /** What is read from a line: exactly the ledger, its seed trimmed, if that is acceptable and short enough. */
  lemma ParseLine(l: Ledger, separator: char, end: string)
    requires Separates(separator, end) && Legible(l)
    ensures var read := l.(seed := Trim(l.seed));
            ParseLedger(Line(l, separator, end)) ==
              if |Line(l, separator, end)| <= 512 && Acceptable(read) then Some(read) else None
  {
    hide Decimal, ReadPlace, Trim, SafeToken, Line, ReadLedger;
    ReadLine(l, separator, end);
    ReadPlaceOf(l.seed, l.slot, separator, end, 256);
  }

  /** A written ledger is read back as it was if and only if its seed has no white space at its ends. */
  lemma RenderedReadsBack(l: Ledger)
    requires Legible(l)
    ensures ParseLedger(Render(l)) == Some(l) <==> |Render(l)| <= 512 && Acceptable(l)
  {
    hide Line, ParseLedger, TrimEnd, SkipSpace;
    ParseLine(l, '\t', "\n");
    if SafeToken(l.seed, 256) { SafeTokenTrims(l.seed, 256); }
  }

  lemma SafeTokenTrims(s: string, max: nat)
    requires SafeToken(s, max)
    ensures Trim(s) == s
  {
    assert IsTokenChar(s[0]) && IsTokenChar(s[|s| - 1]);
  }

  lemma WordTrims(w: string)
    requires Word(w)
    ensures Trim(w) == w
  {
    assert !IsSpace(w[0]) && !IsSpace(w[|w| - 1]);
  }

  /** An accepted request expects no ledger, or one that a ledger file could hold, no later than the request. */
  lemma RequestIsExact(raw: string, r: Request)
    requires ParseRecovery(raw) == Some(r)
    ensures ExpectsNothing(r.expected) || (Acceptable(r.expected) && r.expected.sent <= r.at)
    ensures SafeToken(r.nonce, 64) && r.pid > 0 && r.at > 0
  {
    hide Line, ReadLedger, ReadPlace, ReadNumber, ReadWord, SafeToken, Trim, ParseLedger;
    assert Legible(r.expected) && Word(r.expected.seed);
    WordTrims(r.expected.seed);
    ParseLine(r.expected, ' ', "");
  }

  function RequestText(r: Request): string {
    "v1" + (" " + r.nonce + (" " + Decimal(r.pid) + (" " + Decimal(r.at) + (" " + Line(r.expected, ' ', "")))))
  }

  lemma SpacedWord(w: string, q: string)
    requires Word(w) && (q == "" || IsSpace(q[0]))
    ensures ReadWord(" " + w + q) == Some((w, q))
  {
    assert " " + w + q == " " + (w + q);
    BlankSkipped(" ", w + q, 0, 0);
    WordRead(w, q);
  }

  lemma SpacedNumber(x: int, q: string)
    requires MIN_LONG <= x <= MAX_LONG && (q == "" || !IsDigit(q[0]))
    ensures ReadNumber(" " + Decimal(x) + q, MIN_LONG, MAX_LONG) == Some((x, q))
  {
    hide Decimal, ReadDigits;
    assert " " + Decimal(x) + q == " " + (Decimal(x) + q);
    BlankSkipped(" ", Decimal(x) + q, MIN_LONG, MAX_LONG);
    DecimalRead(x, q, MIN_LONG, MAX_LONG);
  }

  lemma SpacedLedger(l: Ledger)
    requires Legible(l) && Word(l.seed)
    ensures ReadLedger(" " + Line(l, ' ', "")) == Some(l)
  {
    hide Decimal, ReadPlace, ReadWord, ReadDigits;
    BlankSkipped(" ", Line(l, ' ', ""), MIN_LONG, MAX_LONG);
    ReadLine(l, ' ', "");
    WordSkips(l.seed);
    assert ReadPlace(l.seed + ([' '] + Decimal(l.slot) + "")) == Some((l.seed, l.slot)) by {
      assert l.seed + "" == l.seed;
      WordRead(l.seed, "");
      ReadTrimmedPlace(l.seed, l.slot, ' ', "");
    }
  }

  /** A request that is written out is read back exactly when it is short enough and believable. */
  lemma RequestReadsBack(r: Request)
    requires Word(r.nonce) && MIN_LONG <= r.pid <= MAX_LONG && MIN_LONG <= r.at <= MAX_LONG
    requires Legible(r.expected) && Word(r.expected.seed)
    ensures ParseRecovery(RequestText(r)) ==
              if |RequestText(r)| <= 1024 && BelievableRequest("v1", r) then Some(r) else None
  {
    hide Decimal, ReadWord, ReadDigits, ReadLedger, Line, BelievableRequest;
    var last := " " + Line(r.expected, ' ', "");
    var left := " " + Decimal(r.pid) + (" " + Decimal(r.at) + last);
    WordRead("v1", " " + r.nonce + left);
    SpacedWord(r.nonce, left);
    SpacedNumber(r.pid, " " + Decimal(r.at) + last);
    SpacedNumber(r.at, last);
    SpacedLedger(r.expected);
  }

  /** No ledger line of a longer id is short enough to be read. */
  const LONGEST_SEED: nat := 501

  /** An id that no ledger gives back as another one. The others have white space at their ends. */
  predicate Faithful(seed: string) {
    |seed| <= LONGEST_SEED && SafeToken(Trim(seed), 256) ==> Trim(seed) == seed
  }

  /** A ledger with a faithful seed is read back as it was written, or not at all. */
  lemma FaithfulReadsBack(l: Ledger)
    requires Legible(l) && (l.action == "pluck" || l.action == "plant") && Faithful(l.seed)
    ensures ParseLedger(Render(l)).Some? ==> ParseLedger(Render(l)) == Some(l)
  {
    hide ParseLedger, Trim, SafeToken;
    ParseLine(l, '\t', "\n");
    assert Trim(l.seed) == l.seed ==> l.(seed := Trim(l.seed)) == l;
    if |l.seed| > LONGEST_SEED {
      assert |Decimal(l.sent)| >= 1 && |Decimal(l.slot)| >= 1;
      assert |Render(l)| > 512;
    }
  }

  lemma NothingInNothing()
    ensures ParseLedger("").None?
  {
  }
}
