/** Identifiers of scheduled settlement actions: decimal fields between colons, written and read back. */
module ContestActions {
  import opened Common
  import opened ContestTypes

  const MAX_INT64 := 0x7FFF_FFFF_FFFF_FFFF

  function DigitOf(n: nat): char
    requires n < 10
  {
    '0' + n as char
  }

  predicate IsDigit(c: char) {
    '0' <= c <= '9'
  }

  function Decimal(n: nat): string {
    if n < 10 then [DigitOf(n)] else Decimal(n / 10) + [DigitOf(n % 10)]
  }

  function DigitsValue(s: string): Option<nat> {
    if s == [] then Some(0)
    else
      var before := DigitsValue(s[..|s| - 1]);
      if before.None? || !IsDigit(s[|s| - 1]) then None
      else Some(before.value * 10 + (s[|s| - 1] - '0') as nat)
  }

  /** An optional sign, at least one digit, and a value that fits. */
  function ParseInt(s: string): Option<int> {
    var negative := s != [] && s[0] == '-';
    var digits := if s != [] && (s[0] == '-' || s[0] == '+') then s[1..] else s;
    var n := DigitsValue(digits);
    if digits == [] || n.None? then None
    else
      var magnitude: int := n.value;
      var value := if negative then 0 - magnitude else magnitude;
      if -MAX_INT64 - 1 <= value <= MAX_INT64 then Some(value) else None
  }

  function Split(s: string): (parts: seq<string>)
    ensures |parts| >= 1
  {
    if s == [] then [[]]
    else
      var rest := Split(s[1..]);
      if s[0] == ':' then [[]] + rest else [[s[0]] + rest[0]] + rest[1..]
  }

  const PREFIX := "contest_settlement"

  /** Sub-second precision of the target is lost in the identifier. */
  function UnixSeconds(t: Time): int {
    t / SECOND
  }

  function ActionId(round: nat, target: Time): string
    requires target >= 0
  {
    PREFIX + ":" + Decimal(round) + ":" + Decimal(UnixSeconds(target))
  }

  function ParseActionId(id: string): Option<(int, Time)> {
    var parts := Split(id);
    if |parts| < 3 || parts[0] != PREFIX then None
    else
      var round, seconds := ParseInt(parts[1]), ParseInt(parts[2]);
      if round.None? || round.value <= 0 || seconds.None? || seconds.value <= 0 then None
      else Some((round.value, seconds.value * SECOND))
  }

  // ---------- writing and reading back ----------

  lemma {:induction false} DecimalReads(n: nat)
    ensures DigitsValue(Decimal(n)) == Some(n) && Decimal(n) != []
    ensures forall i :: 0 <= i < |Decimal(n)| ==> IsDigit(Decimal(n)[i])
  {
    if n < 10 {
      assert Decimal(n)[..0] == [];
    } else {
      DecimalReads(n / 10);
      var s := Decimal(n);
      assert s[..|s| - 1] == Decimal(n / 10);
    }
  }

  predicate ReadsAs(s: string, n: int, fits: bool) {
    if fits then ParseInt(s) == Some(n) else ParseInt(s).None?
  }

  /** Digits are read as their number, with a plus sign as well, and with a minus sign as its negation, exactly while it fits 64 bits. */
  lemma DigitsParse(s: string, n: int)
    requires s != [] && IsDigit(s[0]) && DigitsValue(s).Some? && DigitsValue(s).value == n
    ensures ReadsAs(s, n, n < 0x8000_0000_0000_0000)
    ensures ReadsAs("+" + s, n, n < 0x8000_0000_0000_0000)
    ensures ReadsAs("-" + s, -n, n <= 0x8000_0000_0000_0000)
  {
    assert ("+" + s)[1..] == s && ("-" + s)[1..] == s;
  }

  lemma DecimalParses(n: nat)
    requires n <= MAX_INT64
    ensures ParseInt(Decimal(n)) == Some(n)
  {
    DecimalReads(n);
    DigitsParse(Decimal(n), n);
  }

  /** Nothing but digits is read after the sign, and at least one. */
  lemma OnlyDigitsParse(s: string)
    requires ParseInt(s).Some?
    ensures s != [] && (IsDigit(s[0]) || ((s[0] == '-' || s[0] == '+') && |s| > 1))
    ensures forall i :: 1 <= i < |s| ==> IsDigit(s[i])
  {
    if s[0] == '-' || s[0] == '+' {
      OnlyDigits(s[1..]);
      forall i | 1 <= i < |s| ensures IsDigit(s[i]) {
        assert s[i] == s[1..][i - 1];
      }
    } else {
      OnlyDigits(s);
    }
  }

  lemma {:induction false} OnlyDigits(s: string)
    requires DigitsValue(s).Some?
    ensures forall i :: 0 <= i < |s| ==> IsDigit(s[i])
    decreases |s|
  {
    if s != [] {
      OnlyDigits(s[..|s| - 1]);
      forall i | 0 <= i < |s| - 1 ensures IsDigit(s[i]) {
        assert s[i] == s[..|s| - 1][i];
      }
    }
  }

  predicate Plain(s: string) {
    forall i :: 0 <= i < |s| ==> s[i] != ':'
  }

  lemma {:induction false} SplitPlain(s: string)
    requires Plain(s)
    ensures Split(s) == [s]
  {
    if s != [] {
      SplitPlain(s[1..]);
      assert [s[0]] + s[1..] == s;
    }
  }

  /** A colon ends the first field, whatever follows. */
  lemma {:induction false} SplitField(field: string, rest: string)
    requires Plain(field)
    ensures Split(field + ":" + rest) == [field] + Split(rest)
  {
    var s := field + ":" + rest;
    if field == [] {
      assert s[1..] == rest;
    } else {
      SplitField(field[1..], rest);
      assert s[1..] == field[1..] + ":" + rest;
      assert [s[0]] + field[1..] == field;
    }
  }

  lemma SplitHead(a: string, b: string, c: string, tail: string)
    requires Plain(a) && Plain(b) && Plain(c) && (tail == [] || tail[0] == ':')
    ensures var parts := Split(a + ":" + b + ":" + c + tail);
      |parts| >= 3 && parts[0] == a && parts[1] == b && parts[2] == c
  {
    assert a + ":" + b + ":" + c + tail == a + ":" + (b + ":" + (c + tail));
    SplitField(a, b + ":" + (c + tail));
    SplitField(b, c + tail);
    if tail == [] {
      assert c + tail == c;
      SplitPlain(c);
    } else {
      assert c + tail == c + ":" + tail[1..];
      SplitField(c, tail[1..]);
    }
  }

  /** Reading an identifier, with any nonce or none, gives back its round and its second. */
  lemma ActionIdReadsBack(round: nat, target: Time, tail: string)
    requires 0 < round <= MAX_INT64 && 0 < UnixSeconds(target) <= MAX_INT64
    requires tail == [] || tail[0] == ':'
    ensures ParseActionId(ActionId(round, target) + tail) == Some((round, UnixSeconds(target) * SECOND))
  {
    var r, t := Decimal(round), Decimal(UnixSeconds(target));
    DecimalReads(round);
    DecimalReads(UnixSeconds(target));
    SplitHead(PREFIX, r, t, tail);
    DecimalParses(round);
    DecimalParses(UnixSeconds(target));
  }

  /** The target comes back unchanged exactly when it falls on a whole second; otherwise it comes back earlier. */
  lemma TargetComesBackIffWholeSecond(round: nat, target: Time, tail: string)
    requires 0 < round <= MAX_INT64 && 0 < UnixSeconds(target) <= MAX_INT64
    requires tail == [] || tail[0] == ':'
    ensures ParseActionId(ActionId(round, target) + tail) == Some((round, target)) <==> target % SECOND == 0
    ensures target % SECOND != 0 ==>
      exists earlier :: earlier < target && ParseActionId(ActionId(round, target) + tail) == Some((round, earlier))
  {
    ActionIdReadsBack(round, target, tail);
  }
}
