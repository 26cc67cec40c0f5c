/**
  The consumer identity scheme of `AddFunc`: the consumer name given by the caller, a dash, and the decimal
  rendering of the next value of the process-wide 64-bit `consumerSeq` counter.
  The lemmas show that the counter can be read back from a key, so keys issued
  for different counter values never collide, whatever the names.
 */
module ConsumerKeys {
  import opened Options

  const MaxUint64: int := 0xFFFF_FFFF_FFFF_FFFF

  newtype uint64 = x: int | 0 <= x <= 0xFFFF_FFFF_FFFF_FFFF

  /** `atomic.AddUint64(&consumerSeq, 1)`: the new value, wrapping to 0 past the maximum. */
  function Increment(n: uint64): (r: uint64)
    ensures r as int == (n as int + 1) % 0x1_0000_0000_0000_0000
    ensures n as int < MaxUint64 ==> r as int == n as int + 1 && r > n
  {
    if n as int == MaxUint64 then 0 else n + 1
  }

  predicate IsDigit(c: char) {
    '0' <= c <= '9'
  }

  predicate AllDigits(s: string) {
    forall i :: 0 <= i < |s| ==> IsDigit(s[i])
  }

  /** A decimal rendering without superfluous leading zeros, as `strconv.FormatUint` produces. */
  predicate Canonical(s: string) {
    |s| > 0 && AllDigits(s) && (s[0] == '0' ==> |s| == 1)
  }

  function DigitChar(d: nat): (c: char)
    requires d < 10
    ensures IsDigit(c)
  {
    ('0' as int + d) as char
  }

  function DigitValue(c: char): (d: nat)
    requires IsDigit(c)
    ensures d < 10 && DigitChar(d) == c
  {
    c as int - '0' as int
  }

  /** `strconv.FormatUint(n, 10)`. */
  function Decimal(n: nat): (s: string)
    ensures Canonical(s)
    ensures '-' !in s
  {
    if n < 10 then [DigitChar(n)] else Decimal(n / 10) + [DigitChar(n % 10)]
  }

  /** The inverse reading of a string of decimal digits. */
  function ParseDecimal(s: string): nat
    requires AllDigits(s)
  {
    if s == [] then 0 else ParseDecimal(s[..|s| - 1]) * 10 + DigitValue(s[|s| - 1])
  }

  lemma {:induction false} DecimalRoundTrip(n: nat)
    ensures ParseDecimal(Decimal(n)) == n
  {
    var s := Decimal(n);
    if n < 10 {
      assert s[..|s| - 1] == [];
    } else {
      assert s[..|s| - 1] == Decimal(n / 10);
      DecimalRoundTrip(n / 10);
    }
  }

  lemma {:induction false} ParsePositive(s: string)
    requires |s| > 0 && AllDigits(s) && s[0] != '0'
    ensures ParseDecimal(s) >= 1
  {
    if |s| > 1 {
      ParsePositive(s[..|s| - 1]);
    } else {
      assert s[..|s| - 1] == [];
    }
  }

  /** Every canonical digit string is the rendering of the number it denotes. */
  lemma {:induction false} ParseRoundTrip(s: string)
    requires Canonical(s)
    ensures Decimal(ParseDecimal(s)) == s
  {
    if |s| == 1 {
      assert s[..0] == [];
    } else {
      var init := s[..|s| - 1];
      SplitLast(s);
      ParseRoundTrip(init);
      DecimalSnoc(ParseDecimal(init), DigitValue(s[|s| - 1]));
    }
  }

  /** A canonical string of two or more digits is a positive canonical string and one more digit. */
  lemma SplitLast(s: string)
    requires Canonical(s) && |s| > 1
    ensures s == s[..|s| - 1] + [s[|s| - 1]]
    ensures Canonical(s[..|s| - 1]) && ParseDecimal(s[..|s| - 1]) >= 1
  {
    assert s[..|s| - 1][0] == s[0];
    ParsePositive(s[..|s| - 1]);
  }

  /** Appending a digit to a positive number's rendering renders ten times it plus the digit. */
  lemma DecimalSnoc(p: nat, v: nat)
    requires p >= 1 && v < 10
    ensures Decimal(p * 10 + v) == Decimal(p) + [DigitChar(v)]
  {
  }

  lemma DecimalInjective(m: nat, n: nat)
    ensures Decimal(m) == Decimal(n) <==> m == n
  {
    DecimalRoundTrip(m);
    DecimalRoundTrip(n);
  }

  /** The key under which `AddFunc` stores an entry, for the consumer name `consumer` and counter value `n`. */
  function ConsumerKey(consumer: string, n: nat): string {
    consumer + "-" + Decimal(n)
  }

  /** The text after the last dash of `s` (all of `s` when it has none). */
  function LastField(s: string): (f: string)
    ensures '-' !in f
    ensures |f| <= |s| && f == s[|s| - |f|..]
    ensures |f| < |s| ==> s[|s| - |f| - 1] == '-'
  {
    if s == [] || s[|s| - 1] == '-' then []
    else
      var f' := LastField(s[..|s| - 1]);
      assert s[|s| - |f'| - 1..] == f' + [s[|s| - 1]];
      f' + [s[|s| - 1]]
  }

  lemma {:induction false} LastFieldAfterDash(p: string, d: string)
    requires '-' !in d
    ensures LastField(p + "-" + d) == d
  {
    var s := p + "-" + d;
    if d == [] {
      assert s[|s| - 1] == '-';
    } else {
      var d' := d[..|d| - 1];
      assert s[..|s| - 1] == p + "-" + d';
      LastFieldAfterDash(p, d');
      assert d == d' + [d[|d| - 1]];
    }
  }

  /** The counter value a key was issued for, read back from the text after its last dash. */
  function CounterOf(k: string): Option<nat> {
    var f := LastField(k);
    if f != [] && AllDigits(f) then Some(ParseDecimal(f)) else None
  }

  /** The text after the last dash of a key is the decimal counter value. */
  lemma KeyCounter(consumer: string, n: nat)
    ensures LastField(ConsumerKey(consumer, n)) == Decimal(n)
    ensures CounterOf(ConsumerKey(consumer, n)) == Some(n)
  {
    LastFieldAfterDash(consumer, Decimal(n));
    DecimalRoundTrip(n);
  }

  /** Two keys are equal exactly when both their names and their counter values are. */
  lemma KeyInjective(l1: string, n1: nat, l2: string, n2: nat)
    ensures ConsumerKey(l1, n1) == ConsumerKey(l2, n2) <==> l1 == l2 && n1 == n2
  {
    if ConsumerKey(l1, n1) == ConsumerKey(l2, n2) {
      var d1, d2 := Decimal(n1), Decimal(n2);
      LastFieldAfterDash(l1, d1);
      LastFieldAfterDash(l2, d2);
      DecimalInjective(n1, n2);
      var k := l1 + "-" + d1;
      assert k == l2 + "-" + d2;
      assert |l1| == |l2|;
      assert l1 == k[..|l1|] == l2;
    }
  }

  /** Keys issued by successive calls, starting after counter value `c`, are pairwise distinct,
      even when the names repeat, as long as the counter does not wrap. */
  lemma SuccessiveKeysDistinct(consumers: seq<string>, c: nat)
    ensures forall i, j :: 0 <= i < j < |consumers| ==>
      ConsumerKey(consumers[i], c + i + 1) != ConsumerKey(consumers[j], c + j + 1)
  {
    forall i, j | 0 <= i < j < |consumers|
      ensures ConsumerKey(consumers[i], c + i + 1) != ConsumerKey(consumers[j], c + j + 1)
    {
      KeyInjective(consumers[i], c + i + 1, consumers[j], c + j + 1);
    }
  }

  /** Every key of `m` was issued for a counter value in 1..c. */
  ghost predicate Issued<V>(m: map<string, V>, c: uint64) {
    forall k :: k in m ==> CounterOf(k).Some? && 1 <= CounterOf(k).value <= c as int
  }

  /** A registration with counter value c + 1 gets a key not yet in use, and keeps the map issued. */
  lemma AddFresh<V>(m: map<string, V>, c: uint64, consumer: string, v: V)
    requires Issued(m, c) && c as int < MaxUint64
    ensures ConsumerKey(consumer, Increment(c) as int) !in m
    ensures Issued(m[ConsumerKey(consumer, Increment(c) as int) := v], Increment(c))
  {
    KeyCounter(consumer, Increment(c) as int);
  }
}
