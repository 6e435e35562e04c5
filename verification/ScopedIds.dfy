/** Printing and recognising process-scoped identifiers: `<uuid>:<kind>:<sequence>`. */
module ScopedIds {
  import opened Basics
  import opened Schema

  function DigitChar(d: nat): (c: char)
    requires d < 10
    ensures IsDigit(c) && DigitValue(c) == d
  {
    ('0' as int + d) as char
  }

  /** How a non-negative integer prints. */
  function Decimal(n: nat): (s: string) {
    if n < 10 then [DigitChar(n)] else Decimal(n / 10) + [DigitChar(n % 10)]
  }

  function Print(uuid: string, kind: char, n: nat): string {
    uuid + [':', kind, ':'] + Decimal(n)
  }

  function Pow10(k: nat): nat { if k == 0 then 1 else 10 * Pow10(k - 1) }

  // ----- numerals -----

  lemma {:induction false} DecimalParses(n: nat)
    ensures Decimal(n) != [] && AllDigits(Decimal(n)) && NumeralValue(Decimal(n)) == n
    ensures Decimal(n)[0] == '0' ==> n == 0
  {
    if n < 10 {
      assert Decimal(n)[..0] == [];
    } else {
      DecimalParses(n / 10);
      var s := Decimal(n / 10);
      assert Decimal(n)[..|s|] == s;
    }
  }

  lemma DecimalAppend(n: nat, d: nat)
    requires n > 0 && d < 10
    ensures Decimal(n * 10 + d) == Decimal(n) + [DigitChar(d)]
  {
    assert (n * 10 + d) / 10 == n && (n * 10 + d) % 10 == d;
  }

  lemma OneDigit(s: string)
    requires |s| == 1 && IsDigit(s[0])
    ensures AllDigits(s) && NumeralValue(s) == DigitValue(s[0]) && Decimal(NumeralValue(s)) == s
  {
    assert NumeralValue(s[..0]) == 0;
  }

  /** A numeral without a leading zero is the print of its value. */
  lemma {:induction false} NumeralPrints(s: string)
    requires s != [] && AllDigits(s) && (s[0] == '0' ==> |s| == 1)
    ensures Decimal(NumeralValue(s)) == s
    ensures NumeralValue(s) == 0 ==> s == "0"
  {
    hide Decimal;
    var head, last := s[..|s| - 1], s[|s| - 1];
    if head == [] {
      OneDigit(s);
    } else {
      assert head[0] == s[0] != '0';
      NumeralPrints(head);
      assert NumeralValue(head) > 0;
      DecimalAppend(NumeralValue(head), DigitValue(last));
      assert s == head + [last];
    }
  }

  lemma {:induction false} DecimalLength(n: nat, k: nat)
    requires k > 0
    ensures |Decimal(n)| <= k <==> n < Pow10(k)
  {
    if n >= 10 && k > 1 {
      DecimalLength(n / 10, k - 1);
    } else if n >= 10 {
      assert Pow10(0) == 1;
      DecimalParses(n / 10);
    } else {
      PowGrows(k);
    }
  }

  lemma {:induction false} PowGrows(k: nat)
    ensures k > 0 ==> Pow10(k) >= 10
    ensures Pow10(k) >= 1
  {
    if k > 0 { PowGrows(k - 1); }
  }

  lemma TwentyDigits()
    ensures Pow10(20) == 100_000_000_000_000_000_000
  {
    assert Pow10(5) == 100_000;
    assert Pow10(10) == 10_000_000_000;
    assert Pow10(15) == 1_000_000_000_000_000;
  }

  /** A print meets the numeral pattern exactly when it has at most twenty digits. */
  lemma NumeralBound(n: nat)
    ensures IsSequenceNumeral(Decimal(n)) <==> n < 100_000_000_000_000_000_000
  {
    DecimalParses(n);
    DecimalLength(n, 20);
    TwentyDigits();
  }

  // ----- identifiers -----

  lemma {:induction false} PartitionStops(head: string, rest: string)
    requires forall i :: 0 <= i < |head| ==> head[i] != ':'
    ensures Partition(head + [':'] + rest) == head
  {
    if head == [] {
      assert (head + [':'] + rest)[0] == ':';
    } else {
      PartitionStops(head[1..], rest);
      assert (head + [':'] + rest)[1..] == head[1..] + [':'] + rest;
      assert (head + [':'] + rest)[0] == head[0];
    }
  }

  lemma PrintParts(uuid: string, kind: char, n: nat)
    requires |uuid| == 32
    ensures var v := Print(uuid, kind, n);
      |v| > 35 && v[..32] == uuid && v[32..35] == [':', kind, ':'] && v[35..] == Decimal(n)
  {
    DecimalParses(n);
  }

  /**
   * Printing then reading: the print of a process and a number is an identifier of its
   * kind exactly when the number is a uint64, and of no other kind; both parts come back.
   */
  lemma PrintRoundTrips(uuid: string, kind: char, n: nat)
    requires IsProcessUuid(uuid)
    ensures var v := Print(uuid, kind, n);
      && (IsScopedId(v, kind) <==> n <= UINT64_MAX)
      && (forall other :: other != kind ==> !IsScopedId(v, other))
      && Partition(v) == uuid
      && AllDigits(v[35..]) && NumeralValue(v[35..]) == n
  {
    var v := Print(uuid, kind, n);
    PrintParts(uuid, kind, n);
    DecimalParses(n);
    NumeralBound(n);
    assert v[32..35][1] == kind;
    PartitionStops(uuid, [kind, ':'] + Decimal(n));
    assert v == uuid + [':'] + ([kind, ':'] + Decimal(n));
  }

  /** Reading then printing: every identifier is the print of its own parts. */
  lemma EveryIdIsAPrint(v: string, kind: char)
    requires IsScopedId(v, kind)
    ensures v == Print(Partition(v), kind, NumeralValue(v[35..]))
    ensures IsProcessUuid(Partition(v))
  {
    NumeralPrints(v[35..]);
    assert v == v[..32] + v[32..35] + v[35..];
    PartitionStops(v[..32], [kind, ':'] + v[35..]);
    assert v == v[..32] + [':'] + ([kind, ':'] + v[35..]);
  }

  /** The accepted strings are exactly the prints of process ids and uint64 numbers. */
  lemma AcceptedIffPrinted(v: string, kind: char)
    ensures IsScopedId(v, kind) <==> exists uuid, n :: IsProcessUuid(uuid) && IsUint64(n) && v == Print(uuid, kind, n)
  {
    if IsScopedId(v, kind) {
      EveryIdIsAPrint(v, kind);
      assert IsUint64(NumeralValue(v[35..]));
    }
    if uuid, n :| IsProcessUuid(uuid) && IsUint64(n) && v == Print(uuid, kind, n) {
      PrintRoundTrips(uuid, kind, n);
    }
  }

  /** Different processes or different numbers never share an identifier. */
  lemma PrintInjective(uuid: string, kind: char, n: nat, uuid': string, kind': char, n': nat)
    requires IsProcessUuid(uuid) && IsProcessUuid(uuid')
    requires Print(uuid, kind, n) == Print(uuid', kind', n')
    ensures uuid == uuid' && kind == kind' && n == n'
  {
    PrintRoundTrips(uuid, kind, n);
    PrintRoundTrips(uuid', kind', n');
    PrintParts(uuid, kind, n);
    PrintParts(uuid', kind', n');
    assert Print(uuid, kind, n)[32..35][1] == kind;
  }
}
