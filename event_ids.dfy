/** Event identifiers `<prefix>-<n>`, as every mock server's `nextEventID`
    builds them from a process-wide counter and `strconv.FormatUint(n, 10)`. */
module EventIds {

  predicate IsDigit(c: char) {
    '0' <= c <= '9'
  }

  predicate AllDigits(s: string) {
    forall i :: 0 <= i < |s| ==> IsDigit(s[i])
  }

  function DigitChar(d: nat): (c: char)
    requires d < 10
    ensures IsDigit(c)
  {
    ('0' as int + d) as char
  }

  function DigitValue(c: char): (d: nat)
    requires IsDigit(c)
    ensures d < 10
  {
    c as int - '0' as int
  }

  /** The base-10 rendering of `n`: at least one digit, only digits, and no
      leading zero unless `n` is zero itself. */
  function Decimal(n: nat): (s: string)
    ensures |s| >= 1 && AllDigits(s)
    ensures s[0] == '0' ==> n == 0
    decreases n
  {
    if n < 10 then [DigitChar(n)] else Decimal(n / 10) + [DigitChar(n % 10)]
  }

  /** The value of a string of digits, the inverse of `Decimal`. */
  function ParseDecimal(s: string): nat
    requires AllDigits(s)
    decreases |s|
  {
    if s == [] then 0 else ParseDecimal(s[..|s| - 1]) * 10 + DigitValue(s[|s| - 1])
  }

  lemma {:induction false} ParseDecimalOfDecimal(n: nat)
    ensures ParseDecimal(Decimal(n)) == n
    decreases n
  {
    var s := Decimal(n);
    if n < 10 {
      assert s[..|s| - 1] == [];
    } else {
      assert s[..|s| - 1] == Decimal(n / 10);
      ParseDecimalOfDecimal(n / 10);
    }
  }

  /** A digit string without a leading zero (other than "0" itself) has a
      positive value unless it is "0". */
  lemma {:induction false} ParseDecimalPositive(s: string)
    requires |s| >= 1 && AllDigits(s) && s[0] != '0'
    ensures ParseDecimal(s) >= 1
    decreases |s|
  {
    if |s| > 1 {
      ParseDecimalPositive(s[..|s| - 1]);
    }
  }

  /** The other half of the round trip: a canonical digit string is the
      rendering of its own value. */
  lemma {:induction false} DecimalOfParseDecimal(s: string)
    requires |s| >= 1 && AllDigits(s)
    requires s[0] == '0' ==> |s| == 1
    ensures Decimal(ParseDecimal(s)) == s
    decreases |s|
  {
    if |s| == 1 {
      assert s[..0] == [];
      assert [DigitChar(DigitValue(s[0]))] == s;
    } else {
      var t := s[..|s| - 1];
      ParseDecimalPositive(t);
      DecimalOfParseDecimal(t);
      var n := ParseDecimal(s);
      assert n / 10 == ParseDecimal(t) && n % 10 == DigitValue(s[|s| - 1]);
      assert t + [s[|s| - 1]] == s;
    }
  }

  /** Two numbers with the same rendering are equal. */
  lemma DecimalInjective(a: nat, b: nat)
    requires Decimal(a) == Decimal(b)
    ensures a == b
  {
    ParseDecimalOfDecimal(a);
    ParseDecimalOfDecimal(b);
  }

  /** The identifier `nextEventID(prefix)` returns when the counter reaches `n`. */
  function EventId(prefix: string, n: nat): string {
    prefix + "-" + Decimal(n)
  }

  /** An identifier determines both its prefix and its number: the rendering
      of the number holds no '-', so the last '-' is the separator. */
  lemma EventIdUnique(p: string, a: nat, q: string, b: nat)
    requires EventId(p, a) == EventId(q, b)
    ensures p == q && a == b
  {
    var s := EventId(p, a);
    if |p| < |q| {
      ShorterPrefixDiffers(p, a, q, b);
    } else if |q| < |p| {
      ShorterPrefixDiffers(q, b, p, a);
    } else {
      assert p == s[..|p|] == q;
      assert Decimal(a) == s[|p| + 1..] == Decimal(b);
      DecimalInjective(a, b);
    }
  }

  /** With a shorter prefix, the position of the longer prefix's separator
      falls inside the digits. */
  lemma ShorterPrefixDiffers(p: string, a: nat, q: string, b: nat)
    requires |p| < |q|
    ensures EventId(p, a) != EventId(q, b)
  {
    var s, t := EventId(p, a), EventId(q, b);
    assert t[|q|] == '-';
    if |q| < |s| {
      assert s[|q|] == Decimal(a)[|q| - |p| - 1];
    }
  }

  /** Identifiers with different numbers differ, whatever their prefixes. */
  lemma EventIdsDiffer(p: string, a: nat, q: string, b: nat)
    requires a != b
    ensures EventId(p, a) != EventId(q, b)
  {
    if EventId(p, a) == EventId(q, b) {
      EventIdUnique(p, a, q, b);
    }
  }

  /** The identifiers handed out for the prefixes `prefixes`, in order: the
      i-th call (counting from 0) gets number i + 1. */
  function IssuedIds(prefixes: seq<string>): (ids: seq<string>)
    ensures |ids| == |prefixes|
    decreases |prefixes|
  {
    if prefixes == [] then []
    else IssuedIds(prefixes[..|prefixes| - 1]) + [EventId(prefixes[|prefixes| - 1], |prefixes|)]
  }

  lemma {:induction false} IssuedIdAt(prefixes: seq<string>, i: nat)
    requires i < |prefixes|
    ensures IssuedIds(prefixes)[i] == EventId(prefixes[i], i + 1)
    decreases |prefixes|
  {
    if i < |prefixes| - 1 {
      IssuedIdAt(prefixes[..|prefixes| - 1], i);
    }
  }

  /** The next identifier differs from every identifier issued before it,
      whatever prefixes were used. */
  lemma {:induction false} NextIdIsFresh(prefixes: seq<string>, prefix: string)
    ensures EventId(prefix, |prefixes| + 1) !in IssuedIds(prefixes)
  {
    var ids := IssuedIds(prefixes);
    forall i | 0 <= i < |ids|
      ensures ids[i] != EventId(prefix, |prefixes| + 1)
    {
      IssuedIdAt(prefixes, i);
      EventIdsDiffer(prefixes[i], i + 1, prefix, |prefixes| + 1);
    }
  }

  /** The process-wide `eventCounter`, bumped by every `nextEventID` call.
      `prefixes` records, for the proof only, the prefix of each call. */
  class Generator {
    var last: nat
    ghost var prefixes: seq<string>

    ghost predicate Valid()
      reads this
    {
      |prefixes| == last
    }

    /** Every identifier issued so far, oldest first. */
    ghost function Issued(): seq<string>
      reads this
    {
      IssuedIds(prefixes)
    }

    constructor ()
      ensures Valid() && last == 0 && Issued() == []
    {
      last := 0;
      prefixes := [];
    }

    /** `nextEventID(prefix)`: the counter goes up by one and the result
        carries the new value; it is distinct from every earlier result. */
    method Next(prefix: string) returns (id: string)
      requires Valid()
      modifies this
      ensures Valid()
      ensures last == old(last) + 1
      ensures id == EventId(prefix, last)
      ensures id !in old(Issued())
      ensures Issued() == old(Issued()) + [id]
    {
      NextIdIsFresh(prefixes, prefix);
      last := last + 1;
      prefixes := prefixes + [prefix];
      id := EventId(prefix, last);
      assert prefixes[..|prefixes| - 1] == old(prefixes);
    }
  }
}
