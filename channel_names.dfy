/**
 * Ticket channel names: `f"ticket-{id}"` (bot.py:61, 138), where `{id}` is
 * Python's `str` of a non-negative integer. The duplicate check of both
 * create commands looks the name up in the ticket category, so everything
 * rests on the name determining the user: ChannelOwner is the inverse of
 * ChannelName, and the two round trips below make the map a bijection
 * between user ids and well-formed ticket names.
 */
module ChannelNames {
  import opened Wrappers

  /** Prefix of every ticket channel name. */
  const Prefix: string := "ticket-"

  predicate IsDigit(c: char) { '0' <= c <= '9' }

  predicate AllDigits(s: string) { forall i :: 0 <= i < |s| ==> IsDigit(s[i]) }

  /** The shape of `str(n)` for `n >= 0`: digits, no leading zero except "0" itself. */
  predicate Canonical(s: string) { |s| >= 1 && AllDigits(s) && (s[0] == '0' ==> |s| == 1) }

  function DigitChar(d: nat): (c: char)
    requires d < 10
    ensures IsDigit(c) && c as int - '0' as int == d
  {
    ('0' as int + d) as char
  }

  function DigitValue(c: char): (d: nat)
    requires IsDigit(c)
    ensures d < 10 && DigitChar(d) == c
  {
    c as int - '0' as int
  }

  /** Python's `str(n)`. */
  function DecimalString(n: nat): (s: string)
    ensures |s| >= 1 && AllDigits(s)
    ensures s[0] == '0' <==> n == 0
  {
    if n < 10 then [DigitChar(n)] else DecimalString(n / 10) + [DigitChar(n % 10)]
  }

  /** Python's `int(s)` on a string of digits. */
  function ParseDecimal(s: string): nat
    requires AllDigits(s)
  {
    if |s| == 0 then 0 else 10 * ParseDecimal(s[..|s| - 1]) + DigitValue(s[|s| - 1])
  }

  function Pow10(k: nat): (p: nat)
    ensures p >= 1
  {
    if k == 0 then 1 else 10 * Pow10(k - 1)
  }

  lemma {:induction false} ParseDecimalString(n: nat)
    ensures ParseDecimal(DecimalString(n)) == n
  {
    var s := DecimalString(n);
    if n >= 10 {
      ParseDecimalString(n / 10);
      assert s[..|s| - 1] == DecimalString(n / 10);
    }
  }

  lemma {:induction false} ParseLeadingNonzero(s: string)
    requires |s| >= 1 && AllDigits(s) && s[0] != '0'
    ensures ParseDecimal(s) >= 1
  {
    if |s| > 1 {
      ParseLeadingNonzero(s[..|s| - 1]);
    } else {
      assert DigitChar(DigitValue(s[0])) == s[0];
    }
  }

  lemma {:induction false} DecimalStringParse(s: string)
    requires Canonical(s)
    ensures DecimalString(ParseDecimal(s)) == s
  {
    var n := ParseDecimal(s);
    if |s| == 1 {
      assert s[..0] == "" && ParseDecimal(s[..0]) == 0;
    } else {
      var p := s[..|s| - 1];
      assert p[0] == s[0];
      ParseLeadingNonzero(p);
      DecimalStringParse(p);
      assert n / 10 == ParseDecimal(p) && n % 10 == DigitValue(s[|s| - 1]);
      assert s == p + [s[|s| - 1]];
    }
  }

  /** A number below 10^k has at most k digits. */
  lemma {:induction false} DecimalStringLength(n: nat, k: nat)
    requires k >= 1 && n < Pow10(k)
    ensures |DecimalString(n)| <= k
  {
    if n >= 10 {
      DecimalStringLength(n / 10, k - 1);
    }
  }

  /** The channel name of the ticket opened by `user` (bot.py:61, 138). */
  function ChannelName(user: nat): (name: string)
    ensures |name| > |Prefix| && name[..|Prefix|] == Prefix
    ensures Canonical(name[|Prefix|..])
  {
    var digits := DecimalString(user);
    assert digits[0] == '0' ==> |digits| == 1 by {
      if digits[0] == '0' { assert user == 0; }
    }
    Prefix + digits
  }

  /** The user a well-formed ticket channel name belongs to, the inverse of ChannelName. */
  function ChannelOwner(name: string): Option<nat>
  {
    if |name| > |Prefix| && name[..|Prefix|] == Prefix && Canonical(name[|Prefix|..])
    then Some(ParseDecimal(name[|Prefix|..]))
    else None
  }

  lemma ChannelOwnerOfName(user: nat)
    ensures ChannelOwner(ChannelName(user)) == Some(user)
  {
    assert ChannelName(user)[|Prefix|..] == DecimalString(user);
    ParseDecimalString(user);
  }

  lemma NameOfChannelOwner(name: string, user: nat)
    requires ChannelOwner(name) == Some(user)
    ensures ChannelName(user) == name
  {
    var digits := name[|Prefix|..];
    DecimalStringParse(digits);
    assert name == Prefix + digits;
  }

  /** Distinct users get distinct ticket channel names. */
  lemma ChannelNameInjective(a: nat, b: nat)
    ensures ChannelName(a) == ChannelName(b) <==> a == b
  {
    ChannelOwnerOfName(a);
    ChannelOwnerOfName(b);
  }

  /** Platform ids are 64-bit, so a ticket channel name has at most 7 + 20 characters. */
  lemma ChannelNameLength(user: nat)
    requires user < 0x1_0000_0000_0000_0000
    ensures |ChannelName(user)| <= |Prefix| + 20
  {
    assert Pow10(5) == 100_000;
    assert Pow10(10) == 100_000 * Pow10(5);
    assert Pow10(20) == 100_000_000_000_000_000_000;
    DecimalStringLength(user, 20);
  }
}
