/**
 Decimal printing, as Rust's `to_string` does it for unsigned integers and for IPv4 addresses.
 Both are shown to be injective: distinct numbers never print alike.
 */
module Decimal {
  import opened Common

  function Digit(d: nat): char
    requires d < 10
  {
    ['0', '1', '2', '3', '4', '5', '6', '7', '8', '9'][d]
  }

  function DigitValue(c: char): nat {
    if '0' <= c <= '9' then (c as int) - ('0' as int) else 0
  }

  function Print(n: nat): string {
    if n < 10 then [Digit(n)] else Print(n / 10) + [Digit(n % 10)]
  }

  /** Reading a numeral back, most significant digit first. */
  function Parse(s: string): nat {
    if s == "" then 0 else 10 * Parse(s[..|s| - 1]) + DigitValue(s[|s| - 1])
  }

  lemma {:induction false} RoundTrip(n: nat)
    ensures Parse(Print(n)) == n
    ensures forall c :: c in Print(n) ==> '0' <= c <= '9'
  {
    if n < 10 {
      assert Print(n)[..0] == "";
    } else {
      RoundTrip(n / 10);
      var s := Print(n);
      assert s[..|s| - 1] == Print(n / 10);
    }
  }

  lemma PrintInjective(a: nat, b: nat)
    requires Print(a) == Print(b)
    ensures a == b
  {
    RoundTrip(a);
    RoundTrip(b);
  }

  /** Text up to the first dot is determined by the whole. */
  lemma SplitAtDot(p: string, q: string, s: string, t: string)
    requires '.' !in p && '.' !in q
    requires p + "." + s == q + "." + t
    ensures p == q && s == t
  {
    var x, y := p + "." + s, q + "." + t;
    assert x[|p|] == '.' && y[|q|] == '.';
    assert |p| == |q|;
    assert p == x[..|p|] && q == y[..|q|];
    assert s == x[|p| + 1..] && t == y[|q| + 1..];
  }

  function Dotted(a: nat, b: nat, c: nat, d: nat): string {
    Print(a) + "." + (Print(b) + "." + (Print(c) + "." + Print(d)))
  }

  lemma DottedInjective(a: nat, b: nat, c: nat, d: nat, a': nat, b': nat, c': nat, d': nat)
    requires Dotted(a, b, c, d) == Dotted(a', b', c', d')
    ensures a == a' && b == b' && c == c' && d == d'
  {
    RoundTrip(a); RoundTrip(b); RoundTrip(c); RoundTrip(d);
    RoundTrip(a'); RoundTrip(b'); RoundTrip(c'); RoundTrip(d');
    SplitAtDot(
      Print(a), Print(a'),
      Print(b) + "." + (Print(c) + "." + Print(d)), Print(b') + "." + (Print(c') + "." + Print(d')));
    SplitAtDot(Print(b), Print(b'), Print(c) + "." + Print(d), Print(c') + "." + Print(d'));
    SplitAtDot(Print(c), Print(c'), Print(d), Print(d'));
  }

  function Octets(ip: u32): (nat, nat, nat, nat) {
    (ip / 0x100_0000, ip / 0x1_0000 % 0x100, ip / 0x100 % 0x100, ip % 0x100)
  }

  lemma OctetsInjective(a: u32, b: u32)
    requires Octets(a) == Octets(b)
    ensures a == b
  {
    assert a / 0x100 == b / 0x100 by {
      assert a / 0x1_0000 == b / 0x1_0000 by {
        assert a / 0x1_0000 / 0x100 == a / 0x100_0000 && b / 0x1_0000 / 0x100 == b / 0x100_0000;
      }
      assert a / 0x100 / 0x100 == a / 0x1_0000 && b / 0x100 / 0x100 == b / 0x1_0000;
    }
  }

  /** Dotted-quad form of an address. */
  function Ipv4String(ip: u32): string {
    var o := Octets(ip);
    Dotted(o.0, o.1, o.2, o.3)
  }

  /** Distinct addresses have distinct dotted forms, so an index keyed by the text never mixes two addresses up. */
  lemma Ipv4Injective(a: u32, b: u32)
    requires Ipv4String(a) == Ipv4String(b)
    ensures a == b
  {
    var o, o' := Octets(a), Octets(b);
    DottedInjective(o.0, o.1, o.2, o.3, o'.0, o'.1, o'.2, o'.3);
    OctetsInjective(a, b);
  }
}
