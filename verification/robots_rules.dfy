/**
 robots.txt groups and decisions (RFC 9309 sections 2.2.1 and 2.2.2), from
 src/tarkka/domain/robots_rules.py.
 */
module RobotsRules {
  import opened Wrappers
  import opened PythonText

  datatype Rule = Rule(allow: bool, pattern: string)

  datatype Group = Group(agents: seq<string>, rules: seq<Rule>)

  datatype Decision = Allowed | Denied | InvalidToken | InvalidUri

  // ----- product tokens and separators

  predicate IsTokenChar(c: char) {
    'A' <= c <= 'Z' || 'a' <= c <= 'z' || c == '_' || c == '-'
  }

  predicate IsProductToken(s: string) {
    s != [] && forall i :: 0 <= i < |s| ==> IsTokenChar(s[i])
  }

  /** Index of the first `c`, or the length. */
  function IndexOf(s: string, c: char): (i: nat)
    ensures i <= |s|
    ensures i < |s| ==> s[i] == c
    ensures forall k :: 0 <= k < i ==> s[k] != c
  {
    if s == [] || s[0] == c then 0 else 1 + IndexOf(s[1..], c)
  }

  // ----- canonical spelling of paths and patterns

  predicate IsHex(c: char) {
    '0' <= c <= '9' || 'a' <= c <= 'f' || 'A' <= c <= 'F'
  }

  function HexValue(c: char): (n: nat)
    requires IsHex(c)
    ensures n < 16
  {
    if '0' <= c <= '9' then c as int - '0' as int
    else if 'a' <= c <= 'f' then c as int - 'a' as int + 10
    else c as int - 'A' as int + 10
  }

  function HexDigit(n: nat): (c: char)
    requires n < 16
    ensures IsHex(c) && HexValue(c) == n
  {
    if n < 10 then ('0' as int + n) as char else ('A' as int + n - 10) as char
  }

  predicate IsUnreserved(c: char) {
    'A' <= c <= 'Z' || 'a' <= c <= 'z' || '0' <= c <= '9' || c == '-' || c == '.' || c == '_' || c == '~'
  }

  function EscapeOctet(n: nat): string
    requires n < 256
  {
    ['%', HexDigit(n / 16), HexDigit(n % 16)]
  }

  /** The UTF-8 octets of a character outside ASCII (RFC 3629 section 3). */
  function Utf8(c: char): (octets: seq<nat>)
    requires c as int > 127
    ensures forall i :: 0 <= i < |octets| ==> 128 <= octets[i] < 256
  {
    var n := c as int;
    if n < 0x800 then [0xC0 + n / 64, 0x80 + n % 64]
    else if n < 0x10000 then [0xE0 + n / 4096, 0x80 + n / 64 % 64, 0x80 + n % 64]
    else [0xF0 + n / 262144, 0x80 + n / 4096 % 64, 0x80 + n / 64 % 64, 0x80 + n % 64]
  }

  /** The character classes by their codes: `[A-Za-z_-]`, hexadecimal digits, and section 2.3 of RFC 3986. */
  lemma CharacterClasses(c: char)
    ensures IsTokenChar(c) <==> 65 <= c as int <= 90 || 97 <= c as int <= 122 || c as int in {95, 45}
    ensures IsHex(c) <==> 48 <= c as int <= 57 || 65 <= c as int <= 70 || 97 <= c as int <= 102
    ensures IsUnreserved(c) <==>
            65 <= c as int <= 90 || 97 <= c as int <= 122 || 48 <= c as int <= 57 || c as int in {45, 46, 95, 126}
  {
  }

  /** The octets that encode a code point outside ASCII, by the table of section 3 of RFC 3629. */
  ghost predicate Encodes(octets: seq<nat>, n: nat) {
    && (forall i :: 1 <= i < |octets| ==> 0x80 <= octets[i] <= 0xBF)
    && match |octets|
       case 2 => 0xC2 <= octets[0] <= 0xDF && n == 64 * (octets[0] - 0xC0) + octets[1] - 0x80
       case 3 => 0xE0 <= octets[0] <= 0xEF && 0x800 <= n &&
                 n == 4096 * (octets[0] - 0xE0) + 64 * (octets[1] - 0x80) + octets[2] - 0x80
       case 4 => 0xF0 <= octets[0] <= 0xF4 && 0x10000 <= n &&
                 n == 262144 * (octets[0] - 0xF0) + 4096 * (octets[1] - 0x80) + 64 * (octets[2] - 0x80) +
                      octets[3] - 0x80
       case _ => false
  }

  lemma {:induction false} Utf8Encodes(c: char)
    requires c as int > 127
    ensures Encodes(Utf8(c), c as int)
  {
    var n := c as int;
    if 0x800 <= n < 0x10000 {
      assert n == 64 * (n / 64) + n % 64 && n / 64 == 64 * (n / 4096) + n / 64 % 64;
    } else if n >= 0x10000 {
      assert n < 0x110000;
      assert n == 64 * (n / 64) + n % 64 && n / 64 == 64 * (n / 4096) + n / 64 % 64;
      assert n / 4096 == 64 * (n / 262144) + n / 4096 % 64;
    }
  }

  lemma SameDigits(q: nat, r: nat, s: nat, t: nat)
    requires 64 * q + r == 64 * s + t && r < 64 && t < 64
    ensures q == s && r == t
  {
  }

  /** There is one such encoding. */
  lemma {:induction false} EncodesOnce(a: seq<nat>, b: seq<nat>, n: nat)
    requires Encodes(a, n) && Encodes(b, n)
    ensures a == b
  {
    if |a| == 2 && |b| == 2 {
      SameDigits(a[0] - 0xC0, a[1] - 0x80, b[0] - 0xC0, b[1] - 0x80);
    } else if |a| == 3 && |b| == 3 {
      var q, s := 64 * (a[0] - 0xE0) + a[1] - 0x80, 64 * (b[0] - 0xE0) + b[1] - 0x80;
      SameDigits(q, a[2] - 0x80, s, b[2] - 0x80);
      SameDigits(a[0] - 0xE0, a[1] - 0x80, b[0] - 0xE0, b[1] - 0x80);
    } else if |a| == 4 && |b| == 4 {
      var q, s := 64 * (a[0] - 0xF0) + a[1] - 0x80, 64 * (b[0] - 0xF0) + b[1] - 0x80;
      SameDigits(64 * q + a[2] - 0x80, a[3] - 0x80, 64 * s + b[2] - 0x80, b[3] - 0x80);
      SameDigits(q, a[2] - 0x80, s, b[2] - 0x80);
      SameDigits(a[0] - 0xF0, a[1] - 0x80, b[0] - 0xF0, b[1] - 0x80);
    }
  }

  function EscapeAll(octets: seq<nat>): string
    requires forall i :: 0 <= i < |octets| ==> octets[i] < 256
  {
    if octets == [] then [] else EscapeOctet(octets[0]) + EscapeAll(octets[1..])
  }

  /** `quote(c, safe="")` for a character outside ASCII. */
  function Quote(c: char): string
    requires c as int > 127
  {
    EscapeAll(Utf8(c))
  }

  function DecodePair(high: char, low: char): string
    requires IsHex(high) && IsHex(low)
  {
    var n := 16 * HexValue(high) + HexValue(low);
    if IsUnreserved(n as char) then [n as char] else EscapeOctet(n)
  }

  predicate StartsEscape(s: string) {
    |s| > 2 && s[0] == '%' && IsHex(s[1]) && IsHex(s[2])
  }

  function PlainChar(c: char): string {
    if c as int > 127 then Quote(c) else [c]
  }

  function Canonical(s: string): string
    decreases |s|
  {
    if s == [] then []
    else if StartsEscape(s) then DecodePair(s[1], s[2]) + Canonical(s[3..])
    else PlainChar(s[0]) + Canonical(s[1..])
  }

  lemma CanonicalStep(s: string, index: nat)
    requires index < |s|
    ensures if StartsEscape(s[index..])
            then Canonical(s[index..]) == DecodePair(s[index + 1], s[index + 2]) + Canonical(s[index + 3..])
            else Canonical(s[index..]) == PlainChar(s[index]) + Canonical(s[index + 1..])
  {
    assert s[index..][1..] == s[index + 1..];
    assert StartsEscape(s[index..]) ==> s[index..][3..] == s[index + 3..];
  }

  lemma StarIsPlain()
    ensures PlainChar('*') == "*"
  {
  }

  lemma CanonicalEnd(s: string)
    ensures Canonical(s[|s|..]) == []
  {
  }

  /** The index loop; `preserveWildcard` only shields `*`, which no other branch changes either. */
  method CanonicalizeComponent(value: string, preserveWildcard: bool) returns (result: string)
    ensures result == Canonical(value)
  {
    hide Canonical, PlainChar, DecodePair;
    result := [];
    var index := 0;
    assert value[0..] == value;
    while index < |value|
      invariant index <= |value|
      invariant result + Canonical(value[index..]) == Canonical(value)
    {
      var c := value[index];
      CanonicalStep(value, index);
      if preserveWildcard && c == '*' {
        StarIsPlain();
        result := result + "*";
        index := index + 1;
        continue;
      }
      if c == '%' && index + 2 < |value| {
        var pair := value[index + 1..index + 3];
        if IsHex(pair[0]) && IsHex(pair[1]) {
          result := result + DecodePair(pair[0], pair[1]);
          index := index + 3;
          continue;
        }
      }
      result := result + PlainChar(c);
      index := index + 1;
    }
    CanonicalEnd(value);
  }

  // ----- what a spelling denotes

  /**
   One octet of a component. An unreserved character, an escape and a part of a character outside ASCII denote
   plain octets; any other character of ASCII stands for itself and differs from its own escape.
   */
  datatype Octet = Data(n: nat) | Mark(c: char)
  {
    ghost predicate Proper() {
      if Data? then n < 256 else c as int <= 127 && !IsUnreserved(c) && c != '%'
    }

    /** The one spelling kept for it. */
    ghost function Text(): string {
      if Mark? then [c]
      else if n < 128 && IsUnreserved(n as char) then [n as char]
      else if n < 256 then EscapeOctet(n) else []
    }
  }

  function AllData(octets: seq<nat>): seq<Octet> {
    seq(|octets|, i requires 0 <= i < |octets| => Data(octets[i]))
  }

  function CharOctets(c: char): seq<Octet> {
    if c as int > 127 then AllData(Utf8(c)) else if IsUnreserved(c) then [Data(c as int)] else [Mark(c)]
  }

  /** The octets a component denotes. */
  function Octets(s: string): seq<Octet>
    decreases |s|
  {
    if s == [] then []
    else if StartsEscape(s) then [Data(16 * HexValue(s[1]) + HexValue(s[2]))] + Octets(s[3..])
    else CharOctets(s[0]) + Octets(s[1..])
  }

  ghost function Spelled(octets: seq<Octet>): string {
    if octets == [] then [] else octets[0].Text() + Spelled(octets[1..])
  }

  /** Every `%` starts an escape. */
  ghost predicate WellEscaped(s: string) {
    forall i :: 0 <= i < |s| && s[i] == '%' ==> StartsEscape(s[i..])
  }

  lemma {:induction false} SpelledJoins(a: seq<Octet>, b: seq<Octet>)
    ensures Spelled(a + b) == Spelled(a) + Spelled(b)
  {
    if a == [] {
      assert a + b == b;
    } else {
      assert (a + b)[1..] == a[1..] + b;
      SpelledJoins(a[1..], b);
    }
  }

  lemma {:induction false} DataIsEscaped(octets: seq<nat>)
    requires forall i :: 0 <= i < |octets| ==> 128 <= octets[i] < 256
    ensures Spelled(AllData(octets)) == EscapeAll(octets)
  {
    if octets != [] {
      assert AllData(octets)[1..] == AllData(octets[1..]);
      DataIsEscaped(octets[1..]);
    }
  }

  lemma CharIsSpelled(c: char)
    ensures Spelled(CharOctets(c)) == PlainChar(c)
  {
    if c as int > 127 {
      DataIsEscaped(Utf8(c));
    } else {
      assert CharOctets(c)[1..] == [];
    }
  }

  /** The canonical form spells out what the component denotes, so it depends on nothing else. */
  lemma {:induction false} CanonicalIsSpelled(s: string)
    ensures Canonical(s) == Spelled(Octets(s))
    decreases |s|
  {
    if s != [] {
      if StartsEscape(s) {
        CanonicalIsSpelled(s[3..]);
      } else {
        CharIsSpelled(s[0]);
        SpelledJoins(CharOctets(s[0]), Octets(s[1..]));
        CanonicalIsSpelled(s[1..]);
      }
    }
  }

  lemma {:induction false} SpelledStep(o: Octet, rest: string)
    requires o.Proper()
    ensures Octets(o.Text() + rest) == [o] + Octets(rest)
  {
    var s := o.Text() + rest;
    if |o.Text()| == 1 {
      assert s[0] == o.Text()[0] && s[1..] == rest;
      assert CharOctets(s[0]) == [o];
    } else {
      assert s[0] == '%' && s[1] == HexDigit(o.n / 16) && s[2] == HexDigit(o.n % 16) && s[3..] == rest;
    }
  }

  lemma {:induction false} SpelledReadsBack(octets: seq<Octet>)
    requires forall i :: 0 <= i < |octets| ==> octets[i].Proper()
    ensures Octets(Spelled(octets)) == octets
  {
    if octets != [] {
      SpelledStep(octets[0], Spelled(octets[1..]));
      SpelledReadsBack(octets[1..]);
    }
  }

  lemma WellEscapedRest(s: string, k: nat)
    requires WellEscaped(s) && k <= |s|
    ensures WellEscaped(s[k..])
  {
    forall i | 0 <= i < |s| - k && s[k..][i] == '%' ensures StartsEscape(s[k..][i..]) {
      assert s[k..][i..] == s[k + i..];
    }
  }

  lemma {:induction false} OctetsAreProper(s: string)
    requires WellEscaped(s)
    ensures forall i :: 0 <= i < |Octets(s)| ==> Octets(s)[i].Proper()
    decreases |s|
  {
    if s != [] {
      assert s[0..] == s;
      if StartsEscape(s) {
        WellEscapedRest(s, 3);
        OctetsAreProper(s[3..]);
      } else {
        WellEscapedRest(s, 1);
        OctetsAreProper(s[1..]);
      }
    }
  }

  /**
   Spellings that denote the same octets canonicalize alike: an unreserved character and its escape, either
   case of hexadecimal, a character outside ASCII and its UTF-8 escapes (RFC 9309 section 2.2.2). Well-escaped
   components that denote different ones are told apart, such as `/` and `%2F`.
   */
  lemma {:induction false} SpellingIsIrrelevant(a: string, b: string)
    ensures Octets(a) == Octets(b) ==> Canonical(a) == Canonical(b)
    ensures WellEscaped(a) && WellEscaped(b) && Canonical(a) == Canonical(b) ==> Octets(a) == Octets(b)
  {
    CanonicalIsSpelled(a);
    CanonicalIsSpelled(b);
    if WellEscaped(a) && WellEscaped(b) {
      OctetsAreProper(a);
      OctetsAreProper(b);
      SpelledReadsBack(Octets(a));
      SpelledReadsBack(Octets(b));
    }
  }

  /** An ASCII character and, if an escape starts there, an upper-case one of an octet that is kept escaped. */
  predicate CanonicalAt(t: string, i: nat)
    requires i < |t|
  {
    && t[i] as int <= 127
    && (StartsEscape(t[i..]) ==> DecodePair(t[i + 1], t[i + 2]) == ['%', t[i + 1], t[i + 2]])
  }

  predicate IsCanonical(t: string) {
    forall i :: 0 <= i < |t| ==> CanonicalAt(t, i)
  }

  /** The length of the first character or escape of a text, and what it becomes. */
  function UnitLength(t: string): nat
    requires t != []
  {
    if StartsEscape(t) then 3 else 1
  }

  function UnitCanonical(t: string): string
    requires t != []
  {
    if StartsEscape(t) then DecodePair(t[1], t[2]) else PlainChar(t[0])
  }

  lemma {:induction false} UnitFixed(t: string)
    requires t != []
    ensures UnitCanonical(t) <= t <==> CanonicalAt(t, 0)
    ensures UnitCanonical(t) == t[..UnitLength(t)] <==> CanonicalAt(t, 0)
  {
    assert t[0..] == t;
    if StartsEscape(t) {
      hide Utf8;
      assert t[..3] == ['%', t[1], t[2]];
    } else if t[0] as int > 127 {
      assert Quote(t[0]) == EscapeOctet(Utf8(t[0])[0]) + EscapeAll(Utf8(t[0])[1..]);
      assert Quote(t[0])[0] == '%';
    } else {
      hide Utf8;
    }
  }

  lemma {:induction false} CanonicalLater(t: string, k: nat, i: nat)
    requires k + i < |t|
    ensures CanonicalAt(t, k + i) <==> CanonicalAt(t[k..], i)
  {
    hide DecodePair;
    assert t[k..][i..] == t[k + i..];
  }

  lemma {:induction false} InsideEscape(t: string)
    requires StartsEscape(t)
    ensures CanonicalAt(t, 1) && CanonicalAt(t, 2)
  {
    hide DecodePair;
    assert t[1..][0] == t[1] && t[2..][0] == t[2];
  }

  lemma {:induction false} CanonicalUnits(t: string)
    requires t != []
    ensures IsCanonical(t) <==> CanonicalAt(t, 0) && IsCanonical(t[UnitLength(t)..])
  {
    hide CanonicalAt;
    var k := UnitLength(t);
    forall i: nat | i < |t| - k ensures CanonicalAt(t, k + i) <==> CanonicalAt(t[k..], i) {
      CanonicalLater(t, k, i);
    }
    if StartsEscape(t) {
      InsideEscape(t);
    }
    if CanonicalAt(t, 0) && IsCanonical(t[k..]) {
      forall i: nat | i < |t| ensures CanonicalAt(t, i) {
        if i >= k {
          assert CanonicalAt(t[k..], i - k) && CanonicalAt(t, k + (i - k));
        }
      }
    }
    if IsCanonical(t) {
      forall i: nat | i < |t| - k ensures CanonicalAt(t[k..], i) {
        assert CanonicalAt(t, k + i);
      }
    }
  }

  /** Main result: the texts that canonicalization leaves alone are exactly the canonical ones. */
  lemma {:induction false} FixedIffCanonical(t: string)
    ensures Canonical(t) == t <==> IsCanonical(t)
    decreases |t|
  {
    hide IsCanonical;
    if t != [] {
      var k := UnitLength(t);
      assert Canonical(t) == UnitCanonical(t) + Canonical(t[k..]);
      hide Canonical, UnitCanonical;
      UnitFixed(t);
      CanonicalUnits(t);
      FixedIffCanonical(t[k..]);
      assert t == t[..k] + t[k..];
      if Canonical(t) == t {
        assert UnitCanonical(t) <= t;
      }
    } else {
      NothingIsCanonical();
    }
  }

  lemma NothingIsCanonical()
    ensures IsCanonical([])
  {
  }

  // ----- canonicalizing twice

  predicate IsHexData(o: Octet) {
    o.Data? && o.n < 128 && IsHex(o.n as char)
  }

  /** A stray `%` at index `i` comes to stand before two digits of an escape that would be respelled. */
  predicate Forms(octets: seq<Octet>, i: nat) {
    && i + 2 < |octets|
    && octets[i] == Mark('%') && IsHexData(octets[i + 1]) && IsHexData(octets[i + 2])
    && var high, low := octets[i + 1].n as char, octets[i + 2].n as char;
       DecodePair(high, low) != ['%', high, low]
  }

  predicate Steady(octets: seq<Octet>) {
    forall i :: 0 <= i < |octets| ==> !Forms(octets, i)
  }

  /** What a component can denote: a proper octet, or a stray `%`. */
  ghost predicate Loose(o: Octet) {
    o.Proper() || o == Mark('%')
  }

  lemma {:induction false} OctetsAreLoose(s: string)
    ensures forall i :: 0 <= i < |Octets(s)| ==> Loose(Octets(s)[i])
    decreases |s|
  {
    if s != [] {
      if StartsEscape(s) {
        OctetsAreLoose(s[3..]);
      } else {
        OctetsAreLoose(s[1..]);
      }
    }
  }

  lemma SteadyStep(octets: seq<Octet>)
    requires octets != []
    ensures Steady(octets) <==> !Forms(octets, 0) && Steady(octets[1..])
  {
    hide DecodePair;
    var rest := octets[1..];
    forall i: nat | i < |rest| ensures Forms(rest, i) <==> Forms(octets, i + 1) {
    }
    if !Forms(octets, 0) && Steady(rest) {
      forall i: nat | i < |octets| ensures !Forms(octets, i) {
        if i > 0 {
          assert !Forms(rest, i - 1);
        }
      }
    }
    if Steady(octets) {
      forall i: nat | i < |rest| ensures !Forms(rest, i) {
        assert !Forms(octets, i + 1);
      }
    }
  }

  lemma {:induction false} CanonicalStepOne(t: string)
    requires t != []
    ensures IsCanonical(t) <==> CanonicalAt(t, 0) && IsCanonical(t[1..])
  {
    hide CanonicalAt;
    forall i: nat | i < |t| - 1 ensures CanonicalAt(t, 1 + i) <==> CanonicalAt(t[1..], i) {
      CanonicalLater(t, 1, i);
    }
    if CanonicalAt(t, 0) && IsCanonical(t[1..]) {
      forall i: nat | i < |t| ensures CanonicalAt(t, i) {
        if i > 0 {
          assert CanonicalAt(t[1..], i - 1) && CanonicalAt(t, 1 + (i - 1));
        }
      }
    }
    if IsCanonical(t) {
      forall i: nat | i < |t| - 1 ensures CanonicalAt(t[1..], i) {
        assert CanonicalAt(t, 1 + i);
      }
    }
  }

  /** Only hexadecimal data is spelled with a hexadecimal digit in front. */
  lemma {:induction false} HexInFront(octets: seq<Octet>)
    requires forall i :: 0 <= i < |octets| ==> Loose(octets[i])
    ensures var t := Spelled(octets);
            if octets != [] && IsHexData(octets[0]) then t == [octets[0].n as char] + Spelled(octets[1..])
            else t == [] || !IsHex(t[0])
  {
    if octets != [] {
      assert Loose(octets[0]);
      assert IsHexData(octets[0]) ==> octets[0].Text() == [octets[0].n as char];
    }
  }

  /** A proper octet is spelled canonically, whatever follows. */
  lemma {:induction false} ProperIsCanonical(o: Octet, rest: string)
    requires o.Proper()
    ensures IsCanonical(o.Text() + rest) <==> IsCanonical(rest)
  {
    var t := o.Text() + rest;
    if |o.Text()| == 1 {
      assert t[0..] == t && t[1..] == rest;
      CanonicalStepOne(t);
    } else {
      var high, low := HexDigit(o.n / 16), HexDigit(o.n % 16);
      assert t[0..] == t && t[0] == '%' && t[1] == high && t[2] == low && t[3..] == rest;
      assert DecodePair(high, low) == EscapeOctet(o.n);
      CanonicalUnits(t);
    }
  }

  lemma {:induction false} StrayStartsEscape(rest: seq<Octet>)
    requires forall i :: 0 <= i < |rest| ==> Loose(rest[i])
    ensures var t := ['%'] + Spelled(rest);
            && (StartsEscape(t) <==> |rest| >= 2 && IsHexData(rest[0]) && IsHexData(rest[1]))
            && (StartsEscape(t) ==> t[1] == rest[0].n as char && t[2] == rest[1].n as char)
  {
    hide Spelled, IsHex, Loose;
    var t := ['%'] + Spelled(rest);
    assert t[1..] == Spelled(rest);
    HexInFront(rest);
    if rest != [] && IsHexData(rest[0]) {
      HexInFront(rest[1..]);
      assert t[2..] == Spelled(rest[1..]);
    }
  }

  /** A stray `%` is canonical unless it comes to form an escape. */
  lemma {:induction false} StrayIsCanonical(octets: seq<Octet>)
    requires octets != [] && octets[0] == Mark('%') && forall i :: 0 <= i < |octets| ==> Loose(octets[i])
    ensures CanonicalAt(Spelled(octets), 0) <==> !Forms(octets, 0)
  {
    hide DecodePair, IsHexData, Loose, StartsEscape;
    var t := Spelled(octets);
    assert t[0..] == t && t == ['%'] + Spelled(octets[1..]);
    hide Spelled;
    StrayStartsEscape(octets[1..]);
    assert octets[1..] == [] || octets[1..][0] == octets[1];
    assert |octets| < 3 || octets[1..][1] == octets[2];
  }

  lemma {:induction false} SpelledIsCanonical(octets: seq<Octet>)
    requires forall i :: 0 <= i < |octets| ==> Loose(octets[i])
    ensures IsCanonical(Spelled(octets)) <==> Steady(octets)
  {
    hide IsCanonical, Steady, DecodePair, CanonicalAt;
    if octets == [] {
      NothingIsCanonical();
      NothingIsSteady();
    } else {
      var o, rest := octets[0], octets[1..];
      SteadyStep(octets);
      SpelledIsCanonical(rest);
      if o.Proper() {
        ProperIsCanonical(o, Spelled(rest));
      } else {
        assert Loose(o);
        assert Spelled(octets)[1..] == Spelled(rest);
        CanonicalStepOne(Spelled(octets));
        StrayIsCanonical(octets);
      }
    }
  }

  lemma NothingIsSteady()
    ensures Steady([])
  {
  }

  /**
   Main result: canonicalizing again changes nothing exactly if no stray `%` of the component comes to stand before
   two digits, bare or escaped, of an escape that would be respelled.
   */
  lemma {:induction false} StableIffSteady(s: string)
    ensures Canonical(Canonical(s)) == Canonical(s) <==> Steady(Octets(s))
  {
    hide IsCanonical, Steady;
    CanonicalIsSpelled(s);
    OctetsAreLoose(s);
    SpelledIsCanonical(Octets(s));
    FixedIffCanonical(Canonical(s));
  }

  /** So it is for a well-escaped component, which also keeps what it denotes. */
  lemma {:induction false} CanonicalIsStable(s: string)
    requires WellEscaped(s)
    ensures Octets(Canonical(s)) == Octets(s) && Canonical(Canonical(s)) == Canonical(s) && IsCanonical(Canonical(s))
  {
    CanonicalIsSpelled(s);
    OctetsAreProper(s);
    SpelledReadsBack(Octets(s));
    assert Steady(Octets(s)) by {
      hide DecodePair;
      assert forall i :: 0 <= i < |Octets(s)| ==> Octets(s)[i].Proper();
    }
    StableIffSteady(s);
    FixedIffCanonical(Canonical(s));
  }

  /** And it is not for this one, where a stray `%` comes to stand before `4` and `1`. */
  lemma {:induction false} StrayPercentIsUnstable()
    ensures !Steady(Octets("%%341")) && Canonical(Canonical("%%341")) != Canonical("%%341")
    ensures Canonical("%%341") == "%41" && Canonical("%41") == "A"
  {
    var s := "%%341";
    assert s[1..] == "%341";
    assert "%341"[3..] == "1";
    assert "1"[1..] == "" && "%41"[3..] == "";
    assert Octets("1") == [Data('1' as int)];
    assert Octets("%341") == [Data('4' as int)] + Octets("1");
    assert Octets(s) == [Mark('%'), Data('4' as int), Data('1' as int)];
    assert Forms(Octets(s), 0);
    StableIffSteady(s);
  }

  predicate HoldsInvalid(body: string) {
    exists i :: 0 <= i < |body| && (body[i] as int < 0x21 || body[i] == '#')
  }

  function CanonicalRulePattern(value: string): Option<string> {
    var anchored := value != [] && value[|value| - 1] == '$';
    var body := if anchored then value[..|value| - 1] else value;
    if body == [] || HoldsInvalid(body) then None
    else Some(Canonical(body) + if anchored then "$" else "")
  }

  function CanonicalTarget(path: string, query: string): string {
    Canonical(path + if query != [] then "?" + query else "")
  }

  // ----- one line

  /** What a line contributes. A rule line with an empty or unusable pattern still closes the agent list. */
  datatype Line = Agent(name: string) | RuleLine(rule: Option<Rule>) | Other

  function ReadLine(raw: string): Line {
    var line := Strip(raw[..IndexOf(raw, '#')]);
    var colon := IndexOf(line, ':');
    if colon == |line| then Other
    else
      var key := Lower(Strip(line[..colon]));
      var value := Strip(line[colon + 1..]);
      if key == "user-agent" then
        if value == "*" || IsProductToken(value) then Agent(Lower(value)) else Other
      else if key == "allow" || key == "disallow" then
        RuleLine(if value == [] then None
                 else match CanonicalRulePattern(value)
                      case None => None
                      case Some(pattern) => Some(Rule(key == "allow", pattern)))
      else Other
  }

  function ReadLines(raw: seq<string>): (lines: seq<Line>)
    ensures |lines| == |raw|
  {
    seq(|raw|, i requires 0 <= i < |raw| => ReadLine(raw[i]))
  }

  // ----- the grouping loop

  function Closed(groups: seq<Group>, agents: seq<string>, rules: seq<Rule>): seq<Group> {
    if agents == [] then groups else groups + [Group(agents, rules)]
  }

  /** The loop over the lines, as recursion over the same variables. */
  function GroupFrom(lines: seq<Line>, groups: seq<Group>, agents: seq<string>, rules: seq<Rule>,
                     started: bool): seq<Group> {
    if lines == [] then Closed(groups, agents, rules)
    else
      match lines[0]
      case Agent(name) =>
        if started then GroupFrom(lines[1..], Closed(groups, agents, rules), [name], [], false)
        else GroupFrom(lines[1..], groups, agents + [name], rules, false)
      case RuleLine(rule) =>
        if agents == [] then GroupFrom(lines[1..], groups, agents, rules, started)
        else GroupFrom(lines[1..], groups, agents, if rule.Some? then rules + [rule.value] else rules, true)
      case Other => GroupFrom(lines[1..], groups, agents, rules, started)
  }

  function Grouped(raw: seq<string>): seq<Group> {
    GroupFrom(ReadLines(raw), [], [], [], false)
  }

  /** `RobotsRules.parse` over the lines of the content. */
  method Parse(raw: seq<string>) returns (groups: seq<Group>)
    ensures groups == Grouped(raw)
  {
    hide ReadLine;
    groups := [];
    var agents: seq<string>, rules: seq<Rule>, started := [], [], false;
    ghost var lines := ReadLines(raw);
    for n := 0 to |raw|
      invariant GroupFrom(lines[n..], groups, agents, rules, started) == Grouped(raw)
    {
      assert lines[n..][0] == lines[n] == ReadLine(raw[n]) && lines[n..][1..] == lines[n + 1..];
      match ReadLine(raw[n])
      case Agent(name) =>
        if started {
          if agents != [] {
            groups := groups + [Group(agents, rules)];
          }
          agents, rules, started := [], [], false;
        }
        agents := agents + [name];
        assert [] + [name] == [name];
      case RuleLine(rule) =>
        if agents != [] {
          started := true;
          if rule.Some? {
            rules := rules + [rule.value];
          }
        }
      case Other =>
    }
    if agents != [] {
      groups := groups + [Group(agents, rules)];
    }
  }

  // ----- a direct reading of the lines

  ghost predicate Between(lines: seq<Line>, i: int, j: int)
    requires 0 <= i && j <= |lines|
  {
    exists k, l :: i < k < l < j && lines[k].RuleLine? && lines[l].Agent?
  }

  /** Agent line `i` is in force at line `j`: no agent line after a rule line stands between. */
  ghost predicate InForce(lines: seq<Line>, i: int, j: int)
    requires j <= |lines|
  {
    0 <= i < j && lines[i].Agent? && !Between(lines, i, j)
  }

  /** Line `j` states rule `r` for product token `name`. */
  ghost predicate StatedAt(lines: seq<Line>, name: string, r: Rule, i: int, j: int) {
    0 <= i < j < |lines| && lines[j] == RuleLine(Some(r)) && InForce(lines, i, j) && lines[i] == Agent(name)
  }

  ghost predicate StatedFor(lines: seq<Line>, name: string, r: Rule) {
    exists i, j :: StatedAt(lines, name, r, i, j)
  }

  ghost predicate GroupedFor(groups: seq<Group>, name: string, r: Rule) {
    exists g :: g in groups && name in g.agents && r in g.rules
  }

  ghost predicate Names(groups: seq<Group>, name: string) {
    exists g :: g in groups && name in g.agents
  }

  // ----- reading one more line

  lemma ForceBefore(lines: seq<Line>, x: Line, i: int, j: int)
    requires j <= |lines|
    ensures InForce(lines + [x], i, j) <==> InForce(lines, i, j)
  {
    if i >= 0 {
      assert forall k :: 0 <= k < j ==> (lines + [x])[k] == lines[k];
      assert Between(lines + [x], i, j) <==> Between(lines, i, j);
    }
  }

  ghost predicate RuleSince(lines: seq<Line>, i: int) {
    exists k :: 0 <= i < k < |lines| && lines[k].RuleLine?
  }

  lemma ForceNow(lines: seq<Line>, x: Line, i: int)
    ensures InForce(lines + [x], i, |lines| + 1) <==>
            if x.Agent? then i == |lines| || (InForce(lines, i, |lines|) && !RuleSince(lines, i))
            else InForce(lines, i, |lines|)
  {
    var all, n := lines + [x], |lines|;
    assert forall k :: 0 <= k < n ==> all[k] == lines[k];
    if 0 <= i < n {
      if Between(lines, i, n) {
        assert Between(all, i, n + 1);
      }
      if x.Agent? && RuleSince(lines, i) {
        var k :| i < k < n && lines[k].RuleLine?;
        assert all[k].RuleLine? && all[n].Agent?;
        assert Between(all, i, n + 1);
      }
      if Between(all, i, n + 1) {
        var k, l :| i < k < l < n + 1 && all[k].RuleLine? && all[l].Agent?;
        if l < n {
          assert lines[k].RuleLine? && lines[l].Agent?;
        } else {
          assert lines[k].RuleLine?;
        }
      }
    } else if i == n {
      assert !Between(all, n, n + 1);
    }
  }

  /** Some agent line naming `name` is in force after the last line. */
  ghost predicate NamedNow(lines: seq<Line>, name: string) {
    exists i :: InForce(lines, i, |lines|) && lines[i] == Agent(name)
  }

  lemma StatedNow(lines: seq<Line>, x: Line, name: string, r: Rule)
    ensures StatedFor(lines + [x], name, r) <==>
            StatedFor(lines, name, r) || (x == RuleLine(Some(r)) && NamedNow(lines, name))
  {
    var all, n := lines + [x], |lines|;
    if StatedFor(all, name, r) {
      var i, j :| StatedAt(all, name, r, i, j);
      ForceBefore(lines, x, i, j);
      if j < n {
        assert StatedAt(lines, name, r, i, j);
      } else {
        assert lines[i] == Agent(name);
      }
    }
    if StatedFor(lines, name, r) {
      var i, j :| StatedAt(lines, name, r, i, j);
      ForceBefore(lines, x, i, j);
      assert StatedAt(all, name, r, i, j);
    }
    if x == RuleLine(Some(r)) && NamedNow(lines, name) {
      var i :| InForce(lines, i, n) && lines[i] == Agent(name);
      ForceBefore(lines, x, i, n);
      assert StatedAt(all, name, r, i, n);
    }
  }

  lemma NamedNext(lines: seq<Line>, x: Line, name: string)
    requires !x.Agent?
    ensures NamedNow(lines + [x], name) <==> NamedNow(lines, name)
  {
    var all := lines + [x];
    if NamedNow(lines, name) {
      var i :| InForce(lines, i, |lines|) && lines[i] == Agent(name);
      ForceNow(lines, x, i);
      assert all[i] == Agent(name);
    }
    if NamedNow(all, name) {
      var i :| InForce(all, i, |all|) && all[i] == Agent(name);
      ForceNow(lines, x, i);
    }
  }

  lemma NamedAt(lines: seq<Line>, name: string) returns (i: int)
    requires NamedNow(lines, name)
    ensures 0 <= i < |lines| && InForce(lines, i, |lines|) && lines[i] == Agent(name)
  {
    i :| InForce(lines, i, |lines|) && lines[i] == Agent(name);
  }

  /** After an agent line, the names in force are the line's own and those with no rule line since. */
  lemma NamedAfterAgent(lines: seq<Line>, x: Line, name: string, started: bool)
    requires x.Agent? && StartedIs(lines, started)
    ensures NamedNow(lines + [x], name) <==> x.name == name || (!started && NamedNow(lines, name))
  {
    hide InForce;
    var all := lines + [x];
    if x.name == name {
      ForceNow(lines, x, |lines|);
      assert all[|lines|] == Agent(name);
      assert NamedNow(all, name);
    }
    if !started && NamedNow(lines, name) {
      var i := NamedAt(lines, name);
      ForceNow(lines, x, i);
      assert all[i] == Agent(name);
    }
    if NamedNow(all, name) {
      var i := NamedAt(all, name);
      ForceNow(lines, x, i);
    }
  }

  lemma InForceIsAgent(lines: seq<Line>, i: int)
    requires InForce(lines, i, |lines|)
    ensures 0 <= i < |lines| && lines[i].Agent?
  {
  }

  /** `rules_started`: a rule line has been read since the agent lines in force. */
  ghost predicate StartedIs(lines: seq<Line>, started: bool) {
    forall i :: InForce(lines, i, |lines|) ==> (RuleSince(lines, i) <==> started)
  }

  lemma StartedNext(lines: seq<Line>, x: Line, started: bool)
    requires StartedIs(lines, started)
    ensures StartedIs(lines + [x], if x.Agent? then false else if x.RuleLine? then true else started)
  {
    hide InForce;
    var all, n := lines + [x], |lines|;
    forall i | InForce(all, i, |all|)
      ensures RuleSince(all, i) <==> if x.Agent? then false else if x.RuleLine? then true else started
    {
      ForceNow(lines, x, i);
      InForceIsAgent(all, i);
      if i < n {
        if RuleSince(lines, i) {
          var k :| 0 <= i < k < n && lines[k].RuleLine?;
          assert all[k].RuleLine?;
        }
        if RuleSince(all, i) {
          var k :| 0 <= i < k < n + 1 && all[k].RuleLine?;
          assert k < n ==> lines[k].RuleLine?;
        }
        if x.RuleLine? {
          InForceIsAgent(lines, i);
          assert all[n].RuleLine?;
        }
      }
    }
  }

  lemma ClosedGrouped(groups: seq<Group>, agents: seq<string>, rules: seq<Rule>, name: string, r: Rule)
    ensures GroupedFor(Closed(groups, agents, rules), name, r) <==>
            GroupedFor(groups, name, r) || (name in agents && r in rules)
  {
    if name in agents {
      assert Group(agents, rules) in Closed(groups, agents, rules);
    }
    forall g | g in groups ensures g in Closed(groups, agents, rules) {}
  }

  lemma ClosedNames(groups: seq<Group>, agents: seq<string>, rules: seq<Rule>, name: string)
    ensures Names(Closed(groups, agents, rules), name) <==> Names(groups, name) || name in agents
  {
    if name in agents {
      assert Group(agents, rules) in Closed(groups, agents, rules);
    }
    forall g | g in groups ensures g in Closed(groups, agents, rules) {}
  }

  // ----- the loop's invariant

  /** The groups finished so far and the open one say what the lines say. */
  ghost predicate Faithful(lines: seq<Line>, groups: seq<Group>, agents: seq<string>, rules: seq<Rule>) {
    && (forall name, r :: StatedFor(lines, name, r) <==> GroupedFor(groups, name, r) || (name in agents && r in rules))
    && (forall name :: Agent(name) in lines <==> Names(groups, name) || name in agents)
  }

  ghost predicate Reads(lines: seq<Line>, groups: seq<Group>, agents: seq<string>, rules: seq<Rule>, started: bool) {
    && Faithful(lines, groups, agents, rules)
    && (forall name :: name in agents <==> NamedNow(lines, name))
    && StartedIs(lines, started)
    && (agents == [] ==> !started)
    && (!started ==> rules == [])
  }

  lemma ReadsNothing()
    ensures Reads([], [], [], [], false)
  {
  }

  lemma ReadsAgent(lines: seq<Line>, groups: seq<Group>, agents: seq<string>, rules: seq<Rule>, started: bool,
                   name: string)
    requires Reads(lines, groups, agents, rules, started)
    ensures if started then Reads(lines + [Agent(name)], Closed(groups, agents, rules), [name], [], false)
            else Reads(lines + [Agent(name)], groups, agents + [name], rules, false)
  {
    hide InForce, StatedFor, GroupedFor, Names, Closed, NamedNow, StartedIs;
    var x := Agent(name);
    StartedNext(lines, x, started);
    forall n, r ensures StatedFor(lines + [x], n, r) <==> StatedFor(lines, n, r) {
      StatedNow(lines, x, n, r);
    }
    forall n ensures NamedNow(lines + [x], n) <==> n == name || (!started && NamedNow(lines, n)) {
      NamedAfterAgent(lines, x, n, started);
    }
    forall n, r ensures GroupedFor(Closed(groups, agents, rules), n, r) <==> StatedFor(lines, n, r) {
      ClosedGrouped(groups, agents, rules, n, r);
    }
    forall n ensures Names(Closed(groups, agents, rules), n) <==> Agent(n) in lines {
      ClosedNames(groups, agents, rules, n);
    }
  }

  lemma ReadsRule(lines: seq<Line>, groups: seq<Group>, agents: seq<string>, rules: seq<Rule>, started: bool,
                  rule: Option<Rule>)
    requires Reads(lines, groups, agents, rules, started)
    ensures if agents == [] then Reads(lines + [RuleLine(rule)], groups, agents, rules, started)
            else Reads(lines + [RuleLine(rule)], groups, agents, if rule.Some? then rules + [rule.value]
                       else rules, true)
  {
    hide InForce, StatedFor, GroupedFor, Names, NamedNow;
    var x := RuleLine(rule);
    forall n, r
      ensures StatedFor(lines + [x], n, r) <==> StatedFor(lines, n, r) || (rule == Some(r) && NamedNow(lines, n))
    {
      StatedNow(lines, x, n, r);
    }
    forall n ensures NamedNow(lines + [x], n) <==> NamedNow(lines, n) {
      NamedNext(lines, x, n);
    }
    StartedNext(lines, x, started);
    if agents == [] {
      NobodyInForce(lines + [x]);
    }
  }

  lemma NobodyInForce(lines: seq<Line>)
    requires forall name :: !NamedNow(lines, name)
    ensures forall started :: StartedIs(lines, started)
  {
    forall i ensures !InForce(lines, i, |lines|) {
      if InForce(lines, i, |lines|) {
        assert lines[i] == Agent(lines[i].name);
        assert NamedNow(lines, lines[i].name);
      }
    }
  }

  lemma ReadsOther(lines: seq<Line>, groups: seq<Group>, agents: seq<string>, rules: seq<Rule>, started: bool)
    requires Reads(lines, groups, agents, rules, started)
    ensures Reads(lines + [Other], groups, agents, rules, started)
  {
    hide InForce, StatedFor, GroupedFor, Names, NamedNow, StartedIs;
    forall n, r ensures StatedFor(lines + [Other], n, r) <==> StatedFor(lines, n, r) {
      StatedNow(lines, Other, n, r);
    }
    forall n ensures NamedNow(lines + [Other], n) <==> NamedNow(lines, n) {
      NamedNext(lines, Other, n);
    }
    StartedNext(lines, Other, started);
  }

  lemma {:induction false} GroupFromReads(before: seq<Line>, lines: seq<Line>, groups: seq<Group>, agents: seq<string>,
                                          rules: seq<Rule>, started: bool)
    requires Reads(before, groups, agents, rules, started)
    ensures SaysTheSame(before + lines, GroupFrom(lines, groups, agents, rules, started))
    decreases |lines|
  {
    hide Reads, SaysTheSame, Closed;
    if lines == [] {
      assert before + lines == before;
      ClosedSays(before, groups, agents, rules, started);
    } else {
      var x, rest := lines[0], lines[1..];
      assert before + lines == before + [x] + rest;
      match x
      case Agent(name) =>
        ReadsAgent(before, groups, agents, rules, started, name);
        if started {
          GroupFromReads(before + [x], rest, Closed(groups, agents, rules), [name], [], false);
        } else {
          GroupFromReads(before + [x], rest, groups, agents + [name], rules, false);
        }
      case RuleLine(rule) =>
        ReadsRule(before, groups, agents, rules, started, rule);
        if agents == [] {
          GroupFromReads(before + [x], rest, groups, agents, rules, started);
        } else {
          GroupFromReads(before + [x], rest, groups, agents, if rule.Some? then rules + [rule.value] else rules, true);
        }
      case Other =>
        ReadsOther(before, groups, agents, rules, started);
        GroupFromReads(before + [x], rest, groups, agents, rules, started);
    }
  }

  /** Groups that give each product token exactly the rules the lines state for it. */
  ghost predicate SaysTheSame(lines: seq<Line>, groups: seq<Group>) {
    && (forall name, r :: GroupedFor(groups, name, r) <==> StatedFor(lines, name, r))
    && (forall name :: Names(groups, name) <==> Agent(name) in lines)
  }

  lemma ClosedSays(lines: seq<Line>, groups: seq<Group>, agents: seq<string>, rules: seq<Rule>, started: bool)
    requires Reads(lines, groups, agents, rules, started)
    ensures SaysTheSame(lines, Closed(groups, agents, rules))
  {
    hide StatedFor, GroupedFor, Names, NamedNow, Closed, StartedIs;
    forall name, r ensures GroupedFor(Closed(groups, agents, rules), name, r) <==> StatedFor(lines, name, r) {
      ClosedGrouped(groups, agents, rules, name, r);
    }
    forall name ensures Names(Closed(groups, agents, rules), name) <==> Agent(name) in lines {
      ClosedNames(groups, agents, rules, name);
    }
  }

  /** Main result on grouping: the parsed groups are a faithful reading of the lines. */
  lemma GroupingIsFaithful(raw: seq<string>)
    ensures SaysTheSame(ReadLines(raw), Grouped(raw))
  {
    ReadsNothing();
    var lines := ReadLines(raw);
    GroupFromReads([], lines, [], [], [], false);
    assert [] + lines == lines;
  }
}
