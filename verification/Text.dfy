/** The text operations the service relies on: trimming and simple splitting. */
module Text {

  /** Unicode white space. */
  predicate IsSpace(c: char) {
    var n := c as int;
    || 9 <= n <= 13 || n == 0x20 || n == 0x85 || n == 0xA0 || n == 0x1680
    || 0x2000 <= n <= 0x200A || n == 0x2028 || n == 0x2029 || n == 0x202F || n == 0x205F || n == 0x3000
  }

  function TrimStart(s: string): string {
    if s != "" && IsSpace(s[0]) then TrimStart(s[1..]) else s
  }

  function TrimEnd(s: string): string {
    if s != "" && IsSpace(s[|s| - 1]) then TrimEnd(s[..|s| - 1]) else s
  }

  function Trim(s: string): string {
    TrimEnd(TrimStart(s))
  }

  predicate IsTrimmed(s: string) {
    s == "" || (!IsSpace(s[0]) && !IsSpace(s[|s| - 1]))
  }

  lemma {:induction false} TrimEndKeepsStart(s: string)
    requires s == "" || !IsSpace(s[0])
    ensures IsTrimmed(TrimEnd(s))
    ensures s != "" ==> TrimEnd(s) != "" && TrimEnd(s)[0] == s[0]
  {
    if s != "" && IsSpace(s[|s| - 1]) {
      TrimEndKeepsStart(s[..|s| - 1]);
    }
  }

  lemma {:induction false} TrimStartIsClear(s: string)
    ensures TrimStart(s) == "" || !IsSpace(TrimStart(s)[0])
  {
    if s != "" && IsSpace(s[0]) {
      TrimStartIsClear(s[1..]);
    }
  }

  /** A trimmed text has no white space at either end, and trimming it again changes nothing. */
  lemma TrimIsTrimmed(s: string)
    ensures IsTrimmed(Trim(s)) && Trim(Trim(s)) == Trim(s)
  {
    TrimStartIsClear(s);
    TrimEndKeepsStart(TrimStart(s));
  }

  lemma TrimmedStays(s: string)
    requires IsTrimmed(s)
    ensures Trim(s) == s
  {
  }

  predicate AllSpace(s: string) { forall c :: c in s ==> IsSpace(c) }

  lemma {:induction false} TrimStartCuts(s: string)
    ensures |TrimStart(s)| <= |s| && TrimStart(s) == s[|s| - |TrimStart(s)|..] && AllSpace(s[..|s| - |TrimStart(s)|])
  {
    if s != "" && IsSpace(s[0]) {
      TrimStartCuts(s[1..]);
      assert s == [s[0]] + s[1..];
    }
  }

  lemma {:induction false} TrimEndCuts(s: string)
    ensures |TrimEnd(s)| <= |s| && TrimEnd(s) == s[..|TrimEnd(s)|] && AllSpace(s[|TrimEnd(s)|..])
  {
    if s != "" && IsSpace(s[|s| - 1]) {
      var front := s[..|s| - 1];
      TrimEndCuts(front);
      assert s == front + [s[|s| - 1]];
    }
  }

  /** The text is a trimmed one with nothing but white space around it. */
  predicate Around(s: string, core: string) {
    IsTrimmed(core) && exists i :: 0 <= i <= |s| - |core| && s[i..i + |core|] == core && AllSpace(s[..i]) && AllSpace(s[i + |core|..])
  }

  lemma CoreIsAtOnePlace(s: string, a: string, b: string, i: nat, j: nat)
    requires IsTrimmed(a) && IsTrimmed(b)
    requires i + |a| <= |s| && s[i..i + |a|] == a && AllSpace(s[..i]) && AllSpace(s[i + |a|..])
    requires j + |b| <= |s| && s[j..j + |b|] == b && AllSpace(s[..j]) && AllSpace(s[j + |b|..])
    ensures a == b
  {
    if a != "" {
      assert s[i] == a[0] && s[i + |a| - 1] == a[|a| - 1];
    }
    if b != "" {
      assert s[j] == b[0] && s[j + |b| - 1] == b[|b| - 1];
    }
  }

  /** Trimming takes away the white space around a text, all of it and nothing else. */
  lemma TrimIsTheCore(s: string, core: string)
    ensures Trim(s) == core <==> Around(s, core)
  {
    var t, u := TrimStart(s), Trim(s);
    TrimStartCuts(s);
    TrimEndCuts(t);
    TrimIsTrimmed(s);
    var i := |s| - |t|;
    assert s[i..i + |u|] == u && s[i + |u|..] == t[|u|..];
    assert Around(s, u);
    if Around(s, core) {
      var j :| 0 <= j <= |s| - |core| && s[j..j + |core|] == core && AllSpace(s[..j]) && AllSpace(s[j + |core|..]);
      CoreIsAtOnePlace(s, u, core, i, j);
    }
  }

  /** Nothing is left exactly of a text that is all white space. */
  lemma BlankIsTrimmedAway(s: string)
    ensures AllSpace(s) <==> Trim(s) == ""
  {
    TrimIsTheCore(s, "");
    if Around(s, "") {
      var i :| 0 <= i <= |s| && AllSpace(s[..i]) && AllSpace(s[i..]);
      assert s == s[..i] + s[i..];
    }
    if AllSpace(s) {
      assert s[0..0] == "" && AllSpace(s[..0]) && AllSpace(s[0..]);
    }
  }

  lemma TrimAddsNothing(s: string, c: char)
    requires c in Trim(s)
    ensures c in s
  {
    var t := Trim(s);
    TrimIsTheCore(s, t);
    var i :| 0 <= i <= |s| - |t| && s[i..i + |t|] == t && AllSpace(s[..i]) && AllSpace(s[i + |t|..]);
    assert c in s[i..i + |t|];
  }

  predicate IsDigit(c: char) { '0' <= c <= '9' }

  /** The text from the first full stop on, and the text before it. */
  function BeforeDot(s: string): string {
    if s == "" || s[0] == '.' then "" else [s[0]] + BeforeDot(s[1..])
  }

  function AfterDot(s: string): (rest: string)
    ensures s != "" ==> |rest| < |s|
  {
    if s == "" then "" else if s[0] == '.' then s[1..] else AfterDot(s[1..])
  }

  predicate HasDot(s: string) { '.' in s }

  function DigitValue(c: char): nat
    requires IsDigit(c)
  {
    (c as int) - 48
  }

  function Decimal(s: string): nat
    requires forall c :: c in s ==> IsDigit(c)
  {
    if s == "" then 0
    else
      assert s[|s| - 1] in s;
      10 * Decimal(s[..|s| - 1]) + DigitValue(s[|s| - 1])
  }

  /** One to three digits, at most 255, without a leading zero. */
  predicate IsOctet(s: string) {
    && 1 <= |s| <= 3 && (forall c :: c in s ==> IsDigit(c))
    && (|s| > 1 ==> s[0] != '0') && Decimal(s) <= 255
  }

  /** Dotted-quad IPv4 text, as the standard address parser accepts it. */
  predicate IsIpv4(s: string) {
    var s1 := AfterDot(s);
    var s2 := AfterDot(s1);
    var s3 := AfterDot(s2);
    && HasDot(s) && HasDot(s1) && HasDot(s2) && !HasDot(s3)
    && IsOctet(BeforeDot(s)) && IsOctet(BeforeDot(s1)) && IsOctet(BeforeDot(s2)) && IsOctet(s3)
  }

  /** An address is never blank. */
  lemma Ipv4IsNotBlank(s: string)
    requires IsIpv4(s)
    ensures Trim(s) != ""
  {
    assert BeforeDot(s)[0] == s[0];
    assert BeforeDot(s)[0] in BeforeDot(s);
    assert !IsSpace(s[0]);
    TrimEndKeepsStart(s);
  }

  lemma {:induction false} SplitAtDot(s: string)
    requires HasDot(s)
    ensures s == BeforeDot(s) + "." + AfterDot(s)
  {
    if s[0] != '.' {
      SplitAtDot(s[1..]);
    }
  }

  /** An address is made of digits and full stops. */
  lemma Ipv4IsDigitsAndDots(s: string)
    requires IsIpv4(s)
    ensures forall c :: c in s ==> IsDigit(c) || c == '.'
  {
    SplitAtDot(s);
    SplitAtDot(AfterDot(s));
    SplitAtDot(AfterDot(AfterDot(s)));
  }

  lemma {:induction false} TrimStartKeeps(s: string, c: char)
    requires !IsSpace(c) && c in s
    ensures c in TrimStart(s)
  {
    if IsSpace(s[0]) {
      TrimStartKeeps(s[1..], c);
    }
  }

  lemma {:induction false} TrimEndKeeps(s: string, c: char)
    requires !IsSpace(c) && c in s
    ensures c in TrimEnd(s)
  {
    var n := |s| - 1;
    if IsSpace(s[n]) {
      assert s == s[..n] + [s[n]];
      TrimEndKeeps(s[..n], c);
    }
  }

  /** Trimming takes away white space only. */
  lemma TrimKeeps(s: string, c: char)
    requires !IsSpace(c) && c in s
    ensures c in Trim(s)
  {
    TrimStartKeeps(s, c);
    TrimEndKeeps(TrimStart(s), c);
  }

  // ---- Addresses are four numbers ----

  /** A number as it is written in an address. */
  function Written(n: nat): string {
    if n < 10 then [(n + 48) as char] else Written(n / 10) + [(n % 10 + 48) as char]
  }

  lemma WrittenIsOctet(n: nat)
    requires n < 256
    ensures IsOctet(Written(n))
  {
    if n < 10 {
      OneDigit(Written(n));
    } else if n < 100 {
      assert Written(n) == [(n / 10 + 48) as char, (n % 10 + 48) as char];
      TwoDigits(Written(n));
    } else {
      assert Written(n / 10) == [(n / 10 / 10 + 48) as char, (n / 10 % 10 + 48) as char];
      assert Written(n) == [(n / 10 / 10 + 48) as char, (n / 10 % 10 + 48) as char, (n % 10 + 48) as char];
      ThreeDigits(Written(n));
    }
  }

  lemma OneDigit(s: string)
    requires |s| == 1 && IsDigit(s[0])
    ensures (forall c :: c in s ==> IsDigit(c)) && Decimal(s) == DigitValue(s[0])
  {
    assert s[..0] == "";
  }

  lemma TwoDigits(s: string)
    requires |s| == 2 && IsDigit(s[0]) && IsDigit(s[1])
    ensures (forall c :: c in s ==> IsDigit(c)) && Decimal(s) == 10 * DigitValue(s[0]) + DigitValue(s[1])
  {
    OneDigit(s[..1]);
  }

  lemma ThreeDigits(s: string)
    requires |s| == 3 && IsDigit(s[0]) && IsDigit(s[1]) && IsDigit(s[2])
    ensures (forall c :: c in s ==> IsDigit(c))
    ensures Decimal(s) == 100 * DigitValue(s[0]) + 10 * DigitValue(s[1]) + DigitValue(s[2])
  {
    TwoDigits(s[..2]);
  }

  lemma OctetIsWritten(s: string)
    requires IsOctet(s)
    ensures Decimal(s) < 256 && Written(Decimal(s)) == s
  {
    var n := Decimal(s);
    assert forall i :: 0 <= i < |s| ==> s[i] in s;
    if |s| == 1 {
      OneDigit(s);
    } else if |s| == 2 {
      TwoDigits(s);
      assert Written(n / 10) == [s[0]] && (n % 10 + 48) as char == s[1];
    } else {
      ThreeDigits(s);
      assert n / 10 == 10 * DigitValue(s[0]) + DigitValue(s[1]) && (n % 10 + 48) as char == s[2];
      assert n / 10 / 10 == DigitValue(s[0]) && (n / 10 % 10 + 48) as char == s[1];
      assert Written(n / 10 / 10) == [s[0]];
      assert Written(n / 10) == [s[0], s[1]];
    }
  }

  function Quad(a: nat, b: nat, c: nat, d: nat): string {
    Written(a) + "." + (Written(b) + "." + (Written(c) + "." + Written(d)))
  }

  lemma {:induction false} CutAtDot(a: string, rest: string)
    requires '.' !in a
    ensures BeforeDot(a + "." + rest) == a && AfterDot(a + "." + rest) == rest && HasDot(a + "." + rest)
  {
    var s := a + "." + rest;
    assert s[|a|] == '.';
    if a == "" {
      assert s[1..] == rest;
    } else {
      assert s[1..] == a[1..] + "." + rest;
      CutAtDot(a[1..], rest);
    }
  }

  lemma WrittenHasNoDot(n: nat)
    requires n < 256
    ensures '.' !in Written(n)
  {
    WrittenIsOctet(n);
    assert !IsDigit('.');
  }

  lemma QuadIsIpv4(a: nat, b: nat, c: nat, d: nat)
    requires a < 256 && b < 256 && c < 256 && d < 256
    ensures IsIpv4(Quad(a, b, c, d))
  {
    WrittenIsOctet(a);
    WrittenIsOctet(b);
    WrittenIsOctet(c);
    WrittenIsOctet(d);
    WrittenHasNoDot(a);
    WrittenHasNoDot(b);
    WrittenHasNoDot(c);
    WrittenHasNoDot(d);
    CutAtDot(Written(c), Written(d));
    CutAtDot(Written(b), Written(c) + "." + Written(d));
    CutAtDot(Written(a), Written(b) + "." + (Written(c) + "." + Written(d)));
  }

  /** An address is exactly four numbers below 256, written without leading zeros and joined by full stops. */
  lemma Ipv4IsFourNumbers(s: string)
    ensures IsIpv4(s) <==> exists a: nat, b: nat, c: nat, d: nat :: a < 256 && b < 256 && c < 256 && d < 256 && s == Quad(a, b, c, d)
  {
    if IsIpv4(s) {
      var s1 := AfterDot(s);
      var s2 := AfterDot(s1);
      SplitAtDot(s);
      SplitAtDot(s1);
      SplitAtDot(s2);
      OctetIsWritten(BeforeDot(s));
      OctetIsWritten(BeforeDot(s1));
      OctetIsWritten(BeforeDot(s2));
      OctetIsWritten(AfterDot(s2));
      assert s == Quad(Decimal(BeforeDot(s)), Decimal(BeforeDot(s1)), Decimal(BeforeDot(s2)), Decimal(AfterDot(s2)));
    }
    if a: nat, b: nat, c: nat, d: nat :| a < 256 && b < 256 && c < 256 && d < 256 && s == Quad(a, b, c, d) {
      QuadIsIpv4(a, b, c, d);
    }
  }
}
