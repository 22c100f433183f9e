/** Values and JavaScript string behaviour shared by the whole shop model. */
module Common {

  datatype Option<+T> = None | Some(value: T)

  /** `x || 0` for a numeric field that may be missing. */
  function OrZero(o: Option<int>): int {
    if o.Some? then o.value else 0
  }

  function RealOrZero(o: Option<real>): real {
    if o.Some? then o.value else 0.0
  }

  function Max(a: int, b: int): int {
    if a < b then b else a
  }

  function Min(a: int, b: int): int {
    if a < b then a else b
  }

  /** A string is truthy in JavaScript exactly when it is not empty. */
  predicate Truthy(s: string) {
    s != ""
  }

  /** `o || fallback` for an optional string field. */
  function StrOr(o: Option<string>, fallback: string): string {
    if o.Some? && Truthy(o.value) then o.value else fallback
  }

  // ---------------------------------------------------------------------------
  // White space, as JavaScript's `\s` and `String.prototype.trim` see it
  // ---------------------------------------------------------------------------

  predicate IsSpace(c: char) {
    || c == ' ' || c == '\t' || c == '\n' || c == '\U{000B}' || c == '\U{000C}' || c == '\r'
    || c == '\U{00A0}' || c == '\U{1680}' || ('\U{2000}' <= c <= '\U{200A}')
    || c == '\U{2028}' || c == '\U{2029}' || c == '\U{202F}' || c == '\U{205F}'
    || c == '\U{3000}' || c == '\U{FEFF}'
  }

  /** `\d`: the ASCII digits only. */
  predicate IsDigit(c: char) {
    '0' <= c <= '9'
  }

  predicate AllSpace(s: string) {
    forall i :: 0 <= i < |s| ==> IsSpace(s[i])
  }

  predicate AllDigits(s: string) {
    forall i :: 0 <= i < |s| ==> IsDigit(s[i])
  }

  predicate NoSpace(s: string) {
    forall i :: 0 <= i < |s| ==> !IsSpace(s[i])
  }

  /** `s.trimStart()` */
  function TrimStart(s: string): string {
    if s == [] then s
    else if IsSpace(s[0]) then TrimStart(s[1..])
    else s
  }

  /** `s.trimEnd()` */
  function TrimEnd(s: string): string {
    if s == [] then s
    else if IsSpace(s[|s| - 1]) then TrimEnd(s[..|s| - 1])
    else s
  }

  /** `s.trim()` */
  function Trim(s: string): string {
    TrimEnd(TrimStart(s))
  }

  /** `s.trim() === ''` */
  predicate IsBlank(s: string) {
    Trim(s) == ""
  }

  /** Trimming the start drops a prefix of white space and stops at a non-space character. */
  lemma {:induction false} TrimStartShape(s: string)
    ensures |TrimStart(s)| <= |s| && TrimStart(s) == s[|s| - |TrimStart(s)|..]
    ensures AllSpace(s[..|s| - |TrimStart(s)|])
    ensures TrimStart(s) != [] ==> !IsSpace(TrimStart(s)[0])
  {
    if s != [] && IsSpace(s[0]) {
      TrimStartShape(s[1..]);
      var r := TrimStart(s[1..]);
      assert s[..|s| - |r|] == [s[0]] + s[1..][..|s[1..]| - |r|];
    }
  }

  /** Trimming the end drops a suffix of white space and stops at a non-space character. */
  lemma {:induction false} TrimEndShape(s: string)
    ensures |TrimEnd(s)| <= |s| && TrimEnd(s) == s[..|TrimEnd(s)|]
    ensures AllSpace(s[|TrimEnd(s)|..])
    ensures TrimEnd(s) != [] ==> !IsSpace(TrimEnd(s)[|TrimEnd(s)| - 1])
  {
    if s != [] && IsSpace(s[|s| - 1]) {
      var p := s[..|s| - 1];
      TrimEndShape(p);
      var r := TrimEnd(p);
      assert s[|r|..] == p[|r|..] + [s[|s| - 1]];
      assert p[..|r|] == s[..|r|];
    }
  }

  lemma {:induction false} TrimStartOfAllSpace(s: string)
    ensures AllSpace(s) <==> TrimStart(s) == ""
  {
    if s != [] && IsSpace(s[0]) {
      TrimStartOfAllSpace(s[1..]);
      assert AllSpace(s) <==> AllSpace(s[1..]) by {
        forall i | 0 <= i < |s[1..]| ensures s[1..][i] == s[i + 1] { }
      }
    }
  }

  /** A string is blank exactly when every character in it is white space. */
  lemma BlankIffAllSpace(s: string)
    ensures IsBlank(s) <==> AllSpace(s)
  {
    TrimStartOfAllSpace(s);
    var t := TrimStart(s);
    TrimStartShape(s);
    TrimEndShape(t);
    if t != [] {
      assert !IsSpace(t[0]);
    }
  }

  /** `s.replace(/\s/g, '')` */
  function StripSpaces(s: string): (r: string)
    ensures NoSpace(r)
    ensures |r| <= |s|
  {
    if s == [] then []
    else if IsSpace(s[0]) then StripSpaces(s[1..])
    else [s[0]] + StripSpaces(s[1..])
  }

  /** `s.replace(/\D/g, '')` */
  function DigitsOf(s: string): (r: string)
    ensures AllDigits(r)
    ensures |r| <= |s|
  {
    if s == [] then []
    else if IsDigit(s[0]) then [s[0]] + DigitsOf(s[1..])
    else DigitsOf(s[1..])
  }

  lemma {:induction false} StripSpacesAppend(a: string, b: string)
    ensures StripSpaces(a + b) == StripSpaces(a) + StripSpaces(b)
  {
    if a == [] {
      assert a + b == b;
    } else {
      assert (a + b)[1..] == a[1..] + b;
      StripSpacesAppend(a[1..], b);
    }
  }

  lemma {:induction false} StripSpacesOfAllSpace(s: string)
    requires AllSpace(s)
    ensures StripSpaces(s) == []
  {
    if s != [] {
      StripSpacesOfAllSpace(s[1..]);
    }
  }

  lemma {:induction false} StripSpacesOfNoSpace(s: string)
    requires NoSpace(s)
    ensures StripSpaces(s) == s
  {
    if s != [] {
      StripSpacesOfNoSpace(s[1..]);
    }
  }

  lemma {:induction false} DigitsOfAllDigits(s: string)
    requires AllDigits(s)
    ensures DigitsOf(s) == s
  {
    if s != [] {
      DigitsOfAllDigits(s[1..]);
    }
  }

  /** A string without digits is dropped entirely: `\D` characters are removed, not replaced. */
  lemma {:induction false} DigitsOfNoDigits(s: string)
    requires forall i :: 0 <= i < |s| ==> !IsDigit(s[i])
    ensures DigitsOf(s) == []
  {
    if s != [] {
      DigitsOfNoDigits(s[1..]);
    }
  }

  lemma DigitsOfNonDigit(c: char)
    requires !IsDigit(c)
    ensures DigitsOf([c]) == []
  {
    DigitsOfNoDigits([c]);
  }

  lemma {:induction false} DigitsOfAppend(a: string, b: string)
    ensures DigitsOf(a + b) == DigitsOf(a) + DigitsOf(b)
  {
    if a == [] {
      assert a + b == b;
    } else {
      assert (a + b)[1..] == a[1..] + b;
      DigitsOfAppend(a[1..], b);
    }
  }

  /** Trimming removes only white space, so it does not change the non-space content. */
  lemma TrimKeepsContent(s: string)
    ensures StripSpaces(Trim(s)) == StripSpaces(s)
  {
    var t := TrimStart(s);
    var e := TrimEnd(t);
    TrimStartShape(s);
    TrimEndShape(t);
    assert s == s[..|s| - |t|] + t;
    StripSpacesAppend(s[..|s| - |t|], t);
    StripSpacesOfAllSpace(s[..|s| - |t|]);
    assert t == e + t[|e|..];
    StripSpacesAppend(e, t[|e|..]);
    StripSpacesOfAllSpace(t[|e|..]);
  }

  // ---------------------------------------------------------------------------
  // Case-insensitive substring search (the literal case of a `$regex` with option 'i')
  // ---------------------------------------------------------------------------

  /** ASCII lower-casing. */
  function LowerChar(c: char): char {
    if 'A' <= c <= 'Z' then (c as int + 32) as char else c
  }

  function Lower(s: string): (r: string)
    ensures |r| == |s|
    ensures forall i :: 0 <= i < |s| ==> r[i] == LowerChar(s[i])
  {
    if s == [] then [] else [LowerChar(s[0])] + Lower(s[1..])
  }

  /** Does `sub` occur in `s` starting at some position? */
  function Contains(s: string, sub: string): bool {
    if |sub| <= |s| && s[..|sub|] == sub then true
    else if s == [] then false
    else Contains(s[1..], sub)
  }

  /** `sub` occurs in `s` at position `i`. */
  predicate OccursAt(s: string, sub: string, i: int) {
    0 <= i && i + |sub| <= |s| && s[i..i + |sub|] == sub
  }

  lemma {:induction false} ContainsIffOccurs(s: string, sub: string)
    ensures Contains(s, sub) <==> exists i :: OccursAt(s, sub, i)
  {
    if |sub| <= |s| && s[..|sub|] == sub {
      assert OccursAt(s, sub, 0);
    } else if s == [] {
    } else {
      ContainsIffOccurs(s[1..], sub);
      if exists i :: OccursAt(s, sub, i) {
        var i :| OccursAt(s, sub, i);
        assert i != 0;
        assert s[1..][i - 1..i - 1 + |sub|] == s[i..i + |sub|];
        assert OccursAt(s[1..], sub, i - 1);
      }
      if Contains(s[1..], sub) {
        var j :| OccursAt(s[1..], sub, j);
        assert s[1..][j..j + |sub|] == s[j + 1..j + 1 + |sub|];
        assert OccursAt(s, sub, j + 1);
      }
    }
  }

  /** A name or description matches a literal search term case-insensitively. */
  predicate MatchesIgnoreCase(text: string, term: string) {
    Contains(Lower(text), Lower(term))
  }

  // ---------------------------------------------------------------------------
  // Lexicographic order on strings (binary collation)
  // ---------------------------------------------------------------------------

  predicate LexLess(a: string, b: string) {
    if a == [] then b != []
    else if b == [] then false
    else a[0] < b[0] || (a[0] == b[0] && LexLess(a[1..], b[1..]))
  }

  lemma {:induction false} LexIrreflexive(a: string)
    ensures !LexLess(a, a)
  {
    if a != [] {
      LexIrreflexive(a[1..]);
    }
  }

  lemma {:induction false} LexTransitive(a: string, b: string, c: string)
    requires LexLess(a, b) && LexLess(b, c)
    ensures LexLess(a, c)
  {
    if a != [] && b != [] && c != [] && a[0] == b[0] == c[0] {
      LexTransitive(a[1..], b[1..], c[1..]);
    }
  }

  lemma {:induction false} LexAsymmetric(a: string, b: string)
    ensures LexLess(a, b) ==> !LexLess(b, a)
  {
    if a != [] && b != [] && a[0] == b[0] {
      LexAsymmetric(a[1..], b[1..]);
    }
  }

  lemma {:induction false} LexTotal(a: string, b: string)
    requires a != b
    ensures LexLess(a, b) || LexLess(b, a)
  {
    if a != [] && b != [] && a[0] == b[0] {
      assert a == [a[0]] + a[1..] && b == [b[0]] + b[1..];
      LexTotal(a[1..], b[1..]);
    }
  }

  // ---------------------------------------------------------------------------
  // Decimal rendering of natural numbers (template-literal interpolation)
  // ---------------------------------------------------------------------------

  function DigitChar(d: nat): char
    requires d < 10
  {
    ('0' as int + d) as char
  }

  function NatToString(n: nat): (r: string)
    ensures |r| > 0 && AllDigits(r)
  {
    if n < 10 then [DigitChar(n)] else NatToString(n / 10) + [DigitChar(n % 10)]
  }

  function DigitValue(c: char): nat
    requires IsDigit(c)
  {
    c as int - '0' as int
  }

  /** Reads a string of digits back as a number. */
  function ParseNat(s: string): nat
    requires AllDigits(s)
  {
    if s == [] then 0 else 10 * ParseNat(s[..|s| - 1]) + DigitValue(s[|s| - 1])
  }

  lemma {:induction false} ParseNatToString(n: nat)
    ensures ParseNat(NatToString(n)) == n
  {
    if n >= 10 {
      var s := NatToString(n);
      assert s[..|s| - 1] == NatToString(n / 10);
      ParseNatToString(n / 10);
    }
  }

  /** Different numbers render differently. */
  lemma NatToStringInjective(m: nat, n: nat)
    requires NatToString(m) == NatToString(n)
    ensures m == n
  {
    ParseNatToString(m);
    ParseNatToString(n);
  }
}
