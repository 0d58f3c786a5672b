/** Character and string helpers shared by the three programs of the smart-home
    system: the C device firmware, the Python server and the browser scripts. */
module Text {

  datatype Option<T> = None | Some(value: T)

  // ---------------------------------------------------------------------
  // Digits and decimal numerals
  // ---------------------------------------------------------------------

  predicate IsDigit(c: char) { '0' <= c <= '9' }

  function DigitValue(c: char): (d: nat)
    requires IsDigit(c)
    ensures d < 10
  {
    c as int - '0' as int
  }

  function DigitChar(d: nat): (c: char)
    requires d < 10
    ensures IsDigit(c) && DigitValue(c) == d
  {
    ('0' as int + d) as char
  }

  predicate AllDigits(s: string) { forall i :: 0 <= i < |s| ==> IsDigit(s[i]) }

  /** A non-empty string of decimal digits. */
  predicate IsNumeral(s: string) { |s| > 0 && AllDigits(s) }

  function Pow10(k: nat): (p: nat)
    ensures p >= 1
  {
    if k == 0 then 1 else 10 * Pow10(k - 1)
  }

  /** The number a string of decimal digits denotes (most significant first). */
  function NumeralValue(s: string): nat
    requires AllDigits(s)
  {
    if s == [] then 0 else 10 * NumeralValue(s[..|s| - 1]) + DigitValue(s[|s| - 1])
  }

  /** The shortest decimal text of `n`: what C's itoa, Python's str and
      JavaScript's Number.prototype.toString print for a natural number. */
  function NatToString(n: nat): (s: string)
    ensures IsNumeral(s)
    ensures s[0] == '0' ==> n == 0 && s == "0"
  {
    if n < 10 then [DigitChar(n)] else NatToString(n / 10) + [DigitChar(n % 10)]
  }

  lemma {:induction false} NatToStringRoundTrip(n: nat)
    ensures NumeralValue(NatToString(n)) == n
  {
    if n >= 10 {
      var s := NatToString(n);
      assert s[..|s| - 1] == NatToString(n / 10);
      NatToStringRoundTrip(n / 10);
    }
  }

  lemma {:induction false} NumeralValueAppend(a: string, b: string)
    requires AllDigits(a) && AllDigits(b)
    ensures AllDigits(a + b)
    ensures NumeralValue(a + b) == NumeralValue(a) * Pow10(|b|) + NumeralValue(b)
  {
    if b != [] {
      var b' := b[..|b| - 1];
      assert (a + b)[..|a + b| - 1] == a + b';
      assert (a + b)[|a + b| - 1] == b[|b| - 1];
      NumeralValueAppend(a, b');
      ShiftDigit(NumeralValue(a), Pow10(|b'|), NumeralValue(b'), DigitValue(b[|b| - 1]));
    } else {
      assert a + b == a;
    }
  }

  lemma ShiftDigit(x: int, p: int, y: int, d: int)
    ensures 10 * (x * p + y) + d == x * (10 * p) + (10 * y + d)
  {
  }

  /** `n` without its last `k` decimal digits, that is n / 10^k. */
  function DropDigits(n: nat, k: nat): nat
  {
    if k == 0 then n else DropDigits(n / 10, k - 1)
  }

  /** The number the last `k` decimal digits of `n` denote, that is n mod 10^k. */
  function LastDigits(n: nat, k: nat): (r: nat)
    ensures r < Pow10(k)
  {
    if k == 0 then 0 else 10 * LastDigits(n / 10, k - 1) + n % 10
  }

  lemma {:induction false} SplitDigits(n: nat, k: nat)
    ensures n == DropDigits(n, k) * Pow10(k) + LastDigits(n, k)
  {
    if k > 0 {
      SplitDigits(n / 10, k - 1);
      ShiftDigit(DropDigits(n / 10, k - 1), Pow10(k - 1), LastDigits(n / 10, k - 1), n % 10);
    }
  }

  /** The last `k` decimal digits of `n`, padded with leading zeros to exactly `k` characters. */
  function PaddedDigits(n: nat, k: nat): (s: string)
    ensures |s| == k && AllDigits(s)
  {
    if k == 0 then [] else PaddedDigits(n / 10, k - 1) + [DigitChar(n % 10)]
  }

  lemma {:induction false} PaddedDigitsValue(n: nat, k: nat)
    ensures NumeralValue(PaddedDigits(n, k)) == LastDigits(n, k)
  {
    if k > 0 {
      var s, init := PaddedDigits(n, k), PaddedDigits(n / 10, k - 1);
      assert s[..k - 1] == init && s[k - 1] == DigitChar(n % 10);
      PaddedDigitsValue(n / 10, k - 1);
      assert NumeralValue(s) == 10 * NumeralValue(init) + n % 10;
    }
  }

  // ---------------------------------------------------------------------
  // Tokenising
  // ---------------------------------------------------------------------

  predicate NoneIn(s: string, delims: set<char>) { forall i :: 0 <= i < |s| ==> s[i] !in delims }

  /** The longest prefix of `s` holding no delimiter. */
  function Word(s: string, delims: set<char>): (w: string)
    ensures |w| <= |s| && w == s[..|w|]
    ensures NoneIn(w, delims)
    ensures |w| < |s| ==> s[|w|] in delims
  {
    if s == [] || s[0] in delims then [] else [s[0]] + Word(s[1..], delims)
  }

  /** The maximal runs of non-delimiter characters of `s`, in order. With
      delimiter set {' '} this is the sequence of tokens successive calls of
      C's strtok return; with the whitespace set it is Python's str.split(). */
  function Tokens(s: string, delims: set<char>): (ts: seq<string>)
    ensures forall i :: 0 <= i < |ts| ==> ts[i] != [] && NoneIn(ts[i], delims)
    decreases |s|
  {
    if s == [] then []
    else if s[0] in delims then Tokens(s[1..], delims)
    else
      var w := Word(s, delims);
      [w] + Tokens(s[|w|..], delims)
  }

  /** The words joined by single spaces, as the format strings "%s %s ..." build them. */
  function JoinWords(ws: seq<string>): string
  {
    if |ws| == 0 then "" else if |ws| == 1 then ws[0] else ws[0] + " " + JoinWords(ws[1..])
  }

  lemma {:induction false} WordOfSeparated(w: string, rest: string, delims: set<char>)
    requires NoneIn(w, delims)
    requires rest == [] || rest[0] in delims
    ensures Word(w + rest, delims) == w
  {
    if w != [] {
      assert (w + rest)[1..] == w[1..] + rest;
      WordOfSeparated(w[1..], rest, delims);
    } else {
      assert w + rest == rest;
    }
  }

  /** Tokenising undoes joining, for non-empty words free of delimiters. */
  lemma {:induction false} TokensOfJoinWords(ws: seq<string>, delims: set<char>)
    requires ' ' in delims
    requires forall i :: 0 <= i < |ws| ==> ws[i] != [] && NoneIn(ws[i], delims)
    ensures Tokens(JoinWords(ws), delims) == ws
  {
    if |ws| == 1 {
      WordOfSeparated(ws[0], [], delims);
      assert ws[0] + [] == ws[0];
      assert JoinWords(ws)[|ws[0]|..] == [];
    } else if |ws| > 1 {
      var tail := " " + JoinWords(ws[1..]);
      assert JoinWords(ws) == ws[0] + tail;
      WordOfSeparated(ws[0], tail, delims);
      assert (ws[0] + tail)[|ws[0]|..] == tail;
      assert tail[1..] == JoinWords(ws[1..]);
      TokensOfJoinWords(ws[1..], delims);
    }
  }

  // ---------------------------------------------------------------------
  // Whitespace and C strings
  // ---------------------------------------------------------------------

  /** The characters Python's str.split() and str.strip() treat as whitespace. */
  const PythonWhitespace: set<char> :=
    {'\U{20}', '\U{9}', '\U{A}', '\U{D}', '\U{B}', '\U{C}', '\U{1C}', '\U{1D}',
     '\U{1E}', '\U{1F}', '\U{85}', '\U{A0}', '\U{1680}', '\U{2000}', '\U{2001}', '\U{2002}',
     '\U{2003}', '\U{2004}', '\U{2005}', '\U{2006}', '\U{2007}', '\U{2008}', '\U{2009}', '\U{200A}',
     '\U{2028}', '\U{2029}', '\U{202F}', '\U{205F}', '\U{3000}'}

  /** The characters JavaScript's parseInt skips before a number. */
  const JavaScriptWhitespace: set<char> :=
    {'\U{20}', '\U{9}', '\U{A}', '\U{D}', '\U{B}', '\U{C}', '\U{A0}', '\U{FEFF}',
     '\U{1680}', '\U{2000}', '\U{2001}', '\U{2002}', '\U{2003}', '\U{2004}', '\U{2005}', '\U{2006}',
     '\U{2007}', '\U{2008}', '\U{2009}', '\U{200A}', '\U{2028}', '\U{2029}', '\U{202F}', '\U{205F}',
     '\U{3000}'}

  function TrimStart(s: string, ws: set<char>): (t: string)
    ensures |t| <= |s| && t == s[|s| - |t|..]
    ensures t == [] || t[0] !in ws
    ensures forall i :: 0 <= i < |s| - |t| ==> s[i] in ws
  {
    if s != [] && s[0] in ws then TrimStart(s[1..], ws) else s
  }

  function TrimEnd(s: string, ws: set<char>): (t: string)
    ensures |t| <= |s| && t == s[..|t|]
    ensures t == [] || t[|t| - 1] !in ws
    ensures forall i :: |t| <= i < |s| ==> s[i] in ws
  {
    if s != [] && s[|s| - 1] in ws then TrimEnd(s[..|s| - 1], ws) else s
  }

  /** Python's str.strip(). */
  function Strip(s: string): string
  {
    TrimEnd(TrimStart(s, PythonWhitespace), PythonWhitespace)
  }

  /** The C string a byte buffer holds: everything before its first NUL. */
  function CString(buf: string): (s: string)
    ensures |s| <= |buf| && s == buf[..|s|]
    ensures '\0' !in s
    ensures |s| < |buf| ==> buf[|s|] == '\0'
  {
    if buf == [] || buf[0] == '\0' then [] else [buf[0]] + CString(buf[1..])
  }
}
