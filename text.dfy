/** The string primitives of JavaScript that the application relies on, stated over
    `seq<char>`: `toLowerCase` (ASCII and Latin-1 letters), `trim`, `split` on one
    character, `includes`, `replace` of the first occurrence, number-to-string
    conversion and `parseInt` without a radix. */
module Text {
  import opened Wrappers
  import opened Seqs

  /** JavaScript's WhiteSpace and LineTerminator characters, which `trim` and `\s` remove. */
  predicate IsSpace(c: char)
  {
    c == ' ' || c == '\t' || c == '\n' || c == '\r' || c == '\U{000B}' || c == '\U{000C}' ||
    c == '\U{00A0}' || c == '\U{1680}' || ('\U{2000}' <= c <= '\U{200A}') ||
    c == '\U{2028}' || c == '\U{2029}' || c == '\U{202F}' || c == '\U{205F}' ||
    c == '\U{3000}' || c == '\U{FEFF}'
  }

  predicate IsUpper(c: char) { 'A' <= c <= 'Z' }
  predicate IsLower(c: char) { 'a' <= c <= 'z' }
  predicate IsDigit(c: char) { '0' <= c <= '9' }
  predicate IsHexDigit(c: char) { IsDigit(c) || 'a' <= c <= 'f' || 'A' <= c <= 'F' }

  /** Upper-case letters that `toLowerCase` maps by adding 32: A-Z and Latin-1 À-Þ except ×. */
  predicate HasSimpleLowerCase(c: char)
  {
    IsUpper(c) || ('\U{00C0}' <= c <= '\U{00DE}' && c != '\U{00D7}')
  }

  function LowerChar(c: char): (r: char)
    ensures HasSimpleLowerCase(c) ==> r as int == c as int + 32
    ensures !HasSimpleLowerCase(c) ==> r == c
    ensures !HasSimpleLowerCase(r)
  {
    if HasSimpleLowerCase(c) then (c as int + 32) as char else c
  }

  /** `s.toLowerCase()` restricted to the letters above; every other character is kept. */
  function Lower(s: string): (r: string)
    ensures |r| == |s|
    ensures forall i :: 0 <= i < |s| ==> r[i] == LowerChar(s[i])
  {
    if s == [] then [] else [LowerChar(s[0])] + Lower(s[1..])
  }

  lemma {:induction false} LowerIdempotent(s: string)
    ensures Lower(Lower(s)) == Lower(s)
  {
    var l := Lower(s);
    assert forall i :: 0 <= i < |l| ==> LowerChar(l[i]) == l[i];
  }

  /** `hay.includes(needle)`: needle occurs as a contiguous block of hay. */
  predicate Contains(hay: string, needle: string)
  {
    exists i :: 0 <= i <= |hay| && OccursAt(hay, needle, i)
  }

  /** needle occurs in hay starting at index i. */
  predicate OccursAt(hay: string, needle: string, i: int)
  {
    0 <= i && i + |needle| <= |hay| && hay[i..i + |needle|] == needle
  }

  lemma ContainsEmpty(hay: string)
    ensures Contains(hay, "")
  {
    assert OccursAt(hay, "", 0);
  }

  /** The leading whitespace removed: what `trimStart` returns. */
  function TrimStart(s: string): (r: string)
    ensures |r| <= |s| && r == s[|s| - |r|..]
    ensures forall i :: 0 <= i < |s| - |r| ==> IsSpace(s[i])
    ensures r != [] ==> !IsSpace(r[0])
  {
    if s != [] && IsSpace(s[0]) then TrimStart(s[1..]) else s
  }

  /** The trailing whitespace removed. */
  function TrimEnd(s: string): (r: string)
    ensures |r| <= |s| && r == s[..|r|]
    ensures forall i :: |r| <= i < |s| ==> IsSpace(s[i])
    ensures r != [] ==> !IsSpace(r[|r| - 1])
  {
    if s != [] && IsSpace(s[|s| - 1]) then TrimEnd(s[..|s| - 1]) else s
  }

  /** `s.trim()`. */
  function Trim(s: string): string
  {
    TrimEnd(TrimStart(s))
  }

  /** `s.trim()` is the block of s left between the leading and the trailing whitespace. */
  lemma TrimIsBlock(s: string)
    ensures var i := |s| - |TrimStart(s)|;
      OccursAt(s, Trim(s), i) && (forall k :: 0 <= k < i ==> IsSpace(s[k])) &&
      (forall k :: i + |Trim(s)| <= k < |s| ==> IsSpace(s[k]))
  {
    var t := TrimStart(s);
    var e := TrimEnd(t);
    assert Trim(s) == e;
    SuffixBlock(s, t, e);
  }

  /** A prefix e of a suffix t of s sits in s at |s| - |t|, and what follows it in s is what
      follows it in t. */
  lemma SuffixBlock(s: string, t: string, e: string)
    requires |t| <= |s| && t == s[|s| - |t|..]
    requires |e| <= |t| && e == t[..|e|]
    requires forall k :: |e| <= k < |t| ==> IsSpace(t[k])
    ensures OccursAt(s, e, |s| - |t|)
    ensures forall k :: |s| - |t| + |e| <= k < |s| ==> IsSpace(s[k])
  {
    var i := |s| - |t|;
    assert s[i..i + |e|] == t[..|e|];
    forall k | i + |e| <= k < |s| ensures IsSpace(s[k]) {
      assert s[k] == t[k - i];
    }
  }

  /** `s.trim()` starts and ends with a non-space character, and is empty exactly when
      s is all whitespace. */
  lemma TrimEmptyIff(s: string)
    ensures Trim(s) != [] ==> !IsSpace(Trim(s)[0]) && !IsSpace(Trim(s)[|Trim(s)| - 1])
    ensures Trim(s) == [] <==> forall k :: 0 <= k < |s| ==> IsSpace(s[k])
  {
    var t := TrimStart(s);
    if Trim(s) != [] {
      assert Trim(s)[0] == t[0];
    } else {
      forall k | 0 <= k < |s| ensures IsSpace(s[k]) {
      }
    }
  }

  /** Some character of s is not whitespace: `s.trim()` is truthy. */
  predicate HasNonSpace(s: string)
  {
    s != [] && (!IsSpace(s[0]) || HasNonSpace(s[1..]))
  }

  lemma {:induction false} HasNonSpaceIff(s: string)
    ensures HasNonSpace(s) <==> Trim(s) != []
  {
    TrimEmptyIff(s);
    if s != [] {
      HasNonSpaceIff(s[1..]);
      TrimEmptyIff(s[1..]);
      if IsSpace(s[0]) && !HasNonSpace(s[1..]) {
        forall k | 0 <= k < |s| ensures IsSpace(s[k]) {
          if k > 0 { assert s[k] == s[1..][k - 1]; }
        }
      }
    }
  }

  /** `s.split(sep)` for a one-character separator: always at least one piece. */
  function Split(s: string, sep: char): (r: seq<string>)
    ensures |r| >= 1
  {
    if s == [] then [[]]
    else
      var rest := Split(s[1..], sep);
      if s[0] == sep then [[]] + rest else [[s[0]] + rest[0]] + rest[1..]
  }

  /** `pieces.join(sep)`. */
  function Join(pieces: seq<string>, sep: char): string
  {
    if pieces == [] then []
    else if |pieces| == 1 then pieces[0]
    else pieces[0] + [sep] + Join(pieces[1..], sep)
  }

  /** Splitting loses nothing: joining the pieces back gives the string, and no piece
      contains the separator. */
  lemma {:induction false} SplitJoin(s: string, sep: char)
    ensures Join(Split(s, sep), sep) == s
    ensures forall k :: 0 <= k < |Split(s, sep)| ==> sep !in Split(s, sep)[k]
  {
    if s != [] {
      var rest := Split(s[1..], sep);
      SplitJoin(s[1..], sep);
      if s[0] == sep {
        assert Split(s, sep) == [[]] + rest;
        assert Join([[]] + rest, sep) == [] + [sep] + Join(rest, sep);
      } else {
        var r := [[s[0]] + rest[0]] + rest[1..];
        assert Split(s, sep) == r;
        if |rest| == 1 {
          assert Join(r, sep) == [s[0]] + rest[0];
        } else {
          assert r[1..] == rest[1..];
          assert Join(rest, sep) == rest[0] + [sep] + Join(rest[1..], sep);
        }
        assert sep !in rest[0];
        forall k | 0 <= k < |r| ensures sep !in r[k] {
          if k > 0 { assert r[k] == rest[k]; }
        }
      }
    }
  }

  /** The first piece of `s.split(sep)` is everything before the first separator
      (the whole string when there is none). */
  lemma {:induction false} SplitFirstPiece(s: string, sep: char)
    ensures var f := Split(s, sep)[0];
      |f| <= |s| && f == s[..|f|] && sep !in f && (|f| < |s| ==> s[|f|] == sep)
  {
    if s != [] {
      SplitFirstPiece(s[1..], sep);
    }
  }

  /** A string made of a separator-free prefix, the separator and a rest splits first at
      that separator. */
  lemma {:induction false} SplitFirstPieceOf(prefix: string, sep: char, rest: string)
    requires sep !in prefix
    ensures Split(prefix + [sep] + rest, sep)[0] == prefix
  {
    if prefix != [] {
      SplitFirstPieceOf(prefix[1..], sep, rest);
      assert (prefix + [sep] + rest)[1..] == prefix[1..] + [sep] + rest;
    }
  }

  /** Lowercasing character by character determines the lowercase form. */
  lemma LowerIs(s: string, t: string)
    requires |s| == |t| && forall k :: 0 <= k < |s| ==> LowerChar(s[k]) == t[k]
    ensures Lower(s) == t
  {
  }

  /** A string without upper-case letters is its own lowercase form. */
  lemma LowerOfLowercase(s: string)
    requires forall k :: 0 <= k < |s| ==> !HasSimpleLowerCase(s[k])
    ensures Lower(s) == s
  {
  }

  /** `s.replace(from, to)` with a one-character pattern. */
  function ReplaceFirst(s: string, from: char, to: char): (r: string)
    ensures |r| == |s|
  {
    if s == [] then []
    else if s[0] == from then [to] + s[1..]
    else [s[0]] + ReplaceFirst(s[1..], from, to)
  }

  /** Without an occurrence of the pattern nothing changes. */
  lemma {:induction false} ReplaceFirstAbsent(s: string, from: char, to: char)
    requires from !in s
    ensures ReplaceFirst(s, from, to) == s
  {
    if s != [] {
      ReplaceFirstAbsent(s[1..], from, to);
    }
  }

  /** Only the first occurrence of the pattern, at index i, is replaced. */
  lemma {:induction false} ReplaceFirstAt(s: string, from: char, to: char, i: nat)
    requires i < |s| && s[i] == from && from !in s[..i]
    ensures ReplaceFirst(s, from, to) == s[..i] + [to] + s[i + 1..]
  {
    if i > 0 {
      assert s[0] == s[..i][0];
      assert s[1..][..i - 1] == s[1..i];
      assert from !in s[1..][..i - 1];
      ReplaceFirstAt(s[1..], from, to, i - 1);
      assert s[..i] == [s[0]] + s[1..][..i - 1];
      assert s[i + 1..] == s[1..][i..];
    }
  }

  function DigitChar(d: nat): (c: char)
    requires d < 10
    ensures IsDigit(c)
  {
    ('0' as int + d) as char
  }

  /** The value of a hexadecimal digit; for '0'..'9' it is the decimal value. */
  function DigitValue(c: char): (v: nat)
    requires IsHexDigit(c)
    ensures v < 16 && (IsDigit(c) ==> v < 10)
  {
    if IsDigit(c) then c as int - '0' as int
    else if 'a' <= c <= 'f' then c as int - 'a' as int + 10
    else c as int - 'A' as int + 10
  }

  /** The number a run of digits denotes in the given base. */
  function DigitsValue(ds: string, base: nat): nat
    requires forall k :: 0 <= k < |ds| ==> IsHexDigit(ds[k])
  {
    if ds == [] then 0 else DigitsValue(ds[..|ds| - 1], base) * base + DigitValue(ds[|ds| - 1])
  }

  /** `String(n)` for a natural number. */
  function NatToString(n: nat): (r: string)
    ensures r != [] && forall k :: 0 <= k < |r| ==> IsDigit(r[k])
    ensures |r| > 1 ==> r[0] != '0'
  {
    if n < 10 then [DigitChar(n)] else NatToString(n / 10) + [DigitChar(n % 10)]
  }

  /** `String(i)` for an integer. */
  function IntToString(i: int): string
  {
    if i < 0 then "-" + NatToString(-i) else NatToString(i)
  }

  /** The longest prefix of s whose characters all satisfy p. */
  function TakeWhile(s: string, p: char -> bool): (r: string)
    ensures |r| <= |s| && r == s[..|r|]
    ensures forall k :: 0 <= k < |r| ==> p(r[k])
    ensures |r| < |s| ==> !p(s[|r|])
  {
    if s != [] && p(s[0]) then [s[0]] + TakeWhile(s[1..], p) else []
  }

  /** `parseInt(s)` without a radix: leading whitespace skipped, an optional sign, a
      `0x`/`0X` prefix selecting base 16, then the longest run of digits; None is NaN. */
  function ParseInt(s: string): Option<int>
  {
    ParseSigned(TrimStart(s))
  }

  /** An optional sign followed by a magnitude. */
  function ParseSigned(t: string): Option<int>
  {
    if t != [] && t[0] == '-' then
      match ParseMagnitude(t[1..])
      case None => None
      case Some(m) => Some(-(m as int))
    else if t != [] && t[0] == '+' then
      match ParseMagnitude(t[1..])
      case None => None
      case Some(m) => Some(m)
    else
      match ParseMagnitude(t)
      case None => None
      case Some(m) => Some(m)
  }

  /** The leading digits of u, hexadecimal after a `0x`/`0X` prefix; None when there are none. */
  function ParseMagnitude(u: string): Option<nat>
  {
    var hex := |u| >= 2 && u[0] == '0' && (u[1] == 'x' || u[1] == 'X');
    var ds := if hex then TakeWhile(u[2..], IsHexDigit) else TakeWhile(u, IsDigit);
    if ds == [] then None else Some(DigitsValue(ds, if hex then 16 else 10))
  }

  lemma {:induction false} NatToStringValue(n: nat)
    ensures DigitsValue(NatToString(n), 10) == n
  {
    if n >= 10 {
      NatToStringValue(n / 10);
      var r := NatToString(n);
      assert r[..|r| - 1] == NatToString(n / 10);
    }
  }

  /** A string that starts with a digit is not changed by `trimStart`. */
  lemma TrimStartDigitHead(s: string)
    requires s != [] && IsDigit(s[0])
    ensures TrimStart(s) == s
  {
  }

  /** The decimal rendering of a natural number is read back as that number. */
  lemma ParseMagnitudeOfNatToString(n: nat)
    ensures ParseMagnitude(NatToString(n)) == Some(n)
  {
    var d := NatToString(n);
    assert |d| >= 2 ==> d[0] != '0';
    assert TakeWhile(d, IsDigit) == d;
    NatToStringValue(n);
  }

  /** `parseInt(String(i)) === i`: rendering an integer and parsing it back is the identity. */
  lemma ParseIntOfIntToString(i: int)
    ensures ParseInt(IntToString(i)) == Some(i)
  {
    if i >= 0 {
      ParseMagnitudeOfNatToString(i);
      ParseIntOfDigits(NatToString(i), i);
    } else {
      ParseMagnitudeOfNatToString(-i);
      ParseIntNegative(NatToString(-i), -i);
    }
  }

  /** `parseInt` of a magnitude that starts with a digit is that magnitude. */
  lemma ParseIntOfDigits(d: string, m: nat)
    requires d != [] && IsDigit(d[0]) && ParseMagnitude(d) == Some(m)
    ensures ParseInt(d) == Some(m)
  {
    TrimStartDigitHead(d);
    assert d[0] != '-' && d[0] != '+';
  }

  /** `parseInt` of a minus sign followed by a magnitude is its negation. */
  lemma ParseIntNegative(d: string, m: nat)
    requires ParseMagnitude(d) == Some(m)
    ensures ParseInt("-" + d) == Some(-(m as int))
  {
    TrimStartNonSpaceHead("-" + d);
    ParseNegative(d, m);
  }

  /** A string that starts with a non-space character is not changed by `trimStart`. */
  lemma TrimStartNonSpaceHead(s: string)
    requires s != [] && !IsSpace(s[0])
    ensures TrimStart(s) == s
  {
  }

  /** A minus sign followed by a magnitude is read as its negation. */
  lemma ParseNegative(d: string, m: nat)
    requires ParseMagnitude(d) == Some(m)
    ensures ParseSigned("-" + d) == Some(-(m as int))
  {
    var s := "-" + d;
    assert s[0] == '-' && s[1..] == d;
  }
}
