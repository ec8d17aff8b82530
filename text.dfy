/** String primitives shared by the browser client and the Python server:
    JavaScript `trim`, Python `strip`, `split`/`join` on a literal
    separator, substring search, ASCII case mapping and decimal rendering. */
module Text {

  datatype Option<T> = None | Some(value: T)

  /** The characters JavaScript's `trim` removes and `\s` matches:
      WhiteSpace and LineTerminator of ECMAScript. */
  predicate IsJsSpace(c: char)
  {
    c == '\t' || c == '\n' || c == '\U{000B}' || c == '\U{000C}' || c == '\r' || c == ' '
    || c == '\U{00A0}' || c == '\U{1680}' || ('\U{2000}' <= c <= '\U{200A}')
    || c == '\U{2028}' || c == '\U{2029}' || c == '\U{202F}' || c == '\U{205F}'
    || c == '\U{3000}' || c == '\U{FEFF}'
  }

  /** The characters a JavaScript regular expression `.` refuses to match. */
  predicate IsLineTerminator(c: char)
  {
    c == '\n' || c == '\r' || c == '\U{2028}' || c == '\U{2029}'
  }

  /** The characters Python's `str.isspace` accepts, which `str.strip()` removes. */
  predicate IsPySpace(c: char)
  {
    ('\t' <= c <= '\r') || ('\U{001C}' <= c <= '\U{001F}') || c == ' ' || c == '\U{0085}'
    || c == '\U{00A0}' || c == '\U{1680}' || ('\U{2000}' <= c <= '\U{200A}')
    || c == '\U{2028}' || c == '\U{2029}' || c == '\U{202F}' || c == '\U{205F}' || c == '\U{3000}'
  }

  predicate IsDigit(c: char)
  {
    '0' <= c <= '9'
  }

  /** The character classes the scanners below work with. */
  datatype CharClass = JsSpace | PySpace | Digit

  predicate InClass(k: CharClass, c: char)
  {
    match k
    case JsSpace => IsJsSpace(c)
    case PySpace => IsPySpace(c)
    case Digit => IsDigit(c)
  }

  /** Drops the leading characters of class `k`. */
  function TrimStartBy(s: string, k: CharClass): (r: string)
    ensures |r| <= |s|
    ensures forall i {:trigger r[i]} :: 0 <= i < |r| ==> r[i] == s[|s| - |r| + i]
    ensures r == [] || !InClass(k, r[0])
  {
    if s == [] || !InClass(k, s[0]) then s else TrimStartBy(s[1..], k)
  }

  /** What `TrimStartBy` drops is all of class `k`. */
  lemma {:induction false} TrimStartDropped(s: string, k: CharClass)
    ensures forall i :: 0 <= i < |s| - |TrimStartBy(s, k)| ==> InClass(k, s[i])
  {
    if s != [] && InClass(k, s[0]) {
      TrimStartDropped(s[1..], k);
      forall i | 1 <= i < |s| - |TrimStartBy(s, k)| ensures InClass(k, s[i]) {
        assert s[i] == s[1..][i - 1];
      }
    }
  }

  /** Drops the trailing characters of class `k`. */
  function TrimEndBy(s: string, k: CharClass): (r: string)
    ensures |r| <= |s|
    ensures forall i {:trigger r[i]} :: 0 <= i < |r| ==> r[i] == s[i]
    ensures r == [] || !InClass(k, r[|r| - 1])
  {
    if s == [] || !InClass(k, s[|s| - 1]) then s else TrimEndBy(s[..|s| - 1], k)
  }

  /** What `TrimEndBy` drops is all of class `k`. */
  lemma {:induction false} TrimEndDropped(s: string, k: CharClass)
    ensures forall i :: |TrimEndBy(s, k)| <= i < |s| ==> InClass(k, s[i])
  {
    if s != [] && InClass(k, s[|s| - 1]) {
      TrimEndDropped(s[..|s| - 1], k);
      forall i | |TrimEndBy(s, k)| <= i < |s| - 1 ensures InClass(k, s[i]) {
        assert s[i] == s[..|s| - 1][i];
      }
    }
  }

  /** The length of the longest prefix of `s` made of class-`k` characters. */
  function LeadingCount(s: string, k: CharClass): (n: nat)
    ensures n <= |s|
    ensures 0 < n ==> InClass(k, s[0])
    ensures n < |s| ==> !InClass(k, s[n])
  {
    if s == [] || !InClass(k, s[0]) then 0 else 1 + LeadingCount(s[1..], k)
  }

  /** Every character `LeadingCount` counts is of class `k`. */
  lemma {:induction false} LeadingCountAll(s: string, k: CharClass)
    ensures forall i :: 0 <= i < LeadingCount(s, k) ==> InClass(k, s[i])
  {
    if s != [] && InClass(k, s[0]) {
      LeadingCountAll(s[1..], k);
      forall i | 1 <= i < LeadingCount(s, k) ensures InClass(k, s[i]) {
        assert s[i] == s[1..][i - 1];
      }
    }
  }

  /** JavaScript `String.prototype.trim`. */
  function Trim(s: string): (r: string)
    ensures r == [] || (!IsJsSpace(r[0]) && !IsJsSpace(r[|r| - 1]))
    ensures |r| <= |s|
  {
    TrimEndBy(TrimStartBy(s, JsSpace), JsSpace)
  }

  /** An occurrence in what `TrimStartBy` leaves is one in the whole,
      shifted by what was dropped. */
  lemma TrimStartOccurs(s: string, k: CharClass, p: string, m: int)
    requires OccursAt(TrimStartBy(s, k), p, m)
    ensures OccursAt(s, p, |s| - |TrimStartBy(s, k)| + m)
  {
    var r := TrimStartBy(s, k);
    forall j | 0 <= j < |p| ensures s[|s| - |r| + m + j] == p[j] {
      assert r[m + j] == s[|s| - |r| + (m + j)];
    }
  }

  /** An occurrence in what `TrimEndBy` leaves is one in the whole. */
  lemma TrimEndOccurs(s: string, k: CharClass, p: string, m: int)
    requires OccursAt(TrimEndBy(s, k), p, m)
    ensures OccursAt(s, p, m)
  {
    var r := TrimEndBy(s, k);
    forall j | 0 <= j < |p| ensures s[m + j] == p[j] {
      assert r[m + j] == s[m + j];
    }
  }

  /** Trimming finds no text the untrimmed string lacks. */
  lemma TrimContains(s: string, p: string)
    requires Contains(Trim(s), p)
    ensures Contains(s, p)
  {
    var a := TrimStartBy(s, JsSpace);
    var m :| OccursAt(TrimEndBy(a, JsSpace), p, m);
    TrimEndOccurs(a, JsSpace, p, m);
    TrimStartOccurs(s, JsSpace, p, m);
  }

  /** Python `str.strip()` with no argument. */
  function Strip(s: string): (r: string)
    ensures r == [] || (!IsPySpace(r[0]) && !IsPySpace(r[|r| - 1]))
  {
    TrimEndBy(TrimStartBy(s, PySpace), PySpace)
  }

  /** Trimming class `k` from both ends leaves nothing exactly when every
      character is of class `k`. */
  lemma TrimBothEmpty(s: string, k: CharClass)
    ensures TrimEndBy(TrimStartBy(s, k), k) == [] <==> forall i :: 0 <= i < |s| ==> InClass(k, s[i])
  {
    TrimStartDropped(s, k);
    TrimEndDropped(TrimStartBy(s, k), k);
  }

  /** `strip()` returns the empty string exactly when every character is whitespace. */
  lemma StripEmpty(s: string)
    ensures Strip(s) == [] <==> forall i :: 0 <= i < |s| ==> IsPySpace(s[i])
  {
    TrimBothEmpty(s, PySpace);
  }

  /** `trim()` returns the empty string exactly when every character is whitespace. */
  lemma TrimEmpty(s: string)
    ensures Trim(s) == [] <==> forall i :: 0 <= i < |s| ==> IsJsSpace(s[i])
  {
    TrimBothEmpty(s, JsSpace);
  }

  /** A string without surrounding whitespace is its own trim. */
  lemma TrimIdentity(s: string)
    requires s == [] || (!IsJsSpace(s[0]) && !IsJsSpace(s[|s| - 1]))
    ensures Trim(s) == s
  {
    assert TrimStartBy(s, JsSpace) == s;
    assert TrimEndBy(s, JsSpace) == s;
  }

  predicate StartsWith(s: string, p: string)
  {
    |p| <= |s| && s[..|p|] == p
  }

  /** `p` occurs in `s` starting at index `i`. */
  predicate OccursAt(s: string, p: string, i: int)
  {
    0 <= i && i + |p| <= |s| && forall j :: 0 <= j < |p| ==> s[i + j] == p[j]
  }

  /** The leftmost occurrence of `p` in `s` at or after index `i`. */
  function FindFrom(s: string, p: string, i: nat): (r: Option<nat>)
    ensures r.Some? ==> i <= r.value && OccursAt(s, p, r.value)
    ensures r.Some? ==> forall k :: i <= k < r.value ==> !OccursAt(s, p, k)
    ensures r.None? ==> forall k :: i <= k ==> !OccursAt(s, p, k)
    decreases |s| - i
  {
    if i + |p| > |s| then None
    else if OccursAt(s, p, i) then Some(i)
    else FindFrom(s, p, i + 1)
  }

  /** The search stops at the first occurrence. */
  lemma FindFromFirst(s: string, p: string, i: nat, k: nat)
    requires i <= k && OccursAt(s, p, k)
    requires forall m :: i <= m < k ==> !OccursAt(s, p, m)
    ensures FindFrom(s, p, i) == Some(k)
  {
  }

  /** JavaScript `includes` and Python `in` on strings. */
  function Contains(s: string, p: string): (r: bool)
    ensures r <==> exists i :: OccursAt(s, p, i)
  {
    FindFrom(s, p, 0).Some?
  }

  /** An occurrence of `p` at `k` cuts `s` into the text before it, `p`
      and the text after it. */
  lemma OccursSplit(s: string, p: string, k: nat)
    requires OccursAt(s, p, k)
    ensures s == s[..k] + p + s[k + |p|..]
  {
    var t := s[..k] + p + s[k + |p|..];
    forall j | 0 <= j < |s| ensures s[j] == t[j] {
      if k <= j < k + |p| {
        assert s[k + (j - k)] == p[j - k];
      }
    }
  }

  /** An occurrence inside a prefix is an occurrence in the whole string. */
  lemma OccursInPrefix(s: string, p: string, n: nat, m: int)
    requires n <= |s| && OccursAt(s[..n], p, m)
    ensures OccursAt(s, p, m)
  {
    forall j | 0 <= j < |p| ensures s[m + j] == p[j] {
      assert s[..n][m + j] == p[j];
    }
  }

  /** JavaScript `split` and Python `split` with a literal, non-empty
      separator: cut at the leftmost occurrence, then split the rest, so
      occurrences are taken left to right without overlap. */
  function SplitOn(s: string, sep: string): (parts: seq<string>)
    requires sep != []
    ensures |parts| >= 1
    decreases |s|
  {
    match FindFrom(s, sep, 0)
    case None => [s]
    case Some(k) => [s[..k]] + SplitOn(s[k + |sep|..], sep)
  }

  /** JavaScript `Array.prototype.join`. */
  function Join(parts: seq<string>, sep: string): string
  {
    if parts == [] then []
    else if |parts| == 1 then parts[0]
    else parts[0] + sep + Join(parts[1..], sep)
  }

  lemma JoinCons(p: string, ps: seq<string>, sep: string)
    requires ps != []
    ensures Join([p] + ps, sep) == p + sep + Join(ps, sep)
  {
    assert ([p] + ps)[1..] == ps;
  }

  /** Joining the parts of a split with the same separator gives the string back. */
  lemma {:induction false} JoinSplit(s: string, sep: string)
    requires sep != []
    ensures Join(SplitOn(s, sep), sep) == s
    decreases |s|
  {
    match FindFrom(s, sep, 0)
    case None =>
    case Some(k) =>
      var rest := s[k + |sep|..];
      JoinSplit(rest, sep);
      JoinCons(s[..k], SplitOn(rest, sep), sep);
      OccursSplit(s, sep, k);
  }

  /** No part of a split contains the separator. */
  lemma {:induction false} SplitPartsFree(s: string, sep: string)
    requires sep != []
    ensures forall j :: 0 <= j < |SplitOn(s, sep)| ==> !Contains(SplitOn(s, sep)[j], sep)
    decreases |s|
  {
    var parts := SplitOn(s, sep);
    match FindFrom(s, sep, 0)
    case None =>
    case Some(k) =>
      var rest := s[k + |sep|..];
      SplitPartsFree(rest, sep);
      forall m | OccursAt(s[..k], sep, m) ensures false {
        OccursInPrefix(s, sep, k, m);
      }
      forall j | 0 <= j < |parts| ensures !Contains(parts[j], sep) {
        if j > 0 {
          assert parts[j] == SplitOn(rest, sep)[j - 1];
        }
      }
  }

  /** A string without the separator splits into itself alone. */
  lemma SplitNoSep(s: string, sep: string)
    requires sep != [] && !Contains(s, sep)
    ensures SplitOn(s, sep) == [s]
  {
  }

  /** Splitting `a + sep + b` where no occurrence of the separator starts
      inside `a` yields `a` and the parts of `b`. */
  lemma SplitCons(a: string, b: string, sep: string)
    requires sep != []
    requires forall k :: 0 <= k < |a| ==> !OccursAt(a + sep + b, sep, k)
    ensures SplitOn(a + sep + b, sep) == [a] + SplitOn(b, sep)
  {
    var s := a + sep + b;
    forall j | 0 <= j < |sep| ensures s[|a| + j] == sep[j] {
    }
    assert OccursAt(s, sep, |a|);
    var f := FindFrom(s, sep, 0);
    assert f == Some(|a|);
    assert s[..|a|] == a;
    assert s[|a| + |sep|..] == b;
  }

  /** The single-character case of `SplitCons`, used for lines. */
  lemma SplitConsChar(a: string, b: string, c: char)
    requires c !in a
    ensures SplitOn(a + [c] + b, [c]) == [a] + SplitOn(b, [c])
  {
    forall k | 0 <= k < |a| ensures !OccursAt(a + [c] + b, [c], k) {
      assert (a + [c] + b)[k + 0] == a[k] && a[k] != c && [c][0] == c;
    }
    SplitCons(a, b, [c]);
  }

  /** A one-character separator occurs exactly when the character does. */
  lemma ContainsChar(s: string, c: char)
    ensures Contains(s, [c]) <==> c in s
  {
    if c in s {
      var i :| 0 <= i < |s| && s[i] == c;
      assert OccursAt(s, [c], i);
    }
    if Contains(s, [c]) {
      var i :| OccursAt(s, [c], i);
      assert s[i + 0] == [c][0];
      assert s[i] in s;
    }
  }

  /** Joining cuts anywhere between two parts. */
  lemma {:induction false} JoinSplitAt(ps: seq<string>, sep: string, k: nat)
    requires 0 < k < |ps|
    ensures Join(ps, sep) == Join(ps[..k], sep) + sep + Join(ps[k..], sep)
  {
    assert ps == [ps[0]] + ps[1..];
    JoinCons(ps[0], ps[1..], sep);
    if k == 1 {
      assert ps[..1] == [ps[0]];
    } else {
      var t := ps[1..];
      JoinSplitAt(t, sep, k - 1);
      assert t[..k - 1] == ps[..k][1..] && t[k - 1..] == ps[k..];
      assert ps[..k] == [ps[0]] + ps[..k][1..];
      JoinCons(ps[0], ps[..k][1..], sep);
    }
  }

  /** Splitting a join on a character none of the parts holds gives the parts back. */
  lemma {:induction false} SplitJoinChar(qs: seq<string>, c: char)
    requires |qs| >= 1 && forall j :: 0 <= j < |qs| ==> c !in qs[j]
    ensures SplitOn(Join(qs, [c]), [c]) == qs
  {
    if |qs| == 1 {
      ContainsChar(qs[0], c);
      SplitNoSep(qs[0], [c]);
    } else {
      var rest := qs[1..];
      forall j | 0 <= j < |rest| ensures c !in rest[j] {
        assert rest[j] == qs[j + 1];
      }
      SplitJoinChar(rest, c);
      assert qs == [qs[0]] + rest;
      JoinCons(qs[0], rest, [c]);
      assert c !in qs[0];
      SplitConsChar(qs[0], Join(rest, [c]), c);
    }
  }

  /** Python `str.lower()` restricted to ASCII letters. */
  function LowerChar(c: char): (r: char)
    ensures 'A' <= c <= 'Z' ==> r as int == c as int + 32
    ensures !('A' <= c <= 'Z') ==> r == c
  {
    if 'A' <= c <= 'Z' then (c as int + 32) as char else c
  }

  function Lower(s: string): (r: string)
    ensures |r| == |s|
    ensures forall i :: 0 <= i < |s| ==> r[i] == LowerChar(s[i])
  {
    if s == [] then [] else [LowerChar(s[0])] + Lower(s[1..])
  }

  function DigitChar(d: nat): (c: char)
    requires d < 10
    ensures '0' <= c <= '9'
  {
    ('0' as int + d) as char
  }

  /** JavaScript's rendering of a non-negative integer in a template literal. */
  function NatToString(n: nat): (r: string)
    ensures |r| >= 1
    ensures forall i :: 0 <= i < |r| ==> '0' <= r[i] <= '9'
    ensures |r| > 1 ==> r[0] != '0'
  {
    if n < 10 then [DigitChar(n)] else NatToString(n / 10) + [DigitChar(n % 10)]
  }

  predicate AllDigits(s: string)
  {
    forall i :: 0 <= i < |s| ==> '0' <= s[i] <= '9'
  }

  /** The value of a string of decimal digits. */
  function ParseNat(s: string): nat
    requires AllDigits(s)
  {
    if s == [] then 0 else ParseNat(s[..|s| - 1]) * 10 + (s[|s| - 1] as int - '0' as int)
  }

  /** Reading back a rendered number gives the number. */
  lemma {:induction false} ParseNatToString(n: nat)
    ensures AllDigits(NatToString(n))
    ensures ParseNat(NatToString(n)) == n
  {
    var r := NatToString(n);
    if n >= 10 {
      ParseNatToString(n / 10);
      assert r[..|r| - 1] == NatToString(n / 10);
    }
  }
}
