/** `escapeHtml` of the browser client: the five markup-significant
    characters become character references, everything else is copied. */
module Escape {
  import opened Text

  /** The characters `escapeHtml` rewrites. */
  predicate IsSpecial(c: char)
  {
    c == '&' || c == '<' || c == '>' || c == '"' || c == '\''
  }

  /** The replacement table of `escapeHtml`. */
  function EscapeChar(c: char): (r: string)
    ensures IsSpecial(c) ==> |r| >= 4 && r[0] == '&'
    ensures !IsSpecial(c) ==> r == [c]
  {
    match c
    case '&' => "&amp;"
    case '<' => "&lt;"
    case '>' => "&gt;"
    case '"' => "&quot;"
    case '\'' => "&#039;"
    case _ => [c]
  }

  /** `escapeHtml(text)`: every occurrence of `&<>"'` replaced by its reference. */
  function EscapeHtml(s: string): (r: string)
    ensures |r| >= |s|
    ensures forall i :: 0 <= i < |r| ==> r[i] != '<' && r[i] != '>' && r[i] != '"' && r[i] != '\''
  {
    if s == [] then [] else EscapeChar(s[0]) + EscapeHtml(s[1..])
  }

  /** The five references `escapeHtml` produces. */
  predicate StartsEntity(s: string)
  {
    StartsWith(s, "&amp;") || StartsWith(s, "&lt;") || StartsWith(s, "&gt;")
    || StartsWith(s, "&quot;") || StartsWith(s, "&#039;")
  }

  /** The inverse mapping: decodes exactly the five references `escapeHtml` emits. */
  function Unescape(s: string): (r: string)
    ensures |r| <= |s|
    decreases |s|
  {
    if s == [] then []
    else if s[0] != '&' then [s[0]] + Unescape(s[1..])
    else if StartsWith(s, "&amp;") then "&" + Unescape(s[5..])
    else if StartsWith(s, "&lt;") then "<" + Unescape(s[4..])
    else if StartsWith(s, "&gt;") then ">" + Unescape(s[4..])
    else if StartsWith(s, "&quot;") then "\"" + Unescape(s[6..])
    else if StartsWith(s, "&#039;") then "'" + Unescape(s[6..])
    else [s[0]] + Unescape(s[1..])
  }

  lemma UnescapeStep(c: char, t: string)
    ensures Unescape(EscapeChar(c) + t) == [c] + Unescape(t)
  {
    var e := EscapeChar(c) + t;
    if IsSpecial(c) {
      var k := |EscapeChar(c)|;
      assert e[..k] == EscapeChar(c) && e[k..] == t;
      assert e[1] == EscapeChar(c)[1];
      assert StartsWith(e, "&amp;") ==> e[1] == 'a';
      assert StartsWith(e, "&lt;") ==> e[1] == 'l';
      assert StartsWith(e, "&gt;") ==> e[1] == 'g';
      assert StartsWith(e, "&quot;") ==> e[1] == 'q';
    } else {
      assert e[0] == c && e[1..] == t;
    }
  }

  /** Unescaping the output of `escapeHtml` gives back its input. */
  lemma {:induction false} UnescapeEscape(s: string)
    ensures Unescape(EscapeHtml(s)) == s
  {
    if s != [] {
      UnescapeStep(s[0], EscapeHtml(s[1..]));
      UnescapeEscape(s[1..]);
    }
  }

  /** A string free of the five special characters is returned unchanged. */
  lemma {:induction false} EscapeClean(s: string)
    requires forall i :: 0 <= i < |s| ==> !IsSpecial(s[i])
    ensures EscapeHtml(s) == s
  {
    if s != [] {
      EscapeClean(s[1..]);
    }
  }

  /** Every `&` in the output of `escapeHtml` begins one of the five references. */
  lemma {:induction false} EscapeAmpersands(s: string)
    ensures forall i :: 0 <= i < |EscapeHtml(s)| && EscapeHtml(s)[i] == '&' ==> StartsEntity(EscapeHtml(s)[i..])
  {
    if s != [] {
      EscapeAmpersands(s[1..]);
      var e, t := EscapeChar(s[0]), EscapeHtml(s[1..]);
      var r := e + t;
      forall i | 0 <= i < |r| && r[i] == '&' ensures StartsEntity(r[i..]) {
        if i < |e| {
          assert i == 0;
          assert r[..|e|] == e;
        } else {
          assert r[i..] == t[i - |e|..];
        }
      }
    }
  }

  lemma HeadTail(a: string, b: string)
    requires a != []
    ensures (a + b)[0] == a[0] && (a + b)[1..] == a[1..] + b
  {
  }

  lemma Regroup(x: string, y: string, z: string)
    ensures x + (y + z) == (x + y) + z
  {
  }

  /** Escaping distributes over concatenation. */
  lemma {:induction false} EscapeAppend(a: string, b: string)
    ensures EscapeHtml(a + b) == EscapeHtml(a) + EscapeHtml(b)
  {
    if a == [] {
      assert a + b == b;
    } else {
      HeadTail(a, b);
      EscapeAppend(a[1..], b);
      Regroup(EscapeChar(a[0]), EscapeHtml(a[1..]), EscapeHtml(b));
    }
  }
}
