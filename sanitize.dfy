/** The registration form's `sanitizeInput`: trim, HTML-escape `& < > " '`
    (ampersand first), then delete backslashes. */
module Sanitize {

  // ---------------------------------------------------------------------------
  // String.prototype.trim
  // ---------------------------------------------------------------------------

  /** The characters ECMAScript's `trim` removes: WhiteSpace (tab, vertical tab,
      form feed, space, no-break space, zero-width no-break space and the
      other Space_Separator code points) and LineTerminator (LF, CR, U+2028, U+2029). */
  predicate IsSpace(c: char)
  {
    var n := c as int;
    n == 0x09 || n == 0x0A || n == 0x0B || n == 0x0C || n == 0x0D || n == 0x20 ||
    n == 0xA0 || n == 0x1680 || (0x2000 <= n <= 0x200A) || n == 0x2028 || n == 0x2029 ||
    n == 0x202F || n == 0x205F || n == 0x3000 || n == 0xFEFF
  }

  /** Drops the leading white space: what is left is a suffix of `s`. */
  function TrimStart(s: string): (r: string)
    ensures |r| <= |s| && r == s[|s| - |r|..]
    ensures forall i :: 0 <= i < |s| - |r| ==> IsSpace(s[i])
    ensures r != [] ==> !IsSpace(r[0])
  {
    if s != [] && IsSpace(s[0]) then TrimStart(s[1..]) else s
  }

  /** Drops the trailing white space: what is left is a prefix of `s`. */
  function TrimEnd(s: string): (r: string)
    ensures |r| <= |s| && r == s[..|r|]
    ensures forall i :: |r| <= i < |s| ==> IsSpace(s[i])
    ensures r != [] ==> !IsSpace(r[|r| - 1])
  {
    if s != [] && IsSpace(s[|s| - 1]) then TrimEnd(s[..|s| - 1]) else s
  }

  /** Every character of `t` is white space. */
  predicate AllSpace(t: string)
  {
    forall i :: 0 <= i < |t| ==> IsSpace(t[i])
  }

  /** The two trims leave a slice of `s` whose prefix before it and whose
      tail after it are white space. */
  lemma TrimEndsAreSpace(s: string, e: string, r: string)
    requires e == TrimEnd(s) && r == TrimStart(e)
    ensures AllSpace(s[..|e| - |r|]) && r <= s[|e| - |r|..] && AllSpace(s[|e| - |r|..][|r|..])
  {
    var lo := |e| - |r|;
    forall i | 0 <= i < lo
      ensures IsSpace(s[..lo][i])
    {
      assert s[..lo][i] == e[i];
    }
    assert r == s[lo..|e|];
    forall i | 0 <= i < |s[lo..][|r|..]|
      ensures IsSpace(s[lo..][|r|..][i])
    {
      assert s[lo..][|r|..][i] == s[|e| + i];
    }
  }

  /** `input.trim()`: what remains of `s` once the white space at both ends is
      removed, a slice of `s` between two runs of white space. */
  function Trim(s: string): (r: string)
    ensures exists lo :: 0 <= lo <= |s| && AllSpace(s[..lo]) && r <= s[lo..] && AllSpace(s[lo..][|r|..])
    ensures r != [] ==> !IsSpace(r[0]) && !IsSpace(r[|r| - 1])
  {
    var e := TrimEnd(s);
    var r := TrimStart(e);
    TrimEndsAreSpace(s, e, r);
    r
  }

  // ---------------------------------------------------------------------------
  // String.prototype.replace with a one-character global pattern
  // ---------------------------------------------------------------------------

  /** `s.replace(/c/g, rep)`: every occurrence of `c` becomes `rep`, every other
      character is kept, in order. */
  function ReplaceAll(s: string, c: char, rep: string): string
  {
    if s == [] then [] else (if s[0] == c then rep else [s[0]]) + ReplaceAll(s[1..], c, rep)
  }

  /** Replacing a character commutes with concatenation. */
  lemma {:induction false} ReplaceAllAppend(a: string, b: string, c: char, rep: string)
    ensures ReplaceAll(a + b, c, rep) == ReplaceAll(a, c, rep) + ReplaceAll(b, c, rep)
  {
    if a == [] {
      assert a + b == b;
    } else {
      assert (a + b)[0] == a[0];
      assert (a + b)[1..] == a[1..] + b;
      ReplaceAllAppend(a[1..], b, c, rep);
    }
  }

  // ---------------------------------------------------------------------------
  // sanitizeInput as written
  // ---------------------------------------------------------------------------

  /** The replacement chain after the trim, stage by stage in the source's order. */
  function EscapeChain(t: string): string
  {
    var amp := ReplaceAll(t, '&', "&amp;");
    var lt := ReplaceAll(amp, '<', "&lt;");
    var gt := ReplaceAll(lt, '>', "&gt;");
    var quot := ReplaceAll(gt, '"', "&quot;");
    var apos := ReplaceAll(quot, '\'', "&#039;");
    ReplaceAll(apos, '\\', "")
  }

  /** `sanitizeInput(input)`. */
  function SanitizeInput(input: string): string
  {
    EscapeChain(Trim(input))
  }

  // ---------------------------------------------------------------------------
  // The per-character reading of the chain
  // ---------------------------------------------------------------------------

  /** The five characters that are escaped as HTML entities. */
  predicate IsEscaped(c: char)
  {
    c == '&' || c == '<' || c == '>' || c == '"' || c == '\''
  }

  /** What the chain does to one character. */
  function EscapeChar(c: char): (e: string)
    ensures c == '\\' <==> e == ""
    ensures !IsEscaped(c) && c != '\\' ==> e == [c]
  {
    match c
    case '&' => "&amp;"
    case '<' => "&lt;"
    case '>' => "&gt;"
    case '"' => "&quot;"
    case '\'' => "&#039;"
    case '\\' => ""
    case _ => [c]
  }

  /** The concatenation of `EscapeChar` over `t`, in order. */
  function EscapeMap(t: string): (r: string)
    ensures |r| <= 6 * |t|
  {
    if t == [] then [] else EscapeChar(t[0]) + EscapeMap(t[1..])
  }

  /** The chain distributes over concatenation, because each of its stages does. */
  lemma EscapeChainAppend(a: string, b: string)
    ensures EscapeChain(a + b) == EscapeChain(a) + EscapeChain(b)
  {
    var a1, b1 := ReplaceAll(a, '&', "&amp;"), ReplaceAll(b, '&', "&amp;");
    ReplaceAllAppend(a, b, '&', "&amp;");
    var a2, b2 := ReplaceAll(a1, '<', "&lt;"), ReplaceAll(b1, '<', "&lt;");
    ReplaceAllAppend(a1, b1, '<', "&lt;");
    var a3, b3 := ReplaceAll(a2, '>', "&gt;"), ReplaceAll(b2, '>', "&gt;");
    ReplaceAllAppend(a2, b2, '>', "&gt;");
    var a4, b4 := ReplaceAll(a3, '"', "&quot;"), ReplaceAll(b3, '"', "&quot;");
    ReplaceAllAppend(a3, b3, '"', "&quot;");
    var a5, b5 := ReplaceAll(a4, '\'', "&#039;"), ReplaceAll(b4, '\'', "&#039;");
    ReplaceAllAppend(a4, b4, '\'', "&#039;");
    ReplaceAllAppend(a5, b5, '\\', "");
  }

  /** Replacing in a one-character string. */
  lemma ReplaceAllChar(x: char, c: char, rep: string)
    ensures ReplaceAll([x], c, rep) == if x == c then rep else [x]
  {
    assert [x][1..] == [];
  }

  /** Replacing a character that does not occur changes nothing. */
  lemma {:induction false} ReplaceAllAbsent(s: string, c: char, rep: string)
    requires c !in s
    ensures ReplaceAll(s, c, rep) == s
  {
    if s != [] {
      assert s == [s[0]] + s[1..];
      ReplaceAllAbsent(s[1..], c, rep);
    }
  }

  /** The stages after the first one leave `e` alone when it holds none of the
      characters they replace. */
  lemma LaterStagesKeep(e: string, from: nat)
    requires from <= 5
    requires from <= 1 ==> '<' !in e
    requires from <= 2 ==> '>' !in e
    requires from <= 3 ==> '"' !in e
    requires from <= 4 ==> '\'' !in e
    requires '\\' !in e
    ensures from <= 1 ==> ReplaceAll(e, '<', "&lt;") == e
    ensures from <= 2 ==> ReplaceAll(e, '>', "&gt;") == e
    ensures from <= 3 ==> ReplaceAll(e, '"', "&quot;") == e
    ensures from <= 4 ==> ReplaceAll(e, '\'', "&#039;") == e
    ensures ReplaceAll(e, '\\', "") == e
  {
    if from <= 1 { ReplaceAllAbsent(e, '<', "&lt;"); }
    if from <= 2 { ReplaceAllAbsent(e, '>', "&gt;"); }
    if from <= 3 { ReplaceAllAbsent(e, '"', "&quot;"); }
    if from <= 4 { ReplaceAllAbsent(e, '\'', "&#039;"); }
    ReplaceAllAbsent(e, '\\', "");
  }

  /** On a single character the chain is `EscapeChar`: the entities that the early
      stages introduce contain none of the characters the later stages replace. */
  lemma EscapeChainChar(c: char)
    ensures EscapeChain([c]) == EscapeChar(c)
  {
    var e := EscapeChar(c);
    ReplaceAllChar(c, '&', "&amp;");
    if c == '&' {
      LaterStagesKeep(e, 1);
    } else {
      ReplaceAllChar(c, '<', "&lt;");
      if c == '<' {
        LaterStagesKeep(e, 2);
      } else {
        ReplaceAllChar(c, '>', "&gt;");
        if c == '>' {
          LaterStagesKeep(e, 3);
        } else {
          ReplaceAllChar(c, '"', "&quot;");
          if c == '"' {
            LaterStagesKeep(e, 4);
          } else {
            ReplaceAllChar(c, '\'', "&#039;");
            if c == '\'' {
              LaterStagesKeep(e, 5);
            } else {
              ReplaceAllChar(c, '\\', "");
            }
          }
        }
      }
    }
  }

  /** The chain is the per-character map. */
  lemma {:induction false} EscapeChainIsMap(t: string)
    ensures EscapeChain(t) == EscapeMap(t)
  {
    if t != [] {
      assert t == [t[0]] + t[1..];
      EscapeChainAppend([t[0]], t[1..]);
      EscapeChainChar(t[0]);
      EscapeChainIsMap(t[1..]);
    }
  }

  /** `sanitizeInput(s)` is the per-character escape map over `trim(s)`. */
  lemma SanitizeIsEscapeMap(input: string)
    ensures SanitizeInput(input) == EscapeMap(Trim(input))
  {
    EscapeChainIsMap(Trim(input));
  }

  // ---------------------------------------------------------------------------
  // What can appear in the output
  // ---------------------------------------------------------------------------

  /** No markup-significant character and no backslash. */
  predicate MarkupFree(r: string)
  {
    forall i :: 0 <= i < |r| ==> r[i] !in "<>\"'\\"
  }

  /** `t` begins with one of the five entities the sanitiser emits. */
  predicate StartsEntity(t: string)
  {
    "&amp;" <= t || "&lt;" <= t || "&gt;" <= t || "&quot;" <= t || "&#039;" <= t
  }

  /** Every `&` of `r` is the start of an entity. */
  predicate AmpersandsEscaped(r: string)
  {
    forall i :: 0 <= i < |r| && r[i] == '&' ==> StartsEntity(r[i..])
  }

  lemma {:induction false} EscapeMapMarkupFree(t: string)
    ensures MarkupFree(EscapeMap(t))
  {
    if t != [] {
      EscapeMapMarkupFree(t[1..]);
      var e, rest := EscapeChar(t[0]), EscapeMap(t[1..]);
      assert MarkupFree(e);
      forall i | 0 <= i < |e + rest| ensures (e + rest)[i] !in "<>\"'\\" {
        if i >= |e| { assert (e + rest)[i] == rest[i - |e|]; }
      }
    }
  }

  lemma {:induction false} EscapeMapAmpersandsEscaped(t: string)
    ensures AmpersandsEscaped(EscapeMap(t))
  {
    if t != [] {
      EscapeMapAmpersandsEscaped(t[1..]);
      var e, rest := EscapeChar(t[0]), EscapeMap(t[1..]);
      var r := e + rest;
      forall i | 0 <= i < |r| && r[i] == '&' ensures StartsEntity(r[i..]) {
        if i < |e| {
          assert i == 0 && e[0] == '&';
          assert e <= r;
        } else {
          assert r[i] == rest[i - |e|];
          assert r[i..] == rest[i - |e|..];
        }
      }
    }
  }

  /** The sanitiser's output never holds `<`, `>`, `"`, `'` or `\`. */
  lemma SanitizedIsMarkupFree(input: string)
    ensures MarkupFree(SanitizeInput(input))
  {
    SanitizeIsEscapeMap(input);
    EscapeMapMarkupFree(Trim(input));
  }

  /** Every `&` in the sanitiser's output starts `&amp;`, `&lt;`, `&gt;`, `&quot;`
      or `&#039;`. */
  lemma SanitizedAmpersandsEscaped(input: string)
    ensures AmpersandsEscaped(SanitizeInput(input))
  {
    SanitizeIsEscapeMap(input);
    EscapeMapAmpersandsEscaped(Trim(input));
  }

  // ---------------------------------------------------------------------------
  // Decoding: the escaping loses only the backslashes
  // ---------------------------------------------------------------------------

  /** An HTML decoder for exactly the five entities above. */
  function Unescape(t: string): (r: string)
    ensures |r| <= |t|
  {
    if t == [] then []
    else if "&amp;" <= t then "&" + Unescape(t[5..])
    else if "&lt;" <= t then "<" + Unescape(t[4..])
    else if "&gt;" <= t then ">" + Unescape(t[4..])
    else if "&quot;" <= t then "\"" + Unescape(t[6..])
    else if "&#039;" <= t then "'" + Unescape(t[6..])
    else [t[0]] + Unescape(t[1..])
  }

  /** Replacing a character by nothing deletes every occurrence of it and
      never lengthens the string. */
  lemma {:induction false} ReplaceAllDeletes(s: string, c: char)
    ensures c !in ReplaceAll(s, c, "") && |ReplaceAll(s, c, "")| <= |s|
  {
    if s != [] {
      ReplaceAllDeletes(s[1..], c);
    }
  }

  /** `t` with every backslash deleted: the last stage of the chain. */
  function DropBackslashes(t: string): (r: string)
    ensures '\\' !in r
    ensures |r| <= |t|
  {
    ReplaceAllDeletes(t, '\\');
    ReplaceAll(t, '\\', "")
  }

  lemma UnescapeEntity(c: char, rest: string)
    requires IsEscaped(c)
    ensures Unescape(EscapeChar(c) + rest) == [c] + Unescape(rest)
  {
    var e := EscapeChar(c);
    var t := e + rest;
    assert e <= t && t[|e|..] == rest;
    if c == '&' {
      assert "&amp;" <= t;
    } else if c == '<' {
      assert t[1] == 'l' && !("&amp;" <= t);
    } else if c == '>' {
      assert t[1] == 'g' && !("&amp;" <= t) && !("&lt;" <= t);
    } else if c == '"' {
      assert t[1] == 'q' && !("&amp;" <= t) && !("&lt;" <= t) && !("&gt;" <= t);
    } else {
      assert t[1] == '#' && !("&amp;" <= t) && !("&lt;" <= t) && !("&gt;" <= t) && !("&quot;" <= t);
    }
  }

  lemma UnescapePlain(c: char, rest: string)
    requires c != '&'
    ensures Unescape([c] + rest) == [c] + Unescape(rest)
  {
    var t := [c] + rest;
    assert t[0] == c && t[1..] == rest;
    assert !StartsEntity(t);
  }

  lemma {:induction false} UnescapeEscapeMap(t: string)
    ensures Unescape(EscapeMap(t)) == DropBackslashes(t)
  {
    if t != [] {
      var c, rest := t[0], EscapeMap(t[1..]);
      assert EscapeMap(t) == EscapeChar(c) + rest;
      assert DropBackslashes(t) == (if c == '\\' then [] else [c]) + DropBackslashes(t[1..]);
      UnescapeEscapeMap(t[1..]);
      if IsEscaped(c) {
        UnescapeEntity(c, rest);
      } else if c != '\\' {
        UnescapePlain(c, rest);
      } else {
        assert EscapeChar(c) + rest == rest;
      }
    }
  }

  /** Decoding the sanitiser's output gives back the trimmed input less its
      backslashes: escaping loses nothing else. */
  lemma SanitizeRoundTrip(input: string)
    ensures Unescape(SanitizeInput(input)) == DropBackslashes(Trim(input))
  {
    SanitizeIsEscapeMap(input);
    UnescapeEscapeMap(Trim(input));
  }
}
