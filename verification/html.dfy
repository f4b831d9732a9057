/**
 * `escapeHtml` (script.js): every `&`, `<`, `>`, `"` and `'` of the text is replaced by
 * its character reference, every other character is kept in place, and a falsy
 * argument gives the empty string. The regular-expression replace of the script is
 * written here as a per-character map over the string.
 */
module Html {
  import opened Js

  /** The characters `escapeHtml` replaces. */
  predicate IsSpecial(c: char)
  {
    c == '&' || c == '<' || c == '>' || c == '"' || c == '\''
  }

  /** The characters that would open a tag or close an attribute value. */
  predicate IsMarkup(c: char)
  {
    c == '<' || c == '>' || c == '"' || c == '\''
  }

  /** `s` holds none of the characters `escapeHtml` replaces. */
  predicate SpecialFree(s: string)
  {
    forall i | 0 <= i < |s| :: !IsSpecial(s[i])
  }

  /** No character of `s` can open a tag or end a quoted attribute. */
  predicate MarkupFree(s: string)
  {
    forall i | 0 <= i < |s| :: !IsMarkup(s[i])
  }

  /** The replacement of one character. */
  function EscapeChar(c: char): (r: string)
    ensures IsSpecial(c) ==> |r| > 1 && r[0] == '&' && r[|r| - 1] == ';'
    ensures !IsSpecial(c) ==> r == [c]
    ensures MarkupFree(r)
  {
    match c
    case '&' => "&amp;"
    case '<' => "&lt;"
    case '>' => "&gt;"
    case '"' => "&quot;"
    case '\'' => "&#39;"
    case _ => [c]
  }

  /** The replace over a whole string, character by character from the left. */
  function Escape(s: string): (r: string)
    ensures MarkupFree(r)
    ensures |r| >= |s|
  {
    if s == [] then [] else EscapeChar(s[0]) + Escape(s[1..])
  }

  /** `escapeHtml(s)`: the empty string for a falsy argument, otherwise the escaped text. */
  function EscapeHtml(s: Option<string>): (r: string)
    ensures !TruthyText(s) ==> r == ""
    ensures TruthyText(s) ==> r == Escape(s.value)
    ensures MarkupFree(r)
  {
    if !TruthyText(s) then "" else Escape(s.value)
  }

  /** Escaping distributes over concatenation. */
  lemma {:induction false} EscapeAppend(a: string, b: string)
    ensures Escape(a + b) == Escape(a) + Escape(b)
  {
    if a == [] {
      assert a + b == b;
    } else {
      var ab := a + b;
      assert ab[0] == a[0] && ab[1..] == a[1..] + b;
      EscapeAppend(a[1..], b);
    }
  }

  /** A string without special characters is left exactly as it is, and only such a string is. */
  lemma {:induction false} EscapeFixesIff(s: string)
    ensures Escape(s) == s <==> SpecialFree(s)
  {
    if s != [] {
      EscapeFixesIff(s[1..]);
      if IsSpecial(s[0]) {
        assert |Escape(s)| > |s|;
      } else if Escape(s) == s {
        assert Escape(s[1..]) == Escape(s)[1..] == s[1..];
      }
      if SpecialFree(s) {
        assert SpecialFree(s[1..]) by {
          forall i | 0 <= i < |s[1..]| ensures !IsSpecial(s[1..][i]) {
            assert s[1..][i] == s[i + 1];
          }
        }
      } else {
        var k :| 0 <= k < |s| && IsSpecial(s[k]);
        if k > 0 {
          assert IsSpecial(s[1..][k - 1]);
        }
      }
    }
  }

  /** The inverse of `Escape`: the five references are turned back into their characters. */
  function Unescape(s: string): (r: string)
    decreases |s|
  {
    if s == [] then []
    else if "&amp;" <= s then ['&'] + Unescape(s[5..])
    else if "&lt;" <= s then ['<'] + Unescape(s[4..])
    else if "&gt;" <= s then ['>'] + Unescape(s[4..])
    else if "&quot;" <= s then ['"'] + Unescape(s[6..])
    else if "&#39;" <= s then ['\''] + Unescape(s[5..])
    else [s[0]] + Unescape(s[1..])
  }

  lemma UnescapeEscapeChar(c: char, t: string)
    ensures Unescape(EscapeChar(c) + t) == [c] + Unescape(t)
  {
    var e := EscapeChar(c) + t;
    if c == '&' {
      assert "&amp;" <= e && e[5..] == t;
    } else if c == '<' {
      assert e[1] == 'l';
      assert !("&amp;" <= e) && "&lt;" <= e && e[4..] == t;
    } else if c == '>' {
      assert e[1] == 'g';
      assert !("&amp;" <= e) && !("&lt;" <= e) && "&gt;" <= e && e[4..] == t;
    } else if c == '"' {
      assert e[1] == 'q';
      assert !("&amp;" <= e) && !("&lt;" <= e) && !("&gt;" <= e);
      assert "&quot;" <= e && e[6..] == t;
    } else if c == '\'' {
      assert e[1] == '#';
      assert !("&amp;" <= e) && !("&lt;" <= e) && !("&gt;" <= e) && !("&quot;" <= e);
      assert "&#39;" <= e && e[5..] == t;
    } else {
      assert e[0] == c && e[1..] == t;
    }
  }

  /** Unescaping the escaped text gives the original text back. */
  lemma {:induction false} UnescapeEscape(s: string)
    ensures Unescape(Escape(s)) == s
  {
    if s != [] {
      UnescapeEscapeChar(s[0], Escape(s[1..]));
      UnescapeEscape(s[1..]);
    }
  }

  /** Escaping loses nothing: distinct texts give distinct markup. */
  lemma EscapeInjective(a: string, b: string)
    requires Escape(a) == Escape(b)
    ensures a == b
  {
    UnescapeEscape(a);
    UnescapeEscape(b);
  }

  /** The escaped text is free of special characters exactly when the original text is. */
  lemma {:induction false} EscapeSpecialFreeIff(s: string)
    ensures SpecialFree(Escape(s)) <==> SpecialFree(s)
  {
    EscapeFixesIff(s);
    if s != [] && SpecialFree(Escape(s)) {
      var e := Escape(s);
      assert e == EscapeChar(s[0]) + Escape(s[1..]);
      assert !IsSpecial(e[0]);
      assert SpecialFree(Escape(s[1..])) by {
        var n := |EscapeChar(s[0])|;
        forall i | 0 <= i < |Escape(s[1..])| ensures !IsSpecial(Escape(s[1..])[i]) {
          assert Escape(s[1..])[i] == e[n + i];
        }
      }
      EscapeSpecialFreeIff(s[1..]);
      forall i | 0 <= i < |s| ensures !IsSpecial(s[i]) {
        if i > 0 {
          assert s[i] == s[1..][i - 1];
        }
      }
    }
  }

  /**
   * Escaping is a single pass: escaping an already escaped text changes it again
   * unless the original text held no special character at all.
   */
  lemma EscapeTwiceIff(s: string)
    ensures Escape(Escape(s)) == Escape(s) <==> Escape(s) == s
  {
    EscapeFixesIff(Escape(s));
    EscapeFixesIff(s);
    EscapeSpecialFreeIff(s);
  }
}
