/**
 * The debug page's `escapeHTML` and its size report.
 *
 * `escapeHTML` is a chain of five global single-character replacements. It
 * is proved equal to replacing every character on its own by its character
 * reference (section 13.1.4 of the WHATWG HTML Living Standard), and from
 * that: what the output cannot contain, its exact length, and that decoding
 * the references left to right gives the input back.
 */
module HtmlEscape {

  // ---------------------------------------------------------------------------
  // `String.prototype.replace` with a global one-character pattern

  /** `s.replace(/c/g, rep)`: every `c` in `s` replaced by `rep`, left to right */
  function ReplaceAll(s: string, c: char, rep: string): (r: string)
    ensures forall x :: x in r ==> (x in s && x != c) || x in rep
    ensures c !in s ==> r == s
  {
    if s == [] then []
    else (if s[0] == c then rep else [s[0]]) + ReplaceAll(s[1..], c, rep)
  }

  /** Replacing distributes over concatenation: no occurrence spans the seam */
  lemma {:induction false} ReplaceAllAppend(a: string, b: string, c: char, rep: string)
    ensures ReplaceAll(a + b, c, rep) == ReplaceAll(a, c, rep) + ReplaceAll(b, c, rep)
  {
    if a == [] {
      assert a + b == b;
    } else {
      assert (a + b)[0] == a[0];
      assert (a + b)[1..] == a[1..] + b;
      ReplaceAllAppend(a[1..], b, c, rep);
    }
  }

  /** A one-character string is either replaced whole or left alone */
  lemma ReplaceAllSingle(x: char, c: char, rep: string)
    ensures ReplaceAll([x], c, rep) == if x == c then rep else [x]
  {
    assert [x][1..] == [];
  }

  // ---------------------------------------------------------------------------
  // The escape chain

  /** `escapeHTML`: `&` first, then `<`, `>`, `"` and `'` */
  function EscapeHtml(s: string): string {
    var amp := ReplaceAll(s, '&', "&amp;");
    var lt := ReplaceAll(amp, '<', "&lt;");
    var gt := ReplaceAll(lt, '>', "&gt;");
    var quot := ReplaceAll(gt, '"', "&quot;");
    ReplaceAll(quot, '\'', "&#39;")
  }

  /** The five characters the chain rewrites */
  predicate IsSpecial(c: char) {
    c == '&' || c == '<' || c == '>' || c == '"' || c == '\''
  }

  /** The character reference a character is replaced by, or the character itself */
  function EntityOf(c: char): (r: string)
    ensures IsSpecial(c) ==> 4 <= |r| && r[0] == '&' && '&' !in r[1..]
    ensures !IsSpecial(c) ==> r == [c]
  {
    match c
    case '&' => "&amp;"
    case '<' => "&lt;"
    case '>' => "&gt;"
    case '"' => "&quot;"
    case '\'' => "&#39;"
    case _ => [c]
  }

  /** The reference definition: every character mapped on its own, in order */
  function EscapeEach(s: string): string {
    if s == [] then [] else EntityOf(s[0]) + EscapeEach(s[1..])
  }

  lemma EscapeAppend(a: string, b: string)
    ensures EscapeHtml(a + b) == EscapeHtml(a) + EscapeHtml(b)
  {
    ReplaceAllAppend(a, b, '&', "&amp;");
    var a1, b1 := ReplaceAll(a, '&', "&amp;"), ReplaceAll(b, '&', "&amp;");
    ReplaceAllAppend(a1, b1, '<', "&lt;");
    var a2, b2 := ReplaceAll(a1, '<', "&lt;"), ReplaceAll(b1, '<', "&lt;");
    ReplaceAllAppend(a2, b2, '>', "&gt;");
    var a3, b3 := ReplaceAll(a2, '>', "&gt;"), ReplaceAll(b2, '>', "&gt;");
    ReplaceAllAppend(a3, b3, '"', "&quot;");
    var a4, b4 := ReplaceAll(a3, '"', "&quot;"), ReplaceAll(b3, '"', "&quot;");
    ReplaceAllAppend(a4, b4, '\'', "&#39;");
  }

  /**
   * One character goes through the chain as through `EntityOf`: the first
   * step that matches it produces a reference none of the later patterns
   * occurs in, because `&` is replaced first.
   */
  lemma EscapeOneChar(x: char)
    ensures EscapeHtml([x]) == EntityOf(x)
  {
    ReplaceAllSingle(x, '&', "&amp;");
    if x == '&' {
      assert '<' !in "&amp;" && '>' !in "&amp;" && '"' !in "&amp;" && '\'' !in "&amp;";
      return;
    }
    ReplaceAllSingle(x, '<', "&lt;");
    if x == '<' {
      assert '>' !in "&lt;" && '"' !in "&lt;" && '\'' !in "&lt;";
      return;
    }
    ReplaceAllSingle(x, '>', "&gt;");
    if x == '>' {
      assert '"' !in "&gt;" && '\'' !in "&gt;";
      return;
    }
    ReplaceAllSingle(x, '"', "&quot;");
    if x == '"' {
      assert '\'' !in "&quot;";
      return;
    }
    ReplaceAllSingle(x, '\'', "&#39;");
  }

  /** The chain of five global replacements is the per-character map */
  lemma {:induction false} EscapeIsPerCharacter(s: string)
    ensures EscapeHtml(s) == EscapeEach(s)
  {
    if s != [] {
      assert s == [s[0]] + s[1..];
      EscapeAppend([s[0]], s[1..]);
      EscapeOneChar(s[0]);
      EscapeIsPerCharacter(s[1..]);
    }
  }

  /** A string with none of the five characters comes back unchanged */
  lemma {:induction false} PlainTextUnchanged(s: string)
    requires forall i :: 0 <= i < |s| ==> !IsSpecial(s[i])
    ensures EscapeHtml(s) == s
  {
    EscapeIsPerCharacter(s);
    EscapeEachPlain(s);
  }

  lemma {:induction false} EscapeEachPlain(s: string)
    requires forall i :: 0 <= i < |s| ==> !IsSpecial(s[i])
    ensures EscapeEach(s) == s
  {
    if s != [] {
      assert !IsSpecial(s[0]);
      EscapeEachPlain(s[1..]);
      assert s == [s[0]] + s[1..];
    }
  }

  /** The four characters that can end a tag or an attribute value */
  predicate IsMarkup(c: char) {
    c == '<' || c == '>' || c == '"' || c == '\''
  }

  lemma {:induction false} EscapeEachHasNoMarkup(s: string)
    ensures forall k :: 0 <= k < |EscapeEach(s)| ==> !IsMarkup(EscapeEach(s)[k])
  {
    if s != [] {
      var e, rest := EntityOf(s[0]), EscapeEach(s[1..]);
      EscapeEachHasNoMarkup(s[1..]);
      assert forall k :: 0 <= k < |e| ==> !IsMarkup(e[k]);
      assert EscapeEach(s) == e + rest;
    }
  }

  /** The output holds no `<`, `>`, `"` or `'`: no reference contains one */
  lemma NoMarkupCharacters(s: string)
    ensures var r := EscapeHtml(s);
      '<' !in r && '>' !in r && '"' !in r && '\'' !in r
  {
    EscapeIsPerCharacter(s);
    EscapeEachHasNoMarkup(s);
  }

  // ---------------------------------------------------------------------------
  // Length

  /** How many times `c` occurs in `s` */
  function Count(s: string, c: char): nat {
    if s == [] then 0 else (if s[0] == c then 1 else 0) + Count(s[1..], c)
  }

  /** The length the escaped text grows to */
  function EscapedLength(s: string): int {
    |s| + 4 * Count(s, '&') + 3 * Count(s, '<') + 3 * Count(s, '>')
        + 5 * Count(s, '"') + 4 * Count(s, '\'')
  }

  lemma {:induction false} EscapeEachLength(s: string)
    ensures |EscapeEach(s)| == EscapedLength(s)
  {
    if s != [] {
      EscapeEachLength(s[1..]);
    }
  }

  /**
   * Each `&` adds 4 characters, each `<` and `>` 3, each `"` 5 and each `'` 4;
   * every other character is copied.
   */
  lemma EscapeLength(s: string)
    ensures |EscapeHtml(s)| == EscapedLength(s)
  {
    EscapeIsPerCharacter(s);
    EscapeEachLength(s);
  }

  // ---------------------------------------------------------------------------
  // Decoding

  /** `t` begins with one of the five references */
  predicate StartsWithReference(t: string) {
    "&amp;" <= t || "&lt;" <= t || "&gt;" <= t || "&quot;" <= t || "&#39;" <= t
  }

  /** Decodes the five references, scanning left to right; everything else is copied */
  function UnescapeHtml(s: string): string
    decreases |s|
  {
    if s == [] then []
    else if "&amp;" <= s then "&" + UnescapeHtml(s[5..])
    else if "&lt;" <= s then "<" + UnescapeHtml(s[4..])
    else if "&gt;" <= s then ">" + UnescapeHtml(s[4..])
    else if "&quot;" <= s then "\"" + UnescapeHtml(s[6..])
    else if "&#39;" <= s then "'" + UnescapeHtml(s[5..])
    else [s[0]] + UnescapeHtml(s[1..])
  }

  /** A reference decodes to the character it stands for, and decoding goes on right after it */
  lemma UnescapeReference(x: char, rest: string)
    requires IsSpecial(x)
    ensures UnescapeHtml(EntityOf(x) + rest) == [x] + UnescapeHtml(rest)
  {
    var s := EntityOf(x) + rest;
    if x == '&' {
      assert "&amp;" <= s && s[5..] == rest;
    } else if x == '<' {
      assert s[1] == 'l';
      assert "&lt;" <= s && s[4..] == rest;
    } else if x == '>' {
      assert s[1] == 'g';
      assert "&gt;" <= s && s[4..] == rest;
    } else if x == '"' {
      assert s[1] == 'q';
      assert "&quot;" <= s && s[6..] == rest;
    } else {
      assert s[1] == '#';
      assert "&#39;" <= s && s[5..] == rest;
    }
  }

  lemma UnescapeEntity(x: char, rest: string)
    ensures UnescapeHtml(EntityOf(x) + rest) == [x] + UnescapeHtml(rest)
  {
    if IsSpecial(x) {
      UnescapeReference(x, rest);
    } else {
      var s := EntityOf(x) + rest;
      assert s[0] == x && s[1..] == rest;
    }
  }

  lemma {:induction false} UnescapeEscapeEach(s: string)
    ensures UnescapeHtml(EscapeEach(s)) == s
  {
    if s != [] {
      UnescapeEntity(s[0], EscapeEach(s[1..]));
      UnescapeEscapeEach(s[1..]);
      assert s == [s[0]] + s[1..];
    }
  }

  /** Decoding the references left to right gives back the original text */
  lemma EscapeRoundTrip(s: string)
    ensures UnescapeHtml(EscapeHtml(s)) == s
  {
    EscapeIsPerCharacter(s);
    UnescapeEscapeEach(s);
  }

  lemma ReferenceStartsReference(c: char, rest: string)
    requires IsSpecial(c)
    ensures StartsWithReference(EntityOf(c) + rest)
  {
    var e := EntityOf(c);
    assert e <= e + rest;
    if c == '&' {
      assert "&amp;" <= e + rest;
    } else if c == '<' {
      assert "&lt;" <= e + rest;
    } else if c == '>' {
      assert "&gt;" <= e + rest;
    } else if c == '"' {
      assert "&quot;" <= e + rest;
    } else {
      assert "&#39;" <= e + rest;
    }
  }

  /** Every `&` in `r` begins one of the five references */
  ghost predicate AmpersandsBeginReferences(r: string)
  {
    forall i :: 0 <= i < |r| && r[i] == '&' ==> StartsWithReference(r[i..])
  }

  lemma {:induction false} EscapeEachAmpersands(s: string)
    ensures AmpersandsBeginReferences(EscapeEach(s))
  {
    if s != [] {
      var e, rest := EntityOf(s[0]), EscapeEach(s[1..]);
      EscapeEachAmpersands(s[1..]);
      assert AmpersandsBeginReferences(rest);
      var r := e + rest;
      assert EscapeEach(s) == r;
      forall i | 0 <= i < |r| && r[i] == '&'
        ensures StartsWithReference(r[i..])
      {
        if i < |e| {
          assert i == 0;
          assert r[i..] == r;
          ReferenceStartsReference(s[0], rest);
        } else {
          var j := i - |e|;
          assert r[i] == rest[j];
          assert StartsWithReference(rest[j..]);
          assert r[i..] == rest[j..];
        }
      }
    }
  }

  /** Every `&` in the output begins one of the five references */
  lemma AmpersandsStartReferences(s: string)
    ensures AmpersandsBeginReferences(EscapeHtml(s))
  {
    EscapeIsPerCharacter(s);
    EscapeEachAmpersands(s);
  }

  // ---------------------------------------------------------------------------
  // Size report

  /** The page wrapper the minified script is pasted into */
  const Bootstrap: string := "<body style=\"margin:0\"><canvas width=720 height=720><script></script>"

  /** `getBoilerplateLength()` */
  function BoilerplateLength(): (n: nat)
    ensures n == 69
  {
    |Bootstrap|
  }

  /**
   * The reported total: the minified script plus the wrapper around it, which
   * is the length of the page with the script as the content of its
   * `<script>` element.
   */
  function TotalSize(minified: string): (n: nat)
    ensures n == |minified| + 69
    ensures Bootstrap[52..60] == "<script>" && Bootstrap[60..] == "</script>"
    ensures n == |Bootstrap[..60] + minified + Bootstrap[60..]|
  {
    |minified| + BoilerplateLength()
  }
}
