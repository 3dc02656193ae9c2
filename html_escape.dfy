/** The `escapeHtml` helper that both the notification e-mail template and the payment
    receipt use: the five characters `& < > " '` become the entities `&amp; &lt; &gt;
    &quot; &#39;`, every other character is copied. */
module HtmlEscape {

  predicate IsSpecial(c: char) {
    c == '&' || c == '<' || c == '>' || c == '"' || c == '\''
  }

  function Entity(c: char): (e: string)
    requires IsSpecial(c)
    ensures |e| >= 4 && e[0] == '&' && e[|e| - 1] == ';'
  {
    match c
    case '&' => "&amp;"
    case '<' => "&lt;"
    case '>' => "&gt;"
    case '"' => "&quot;"
    case '\'' => "&#39;"
  }

  /** The replacement of one character. */
  function EscapeChar(c: char): string {
    if IsSpecial(c) then Entity(c) else [c]
  }

  /** `text.replace(/[&<>"']/g, char => htmlEntities[char] || char)`. */
  function EscapeHtml(s: string): (r: string)
    ensures |r| >= |s|
  {
    if s == [] then [] else EscapeChar(s[0]) + EscapeHtml(s[1..])
  }

  /** No raw `<`, `>`, `"` or `'` is left: the escaped text cannot open a tag or close an
      attribute value. */
  predicate NoMarkup(s: string) {
    forall k :: 0 <= k < |s| ==> s[k] != '<' && s[k] != '>' && s[k] != '"' && s[k] != '\''
  }

  predicate NoSpecials(s: string) {
    forall k :: 0 <= k < |s| ==> !IsSpecial(s[k])
  }

  lemma {:induction false} EscapeAppend(a: string, b: string)
    ensures EscapeHtml(a + b) == EscapeHtml(a) + EscapeHtml(b)
  {
    if a == [] {
      assert a + b == b;
    } else {
      assert (a + b)[0] == a[0];
      assert (a + b)[1..] == a[1..] + b;
      EscapeAppend(a[1..], b);
      calc {
        EscapeHtml(a + b);
        EscapeChar(a[0]) + EscapeHtml(a[1..] + b);
        EscapeChar(a[0]) + (EscapeHtml(a[1..]) + EscapeHtml(b));
        (EscapeChar(a[0]) + EscapeHtml(a[1..])) + EscapeHtml(b);
      }
    }
  }

  lemma {:induction false} EscapeHasNoMarkup(s: string)
    ensures NoMarkup(EscapeHtml(s))
  {
    if s != [] {
      EscapeHasNoMarkup(s[1..]);
      var head := EscapeChar(s[0]);
      var tail := EscapeHtml(s[1..]);
      assert EscapeHtml(s) == head + tail;
      forall k | 0 <= k < |head + tail|
        ensures (head + tail)[k] != '<' && (head + tail)[k] != '>'
        ensures (head + tail)[k] != '"' && (head + tail)[k] != '\''
      {
        if k < |head| { assert (head + tail)[k] == head[k]; } else { assert (head + tail)[k] == tail[k - |head|]; }
      }
    }
  }

  /** Text without any of the five characters is left unchanged. */
  lemma {:induction false} EscapeIdentity(s: string)
    requires NoSpecials(s)
    ensures EscapeHtml(s) == s
  {
    if s != [] {
      EscapeIdentity(s[1..]);
    }
  }

  /** Text that contains one of the five characters is changed. */
  lemma {:induction false} EscapeChangesSpecials(s: string)
    requires !NoSpecials(s)
    ensures EscapeHtml(s) != s
  {
    if IsSpecial(s[0]) {
      var head := EscapeChar(s[0]);
      assert EscapeHtml(s) == head + EscapeHtml(s[1..]);
      assert |EscapeHtml(s)| > |s|;
    } else {
      EscapeChangesSpecials(s[1..]);
      assert EscapeHtml(s) == [s[0]] + EscapeHtml(s[1..]);
      assert s == [s[0]] + s[1..];
    }
  }

  predicate StartsWith(s: string, p: string) {
    |p| <= |s| && s[..|p|] == p
  }

  /** The inverse of `EscapeHtml`: the five entities are read back as characters. */
  function UnescapeHtml(s: string): string
    decreases |s|
  {
    if s == [] then []
    else if StartsWith(s, "&amp;") then "&" + UnescapeHtml(s[5..])
    else if StartsWith(s, "&lt;") then "<" + UnescapeHtml(s[4..])
    else if StartsWith(s, "&gt;") then ">" + UnescapeHtml(s[4..])
    else if StartsWith(s, "&quot;") then "\"" + UnescapeHtml(s[6..])
    else if StartsWith(s, "&#39;") then "'" + UnescapeHtml(s[5..])
    else [s[0]] + UnescapeHtml(s[1..])
  }

  lemma UnescapeEntity(c: char, t: string)
    requires IsSpecial(c)
    ensures UnescapeHtml(Entity(c) + t) == [c] + UnescapeHtml(t)
  {
    var e := Entity(c);
    var u := e + t;
    assert u[..|e|] == e && u[|e|..] == t;
    assert u[0] == '&' && u[1] == e[1];
    if c == '<' || c == '>' || c == '"' {
      assert !StartsWith(u, "&amp;") && !StartsWith(u, "&#39;");
    }
    if c == '>' || c == '"' || c == '\'' {
      assert !StartsWith(u, "&lt;");
    }
    if c == '"' || c == '\'' {
      assert !StartsWith(u, "&gt;");
    }
    if c == '\'' {
      assert !StartsWith(u, "&quot;");
    }
  }

  lemma UnescapeStep(c: char, t: string)
    ensures UnescapeHtml(EscapeChar(c) + t) == [c] + UnescapeHtml(t)
  {
    if IsSpecial(c) {
      UnescapeEntity(c, t);
    } else {
      var u := [c] + t;
      assert u[0] == c && u[1..] == t;
      assert !StartsWith(u, "&amp;") && !StartsWith(u, "&lt;") && !StartsWith(u, "&gt;");
      assert !StartsWith(u, "&quot;") && !StartsWith(u, "&#39;");
    }
  }

  /** Escaping loses nothing: the original text can be read back. */
  lemma {:induction false} UnescapeEscape(s: string)
    ensures UnescapeHtml(EscapeHtml(s)) == s
  {
    if s != [] {
      UnescapeEscape(s[1..]);
      UnescapeStep(s[0], EscapeHtml(s[1..]));
      assert s == [s[0]] + s[1..];
    }
  }

  /** Hence different texts always escape differently. */
  lemma EscapeInjective(s: string, t: string)
    requires EscapeHtml(s) == EscapeHtml(t)
    ensures s == t
  {
    UnescapeEscape(s);
    UnescapeEscape(t);
  }
}
