/** XML escaping by five replacements in a row. */
module XmlEscape {
  import opened Prelude

  /** `s.replace(c, by)` for a single character. */
  function Replace(s: string, c: char, sub: string): string {
    if s == "" then "" else (if s[0] == c then sub else [s[0]]) + Replace(s[1..], c, sub)
  }

  /** `xml_escape`. */
  function Escape(s: string): string {
    Replace(Replace(Replace(Replace(Replace(s, '&', "&amp;"), '<', "&lt;"), '>', "&gt;"), '"', "&quot;"), '\'', "&apos;")
  }

  function Entity(c: char): string {
    match c
    case '&' => "&amp;"
    case '<' => "&lt;"
    case '>' => "&gt;"
    case '"' => "&quot;"
    case '\'' => "&apos;"
    case _ => [c]
  }

  function EachEntity(s: string): string {
    if s == "" then "" else Entity(s[0]) + EachEntity(s[1..])
  }

  lemma {:induction false} ReplaceConcat(a: string, b: string, c: char, sub: string)
    ensures Replace(a + b, c, sub) == Replace(a, c, sub) + Replace(b, c, sub)
  {
    if a == "" {
      assert a + b == b;
    } else {
      assert (a + b)[0] == a[0] && (a + b)[1..] == a[1..] + b;
      ReplaceConcat(a[1..], b, c, sub);
    }
  }

  lemma {:induction false} ReplaceNone(s: string, c: char, sub: string)
    requires c !in s
    ensures Replace(s, c, sub) == s
  {
    if s != "" {
      ReplaceNone(s[1..], c, sub);
    }
  }

  lemma ReplaceOne(x: char, c: char, sub: string)
    ensures Replace([x], c, sub) == if x == c then sub else [x]
  {
    assert [x][1..] == "";
  }

  lemma EscapeConcat(a: string, b: string)
    ensures Escape(a + b) == Escape(a) + Escape(b)
  {
    ReplaceConcat(a, b, '&', "&amp;");
    var a1, b1 := Replace(a, '&', "&amp;"), Replace(b, '&', "&amp;");
    ReplaceConcat(a1, b1, '<', "&lt;");
    var a2, b2 := Replace(a1, '<', "&lt;"), Replace(b1, '<', "&lt;");
    ReplaceConcat(a2, b2, '>', "&gt;");
    var a3, b3 := Replace(a2, '>', "&gt;"), Replace(b2, '>', "&gt;");
    ReplaceConcat(a3, b3, '"', "&quot;");
    var a4, b4 := Replace(a3, '"', "&quot;"), Replace(b3, '"', "&quot;");
    ReplaceConcat(a4, b4, '\'', "&apos;");
  }

  lemma EscapePlain(x: char)
    requires x !in {'&', '<', '>', '"', '\''}
    ensures Escape([x]) == [x]
  {
    ReplaceNone([x], '&', "&amp;");
    ReplaceNone([x], '<', "&lt;");
    ReplaceNone([x], '>', "&gt;");
    ReplaceNone([x], '"', "&quot;");
    ReplaceNone([x], '\'', "&apos;");
  }

  lemma EscapeAmpersand(x: string, e: string)
    requires x == ['&'] && e == "&amp;"
    ensures Escape(x) == e
  {
    ReplaceOne('&', '&', e);
    ReplaceNone(e, '<', "&lt;");
    ReplaceNone(e, '>', "&gt;");
    ReplaceNone(e, '"', "&quot;");
    ReplaceNone(e, '\'', "&apos;");
  }

  lemma EscapeLess(x: string, e: string)
    requires x == ['<'] && e == "&lt;"
    ensures Escape(x) == e
  {
    ReplaceNone(x, '&', "&amp;");
    ReplaceOne('<', '<', e);
    ReplaceNone(e, '>', "&gt;");
    ReplaceNone(e, '"', "&quot;");
    ReplaceNone(e, '\'', "&apos;");
  }

  lemma EscapeGreater()
    ensures Escape(['>']) == "&gt;"
  {
    ReplaceNone(['>'], '&', "&amp;");
    ReplaceNone(['>'], '<', "&lt;");
    ReplaceOne('>', '>', "&gt;");
    ReplaceNone("&gt;", '"', "&quot;");
    ReplaceNone("&gt;", '\'', "&apos;");
  }

  lemma EscapeQuote()
    ensures Escape(['"']) == "&quot;"
  {
    ReplaceNone(['"'], '&', "&amp;");
    ReplaceNone(['"'], '<', "&lt;");
    ReplaceNone(['"'], '>', "&gt;");
    ReplaceOne('"', '"', "&quot;");
    ReplaceNone("&quot;", '\'', "&apos;");
  }

  lemma EscapeApostrophe()
    ensures Escape(['\'']) == "&apos;"
  {
    ReplaceNone(['\''], '&', "&amp;");
    ReplaceNone(['\''], '<', "&lt;");
    ReplaceNone(['\''], '>', "&gt;");
    ReplaceNone(['\''], '"', "&quot;");
    ReplaceOne('\'', '\'', "&apos;");
  }

  lemma EscapeOne(x: char)
    ensures Escape([x]) == Entity(x)
  {
    match x
    case '&' => EscapeAmpersand([x], "&amp;");
    case '<' => EscapeLess([x], "&lt;");
    case '>' => EscapeGreater();
    case '"' => EscapeQuote();
    case '\'' => EscapeApostrophe();
    case _ => EscapePlain(x);
  }

  /** The five passes over the whole text do what one pass over its characters does. */
  lemma {:induction false} EscapeIsPerCharacter(s: string)
    ensures Escape(s) == EachEntity(s)
  {
    if s != "" {
      EscapeIsPerCharacter(s[1..]);
      EscapeOne(s[0]);
      EscapeConcat([s[0]], s[1..]);
      assert s == [s[0]] + s[1..];
    }
  }

  lemma {:induction false} NothingToParse(s: string)
    ensures forall c | c in EachEntity(s) :: c !in {'<', '>', '"', '\''}
  {
    if s != "" {
      NothingToParse(s[1..]);
    }
  }

  /** Escaped text holds no markup character. */
  lemma EscapedIsPlain(s: string)
    ensures forall c | c in Escape(s) :: c !in {'<', '>', '"', '\''}
  {
    EscapeIsPerCharacter(s);
    NothingToParse(s);
  }

  /** Reading entities back. */
  function Unescape(s: string): string
    decreases |s|
  {
    if s == "" then ""
    else if StartsWith(s, "&amp;") then "&" + Unescape(s[5..])
    else if StartsWith(s, "&lt;") then "<" + Unescape(s[4..])
    else if StartsWith(s, "&gt;") then ">" + Unescape(s[4..])
    else if StartsWith(s, "&quot;") then "\"" + Unescape(s[6..])
    else if StartsWith(s, "&apos;") then "'" + Unescape(s[6..])
    else [s[0]] + Unescape(s[1..])
  }

  lemma Prefixes(entity: string, rest: string, other: string, k: nat)
    requires k < |entity| && k < |other| && entity[k] != other[k]
    ensures !StartsWith(entity + rest, other)
  {
    assert (entity + rest)[k] == entity[k];
  }

  lemma Whole(entity: string, rest: string)
    ensures StartsWith(entity + rest, entity) && (entity + rest)[|entity|..] == rest
  {
  }

  lemma UnescapeAmpersand(rest: string)
    ensures Unescape("&amp;" + rest) == "&" + Unescape(rest)
  {
    Whole("&amp;", rest);
  }

  lemma UnescapeLess(rest: string)
    ensures Unescape("&lt;" + rest) == "<" + Unescape(rest)
  {
    Prefixes("&lt;", rest, "&amp;", 1);
    Whole("&lt;", rest);
  }

  lemma UnescapeGreater(rest: string)
    ensures Unescape("&gt;" + rest) == ">" + Unescape(rest)
  {
    Prefixes("&gt;", rest, "&amp;", 1);
    Prefixes("&gt;", rest, "&lt;", 1);
    Whole("&gt;", rest);
  }

  lemma UnescapeQuote(rest: string)
    ensures Unescape("&quot;" + rest) == "\"" + Unescape(rest)
  {
    Prefixes("&quot;", rest, "&amp;", 1);
    Prefixes("&quot;", rest, "&lt;", 1);
    Prefixes("&quot;", rest, "&gt;", 1);
    Whole("&quot;", rest);
  }

  lemma UnescapeApostrophe(rest: string)
    ensures Unescape("&apos;" + rest) == "'" + Unescape(rest)
  {
    Prefixes("&apos;", rest, "&amp;", 2);
    Prefixes("&apos;", rest, "&lt;", 1);
    Prefixes("&apos;", rest, "&gt;", 1);
    Prefixes("&apos;", rest, "&quot;", 1);
    Whole("&apos;", rest);
  }

  lemma UnescapePlain(c: char, rest: string)
    requires c != '&'
    ensures Unescape([c] + rest) == [c] + Unescape(rest)
  {
    Prefixes([c], rest, "&amp;", 0);
    Prefixes([c], rest, "&lt;", 0);
    Prefixes([c], rest, "&gt;", 0);
    Prefixes([c], rest, "&quot;", 0);
    Prefixes([c], rest, "&apos;", 0);
    assert ([c] + rest)[1..] == rest;
  }

  lemma {:induction false} UnescapeEntity(c: char, rest: string)
    ensures Unescape(Entity(c) + rest) == [c] + Unescape(rest)
  {
    match c
    case '&' => UnescapeAmpersand(rest);
    case '<' => UnescapeLess(rest);
    case '>' => UnescapeGreater(rest);
    case '"' => UnescapeQuote(rest);
    case '\'' => UnescapeApostrophe(rest);
    case _ => UnescapePlain(c, rest);
  }

  /** Escaping loses nothing. */
  lemma {:induction false} UnescapeInverts(s: string)
    ensures Unescape(EachEntity(s)) == s
  {
    if s != "" {
      UnescapeInverts(s[1..]);
      UnescapeEntity(s[0], EachEntity(s[1..]));
    }
  }

  lemma EscapeIsInjective(a: string, b: string)
    ensures Escape(a) == Escape(b) <==> a == b
  {
    EscapeIsPerCharacter(a);
    EscapeIsPerCharacter(b);
    UnescapeInverts(a);
    UnescapeInverts(b);
  }
}
