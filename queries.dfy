/**
 * The four graph queries of the music API. Each is a fixed template text with
 * one double-quoted literal slot, filled by string interpolation with no escaping.
 */
module Queries {
  import opened Js

  const Quote: string := "\""

  /** The key whose quoted literal carries the chart date. */
  const DateKey: string := "schema:datePublished "
  /** The key whose quoted literal carries the song identifier. */
  const IdKey: string := "billboard:id "

  /** A query text `head key "literal" tail`: everything but the literal is fixed. */
  datatype Template = Template(head: string, key: string, tail: string)

  /** The fixed text ahead of the literal, ending with the opening quote. */
  function Prefix(t: Template): string { t.head + t.key + Quote }

  /** The fixed text after the literal, starting with the closing quote. */
  function Suffix(t: Template): string { Quote + t.tail }

  /** Interpolates `literal` into the template's slot verbatim. */
  function Render(t: Template, literal: string): (q: string)
    ensures |q| == |Prefix(t)| + |literal| + |Suffix(t)|
  {
    Prefix(t) + literal + Suffix(t)
  }

  /** Reads the slot back out of a query text, if the text has the template's fixed parts. */
  function SlotOf(t: Template, q: string): (r: Option<string>)
    ensures r.Some? ==> Render(t, r.value) == q
  {
    var p, s := Prefix(t), Suffix(t);
    if |p| + |s| <= |q| && q[..|p|] == p && q[|q| - |s|..] == s then
      var literal := q[|p|..|q| - |s|];
      assert q == q[..|p|] + literal + q[|q| - |s|..];
      Some(literal)
    else
      None
  }

  /** Filling the slot and reading it back gives the literal: no information is lost, nothing is rewritten. */
  lemma SlotOfRender(t: Template, literal: string)
    ensures SlotOf(t, Render(t, literal)) == Some(literal)
  {
  }

  /** Two literals give the same query only if they are the same literal. */
  lemma RenderInjective(t: Template, a: string, b: string)
    ensures Render(t, a) == Render(t, b) <==> a == b
  {
    SlotOfRender(t, a);
    SlotOfRender(t, b);
  }

  /** Queries for two literals agree on everything ahead of the slot and after it. */
  lemma RenderFixedOutsideSlot(t: Template, a: string, b: string)
    ensures Render(t, a)[..|Prefix(t)|] == Render(t, b)[..|Prefix(t)|] == Prefix(t)
    ensures Render(t, a)[|Prefix(t)| + |a|..] == Render(t, b)[|Prefix(t)| + |b|..] == Suffix(t)
  {
  }

  /** `needle` appears in `text` starting at offset `k`. */
  predicate OccursAt(needle: string, text: string, k: int)
  {
    0 <= k <= |text| - |needle| && text[k..k + |needle|] == needle
  }

  /** `needle` appears as a contiguous part of `text`. */
  predicate Occurs(needle: string, text: string)
  {
    exists k | 0 <= k <= |text| - |needle| :: OccursAt(needle, text, k)
  }

  /** The rendered query contains `key "literal"` verbatim. */
  lemma RenderQuotesLiteral(t: Template, literal: string)
    ensures Occurs(t.key + Quote + literal + Quote, Render(t, literal))
  {
    var needle := t.key + Quote + literal + Quote;
    var q := Render(t, literal);
    assert q == t.head + needle + t.tail;
    assert q[|t.head|..|t.head| + |needle|] == needle;
    assert OccursAt(needle, q, |t.head|);
  }

  const Backslash: char := '\\'

  /**
   * The body of a double-quoted string literal as a query parser reads it: every
   * character up to the first unescaped double quote, where a backslash and the
   * character after it form one unit (so an escaped `"` does not end the literal).
   */
  function ReadLiteral(s: string): (r: string)
    ensures |r| <= |s| && r == s[..|r|]
  {
    if s == [] || s[0] == '"' then []
    else if s[0] == Backslash && |s| >= 2 then s[..2] + ReadLiteral(s[2..])
    else [s[0]] + ReadLiteral(s[1..])
  }

  /**
   * `s` is a well-formed literal body: every double quote and every backslash in it
   * is part of a backslash escape, and it does not end in a lone backslash.
   */
  predicate WellQuoted(s: string)
  {
    if s == [] then true
    else if s[0] == '"' then false
    else if s[0] == Backslash then |s| >= 2 && WellQuoted(s[2..])
    else WellQuoted(s[1..])
  }

  /**
   * Once the closing quote follows it, a text is read back as exactly the literal
   * if and only if it is well quoted.
   */
  lemma {:induction false} ReadLiteralExactly(literal: string, rest: string)
    ensures ReadLiteral(literal + Quote + rest) == literal <==> WellQuoted(literal)
  {
    var s := literal + Quote + rest;
    if literal == [] {
    } else if literal[0] == '"' {
    } else if literal[0] == Backslash && |literal| == 1 {
      assert s[..2] == [Backslash, '"'];
      assert |ReadLiteral(s)| >= 2;
    } else if literal[0] == Backslash {
      assert s[2..] == literal[2..] + Quote + rest;
      assert s[..2] == literal[..2];
      ReadLiteralExactly(literal[2..], rest);
      assert literal == literal[..2] + literal[2..];
    } else {
      assert s[1..] == literal[1..] + Quote + rest;
      ReadLiteralExactly(literal[1..], rest);
      assert literal == [literal[0]] + literal[1..];
    }
  }

  /** A text with neither a double quote nor a backslash is well quoted. */
  lemma {:induction false} PlainIsWellQuoted(s: string)
    requires '"' !in s && Backslash !in s
    ensures WellQuoted(s)
  {
    if s != [] {
      PlainIsWellQuoted(s[1..]);
    }
  }

  /**
   * No escaping: the literal a parser finds after the opening quote is exactly the
   * parameter if and only if the parameter is well quoted; in particular every
   * parameter without `"` and `\` is read back whole.
   */
  lemma LiteralReadBack(t: Template, literal: string)
    ensures var q := Render(t, literal);
            ReadLiteral(q[|Prefix(t)|..]) == literal <==> WellQuoted(literal)
    ensures '"' !in literal && Backslash !in literal ==>
            ReadLiteral(Render(t, literal)[|Prefix(t)|..]) == literal
  {
    var q := Render(t, literal);
    assert q[|Prefix(t)|..] == literal + Quote + t.tail;
    ReadLiteralExactly(literal, t.tail);
    if '"' !in literal && Backslash !in literal {
      PlainIsWellQuoted(literal);
    }
  }

  /**
   * Injection: for a parameter `x"y` whose `x` is well quoted, the parser's literal
   * is `x` alone, so the `"` closes it and `y` is read as query text.
   */
  lemma BreakOut(t: Template, x: string, y: string)
    requires WellQuoted(x)
    ensures ReadLiteral(Render(t, x + Quote + y)[|Prefix(t)|..]) == x
  {
    assert Render(t, x + Quote + y)[|Prefix(t)|..] == x + Quote + (y + Suffix(t));
    ReadLiteralExactly(x, y + Suffix(t));
  }

  // The templates, character for character (template literals keep their LF line breaks).

  const ChartTemplate := Template(
    "SELECT DISTINCT ?position ?name ?id ?name1 \n" +
    "    WHERE {\n" +
    "      ?Chart a schema:MusicPlaylist;\n" +
    "        ",
    DateKey,
    ";\n" +
    "        schema:track ?ListItem0.\n" +
    "      ?ListItem0 a schema:ListItem;\n" +
    "        schema:item ?Song;\n" +
    "        schema:position ?position.\n" +
    "      ?Song a schema:MusicRecording;\n" +
    "        schema:name ?name;\n" +
    "        schema:byArtist ?Artist;\n" +
    "        billboard:id ?id.\n" +
    "      ?Artist a schema:MusicGroup;\n" +
    "        schema:name ?name1\n" +
    "    }")

  const SongInfoTemplate := Template(
    "SELECT DISTINCT ?name ?duration ?url ?name1 ?albumRelease ?image ?album_name \n" +
    "    WHERE {\n" +
    "      ?Song a schema:MusicRecording;\n" +
    "        schema:name ?name;\n" +
    "        schema:duration ?duration;\n" +
    "        schema:url ?url;\n" +
    "        ",
    IdKey,
    ";\n" +
    "        schema:byArtist ?Artist;\n" +
    "        schema:inAlbum ?Album.\n" +
    "      ?Artist a schema:MusicGroup;\n" +
    "        schema:name ?name1.\n" +
    "      ?Album a schema:MusicAlbum;\n" +
    "        schema:albumRelease ?albumRelease;\n" +
    "        schema:image ?image;\n" +
    "        schema:name ?album_name\n" +
    "    }")

  const RankingsTemplate := Template(
    "SELECT DISTINCT ?datePublished ?position \n" +
    "    WHERE {\n" +
    "      ?Chart a schema:MusicPlaylist;\n" +
    "        schema:datePublished ?datePublished;\n" +
    "        schema:track ?ListItem0.\n" +
    "      ?ListItem0 a schema:ListItem;\n" +
    "        schema:item ?Song;\n" +
    "        schema:position ?position.\n" +
    "      ?Song a schema:MusicRecording;\n" +
    "        ",
    IdKey,
    "\n" +
    "    }")

  const MediaTemplate := Template(
    "SELECT DISTINCT ?url ?thumbnail ?name \n" +
    "    WHERE {\n" +
    "      ?Media a schema:MediaObject;\n" +
    "        schema:url ?url;\n" +
    "        schema:image ?thumbnail;\n" +
    "        schema:name ?name.\n" +
    "      ?MusicRecording a schema:MusicRecording;\n" +
    "        schema:subjectOf ?Media;\n" +
    "        ",
    IdKey,
    "\n" +
    "    }")

  /** The query of `getChart`: the chart template with the date in its `schema:datePublished` literal. */
  function ChartQuery(date: string): (q: string)
    ensures SlotOf(ChartTemplate, q) == Some(date)
    ensures Occurs(DateKey + Quote + date + Quote, q)
  {
    SlotOfRender(ChartTemplate, date);
    RenderQuotesLiteral(ChartTemplate, date);
    Render(ChartTemplate, date)
  }

  /** The query of `getSongInfo`: the song template with the id in its `billboard:id` literal. */
  function SongInfoQuery(id: string): (q: string)
    ensures SlotOf(SongInfoTemplate, q) == Some(id)
    ensures Occurs(IdKey + Quote + id + Quote, q)
  {
    SlotOfRender(SongInfoTemplate, id);
    RenderQuotesLiteral(SongInfoTemplate, id);
    Render(SongInfoTemplate, id)
  }

  /** The query of `getSongRankings`: the rankings template with the id in its `billboard:id` literal. */
  function RankingsQuery(id: string): (q: string)
    ensures SlotOf(RankingsTemplate, q) == Some(id)
    ensures Occurs(IdKey + Quote + id + Quote, q)
  {
    SlotOfRender(RankingsTemplate, id);
    RenderQuotesLiteral(RankingsTemplate, id);
    Render(RankingsTemplate, id)
  }

  /** The query of `getSongMedia`: the media template with the id in its `billboard:id` literal. */
  function MediaQuery(id: string): (q: string)
    ensures SlotOf(MediaTemplate, q) == Some(id)
    ensures Occurs(IdKey + Quote + id + Quote, q)
  {
    SlotOfRender(MediaTemplate, id);
    RenderQuotesLiteral(MediaTemplate, id);
    Render(MediaTemplate, id)
  }
}
