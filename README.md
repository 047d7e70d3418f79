# MTM-UI music API: query construction, row mapping and error normalisation

This project models the data-access class `MusicAPI` of the MTM-UI music-chart client
(`src/api/mtm.js`). Each of its four operations (`getChart`, `getSongInfo`,
`getSongRankings`, `getSongMedia`) fills a fixed graph-query template with one
caller-supplied literal, sends it to the query endpoint, and maps the binding rows it gets
back into entity records. Any failure goes through `handleError`, which throws one `Error`.

The model has five modules:

- `Js`: a binding row (`map<string, string>` keyed by query variable), a row lookup that
  yields `Unbound` where JavaScript yields `undefined`, the thrown values (`Error(message)`
  and `TypeError`), and `Result` for "returns a value" versus "throws".
- `Entities`: `ChartPosition`, `Song`, `SongRank`, `MediaItem` as datatypes. Their fields
  follow the argument order of the constructor calls in `mtm.js`.
- `Queries`: a `Template` is `head key "literal" tail`. The four templates are copied
  character for character, with their line breaks and trailing spaces. The literal is
  interpolated verbatim. The lemmas prove four things: the literal can be read back
  (`SlotOf`); distinct literals give distinct queries; everything outside the slot is fixed;
  and what nothing being escaped means. A query parser honours backslash escapes such as `\"`
  and `\\`, as the `STRING_LITERAL2` and `ECHAR` rules of section 19.8 of the SPARQL 1.1 Query
  Language recommendation do. The model's reader, which leaves out that standard's `\u`/`\U`
  codepoint escapes, reads the parameter back as the literal exactly when the parameter is well
  quoted. A parameter `x"y` with a well-quoted `x` ends the literal after `x`.
- `Mappers`: the chart, rankings and media mappers are methods with a loop. Each loop
  appends one entity per row, as the source's `forEach`/`push` does. The song-info mapper is
  a pure function over `rows[0]`.
- `Errors`: `handleError` is a method. It assigns the fallback message, replaces it when
  `errors[0]` is defined, and throws.

The code has no malformed-response or NotFound failure. A row that lacks a query
variable gives an `undefined` field (`Unbound`). Zero song-info rows throw a `TypeError`,
because `rows[0]` is `undefined` and `result['?name']` reads a property of it. Several
song-info rows use the first.

## Model

| member | source | states |
|---|---|---|
| `Queries.ChartQuery` | src/api/mtm.js:31-45 | the chart query is the chart template with the date as its slot (read back by `SlotOf`), and it contains `schema:datePublished "<date>"` verbatim |
| `Queries.SongInfoQuery` | src/api/mtm.js:71-86 | the song-info query is its template with the id as the slot, and it contains `billboard:id "<id>"` verbatim |
| `Queries.RankingsQuery` | src/api/mtm.js:106-116 | the rankings query is its template with the id as the slot, and it contains `billboard:id "<id>"` verbatim |
| `Queries.MediaQuery` | src/api/mtm.js:140-149 | the media query is its template with the id as the slot, and it contains `billboard:id "<id>"` verbatim |
| `Queries.Render` | src/api/mtm.js:34 | the `${…}` interpolation: the literal is inserted between the fixed prefix and suffix, adding and removing nothing, so the query's length is the two fixed parts plus the literal (holds for all four templates) |
| `Js.Get` | src/api/mtm.js:55 | the property access `row['?var']`: it is bound exactly when the row has that query variable, and `undefined` otherwise (also used at lines 92, 125 and 157-158) |
| `Queries.SlotOf` | src/api/mtm.js:34 | whatever slot is read back from a query re-renders to exactly that query |
| `Queries.SlotOfRender` | src/api/mtm.js:31-45 | reading the slot back from a rendered query gives the literal unchanged (holds for all four templates) |
| `Queries.RenderInjective` | src/api/mtm.js:71-86 | two literals give the same query if and only if they are equal (holds for all four templates) |
| `Queries.RenderFixedOutsideSlot` | src/api/mtm.js:106-116 | queries for any two literals share the same text before the slot and after it, so they differ only in the slot (holds for all four templates) |
| `Queries.RenderQuotesLiteral` | src/api/mtm.js:140-149 | every rendered query contains `key "literal"` as a contiguous substring (holds for all four templates) |
| `Queries.ReadLiteral` | src/api/mtm.js:77 | the literal a query parser reads after an opening quote runs up to the first unescaped `"` (a backslash and the next character form one unit) and is a prefix of the text that follows the opening quote |
| `Queries.ReadLiteralExactly` | src/api/mtm.js:115 | a text followed by a closing quote is read back as exactly the literal if and only if it is well quoted: every `"` and `\` in it is part of a backslash escape, and it does not end in a lone backslash |
| `Queries.PlainIsWellQuoted` | src/api/mtm.js:148 | a parameter with neither `"` nor `\` is well quoted |
| `Queries.LiteralReadBack` | src/api/mtm.js:34 | no escaping: the literal a parser finds after the opening quote is exactly the parameter if and only if the parameter is well quoted, and so every parameter without `"` and `\` is read back whole (holds for all four templates) |
| `Queries.BreakOut` | src/api/mtm.js:77 | injection: for a parameter `x"y` with a well-quoted `x`, the parser's literal is `x` alone, so `y` lands outside the literal as query text (holds for all four templates) |
| `Mappers.MapChart` | src/api/mtm.js:51-58 | exactly one ChartPosition per row, in row order (zero rows give an empty list). The i-th entry holds row i's `?position`, `?id`, `?name`, `?name1` |
| `Mappers.MapRankings` | src/api/mtm.js:121-128 | exactly one SongRank per row, in row order. The i-th entry holds row i's `?datePublished` and `?position` |
| `Mappers.MapMedia` | src/api/mtm.js:153-161 | exactly one MediaItem per row, in row order. The i-th entry holds row i's `?url`, `?name` and `?thumbnail` |
| `Mappers.SongInfo` | src/api/mtm.js:91-92 | it succeeds exactly when there is at least one row. With zero rows it throws a TypeError. The Song's id is the caller's id |
| `Mappers.SongInfoFields` | src/api/mtm.js:92 | the other seven Song fields come from row 0's `?name`, `?name1`, `?album_name`, `?albumRelease`, `?duration`, `?url`, `?image`, in that order |
| `Mappers.SongInfoFirstRowOnly` | src/api/mtm.js:91 | two tables with the same first row give the same result, so later rows never matter |
| `Mappers.SongInfoIdFromCaller` | src/api/mtm.js:92 | rebinding or removing the row's `?id` does not change the Song |
| `Errors.HandleError` | src/api/mtm.js:17-24 | it always throws an `Error` and never returns normally. The message is `errors[0].details` when `errors[0]` is defined, and otherwise `"Unreachable server error"` |

## Left out

- The HTTP request (axios), the promise `.then`/`.catch` chaining and the asynchrony are not modelled. They are network I/O. The row table and the error list are parameters of the mappers and of `HandleError` instead.
- The URL is not modelled: neither the `encodeURIComponent` call nor the `http://localhost:9000/api/lra/query?q=` concatenation. It is a call into a foreign library.
- The unused `moment` import, the unused `BASE_URL` constant and the commented-out URLs are left out. They are dead code.
- `console.log(result)` in the media operation is left out. It is a logging side effect.
- The missing `error.response` (or missing `errors` array) case of `handleError` is not modelled. There the property access itself throws a TypeError, not the fallback message.
- When song info's zero-row TypeError reaches `handleError`, a second TypeError is thrown. That follows from the chaining, which is left out.
- There is no escaping, NotFound error, malformed-row error or multi-row error, because the code implements none of them.
- Whether the query is well-formed under the query language's grammar is not modelled. Only the fixed template text around the literal is.
- Entity class internals are not modelled. The entities are plain datatypes.
- Row values are modelled as strings. JSON numbers or other values that the endpoint might bind are not distinguished, and the mappers pass them through unchanged either way.
- `Errors.HandleError`: an entry's `details` is taken to be a string. An entry whose `details` is itself `undefined` would give `new Error(undefined)`; that case is not modelled.
- `Queries.ChartQuery`, `Queries.SongInfoQuery`, `Queries.RankingsQuery`, `Queries.MediaQuery`: the date and the id are taken to be strings. The string conversion JavaScript applies to non-string values in `${date}` and `${id}` is not modelled.
- `Mappers.SongInfo`: the id is taken to be a string. `new Song(id, …)` would pass a non-string id through unchanged; that case is not modelled.
- `Queries.ReadLiteral`: this is the short double-quoted string form only. The parser accepts any character after a backslash, though the query language admits only a fixed set of escapes. It does not reject a raw line break inside the literal. The triple-quoted long-string form is not modelled. The `\u`/`\U` codepoint escapes, which section 19.2 of the SPARQL 1.1 Query Language recommendation decodes across the whole query text before parsing, are not modelled either. So a well-quoted parameter such as `\u0022` or `a\u005C` still breaks out of the literal in a real parser.
- `Queries.LiteralReadBack`, `Queries.ReadLiteralExactly`, `Queries.BreakOut`: "well quoted" is with respect to the model's reader. A real parser that decodes `\u`/`\U` escapes first may read a well-quoted parameter differently. The corollary for parameters with neither `"` nor `\` is unaffected.
