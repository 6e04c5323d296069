# Excuse generator, modelled in Dafny

This project models the excuse generator of the Cloudflare worker in `worker.js`.
The worker answers a chat message with an absurd corporate excuse.

The model covers the following parts of the worker:

- **Request handler, `handleExcuseRequest`.** Any exception becomes a fixed fallback excuse with status 500.
  The model covers this catch-to-fallback mapping, not the HTTP plumbing.
- **`generateExcuse`.** It lower-cases the message and checks for one of six status trigger words.
  On a status question, a draw below 0.15 returns an outburst.
  Otherwise it picks a template from `getTemplates` and passes it to `interpolateTemplate`.
- **`generateOutburst`.** It looks up `outbursts[snarkLevel] || outbursts.medium` and picks a rant from that list.
- **`getTemplates`.** It pushes the five templates of the tone, and two more when the snark level is exactly `"high"`.
- **`interpolateTemplate`.** For each `[KEY, values]` of the replacement object, in order, it repeats one step while `{KEY}` is present:
  replace the first `{KEY}` with a random word of `values`.

Modules, one per part of the worker:

| module | file | what it holds |
|---|---|---|
| `Js` | `js.dfy` | The string operations the worker relies on: `includes`, `replace` with a string pattern, and `toLowerCase`, with `indexOf` as the search by which `includes` and `replace` find the pattern. It also defines `Value` (a string or `undefined`) and `Outcome` (returned or threw). |
| `Draws` | `draws.dfy` | `Math.random()` as an injected stream of draws in [0, 1), and `Math.floor(d * n)`. |
| `Segments` | `segments.dfy` | A template seen as literal runs and `{NAME}` tokens, and the string it renders to. |
| `TokenSearch` | `token_search.dfy` | Where `indexOf` finds a token in a rendered template. It proves that `replace` on the text fills the first placeholder of the segments. |
| `Interpolation` | `interpolation.dfy` | `interpolateTemplate` as a method with its `for` and `while` loops. The same loops are written as functions on strings and on segments, and lemmas relate the two. |
| `Outburst` | `outburst.dfy` | The status trigger, and `generateOutburst`. |
| `Selection` | `selection.dfy` | `getTemplates` as a method that pushes onto a list, and the pool it builds. |
| `ExcuseData` | `excuse_data.dfy` | The worker's literal data: the templates, the replacement object in source order, the rants, and the fallback excuse. |
| `Excuse` | `excuse.dfy` | `generateExcuse` and `handleExcuseRequest`. |
| `Catalogue` | `catalogue.dfy` | Facts about the worker's own data: which placeholders the table knows, and what that means for the excuses. |

Randomness is a parameter. A `Random` is the sequence of values that successive `Math.random()` calls return, and `pos` is the index of the next unused draw.
Each operation returns the index of the next unused draw, so the model fixes which call consumes which draw:

- the coin, which is drawn only for a status question;
- the outburst pick;
- the template pick;
- one draw per `{KEY}` token replaced, in the order the loops replace them.

The tables are also parameters of `GenerateExcuse`, `InterpolateTemplate` and `HandleExcuseRequest`.
The worker passes the constants of `ExcuseData`, and the lemmas of `Catalogue` are about those constants.

A defect in the data shows up in the proofs.
The fifth technical template (worker.js:137) uses `{EVERYTHING}`, but the replacement object has no property of that name.
The object has `REBUILD_EVERYTHING` at worker.js:228.
So every excuse built from that template still shows the text `{EVERYTHING}`.
`Catalogue.EverythingSurvives` and `Catalogue.EverythingReachesTheCaller` prove this of the code as written.
Every other template names only known properties (`Catalogue.OfferedKnown`), so its excuses hold no brace (`Interpolation.BraceFreeWhenAllKnown`).
`Catalogue.WorkerExcuseText` combines these: away from an outburst, the excuse comes from one offered template, is not empty, and holds a brace only when that template is the fifth technical one.
`Catalogue.WorkerExcuse` covers both branches of generateExcuse: for a known tone and a snark level that is missing or a string other than an Object.prototype name, the worker always returns a non-empty string, and a brace in it only ever comes with the `{EVERYTHING}` token. The nine rants hold no brace (`Catalogue.RantsClean`).

The code does not fail on an unknown placeholder: it leaves the token in the text, and the model follows the code.
An empty template list does make the worker fail.
Away from an outburst, for an unknown tone the pick gives `undefined`, the first `includes` call throws, and the handler answers 500 with the fallback excuse.

## Model

| member | source | states |
|---|---|---|
| Excuse.HandleExcuseRequest | worker.js:37-60 | A body that cannot be read gives status 500 and the fallback excuse. Otherwise the response is the catch mapping of what generateExcuse does with the body's message, snark level and tone. |
| Excuse.Respond | worker.js:41-58 | A returned excuse goes out with status 200. A thrown exception gives status 500 and the fallback excuse. The status is 500 exactly when generation threw. |
| Excuse.GenerateExcuse | worker.js:62-84 | Running the steps of generateExcuse gives the outcome of `ExcuseOutcome`. A missing message throws. The coin is drawn only for a status question. A coin below 0.15 gives an outburst; otherwise the result is a picked template after interpolation. |
| Excuse.NormalExcuse | worker.js:79-83 | getTemplates, then the pick `templates[Math.floor(d * length)]`, then interpolateTemplate. Together they produce the excuse path of the specification function. |
| Excuse.OutburstPath | worker.js:73-77 | On a status question whose coin falls below 0.15, the result is a rant and two draws are used. The rant comes from the `low` or `high` list for those levels, and from the medium list for `"medium"`, a missing level or any other name. An inherited property name as snark level gives `undefined`. Neither the tone, the templates nor the replacement table change the result. |
| Excuse.TemplateExcuse | worker.js:79-83 | Away from an outburst, with templates to pick from, the excuse is some template of the pool interpolated with the draws after the pick. The draws used are the coin (on a status question only), the pick, and one per known token of the template. |
| Excuse.UnknownToneFails | worker.js:80-83 | For a tone other than the three literals, the handler's answer is status 500 with the fallback excuse exactly when no outburst fires. |
| Outburst.IsStatusQuestion | worker.js:66-71 | The lower-cased message is a status question exactly when one of the six trigger words occurs in it. |
| Outburst.TriggerInAnyCase | worker.js:63-71 | A trigger word spelt in any mix of upper and lower case, anywhere in the message, makes it a status question. |
| Outburst.GenerateOutburst | worker.js:86-107 | For `low`, `medium` and `high` the result is an element of that list. An inherited Object.prototype name gives `undefined`. Any other level, or none, gives an element of the medium list. |
| Selection.GetTemplates | worker.js:109-167 | Pushing the templates gives the tone's base templates, followed by its extras when the snark level is exactly `"high"`, and nothing for any other tone. |
| Selection.PoolMembers | worker.js:109-167 | A template is on offer exactly when it is a base template of a known tone, or one of its extras at the high snark level. |
| Selection.PoolShape | worker.js:110-166 | The pool holds the base templates plus the extras at `"high"` only, is empty for an unknown tone, and starts with the base templates. |
| Catalogue.WorkerPoolSize | worker.js:113-163 | The worker's pool holds 5 templates for each known tone, 7 at the high snark level, and none for any other tone. |
| Draws.Pick | worker.js:81 | `Math.floor(d * n)` is an index into a non-empty list of length n, and 0 for an empty list. |
| Draws.PickExactly | worker.js:81 | The pick is `i` exactly when the draw lies in the i-th of n equal slices of [0, 1). |
| Interpolation.Choose | worker.js:255 | The replacement is a word of the key's list. |
| Interpolation.InterpolateTemplate | worker.js:169-261 | With `undefined` as the template and a non-empty table, the call throws at the first `includes`. With a string template, the outer `for` and the inner `while` loops compute the string function `ResolveAll`, including the next unused draw. |
| TokenSearch.TokenAtFirstHole | worker.js:254 | In a rendered template, `indexOf("{KEY}")` finds the first `{KEY}` placeholder and nothing earlier, and finds nothing when there is none. |
| TokenSearch.ReplaceFirstFills | worker.js:256 | `replace("{KEY}", w)` on the rendered template is the rendering of the template with its first `{KEY}` placeholder replaced by `w`. |
| Interpolation.ResolveKeyFills | worker.js:253-257 | The `while` loop for one key fills every `{KEY}` placeholder, using one draw per placeholder. |
| Interpolation.FillKeyShape | worker.js:254-256 | The i-th placeholder for a key gets the word chosen by its own draw, numbered by how many such placeholders come before it. Every other segment is kept. |
| Interpolation.ResolveAllFills | worker.js:252-258 | The string loops over the whole table do on the rendered template what the segment-level fill does, including the draws used. |
| Interpolation.FillAllShape | worker.js:250-260 | A placeholder whose name the table has becomes a word of that name's list. Literal text, and placeholders of names the table lacks, stay in place unchanged. |
| Interpolation.FillAllDraws | worker.js:252-258 | Interpolation uses exactly one draw per placeholder whose name the table has. |
| Interpolation.NoKnownTokenLeft | worker.js:252-258 | No `{KEY}` token remains after interpolation for any key of the table. |
| Interpolation.UnknownTokenKept | worker.js:252-258 | A `{NAME}` token whose name is not in the table survives interpolation. |
| Interpolation.BraceFreeWhenAllKnown | worker.js:250-260 | If the table names every placeholder of a template, the interpolated text holds no brace. |
| Catalogue.OfferedKnown | worker.js:114-162 | Every template the worker can offer names only properties of its replacement object, except the fifth technical one. |
| Catalogue.EverythingUnknown | worker.js:170-248 | `EVERYTHING` is not a property of the replacement object. |
| Catalogue.EverythingSurvives | worker.js:137 | Whatever the draws, the excuse made from the fifth technical template contains `{EVERYTHING}`. |
| Catalogue.FifthTechnicalPicked | worker.js:131-138 | Below the high snark level, the technical pool holds five templates, and a pick draw of at least 0.8 selects the fifth. |
| Catalogue.EverythingReachesTheCaller | worker.js:137 | A technical excuse for a message that is not a status question, below the high snark level, with a pick draw of at least 0.8, is returned and contains `{EVERYTHING}`. |
| Catalogue.WorkerExcuseText | worker.js:62-84 | Away from an outburst, a known tone with the worker's data always returns a string: some offered template interpolated with the draws after the pick. That string is not empty. It holds no brace unless the template is the fifth technical one, whose excuse contains `{EVERYTHING}`. |
| Catalogue.WorkerExcuse | worker.js:62-107 | For a known tone, a snark level that is missing or a string other than an inherited Object.prototype name, and the worker's templates, rants and replacement keys, generateExcuse returns a non-empty string on either branch, outburst or template. If that string holds a `{` or `}`, it contains `{EVERYTHING}`. |
| Catalogue.RantsClean | worker.js:87-103 | Every rant of the `low`, `medium` and `high` lists is non-empty and holds no `{` or `}`. |
| Catalogue.OfferedExcuse | worker.js:109-167 | The excuse made from any template getTemplates offers is not empty. It holds no brace, except for the fifth technical template, whose excuse contains `{EVERYTHING}`. |
| Catalogue.OfferedLeads | worker.js:114-162 | Every template the worker can offer opens with literal text. |
| Interpolation.NonEmptyWhenLeadingText | worker.js:250-260 | Interpolation keeps a template's opening literal text at the start of the result, so that result is not empty. |

## Left out

- HTTP routing, the CORS preflight, the 404 answer and the HTML page (worker.js:4-35 and 264 on) are I/O around the generator.
  The model also drops the JSON encoding and the headers of the response; it keeps only the status and the `excuse` field.
- Parsing of the request body is reduced to two cases: the body parses to an object, or reading it throws.
  `Undefined` stands for a missing field and for any non-string JSON value.
  For the message and the tone, such values behave exactly like a missing field.
  The exception is an array given as snark level: `outbursts[["low"]]` coerces to the property `low`, and the model treats it as an absent level.
  An object with its own `toString` property given as the snark level, or an array holding one, makes `outbursts[snarkLevel]` throw on the outburst path, so the worker answers 500; the model treats it as an absent level.
- `Math.random()` is an injected stream of draws.
  The model says nothing about the distribution, so the 15% outburst rate is not a property of the model.
  The comment at worker.js:65 says 10%, but the code compares with 0.15, and the model follows the code.
- Draws and the product `d * n` are exact reals, not IEEE doubles, so the rounding of that product is not modelled.
- `toLowerCase` maps only the letters A to Z; every other character is kept as it is.
  Only two other characters lower-case to ASCII letters: U+212A KELVIN SIGN becomes `k`, and U+0130 becomes `i` followed by U+0307.
  Neither can complete a trigger word: no trigger word contains `k`, and the U+0307 after the `i` breaks any match, since in every trigger word an `i` is followed by `n` or `s`.
  So the status test has the same result on every message the model can express as in the worker.
- A Dafny `string` is a sequence of Unicode scalar values, while a JavaScript string is a sequence of UTF-16 code units. A message holding a lone surrogate (such as `"\ud800"` in the JSON body) has no counterpart in the model. No trigger word contains a surrogate, so the status test would not be affected by one.
- `replace` with a string pattern is modelled for replacement words without `$`, which holds for every word of the worker's table. The `$` substitution patterns are not modelled.
- The async structure of the handler is not modelled; nothing in it runs concurrently.
- Excuse.GenerateExcuse: the worker's tables are parameters here. The worker's own constants are `ExcuseData.Templates`, `ExcuseData.Outbursts` and `ExcuseData.Replacements`, and the `Catalogue` lemmas are stated for those.
