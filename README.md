# GlobalGo counsellor: a Dafny model of its text and language logic

GlobalGo is a study-abroad counselling site. The browser page (`script.js`)
sends a student's profile to a small server (`server.js`). The server
wraps the profile in a prompt for a language model and returns the advice.
The page renders that advice, which is loosely written in Markdown, into
HTML. The page also lets the visitor switch the interface between
Azerbaijani, English and Russian.

This project models the deterministic part of that system and proves what
it promises:

- **Rendering the advice** (`markdown.dfy`, `render.dfy`).
  - `formatList` scans the advice once with an `inList` flag. It is
    modelled as a method with its loop and proved equal to a small block
    grammar (`Blocks`/`ListBlock`). The grammar shows that every list is
    closed, lists never nest, every line gives exactly one piece, and two
    lists separated by a text line stay apart.
  - The substitution chain that follows is modelled with JavaScript's
    multiline semantics, one line at a time (`PerLine`):
    - three heading patterns;
    - the greedy bold pattern;
    - `\n` → `<br>`.
  - The three heading passes are proved equal to one per-line decision.
  - The bold pattern is proved to pick the leftmost, longest match.
  - The final HTML is proved to hold no newline.
- **The language state** (`language.dfy`). A class `Page` holds:
  - `currentLang`;
  - the tagged elements;
  - the toggle label;
  - the AI section's visibility;
  - the address's `lang` parameter and the saved preference.

  `changeLanguage`, page load and the toggle update that state. The model
  also covers code normalisation, the precedence of the starting code, and
  the az → en → ru → az cycle.
- **The server's text** (`prompts.dfy`).
  - The three-way language instruction.
  - The analyze prompt and the chat prompt, line for line as in the
    templates. Every field is interpolated without escaping.
  - The conversation context. It is built by a loop and proved equal to
    the profile block plus one entry per message, in order.
  - The error reply of each endpoint.
- **The JavaScript string behaviour** both sides rely on (`jstext.dfy`):
  - `undefined` and truthiness;
  - `trim` with its exact white-space set;
  - `split`/`join` on one character, with both round trips proved;
  - the line terminators that `^`, `$` and `.` react to.

Two behaviours of the rendering follow from the code as written and are
proved as such:

- A heading line that directly follows a list item is glued to the
  closing `</ul>`, so it is not rendered as a heading
  (`Render.HeadingAfterListStaysText`).
- The bold pattern is greedy, so `**a** and **b**` on one line becomes a
  single `<strong>` element from the first `**` to the last
  (`Render.BoldLineIsLeftmostLongest`).

`server.js` has no scholarship filter, tool-calling loop or transcript
upload, so none of these is part of this model. The error reply sends
`error.message` whole, without truncating it, and so does the model.

## Model

| member | source | states |
|---|---|---|
| JsText.Trim | script.js:214 | `trim` returns the slice of the line left once white space is removed from both ends: everything removed is white space, and the result neither starts nor ends with it |
| JsText.Split | script.js:210 | `split('\n')` yields at least one part, no part holds the separator, and joining the parts with it gives the text back |
| JsText.SplitJoin | script.js:210 | splitting a join of separator-free parts gives back exactly those parts |
| Markdown.ItemText | script.js:216 | the item text is the trimmed line without its leading "* " |
| Markdown.FormatLine | script.js:213-221 | one step of the callback: the flag afterwards says whether the line was a list line, and the pieces the grammar assigns to the line move from "still to write" to "written" |
| Markdown.FormatList | script.js:209-224 | the loop's output is exactly the HTML of the line grammar for the split input (including the `</ul>` of a list that runs to the end) |
| Markdown.FormatListStructure | script.js:213-223 | the output's pieces are well formed (a list opens only when none is open, closes only when one is, holds at least one item, is not followed directly by another list, and is closed at the end), `<ul>` and `</ul>` are equally many, and removing them leaves one piece per line in input order |
| Markdown.BlocksWellFormed | script.js:213-223 | the grammar's pieces for any lines are well formed |
| Markdown.WellFormedBalanced | script.js:215-222 | a well-formed piece stream has one `</ul>` per `<ul>` (one more when a list is open) |
| Markdown.BlocksErase | script.js:214-219 | with the list brackets removed, the pieces are the lines one by one: an item for a list line, the line itself for any other |
| Markdown.WellFormedUnique | script.js:213-223 | a well-formed stream is determined by its items and lines, so the output has no other freedom |
| Markdown.HtmlOpenList | script.js:215 | a list line outside a list writes `<ul>` first |
| Markdown.HtmlListItem | script.js:216 | a list line inside a list writes exactly `<li>` + trimmed line minus "* " + `</li>`, with no newline |
| Markdown.HtmlCloseList | script.js:218 | a non-list line (or the end) closes an open list with `</ul>` |
| Markdown.HtmlTextLine | script.js:219 | a non-list line outside a list is copied with one newline after it |
| Markdown.FormatListWithoutLists | script.js:210-220 | without list lines the output is the input followed by one newline |
| Markdown.SeparatedLists | script.js:209-224 | "* a\n* b\ntext\n* c" gives "<ul><li>a</li><li>b</li></ul>text\n<ul><li>c</li></ul>" |
| Render.PerLineCons | script.js:228-231 | a multiline, global pattern rewrites a text line by line and keeps the line terminators |
| Render.WrapKeepsLines | script.js:228-230 | a heading substitution applied to a line adds no line terminator when its tags hold none, so the next pattern sees the same lines |
| Render.HeadingLineSteps | script.js:228-230 | on one line the passes for `### `, `## ` and `# ` in that order are the decision "longest marker wins, else unchanged" |
| Render.HeadingsPerLine | script.js:228-230 | the three passes over the whole text are one line-by-line pass of that decision |
| Render.FirstPair | script.js:231 | the index of the first "**" of a line, or -1 when there is none |
| Render.LastPair | script.js:231 | the index of the last "**" of a line, or -1 when there is none |
| Render.BoldLineIsLeftmostLongest | script.js:231 | a line is rewritten exactly when some `**…**` match exists; the rewrite is from the first "**" to the last, every match lies within that span, and no pair follows it |
| Render.BoldKeepsLines | script.js:231 | the bold replacement adds no line terminator |
| Render.Br | script.js:232 | the result holds no newline |
| Render.BrIsSplitJoin | script.js:232 | replacing every newline by `<br>` is splitting at the newlines and joining with `<br>` |
| Render.RenderAdvice | script.js:227-232 | the rendered HTML is the chain applied to `formatList`'s output, the headings decided per line, and holds no newline |
| Render.FormattedItemThenText | script.js:213-222 | a list line followed by a text line gives one list, then the line and a newline |
| Render.HeadingAfterListStaysText | script.js:218-230 | a `# ` line right after a list item is glued to `</ul>` and passes the heading patterns unchanged, while the same line alone becomes an `<h1>` |
| Language.Normalize | script.js:23 | the result is a supported code: the code itself when supported, else "az" |
| Language.InitialCode | script.js:91-93 | the starting code is always supported |
| Language.InitialCodePrecedence | script.js:91-93 | a non-empty address parameter decides (a bad one gives "az", without falling back), else a non-empty saved preference (normalised), else "az" |
| Language.IndexOf | script.js:102 | the first index holding the code, or -1 exactly when it is absent |
| Language.NextCode | script.js:102-106 | the next code is always supported |
| Language.NextCodeCycle | script.js:102-106 | az → en → ru → az, and an unknown code goes to "az" |
| Language.ThreePressesReturn | script.js:100-107 | three presses return to the starting code, passing through two other codes |
| Language.ApplyDictionary | script.js:42-48 | elements keep their order and keys; an element whose key has a non-empty entry takes it, every other one keeps its text |
| Language.Page.ChangeLanguage | script.js:22-79 | on a load failure or missing dictionary nothing changes; otherwise the whole new state: elements as above, button label from a non-empty `btn_text`, address and (when storage allows) preference set to the code, `currentLang` the code, AI section shown exactly for "en"; a reload then starts in that code |
| Language.Page.Load | script.js:83-95 | the starting code as chosen above; the page as given when loading fails or no dictionary exists, otherwise the whole state `changeLanguage` writes for that code |
| Language.Page.Toggle | script.js:98-109 | nothing changes on a failure; otherwise the whole state `changeLanguage` writes for the next code of the cycle |
| Language.Page.ReloadCode | script.js:91-93 | the code a reload would start in is supported |
| Language.ReloadKeepsChoice | script.js:91 | with a supported code in the address, a reload starts in it whatever the saved preference |
| Prompts.LanguageInstruction | server.js:31-35 | Russian exactly for "ru", Azerbaijani exactly for "az", English for anything else, a missing code included |
| Prompts.LanguageInstructionDistinct | server.js:196-200 | the three client codes get three different instructions; any other code gets the English one |
| Prompts.AnalyzePromptGpa | server.js:55 | the analyze prompt holds the line "- Current GPA: " + the GPA exactly as sent |
| Prompts.AnalyzePromptLanguage | server.js:60 | the analyze prompt holds the line "**Language:** " + the instruction for the request's code |
| Prompts.AnalyzeTextGpa | server.js:37-60 | the GPA line is present whatever the report text after it |
| Prompts.AnalyzeTextLanguage | server.js:37-60 | the language line is present whatever the report text after it |
| Prompts.ProfileBlockFields | server.js:203-214 | for fields without a newline, read back line by line, the profile block is an empty line, its heading, then name+surname, age, citizenship, education+institution, major, GPA, target, study language and language level as "- label: value" in that order, then an empty line |
| Prompts.BuildContext | server.js:203-226 | the built context is the profile block, plus the header and the entries when the history is present and not empty |
| Prompts.AppendEntries | server.js:219-225 | the loop appends exactly the entries of the messages, in array order |
| Prompts.ContextWithoutHistory | server.js:216-217 | without a history, or with an empty one, the context is exactly the profile block |
| Prompts.EntriesAppend | server.js:219-225 | the entries of two runs of messages are the entries of the first, then of the second |
| Prompts.EntriesInOrder | server.js:219-225 | the first message's entry comes first, then those of the rest |
| Prompts.EntriesSingle | server.js:220-224 | one message gives exactly its own entry |
| Prompts.ContextWithHistory | server.js:216-226 | a non-empty history adds the header and exactly its entries after the profile block |
| Prompts.ChatPromptQuestion | server.js:233-234 | the question stands verbatim in double quotes on the line right after "**New Question from <name>:**" |
| Prompts.ChatPromptContext | server.js:231-237 | the chat prompt holds the context between two newlines and the language instruction on a line of its own |
| Prompts.ReplyToError | server.js:174-179 | status 500; `details` is the message when it is non-empty, else "Unknown error occurred"; the hint exactly for the analyze endpoint |
| Prompts.RepliesAgreeOnDetails | server.js:265-269 | both endpoints report the same details for the same error and differ in the summary |

## Left out

- HTTP plumbing is not modelled: Express setup, routing, CORS, static files and `app.listen`.
- The model call is not modelled (`getGenerativeModel`, `generateContent`, `response.text()`). It is a foreign asynchronous service whose output has no specification. The advice text is simply the input of the rendering.
- Logging (`console.log`, `console.error`, `console.warn`) is left out; it only has side effects.
- `loadScript` (script.js:6-19) becomes the parameter `loaded`. The dictionaries the language files define become the parameter `translations`.
- `localStorage` is modelled as a field, with its failure as the parameter `storageOk`. A failed read at page load means the caller passes an absent preference.
- `history.pushState` is modelled as the `lang` parameter of the address only; the rest of the address is not modelled.
- `fetch`, the loader's show/hide, `window.scrollTo`, the mobile menu and the reveal effects (script.js:112-153) are user interface or asynchronous I/O with nothing to state.
- The first substitution chain (script.js:198-205) is not modelled: its result is overwritten at script.js:227.
- Concurrency is not modelled. `changeLanguage` is asynchronous: page load does not wait for it, and two quick clicks could interleave. The model runs each call to completion.
- A profile field that is `undefined` is interpolated as the text "undefined" in JavaScript. All profile fields are modelled as strings, and so are a message's `type` and `content` (an absent `content` also becomes "undefined").
- A `conversationHistory` that is truthy and has a `length` but is not an array makes `forEach` throw (server.js:219), which ends in the 500 reply. The history is modelled as an optional sequence of messages.
- The rendering is modelled for the advice the client does render, that is, when `data.advice` is non-empty (script.js:196). For an empty or missing advice the client shows a fixed error paragraph instead (script.js:235-236), and a failed request shows the connection message (script.js:239-241). Those two fixed messages are not modelled.
- A JavaScript object also answers inherited keys such as `constructor`. `Lookup` answers only the dictionary's own entries.
- An `error.message` that is not a string is not modelled; the message is an optional string.
- The regular expressions are modelled by their effect on each line, not by a regular-expression engine. The `i` flag changes nothing, because the patterns hold no letters.
- `innerHTML` and `innerText` are modelled as stored strings. The browser's parsing of the HTML is not modelled.
- `aiSection.style.display` is modelled as a boolean: `Some(true)` for "block", `Some(false)` for "none", `None` when the page has no such section.
- test_api.js and the language dictionaries under lang/ are data and a one-shot client, and are not part of this model.
- Prompts.AnalyzePromptGpa and Prompts.AnalyzePromptLanguage state presence of those two lines; the report sections (server.js:62-159) are modelled as text, and no further property is proved about their wording.
