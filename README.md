# Startup validation pipeline: a Dafny model of its decision logic

The system takes a startup idea and produces a validation report. A LangGraph
pipeline on the server fills in five analyses: idea, market, competition, risk
and SWOT. A `router` chooses the next node, and a normal or fallback node runs
depending on whether the last tool call failed. An advisor then writes
recommendations. A React front end posts the idea, normalises the JSON it gets
back, and shows one report section at a time. Each section's markdown is
styled by keyword rules.

This project models that decision logic and proves properties of it.

- **Router and edges** (`workflow.dfy`, module `Workflow`). The router is a
  method with its loop, proved equal to a specification function `Route`. The
  static edge table of `build_graph` is data, with lemmas that tie the edges
  to the router's key order.
- **Response normalisation** (`validation_api.dfy`, module `ValidationApi`).
  The received response is a value: status, text and parsed JSON.
  `fetchValidationResult` becomes a function from that value to a report or
  an error. The report record is in `validation.dfy` (module `Validation`).
- **Markdown styling** (`markdown_renderer.dfy`, module `MarkdownRenderer`).
  This covers the section palettes, `extractText`, and the list-item, icon,
  badge, block-quote and table-header choices. Each keyword policy is proved
  equal to a priority table read in order.
- **Results page** (`results_page.dfy`, module `ResultsPage`). The navigation
  list and `getContent` are pure functions. The page state (active section,
  "Copied!" flag) is a class.
- **Session** (`app.dfy`, module `App`). The `App` component's state is a
  class. It covers the success and failure paths of `handleValidate`,
  `handleBack`, and the render condition.
- **Landing page** (`landing_page.dfy`, module `LandingPage`). This covers the
  form state and its submit guard, cancel and button enablement, and the
  animation-visibility map.
- **Shared modules.** `wrappers.dfy` holds `Option` and `Result`.
  `js_strings.dfy` holds the JavaScript string operations the front end
  relies on: `toLowerCase`, `trim`, `includes`, the `\s` class and
  `String(n)`.

JavaScript semantics are written out explicitly:

- `??` treats `null` and a missing member alike.
- `trim` and `\s` use the ECMAScript WhiteSpace and LineTerminator characters.
- `/i` without `/u` never folds a non-ASCII character onto an ASCII letter. So matching the ASCII label is exact with ASCII case folding.
- The empty string is falsy.

## Model

| member | source | states |
|---|---|---|
| Workflow.Pending | graphs/workflow.py:20-24 | the analysis the loop settles on: the first key in order whose value is `None`, or none (properties in `Workflow.PendingIsFirst`) |
| Workflow.IsPending | graphs/workflow.py:22 | `state.get(key) is None`: an analysis is pending when its key is missing or holds `None`, the two cases alike |
| Workflow.LastToolFailed | graphs/workflow.py:17-29 | the log is non-empty and its last message is a tool message whose content is exactly `tool_failed`; an empty log never counts as a failure |
| Workflow.Route | graphs/workflow.py:16-52 | the router as a function of the state: advisor when nothing is pending, else the fallback or primary node of the pending key (properties in the `Workflow.Route…` lemmas) |
| Workflow.PrimaryNode | graphs/workflow.py:41-50 | the node each analysis key routes to normally |
| Workflow.FallbackNode | graphs/workflow.py:30-39 | the node each analysis key routes to after a failed tool call |
| Workflow.KeyName | graphs/workflow.py:21 | the state key of each analysis, as the router's key list spells it |
| Workflow.NodeName | graphs/workflow.py:58-72 | the name each node is registered under, which is what the router returns |
| Workflow.KeyNamesDistinct | graphs/workflow.py:21 | the five state keys are pairwise distinct: two analyses have the same key iff they are the same analysis |
| Workflow.NodeNamesDistinct | graphs/workflow.py:58-72 | the twelve registered node names are pairwise distinct, so a returned name selects exactly one node |
| Workflow.FallbackNames | graphs/workflow.py:58-68 | each fallback node's name is its primary node's name followed by `_fallback` |
| Workflow.RouteName | graphs/workflow.py:26-50 | the router returns "advisor" when nothing is pending, else the primary node name of the pending analysis, with `_fallback` appended after a failed tool call |
| Workflow.PendingIndex | graphs/workflow.py:20-24 | the index found is the first pending key at or after `i` in key order; all earlier keys are filled |
| Workflow.Router | graphs/workflow.py:16-52 | the loop and if-chains of `router` return exactly `Route(state)`, and its final `return "advisor"` is unreachable because `pending` is always one of the five keys there |
| Workflow.RouteAdvisorIff | graphs/workflow.py:21-27 | the router picks the advisor iff no analysis is pending, whatever the messages are |
| Workflow.KeyIndex | graphs/workflow.py:21 | every analysis key has a position in the router's key list |
| Workflow.PendingIsFirst | graphs/workflow.py:20-24 | `k` is the pending key iff `k` is pending and every key before it in order is filled |
| Workflow.RouteIgnoresLaterKeys | graphs/workflow.py:20-24 | two states with the same messages that agree up to the pending key route identically; later keys are never consulted |
| Workflow.RouteToFallback | graphs/workflow.py:29-39 | if the last message is a tool message with content "tool_failed", the pending key's fallback node runs |
| Workflow.RouteToPrimary | graphs/workflow.py:41-50 | otherwise the pending key's primary node runs |
| Workflow.EmptyLogNeverFallsBack | graphs/workflow.py:17-18 | with no messages the router never returns a fallback node |
| Workflow.EdgesFollowKeyOrder | graphs/workflow.py:74-112 | the entry is the first key's primary node; the `__end__` edge of primary `i` and the plain edge of fallback `i` both go to primary `i+1`, or to the advisor after SWOT |
| Workflow.NextStep | graphs/workflow.py:76-114 | one graph step: a primary node goes to the tool node or along its `__end__` edge, a fallback along its plain edge, the tool node to the router's choice, the advisor to the end |
| Workflow.EndPath | graphs/workflow.py:74-114 | the nodes visited from a node by repeated `NextStep` with no tool calls |
| Workflow.EndPathIsKeyOrder | graphs/workflow.py:74-114 | following the graph's own step function with no tool calls, the graph visits the five primary nodes in the router's order, then the advisor, then ends |
| Workflow.InitialState | main.py:26-37 | the state the server invokes the graph with: every analysis `None`, no messages |
| Workflow.Store | graphs/workflow.py:58-68 | the state after an analysis node has written its analysis |
| Workflow.InitialStateStartsAtEntry | graphs/workflow.py:20-27 | from the all-`None` initial state the router chooses the same node as the graph's entry point |
| Workflow.RouteFollowsProgress | graphs/workflow.py:20-52 | with the first `i` analyses filled, the router picks analysis `i` (fallback after a failed tool call), or the advisor when `i` is 5 |
| Workflow.StoreAdvances | graphs/workflow.py:21-24 | storing the next analysis in order moves progress from `i` to `i+1` |
| Workflow.EdgesAgreeWithRouter | graphs/workflow.py:76-112 | after node `i` stores its analysis, the router and the static edges of both primary and fallback `i` go to the same node; so one graph step from either node, or from the tool node, goes where the router says |
| Workflow.NextStepAfter | graphs/workflow.py:76-112 | with no tool call, primary and fallback node `i` both step to the node after analysis `i`, and the tool node steps to the router's choice |
| ValidationApi.Members | frontend/src/api/validationApi.ts:20-24 | the members of a parsed body: an object's fields, and none for any other value |
| ValidationApi.IsOk | frontend/src/api/validationApi.ts:15 | `response.ok`: a status from 200 to 299 |
| ValidationApi.Field | frontend/src/api/validationApi.ts:24-33 | a member is absent for `??` exactly when it is missing or JSON `null`; otherwise it is the raw value |
| ValidationApi.TextOrEmpty | frontend/src/api/validationApi.ts:24-32 | a text field is the raw string when present and `""` when null or missing |
| ValidationApi.Strings | frontend/src/api/validationApi.ts:33 | an array of JSON strings gives the same strings in the same order |
| ValidationApi.MessagesOrEmpty | frontend/src/api/validationApi.ts:33 | `messages` is the raw array when it is an array, and empty otherwise |
| ValidationApi.HasRiskLabel | frontend/src/api/validationApi.ts:30 | the text starts with `risk_assessment:` in any ASCII letter case |
| ValidationApi.StripRiskLabel | frontend/src/api/validationApi.ts:29-30 | the result is a suffix of the input; without a case-insensitive `risk_assessment:` prefix the text is unchanged; with one, only the label and the white space after it are removed |
| ValidationApi.StripRiskLabelRemovesLabel | frontend/src/api/validationApi.ts:30 | for a label in any ASCII case, then white space, then text not starting with white space, exactly that text remains |
| ValidationApi.StripRiskLabelExample | frontend/src/api/validationApi.ts:30 | "risk_assessment: high" becomes "high" |
| ValidationApi.StripRiskLabelAnyCase | frontend/src/api/validationApi.ts:30 | "RISK_Assessment:" followed by a tab and a newline is stripped as well |
| ValidationApi.StripRiskLabelNotIdempotent | frontend/src/api/validationApi.ts:30 | only one label is removed: a doubled label keeps its second copy, a second strip changes the text again |
| ValidationApi.StripDoubledLabel | frontend/src/api/validationApi.ts:30 | a doubled label loses its first copy and the space after it, and keeps the second |
| ValidationApi.RiskLabelIsLowerCase | frontend/src/api/validationApi.ts:30 | the label in the pattern is lower case, so it matches itself in the case-insensitive comparison |
| ValidationApi.LabelledHasRiskLabel | frontend/src/api/validationApi.ts:30 | text starting with the lower-case label is recognised as labelled |
| ValidationApi.HttpErrorMessage | frontend/src/api/validationApi.ts:17 | the error message starts with "API " |
| ValidationApi.HttpErrorMessageCarriesStatus | frontend/src/api/validationApi.ts:15-18 | the message is "API ", then the decimal digits of the status, which parse back to it, then ": ", then exactly the body text |
| ValidationApi.NormalizeRisk | frontend/src/api/validationApi.ts:29-30 | a missing or null risk becomes `""`, a string risk has its label stripped, and any other value makes the call fail |
| ValidationApi.Normalize | frontend/src/api/validationApi.ts:23-34 | the object literal built from a parsed body: `null` fails, a non-string risk fails, otherwise each field defaulted and the risk label stripped (properties in `ValidationApi.NormalizeDefaults`, `ValidationApi.NormalizeEncode`) |
| ValidationApi.FetchValidationResult | frontend/src/api/validationApi.ts:5-40 | an unreachable server is a network error; a non-ok status fails with that status and body and gives no report; an ok body that is not JSON fails; an ok JSON body gives exactly its normalisation, so a report comes only from there |
| ValidationApi.NormalizeDefaults | frontend/src/api/validationApi.ts:23-34 | for an object whose risk is a string or absent, normalisation succeeds; each text field of the report is the raw string or `""`, the risk is the stripped raw risk, and `messages` is the raw array or empty |
| ValidationApi.EncodeWellTyped | frontend/src/api/validationApi.ts:33 | a report sent as JSON passes the typing assumption, and its `messages` array reads back unchanged |
| ValidationApi.EncodeFields | frontend/src/api/validationApi.ts:24-32 | each of the eight text members of a report sent as JSON is present and holds the matching field |
| ValidationApi.NormalizeEncode | frontend/src/api/validationApi.ts:23-34 | normalising the JSON form of a report returns it with only the risk label stripped; it is returned unchanged iff the risk text has no label |
| ValidationApi.NormalizeEncodeValue | frontend/src/api/validationApi.ts:23-34 | the JSON form of a report is well typed and normalises to the report with its risk label stripped |
| ValidationApi.ExtraMemberKeepsFields | frontend/src/api/validationApi.ts:24-33 | adding a member outside the nine known keys changes none of the nine as `??` reads them |
| ValidationApi.NormalizeIgnoresExtraMembers | frontend/src/api/validationApi.ts:23-34 | members other than the nine known keys do not affect the result |
| ValidationApi.NormalizeReadsKnownFields | frontend/src/api/validationApi.ts:23-34 | two bodies that agree on the nine known members, as `??` reads them, normalise to the same result |
| ValidationApi.EmptyObjectIsEmptyReport | frontend/src/api/validationApi.ts:24-33 | `{}` normalises to the report of empty strings with no messages |
| MarkdownRenderer.AbsentSectionRendersAsDefault | frontend/src/components/MarkdownRenderer.tsx:67-71 | a renderer given no section draws list items and table headers as under the default section; default-style items get gray icons |
| MarkdownRenderer.SectionColors | frontend/src/components/MarkdownRenderer.tsx:26-58 | the header, accent, background, border and icon classes of each section (properties in `MarkdownRenderer.PalettesDiffer`) |
| MarkdownRenderer.SectionOrDefault | frontend/src/components/MarkdownRenderer.tsx:69 | a missing `section` prop selects the default palette |
| MarkdownRenderer.PalettesDiffer | frontend/src/components/MarkdownRenderer.tsx:26-58 | in every palette the icon colour equals the accent, and different sections have different palettes |
| MarkdownRenderer.Join | frontend/src/components/MarkdownRenderer.tsx:62 | `join("")` of a list of strings |
| MarkdownRenderer.ExtractText | frontend/src/components/MarkdownRenderer.tsx:60-65 | a string is itself, an array the join of its elements' texts, an element with children its children's text, anything else `""` |
| MarkdownRenderer.JoinAppend | frontend/src/components/MarkdownRenderer.tsx:62 | `join("")` distributes over concatenation of arrays |
| MarkdownRenderer.ExtractTextAppend | frontend/src/components/MarkdownRenderer.tsx:60-65 | flattening a concatenated child array concatenates the flattenings in order; flattened text flattens to itself |
| MarkdownRenderer.ExtractTextSingle | frontend/src/components/MarkdownRenderer.tsx:62 | a one-element array flattens like its element |
| MarkdownRenderer.ExtractTextChild | frontend/src/components/MarkdownRenderer.tsx:60-65 | any substring of a child's text is a substring of the whole array's text |
| MarkdownRenderer.FirstMatchIndex | frontend/src/components/MarkdownRenderer.tsx:73-95 | the index found is that of the first matching rule, or past the end when none matches |
| MarkdownRenderer.FirstMatch | frontend/src/components/MarkdownRenderer.tsx:73-95 | a priority table read in order: the value of the first matching rule, else the fallback |
| MarkdownRenderer.FirstMatchChooses | frontend/src/components/MarkdownRenderer.tsx:73-95 | a rule's value is chosen when it matches and no earlier rule does |
| MarkdownRenderer.FirstMatchCons | frontend/src/components/MarkdownRenderer.tsx:73-95 | a table is read from its head |
| MarkdownRenderer.MatchesTwo | frontend/src/components/MarkdownRenderer.tsx:75-77 | a disjunction of two keyword tests matches when either word occurs |
| MarkdownRenderer.MatchesOne | frontend/src/components/MarkdownRenderer.tsx:83 | a single keyword test matches when the word occurs |
| MarkdownRenderer.ListItemStyleOf | frontend/src/components/MarkdownRenderer.tsx:74-78 | the if-chain of `getListItemStyle` on the lower-cased text |
| MarkdownRenderer.GetListItemStyle | frontend/src/components/MarkdownRenderer.tsx:73-74 | `getListItemStyle`: the style of the flattened children |
| MarkdownRenderer.ListItemStyleIsTable | frontend/src/components/MarkdownRenderer.tsx:73-79 | the list-item style is the first matching rule (warning, success, error) on the lower-cased text, else default |
| MarkdownRenderer.ListItemStylePrecedence | frontend/src/components/MarkdownRenderer.tsx:75-78 | warning iff "risk" or "challenge" occurs; success iff not warning and "opportunity" or "growth" occurs; error iff none of those four words occurs and "critical" or "threat" does; default iff none of the six words occurs |
| MarkdownRenderer.WarningIsAbsorbing | frontend/src/components/MarkdownRenderer.tsx:75 | adding text before or after a warning item keeps it a warning |
| MarkdownRenderer.WarningChildMakesWarningItem | frontend/src/components/MarkdownRenderer.tsx:74-75 | an item with a warning child is a warning |
| MarkdownRenderer.IconOf | frontend/src/components/MarkdownRenderer.tsx:82-94 | the if-chain of `getIcon` on the lower-cased text |
| MarkdownRenderer.GetIcon | frontend/src/components/MarkdownRenderer.tsx:81-82 | `getIcon`: the icon of the flattened children |
| MarkdownRenderer.IconTailIsTable | frontend/src/components/MarkdownRenderer.tsx:90-94 | the last four icon groups are read in the order market, target, competitor, benefit, with `ChevronRight` last |
| MarkdownRenderer.IconIsTable | frontend/src/components/MarkdownRenderer.tsx:81-95 | the icon is that of the first matching group in the order feature, strength/advantage, weakness, opportunity, threat/challenge, market, target, competitor, benefit, else `ChevronRight` |
| MarkdownRenderer.ListItemView | frontend/src/components/MarkdownRenderer.tsx:118-143 | the `li` renderer's style, background, icon colour and icon for given children and section |
| MarkdownRenderer.ListItemColourBySection | frontend/src/components/MarkdownRenderer.tsx:122-134 | the list-item background does not depend on the section; a default item takes the section's icon colour; other styles use fixed colours |
| MarkdownRenderer.BadgeOf | frontend/src/components/MarkdownRenderer.tsx:146-158 | the `strong` renderer's badge from its lower-cased text |
| MarkdownRenderer.BadgeIsTable | frontend/src/components/MarkdownRenderer.tsx:146-158 | the badge is the first match of high/critical red, medium amber, low green, opportunity emerald, else gray |
| MarkdownRenderer.HighlightIsRed | frontend/src/components/MarkdownRenderer.tsx:150-151 | substring matching makes "highlight" red, through "high" |
| MarkdownRenderer.BelowIsGreen | frontend/src/components/MarkdownRenderer.tsx:150-155 | "below" is green, through "low", since neither "high", "critical" nor "medium" occurs in it |
| MarkdownRenderer.CalloutOf | frontend/src/components/MarkdownRenderer.tsx:166-180 | the `blockquote` renderer's two successive checks on its lower-cased text |
| MarkdownRenderer.CalloutIsTable | frontend/src/components/MarkdownRenderer.tsx:166-180 | critical/danger gives red with `Shield` even when risk/warning also occurs; risk/warning alone gives amber with `AlertCircle`; otherwise blue with `Lightbulb` |
| MarkdownRenderer.TableHeaderGradient | frontend/src/components/MarkdownRenderer.tsx:195-208 | the `th` renderer's gradient classes by section |
| MarkdownRenderer.GradientHue | frontend/src/components/MarkdownRenderer.tsx:197-204 | each header gradient starts with `from-` and its section's colour family |
| MarkdownRenderer.AccentHue | frontend/src/components/MarkdownRenderer.tsx:26-58 | each palette accent starts with `text-` and the same colour family |
| MarkdownRenderer.GradientsDiffer | frontend/src/components/MarkdownRenderer.tsx:197-204 | different sections have different colour families and different header gradients |
| MarkdownRenderer.GradientMatchesPalette | frontend/src/components/MarkdownRenderer.tsx:195-208 | the table-header gradient and the palette accent start in the same colour family: market blue, competition emerald, risk amber, default gray; different sections have different families and different gradients |
| ResultsPage.NavItemsShape | frontend/src/components/ResultsPage.tsx:25-35 | six navigation entries with pairwise distinct ids, in the order idea, market, competition, risk, swot, recommendations |
| ResultsPage.FindNav | frontend/src/components/ResultsPage.tsx:57 | `find` returns the first entry with the requested id (every earlier entry has another id), and nothing iff no entry has it |
| ResultsPage.ActiveNavOfSection | frontend/src/components/ResultsPage.tsx:51-57 | `advice` is a section without an entry, so `activeNav` is undefined exactly for it; otherwise it is the entry of the active section |
| ResultsPage.GetContent | frontend/src/components/ResultsPage.tsx:37-53 | `getContent`: title, text and renderer section for each active section, the idea analysis by default |
| ResultsPage.RecommendationsBody | frontend/src/components/ResultsPage.tsx:50 | the recommendations text as the template literal builds it (properties in `ResultsPage.RecommendationsBodyParts`) |
| ResultsPage.ContentOfSection | frontend/src/components/ResultsPage.tsx:37-53 | each section shows its own report field; only market, competition and risk select the renderer palettes of the same name; `advice` shows the idea analysis |
| ResultsPage.RecommendationsBodyParts | frontend/src/components/ResultsPage.tsx:50 | the recommendations text splits into "\*\*Recommendation:\*\* ", the recommendation, a blank line and the advice |
| ResultsPage.ResultsView.constructor | frontend/src/components/ResultsPage.tsx:22-23 | the page opens on `idea` with `copied` false |
| ResultsPage.ResultsView.SelectNav | frontend/src/components/ResultsPage.tsx:119 | a navigation click (sidebar here, bottom grid at line 165) sets the section to the entry's id and leaves `copied` alone |
| ResultsPage.ResultsView.CopyIdea | frontend/src/components/ResultsPage.tsx:59-63 | the clipboard receives the startup idea and `copied` becomes true |
| ResultsPage.ResultsView.CopyTimerFired | frontend/src/components/ResultsPage.tsx:62 | the timer sets `copied` back to false and leaves the section alone |
| ResultsPage.ShowsErrorBanner | frontend/src/components/ResultsPage.tsx:133-137 | the warning banner is shown iff an error text is present and non-empty |
| ResultsPage.ResultsView.CurrentContent | frontend/src/components/ResultsPage.tsx:55-57 | the main pane shows the content of the active section, which always has a navigation entry |
| App.FallbackBanner | frontend/src/App.tsx:25 | the fallback error text is non-empty, so the results page shows it in its banner; no error shows no banner |
| App.Session.constructor | frontend/src/App.tsx:9-12 | the session starts with no results, no data, no error and not loading |
| App.Session.StartValidation | frontend/src/App.tsx:15-16 | the session becomes loading and the error is cleared |
| App.Session.FinishValidation | frontend/src/App.tsx:19-31 | on success the data is the result; on failure the error is the fallback text and the data is the example, so the results page shows its warning banner; either way results are shown and loading ends |
| App.Session.HandleValidate | frontend/src/App.tsx:14-32 | after a validation the results page is shown; the error is absent iff the fetch succeeded; the data is the fetched report or the example; the warning banner is shown iff the fetch failed |
| App.Session.HandleBack | frontend/src/App.tsx:34-39 | results, data and error are cleared, loading is untouched, and the landing page is shown |
| App.Session.CurrentScreen | frontend/src/App.tsx:43-51 | the results page is rendered iff `showResults` holds and data is present, with that data and error |
| App.Session.ScreenFollowsFlag | frontend/src/App.tsx:43 | under the session invariant, results are rendered exactly when `showResults` holds |
| LandingPage.Blank | frontend/src/components/LandingPage.tsx:47 | `!ideaInput.trim()` |
| LandingPage.Reveals | frontend/src/components/LandingPage.tsx:23-25 | an entry marks its key visible when it intersects and its `data-animate` key is non-empty |
| LandingPage.Reveal | frontend/src/components/LandingPage.tsx:22-27 | the functional updates of the observer callback, one per entry in order (properties in `LandingPage.RevealIsUnion`) |
| LandingPage.BlankIff | frontend/src/components/LandingPage.tsx:47 | an idea is blank for `trim` iff every character is JavaScript white space |
| LandingPage.RevealedKeys | frontend/src/components/LandingPage.tsx:22-27 | the revealed keys are exactly the non-empty keys of intersecting entries |
| LandingPage.RevealIsUnion | frontend/src/components/LandingPage.tsx:22-27 | the observer adds the revealed keys as `true` and keeps every other key's entry |
| LandingPage.RevealIsMonotone | frontend/src/components/LandingPage.tsx:26 | no key is removed and no `true` becomes `false` |
| LandingPage.QuietEntriesChangeNothing | frontend/src/components/LandingPage.tsx:23-25 | entries that are out of view or have no key leave the map unchanged |
| LandingPage.Landing.constructor | frontend/src/components/LandingPage.tsx:13-16 | the form is closed, the idea empty and nothing revealed |
| LandingPage.Landing.OpenForm | frontend/src/components/LandingPage.tsx:116 | the call-to-action buttons (this one and the one at line 384) open the form and change nothing else |
| LandingPage.Landing.EditIdea | frontend/src/components/LandingPage.tsx:141-145 | typing replaces the idea text |
| LandingPage.Landing.Cancel | frontend/src/components/LandingPage.tsx:152-156 | cancel closes the form and clears the idea |
| LandingPage.Landing.SubmitDisabled | frontend/src/components/LandingPage.tsx:163 | submit is disabled iff loading or the trimmed idea is empty |
| LandingPage.Landing.SubmitDisabledIffBlank | frontend/src/components/LandingPage.tsx:163 | at rest (loading is switched off in the same turn, lines 49-56) the page is not loading, so submit is disabled iff the idea is all white space |
| LandingPage.Landing.HandleSubmit | frontend/src/components/LandingPage.tsx:45-56 | a blank idea calls nothing and changes nothing; otherwise `onValidate` receives the untrimmed idea exactly once and loading is off again |
| LandingPage.Landing.Observe | frontend/src/components/LandingPage.tsx:21-29 | one batch of observer entries updates the map to `Reveal` of the old map |
| JsStrings.Trim | frontend/src/components/LandingPage.tsx:47 | `String.prototype.trim`: white space removed at both ends (each side's contract in `TrimStart` and `TrimEnd`) |
| JsStrings.IsJsWhitespace | frontend/src/api/validationApi.ts:30 | the characters that `\s` and `trim()` remove: ECMAScript WhiteSpace (TAB, VT, FF, SP, NBSP, ZWNBSP and every Zs character, U+1680, U+2000-U+200A, U+202F, U+205F, U+3000) plus LineTerminator (LF, CR, LS, PS) |
| JsStrings.TrimStart | frontend/src/api/validationApi.ts:30 | the `\s*` run after the label: the result is a suffix, all dropped characters are white space, and it does not start with white space |
| JsStrings.TrimEnd | frontend/src/components/LandingPage.tsx:47 | the result is a prefix, all dropped characters are white space, and it does not end with white space |
| JsStrings.Lower | frontend/src/components/MarkdownRenderer.tsx:74 | `toLowerCase` on ASCII letters: same length, each character lower-cased |
| JsStrings.Includes | frontend/src/components/MarkdownRenderer.tsx:75 | `includes`: the text occurs at some position (see `JsStrings.IncludesAt` and `JsStrings.IncludesWitness`) |
| JsStrings.IncludesAt | frontend/src/components/MarkdownRenderer.tsx:75 | an occurrence at any position makes `includes` true |
| JsStrings.IncludesWitness | frontend/src/components/MarkdownRenderer.tsx:75 | `includes` true gives a position of an occurrence |
| JsStrings.NatToString | frontend/src/api/validationApi.ts:17 | `${status}`: decimal digits with no leading zero |
| JsStrings.TrimEmptyIff | frontend/src/components/LandingPage.tsx:47 | `trim()` is empty iff every character is white space |
| JsStrings.ParseNatToString | frontend/src/api/validationApi.ts:17 | the decimal rendering of a status parses back to it |

## Left out

- The LLM nodes (idea understanding, market, competition, risk, SWOT, advisor) and the chat model setup are not modelled: they are calls to an external model. Their outputs are opaque strings stored by `Workflow.Store`.
- LangGraph itself is not modelled: graph compilation, `ToolNode`, and the repeated execution loop. `tools_condition` is an input bit of `Workflow.NextStep`. The `tools` node's own work, the web search, is out of scope.
- The request (the URL and the JSON body built from the idea), the HTTP transport, `fetch`, `response.text()` and `response.json()` are not modelled. `FetchValidationResult` and `HandleValidate` take the transport's outcome instead of the idea: the `Transport` parameter, which holds the status, the text and the result of JSON parsing.
- `JSON.parse` is not modelled. JSON numbers are integers in `JsonValue`, because only their non-string type matters here.
- Workflow.AgentState: only the five analyses and the message log are modelled. The router reads nothing else. Other message fields are reduced to kind and content.
- ValidationApi.Normalize requires the seven text members to be strings or null, and `messages` to be an array of strings when it is an array. Without that, the TypeScript cast would put a non-string into the string-typed report. A non-string `risk_assessment` is handled rather than required away: `.replace` throws, so it becomes the `RiskNotString` error.
- ValidationApi.FetchValidationResult has the same typing precondition, on ok JSON responses only.
- `console.error` logging and the rethrow in `fetchValidationResult` are left out. They add nothing observable beyond the error value.
- JsStrings.Lower folds ASCII letters only. `toLowerCase` also folds other scripts. Some of those letters lower-case to an ASCII letter; the Kelvin sign, for example, becomes `k`. So a keyword spelled with one is found by the renderer but not by the model. The risk-label pattern is not affected: its `/i` flag, without `/u`, never folds a non-ASCII character onto an ASCII letter.
- Rendering is not modelled: JSX, class-name concatenation, and the fixed `h1`/`h2`/`p`/`ul`/`ol`/`table`/`td`/`hr` styles. Icons are names, not components.
- The Dafny `Children` type covers strings, arrays, elements with or without children, and other values. Other React node shapes (numbers, booleans) all become `OtherValue`.
- Browser APIs are not modelled: `IntersectionObserver` registration and thresholds, `navigator.clipboard`, timer durations, `window.scrollTo`, and `preventDefault`. The clipboard text is an out-parameter; the timer firing is an explicit method.
- `exampleValidationResult` in `frontend/src/data/exampleData.ts` is a constructor parameter of `App.Session`. Its actual content does not match the string-typed report and is not modelled.
- App.Session.HandleValidate models the call with no other validation in flight. Overlapping calls are the separate `StartValidation` and `FinishValidation` steps. With those, a success that finishes after a failure keeps the fallback warning, and the invariant allows this.
- App.Session's `isLoading` is kept but not rendered anywhere by `App`.
