# WebAgent core, modelled in Dafny

WebAgent drives a browser towards a goal written in plain language. It runs a
bounded perceive, plan, execute loop:

- **Perceive:** a vision service reads a screenshot and returns a JSON
  description of the page's interactive and content elements.
- **Plan:** one planner (screenshot-based) or two planners (screenshot-based
  and markup-based, "dual mode") reply with the next action as JSON. In dual
  mode a fixed priority ladder arbitrates between the two plans.
- **Execute:** the execution module resolves the plan's element id to a live
  element through a cascade of locators, then clicks, types, selects,
  scrolls or navigates.

The loop records each planned step in `history` and ends with `final_answer`
set by an answer, a stop, an error of any kind, or the step limit.

The project models the deterministic logic of that loop.

| File | Module | What it models |
|---|---|---|
| `base.dfy` | `Base` | Python helpers the rest uses: dict values as `Option`, truthiness, ASCII `lower()`, slicing, `"\n".join`, integer printing. |
| `agent_data.dfy` | `AgentData` | The JSON records passed between modules (action, element info, perceived state, history entry), and the first-element-with-id lookup. |
| `replies.dfy` | `Replies` | Turning a service's reply text into a value: `strip()`, Markdown fence removal, JSON decoding (as a parameter), the perception shape check, the planners' fall-back to a stop plan. |
| `prompts.dfy` | `Prompts` | The planning module's text work: rendering elements, content and history into prompt lines, and the length cut at the end of markup preprocessing. |
| `arbitration.dfy` | `Arbitration` | `compare_plans` with its locator-quality heuristic, and `plan_action`'s choice between one plan and the arbitrated one. |
| `execution.dfy` | `Execution` | `_find_element_for_action` and `execute`, over a static page seen through the driver's locators. |
| `agent.dfy` | `Agent` | `SimpleWebAgent`: its fields, the `run` loop with its early exits and `for ... else` branch, `is_page_bottom`, and the reset that reuses an agent for a new goal. |

The outside world is not modelled; it arrives as parameters:

- **Per step, one `StepInput` value:** the browser's URL, whether the
  screenshot was saved, the perception result, the page markup, the two
  planners' replies, the page the execution module acts on, and whether each
  driver call raises.
- **The page:** a function from locator to the elements it matches in
  document order, or "invalid selector".
- **Parameters:** `json.loads` and `json.dumps`.

Each imperative part of the source is a method proved equal to a
specification function:

| Method | Specification function |
|---|---|
| `WebAgent.Run` | `RunSpec` |
| `WebAgent.Advance` | `Step` |
| `FindElementForAction` | `Resolve` |
| `TryTemplates` | `ScanTemplates` |
| `FindInteractable` | `FirstInteractable` |
| `Execute` | `Succeeds` |
| `RenderElements` | `FormatElements` |
| `RenderHistory` | `FormatHistory` |

The properties the program relies on are lemmas about those functions.

Behaviour of the code worth knowing:

- **Element finding.** `_find_element_for_action` (`WebAgent.py:482-576`)
  runs a fixed cascade. First it looks up the element's perceived CSS hint,
  then its XPath hint. Then, for the element's text and then its visual
  description, it tries eight XPath templates (nine for an input). An id
  the perception does not know is tried once through the planner's comment.
- **Order of the two plans.** Past the short-circuits only ties depend on
  the order: every tie goes to the plan passed first
  (`Arbitration.ArbitrationSwap`). Among the short-circuits, position also
  decides a stop against an answer, and two plans of the same kind: two
  stops or two answers go to the first plan, two errors to the second.
- **History on early failures.** No history entry is recorded when a step
  fails before it has a valid plan. Every step with a valid plan records
  exactly one entry before anything else can go wrong.
- **Error against stop.** A planning error or a failed execution overwrites
  an answer already set; a stop keeps it.
- **Planner failure.** A planner whose reply cannot be decoded yields a
  `stop` plan, not an `error` plan.

## Model

| member | source | states |
|---|---|---|
| Base.ToLower | WebAgent.py:537 | `lower()` keeps the length and maps each character through the lower-case mapping of the ASCII letters. |
| Base.Take | WebAgent.py:664 | `s[:n]` is a prefix of `s` of length `min(n, len(s))`. |
| Base.JoinSnoc | WebAgent.py:359 | Joining one more line appends the separator and that line. |
| Base.NatToString | WebAgent.py:370 | `str(n)` for a step number is a non-empty string of decimal digits. |
| Base.NatToStringDecimal | WebAgent.py:370 | `str(n)` denotes `n` and has no leading zero, so history lines are numbered in decimal. |
| AgentData.FirstWithId | WebAgent.py:487 | `next(...)` over the interactive elements gives the first position whose `id` equals the one sought, or none when no element carries it. |
| Replies.Strip | WebAgent.py:87 | Definition of `strip()` as the trailing trim of the leading trim; its properties are `StripEnds`, `StripKeepsTrimmed` and `StripIdempotent`. |
| Replies.TrimStart | WebAgent.py:87 | The leading part of `strip()` removes only white space and leaves a text that does not start with white space. |
| Replies.TrimEnd | WebAgent.py:87 | The trailing part of `strip()` removes only white space and leaves a prefix that does not end with white space. |
| Replies.StripEnds | WebAgent.py:87 | What `strip()` returns is empty or starts and ends with a non-space character. |
| Replies.StripKeepsTrimmed | WebAgent.py:87 | `strip()` leaves a text without white space at either end unchanged. |
| Replies.StripIdempotent | WebAgent.py:87 | `strip()` applied twice is `strip()` applied once. |
| Replies.FencedTextIsTrimmed | WebAgent.py:87 | `strip()` leaves a fenced reply unchanged, since it starts and ends with a backtick. |
| Replies.StripPerceptionFence | WebAgent.py:88-91 | Definition of the perception fence removal: each fence is removed when present; its properties are the two lemmas below. |
| Replies.PerceptionFenceRoundTrip | WebAgent.py:88-91 | The perception fence removal gives back exactly the body of a "```json ... ```" reply. |
| Replies.PerceptionFenceKeepsBare | WebAgent.py:88-91 | A reply with neither fence passes the perception fence removal unchanged. |
| Replies.StripPlannerFence | WebAgent.py:228-230 | Definition of the planners' fence removal as written, with Python's slice clamping (the same at 281-283); the as-written half of the finding. |
| Replies.PlannerFenceRoundTrip | WebAgent.py:228-230 | The planners' fence removal as written (the same at 281-283) gives back the body of a closed "```json" reply, and of a closed "```" reply whose body does not start with "json". |
| Replies.PlannerFenceKeepsBare | WebAgent.py:228-230 | A planner reply that does not open with a fence passes unchanged. |
| Replies.PlannerFenceCutsUnclosedReply | WebAgent.py:229 | As written, an unclosed "```json" reply loses its last three characters: `{"a":1}` comes back as `{"a"`, and `{}` as the empty text. |
| Replies.StripPlannerFenceChecked | WebAgent.py:228-230 | Definition of the corrected fence removal: the closing fence is removed only when present; the corrected half of the finding. |
| Replies.PlannerFenceCheckedCorrect | WebAgent.py:228-230 | The corrected fence removal keeps the round trip of a closed reply, agrees with the code as written on every closed "```json" reply, and returns the whole body of an unclosed one. |
| Replies.PlanOrStop | WebAgent.py:231-234 | A decoded reply is the plan; a decoding error becomes a `stop` plan whose reason names the planner and the error (the same at 284-287). |
| Replies.InterpretPlannerReply | WebAgent.py:226-234 | A planner's reply becomes the decoded action when `json.loads` succeeds on the stripped, unfenced text; otherwise it becomes a `stop` plan whose reason names the planner and the decoding error (the same handling at 279-287). |
| Replies.FencedPlannerReply | WebAgent.py:226-234 | A closed fenced planner reply is decoded from its body alone: its action, or a stop plan carrying the decoding error (`PlanOrStop`). |
| Replies.UnclosedPlannerReply | WebAgent.py:226-234 | With the corrected fence removal, an unclosed "```json" reply is decoded from everything after the opening fence. |
| Replies.JudgePerception | WebAgent.py:93-96 | A decoded perception reply is accepted exactly when it is a dict holding `interactive_elements`, and it fails as undecodable exactly when `json.loads` raised. |
| Replies.InterpretPerceptionReply | WebAgent.py:87-96 | The perception reply is accepted exactly when the stripped, unfenced text decodes to a dict holding `interactive_elements`, and then it is the decoded value. |
| Replies.FencedPerceptionReply | WebAgent.py:87-96 | A fenced perception reply is judged on its body alone. |
| Prompts.LocatorInfo | WebAgent.py:350-356 | Definition of the locator part of an element's line; its cases are `LocatorInfoCases`. |
| Prompts.ElementLine | WebAgent.py:358 | Definition of an element's line: id, type, text or description, and locator part. |
| Prompts.ContentLine | WebAgent.py:363 | Definition of a content element's line: its type and text. |
| Prompts.HistoryLine | WebAgent.py:368-370 | Definition of a history line: the step number `i+1`, URL, summary and dumped action. |
| Prompts.TextOrDescription | WebAgent.py:349 | An element's line shows its text when that is non-empty, else its visual description when that is non-empty, else "No text/desc". |
| Prompts.LocatorInfoCases | WebAgent.py:350-356 | Both usable hints give the CSS part followed by the XPath part; one usable hint gives its part alone. The "Locator: UNAVAILABLE" note appears exactly when no locator is usable and one of them is the sentinel. The locator part is empty exactly when no locator is usable and neither is the sentinel. |
| Prompts.CollectLines | WebAgent.py:347-358 | The `formatted.append` loop builds the list of lines for the items, in order. |
| Prompts.FormatElements | WebAgent.py:345-359 | The element list renders as "None" exactly when it is empty, and otherwise starts with the first element's line. |
| Prompts.RenderElements | WebAgent.py:345-359 | The loop-and-join implementation produces exactly `FormatElements`. |
| Prompts.JoinLinesAppend | WebAgent.py:359 | Rendering one more item adds exactly its line, after a newline, to the joined lines. |
| Prompts.FormatElementsAppend | WebAgent.py:345-359 | One more element adds exactly its line at the end of the rendered list (the list is just that line when it was empty). |
| Prompts.FormatContent | WebAgent.py:361-363 | The content list renders as "None" exactly when it is empty, and otherwise starts with the first element's line. |
| Prompts.FormatContentAppend | WebAgent.py:361-363 | One more content element adds exactly its line at the end of the rendered list. |
| Prompts.FormatHistory | WebAgent.py:365-371 | The history renders as "None (first step)" exactly when it is empty. |
| Prompts.RenderHistory | WebAgent.py:365-371 | The numbering loop produces exactly `FormatHistory`. |
| Prompts.FormatHistoryAppend | WebAgent.py:365-371 | Recording one more step adds exactly one line, numbered one past the previous last, at the end of the rendered history. |
| Prompts.LastIndexOf | WebAgent.py:150 | `rfind` gives the last position of the character, or -1 exactly when it does not occur. |
| Prompts.TruncateHtml | WebAgent.py:149-154 | Markup within the limit is kept. Longer markup is cut to a prefix within the limit: after the last '>' inside the limit when there is one (no '>' follows it inside the limit), else at the limit. |
| Arbitration.LocatorQuality | WebAgent.py:305-317 | The locator quality of a plan is between -1 and 2. |
| Arbitration.LocatorQualityCases | WebAgent.py:305-317 | Quality is 0 exactly for a plan that targets no element, -1 exactly when no perceived element has its id, and 2 exactly when the first element with its id has a usable locator (1 otherwise). |
| Arbitration.ComparePlans | WebAgent.py:289-331 | The arbitration always returns one of the two plans. |
| Arbitration.ArbitrationLadder | WebAgent.py:296-302 | The six short-circuit rules in their order: an error plan loses; a vision stop wins; an HTML stop wins unless the vision plan is an answer; a vision answer wins, then an HTML answer. |
| Arbitration.ArbitrationByQuality | WebAgent.py:319-338 | Past the short-circuits the plan of strictly higher quality wins and every tie goes to the vision plan. |
| Arbitration.ArbitrationSwap | WebAgent.py:319-331 | Swapping the two plans keeps the choice exactly when their qualities differ or the plans are equal. |
| Arbitration.StopAgainstAnswer | WebAgent.py:298-301 | A stop against an answer goes to the vision plan in both orders. |
| Arbitration.PlanAction | WebAgent.py:172-182 | In dual mode with markup at hand the plan is the arbitrated one (`ComparePlans`); otherwise it is the vision plan. |
| Execution.ClickableProbe | WebAgent.py:511-520 | The clickable wait yields an element exactly when the locator is valid and its first match is displayed and enabled, and then yields that match. |
| Execution.FirstInteractable | WebAgent.py:566-568 | The first displayed and enabled element of a match list, or none when there is none. |
| Execution.HeuristicXPaths | WebAgent.py:549-560 | There are eight text templates, and nine for an input. |
| Execution.InputTemplatesExtendCommon | WebAgent.py:559-560 | An input's template list is the common list with the placeholder template appended last. |
| Execution.SearchTexts | WebAgent.py:543 | The search texts are the element's text, then its visual description, each only when non-empty. |
| Execution.ScanTemplates | WebAgent.py:563-571 | A hit from a text's templates is a displayed and enabled element. |
| Execution.ScanTexts | WebAgent.py:545-573 | An element found by the search texts is displayed and enabled. |
| Execution.ScanTextsFirstHit | WebAgent.py:545-569 | The first search text whose templates hit decides the element. |
| Execution.ScanTextsDefers | WebAgent.py:545-573 | A search text whose templates are exhausted or abandoned defers to the texts after it. |
| Execution.Resolve | WebAgent.py:482-576 | Every element the cascade locates is displayed and enabled. |
| Execution.ScanTemplatesHitsAt | WebAgent.py:563-569 | When all earlier templates are valid and match nothing usable, and template `k` matches a usable element, the text's search returns the first displayed and enabled match of template `k`. |
| Execution.ScanTemplatesAbortsAt | WebAgent.py:563-573 | An invalid template after barren ones abandons the remaining templates of that text. |
| Execution.ScanTemplatesExhausts | WebAgent.py:563-571 | When every template is valid and matches nothing usable, the text is exhausted. |
| Execution.CommentXPath | WebAgent.py:498 | Definition of the single XPath built from the planner's comment. |
| Execution.ResolveNeedsIdOrComment | WebAgent.py:483-505 | No element id, or an unknown id without a comment, locates nothing. |
| Execution.ResolveByComment | WebAgent.py:489-505 | For an unknown id with a comment, the first match of the comment XPath is returned when it is displayed and enabled. An invalid comment selector escapes as an exception; otherwise nothing is located. |
| Execution.ResolveCssFirst | WebAgent.py:509-520 | A usable CSS hint whose first match is clickable decides the element, whatever the XPath hint or the texts would find. |
| Execution.ResolveXPathSecond | WebAgent.py:522-533 | The XPath hint decides when the CSS hint is unusable or its probe fails and the XPath probe succeeds. |
| Execution.ResolveHeuristicThird | WebAgent.py:535-576 | When neither hint yields a clickable element, the heuristic search over the element's text and visual description decides the result, with the element type lower-cased. |
| Execution.FindElementForAction | WebAgent.py:482-576 | The imperative finder returns exactly the resolution `Resolve` specifies. |
| Execution.TryTemplates | WebAgent.py:563-573 | The template loop of one text, with its abandoning `except`, returns exactly `ScanTemplates`. |
| Execution.FindInteractable | WebAgent.py:566-568 | The loop over a template's matches returns exactly `FirstInteractable`. |
| Execution.FirstInteractableIsFirst | WebAgent.py:566-568 | `FirstInteractable` is fixed by the position of the first displayed and enabled element, or is none when there is no such element. |
| Execution.Succeeds | WebAgent.py:380-480 | Definition of whether `execute` reports the action as carried out, case by action type; `Execute` is proved equal to it. |
| Execution.SuccessNeedsLocatedElement | WebAgent.py:385-439 | A click, type or select succeeds only on a displayed and enabled element the cascade located, and a select only on a `select` element. An element that cannot be located fails the action. |
| Execution.Execute | WebAgent.py:380-480 | For each action type, `execute` reports success under these conditions: click and type when an element is located and the native or JavaScript interaction works; select when a located `select` element takes the option by text or by value; scroll only for "down_one_viewport" with the script run; navigate only with a URL and the page loaded. ANSWER and stop always succeed; error and unknown types always fail. |
| Agent.IsPageBottom | WebAgent.py:609-618 | Definition of `is_page_bottom`: scroll offset plus viewport height plus 10 reaches the page height. |
| Agent.PageBottomMonotone | WebAgent.py:609-618 | Scrolling further down never leaves the page bottom. |
| Agent.PageBottomExamples | WebAgent.py:618 | With the 10-pixel tolerance, a 1000-pixel page in a 500-pixel viewport is at the bottom from offset 490 on. |
| Agent.StepEntry | WebAgent.py:664-688 | A step's history entry holds the planned action, the step's URL and the first 100 characters of the perceived summary (of "No summary" when there is none). |
| Agent.Step | WebAgent.py:636-727 | Definition of one pass of the loop body, from the history and answer before it; `Advance` is proved equal to it. |
| Agent.StepProceeds | WebAgent.py:636-727 | A step continues the loop exactly when it reaches planning with a non-final, valid plan that executes and settles. Such a step appends its entry and leaves the answer alone. |
| Agent.StepAppendsAtMostOne | WebAgent.py:681-688 | A step leaves the history alone, or appends its own entry for a plan that has an `action_type`. |
| Agent.StepRecordsValidPlan | WebAgent.py:681-688 | A step whose plan has an `action_type` records exactly its own entry, whatever follows: answer, stop, planning error, failed execution, settle fault or the next step. |
| Agent.RunFrom | WebAgent.py:634-731 | Definition of the loop from a given step, including the `for ... else` branch. |
| Agent.RunSpec | WebAgent.py:623-742 | Definition of `run`: a WebDriver fault in the initial navigation ends it at once, otherwise the loop from step 0; `Run` is proved equal to it. |
| Agent.RunFromProceeds | WebAgent.py:634-727 | A step that proceeds records its entry and hands over to the next step. |
| Agent.RunFromHalts | WebAgent.py:634-727 | A step that does not proceed ends the run with the history and answer it leaves. |
| Agent.RunAppendsBounded | WebAgent.py:634-731 | The loop only appends to the history: at most one entry per remaining step, each for a plan with an `action_type`. |
| Agent.RunHaltsAt | WebAgent.py:634-727 | If steps before `k` proceed and step `k` does not, the run ends with what step `k` leaves, after the entries of the earlier steps. |
| Agent.RunExhaustsSteps | WebAgent.py:729-731 | If every step proceeds, each records its entry and the run ends with "Max steps reached." unless an answer was already set. |
| Agent.AnswerEndsRun | WebAgent.py:691-694 | An ANSWER plan ends the run with its content as the final answer, after being recorded. |
| Agent.StopEndsRun | WebAgent.py:695-699 | A stop plan ends the run after being recorded. It keeps an answer already set and otherwise records the planner's reason. |
| Agent.ErrorEndsRun | WebAgent.py:700-704 | A planning error ends the run after being recorded, and its message replaces any answer already set. |
| Agent.EarlyFailureRecordsNothing | WebAgent.py:636-684 | A step that fails before it has a valid plan ends the run without recording anything for itself. Such failures are a driver fault, no screenshot, a perception error, unreadable markup, or a plan without an `action_type`. |
| Agent.FailedExecutionIsRecorded | WebAgent.py:707-713 | An action the execution module reports as failed is still in the history, and the run ends naming it. |
| Agent.WebAgent.constructor | WebAgent.py:581-606 | A new agent keeps its goal, start URL and mode, and starts with an empty history, 15 steps and no answer. |
| Agent.WebAgent.Run | WebAgent.py:623-747 | `run` leaves exactly the history and final answer `RunSpec` gives from the old ones. |
| Agent.WebAgent.Advance | WebAgent.py:636-727 | One pass of the loop body leaves exactly the history, final answer and break decision that `Step` gives. |
| Agent.WebAgent.StartNewGoal | WebAgent.py:795-797 | Reusing the agent replaces the goal and clears the history and the answer. |

## Left out

- Perception and planning services: the model calls, prompt texts and image upload are not modelled. Their replies are inputs.
- JSON: `json.loads` and `json.dumps` are parameters.
- JSON null in a field is treated like an absent key. Where the code reads such a field with `.get(key, default)` and a null is present, it gets `None` instead of the default. The model therefore differs on these nulls:
  - a null `summary` in the perceived state: `None[:100]` raises at WebAgent.py:664 and the run ends with "Unexpected Error: …" (lines 743-747); the model records "No summary" and goes on;
  - a null `interactive_elements`: iterating it raises at WebAgent.py:310 (ending the run as an unexpected error) or at 487 (failing the action); the model has a list of elements;
  - a null `type` of an interactive element: `lower()` raises at WebAgent.py:537, so `execute` reports failure; the model searches with an empty type;
  - a null `direction` of a scroll: the scroll fails at WebAgent.py:442-443; the model takes the default and scrolls one viewport down;
  - a null `reason` of a stop: the answer reads "Stopped by planner: None" (lines 696-698); the model uses "No reason specified";
  - a null `message` of an error plan: the answer reads "Planning Error: None" (lines 701-703); the model uses "Unknown planning error";
  - a null element `id` or `type`, or a null content `type` or `text`: rendered as "None" (lines 358, 363); the model renders "Unknown" or "N/A".
- Plans with a null `action_type`: the code treats such a plan as a valid plan of unknown type (recorded, then failed in execution). The model treats it as a plan without an `action_type`, which ends the run as an invalid plan.
- A planner reply that decodes to JSON that is not an object is not modelled; a decoded plan is always an action record.
- Base.ToLower: lower-cases ASCII letters only, not the whole Unicode case mapping of Python's `lower()`.
- Markup preprocessing (`_preprocess_html`): the BeautifulSoup cleaning and its exception fallback are not modelled; only the final length cut is (`TruncateHtml`).
- `plan_action`'s branch for a perceived state that carries an `error` key is not modelled: the loop stops on such a state before planning, so the branch is never reached from `run`.
- Selenium 4 is assumed: an invalid selector raises `InvalidSelectorException`, a `WebDriverException` and not a `NoSuchElementException`. It therefore escapes the comment fallback (line 502) and abandons a search text's remaining templates (line 570 does not catch it). Under Selenium 3 both would go on instead.
- Waits, timeouts and sleeps are not modelled. The page is static, so an element's state does not change while the driver waits for it; stale element references cannot occur.
- Agent.WebAgent.Run: the `except Exception` branch ("Unexpected Error") is not modelled. Every exception modelled is a WebDriver exception.
- Screenshot files and their clean-up, console output, and the driver set-up in the constructor are not modelled.
- The interactive prompt loop: reading goals, changing the target URL, and navigating back to it on reuse are not modelled. Only the state reset is.
- `is_page_bottom` only feeds the prompts; the loop reads it through the step's driver fault (when the script raises).
- Scroll positions and heights are integers; the browser may report fractions.
- Replies.InterpretPlannerReply: uses the corrected fence removal (see Findings). The as-written slicing is modelled separately as `StripPlannerFence`.

## Findings

| source | as written | input that shows it | evidently intended | confidence | as-written member | corrected member |
|---|---|---|---|---|---|---|
| WebAgent.py:229 (also 230, 282, 283) | After an opening "```json" (or "```") the reply is sliced with `[7:-3]` (or `[3:-3]`), which drops the last three characters whether or not a closing fence is there. | The reply "```json{\"a\":1}" with no closing fence becomes `{"a"`, which no longer decodes, so the planner falls back to a stop plan. | Remove the closing fence only when the reply ends with one, as the perception module does at lines 88-91. | not executed | Replies.PlannerFenceCutsUnclosedReply | Replies.PlannerFenceCheckedCorrect |
