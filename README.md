# Discord account generator: the captcha solver and the account helpers

This project models the decision logic of a Discord account generator.
It proves properties of that model in Dafny.

Scope:
- **The hCaptcha solver** (`src/hcaptcha.ts`):
  - one solving attempt (`tryToSolve`);
  - the answer builder that turns object-detection output into per-task "true"/"false" answers (`getAnswersTF`);
  - the retry loop (`solveCaptcha`).
- **Its helpers** (`src/utils.ts`): `randomString`, `rdn`, the prediction loop of `tensor`, and `mm`.
- **The string logic of the generator** (`src/index.ts`):
  - the IMAP message handler that finds a Discord mail and extracts its "Verify Email: " link;
  - the result test of `createAlias`;
  - the date of birth and the e-mail address sent at registration;
  - the choice and reading of a proxy line.

Everything an attempt learns from outside is an input:
- the replies of the checksiteconfig, getcaptcha and checkcaptcha endpoints;
- the proof strings `getHSL`/`getHSW` produce;
- `Date.now()`;
- every `Math.random()` value;
- the detector's output for each image URL;
- the cursor routes of the mouse-path library.

A reply is `Answered(data)` or `Failed(error)`: an awaited call resolves or throws. An error's `statusCode` is the thrown object's own `statusCode` property, `None` when it has none. Every hCaptcha request passes `validateStatus: () => true`, so an HTTP error status never throws; it is an `Answered` reply whose body lacks the fields the attempt reads. Every `Math.random()` value is a real `r` with `0 <= r < 1`.

An attempt is a function `HCaptcha.Attempt`. It gives a `Run`: how the attempt ended (the value returned, `null`, or the error thrown), and every outside call it made, in order. The method `HCaptcha.TryToSolve` does the same work step by step, in three stage methods, and is proved equal to `Attempt`.

Modules:
- `Wrappers`: `Option` and `Result`.
- `Js`: the JavaScript built-ins the code calls. These are `startsWith`, `split`, `replace` (first occurrence only), `charAt`, `toUpperCase`, `Number.prototype.toString` and `parseInt`. `indexOf` is modelled because `split` and `replace` locate their separator with it. `Js.Join` is not called by the code: it is the reference inverse that `Js.JoinSplit` uses to state the round trip of `split`. The `includes` of src/index.ts:78 is array membership, written with `in`.
- `Utils`: `src/utils.ts`.
- `HCaptcha`: `src/hcaptcha.ts`.
- `Generator`: the modelled parts of `src/index.ts`.

Where the code does something other than what a reader would expect of a captcha solver, the model follows the code:
- **Answers.** One would expect a task to be answered "true" when *any* detection matches. The code destructures `let [data] = res` and looks at the *first* detection only; so does the model (`HCaptcha.FirstDetectionOnly`).
- **Failed image.** One would expect a failed image to give "false" for that task only. In the code, a `null` result, or a first detection whose class is undefined, throws inside the `forEach`. The surrounding `catch` then returns the answers filled so far. So one failing image drops its own answer and every later one (`HCaptcha.NullResultTruncates`).
- **Errors in the retry loop.** One would expect every error to be absorbed and to drive another attempt. In the code the `try` is *outside* the `while (true)`. The first exception ends `solveCaptcha`, which returns `undefined` after waiting 30 s only when the status code is 429 (`HCaptcha.SolveCaptcha`).
- **Rate limits.** The 30 s wait tests `e.statusCode === 429`. Axios errors carry the status in `response.status`, not in `statusCode`, and `validateStatus: () => true` keeps an HTTP 429 from throwing at all. So an HTTP 429 never reaches the wait. A 429 from checkcaptcha has no `generated_pass_UUID`, so the attempt returns `null` and the loop retries at once (`HCaptcha.CheckEnding`). A 429 from getcaptcha has no `requester_question`, so reading `.en` throws a TypeError with no `statusCode`, and the loop ends without waiting (`HCaptcha.TaskRound`).
- **User-agent pick.** One would expect the user agent to be picked uniformly. The code uses `Math.round(Math.random() * (n - 1))`, which gives the first and the last agent half the weight of the others (`HCaptcha.Turn`).
- **Second site-config reply.** The answer round does not test for "hsj" again. Any descriptor other than "hsl" in the second reply is sent to `getHSW` (`HCaptcha.CheckBodyFor`).
- **Exceptions in the mail handler.** The `end` listener runs outside any `try`. A TypeError there (an absent `From`, a Discord `From` without `To`, a body without the link) or a decoding error ends the process. So no later body part is handled and no link is fetched (`Generator.Replay`, `Generator.MissingRecipientHalts`).
- **Mail bodies.** The message handler splits the body on "\r\n" only. A body with bare "\n" line ends is one line (`Generator.LineFeedsDoNotSplit`). When no line starts with "Verify Email: ", `findIndex` gives -1 and reading `lines[-1].length` throws a TypeError (`Generator.VerificationUrlNeedsPrefix`).
- **createAlias.** Its promise has no reject path. A failed request skips the `then` callback and only the chained promise rejects; an empty reply array or a missing `msg` throw inside `then`. In each case the promise of `createAlias` never settles (`Generator.CreateAlias`, outcome `NeverSettles`). An empty `msg` array gives `parseInt("undefined")`, which is NaN and passes the `id == -1` test (`Generator.AliasEmptyMessage`).

## Model

| member | source | states |
|---|---|---|
| Js.IndexFrom | src/index.ts:100 | the search result is -1 or an index where the pattern occurs, and the pattern occurs nowhere earlier from the start position |
| Js.IndexOf | src/index.ts:100 | `indexOf`: -1 exactly when the pattern occurs nowhere, otherwise its first occurrence |
| Js.StartsWith | src/index.ts:92 | `s.startsWith(prefix)`; `VerificationUrlNeedsPrefix` states its use in `findIndex` |
| Js.CharAt | src/hcaptcha.ts:221 | `s.charAt(i)`: the one-character string at `i`, "" outside the string; its use in the key test is characterised by `HCaptcha.DirectPassKeyShape` |
| Js.Split | src/index.ts:88 | `split` always yields at least one part |
| Js.JoinSplit | src/index.ts:88 | splitting on a non-empty separator loses nothing: joining the parts with it gives back the string |
| Js.SplitPartsExcludeSeparator | src/index.ts:153 | no part produced by `split` contains the separator |
| Js.SplitWithoutSeparator | src/index.ts:88 | a string without the separator splits into itself alone |
| Js.ReplaceFirst | src/index.ts:100 | `s.replace(pat, rep)` with a string pattern: only the first occurrence, located by `IndexOf`, is replaced; `Js.ReplaceLeadingOccurrence` states its effect on the verification line |
| Js.ReplaceLeadingOccurrence | src/index.ts:100 | `replace(prefix, "")` on a string starting with the prefix drops exactly that prefix |
| Js.Concat | src/index.ts:72 | the string that `+=` of every piece in turn builds from ""; `ReadStream` and `ScanLines` are proved to build it (src/index.ts:72 and :94) |
| Js.ConcatAppend | src/index.ts:94 | one more `+=` appends the piece to the concatenation so far |
| Js.ToUpper | src/hcaptcha.ts:114 | `toUpperCase` on ASCII letters, character by character; `Js.ToUpperIdempotent` and `HCaptcha.TaskAnswerIgnoresLabelCase` state what the comparison relies on |
| Js.ToUpperIdempotent | src/hcaptcha.ts:114 | upper-casing twice is upper-casing once |
| Js.Decimal | src/index.ts:184 | `toString` of a non-negative integer is a non-empty run of decimal digits with no leading zero unless the number is 0 |
| Js.DecimalValue | src/index.ts:184 | the digits of `toString(n)` read back as `n` |
| Js.ParseInt | src/index.ts:227 | `parseInt` with no radix: leading white space, an optional sign, a "0x" prefix for base 16, then the longest digit run, or NaN when there is none; `Js.ParseDecimal`, `Js.ParseNegativeDecimal` and `Js.ParseNoDigit` state its values |
| Js.ParseDecimal | src/index.ts:227 | `parseInt(String(n)) == n` for every non-negative integer |
| Js.ParseNegativeDecimal | src/index.ts:227 | `parseInt("-" + String(n)) == -n` |
| Js.ParseNoDigit | src/index.ts:227 | a string whose first character is not blank, not a sign and not a digit parses to NaN |
| Utils.ScaleBounds | src/utils.ts:36 | a draw times an integer `d` lies between 0 and `d`, strictly below `d` when `d` is positive |
| Utils.FloorScaledBounds | src/utils.ts:24 | `Math.floor(Math.random() * n)` is an index below `n` |
| Utils.FloorScaled | src/utils.ts:24 | `Math.floor(r * n)`; `FloorScaledBounds` and `FloorScaledHits` state its range and that it reaches every index |
| Utils.Round | src/utils.ts:36 | `Math.round(x)` as `floor(x + 0.5)`, halves rounded up; `Rdn` states the bounds of its use |
| Utils.FloorScaledHits | src/index.ts:157 | every index below `n` is produced by some draw, so every list entry can be picked |
| Utils.Rdn | src/utils.ts:35-37 | `rdn(start, end)` lies between the two bounds, in either order |
| Utils.RandomString | src/utils.ts:20-27 | the result has the requested length (0 for a negative one), its i-th character is the alphabet entry chosen by the i-th draw, and every character is in the alphabet |
| Utils.CharactersExcludeSeparators | src/utils.ts:22 | the alphabet has no '@', ':', '-' or space |
| Utils.ClassName | src/utils.ts:66 | `names[classes_data[i]]`, undefined past the classes or outside the table; `ClassNameTable` states when it is defined |
| Utils.ScoreAt | src/utils.ts:67 | `scores_data[i]`, undefined past the scores; `Tensor` states its place in each prediction |
| Utils.Entry | src/utils.ts:64-68 | the object pushed on turn `i`: `url`, `names[classes_data[i]]` and `scores_data[i]`; `Tensor` proves the i-th prediction is this entry |
| Utils.Count | src/utils.ts:63 | how often the loop runs: `valid_detections_data`, and 0 when it is negative; `Tensor` states that the result has this length |
| Utils.Predictions | src/utils.ts:61-72 | the pushed list as a value: `Count` entries, the i-th being `Entry(i)`; `Tensor` is proved equal to it |
| Utils.TensorResult | src/utils.ts:44-77 | what `tensor(url)` resolves to: `null` when fetching, decoding or inference threw, the predictions otherwise; `Tensor` is proved equal to it |
| Utils.Tensor | src/utils.ts:61-74 | `null` exactly when fetching or inference failed; otherwise one prediction per valid detection, in order, each with the URL, `names[classes[i]]` and `scores[i]` |
| Utils.ClassNameTable | src/utils.ts:66 | a class is defined exactly for class numbers 0..7 present in the output, and then names an entry of the table |
| Utils.Mm | src/utils.ts:85-92 | one triple `[x, y, timestamp]` per route point, in route order |
| Utils.Movements | src/utils.ts:85-92 | the value of `mm()`: one triple per route point; `Mm` is proved equal to it and `MovementsInvertible` reads the points back |
| Utils.MovementsInvertible | src/utils.ts:88-90 | each route point can be read back from its triple |
| HCaptcha.PayloadCases | src/hcaptcha.ts:161-195 | absent `c` gives the plain form; `null` gives the TypeError of reading `type`; a descriptor gives the proof form with exactly "hsl" going to getHSL |
| HCaptcha.IsHsj | src/hcaptcha.ts:161 | `response.c != undefined && response.c.type === "hsj"`: a `null` descriptor is not "hsj"; `HCaptcha.HsjAborts` states its effect |
| HCaptcha.PayloadFor | src/hcaptcha.ts:169-195 | the branch a descriptor field selects; `HCaptcha.PayloadCases` characterises it |
| HCaptcha.ProofKindOf | src/hcaptcha.ts:189-192 | `type === "hsl" ? getHSL : getHSW`, used in both rounds (also src/hcaptcha.ts:268-271); `PayloadCases` states that exactly "hsl" selects getHSL |
| HCaptcha.TargetLabelRewrite | src/hcaptcha.ts:212-218 | the label is the fixed last word of the question, with "motorbus" rewritten to "bus" |
| HCaptcha.LastWord | src/hcaptcha.ts:212-213 | `requestImageArray[requestImageArray.length - 1]`; `HCaptcha.LastWordAfterSpace` states it |
| HCaptcha.TargetLabel | src/hcaptcha.ts:212-218 | `request_image`; `HCaptcha.TargetLabelRewrite` and `HCaptcha.BusPromptLabel` state its value |
| HCaptcha.SplitLastPiece | src/hcaptcha.ts:212-213 | the last piece of `split(" ")` of `a + " " + w` is `w` when `w` has no space |
| HCaptcha.LastWordAfterSpace | src/hcaptcha.ts:212-213 | the last word of a question ending in " w" is `w` |
| HCaptcha.BusPromptLabel | src/hcaptcha.ts:212-218 | the question "Please click each image containing a bus" yields the label "bus" |
| HCaptcha.DirectPassKeyShape | src/hcaptcha.ts:221-223 | a key is returned directly exactly when it has at least 3 characters, does not start with 'E' and has '_' at index 2 |
| HCaptcha.IsDirectPassKey | src/hcaptcha.ts:221 | the key test `key.charAt(0) !== "E" && key.charAt(2) === "_"`; `HCaptcha.DirectPassKeyShape` gives it in terms of the key's characters |
| HCaptcha.FirstDetectionOnly | src/hcaptcha.ts:110-116 | detections after the first never change a task's answer |
| HCaptcha.TaskAnswer | src/hcaptcha.ts:110-120 | one turn of the `forEach`; `HCaptcha.TaskAnswerRule` gives both directions of the "true" condition and of the throw |
| HCaptcha.TaskAnswerRule | src/hcaptcha.ts:110-120 | "true" exactly when the first detection's class equals the label up to case and its score exceeds 0.5; only "true"/"false" are produced; the turn throws exactly on a `null` result or an undefined first class |
| HCaptcha.TaskAnswerIgnoresLabelCase | src/hcaptcha.ts:114 | the label's case is irrelevant |
| HCaptcha.FirstRaise | src/hcaptcha.ts:107-125 | the index of the first task whose turn throws: every earlier turn decides, the turn at it throws |
| HCaptcha.FillKeys | src/hcaptcha.ts:109-121 | the answers filled before the first throw have exactly the keys of those tasks |
| HCaptcha.FillValue | src/hcaptcha.ts:117-119 | a filled task whose key is not reused later holds its own verdict |
| HCaptcha.FillSize | src/hcaptcha.ts:109-121 | with distinct task keys, `k` filled turns give `k` answers |
| HCaptcha.Fill | src/hcaptcha.ts:109-121 | the `answers` object after `k` turns; `FillKeys`, `FillValue` and `FillSize` state its keys, values and size |
| HCaptcha.Answers | src/hcaptcha.ts:107-126 | what `getAnswersTF` returns; `AnswersComplete` and `NullResultTruncates` state it for complete and truncated runs |
| HCaptcha.AnswersComplete | src/hcaptcha.ts:108-126 | when no turn throws and keys are distinct, there is exactly one answer per task key and each is that task's verdict |
| HCaptcha.NullResultTruncates | src/hcaptcha.ts:107-125 | a `null` image result at index `j` leaves only the answers of tasks before `j` |
| HCaptcha.Detect | src/hcaptcha.ts:102-105 | one `tensor` result per task, in task order |
| HCaptcha.Results | src/hcaptcha.ts:103-108 | what `Promise.all(threads)` resolves to: one `tensor` result per task in task order; `Detect` is proved equal to it |
| HCaptcha.Fetches | src/hcaptcha.ts:103-105 | the image fetches of the `tensor` calls in task order; `AnswerRoundExtends` places them right after the getcaptcha request and before the second site-config call |
| HCaptcha.GetAnswersTF | src/hcaptcha.ts:100-127 | the map built is the answer set of the tensor results, its keys all task keys |
| HCaptcha.TryToSolve | src/hcaptcha.ts:136-305 | the attempt run step by step ends and calls exactly as `Attempt` |
| HCaptcha.RequestTasks | src/hcaptcha.ts:198-230 | from the getcaptcha request on, the attempt is `TaskRound` |
| HCaptcha.SubmitAnswers | src/hcaptcha.ts:225-304 | from the answers on, the attempt is the answer round |
| HCaptcha.Attempt | src/hcaptcha.ts:136-305 | `tryToSolve` as a value: its ending and its calls; `AttemptStages`, `TaskRequestSent`, `AnswerRoundOutcome` and `ReturnedValues` state what it does |
| HCaptcha.FirstForm | src/hcaptcha.ts:158-196 | the first-round form built from the first site-config reply; `FirstFormCalls` states its calls |
| HCaptcha.PlainTaskForm | src/hcaptcha.ts:170-178 | the getcaptcha form without a descriptor: sitekey, host, hl "en", motion data `{st, mm}` not stringified; `TaskFormCases` and `PlainTaskRequest` state it |
| HCaptcha.ProofTaskForm | src/hcaptcha.ts:180-195 | the getcaptcha form with a descriptor: stringified motion data `{st, dct, mm}`, `n`, `v` and the stringified `c`; `TaskFormCases` and `ProofTaskRequest` state it |
| HCaptcha.PlainCheckBody | src/hcaptcha.ts:244-256 | the checkcaptcha body without a descriptor: `n: null`, `c: "null"`, stringified motion data; `AnswerRoundSubmission` states its answers |
| HCaptcha.ProofCheckBody | src/hcaptcha.ts:258-274 | the checkcaptcha body with a descriptor: `n`, `v` and the stringified `c`; `AnswerRoundSubmission` states its answers |
| HCaptcha.TaskFormFor | src/hcaptcha.ts:166-196 | the getcaptcha form or the attempt's end; `TaskFormCases` states every case |
| HCaptcha.TaskRound | src/hcaptcha.ts:198-230 | the attempt from the getcaptcha request on; `TaskRoundExtends`, `TaskRoundSubmission`, `PassUuidShortCircuits` and `DirectKeyShortCircuits` state it |
| HCaptcha.AnswerRound | src/hcaptcha.ts:225-304 | the attempt from the answers on; `AnswerRoundExtends` states the image fetches and then the second site-config check, `AnswerRoundSubmission` and `AnswerRoundOutcome` the submission and the ending |
| HCaptcha.CheckBodyFor | src/hcaptcha.ts:240-275 | the checkcaptcha body built like the form, with no "hsj" test; `AnswerRoundSubmission` states what it carries |
| HCaptcha.CheckEnding | src/hcaptcha.ts:299-304 | the truthy `generated_pass_UUID` of the check reply, otherwise `null`; `AnswerRoundOutcome` and `ReturnedValues` state its use |
| HCaptcha.Truthy | src/hcaptcha.ts:299 | JavaScript truthiness of a string or absent value: present and non-empty; `ReturnedValues` and `SolveCaptcha` use it |
| HCaptcha.HsjAborts | src/hcaptcha.ts:161-164 | an "hsj" descriptor returns `null` after the site-config call and nothing else |
| HCaptcha.TaskFormCases | src/hcaptcha.ts:166-196 | the getcaptcha form per descriptor field: plain motion data with `st` only; a TypeError on `null`; a proof call, then a stringified form with `st`, `dct`, `n`, `v` and `c` or the proof's error |
| HCaptcha.AttemptStages | src/hcaptcha.ts:150-205 | an attempt either reaches the getcaptcha request with its first form, or ends after one or two calls with an error or `null` |
| HCaptcha.FirstFormCalls | src/hcaptcha.ts:151-196 | before getcaptcha, the attempt makes the site-config call and at most one proof call, and no submission |
| HCaptcha.AnswerRoundExtends | src/hcaptcha.ts:225-297 | the answer round keeps the earlier calls, then fetches every task's image in task order, then checks the site config a second time |
| HCaptcha.TaskRoundExtends | src/hcaptcha.ts:199-230 | `TaskRound` appends the getcaptcha call first |
| HCaptcha.TaskRequestSent | src/hcaptcha.ts:150-205 | getcaptcha is requested exactly when the first stages succeed, right after their calls and with their form |
| HCaptcha.PlainTaskRequest | src/hcaptcha.ts:169-205 | with no descriptor the second call is getcaptcha with `hl` "en" and motion data `st = now + rdn(30, 120)` and the route's triples |
| HCaptcha.ProofTaskRequest | src/hcaptcha.ts:179-205 | with a non-hsj descriptor the second call computes the proof; its failure ends the attempt with that error; otherwise the getcaptcha form carries `n`, `v` and `c` |
| HCaptcha.PassUuidShortCircuits | src/hcaptcha.ts:207-209 | a pass UUID in the getcaptcha reply is returned and no image is fetched or answer submitted |
| HCaptcha.DirectKeyShortCircuits | src/hcaptcha.ts:220-223 | a direct-pass key is returned as the result with no answer step |
| HCaptcha.AnswerRoundSubmission | src/hcaptcha.ts:229-297 | a submission made in the answer round is the last call, under the key, with the computed answers, and ends the attempt as the check reply says |
| HCaptcha.TaskRoundSubmission | src/hcaptcha.ts:198-297 | the same from the getcaptcha request: the submitted answers are those for the label and task list of the reply |
| HCaptcha.AnswerRoundOutcome | src/hcaptcha.ts:225-301 | in an attempt, a checkcaptcha call is the last call, uses the reply's key, carries the answers of its tasks, and the attempt ends with the truthy pass UUID or `null` |
| HCaptcha.ReturnedValues | src/hcaptcha.ts:207-304 | a returned token is the getcaptcha pass UUID, a direct-pass key, or a truthy checkcaptcha pass UUID |
| HCaptcha.PassUuidScenario | src/hcaptcha.ts:199-209 | a plain site config and a getcaptcha pass UUID "abc-123" give "abc-123" after two calls |
| HCaptcha.TurnPicksAgent | src/hcaptcha.ts:317-319 | the user-agent index is inside a non-empty list |
| HCaptcha.Turn | src/hcaptcha.ts:317-327 | one loop turn: the `Math.round` user-agent index, a TypeError outside the list, otherwise the attempt's ending; `TurnPicksAgent` states the index bound |
| HCaptcha.Retries | src/hcaptcha.ts:328-330 | a turn after which the loop goes round again: a falsy returned value; `SolveCaptcha` states the loop in its terms |
| HCaptcha.SolveCaptcha | src/hcaptcha.ts:313-340 | the loop returns the first truthy result after only falsy ones; the first exception ends it, waiting only when the thrown error's `statusCode` is 429; it is still looping exactly when every modelled attempt returned a falsy value |
| Generator.FindPrefixed | src/index.ts:92 | `findIndex`: -1 or the first line starting with the prefix |
| Generator.RunEnd | src/index.ts:92-98 | the loop stops at the first line of length 1 or less, or at the end |
| Generator.RunEndAt | src/index.ts:92-98 | a run of long lines ended by a short line or the end is exactly where the loop stops |
| Generator.VerificationUrl | src/index.ts:86-100 | the URL a body yields, or the TypeError; `VerificationUrlNeedsPrefix`, `VerificationUrlValue` and `LineFeedsDoNotSplit` state it |
| Generator.UrlOfLines | src/index.ts:92-100 | the same for a body already split into lines; `ScanLines` is proved equal to it |
| Generator.VerificationUrlNeedsPrefix | src/index.ts:88-98 | a URL is extracted exactly when some line starts with "Verify Email: ", otherwise a TypeError is thrown |
| Generator.VerificationUrlValue | src/index.ts:88-100 | the URL is the first prefixed line after the prefix, followed by the next lines up to the first short one |
| Generator.LineFeedsDoNotSplit | src/index.ts:88 | a body without "\r\n" not starting with the prefix throws |
| Generator.ExtractVerificationUrl | src/index.ts:86-100 | the split, the loop and the replace give the URL of `VerificationUrl` |
| Generator.ScanLines | src/index.ts:92-100 | the loop and the replace on split lines give `UrlOfLines` |
| Generator.BodyBuffer.constructor | src/index.ts:70 | the buffer starts empty |
| Generator.BodyBuffer.OnData | src/index.ts:71-73 | each chunk is appended to the buffer |
| Generator.ReadStream | src/index.ts:69-73 | the buffer ends as all chunks in order |
| Generator.IsDiscordHeader | src/index.ts:78 | `headers.from.includes('Discord <noreply@discord.com>')`: membership in the array of `From` values; `ReplayNeedsDiscordHeader` states its role |
| Generator.HeaderStep | src/index.ts:76-81 | the header branch: a TypeError on an absent `From`, the mark and `to[0]` for a `From` holding the Discord sender (`IsDiscordHeader`), a TypeError on an absent `To` |
| Generator.Recipient | src/index.ts:80 | `headers.to[0]`: the first `To` value, `undefined` for an empty array; `ReplayUser` states where it ends up |
| Generator.SetsUser | src/index.ts:78-80 | a header part with a Discord `From` and a present `To`, the only kind that assigns `user` |
| Generator.TextStep | src/index.ts:82-117 | the text branch: nothing unless marked; otherwise the decoding error, or the decoded body's URL fetched, or its TypeError thrown |
| Generator.Step | src/index.ts:75-118 | the `end` handler for one part; `MessageHandler.OnEnd` is proved to perform it and `ReplayNeedsDiscordHeader` states what it permits |
| Generator.Replay | src/index.ts:65-121 | a message's parts handled in order, one action per part up to and including the first exception; an exception is only ever the last action, and without one every part gets its action |
| Generator.Halted | src/index.ts:75-118 | the actions so far end with an uncaught exception |
| Generator.ReplayHalts | src/index.ts:75-118 | once an exception was thrown, further parts change neither the state nor the actions |
| Generator.MissingRecipientHalts | src/index.ts:78-80 | a Discord header without `To` throws and the following text part gets no action, so no link is fetched |
| Generator.DiscordHeaderBeforeGrows | src/index.ts:76-81 | a Discord header among the first parts stays one when parts are added |
| Generator.ReplayNeedsDiscordHeader | src/index.ts:76-82 | a message is marked, and a link fetched, only after a header part whose `From` holds "Discord <noreply@discord.com>" |
| Generator.ReplayUser | src/index.ts:76-82 | after the handled parts, `user` is `to[0]` of the last handled part that sets it, and "" when none does |
| Generator.MessageHandler.constructor | src/index.ts:66-67 | `discordMail` false and `user` "" |
| Generator.MessageHandler.OnEnd | src/index.ts:75-118 | the `end` handler updates the two variables and acts as one step of the handler |
| Generator.HandleMessage | src/index.ts:65-121 | the handler run over a message's parts, stopping at the first exception, gives exactly the actions of `Replay` |
| Generator.AliasIdRoundTrip | src/index.ts:224-227 | a "success" reply whose last message is `String(n)` yields mailbox id `n` |
| Generator.AliasRejected | src/index.ts:228-229 | any other type fails the mailbox creation |
| Generator.AliasMinusOne | src/index.ts:168-171 | a "success" whose last message is "-1" also fails it |
| Generator.AliasEmptyMessage | src/index.ts:227 | an empty `msg` yields NaN and passes the -1 test |
| Generator.CreateAlias | src/index.ts:211-233 | the promise of `createAlias`: `parseInt` of the last message on "success", -1 for another type, never settling otherwise; the `Alias` lemmas state its cases |
| Generator.LastMessage | src/index.ts:227 | `msg[msg.length - 1]` as `parseInt` reads it: "undefined" for an empty array; `AliasIdRoundTrip` and `AliasEmptyMessage` state the results |
| Generator.MailboxCheck | src/index.ts:168-171 | the `id == -1` test; the `Alias` lemmas state where it fails |
| Generator.BirthYear | src/index.ts:184 | the year lies in 1990..2001 |
| Generator.BirthMonth | src/index.ts:184 | the month lies in 1..12 |
| Generator.BirthDay | src/index.ts:184 | the day lies in 1..28 |
| Generator.DecimalHasNoDash | src/index.ts:184 | the decimal form of a number has no '-' |
| Generator.DashTripleSplit | src/index.ts:184 | three dash-free fields joined with '-' split back into the same three |
| Generator.DateOfBirthFormat | src/index.ts:184 | the date splits on '-' into three unpadded numbers that parse back to the year, month and day |
| Generator.DateFieldsReachable | src/index.ts:184 | every year 1990..2001, month 1..12 and day 1..28 is produced by some draw |
| Generator.DateOfBirth | src/index.ts:184 | `date_of_birth`; `DateOfBirthFormat` and `DateFieldsReachable` state its shape and range |
| Generator.EmailSplit | src/index.ts:185 | an address built from an '@'-free name and domain splits back into them |
| Generator.RandomUsernameEmail | src/index.ts:158-185 | a generated username makes an address whose local part is that username |
| Generator.Email | src/index.ts:185 | `username + "@" + domain`; `EmailSplit` states that it splits back |
| Generator.ProxyFields | src/index.ts:159-160 | "host:port" and "host:port:rest" read as that host and port |
| Generator.ProxyWithoutPort | src/index.ts:159-160 | a line without ':' reads as the host with an undefined port |
| Generator.ProxyOf | src/index.ts:159-160 | `host` and `port` of the proxy agent; `ProxyFields` and `ProxyWithoutPort` state them |
| Generator.PickProxyLines | src/index.ts:153-157 | every line of the proxies file can be drawn, and a drawn line has no line feed |
| Generator.PickProxy | src/index.ts:153-157 | the line drawn from the proxies file; `PickProxyLines` states that every line can be drawn |

## Left out

- `getHSL`/`getHSW`, the browser sandbox and the token decoding behind them: their results are the `proof` and `proof2` inputs, and the module-level `version` is the proof's version string.
- The HTTP layer (axios, headers, `qs.stringify`, URLs, the proxy configuration): each call is a `Call` value with its form or body, and its reply is an input. Headers and the user-agent string itself are not modelled; a turn only checks that the picked index exists.
- `JSON.stringify`: motion data and descriptors are kept as values with a flag that says whether they were sent stringified.
- `fixUnicode` is a function parameter.
- Image fetching, decoding and TensorFlow inference are the `inference` input, with `None` when any of them threw. `Promise.all` concurrency is not modelled; results are taken in task order.
- The mouse-path library: routes are inputs.
- `sleep`, logging, `Date.now()` and the 30-second `setTimeout`: clocks are inputs, and the wait is the `waitedForRateLimit` flag.
- Floating point: `Math.random()`, scores and routes are exact reals. `Math.floor`/`Math.round` are on reals, so IEEE rounding is not modelled.
- Utils.Rdn: states the bounds for exact reals; double rounding of `Math.random() * (end - start) + start` is not modelled.
- Strings are Dafny strings, sequences of Unicode scalar values. JavaScript's `length`, `charAt` and indices count UTF-16 code units, so a character outside the Basic Multilingual Plane counts once here and twice in the code. The lines below name the members where this shows; everywhere else, on BMP-only text the two agree.
- Generator.RunEnd: the test `lines[i].length > 1` counts scalar values, so a line holding one astral character (length 2 in the code) ends the link here but is appended in the code.
- HCaptcha.IsDirectPassKey: `key.charAt(0)` and `key.charAt(2)` index scalar values, so a key starting with an astral character is judged on a different character than in the code.
- Js.CharAt: indexes scalar values, not UTF-16 code units.
- Generator.HandleMessage: an uncaught exception ends the whole process; the model stops handling that message's parts, and the other messages and workers it also ends are outside the model.
- Js.ToUpper: upper-cases ASCII letters only; JavaScript's full Unicode case mapping is not modelled.
- HCaptcha.SolveCaptcha: the source loops forever, and the model runs over a finite list of attempts. `StillRetrying` stands for "no attempt in the list ended the loop".
- The puppeteer helpers of `src/hcaptcha.ts` (lines 347-407) and `tensor`'s `model` loading: browser automation, outside the solving logic.
- `src/types.ts`: type declarations only.
- In `src/index.ts`:
  - IMAP connection, search and fetch, the worker threads, `setInterval`, mariadb and `saveToDatabase`: I/O orchestration.
  - The message handler's `Imap.parseHeader` is a function parameter. The quoted-printable/UTF-8 decoding is a parameter too; it returns `Err` where `utf8.decode` throws.
  - `fs.writeFile` of the body is a side effect with no bearing on the result.
  - The verification GET is the `FetchVerification(url)` action; its outcome (resolve/reject) is not modelled.
  - `deleteAlias`: its only call is commented out.
  - The registration flow of `generateAccount` (fingerprint, register request, the `data.token` test) is not modelled. Only its date of birth, e-mail and `createAlias` test are.
  - The proxy agent built in `main` is never passed to any request; the model reads its host and port and stops there. A trailing "\r" of a CRLF proxies file stays in the port, as in the code.
