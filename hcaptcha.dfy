/**
 * The decision logic of src/hcaptcha.ts: one solving attempt (`tryToSolve`),
 * the answer builder (`getAnswersTF`) and the retry loop (`solveCaptcha`).
 *
 * Everything an attempt learns from outside is an input, a `World`: the
 * replies of the three endpoints, the proof strings the browser returns,
 * the clock, the `Math.random()` draws, the detector's output per image URL
 * and the routes of the cursor library. An attempt produces a `Run`: how it
 * ended (a returned value or a thrown error) and the calls it made, in order,
 * so that what is and is not asked for can be stated.
 */
module HCaptcha {
  import opened Wrappers
  import opened Js
  import opened Utils

  // ---------------------------------------------------------------- replies

  /** The challenge descriptor `c` of a checksiteconfig reply: its `type` and its `req` token. */
  datatype Descriptor = Descriptor(kind: string, req: string)

  /** The `c` field as the code reads it: absent, `null`, or a descriptor object. */
  datatype DescriptorField = Undefined | Null | Present(descriptor: Descriptor)

  /** What getHSL or getHSW resolves to, with the version string it stores in the module-level `version`. */
  datatype Proof = Proof(n: string, version: string)

  datatype Task = Task(datapointUri: string, taskKey: string)

  /**
   * The fields of a getcaptcha reply that the attempt reads; `None` is an
   * absent or `null` field. `question` is `requester_question.en`.
   */
  datatype CaptchaReply = CaptchaReply(
    generatedPassUuid: Option<string>,
    question: Option<string>,
    key: Option<string>,
    tasklist: Option<seq<Task>>,
    requestType: string)

  /** The field of a checkcaptcha reply that the attempt reads. */
  datatype CheckReply = CheckReply(generatedPassUuid: Option<string>)

  /** What one attempt observes, in the order it asks for it. */
  datatype World = World(
    config: Reply<DescriptorField>,
    now: int,
    jitter: real,
    route: seq<RoutePoint>,
    proof: Reply<Proof>,
    captcha: Reply<CaptchaReply>,
    now2: int,
    jitter2: real,
    inference: string -> Option<RawDetections>,
    config2: Reply<DescriptorField>,
    route2: seq<RoutePoint>,
    proof2: Reply<Proof>,
    check: Reply<CheckReply>)

  /** The two `rdn(30, 120)` jitters are `Math.random()` values. */
  predicate ValidWorld(w: World)
  {
    IsDraw(w.jitter) && IsDraw(w.jitter2)
  }

  // ---------------------------------------------------------------- requests

  datatype ProofKind = Hsl | Hsw

  /** `motionData`: `st`, `dct` when present, the `mm()` triples, and whether it was sent through `JSON.stringify`. */
  datatype Motion = Motion(st: int, dct: Option<int>, mm: seq<seq<real>>, stringified: bool)

  /** The getcaptcha form; `None` is a field that is not in the form, and `c` is the stringified descriptor. */
  datatype TaskForm = TaskForm(
    sitekey: string, host: string, hl: string, motionData: Motion,
    n: Option<string>, v: Option<string>, c: Option<Descriptor>)

  /**
   * The checkcaptcha body. `n == None` is `n: null`, `v == None` leaves `v`
   * out, `c == None` is the string "null", `c == Some(d)` is `d` stringified.
   */
  datatype CheckBody = CheckBody(
    jobMode: string, answers: map<string, string>, serverdomain: string, sitekey: string,
    motionData: Motion, n: Option<string>, v: Option<string>, c: Option<Descriptor>)

  /** An outside call an attempt makes. */
  datatype Call =
    | CheckSiteConfig
    | ComputeProof(kind: ProofKind, req: string)
    | GetCaptcha(form: TaskForm)
    | FetchImage(uri: string)
    | CheckCaptcha(key: string, body: CheckBody)

  /** How an attempt ends: the value `tryToSolve` returns (`None` is `null`), or the error it throws. */
  datatype Ending = Returned(value: Option<string>) | Threw(error: Error)

  datatype Run = Run(ending: Ending, calls: seq<Call>)

  /** JavaScript truthiness of a string-or-absent value. */
  predicate Truthy(v: Option<string>)
  {
    v.Some? && v.value != ""
  }

  // ---------------------------------------------------------------- branch selection

  /** `response.c != undefined && response.c.type === "hsj"`. */
  predicate IsHsj(c: DescriptorField)
  {
    c.Present? && c.descriptor.kind == "hsj"
  }

  /** How a form or body is built from a descriptor field: without proof, with a proof of one kind, or by reading `type` of `null`. */
  datatype Payload = Plain | Proved(kind: ProofKind, descriptor: Descriptor) | ReadsNull

  /** `response.c.type === "hsl" ? getHSL(...) : getHSW(...)`. */
  function ProofKindOf(kind: string): ProofKind
  {
    if kind == "hsl" then Hsl else Hsw
  }

  /** `if (response.c === undefined) { ...no proof... } else { ...proof... }`, in both rounds. */
  function PayloadFor(c: DescriptorField): Payload
  {
    match c
    case Undefined => Plain
    case Null => ReadsNull
    case Present(d) => Proved(ProofKindOf(d.kind), d)
  }

  /**
   * The branch a site-config reply selects: the proof comes from hsl exactly
   * for type "hsl", from hsw for every other type, and there is no proof
   * exactly when there is no descriptor.
   */
  lemma PayloadCases(c: DescriptorField)
    ensures PayloadFor(c) == Plain <==> c.Undefined?
    ensures PayloadFor(c) == ReadsNull <==> c.Null?
    ensures PayloadFor(c).Proved? <==> c.Present?
    ensures PayloadFor(c).Proved? ==> PayloadFor(c).descriptor == c.descriptor
    ensures PayloadFor(c).Proved? ==> (PayloadFor(c).kind == Hsl <==> c.descriptor.kind == "hsl")
  {
  }

  function PlainTaskForm(sitekey: string, host: string, st: int, mm: seq<seq<real>>): TaskForm
  {
    TaskForm(sitekey, host, "en", Motion(st, None, mm, false), None, None, None)
  }

  function ProofTaskForm(sitekey: string, host: string, st: int, mm: seq<seq<real>>, p: Proof, d: Descriptor): TaskForm
  {
    TaskForm(sitekey, host, "en", Motion(st, Some(st), mm, true), Some(p.n), Some(p.version), Some(d))
  }

  function PlainCheckBody(job: string, answers: map<string, string>, host: string, sitekey: string, st: int, mm: seq<seq<real>>): CheckBody
  {
    CheckBody(job, answers, host, sitekey, Motion(st, Some(st), mm, true), None, None, None)
  }

  function ProofCheckBody(job: string, answers: map<string, string>, host: string, sitekey: string, st: int, mm: seq<seq<real>>, p: Proof, d: Descriptor): CheckBody
  {
    CheckBody(job, answers, host, sitekey, Motion(st, Some(st), mm, true), Some(p.n), Some(p.version), Some(d))
  }

  // ---------------------------------------------------------------- label and key

  /** The last `" "`-separated word of the prompt. */
  function LastWord(question: string): string
  {
    var words := Split(question, " ");
    words[|words| - 1]
  }

  /** `request_image`: `fixUnicode` of the last word, with "motorbus" rewritten to "bus"; the else branch recomputes the same value. */
  function TargetLabel(question: string, fixUnicode: string -> string): string
  {
    var words := Split(question, " ");
    var target := fixUnicode(words[|words| - 1]);
    if target == "motorbus" then "bus" else fixUnicode(words[|words| - 1])
  }

  /** The label is "bus" for "motorbus", and every other normalised last word passes through unchanged. */
  lemma TargetLabelRewrite(question: string, fixUnicode: string -> string)
    ensures fixUnicode(LastWord(question)) == "motorbus" ==> TargetLabel(question, fixUnicode) == "bus"
    ensures fixUnicode(LastWord(question)) != "motorbus" ==> TargetLabel(question, fixUnicode) == fixUnicode(LastWord(question))
  {
  }

  /** Splitting on a space adds the word after the last space as the last piece. */
  lemma {:induction false} SplitLastPiece(a: string, w: string)
    requires ' ' !in w
    ensures var parts := Split(a + " " + w, " "); parts[|parts| - 1] == w
    decreases |a|
  {
    var i := IndexOf(a, " ");
    if i == -1 {
      forall j | 0 <= j < |a|
        ensures a[j] != ' '
      {
        assert a[j..j + 1] == [a[j]];
        assert !OccursAt(a, " ", j);
      }
      SplitCons(a, ' ', w);
      SplitNoChar(w, ' ');
    } else {
      var x1, x2 := a[..i], a[i + 1..];
      forall j | 0 <= j < |x1|
        ensures x1[j] != ' '
      {
        assert a[j..j + 1] == [x1[j]];
        assert !OccursAt(a, " ", j);
      }
      assert a[i..i + 1] == " ";
      assert a + " " + w == x1 + [' '] + (x2 + " " + w);
      SplitCons(x1, ' ', x2 + " " + w);
      SplitLastPiece(x2, w);
    }
  }

  /** The last word of a prompt is what follows its last space. */
  lemma LastWordAfterSpace(a: string, w: string)
    requires ' ' !in w
    ensures LastWord(a + " " + w) == w
  {
    SplitLastPiece(a, w);
  }

  /** The prompt of the bus scenario resolves to the label "bus" when the normaliser leaves plain words alone. */
  lemma BusPromptLabel(fixUnicode: string -> string)
    requires fixUnicode("bus") == "bus"
    ensures TargetLabel("Please click each image containing a bus", fixUnicode) == "bus"
  {
    assert "Please click each image containing a bus" == "Please click each image containing a" + " " + "bus";
    LastWordAfterSpace("Please click each image containing a", "bus");
  }

  /** `key.charAt(0) !== "E" && key.charAt(2) === "_"`. */
  predicate IsDirectPassKey(key: string)
  {
    CharAt(key, 0) != "E" && CharAt(key, 2) == "_"
  }

  /** The key-shape test holds exactly for keys of three or more characters with '_' third and no 'E' first. */
  lemma DirectPassKeyShape(key: string)
    ensures IsDirectPassKey(key) <==> |key| >= 3 && key[0] != 'E' && key[2] == '_'
  {
    if |key| >= 3 {
      assert CharAt(key, 2) == "_" <==> key[2] == '_';
      assert CharAt(key, 0) == "E" <==> key[0] == 'E';
    }
  }

  // ---------------------------------------------------------------- answers

  /** The outcome of the `forEach` body for one task: the answer string, or an exception. */
  datatype Verdict = Decided(value: string) | Raises

  /**
   * One turn of the `forEach` in `getAnswersTF`: destructuring `null` throws;
   * an empty list gives "false"; a first detection with an undefined class
   * throws at `toUpperCase`; otherwise "true" exactly for a class equal to
   * the label after upper-casing both and a score above 0.5.
   */
  function TaskAnswer(target: string, result: Option<seq<Prediction>>): Verdict
  {
    match result
    case None => Raises
    case Some(predictions) =>
      if predictions == [] then Decided("false")
      else
        var data := predictions[0];
        match data.className
        case None => Raises
        case Some(cls) =>
          if ToUpper(cls) == ToUpper(target) && data.score.Some? && data.score.value > 0.5
          then Decided("true")
          else Decided("false")
  }

  /** Only the first detection of a list is examined. */
  lemma FirstDetectionOnly(target: string, first: Prediction, rest1: seq<Prediction>, rest2: seq<Prediction>)
    ensures TaskAnswer(target, Some([first] + rest1)) == TaskAnswer(target, Some([first] + rest2))
  {
  }

  /** The answer rule: "true" exactly when the first detection exists, matches the label ignoring case and scores above 0.5. */
  lemma TaskAnswerRule(target: string, result: Option<seq<Prediction>>)
    ensures TaskAnswer(target, result) == Decided("true") <==>
      result.Some? && result.value != [] && result.value[0].className.Some?
      && ToUpper(result.value[0].className.value) == ToUpper(target)
      && result.value[0].score.Some? && result.value[0].score.value > 0.5
    ensures TaskAnswer(target, result).Decided? ==> TaskAnswer(target, result).value in {"true", "false"}
    ensures TaskAnswer(target, result).Raises? <==>
      result.None? || (result.value != [] && result.value[0].className.None?)
  {
  }

  /** The comparison ignores the case of the label. */
  lemma TaskAnswerIgnoresLabelCase(target: string, result: Option<seq<Prediction>>)
    ensures TaskAnswer(ToUpper(target), result) == TaskAnswer(target, result)
  {
    ToUpperIdempotent(target);
  }

  /** How many results are answered before the first that throws (all of them when none does). */
  function FirstRaise(target: string, results: seq<Option<seq<Prediction>>>): (k: nat)
    ensures k <= |results|
    ensures forall j :: 0 <= j < k ==> TaskAnswer(target, results[j]).Decided?
    ensures k < |results| ==> TaskAnswer(target, results[k]).Raises?
    decreases |results|
  {
    if results == [] || TaskAnswer(target, results[0]).Raises? then 0
    else 1 + FirstRaise(target, results[1..])
  }

  /** The `answers` object after the first `k` turns of the `forEach`. */
  function Fill(target: string, tasks: seq<Task>, results: seq<Option<seq<Prediction>>>, k: nat): map<string, string>
    requires |results| == |tasks| && k <= FirstRaise(target, results)
  {
    if k == 0 then map[]
    else Fill(target, tasks, results, k - 1)[tasks[k - 1].taskKey := TaskAnswer(target, results[k - 1]).value]
  }

  /** What `getAnswersTF` returns: the turns before the first exception, which the catch swallows. */
  function Answers(target: string, tasks: seq<Task>, results: seq<Option<seq<Prediction>>>): map<string, string>
    requires |results| == |tasks|
  {
    Fill(target, tasks, results, FirstRaise(target, results))
  }

  /** The results `Promise.all(threads)` resolves to: one `tensor` call per task, in task order. */
  function Results(tasks: seq<Task>, inference: string -> Option<RawDetections>): seq<Option<seq<Prediction>>>
  {
    seq(|tasks|, i requires 0 <= i < |tasks| => TensorResult(tasks[i].datapointUri, inference(tasks[i].datapointUri)))
  }

  /** The keys filled after `k` turns are exactly the first `k` task keys. */
  lemma {:induction false} FillKeys(target: string, tasks: seq<Task>, results: seq<Option<seq<Prediction>>>, k: nat)
    requires |results| == |tasks| && k <= FirstRaise(target, results)
    ensures Fill(target, tasks, results, k).Keys == set j | 0 <= j < k :: tasks[j].taskKey
  {
    if k > 0 {
      FillKeys(target, tasks, results, k - 1);
      assert (set j | 0 <= j < k :: tasks[j].taskKey) == (set j | 0 <= j < k - 1 :: tasks[j].taskKey) + {tasks[k - 1].taskKey};
    }
  }

  /** A task's key holds that task's answer unless a later filled task has the same key. */
  lemma {:induction false} FillValue(target: string, tasks: seq<Task>, results: seq<Option<seq<Prediction>>>, k: nat, j: nat)
    requires |results| == |tasks| && k <= FirstRaise(target, results) && j < k
    requires forall i :: j < i < k ==> tasks[i].taskKey != tasks[j].taskKey
    ensures tasks[j].taskKey in Fill(target, tasks, results, k)
    ensures Fill(target, tasks, results, k)[tasks[j].taskKey] == TaskAnswer(target, results[j]).value
  {
    if j < k - 1 {
      FillValue(target, tasks, results, k - 1, j);
    }
  }

  /** With distinct keys, `k` turns fill exactly `k` entries. */
  lemma {:induction false} FillSize(target: string, tasks: seq<Task>, results: seq<Option<seq<Prediction>>>, k: nat)
    requires |results| == |tasks| && k <= FirstRaise(target, results)
    requires forall i, j :: 0 <= i < j < |tasks| ==> tasks[i].taskKey != tasks[j].taskKey
    ensures |Fill(target, tasks, results, k)| == k
  {
    if k > 0 {
      FillSize(target, tasks, results, k - 1);
      FillKeys(target, tasks, results, k - 1);
      assert tasks[k - 1].taskKey !in Fill(target, tasks, results, k - 1);
    }
  }

  /**
   * When no result throws and all task keys are distinct, the answers have
   * exactly those keys, one entry per task, each holding its task's verdict.
   */
  lemma AnswersComplete(target: string, tasks: seq<Task>, results: seq<Option<seq<Prediction>>>)
    requires |results| == |tasks|
    requires forall i :: 0 <= i < |results| ==> TaskAnswer(target, results[i]).Decided?
    requires forall i, j :: 0 <= i < j < |tasks| ==> tasks[i].taskKey != tasks[j].taskKey
    ensures Answers(target, tasks, results).Keys == set j | 0 <= j < |tasks| :: tasks[j].taskKey
    ensures |Answers(target, tasks, results)| == |tasks|
    ensures forall j :: 0 <= j < |tasks| ==> Answers(target, tasks, results)[tasks[j].taskKey] == TaskAnswer(target, results[j]).value
  {
    var k := FirstRaise(target, results);
    assert k == |tasks|;
    FillKeys(target, tasks, results, k);
    FillSize(target, tasks, results, k);
    forall j | 0 <= j < |tasks|
      ensures Answers(target, tasks, results)[tasks[j].taskKey] == TaskAnswer(target, results[j]).value
    {
      FillValue(target, tasks, results, k, j);
    }
  }

  /** A `null` detection list ends the answers: only earlier tasks have entries, and no later task has a fallback. */
  lemma NullResultTruncates(target: string, tasks: seq<Task>, results: seq<Option<seq<Prediction>>>, j: nat)
    requires |results| == |tasks| && j < |results| && results[j].None?
    requires forall i :: 0 <= i < j ==> TaskAnswer(target, results[i]).Decided?
    ensures Answers(target, tasks, results).Keys == set i | 0 <= i < j :: tasks[i].taskKey
  {
    var k := FirstRaise(target, results);
    assert k == j;
    FillKeys(target, tasks, results, k);
  }

  /** The first loop of `getAnswersTF`: one `tensor` call per task, pushed onto `threads` in task order. */
  method Detect(tasks: seq<Task>, inference: string -> Option<RawDetections>) returns (threads: seq<Option<seq<Prediction>>>)
    ensures threads == Results(tasks, inference)
  {
    threads := [];
    for i := 0 to |tasks|
      invariant |threads| == i
      invariant forall j :: 0 <= j < i ==> threads[j] == TensorResult(tasks[j].datapointUri, inference(tasks[j].datapointUri))
    {
      var t := Tensor(tasks[i].datapointUri, inference(tasks[i].datapointUri));
      threads := threads + [t];
    }
  }

  /**
   * `getAnswersTF(request_image, tasks)`: the `tensor` calls, then a
   * `forEach` over their results that fills the answers until a turn
   * throws; the catch keeps what was filled.
   */
  method GetAnswersTF(target: string, tasks: seq<Task>, inference: string -> Option<RawDetections>) returns (answers: map<string, string>)
    ensures answers == Answers(target, tasks, Results(tasks, inference))
    ensures answers.Keys <= set j | 0 <= j < |tasks| :: tasks[j].taskKey
  {
    var threads := Detect(tasks, inference);
    answers := map[];
    var index := 0;
    while index < |threads|
      invariant index <= FirstRaise(target, threads)
      invariant answers == Fill(target, tasks, threads, index)
    {
      var verdict := TaskAnswer(target, threads[index]);
      if verdict.Raises? {
        break;
      }
      answers := answers[tasks[index].taskKey := verdict.value];
      index := index + 1;
    }
    FillKeys(target, tasks, threads, index);
  }

  // ---------------------------------------------------------------- one attempt

  /** A request being built: what to send and the calls made while building it, or how the attempt ended on the way. */
  datatype Built<T> = Ready(request: T, calls: seq<Call>) | Stopped(run: Run)

  /**
   * src/hcaptcha.ts:166-196: the getcaptcha form for a site-config descriptor field,
   * without a proof or after computing one; reading `type` of a `null`
   * descriptor, or a failing proof, ends the attempt.
   */
  function TaskFormFor(sitekey: string, host: string, c: DescriptorField, st: int, route: seq<RoutePoint>, proof: Reply<Proof>, calls: seq<Call>): Built<TaskForm>
  {
    match PayloadFor(c)
    case ReadsNull => Stopped(Run(Threw(TypeError), calls))
    case Plain => Ready(PlainTaskForm(sitekey, host, st, Movements(route)), calls)
    case Proved(kind, d) =>
      var calls := calls + [ComputeProof(kind, d.req)];
      match proof
      case Failed(e) => Stopped(Run(Threw(e), calls))
      case Answered(p) => Ready(ProofTaskForm(sitekey, host, st, Movements(route), p, d), calls)
  }

  /** src/hcaptcha.ts:243-289: the checkcaptcha body for the second descriptor field, built the same way; "hsj" is not looked for here. */
  function CheckBodyFor(job: string, answers: map<string, string>, host: string, sitekey: string, c: DescriptorField, st: int,
                        route: seq<RoutePoint>, proof: Reply<Proof>, calls: seq<Call>): Built<CheckBody>
  {
    match PayloadFor(c)
    case ReadsNull => Stopped(Run(Threw(TypeError), calls))
    case Plain => Ready(PlainCheckBody(job, answers, host, sitekey, st, Movements(route)), calls)
    case Proved(kind, d) =>
      var calls := calls + [ComputeProof(kind, d.req)];
      match proof
      case Failed(e) => Stopped(Run(Threw(e), calls))
      case Answered(p) => Ready(ProofCheckBody(job, answers, host, sitekey, st, Movements(route), p, d), calls)
  }

  /** The image fetches of the `tensor` calls, in task order. */
  function Fetches(tasks: seq<Task>): seq<Call>
  {
    seq(|tasks|, i requires 0 <= i < |tasks| => FetchImage(tasks[i].datapointUri))
  }

  /** How the checkcaptcha reply ends the attempt: the pass UUID when it is truthy, `null` otherwise. */
  function CheckEnding(check: Reply<CheckReply>): Ending
  {
    match check
    case Failed(e) => Threw(e)
    case Answered(r) => Returned(if Truthy(r.generatedPassUuid) then r.generatedPassUuid else None)
  }

  /** src/hcaptcha.ts:225-304: answer each task, check the site config again, rebuild the proof and motion data, submit. */
  function AnswerRound(sitekey: string, host: string, w: World, target: string, key: string, job: string, tasks: seq<Task>, calls: seq<Call>): Run
    requires ValidWorld(w)
  {
    var timestamp := w.now2 + Rdn(30, 120, w.jitter2);
    var answers := Answers(target, tasks, Results(tasks, w.inference));
    var calls := calls + Fetches(tasks) + [CheckSiteConfig];
    match w.config2
    case Failed(e) => Run(Threw(e), calls)
    case Answered(c) =>
      match CheckBodyFor(job, answers, host, sitekey, c, timestamp, w.route2, w.proof2, calls)
      case Stopped(run) => run
      case Ready(body, calls) => Run(CheckEnding(w.check), calls + [CheckCaptcha(key, body)])
  }

  /** src/hcaptcha.ts:198-230: request a task list; short-circuit on a pass UUID or a direct-pass key; otherwise answer. */
  function TaskRound(sitekey: string, host: string, w: World, fixUnicode: string -> string, form: TaskForm, calls: seq<Call>): Run
    requires ValidWorld(w)
  {
    var calls := calls + [GetCaptcha(form)];
    match w.captcha
    case Failed(e) => Run(Threw(e), calls)
    case Answered(cap) =>
      if cap.generatedPassUuid.Some? then Run(Returned(cap.generatedPassUuid), calls)
      else if cap.question.None? || cap.key.None? then Run(Threw(TypeError), calls)
      else if IsDirectPassKey(cap.key.value) then Run(Returned(cap.key), calls)
      else if cap.tasklist.None? then Run(Threw(TypeError), calls)
      else AnswerRound(sitekey, host, w, TargetLabel(cap.question.value, fixUnicode), cap.key.value, cap.requestType, cap.tasklist.value, calls)
  }

  /** The first-round form as the attempt builds it from its world. */
  function FirstForm(sitekey: string, host: string, w: World): Built<TaskForm>
    requires ValidWorld(w) && w.config.Answered?
  {
    TaskFormFor(sitekey, host, w.config.data, w.now + Rdn(30, 120, w.jitter), w.route, w.proof, [CheckSiteConfig])
  }

  /** `tryToSolve(userAgent, sitekey, host)` as a value: how it ends and which calls it makes. */
  function Attempt(sitekey: string, host: string, w: World, fixUnicode: string -> string): Run
    requires ValidWorld(w)
  {
    match w.config
    case Failed(e) => Run(Threw(e), [CheckSiteConfig])
    case Answered(c) =>
      if IsHsj(c) then Run(Returned(None), [CheckSiteConfig])
      else
        match FirstForm(sitekey, host, w)
        case Stopped(run) => run
        case Ready(form, calls) => TaskRound(sitekey, host, w, fixUnicode, form, calls)
  }

  /**
   * `tryToSolve` up to the getcaptcha request (src/hcaptcha.ts:152-196): `response` and
   * `timestamp` are assigned as in the source and each outside call is
   * logged in `calls` as it is made.
   */
  method TryToSolve(sitekey: string, host: string, w: World, fixUnicode: string -> string) returns (run: Run)
    requires ValidWorld(w)
    ensures run == Attempt(sitekey, host, w, fixUnicode)
  {
    var calls := [CheckSiteConfig];
    if w.config.Failed? {
      return Run(Threw(w.config.error), calls);
    }
    var response := w.config.data;
    var timestamp := w.now + Rdn(30, 120, w.jitter);
    if IsHsj(response) {
      return Run(Returned(None), calls);
    }
    var form: TaskForm;
    if response.Undefined? {
      var mm := Mm(w.route);
      form := PlainTaskForm(sitekey, host, timestamp, mm);
    } else {
      if response.Null? {
        return Run(Threw(TypeError), calls);
      }
      var mm := Mm(w.route);
      calls := calls + [ComputeProof(ProofKindOf(response.descriptor.kind), response.descriptor.req)];
      if w.proof.Failed? {
        return Run(Threw(w.proof.error), calls);
      }
      form := ProofTaskForm(sitekey, host, timestamp, mm, w.proof.data, response.descriptor);
    }
    assert FirstForm(sitekey, host, w) == Ready(form, calls);
    run := RequestTasks(sitekey, host, w, fixUnicode, form, calls);
  }

  /** `tryToSolve` from the getcaptcha request to the answers (src/hcaptcha.ts:198-230): `request_image` is assigned, then reassigned in both branches. */
  method RequestTasks(sitekey: string, host: string, w: World, fixUnicode: string -> string, form: TaskForm, calls: seq<Call>) returns (run: Run)
    requires ValidWorld(w)
    ensures run == TaskRound(sitekey, host, w, fixUnicode, form, calls)
  {
    var calls := calls + [GetCaptcha(form)];
    if w.captcha.Failed? {
      return Run(Threw(w.captcha.error), calls);
    }
    var getTasks := w.captcha.data;
    if getTasks.generatedPassUuid.Some? {
      return Run(Returned(getTasks.generatedPassUuid), calls);
    }
    if getTasks.question.None? {
      return Run(Threw(TypeError), calls);
    }
    var requestImageArray := Split(getTasks.question.value, " ");
    var requestImage := fixUnicode(requestImageArray[|requestImageArray| - 1]);
    if requestImage == "motorbus" {
      requestImage := "bus";
    } else {
      requestImage := fixUnicode(requestImageArray[|requestImageArray| - 1]);
    }
    if getTasks.key.None? {
      return Run(Threw(TypeError), calls);
    }
    var key := getTasks.key.value;
    if CharAt(key, 0) != "E" && CharAt(key, 2) == "_" {
      return Run(Returned(Some(key)), calls);
    }
    if getTasks.tasklist.None? {
      return Run(Threw(TypeError), calls);
    }
    assert requestImage == TargetLabel(getTasks.question.value, fixUnicode);
    run := SubmitAnswers(sitekey, host, w, requestImage, key, getTasks.requestType, getTasks.tasklist.value, calls);
  }

  /** `tryToSolve` from the answers to the end (src/hcaptcha.ts:225-304): `response` and `timestamp` are reassigned for the second round. */
  method SubmitAnswers(sitekey: string, host: string, w: World, requestImage: string, key: string, job: string, tasks: seq<Task>, calls: seq<Call>)
    returns (run: Run)
    requires ValidWorld(w)
    ensures run == AnswerRound(sitekey, host, w, requestImage, key, job, tasks, calls)
  {
    var timestamp := w.now2 + Rdn(30, 120, w.jitter2);
    var answers := GetAnswersTF(requestImage, tasks, w.inference);
    var calls := calls + Fetches(tasks);

    calls := calls + [CheckSiteConfig];
    ghost var checked := calls;
    if w.config2.Failed? {
      return Run(Threw(w.config2.error), calls);
    }
    var response := w.config2.data;
    var captchaResponse: CheckBody;
    if response.Undefined? {
      var mm := Mm(w.route2);
      captchaResponse := PlainCheckBody(job, answers, host, sitekey, timestamp, mm);
    } else {
      if response.Null? {
        return Run(Threw(TypeError), calls);
      }
      var mm := Mm(w.route2);
      calls := calls + [ComputeProof(ProofKindOf(response.descriptor.kind), response.descriptor.req)];
      if w.proof2.Failed? {
        return Run(Threw(w.proof2.error), calls);
      }
      captchaResponse := ProofCheckBody(job, answers, host, sitekey, timestamp, mm, w.proof2.data, response.descriptor);
    }
    assert CheckBodyFor(job, answers, host, sitekey, response, timestamp, w.route2, w.proof2, checked) == Ready(captchaResponse, calls);

    calls := calls + [CheckCaptcha(key, captchaResponse)];
    if w.check.Failed? {
      return Run(Threw(w.check.error), calls);
    }
    var checkAnswers := w.check.data;
    if Truthy(checkAnswers.generatedPassUuid) {
      return Run(Returned(checkAnswers.generatedPassUuid), calls);
    }
    return Run(Returned(None), calls);
  }

  // ---------------------------------------------------------------- properties of an attempt

  /** The getcaptcha request was sent. */
  predicate SentTaskRequest(run: Run)
  {
    exists i :: 0 <= i < |run.calls| && run.calls[i].GetCaptcha?
  }

  /** No image was classified and no answer was submitted. */
  predicate NoAnswerStep(run: Run)
  {
    forall i :: 0 <= i < |run.calls| ==> !run.calls[i].FetchImage? && !run.calls[i].CheckCaptcha?
  }

  /** An "hsj" descriptor makes the attempt return `null` right after the site-config check: no proof, no getcaptcha request. */
  lemma HsjAborts(sitekey: string, host: string, w: World, fixUnicode: string -> string)
    requires ValidWorld(w) && w.config.Answered? && IsHsj(w.config.data)
    ensures Attempt(sitekey, host, w, fixUnicode) == Run(Returned(None), [CheckSiteConfig])
  {
  }

  /**
   * The form builder: without a descriptor the form carries sitekey, host,
   * hl "en" and the motion data only and no proof is computed; with one, a
   * proof is computed first, from hsl exactly when the type is "hsl", and the
   * form carries its value, its version and the descriptor; a `null`
   * descriptor or a failing proof stops the attempt.
   */
  lemma TaskFormCases(sitekey: string, host: string, c: DescriptorField, st: int, route: seq<RoutePoint>, proof: Reply<Proof>, calls: seq<Call>)
    ensures var b := TaskFormFor(sitekey, host, c, st, route, proof, calls);
      && (c.Undefined? ==> b == Ready(TaskForm(sitekey, host, "en", Motion(st, None, Movements(route), false), None, None, None), calls))
      && (c.Null? ==> b == Stopped(Run(Threw(TypeError), calls)))
      && (c.Present? ==>
            var step := calls + [ComputeProof(if c.descriptor.kind == "hsl" then Hsl else Hsw, c.descriptor.req)];
            && (proof.Failed? ==> b == Stopped(Run(Threw(proof.error), step)))
            && (proof.Answered? ==>
                  b == Ready(TaskForm(sitekey, host, "en", Motion(st, Some(st), Movements(route), true),
                                      Some(proof.data.n), Some(proof.data.version), Some(c.descriptor)), step)))
  {
  }

  /** The getcaptcha request is reached: the site config was answered without "hsj" or a `null` descriptor, and a descriptor's proof was computed. */
  predicate ReachesTaskRequest(w: World)
  {
    w.config.Answered? && !IsHsj(w.config.data) && !w.config.data.Null?
    && (w.config.data.Present? ==> w.proof.Answered?)
  }

  /** An attempt either stops while building the form, with only site-config and proof calls made, or sends the form it built. */
  lemma AttemptStages(sitekey: string, host: string, w: World, fixUnicode: string -> string)
    requires ValidWorld(w)
    ensures var run := Attempt(sitekey, host, w, fixUnicode);
      if ReachesTaskRequest(w) then
        FirstForm(sitekey, host, w).Ready?
        && run == TaskRound(sitekey, host, w, fixUnicode, FirstForm(sitekey, host, w).request, FirstForm(sitekey, host, w).calls)
      else
        && 1 <= |run.calls| <= 2 && run.calls[0] == CheckSiteConfig
        && (|run.calls| == 2 ==> run.calls[1].ComputeProof?)
        && (run.ending.Threw? || run.ending == Returned(None))
  {
  }

  /** The first-round form follows the site-config check, or the proof when there is a descriptor. */
  lemma FirstFormCalls(sitekey: string, host: string, w: World)
    requires ValidWorld(w) && ReachesTaskRequest(w)
    ensures var b := FirstForm(sitekey, host, w);
      b.Ready? && |b.calls| == (if w.config.data.Present? then 2 else 1) && b.calls[0] == CheckSiteConfig
      && NoSubmission(b.calls)
  {
  }

  /**
   * The answer round keeps the calls made before it, then fetches every task's
   * image in task order, and only then checks the site config a second time.
   */
  lemma AnswerRoundExtends(sitekey: string, host: string, w: World, target: string, key: string, job: string, tasks: seq<Task>, calls: seq<Call>)
    requires ValidWorld(w)
    ensures var r := AnswerRound(sitekey, host, w, target, key, job, tasks, calls).calls;
      |r| > |calls| && r[..|calls|] == calls
    ensures var r := AnswerRound(sitekey, host, w, target, key, job, tasks, calls).calls;
      |r| >= |calls| + |tasks| + 1
      && (forall i :: 0 <= i < |tasks| ==> r[|calls| + i] == FetchImage(tasks[i].datapointUri))
      && r[|calls| + |tasks|] == CheckSiteConfig
  {
  }

  /** `TaskRound` keeps the calls made before it and makes the getcaptcha request next. */
  lemma TaskRoundExtends(sitekey: string, host: string, w: World, fixUnicode: string -> string, form: TaskForm, calls: seq<Call>)
    requires ValidWorld(w)
    ensures var r := TaskRound(sitekey, host, w, fixUnicode, form, calls).calls;
      |r| > |calls| && r[..|calls|] == calls && r[|calls|] == GetCaptcha(form)
  {
    var sent := calls + [GetCaptcha(form)];
    var c := w.captcha;
    if c.Answered? && c.data.generatedPassUuid.None? && c.data.question.Some? && c.data.key.Some?
      && !IsDirectPassKey(c.data.key.value) && c.data.tasklist.Some?
    {
      var target := TargetLabel(c.data.question.value, fixUnicode);
      AnswerRoundExtends(sitekey, host, w, target, c.data.key.value, c.data.requestType, c.data.tasklist.value, sent);
      var r := AnswerRound(sitekey, host, w, target, c.data.key.value, c.data.requestType, c.data.tasklist.value, sent).calls;
      assert r[..|calls|] == r[..|sent|][..|calls|];
      assert r[|calls|] == r[..|sent|][|calls|];
    }
  }

  /**
   * The getcaptcha request is sent exactly when it is reached. It carries the
   * form the builder made: the second call without a descriptor, the third
   * after the proof otherwise.
   */
  lemma TaskRequestSent(sitekey: string, host: string, w: World, fixUnicode: string -> string)
    requires ValidWorld(w)
    ensures SentTaskRequest(Attempt(sitekey, host, w, fixUnicode)) <==> ReachesTaskRequest(w)
    ensures ReachesTaskRequest(w) ==>
      var calls := Attempt(sitekey, host, w, fixUnicode).calls;
      var at := if w.config.data.Present? then 2 else 1;
      |calls| > at && calls[..at] == FirstForm(sitekey, host, w).calls
      && calls[at] == GetCaptcha(FirstForm(sitekey, host, w).request)
  {
    AttemptStages(sitekey, host, w, fixUnicode);
    var run := Attempt(sitekey, host, w, fixUnicode);
    if ReachesTaskRequest(w) {
      var b := FirstForm(sitekey, host, w);
      FirstFormCalls(sitekey, host, w);
      TaskRoundExtends(sitekey, host, w, fixUnicode, b.request, b.calls);
      assert run.calls[|b.calls|].GetCaptcha?;
    } else {
      assert forall i :: 0 <= i < |run.calls| ==> run.calls[i].CheckSiteConfig? || run.calls[i].ComputeProof?;
    }
  }

  /** Without a descriptor the getcaptcha request follows the site-config check directly and carries sitekey, host, hl "en" and the motion data only. */
  lemma PlainTaskRequest(sitekey: string, host: string, w: World, fixUnicode: string -> string)
    requires ValidWorld(w) && w.config == Answered(Undefined)
    ensures var calls := Attempt(sitekey, host, w, fixUnicode).calls;
      |calls| >= 2 && calls[0] == CheckSiteConfig
      && calls[1] == GetCaptcha(TaskForm(sitekey, host, "en", Motion(w.now + Rdn(30, 120, w.jitter), None, Movements(w.route), false), None, None, None))
  {
    TaskRequestSent(sitekey, host, w, fixUnicode);
    TaskFormCases(sitekey, host, w.config.data, w.now + Rdn(30, 120, w.jitter), w.route, w.proof, [CheckSiteConfig]);
  }

  /**
   * With a descriptor other than "hsj" a proof is computed first, from hsl
   * exactly when the type is "hsl"; the getcaptcha request then carries its value,
   * the version and the descriptor; a failing proof ends the attempt.
   */
  lemma ProofTaskRequest(sitekey: string, host: string, w: World, fixUnicode: string -> string)
    requires ValidWorld(w) && w.config.Answered? && w.config.data.Present? && !IsHsj(w.config.data)
    ensures var d := w.config.data.descriptor;
      var run := Attempt(sitekey, host, w, fixUnicode);
      |run.calls| >= 2 && run.calls[1] == ComputeProof(if d.kind == "hsl" then Hsl else Hsw, d.req)
      && (w.proof.Failed? ==> run == Run(Threw(w.proof.error), [CheckSiteConfig, run.calls[1]]))
      && (w.proof.Answered? ==>
            |run.calls| >= 3 && run.calls[2].GetCaptcha?
            && run.calls[2].form.n == Some(w.proof.data.n) && run.calls[2].form.v == Some(w.proof.data.version)
            && run.calls[2].form.c == Some(d) && run.calls[2].form.hl == "en")
  {
    TaskFormCases(sitekey, host, w.config.data, w.now + Rdn(30, 120, w.jitter), w.route, w.proof, [CheckSiteConfig]);
    TaskRequestSent(sitekey, host, w, fixUnicode);
    var run := Attempt(sitekey, host, w, fixUnicode);
    if w.proof.Answered? {
      assert run.calls[..2][1] == run.calls[1];
    } else {
      AttemptStages(sitekey, host, w, fixUnicode);
    }
  }

  /** A pass UUID in the getcaptcha reply is returned unchanged, and no image is classified and nothing is submitted. */
  lemma PassUuidShortCircuits(sitekey: string, host: string, w: World, fixUnicode: string -> string)
    requires ValidWorld(w) && w.captcha.Answered? && w.captcha.data.generatedPassUuid.Some?
    ensures var run := Attempt(sitekey, host, w, fixUnicode);
      NoAnswerStep(run) && (SentTaskRequest(run) <==> run.ending == Returned(w.captcha.data.generatedPassUuid))
  {
    AttemptStages(sitekey, host, w, fixUnicode);
    TaskRequestSent(sitekey, host, w, fixUnicode);
    if ReachesTaskRequest(w) {
      FirstFormCalls(sitekey, host, w);
    }
  }

  /** A direct-pass key is returned unchanged, and no image is classified and nothing is submitted. */
  lemma DirectKeyShortCircuits(sitekey: string, host: string, w: World, fixUnicode: string -> string)
    requires ValidWorld(w) && w.captcha.Answered?
    requires w.captcha.data.generatedPassUuid.None? && w.captcha.data.question.Some?
    requires w.captcha.data.key.Some? && IsDirectPassKey(w.captcha.data.key.value)
    ensures var run := Attempt(sitekey, host, w, fixUnicode);
      NoAnswerStep(run) && (SentTaskRequest(run) <==> run.ending == Returned(w.captcha.data.key))
  {
    AttemptStages(sitekey, host, w, fixUnicode);
    TaskRequestSent(sitekey, host, w, fixUnicode);
    if ReachesTaskRequest(w) {
      FirstFormCalls(sitekey, host, w);
    }
  }

  /** No answers were submitted among these calls. */
  predicate NoSubmission(calls: seq<Call>)
  {
    forall i :: 0 <= i < |calls| ==> !calls[i].CheckCaptcha?
  }

  /** The answer round submits at most once, as its last call, with its key and the answers of `getAnswersTF`, and ends as the checkcaptcha reply says. */
  lemma AnswerRoundSubmission(sitekey: string, host: string, w: World, target: string, key: string, job: string, tasks: seq<Task>, calls: seq<Call>)
    requires ValidWorld(w) && NoSubmission(calls)
    ensures var run := AnswerRound(sitekey, host, w, target, key, job, tasks, calls);
      forall i :: 0 <= i < |run.calls| && run.calls[i].CheckCaptcha? ==>
        && i == |run.calls| - 1
        && run.calls[i].key == key
        && run.calls[i].body.answers == Answers(target, tasks, Results(tasks, w.inference))
        && run.ending == CheckEnding(w.check)
  {
  }

  /** `TaskRound` submits at most once, as its last call, with the getcaptcha key and the answers for its task list. */
  lemma TaskRoundSubmission(sitekey: string, host: string, w: World, fixUnicode: string -> string, form: TaskForm, calls: seq<Call>)
    requires ValidWorld(w) && NoSubmission(calls)
    ensures var run := TaskRound(sitekey, host, w, fixUnicode, form, calls);
      forall i :: 0 <= i < |run.calls| && run.calls[i].CheckCaptcha? ==>
        && i == |run.calls| - 1
        && w.captcha.Answered? && w.captcha.data.key == Some(run.calls[i].key)
        && w.captcha.data.question.Some? && w.captcha.data.tasklist.Some?
        && run.calls[i].body.answers == Answers(TargetLabel(w.captcha.data.question.value, fixUnicode), w.captcha.data.tasklist.value,
                                                Results(w.captcha.data.tasklist.value, w.inference))
        && run.ending == CheckEnding(w.check)
  {
    var c := w.captcha;
    if c.Answered? && c.data.generatedPassUuid.None? && c.data.question.Some? && c.data.key.Some?
      && !IsDirectPassKey(c.data.key.value) && c.data.tasklist.Some?
    {
      AnswerRoundSubmission(sitekey, host, w, TargetLabel(c.data.question.value, fixUnicode), c.data.key.value,
                            c.data.requestType, c.data.tasklist.value, calls + [GetCaptcha(form)]);
    }
  }

  /**
   * The answer round ends with the truthy pass UUID of the checkcaptcha
   * reply or with `null`; an attempt submits at most once, as the last call,
   * with the getcaptcha key and the answers of `getAnswersTF`.
   */
  lemma AnswerRoundOutcome(sitekey: string, host: string, w: World, fixUnicode: string -> string)
    requires ValidWorld(w)
    ensures var run := Attempt(sitekey, host, w, fixUnicode);
      forall i :: 0 <= i < |run.calls| && run.calls[i].CheckCaptcha? ==>
        && i == |run.calls| - 1
        && w.captcha.Answered? && w.captcha.data.key == Some(run.calls[i].key)
        && w.captcha.data.question.Some? && w.captcha.data.tasklist.Some?
        && run.calls[i].body.answers == Answers(TargetLabel(w.captcha.data.question.value, fixUnicode), w.captcha.data.tasklist.value,
                                                Results(w.captcha.data.tasklist.value, w.inference))
        && run.ending == CheckEnding(w.check)
  {
    AttemptStages(sitekey, host, w, fixUnicode);
    if ReachesTaskRequest(w) {
      FirstFormCalls(sitekey, host, w);
      var b := FirstForm(sitekey, host, w);
      TaskRoundSubmission(sitekey, host, w, fixUnicode, b.request, b.calls);
    }
  }

  /** Every value an attempt returns is a getcaptcha pass UUID, a direct-pass key, or a truthy checkcaptcha pass UUID. */
  lemma ReturnedValues(sitekey: string, host: string, w: World, fixUnicode: string -> string)
    requires ValidWorld(w)
    ensures var e := Attempt(sitekey, host, w, fixUnicode).ending;
      e.Returned? && e.value.Some? ==>
        w.captcha.Answered? &&
        (e.value == w.captcha.data.generatedPassUuid
         || (e.value == w.captcha.data.key && IsDirectPassKey(e.value.value))
         || (w.check.Answered? && e.value == w.check.data.generatedPassUuid && Truthy(e.value)))
  {
  }

  /** The scenario without a descriptor whose getcaptcha reply carries "abc-123": it is returned after two calls. */
  lemma PassUuidScenario(sitekey: string, host: string, w: World, fixUnicode: string -> string)
    requires ValidWorld(w) && w.config == Answered(Undefined)
    requires w.captcha.Answered? && w.captcha.data.generatedPassUuid == Some("abc-123")
    ensures Attempt(sitekey, host, w, fixUnicode).ending == Returned(Some("abc-123"))
    ensures |Attempt(sitekey, host, w, fixUnicode).calls| == 2
  {
  }

  // ---------------------------------------------------------------- the retry loop

  /** How `solveCaptcha` ends: a token, `undefined` after an exception (having waited 30 s or not), or still looping when the modelled attempts run out. */
  datatype SolveResult = Solved(token: string) | GaveUp(waitedForRateLimit: bool) | StillRetrying

  /**
   * One turn of the loop: `Math.round(Math.random() * (userAgents.length - 1))`
   * picks the user agent; an index outside the list throws at `.useragent`,
   * otherwise the attempt runs.
   */
  function Turn(userAgents: seq<string>, sitekey: string, host: string, draw: real, w: World, fixUnicode: string -> string): Ending
    requires IsDraw(draw) && ValidWorld(w)
  {
    var randomIndex := Rdn(0, |userAgents| - 1, draw);
    if !(0 <= randomIndex < |userAgents|) then Threw(TypeError)
    else Attempt(sitekey, host, w, fixUnicode).ending
  }

  /** The user-agent index is always inside a non-empty list. */
  lemma TurnPicksAgent(userAgents: seq<string>, draw: real)
    requires IsDraw(draw) && |userAgents| > 0
    ensures 0 <= Rdn(0, |userAgents| - 1, draw) < |userAgents|
  {
  }

  /** A turn after which the loop goes round again: the attempt returned a falsy value. */
  predicate Retries(e: Ending)
  {
    e.Returned? && !Truthy(e.value)
  }

  predicate ValidWorlds(draws: seq<real>, worlds: seq<World>)
  {
    |draws| == |worlds| && AllDraws(draws) && forall i :: 0 <= i < |worlds| ==> ValidWorld(worlds[i])
  }

  /**
   * `solveCaptcha`'s `while (true)` over the modelled attempts `worlds`
   * (with their user-agent draws): it returns the first truthy result; it
   * goes round again on a falsy one; the first exception leaves the loop,
   * waiting 30 s first only when its `statusCode` is 429, and the function
   * returns `undefined`.
   */
  method SolveCaptcha(sitekey: string, host: string, userAgents: seq<string>, draws: seq<real>, worlds: seq<World>, fixUnicode: string -> string)
    returns (result: SolveResult)
    requires ValidWorlds(draws, worlds)
    ensures result.StillRetrying? <==>
      forall j :: 0 <= j < |worlds| ==> Retries(Turn(userAgents, sitekey, host, draws[j], worlds[j], fixUnicode))
    ensures result.Solved? ==>
      exists k :: 0 <= k < |worlds|
        && (forall j :: 0 <= j < k ==> Retries(Turn(userAgents, sitekey, host, draws[j], worlds[j], fixUnicode)))
        && Turn(userAgents, sitekey, host, draws[k], worlds[k], fixUnicode) == Returned(Some(result.token))
        && result.token != ""
    ensures result.GaveUp? ==>
      exists k :: 0 <= k < |worlds|
        && (forall j :: 0 <= j < k ==> Retries(Turn(userAgents, sitekey, host, draws[j], worlds[j], fixUnicode)))
        && Turn(userAgents, sitekey, host, draws[k], worlds[k], fixUnicode).Threw?
        && result.waitedForRateLimit == (Turn(userAgents, sitekey, host, draws[k], worlds[k], fixUnicode).error.statusCode == Some(429))
  {
    var i := 0;
    while i < |worlds|
      invariant 0 <= i <= |worlds|
      invariant forall j :: 0 <= j < i ==> Retries(Turn(userAgents, sitekey, host, draws[j], worlds[j], fixUnicode))
    {
      var randomIndex := Rdn(0, |userAgents| - 1, draws[i]);
      if !(0 <= randomIndex < |userAgents|) {
        assert Turn(userAgents, sitekey, host, draws[i], worlds[i], fixUnicode) == Threw(TypeError);
        return GaveUp(false);
      }
      var run := TryToSolve(sitekey, host, worlds[i], fixUnicode);
      assert Turn(userAgents, sitekey, host, draws[i], worlds[i], fixUnicode) == run.ending;
      if run.ending.Threw? {
        return GaveUp(run.ending.error.statusCode == Some(429));
      }
      if Truthy(run.ending.value) {
        return Solved(run.ending.value.value);
      }
      i := i + 1;
    }
    return StillRetrying;
  }
}
