/**
 * The string logic of src/index.ts, taken out of its IMAP and HTTP
 * callbacks: the verification-URL extraction and the per-message body
 * handler of `validateMails`, and in the worker the `createAlias` result
 * test, the date of birth, the e-mail address and the `host:port` proxy
 * split.
 *
 * Decoders (`Imap.parseHeader`, quoted-printable plus UTF-8) are function
 * parameters, `Math.random()` is a draw `r` with 0 <= r < 1, and replies of
 * the mail server's API are inputs.
 */
module Generator {
  import opened Wrappers
  import opened Js
  import opened Utils

  // ---------------------------------------------------------------- verification URL

  /** The line break the body is split on; a lone "\n" does not split. */
  const Crlf := "\r\n"

  /** The label in front of the verification link. */
  const VerifyPrefix := "Verify Email: "

  /** `lines.findIndex(l => l.startsWith(prefix))` from index `from` on: the first matching index, or -1. */
  function FindPrefixed(lines: seq<string>, prefix: string, from: nat): (i: int)
    requires from <= |lines|
    ensures i == -1 || (from <= i < |lines| && StartsWith(lines[i], prefix))
    ensures forall j :: from <= j < |lines| && (i == -1 || j < i) ==> !StartsWith(lines[j], prefix)
    decreases |lines| - from
  {
    if from == |lines| then -1
    else if StartsWith(lines[from], prefix) then from
    else FindPrefixed(lines, prefix, from + 1)
  }

  /** The first index from `k` on whose line has length 1 or less, or the end of the lines. */
  function RunEnd(lines: seq<string>, k: nat): (e: nat)
    requires k <= |lines|
    ensures k <= e <= |lines|
    ensures forall j :: k <= j < e ==> |lines[j]| > 1
    ensures e < |lines| ==> |lines[e]| <= 1
    decreases |lines| - k
  {
    if k == |lines| || |lines[k]| <= 1 then k else RunEnd(lines, k + 1)
  }

  /** A run of long lines from `k` up to a short line, or up to the end, ends where `RunEnd` says. */
  lemma {:induction false} RunEndAt(lines: seq<string>, k: nat, e: nat)
    requires k <= e <= |lines|
    requires forall j :: k <= j < e ==> |lines[j]| > 1
    requires e == |lines| || |lines[e]| <= 1
    ensures RunEnd(lines, k) == e
    decreases e - k
  {
    if k < e {
      RunEndAt(lines, k + 1, e);
    }
  }

  /**
   * The URL a mail body yields: the lines from the first one starting with
   * the prefix up to the first short line, joined, with the first occurrence
   * of the prefix removed; without such a line, reading `lines[-1].length`
   * throws.
   */
  function VerificationUrl(body: string): Result<string, Error>
  {
    UrlOfLines(Split(body, Crlf))
  }

  /** The same, for a body already split into lines. */
  function UrlOfLines(lines: seq<string>): Result<string, Error>
  {
    var k := FindPrefixed(lines, VerifyPrefix, 0);
    if k == -1 then Err(TypeError)
    else Ok(ReplaceFirst(Concat(lines[k..RunEnd(lines, k)]), VerifyPrefix, ""))
  }

  /** Some line starts with the prefix. */
  predicate HasPrefixedLine(lines: seq<string>)
  {
    exists j :: 0 <= j < |lines| && StartsWith(lines[j], VerifyPrefix)
  }

  /** The extraction succeeds exactly when some line starts with the prefix, and otherwise throws a TypeError. */
  lemma VerificationUrlNeedsPrefix(body: string)
    ensures VerificationUrl(body).Ok? <==> HasPrefixedLine(Split(body, Crlf))
    ensures VerificationUrl(body).Err? ==> VerificationUrl(body).error == TypeError
  {
    var lines := Split(body, Crlf);
    var k := FindPrefixed(lines, VerifyPrefix, 0);
    if k != -1 {
      assert StartsWith(lines[k], VerifyPrefix);
    }
  }

  /**
   * The URL is the rest of the first prefixed line after the prefix, followed
   * by every further line up to (not including) the first line of length 1
   * or less: the prefix is removed exactly once, from the front.
   */
  lemma VerificationUrlValue(body: string)
    ensures var lines := Split(body, Crlf);
      var k := FindPrefixed(lines, VerifyPrefix, 0);
      k != -1 ==>
        var e := RunEnd(lines, k);
        k < e && VerificationUrl(body) == Ok(lines[k][|VerifyPrefix|..] + Concat(lines[k + 1..e]))
  {
    var lines := Split(body, Crlf);
    var k := FindPrefixed(lines, VerifyPrefix, 0);
    if k != -1 {
      var e := RunEnd(lines, k);
      assert |lines[k]| >= |VerifyPrefix| > 1;
      assert lines[k..e] == [lines[k]] + lines[k + 1..e];
      assert lines[k..e][1..] == lines[k + 1..e];
      var joined := Concat(lines[k..e]);
      assert joined == lines[k] + Concat(lines[k + 1..e]);
      assert joined[..|VerifyPrefix|] == lines[k][..|VerifyPrefix|];
      ReplaceLeadingOccurrence(joined, VerifyPrefix);
      assert joined[|VerifyPrefix|..] == lines[k][|VerifyPrefix|..] + Concat(lines[k + 1..e]);
    }
  }

  /** A body with "\n" line ends only is one line, so a link that is not at its very start is never found. */
  lemma LineFeedsDoNotSplit(body: string)
    requires !Includes(body, Crlf) && !StartsWith(body, VerifyPrefix)
    ensures VerificationUrl(body) == Err(TypeError)
  {
    SplitWithoutSeparator(body, Crlf);
  }

  /**
   * The extraction as the handler runs it: split on CRLF, `findIndex`, then
   * a loop that appends lines of length above 1 to `url` and breaks at the
   * first other line, then `url.replace(prefix, "")`.
   */
  method ExtractVerificationUrl(buffer: string) returns (r: Result<string, Error>)
    ensures r == VerificationUrl(buffer)
  {
    var lines := Split(buffer, Crlf);
    r := ScanLines(lines);
  }

  /** The part of the extraction after the split: `findIndex`, the loop and the replace. */
  method ScanLines(lines: seq<string>) returns (r: Result<string, Error>)
    ensures r == UrlOfLines(lines)
  {
    var url := "";
    var i := FindPrefixed(lines, VerifyPrefix, 0);
    ghost var start := i;
    while i < |lines|
      invariant start == -1 ==> i == -1 && url == ""
      invariant start != -1 ==> start <= i <= |lines| && url == Concat(lines[start..i])
      invariant start != -1 ==> forall j :: start <= j < i ==> |lines[j]| > 1
    {
      if i < 0 {
        // `lines[-1]` is undefined and reading its `length` throws
        return Err(TypeError);
      }
      if |lines[i]| > 1 {
        ConcatAppend(lines[start..i], lines[i]);
        assert lines[start..i + 1] == lines[start..i] + [lines[i]];
        url := url + lines[i];
      } else {
        break;
      }
      i := i + 1;
    }
    if start != -1 {
      RunEndAt(lines, start, i);
    }
    url := ReplaceFirst(url, VerifyPrefix, "");
    return Ok(url);
  }

  // ---------------------------------------------------------------- body stream

  /** The `buffer` a body stream's `data` handler appends its chunks to. */
  class BodyBuffer {
    var content: string

    constructor()
      ensures content == ""
    {
      content := "";
    }

    /** `buffer += chunk.toString()`. */
    method OnData(chunk: string)
      modifies this
      ensures content == old(content) + chunk
    {
      content := content + chunk;
    }
  }

  /** The body a stream delivers in `chunks`: all of them, in order. */
  method ReadStream(chunks: seq<string>) returns (body: string)
    ensures body == Concat(chunks)
  {
    var buffer := new BodyBuffer();
    for i := 0 to |chunks|
      invariant buffer.content == Concat(chunks[..i])
    {
      buffer.OnData(chunks[i]);
      ConcatAppend(chunks[..i], chunks[i]);
      assert chunks[..i + 1] == chunks[..i] + [chunks[i]];
    }
    assert chunks[..|chunks|] == chunks;
    body := buffer.content;
  }

  // ---------------------------------------------------------------- message handler

  /** The fields `Imap.parseHeader` gives for a header part: each an array of values, `None` when absent. */
  datatype Header = Header(from: Option<seq<string>>, to: Option<seq<string>>)

  const DiscordSender := "Discord <noreply@discord.com>"

  /** `headers.from.includes(sender)`: membership in the array of `From` values. */
  predicate IsDiscordHeader(h: Header)
  {
    h.from.Some? && DiscordSender in h.from.value
  }

  /** `headers.to[0]`: the first `To` value, `undefined` for an empty array. */
  function Recipient(h: Header): Option<string>
    requires h.to.Some?
  {
    if h.to.value == [] then None else Some(h.to.value[0])
  }

  /** The per-message variables `discordMail` and `user`; `user == None` is `undefined`. */
  datatype MailState = MailState(discordMail: bool, user: Option<string>)

  /** The state a message starts in: not a Discord mail, user "". */
  const FreshMail := MailState(false, Some(""))

  /**
   * What the `end` handler of one body part does besides updating the state.
   * `Raised` is an exception thrown inside the listener: nothing catches it,
   * so the process ends there and no later part is handled.
   */
  datatype EndAction = NoAction | Raised(error: Error) | FetchVerification(url: string)

  /** The actions so far end with an uncaught exception. */
  predicate Halted(actions: seq<EndAction>)
  {
    actions != [] && actions[|actions| - 1].Raised?
  }

  /** One body part of a message: its `info.which` and the text its stream delivered. */
  datatype BodyEvent = BodyEvent(which: string, buffer: string)

  /**
   * A header part: reading `includes` of an absent `From` throws; a Discord
   * `From` marks the message and takes `to[0]` as the user, which throws
   * when `To` is absent (the mark is set first, but the throw ends the process).
   */
  function HeaderStep(s: MailState, h: Header): (MailState, EndAction)
  {
    if h.from.None? then (s, Raised(TypeError))
    else if !IsDiscordHeader(h) then (s, NoAction)
    else if h.to.None? then (MailState(true, s.user), Raised(TypeError))
    else (MailState(true, Recipient(h)), NoAction)
  }

  /**
   * The text part: ignored unless the message is marked; otherwise the body
   * is decoded, which throws on malformed input, and the decoded body's URL
   * is fetched.
   */
  function TextStep(s: MailState, buffer: string, decode: string -> Result<string, Error>): (MailState, EndAction)
  {
    if !s.discordMail then (s, NoAction)
    else
      match decode(buffer)
      case Err(e) => (s, Raised(e))
      case Ok(body) =>
        match VerificationUrl(body)
        case Ok(u) => (s, FetchVerification(u))
        case Err(e) => (s, Raised(e))
  }

  /** The `end` handler for any body part: `info.which !== 'TEXT'` selects the header branch. */
  function Step(s: MailState, e: BodyEvent, parseHeader: string -> Header, decode: string -> Result<string, Error>): (MailState, EndAction)
  {
    if e.which != "TEXT" then HeaderStep(s, parseHeader(e.buffer)) else TextStep(s, e.buffer, decode)
  }

  /**
   * A message's body parts, handled in order from the fresh state: the state
   * reached and the action of each part handled, up to and including the
   * first uncaught exception, after which no part is handled.
   */
  function Replay(events: seq<BodyEvent>, parseHeader: string -> Header, decode: string -> Result<string, Error>): (r: (MailState, seq<EndAction>))
    ensures |r.1| <= |events|
    ensures !Halted(r.1) ==> |r.1| == |events|
    ensures forall i :: 0 <= i < |r.1| - 1 ==> !r.1[i].Raised?
    decreases |events|
  {
    if events == [] then (FreshMail, [])
    else
      var prior := Replay(events[..|events| - 1], parseHeader, decode);
      if Halted(prior.1) then prior
      else
        var step := Step(prior.0, events[|events| - 1], parseHeader, decode);
        (step.0, prior.1 + [step.1])
  }

  /** Once the handling has halted, further parts change nothing. */
  lemma {:induction false} ReplayHalts(events: seq<BodyEvent>, n: nat, parseHeader: string -> Header, decode: string -> Result<string, Error>)
    requires n <= |events| && Halted(Replay(events[..n], parseHeader, decode).1)
    ensures Replay(events, parseHeader, decode) == Replay(events[..n], parseHeader, decode)
    decreases |events|
  {
    if n < |events| {
      var m := |events| - 1;
      assert events[..m][..n] == events[..n];
      ReplayHalts(events[..m], n, parseHeader, decode);
    } else {
      assert events[..n] == events;
    }
  }

  /** Some header part among the first `n` has a Discord `From`. */
  predicate DiscordHeaderBefore(events: seq<BodyEvent>, n: nat, parseHeader: string -> Header)
    requires n <= |events|
  {
    exists j :: 0 <= j < n && events[j].which != "TEXT" && IsDiscordHeader(parseHeader(events[j].buffer))
  }

  /** `DiscordHeaderBefore` of a prefix carries over to the whole sequence. */
  lemma DiscordHeaderBeforeGrows(events: seq<BodyEvent>, n: nat, parseHeader: string -> Header)
    requires 0 < |events| && n <= |events| - 1
    requires DiscordHeaderBefore(events[..|events| - 1], n, parseHeader)
    ensures DiscordHeaderBefore(events, n, parseHeader)
  {
    var j :| 0 <= j < n && events[..|events| - 1][j].which != "TEXT"
      && IsDiscordHeader(parseHeader(events[..|events| - 1][j].buffer));
    assert events[..|events| - 1][j] == events[j];
  }

  /**
   * A message is marked, and a verification link is fetched, only after a
   * header part whose `From` holds the Discord sender.
   */
  lemma {:induction false} ReplayNeedsDiscordHeader(events: seq<BodyEvent>, parseHeader: string -> Header, decode: string -> Result<string, Error>)
    ensures Replay(events, parseHeader, decode).0.discordMail ==> DiscordHeaderBefore(events, |events|, parseHeader)
    ensures forall i :: 0 <= i < |Replay(events, parseHeader, decode).1| && Replay(events, parseHeader, decode).1[i].FetchVerification? ==>
      DiscordHeaderBefore(events, i, parseHeader)
    decreases |events|
  {
    if events != [] {
      var n := |events| - 1;
      var prefix := events[..n];
      ReplayNeedsDiscordHeader(prefix, parseHeader, decode);
      var prior := Replay(prefix, parseHeader, decode);
      var last := events[n];
      if prior.0.discordMail {
        DiscordHeaderBeforeGrows(events, n, parseHeader);
      }
      if Step(prior.0, last, parseHeader, decode).0.discordMail && !prior.0.discordMail {
        assert last.which != "TEXT" && IsDiscordHeader(parseHeader(last.buffer));
      }
      forall i | 0 <= i < |prior.1| && Replay(events, parseHeader, decode).1[i].FetchVerification?
        ensures DiscordHeaderBefore(events, i, parseHeader)
      {
        assert prior.1[i] == Replay(events, parseHeader, decode).1[i];
        DiscordHeaderBeforeGrows(events, i, parseHeader);
      }
    }
  }

  /** A header part that sets `user`: a Discord `From` and a present `To`. */
  predicate SetsUser(e: BodyEvent, parseHeader: string -> Header)
  {
    e.which != "TEXT" && IsDiscordHeader(parseHeader(e.buffer)) && parseHeader(e.buffer).to.Some?
  }

  /**
   * The user after a message's handled parts: `to[0]` of the last handled
   * part that sets it, and "" when no handled part does.
   */
  lemma {:induction false} ReplayUser(events: seq<BodyEvent>, parseHeader: string -> Header, decode: string -> Result<string, Error>)
    ensures var r := Replay(events, parseHeader, decode);
      (forall j :: 0 <= j < |r.1| ==> !SetsUser(events[j], parseHeader)) ==> r.0.user == Some("")
    ensures var r := Replay(events, parseHeader, decode);
      forall j ::
        (0 <= j < |r.1| && SetsUser(events[j], parseHeader)
         && forall k :: j < k < |r.1| ==> !SetsUser(events[k], parseHeader))
        ==> r.0.user == Recipient(parseHeader(events[j].buffer))
    decreases |events|
  {
    if events != [] {
      var n := |events| - 1;
      var prefix := events[..n];
      ReplayUser(prefix, parseHeader, decode);
      var prior := Replay(prefix, parseHeader, decode);
      assert forall j :: 0 <= j < n ==> prefix[j] == events[j];
      if !Halted(prior.1) {
        var last := events[n];
        var step := Step(prior.0, last, parseHeader, decode);
        if !SetsUser(last, parseHeader) {
          assert step.0.user == prior.0.user;
        }
      }
    }
  }

  /**
   * A Discord header without `To` throws at `to[0]`; the process ends there,
   * so the text part after it is not handled and no link is fetched.
   */
  lemma MissingRecipientHalts(header: string, text: string, parseHeader: string -> Header, decode: string -> Result<string, Error>)
    requires parseHeader(header) == Header(Some([DiscordSender]), None)
    ensures Replay([BodyEvent("HEADER", header), BodyEvent("TEXT", text)], parseHeader, decode).1 == [Raised(TypeError)]
  {
    var events := [BodyEvent("HEADER", header), BodyEvent("TEXT", text)];
    assert events[..1] == [BodyEvent("HEADER", header)];
    assert events[..1][..0] == [];
  }

  /** The handlers of one message: the `discordMail` and `user` variables its body callbacks share. */
  class MessageHandler {
    var discordMail: bool
    var user: Option<string>

    function State(): MailState
      reads this
    {
      MailState(discordMail, user)
    }

    constructor()
      ensures State() == FreshMail
    {
      discordMail := false;
      user := Some("");
    }

    /** The stream's `end` handler for one body part. */
    method OnEnd(event: BodyEvent, parseHeader: string -> Header, decode: string -> Result<string, Error>) returns (action: EndAction)
      modifies this
      ensures (State(), action) == Step(old(State()), event, parseHeader, decode)
    {
      if event.which != "TEXT" {
        var headers := parseHeader(event.buffer);
        if headers.from.None? {
          return Raised(TypeError);
        }
        if IsDiscordHeader(headers) {
          discordMail := true;
          if headers.to.None? {
            return Raised(TypeError);
          }
          user := Recipient(headers);
        }
        return NoAction;
      } else if discordMail {
        var decoded := decode(event.buffer);
        if decoded.Err? {
          return Raised(decoded.error);
        }
        var url := ExtractVerificationUrl(decoded.value);
        match url
        case Err(e) =>
          return Raised(e);
        case Ok(u) =>
          return FetchVerification(u);
      }
      return NoAction;
    }
  }

  /**
   * One fetched message: a fresh handler, then the `end` handler for each
   * body part in order, until a handler throws and the process ends.
   */
  method HandleMessage(events: seq<BodyEvent>, parseHeader: string -> Header, decode: string -> Result<string, Error>) returns (actions: seq<EndAction>)
    ensures actions == Replay(events, parseHeader, decode).1
  {
    var handler := new MessageHandler();
    actions := [];
    var i := 0;
    while i < |events|
      invariant 0 <= i <= |events|
      invariant handler.State() == Replay(events[..i], parseHeader, decode).0
      invariant actions == Replay(events[..i], parseHeader, decode).1
      invariant !Halted(actions)
    {
      assert events[..i + 1][..i] == events[..i];
      var action := handler.OnEnd(events[i], parseHeader, decode);
      actions := actions + [action];
      if action.Raised? {
        ReplayHalts(events, i + 1, parseHeader, decode);
        return;
      }
      i := i + 1;
    }
    assert events[..|events|] == events;
  }

  // ---------------------------------------------------------------- createAlias

  /** The fields of `json[0]` the result test reads: `type` and the `msg` array, `None` when absent. */
  datatype AliasEntry = AliasEntry(kind: Option<string>, msg: Option<seq<string>>)

  /** What the promise of `createAlias` does: resolve to a number, or stay pending forever. */
  datatype AliasOutcome = Resolved(id: Number) | NeverSettles

  /** `msg[msg.length - 1]` converted to a string by `parseInt`: `undefined` becomes "undefined". */
  function LastMessage(msg: seq<string>): string
  {
    if msg == [] then "undefined" else msg[|msg| - 1]
  }

  /**
   * `createAlias(name)`: on a "success" entry, `parseInt` of the last element
   * of `msg`, -1 for any other type. The promise has no rejection path: a
   * failed request skips the `then` callback and rejects only the chained
   * promise, and an empty array or a missing `msg` throw inside `then`; in
   * each case the promise of `createAlias` never settles.
   */
  function CreateAlias(reply: Reply<seq<AliasEntry>>): AliasOutcome
  {
    match reply
    case Failed(_) => NeverSettles
    case Answered(json) =>
      if json == [] then NeverSettles
      else if json[0].kind == Some("success") then
        match json[0].msg
        case None => NeverSettles
        case Some(msg) => Resolved(ParseInt(LastMessage(msg)))
      else Resolved(Num(-1))
  }

  /** How `generateAccount` continues after `createAlias`: not at all (the promise never settles), throwing "Mailbox creation failed", or going on with the id. */
  datatype Mailbox = Stalled | CreationFailed | Created(id: Number)

  /** `if (id == -1) throw new Error('Mailbox creation failed')`; NaN is not equal to -1. */
  function MailboxCheck(outcome: AliasOutcome): Mailbox
  {
    match outcome
    case NeverSettles => Stalled
    case Resolved(id) => if id == Num(-1) then CreationFailed else Created(id)
  }

  /** A success reply whose last message is the decimal form of `n` gives the mailbox id `n`. */
  lemma AliasIdRoundTrip(n: nat, earlier: seq<string>, others: seq<AliasEntry>)
    ensures MailboxCheck(CreateAlias(Answered([AliasEntry(Some("success"), Some(earlier + [Decimal(n)]))] + others)))
      == Created(Num(n))
  {
    ParseDecimal(n);
  }

  /** Any type other than "success" fails the mailbox creation. */
  lemma AliasRejected(entry: AliasEntry, others: seq<AliasEntry>)
    requires entry.kind != Some("success")
    ensures MailboxCheck(CreateAlias(Answered([entry] + others))) == CreationFailed
  {
  }

  /** A success whose last message reads as -1 fails the creation too. */
  lemma AliasMinusOne(earlier: seq<string>, others: seq<AliasEntry>)
    ensures MailboxCheck(CreateAlias(Answered([AliasEntry(Some("success"), Some(earlier + ["-1"]))] + others))) == CreationFailed
  {
    assert LastMessage(earlier + ["-1"]) == "-" + Decimal(1);
    ParseNegativeDecimal(1);
  }

  /** A success with an empty `msg` resolves to NaN, which passes the -1 test. */
  lemma AliasEmptyMessage(others: seq<AliasEntry>)
    ensures MailboxCheck(CreateAlias(Answered([AliasEntry(Some("success"), Some([]))] + others))) == Created(NaN)
  {
    assert !IsWhiteSpace('u') && DigitValue('u') >= 10;
    ParseNoDigit("undefined");
  }

  // ---------------------------------------------------------------- date of birth

  /** `Math.floor(Math.random() * (2001 - 1990 + 1)) + 1990`. */
  function BirthYear(r: real): (y: nat)
    requires IsDraw(r)
    ensures 1990 <= y <= 2001
  {
    FloorScaledBounds(r, 2001 - 1990 + 1);
    FloorScaled(r, 2001 - 1990 + 1) + 1990
  }

  /** `Math.floor(Math.random() * 12) + 1`. */
  function BirthMonth(r: real): (m: nat)
    requires IsDraw(r)
    ensures 1 <= m <= 12
  {
    FloorScaledBounds(r, 12);
    FloorScaled(r, 12) + 1
  }

  /** `Math.floor(Math.random() * 28) + 1`. */
  function BirthDay(r: real): (d: nat)
    requires IsDraw(r)
    ensures 1 <= d <= 28
  {
    FloorScaledBounds(r, 28);
    FloorScaled(r, 28) + 1
  }

  /** `date_of_birth`: the three numbers' `toString()` joined by "-". */
  function DateOfBirth(ry: real, rm: real, rd: real): string
    requires IsDraw(ry) && IsDraw(rm) && IsDraw(rd)
  {
    Decimal(BirthYear(ry)) + "-" + Decimal(BirthMonth(rm)) + "-" + Decimal(BirthDay(rd))
  }

  /** A decimal form holds no '-'. */
  lemma DecimalHasNoDash(n: nat)
    ensures '-' !in Decimal(n)
  {
    var s := Decimal(n);
    forall k | 0 <= k < |s|
      ensures s[k] != '-'
    {
      assert IsDigit(s[k]);
    }
  }

  /** Three '-'-free strings joined by "-" split back into those strings. */
  lemma DashTripleSplit(x: string, y: string, z: string)
    requires '-' !in x && '-' !in y && '-' !in z
    ensures Split(x + "-" + y + "-" + z, "-") == [x, y, z]
  {
    var tail := y + "-" + z;
    SplitNoChar(z, '-');
    SplitCons(y, '-', z);
    assert Split(tail, "-") == [y, z];
    SplitCons(x, '-', tail);
    assert Split(x + "-" + tail, "-") == [x, y, z];
    assert x + "-" + y + "-" + z == x + "-" + tail;
  }

  /**
   * The date has exactly three "-"-separated fields that read back as the
   * year, month and day, and none is zero-padded.
   */
  lemma DateOfBirthFormat(ry: real, rm: real, rd: real)
    requires IsDraw(ry) && IsDraw(rm) && IsDraw(rd)
    ensures var parts := Split(DateOfBirth(ry, rm, rd), "-");
      |parts| == 3
      && ParseInt(parts[0]) == Num(BirthYear(ry))
      && ParseInt(parts[1]) == Num(BirthMonth(rm))
      && ParseInt(parts[2]) == Num(BirthDay(rd))
      && parts[0][0] != '0' && parts[1][0] != '0' && parts[2][0] != '0'
  {
    DecimalHasNoDash(BirthYear(ry));
    DecimalHasNoDash(BirthMonth(rm));
    DecimalHasNoDash(BirthDay(rd));
    DashTripleSplit(Decimal(BirthYear(ry)), Decimal(BirthMonth(rm)), Decimal(BirthDay(rd)));
    ParseDecimal(BirthYear(ry));
    ParseDecimal(BirthMonth(rm));
    ParseDecimal(BirthDay(rd));
  }

  /** Every year, month and day in range is drawn by some value of `Math.random()`. */
  lemma DateFieldsReachable(y: int, m: int, d: int)
    requires 1990 <= y <= 2001 && 1 <= m <= 12 && 1 <= d <= 28
    ensures IsDraw((y - 1990) as real / 12.0) && BirthYear((y - 1990) as real / 12.0) == y
    ensures IsDraw((m - 1) as real / 12.0) && BirthMonth((m - 1) as real / 12.0) == m
    ensures IsDraw((d - 1) as real / 28.0) && BirthDay((d - 1) as real / 28.0) == d
  {
    FloorScaledHits(y - 1990, 12);
    FloorScaledHits(m - 1, 12);
    FloorScaledHits(d - 1, 28);
  }

  // ---------------------------------------------------------------- e-mail address

  /** `username + "@" + domain`, used both for the alias and for the registration. */
  function Email(username: string, domain: string): string
  {
    username + "@" + domain
  }

  /** An address built from an '@'-free name and domain splits back into them. */
  lemma EmailSplit(username: string, domain: string)
    requires '@' !in username && '@' !in domain
    ensures Split(Email(username, domain), "@") == [username, domain]
  {
    assert Email(username, domain) == username + ['@'] + domain;
    SplitCons(username, '@', domain);
    SplitNoChar(domain, '@');
  }

  /** The user name drawn by `randomString` never holds '@', so the address splits back into it and the domain. */
  lemma RandomUsernameEmail(username: string, domain: string)
    requires forall i :: 0 <= i < |username| ==> username[i] in Characters
    requires '@' !in domain
    ensures Split(Email(username, domain), "@") == [username, domain]
  {
    CharactersExcludeSeparators();
    EmailSplit(username, domain);
  }

  // ---------------------------------------------------------------- proxy

  /** The `host` and `port` given to the proxy agent; `None` is `undefined`. */
  datatype ProxyAddress = ProxyAddress(host: string, port: Option<string>)

  /** `proxy.split(":")[0]` and `proxy.split(":")[1]`. */
  function ProxyOf(line: string): ProxyAddress
  {
    var parts := Split(line, ":");
    ProxyAddress(parts[0], if |parts| > 1 then Some(parts[1]) else None)
  }

  /** A `host:port` line gives that host and that port; anything after a second ':' is dropped. */
  lemma ProxyFields(host: string, port: string, rest: string)
    requires ':' !in host && ':' !in port
    ensures ProxyOf(host + ":" + port) == ProxyAddress(host, Some(port))
    ensures ProxyOf(host + ":" + port + ":" + rest) == ProxyAddress(host, Some(port))
  {
    assert host + ":" + port == host + [':'] + port;
    SplitCons(host, ':', port);
    SplitNoChar(port, ':');
    assert host + ":" + port + ":" + rest == host + [':'] + (port + [':'] + rest);
    SplitCons(host, ':', port + [':'] + rest);
    SplitCons(port, ':', rest);
  }

  /** A line without ':' is all host, with an undefined port. */
  lemma ProxyWithoutPort(host: string)
    requires ':' !in host
    ensures ProxyOf(host) == ProxyAddress(host, None)
  {
    SplitNoChar(host, ':');
  }

  /** `proxies[Math.floor(Math.random() * proxies.length)]` with `proxies` the file split on "\n". */
  function PickProxy(file: string, r: real): string
    requires IsDraw(r)
  {
    var proxies := Split(file, "\n");
    FloorScaledBounds(r, |proxies|);
    proxies[FloorScaled(r, |proxies|)]
  }

  /** The pick is a line of the file, and every line is picked by some draw. */
  lemma PickProxyLines(file: string, k: nat)
    requires k < |Split(file, "\n")|
    ensures var proxies := Split(file, "\n");
      var r := k as real / |proxies| as real;
      IsDraw(r) && PickProxy(file, r) == proxies[k] && !Includes(proxies[k], "\n")
  {
    FloorScaledHits(k, |Split(file, "\n")|);
    SplitPartsExcludeSeparator(file, "\n");
  }
}
