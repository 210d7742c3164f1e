/**
 One one-shot turn: the drain loop over an agent's event stream
 (internal/agent/run_session.go).
 */
module DrainSession {

  datatype Option<T> = None | Some(value: T)

  type Usage = string

  datatype ResultPayload = ResultPayload(text: string, usage: Option<Usage>, durationMs: int, subtype: string)
  datatype DonePayload = DonePayload(reason: string, usage: Option<Usage>)

  // An absent payload or error is the source's nil.
  datatype Body =
    | Ready
    | Text(text: string)
    | Permission(options: Option<seq<string>>)
    | Result(result: Option<ResultPayload>, resultErr: Option<string>)
    | Done(done: Option<DonePayload>)
    | Error(err: Option<string>)
    | Other

  datatype AgentEvent = AgentEvent(sessionID: string, model: string, body: Body)

  /** What ends the wait when the events read so far hold no terminator. */
  datatype Ending = Closed | Cancelled | DeadlineExceeded

  datatype RunResult = RunResult(text: string, usage: Option<Usage>, sessionID: string, model: string,
                                 durationMs: int, subtype: string)

  datatype Failure =
    | SendFailed(sendErr: string)
    | StreamClosed
    | NilResult
    | AgentFailed(agentErr: string)
    | EndedWithoutResult(reason: string)
    | NilError
    | WithoutReply
    | WasCancelled
    | DeadlinePassed

  datatype Outcome = Outcome(result: RunResult, failure: Option<Failure>)

  const DONE_SETTLED := "settled"
  const ALLOW_ONCE := "Allow once"

  // ----- strings.TrimSpace and strings.Join -----

  /** Unicode white space, as Go's unicode.IsSpace has it. */
  predicate IsSpace(c: char) {
    || '\t' <= c <= '\r' || c == ' ' || c == '\U{85}' || c == '\U{a0}' || c == '\U{1680}'
    || '\U{2000}' <= c <= '\U{200a}' || c == '\U{2028}' || c == '\U{2029}' || c == '\U{202f}'
    || c == '\U{205f}' || c == '\U{3000}'
  }

  predicate Blank(s: string) { forall i | 0 <= i < |s| :: IsSpace(s[i]) }

  function SpacesInFront(s: string): (n: nat)
    ensures n <= |s| && forall k | 0 <= k < n :: IsSpace(s[k])
    ensures n < |s| ==> !IsSpace(s[n])
  {
    if s == "" || !IsSpace(s[0]) then 0 else 1 + SpacesInFront(s[1..])
  }

  function SpacesBehind(s: string): (n: nat)
    ensures n <= |s| && forall k | |s| - n <= k < |s| :: IsSpace(s[k])
    ensures n < |s| ==> !IsSpace(s[|s| - 1 - n])
  {
    if s == "" || !IsSpace(s[|s| - 1]) then 0 else 1 + SpacesBehind(s[..|s| - 1])
  }

  function TrimSpace(s: string): string {
    var t := s[SpacesInFront(s)..];
    t[..|t| - SpacesBehind(t)]
  }

  /** Trimming removes the outer white space and nothing else. */
  lemma TrimSpaceMeaning(s: string)
    ensures exists i, j | 0 <= i <= j <= |s| :: TrimSpace(s) == s[i..j] && Blank(s[..i]) && Blank(s[j..])
    ensures TrimSpace(s) == "" <==> Blank(s)
    ensures var t := TrimSpace(s); t != "" ==> !IsSpace(t[0]) && !IsSpace(t[|t| - 1])
  {
    var i, j := TrimPlaces(s);
    if i < j {
      assert TrimSpace(s)[0] == s[i] && TrimSpace(s)[j - i - 1] == s[j - 1];
    } else {
      assert s == s[..i] + s[i..];
    }
  }

  lemma Slices(s: string, i: nat, m: nat)
    requires i + m <= |s|
    ensures s[i..][..m] == s[i..i + m] && s[i..][m..] == s[i + m..]
  {
  }

  lemma SpacesAtEnds(s: string)
    ensures Blank(s[..SpacesInFront(s)]) && Blank(s[|s| - SpacesBehind(s)..])
  {
  }

  /** Where the outer white space ends and begins. */
  lemma TrimPlaces(s: string) returns (i: nat, j: nat)
    ensures i <= j <= |s| && TrimSpace(s) == s[i..j] && Blank(s[..i]) && Blank(s[j..])
    ensures i < j ==> !IsSpace(s[i]) && !IsSpace(s[j - 1])
  {
    i := SpacesInFront(s);
    var t := s[i..];
    var m := |t| - SpacesBehind(t);
    j := i + m;
    Slices(s, i, m);
    SpacesAtEnds(s);
    SpacesAtEnds(t);
    if i < j {
      assert s[j - 1] == t[m - 1];
    }
  }

  function Join(parts: seq<string>, sep: string): string {
    if parts == [] then ""
    else if |parts| == 1 then parts[0]
    else Join(parts[..|parts| - 1], sep) + sep + parts[|parts| - 1]
  }

  // ----- the reply -----

  /** The trimmed pieces that hold anything. */
  function Pieces(texts: seq<string>): seq<string> {
    if texts == [] then []
    else
      var n := |texts| - 1;
      var piece := TrimSpace(texts[n]);
      Pieces(texts[..n]) + if piece != "" then [piece] else []
  }

  lemma PiecesSnoc(texts: seq<string>, last: string)
    ensures Pieces(texts + [last]) == Pieces(texts) + if TrimSpace(last) != "" then [TrimSpace(last)] else []
  {
    assert (texts + [last])[..|texts|] == texts;
  }

  method SessionText(terminal: ResultPayload, streamed: seq<string>) returns (text: string)
    ensures text == Join(Pieces(streamed + [terminal.text]), "\n")
  {
    var parts: seq<string> := [];
    for i := 0 to |streamed|
      invariant parts == Pieces(streamed[..i])
    {
      assert streamed[..i + 1] == streamed[..i] + [streamed[i]];
      PiecesSnoc(streamed[..i], streamed[i]);
      var s := TrimSpace(streamed[i]);
      if s != "" {
        parts := parts + [s];
      }
    }
    assert streamed[..|streamed|] == streamed;
    PiecesSnoc(streamed, terminal.text);
    var s := TrimSpace(terminal.text);
    if s != "" {
      parts := parts + [s];
    }
    assert parts == Pieces(streamed + [terminal.text]);
    text := Join(parts, "\n");
  }

  /** The driver's exact text wins when it holds anything. */
  function Reply(exact: string, streamed: seq<string>, last: string): string {
    if TrimSpace(exact) != "" then TrimSpace(exact) else Join(Pieces(streamed + [last]), "\n")
  }

  predicate AllBlank(texts: seq<string>) { forall i | 0 <= i < |texts| :: Blank(texts[i]) }

  lemma AllBlankSnoc(texts: seq<string>, last: string)
    ensures AllBlank(texts + [last]) <==> AllBlank(texts) && Blank(last)
  {
    assert (texts + [last])[|texts|] == last;
    assert forall i | 0 <= i < |texts| :: (texts + [last])[i] == texts[i];
  }

  lemma {:induction false} PiecesEmpty(texts: seq<string>)
    ensures Pieces(texts) == [] <==> AllBlank(texts)
    ensures "" !in Pieces(texts)
  {
    if texts != [] {
      var n := |texts| - 1;
      PiecesEmpty(texts[..n]);
      assert texts == texts[..n] + [texts[n]];
      AllBlankSnoc(texts[..n], texts[n]);
      TrimSpaceMeaning(texts[n]);
    }
  }

  lemma JoinEmpty(parts: seq<string>)
    requires "" !in parts
    ensures Join(parts, "\n") == "" <==> parts == []
  {
    if |parts| == 1 {
      assert parts[0] in parts;
    }
  }

  /** Some piece of the reply is more than white space. */
  predicate Replied(exact: string, streamed: seq<string>, last: string) {
    !Blank(exact) || !Blank(last) || !AllBlank(streamed)
  }

  lemma ReplyExists(exact: string, streamed: seq<string>, last: string)
    ensures Reply(exact, streamed, last) != "" <==> Replied(exact, streamed, last)
  {
    TrimSpaceMeaning(exact);
    PiecesEmpty(streamed + [last]);
    AllBlankSnoc(streamed, last);
    JoinEmpty(Pieces(streamed + [last]));
  }

  // ----- what the loop makes of a stream -----

  predicate Terminator(e: AgentEvent) { e.body.Result? || e.body.Done? || e.body.Error? }

  function FirstTerminator(events: seq<AgentEvent>, from: nat): (k: nat)
    requires from <= |events|
    ensures from <= k <= |events| && forall j | from <= j < k :: !Terminator(events[j])
    ensures k < |events| ==> Terminator(events[k])
    decreases |events| - from
  {
    if from == |events| || Terminator(events[from]) then from else FirstTerminator(events, from + 1)
  }

  /** The events read: everything up to and including the first terminator. */
  function Read(events: seq<AgentEvent>): seq<AgentEvent> {
    var k := FirstTerminator(events, 0);
    if k < |events| then events[..k + 1] else events
  }

  function FirstReady(events: seq<AgentEvent>, from: nat): (k: nat)
    requires from <= |events|
    ensures from <= k <= |events| && forall j | from <= j < k :: !events[j].body.Ready?
    ensures k < |events| ==> events[k].body.Ready?
    decreases |events| - from
  {
    if from == |events| || events[from].body.Ready? then from else FirstReady(events, from + 1)
  }

  /** The part of the stream that speaks for the turn's identity: up to the first Ready. */
  function Identifying(events: seq<AgentEvent>): seq<AgentEvent> {
    var k := FirstReady(events, 0);
    if k < |events| then events[..k + 1] else events
  }

  function LastNonEmpty(texts: seq<string>): string {
    if texts == [] then ""
    else if texts[|texts| - 1] != "" then texts[|texts| - 1]
    else LastNonEmpty(texts[..|texts| - 1])
  }

  function SessionIDs(events: seq<AgentEvent>): seq<string> {
    seq(|events|, i requires 0 <= i < |events| => events[i].sessionID)
  }

  function Models(events: seq<AgentEvent>): seq<string> {
    seq(|events|, i requires 0 <= i < |events| => events[i].model)
  }

  function SessionID(events: seq<AgentEvent>): string { LastNonEmpty(SessionIDs(Identifying(events))) }

  function Model(events: seq<AgentEvent>): string { LastNonEmpty(Models(Identifying(events))) }

  function Streamed(events: seq<AgentEvent>): seq<string> {
    if events == [] then []
    else
      var n := |events| - 1;
      Streamed(events[..n]) + if events[n].body.Text? then [events[n].body.text] else []
  }

  function Answer(options: seq<string>): string { if |options| > 0 then options[0] else ALLOW_ONCE }

  /** The permission answers sent back: the first option, or the fallback. */
  function Answers(events: seq<AgentEvent>): seq<string> {
    if events == [] then []
    else
      var n := |events| - 1;
      var b := events[n].body;
      Answers(events[..n]) + if b.Permission? && b.options.Some? then [Answer(b.options.value)] else []
  }

  function FailedTurn(sessionID: string, model: string): RunResult {
    RunResult("", None, sessionID, model, 0, "")
  }

  function FinishedTurn(sessionID: string, model: string, terminal: ResultPayload, text: string): Outcome {
    if text == "" then Outcome(FailedTurn(sessionID, model), Some(WithoutReply))
    else Outcome(RunResult(text, terminal.usage, sessionID, model, terminal.durationMs, terminal.subtype), None)
  }

  /** The payload a clean terminator ends the turn with. */
  function Payload(e: AgentEvent): Option<ResultPayload> {
    match e.body
    case Result(Some(payload), None) => Some(payload)
    case Done(Some(done)) =>
      if done.reason == DONE_SETTLED then Some(ResultPayload("", done.usage, 0, "")) else None
    case _ => None
  }

  function Broken(e: AgentEvent): Failure
    requires Terminator(e) && Payload(e) == None
  {
    match e.body
    case Result(None, _) => NilResult
    case Result(Some(_), Some(err)) => AgentFailed(err)
    case Done(None) => EndedWithoutResult("")
    case Done(Some(done)) => EndedWithoutResult(done.reason)
    case Error(Some(err)) => AgentFailed(err)
    case Error(None) => NilError
  }

  function EndingFailure(ending: Ending): Failure {
    match ending
    case Closed => StreamClosed
    case Cancelled => WasCancelled
    case DeadlineExceeded => DeadlinePassed
  }

  /** The outcome of a turn that a terminator ends. */
  function Terminate(e: AgentEvent, sessionID: string, model: string, streamed: seq<string>, exact: string): Outcome
    requires Terminator(e)
  {
    match Payload(e)
    case None => Outcome(FailedTurn(sessionID, model), Some(Broken(e)))
    case Some(payload) => FinishedTurn(sessionID, model, payload, Reply(exact, streamed, payload.text))
  }

  predicate Terminated(events: seq<AgentEvent>) {
    exists i | 0 <= i < |events| :: Terminator(events[i])
  }

  predicate Concluded(read: seq<AgentEvent>) { read != [] && Terminator(read[|read| - 1]) }

  function Conclude(read: seq<AgentEvent>, ending: Ending, exact: string): Outcome {
    if Concluded(read) then Terminate(read[|read| - 1], SessionID(read), Model(read), Streamed(read), exact)
    else Outcome(FailedTurn(SessionID(read), Model(read)), Some(EndingFailure(ending)))
  }

  /** The outcome of a turn whose blocks were accepted. */
  function Turn(events: seq<AgentEvent>, ending: Ending, exact: string): Outcome {
    Conclude(Read(events), ending, exact)
  }

  // ----- what that outcome is -----

  lemma ReadTerminated(events: seq<AgentEvent>, more: seq<AgentEvent>)
    requires Terminated(events)
    ensures Read(events + more) == Read(events) && Concluded(Read(events))
  {
    var k := FirstTerminator(events, 0);
    var m := FirstTerminator(events + more, 0);
    assert k < |events|;
    assert (events + more)[k] == events[k];
    assert m <= k;
    assert (events + more)[m] == events[m];
    assert m == k;
    assert (events + more)[..k + 1] == events[..k + 1];
  }

  /** The prefix up to the first terminator decides: nothing behind it matters, nor how the wait would end. */
  lemma PrefixDecides(events: seq<AgentEvent>, more: seq<AgentEvent>, ending: Ending, other: Ending, exact: string)
    requires Terminated(events)
    ensures Turn(events + more, other, exact) == Turn(events, ending, exact)
  {
    ReadTerminated(events, more);
  }

  /** Success is an error-free result or a settled end, with a reply in some piece that is not white space. */
  lemma SuccessExactly(events: seq<AgentEvent>, ending: Ending, exact: string)
    ensures Turn(events, ending, exact).failure == None <==>
      var read := Read(events);
      && Concluded(read)
      && var b := read[|read| - 1].body;
      && ((b.Result? && b.result.Some? && b.resultErr == None)
          || (b.Done? && b.done.Some? && b.done.value.reason == "settled"))
      && Replied(exact, Streamed(read), if b.Result? then b.result.value.text else "")
  {
    var read := Read(events);
    if Concluded(read) {
      SucceedsExactly(read[|read| - 1], SessionID(read), Model(read), Streamed(read), exact);
    }
  }

  lemma SucceedsExactly(e: AgentEvent, sessionID: string, model: string, streamed: seq<string>, exact: string)
    requires Terminator(e)
    ensures Terminate(e, sessionID, model, streamed, exact).failure == None <==>
      var b := e.body;
      && ((b.Result? && b.result.Some? && b.resultErr == None)
          || (b.Done? && b.done.Some? && b.done.value.reason == "settled"))
      && Replied(exact, streamed, if b.Result? then b.result.value.text else "")
  {
    TerminateEnds(e, sessionID, model, streamed, exact);
  }

  /** The outcome of a turn that an event with this body ends, replied telling whether there is anything to reply. */
  ghost predicate EndsAs(b: Body, replied: bool, out: Outcome) {
    && (out.failure == None <==>
          && replied
          && ((b.Result? && b.result.Some? && b.resultErr == None)
              || (b.Done? && b.done.Some? && b.done.value.reason == "settled")))
    && (b.Result? && b.result == None ==> out.failure == Some(NilResult))
    && (b.Result? && b.result.Some? && b.resultErr.Some? ==> out.failure == Some(AgentFailed(b.resultErr.value)))
    && (b.Done? && b.done == None ==> out.failure == Some(EndedWithoutResult("")))
    && (b.Done? && b.done.Some? && b.done.value.reason != "settled" ==>
          out.failure == Some(EndedWithoutResult(b.done.value.reason)))
    && (b.Error? ==> out.failure == Some(if b.err.Some? then AgentFailed(b.err.value) else NilError))
    && (!replied && b.Result? && b.result.Some? && b.resultErr == None ==> out.failure == Some(WithoutReply))
    && (!replied && b.Done? && b.done.Some? && b.done.value.reason == "settled" ==> out.failure == Some(WithoutReply))
    && (out.failure.Some? ==>
          out.result.text == "" && out.result.usage == None && out.result.durationMs == 0 && out.result.subtype == "")
    && (out.failure == None ==>
          if b.Result? then
            && out.result.usage == b.result.value.usage && out.result.durationMs == b.result.value.durationMs
            && out.result.subtype == b.result.value.subtype
          else
            b.Done? && out.result.usage == b.done.value.usage && out.result.durationMs == 0 && out.result.subtype == "")
  }

  /** Each terminator has the outcome the event's fields say. */
  lemma TerminateEnds(e: AgentEvent, sessionID: string, model: string, streamed: seq<string>, exact: string)
    requires Terminator(e)
    ensures var last := if e.body.Result? && e.body.result.Some? then e.body.result.value.text else "";
      EndsAs(e.body, Replied(exact, streamed, last), Terminate(e, sessionID, model, streamed, exact))
  {
    if Payload(e).Some? {
      ReplyExists(exact, streamed, Payload(e).value.text);
    }
  }

  /** Win or lose the turn reports its identity, and a failed turn nothing else. */
  lemma IdentityAlways(events: seq<AgentEvent>, ending: Ending, exact: string)
    ensures var out := Turn(events, ending, exact);
      && out.result.sessionID == SessionID(Read(events)) && out.result.model == Model(Read(events))
      && (out.failure.Some? <==> out.result.text == "")
      && (out.failure.Some? ==> out.result == FailedTurn(out.result.sessionID, out.result.model))
  {
  }

  lemma {:induction false} LastPlace(texts: seq<string>) returns (k: nat)
    requires LastNonEmpty(texts) != ""
    ensures k < |texts| && texts[k] == LastNonEmpty(texts) && forall i | k < i < |texts| :: texts[i] == ""
  {
    var n := |texts| - 1;
    if texts[n] != "" {
      k := n;
    } else {
      k := LastPlace(texts[..n]);
      forall i | k < i < |texts| ensures texts[i] == "" {
        assert i < n ==> texts[..n][i] == texts[i];
      }
    }
  }

  lemma {:induction false} AllEmpty(texts: seq<string>)
    requires LastNonEmpty(texts) == ""
    ensures forall i | 0 <= i < |texts| :: texts[i] == ""
  {
    if texts != [] {
      var n := |texts| - 1;
      AllEmpty(texts[..n]);
      assert forall i | 0 <= i < n :: texts[..n][i] == texts[i];
    }
  }

  /** "The last non-empty one": it stands somewhere, and everything behind it is empty. */
  lemma LastNonEmptyMeaning(texts: seq<string>)
    ensures LastNonEmpty(texts) == "" <==> forall i | 0 <= i < |texts| :: texts[i] == ""
    ensures LastNonEmpty(texts) != "" ==>
      exists k | 0 <= k < |texts| :: texts[k] == LastNonEmpty(texts) && forall i | k < i < |texts| :: texts[i] == ""
  {
    if LastNonEmpty(texts) == "" {
      AllEmpty(texts);
    } else {
      var k := LastPlace(texts);
      assert texts[k] != "";
    }
  }

  // ----- the loop -----

  predicate HasReady(seen: seq<AgentEvent>) { FirstReady(seen, 0) < |seen| }

  /** The loop's variables. */
  datatype Progress = Progress(sessionID: string, model: string, readySeen: bool, streamed: seq<string>,
                               answers: seq<string>)

  function Advance(p: Progress, e: AgentEvent): Progress {
    Progress(
      if !p.readySeen && e.sessionID != "" then e.sessionID else p.sessionID,
      if !p.readySeen && e.model != "" then e.model else p.model,
      p.readySeen || e.body.Ready?,
      p.streamed + (if e.body.Text? then [e.body.text] else []),
      p.answers + if e.body.Permission? && e.body.options.Some? then [Answer(e.body.options.value)] else [])
  }

  function After(seen: seq<AgentEvent>): Progress {
    if seen == [] then Progress("", "", false, [], [])
    else Advance(After(seen[..|seen| - 1]), seen[|seen| - 1])
  }

  /** What the variables hold, in terms of the events read. */
  lemma {:induction false} AfterMeaning(seen: seq<AgentEvent>)
    ensures After(seen) == Progress(SessionID(seen), Model(seen), HasReady(seen), Streamed(seen), Answers(seen))
  {
    if seen != [] {
      var n := |seen| - 1;
      var init := seen[..n];
      assert seen == init + [seen[n]];
      AfterMeaning(init);
      IdentifyingSnoc(init, seen[n]);
      IdentitySnoc(init, seen[n]);
      PayloadSnoc(init, seen[n]);
    }
  }

  /** Once a Ready was read the identity is settled; before that the next event extends it. */
  lemma IdentifyingSnoc(seen: seq<AgentEvent>, e: AgentEvent)
    ensures Identifying(seen + [e]) == if HasReady(seen) then Identifying(seen) else seen + [e]
    ensures !HasReady(seen) ==> Identifying(seen) == seen
    ensures HasReady(seen + [e]) == (HasReady(seen) || e.body.Ready?)
  {
    var k, m := FirstReady(seen, 0), FirstReady(seen + [e], 0);
    assert forall i | 0 <= i < |seen| :: (seen + [e])[i] == seen[i];
    if k < |seen| {
      assert m == k;
      assert (seen + [e])[..k + 1] == seen[..k + 1];
    } else {
      assert m >= k && (seen + [e])[|seen|] == e;
      assert (seen + [e])[..|seen| + 1] == seen + [e];
    }
  }

  lemma IdentitySnoc(seen: seq<AgentEvent>, e: AgentEvent)
    ensures SessionID(seen + [e]) == if !HasReady(seen) && e.sessionID != "" then e.sessionID else SessionID(seen)
    ensures Model(seen + [e]) == if !HasReady(seen) && e.model != "" then e.model else Model(seen)
  {
    IdentifyingSnoc(seen, e);
    assert SessionIDs(seen + [e])[..|seen|] == SessionIDs(seen);
    assert Models(seen + [e])[..|seen|] == Models(seen);
  }

  lemma PayloadSnoc(seen: seq<AgentEvent>, e: AgentEvent)
    ensures Streamed(seen + [e]) == Streamed(seen) + if e.body.Text? then [e.body.text] else []
    ensures Answers(seen + [e])
         == Answers(seen) + if e.body.Permission? && e.body.options.Some? then [Answer(e.body.options.value)] else []
  {
    assert (seen + [e])[..|seen|] == seen;
  }

  /** The whole effect of a turn whose blocks were accepted: its outcome, what the sink saw, what was answered. */
  ghost predicate Drained(events: seq<AgentEvent>, ending: Ending, exact: string, out: Outcome,
                          sink: seq<AgentEvent>, answers: seq<string>) {
    out == Turn(events, ending, exact) && sink == Read(events) && answers == Answers(sink)
  }

  lemma EndsHere(events: seq<AgentEvent>, i: nat, ending: Ending, exact: string, p: Progress, out: Outcome,
                 sink: seq<AgentEvent>)
    requires i < |events| && forall j | 0 <= j < i :: !Terminator(events[j])
    requires Terminator(events[i]) && out == Terminate(events[i], p.sessionID, p.model, p.streamed, exact)
    requires sink == events[..i + 1] && p == After(events[..i + 1])
    ensures Drained(events, ending, exact, out, sink, p.answers)
  {
    assert FirstTerminator(events, 0) == i;
    assert sink[i] == events[i];
    AfterMeaning(sink);
  }

  lemma EndsUnterminated(events: seq<AgentEvent>, ending: Ending, exact: string, p: Progress, out: Outcome,
                         sink: seq<AgentEvent>)
    requires forall j | 0 <= j < |events| :: !Terminator(events[j])
    requires sink == events[..|events|] && p == After(events[..|events|])
    requires out == Outcome(FailedTurn(p.sessionID, p.model), Some(EndingFailure(ending)))
    ensures Drained(events, ending, exact, out, sink, p.answers)
  {
    assert events[..|events|] == events;
    assert FirstTerminator(events, 0) == |events|;
    AfterMeaning(events);
  }

  lemma AfterNext(events: seq<AgentEvent>, i: nat)
    requires i < |events|
    ensures After(events[..i + 1]) == Advance(After(events[..i]), events[i])
  {
    assert events[..i + 1][..i] == events[..i];
  }

  /** What one iteration notes of an event, before a terminator ends the loop. */
  method Note(p: Progress, ev: AgentEvent) returns (q: Progress)
    ensures q == Advance(p, ev)
  {
    q := p;
    if !q.readySeen {
      if ev.sessionID != "" { q := q.(sessionID := ev.sessionID); }
      if ev.model != "" { q := q.(model := ev.model); }
    }
    match ev.body {
      case Ready =>
        q := q.(readySeen := true);
      case Text(text) =>
        q := q.(streamed := q.streamed + [text]);
      case Permission(options) =>
        if options.Some? {
          q := q.(answers := q.answers + [Answer(options.value)]);
        }
      case _ =>
    }
  }

  /** The terminator arms of the loop. */
  method EndTurn(ev: AgentEvent, sessionID: string, model: string, streamed: seq<string>, exact: string)
    returns (out: Outcome)
    requires Terminator(ev)
    ensures out == Terminate(ev, sessionID, model, streamed, exact)
    ensures var last := if ev.body.Result? && ev.body.result.Some? then ev.body.result.value.text else "";
      EndsAs(ev.body, Replied(exact, streamed, last), out)
  {
    TerminateEnds(ev, sessionID, model, streamed, exact);
    var failed := FailedTurn(sessionID, model);
    match ev.body {
      case Result(result, err) =>
        if result.None? { return Outcome(failed, Some(NilResult)); }
        if err.Some? { return Outcome(failed, Some(AgentFailed(err.value))); }
        out := Finish(sessionID, model, result.value, streamed, exact);
      case Done(done) =>
        if done.None? || done.value.reason != DONE_SETTLED {
          return Outcome(failed, Some(EndedWithoutResult(if done.Some? then done.value.reason else "")));
        }
        out := Finish(sessionID, model, ResultPayload("", done.value.usage, 0, ""), streamed, exact);
      case Error(err) =>
        out := Outcome(failed, Some(if err.Some? then AgentFailed(err.value) else NilError));
    }
  }

  /** The same, from the loop's variables. */
  method EndWith(ev: AgentEvent, p: Progress, exact: string) returns (out: Outcome)
    requires Terminator(ev)
    ensures out == Terminate(ev, p.sessionID, p.model, p.streamed, exact)
  {
    out := EndTurn(ev, p.sessionID, p.model, p.streamed, exact);
  }

  method Finish(sessionID: string, model: string, terminal: ResultPayload, streamed: seq<string>, exact: string)
    returns (out: Outcome)
    ensures out == FinishedTurn(sessionID, model, terminal, Reply(exact, streamed, terminal.text))
  {
    var text := TrimSpace(exact);
    if text == "" {
      text := SessionText(terminal, streamed);
    }
    out := FinishedTurn(sessionID, model, terminal, text);
  }

  /**
   drainSessionEvents: sends the blocks, then reads events until a terminator, the end of the stream or the end of
   the context. sink receives every event read; answers are the permission responses sent to the agent.
   */
  method DrainSessionEvents(send: Option<string>, events: seq<AgentEvent>, ending: Ending, exact: string)
    returns (out: Outcome, sink: seq<AgentEvent>, answers: seq<string>)
    ensures send.Some? ==> out == Outcome(FailedTurn("", ""), Some(SendFailed(send.value)))
    ensures send.Some? ==> sink == [] && answers == []
    ensures send.None? ==> Drained(events, ending, exact, out, sink, answers)
  {
    if send.Some? {
      return Outcome(FailedTurn("", ""), Some(SendFailed(send.value))), [], [];
    }
    out, sink, answers := ReadTurn(events, ending, exact);
  }

  method ReadTurn(events: seq<AgentEvent>, ending: Ending, exact: string)
    returns (out: Outcome, sink: seq<AgentEvent>, answers: seq<string>)
    ensures Drained(events, ending, exact, out, sink, answers)
  {
    var p := Progress("", "", false, [], []);
    sink := [];
    for i := 0 to |events|
      invariant sink == events[..i] && p == After(events[..i])
      invariant forall j | 0 <= j < i :: !Terminator(events[j])
    {
      var ev := events[i];
      AfterNext(events, i);
      sink := sink + [ev];
      p := Note(p, ev);
      if Terminator(ev) {
        out := EndWith(ev, p, exact);
        EndsHere(events, i, ending, exact, p, out, sink);
        return out, sink, p.answers;
      }
    }
    out := Outcome(FailedTurn(p.sessionID, p.model), Some(EndingFailure(ending)));
    EndsUnterminated(events, ending, exact, p, out, sink);
    return out, sink, p.answers;
  }

  function WithSession(turn: Outcome, fallback: string): Outcome {
    if turn.result.sessionID != "" then turn else turn.(result := turn.result.(sessionID := fallback))
  }

  /** DrainSession falls back to the agent's own session id when the stream reported none. */
  method Drain(agentSessionID: string, send: Option<string>, events: seq<AgentEvent>, ending: Ending, exact: string)
    returns (out: Outcome, sink: seq<AgentEvent>, answers: seq<string>)
    ensures send.None? ==>
      exists turn :: Drained(events, ending, exact, turn, sink, answers) && out == WithSession(turn, agentSessionID)
    ensures send.None? ==>
      var turn := Turn(events, ending, exact); out == turn.(result := turn.result.(sessionID := out.result.sessionID))
    ensures send.Some? ==> out == Outcome(RunResult("", None, agentSessionID, "", 0, ""), Some(SendFailed(send.value)))
    ensures out.result.sessionID == if SessionID(sink) != "" then SessionID(sink) else agentSessionID
  {
    out, sink, answers := DrainSessionEvents(send, events, ending, exact);
    if send.None? {
      IdentityAlways(events, ending, exact);
    }
    if out.result.sessionID == "" {
      out := out.(result := out.result.(sessionID := agentSessionID));
    }
  }
}
