/**
 What a one-shot turn answers, in the fields of its events: which terminator succeeds or fails
 and how, what the reply is made of, which identity is reported and which answers are sent
 (internal/agent/run_session.go).
 */
module DrainOutcome {
  import opened DrainSession

  // ----- how a turn ends -----

  /** Event k is the first that ends a turn. */
  ghost predicate EndsAt(events: seq<AgentEvent>, k: nat) {
    && k < |events| && (events[k].body.Result? || events[k].body.Done? || events[k].body.Error?)
    && forall j | 0 <= j < k :: !events[j].body.Result? && !events[j].body.Done? && !events[j].body.Error?
  }

  lemma FirstIs(events: seq<AgentEvent>, k: nat)
    requires EndsAt(events, k)
    ensures Read(events) == events[..k + 1] && Concluded(Read(events)) && Read(events)[k] == events[k]
    ensures FirstTerminator(events, 0) == k
  {
    var m := FirstTerminator(events, 0);
    assert Terminator(events[k]);
    assert m <= k;
    assert m < |events| ==> Terminator(events[m]);
  }

  lemma {:induction false} StreamedBlank(events: seq<AgentEvent>)
    ensures AllBlank(Streamed(events)) <==>
      forall j | 0 <= j < |events| && events[j].body.Text? :: Blank(events[j].body.text)
  {
    if events != [] {
      var n := |events| - 1;
      var init := events[..n];
      StreamedBlank(init);
      assert forall j | 0 <= j < n :: init[j] == events[j];
      if events[n].body.Text? {
        assert Streamed(events) == Streamed(init) + [events[n].body.text];
        AllBlankSnoc(Streamed(init), events[n].body.text);
      } else {
        assert Streamed(events) == Streamed(init) + [] == Streamed(init);
      }
    }
  }

  /** Some piece is more than white space: the exact text, a text event, or the result's own text. */
  ghost predicate HasReply(events: seq<AgentEvent>, k: nat, exact: string)
    requires k < |events|
  {
    || !Blank(exact)
    || (exists j | 0 <= j < k :: events[j].body.Text? && !Blank(events[j].body.text))
    || (events[k].body.Result? && events[k].body.result.Some? && !Blank(events[k].body.result.value.text))
  }

  lemma RepliedIs(events: seq<AgentEvent>, k: nat, exact: string, last: string)
    requires EndsAt(events, k)
    requires var b := events[k].body; last == if b.Result? && b.result.Some? then b.result.value.text else ""
    ensures Replied(exact, Streamed(Read(events)), last) <==> HasReply(events, k, exact)
  {
    FirstIs(events, k);
    StreamedBlank(Read(events));
    assert forall j | 0 <= j < k :: Read(events)[j] == events[j];
  }

  /**
   A turn succeeds exactly if its terminator is a result with a payload and no error, or a settled end, and there is a
   reply; each other terminator is a failure of its own kind.
   */
  lemma TurnEnds(events: seq<AgentEvent>, k: nat, ending: Ending, exact: string)
    requires EndsAt(events, k)
    ensures EndsAs(events[k].body, HasReply(events, k, exact), Turn(events, ending, exact))
    ensures Read(events) == events[..k + 1]
  {
    FirstIs(events, k);
    var read := Read(events);
    var b := events[k].body;
    RepliedIs(events, k, exact, if b.Result? && b.result.Some? then b.result.value.text else "");
    TerminateEnds(read[k], SessionID(read), Model(read), Streamed(read), exact);
  }

  /** Without a terminator it fails as the wait for one ended. */
  lemma TurnUnended(events: seq<AgentEvent>, ending: Ending, exact: string)
    requires forall j | 0 <= j < |events| :: !events[j].body.Result? && !events[j].body.Done? && !events[j].body.Error?
    ensures var out := Turn(events, ending, exact);
      && Read(events) == events
      && (ending == Closed ==> out.failure == Some(StreamClosed))
      && (ending == Cancelled ==> out.failure == Some(WasCancelled))
      && (ending == DeadlineExceeded ==> out.failure == Some(DeadlinePassed))
      && out.result.text == "" && out.result.usage == None && out.result.durationMs == 0 && out.result.subtype == ""
  {
    assert FirstTerminator(events, 0) == |events|;
  }

  // ----- the reply -----

  /** t is s without its outer white space. */
  ghost predicate Trimmed(s: string, t: string) {
    && (exists i, j | 0 <= i <= j <= |s| :: t == s[i..j] && Blank(s[..i]) && Blank(s[j..]))
    && (t != "" ==> !IsSpace(t[0]) && !IsSpace(t[|t| - 1]))
  }

  lemma TrimsTo(s: string)
    ensures Trimmed(s, TrimSpace(s)) && (TrimSpace(s) == "" <==> Blank(s))
  {
    TrimSpaceMeaning(s);
  }

  ghost predicate StandsAt(text: string, part: string, at: nat) {
    at + |part| <= |text| && text[at..at + |part|] == part
  }

  /** A newline behind the part at at, and the next part. */
  ghost predicate Follows(text: string, part: string, at: nat, next: nat) {
    next == at + |part| + 1 <= |text| && text[next - 1] == '\n'
  }

  /** The parts stand in text from the places in from on, with one newline between neighbours and nothing else. */
  ghost predicate SeparatedAt(text: string, parts: seq<string>, from: seq<nat>) {
    && |from| == |parts|
    && (parts == [] ==> text == "")
    && (parts != [] ==> from[0] == 0 && from[|from| - 1] + |parts[|parts| - 1]| == |text|)
    && (forall i | 0 <= i < |parts| :: StandsAt(text, parts[i], from[i]))
    && forall i | 0 < i < |parts| :: Follows(text, parts[i - 1], from[i - 1], from[i])
  }

  ghost predicate Separated(text: string, parts: seq<string>) {
    exists from :: SeparatedAt(text, parts, from)
  }

  lemma StandsIn(text: string, part: string, at: nat, more: string)
    requires StandsAt(text, part, at)
    ensures StandsAt(text + more, part, at)
  {
    assert (text + more)[at..at + |part|] == text[at..at + |part|];
  }

  lemma SeparatedSnoc(text: string, parts: seq<string>, from: seq<nat>, last: string)
    requires SeparatedAt(text, parts, from) && parts != []
    ensures SeparatedAt((text + "\n") + last, parts + [last], from + [|text| + 1])
  {
    var line := text + "\n";
    var longer, all, places := line + last, parts + [last], from + [|text| + 1];
    forall i | 0 <= i < |all| ensures StandsAt(longer, all[i], places[i]) {
      if i < |parts| {
        assert all[i] == parts[i] && places[i] == from[i];
        StandsIn(text, parts[i], from[i], "\n");
        StandsIn(line, parts[i], from[i], last);
      } else {
        assert longer[|line|..|line| + |last|] == last;
      }
    }
    forall i | 0 < i < |all| ensures Follows(longer, all[i - 1], places[i - 1], places[i]) {
      assert all[i - 1] == parts[i - 1] && places[i - 1] == from[i - 1];
      if i < |parts| {
        assert places[i] == from[i] && Follows(text, parts[i - 1], from[i - 1], from[i]);
        assert longer[from[i] - 1] == text[from[i] - 1];
      }
    }
  }

  lemma SeparatedOne(part: string)
    ensures Separated(part, [part])
  {
    assert part[0..0 + |part|] == part;
    assert SeparatedAt(part, [part], [0]);
  }

  lemma SeparatedMore(text: string, parts: seq<string>, last: string)
    requires Separated(text, parts) && parts != []
    ensures Separated((text + "\n") + last, parts + [last])
  {
    var from :| SeparatedAt(text, parts, from);
    SeparatedSnoc(text, parts, from, last);
  }

  lemma {:induction false} JoinSeparates(parts: seq<string>)
    ensures Separated(Join(parts, "\n"), parts)
  {
    if parts == [] {
      assert SeparatedAt("", parts, []);
    } else {
      var n := |parts| - 1;
      assert parts == parts[..n] + [parts[n]];
      if n == 0 {
        SeparatedOne(parts[0]);
        assert parts == [parts[0]];
      } else {
        JoinSeparates(parts[..n]);
        SeparatedMore(Join(parts[..n], "\n"), parts[..n], parts[n]);
      }
    }
  }

  /** What event j says towards the reply of a turn that event k ends. */
  function Said(events: seq<AgentEvent>, k: nat, j: nat): Option<string>
    requires j <= k < |events|
  {
    var b := events[j].body;
    if b.Text? then Some(b.text)
    else if j == k && b.Result? && b.result.Some? then Some(b.result.value.text)
    else None
  }

  ghost predicate Ascending(at: seq<nat>) { forall i, j | 0 <= i < j < |at| :: at[i] < at[j] }

  /** parts are the texts before place m, trimmed, from the events in at; what the others say is white space. */
  ghost predicate PiecesAt(events: seq<AgentEvent>, k: nat, m: nat, parts: seq<string>, at: seq<nat>)
    requires m <= k + 1 <= |events|
  {
    && |at| == |parts| && Ascending(at)
    && (forall i | 0 <= i < |at| ::
          && at[i] < m && Said(events, k, at[i]).Some? && parts[i] != ""
          && Trimmed(Said(events, k, at[i]).value, parts[i]))
    && forall j: nat | j < m && j !in at && Said(events, k, j).Some? :: Blank(Said(events, k, j).value)
  }

  lemma PiecesSkip(events: seq<AgentEvent>, k: nat, m: nat, parts: seq<string>, at: seq<nat>, next: nat)
    requires next == m + 1 <= k + 1 <= |events| && PiecesAt(events, k, m, parts, at)
    requires Said(events, k, m).Some? ==> Blank(Said(events, k, m).value)
    ensures PiecesAt(events, k, next, parts, at)
  {
  }

  lemma PiecesMore(events: seq<AgentEvent>, k: nat, m: nat, parts: seq<string>, at: seq<nat>, next: nat, part: string)
    requires next == m + 1 <= k + 1 <= |events| && PiecesAt(events, k, m, parts, at)
    requires Said(events, k, m).Some? && part != "" && Trimmed(Said(events, k, m).value, part)
    ensures PiecesAt(events, k, next, parts + [part], at + [m])
  {
    var all, places := parts + [part], at + [m];
    forall j: nat | j < next && j !in places && Said(events, k, j).Some? ensures Blank(Said(events, k, j).value) {
      assert places[|at|] == m;
      assert j !in at;
    }
  }

  /** One more event's text, trimmed, if anything is left of it. */
  lemma PiecesNext(events: seq<AgentEvent>, k: nat, m: nat, parts: seq<string>, at: seq<nat>, next: nat, text: string)
    returns (at': seq<nat>)
    requires next == m + 1 <= k + 1 <= |events| && PiecesAt(events, k, m, parts, at)
    requires Said(events, k, m) == Some(text) || (text == "" && Said(events, k, m) == None)
    ensures PiecesAt(events, k, next, parts + (if TrimSpace(text) != "" then [TrimSpace(text)] else []), at')
  {
    TrimsTo(text);
    if TrimSpace(text) != "" {
      PiecesMore(events, k, m, parts, at, next, TrimSpace(text));
      at' := at + [m];
    } else {
      PiecesSkip(events, k, m, parts, at, next);
      assert parts + [] == parts;
      at' := at;
    }
  }

  /** Before the terminator the pieces are those of the text events. */
  lemma {:induction false} StreamedPieces(events: seq<AgentEvent>, k: nat, m: nat) returns (at: seq<nat>)
    requires EndsAt(events, k) && m <= k
    ensures PiecesAt(events, k, m, Pieces(Streamed(events[..m])), at)
  {
    if m == 0 {
      at := [];
    } else {
      var n := m - 1;
      at := StreamedPieces(events, k, n);
      StreamedNext(events, n, m);
      if events[n].body.Text? {
        PiecesSnoc(Streamed(events[..n]), events[n].body.text);
        at := PiecesNext(events, k, n, Pieces(Streamed(events[..n])), at, m, events[n].body.text);
      } else {
        PiecesSkip(events, k, n, Pieces(Streamed(events[..n])), at, m);
      }
    }
  }

  lemma StreamedNext(events: seq<AgentEvent>, n: nat, m: nat)
    requires m == n + 1 <= |events|
    ensures Streamed(events[..m])
         == if events[n].body.Text? then Streamed(events[..n]) + [events[n].body.text] else Streamed(events[..n])
  {
    PayloadSnoc(events[..n], events[n]);
    assert events[..m] == events[..n] + [events[n]];
    assert Streamed(events[..n]) + [] == Streamed(events[..n]);
  }

  /** Text made of all that was said, piece by piece. */
  ghost predicate MadeOf(events: seq<AgentEvent>, k: nat, text: string)
    requires k < |events|
  {
    exists parts :: Separated(text, parts) && PiecesOf(events, k, k + 1, parts)
  }

  ghost predicate PiecesOf(events: seq<AgentEvent>, k: nat, m: nat, parts: seq<string>)
    requires m <= k + 1 <= |events|
  {
    exists at :: PiecesAt(events, k, m, parts, at)
  }

  lemma AllPieces(events: seq<AgentEvent>, k: nat, last: string)
    requires EndsAt(events, k) && Said(events, k, k) == (if events[k].body.Result? then Some(last) else None)
    requires !events[k].body.Result? ==> last == ""
    ensures MadeOf(events, k, Join(Pieces(Streamed(Read(events)) + [last]), "\n"))
  {
    FirstIs(events, k);
    var before := Streamed(events[..k]);
    StreamedNext(events, k, k + 1);
    var at := StreamedPieces(events, k, k);
    at := PiecesNext(events, k, k, Pieces(before), at, k + 1, last);
    PiecesSnoc(before, last);
    JoinSeparates(Pieces(before + [last]));
    assert PiecesOf(events, k, k + 1, Pieces(before + [last]));
  }

  lemma SuccessText(events: seq<AgentEvent>, k: nat, ending: Ending, exact: string)
    requires EndsAt(events, k) && Turn(events, ending, exact).failure == None
    ensures var b := events[k].body;
      && (b.Result? ==> b.result.Some?)
      && Turn(events, ending, exact).result.text
           == Reply(exact, Streamed(Read(events)), if b.Result? then b.result.value.text else "")
  {
    FirstIs(events, k);
    TurnEnds(events, k, ending, exact);
  }

  /** The reply: the exact text without its outer white space if it holds anything, else everything said, joined. */
  lemma ReplyIs(events: seq<AgentEvent>, k: nat, ending: Ending, exact: string)
    requires EndsAt(events, k) && Turn(events, ending, exact).failure == None
    ensures !Blank(exact) ==> Trimmed(exact, Turn(events, ending, exact).result.text)
    ensures Blank(exact) ==> MadeOf(events, k, Turn(events, ending, exact).result.text)
  {
    SuccessText(events, k, ending, exact);
    TrimsTo(exact);
    if Blank(exact) {
      AllPieces(events, k, if events[k].body.Result? then events[k].body.result.value.text else "");
    }
  }

  // ----- the identity -----

  /** value is what the last of the first n events to say anything said, none behind the first Ready being asked. */
  ghost predicate LastSaid(events: seq<AgentEvent>, n: nat, says: AgentEvent -> string, value: string)
    requires n <= |events|
  {
    if value == "" then forall j | 0 <= j < n && Asked(events, j) :: says(events[j]) == ""
    else exists j | 0 <= j < n ::
      && Asked(events, j) && says(events[j]) == value
      && forall m | j < m < n && Asked(events, m) :: says(events[m]) == ""
  }

  /** No Ready came before event j. */
  ghost predicate Asked(events: seq<AgentEvent>, j: nat)
    requires j <= |events|
  {
    forall i | 0 <= i < j :: !events[i].body.Ready?
  }

  lemma AskedUpTo(read: seq<AgentEvent>, j: nat)
    requires j < |read|
    ensures Asked(read, j) <==> j < |Identifying(read)|
    ensures Identifying(read) <= read
  {
    var k := FirstReady(read, 0);
    if k < |read| && k < j {
      assert read[k].body.Ready?;
    }
  }

  lemma LastSaidOf(read: seq<AgentEvent>, says: AgentEvent -> string, texts: seq<string>)
    requires |texts| == |Identifying(read)|
    requires forall i | 0 <= i < |texts| :: texts[i] == says(Identifying(read)[i])
    ensures LastSaid(read, |read|, says, LastNonEmpty(texts))
  {
    LastNonEmptyMeaning(texts);
    forall j | 0 <= j < |read| ensures Asked(read, j) <==> j < |Identifying(read)| {
      AskedUpTo(read, j);
    }
    assert Identifying(read) <= read;
    var value := LastNonEmpty(texts);
    if value == "" {
      assert forall j | 0 <= j < |texts| :: texts[j] == "";
    } else {
      var k :| 0 <= k < |texts| && texts[k] == value && forall i | k < i < |texts| :: texts[i] == "";
      assert Asked(read, k) && says(read[k]) == value;
    }
  }

  /** Session and model are what the events read said last, up to the first Ready. */
  lemma IdentityIs(events: seq<AgentEvent>, ending: Ending, exact: string)
    ensures var out, read := Turn(events, ending, exact), Read(events);
      && LastSaid(read, |read|, (e: AgentEvent) => e.sessionID, out.result.sessionID)
      && LastSaid(read, |read|, (e: AgentEvent) => e.model, out.result.model)
  {
    var read := Read(events);
    IdentityAlways(events, ending, exact);
    LastSaidOf(read, (e: AgentEvent) => e.sessionID, SessionIDs(Identifying(read)));
    LastSaidOf(read, (e: AgentEvent) => e.model, Models(Identifying(read)));
  }

  // ----- the permission answers -----

  /** answers are those to the permission requests among the first m events that name options, at the places in at. */
  ghost predicate AnsweredAt(events: seq<AgentEvent>, m: nat, answers: seq<string>, at: seq<nat>)
    requires m <= |events|
  {
    && |at| == |answers| && Ascending(at)
    && (forall i | 0 <= i < |at| ::
          && at[i] < m && events[at[i]].body.Permission? && events[at[i]].body.options.Some?
          && var options := events[at[i]].body.options.value;
          answers[i] == if options == [] then "Allow once" else options[0])
    && forall j: nat | j < m && events[j].body.Permission? && events[j].body.options.Some? :: j in at
  }

  lemma AnsweredMore(events: seq<AgentEvent>, m: nat, answers: seq<string>, at: seq<nat>, next: nat)
    requires next == m + 1 <= |events| && AnsweredAt(events, m, answers, at)
    ensures var b := events[m].body;
      if b.Permission? && b.options.Some? then
        var answer := if b.options.value == [] then "Allow once" else b.options.value[0];
        AnsweredAt(events, next, answers + [answer], at + [m])
      else AnsweredAt(events, next, answers, at)
  {
    forall j: nat | j in at || j == m ensures j in at + [m] {
      if j == m {
        assert (at + [m])[|at|] == m;
      }
    }
  }

  lemma AnswersNext(events: seq<AgentEvent>, n: nat, m: nat)
    requires m == n + 1 <= |events|
    ensures var b := events[n].body;
      Answers(events[..m]) ==
        if b.Permission? && b.options.Some? then
          Answers(events[..n]) + [if b.options.value == [] then "Allow once" else b.options.value[0]]
        else Answers(events[..n])
  {
    PayloadSnoc(events[..n], events[n]);
    assert events[..m] == events[..n] + [events[n]];
    assert Answers(events[..n]) + [] == Answers(events[..n]);
  }

  /** Every permission request is answered once, in order, with its first option, or to allow it once. */
  lemma {:induction false} AnswersAre(events: seq<AgentEvent>, m: nat) returns (at: seq<nat>)
    requires m <= |events|
    ensures AnsweredAt(events, m, Answers(events[..m]), at)
  {
    if m == 0 {
      at := [];
    } else {
      var n := m - 1;
      at := AnswersAre(events, n);
      AnsweredMore(events, n, Answers(events[..n]), at, m);
      AnswersNext(events, n, m);
      if events[n].body.Permission? && events[n].body.options.Some? {
        at := at + [n];
      }
    }
  }

  // ----- white space -----

  /** The 25 characters Unicode counts as white space. */
  lemma SpacesAre(c: char)
    ensures IsSpace(c) <==> c in {
      '\t', '\n', '\U{b}', '\U{c}', '\r', ' ', '\U{85}', '\U{a0}', '\U{1680}', '\U{2000}', '\U{2001}', '\U{2002}',
      '\U{2003}', '\U{2004}', '\U{2005}', '\U{2006}', '\U{2007}', '\U{2008}', '\U{2009}', '\U{200a}', '\U{2028}',
      '\U{2029}', '\U{202f}', '\U{205f}', '\U{3000}'}
  {
    if '\U{2000}' <= c <= '\U{200a}' {
      var n := c as int - 0x2000;
      assert c == (0x2000 + n) as char;
    }
  }
}
