/**
 When IsReady means "no prompt in flight", as its comment has it: per run, and
 over the tasks of a session (internal/agentsession/session.go). Every turn
 changes the prompt in a critical section and stores isReady after it, so
 between the two anything else may happen.
 */
module PromptReady {
  import opened PromptProtocol

  /** The prompt was changed and the store of isReady that belongs to it is still to come. */
  predicate InGap(t: Task) {
    match t
    case Submit(_, at) => at == Committed || at == Dropped
    case Inject(_, point) => point.Installed?
    case _ => false
  }

  ghost predicate AtRest(g: System) { forall i | 0 <= i < |g.tasks| :: !InGap(g.tasks[i]) }

  /** What IsReady is documented to mean. */
  ghost predicate ReadyMeansIdle(s: Session) { s.ready <==> s.current == None }

  // ----- per run -----

  /** The step is the isReady store of a respawn, a Submit's own included. */
  predicate Rearms(t: Task, t': Task) { t.Rearm? || (t'.Submit? && t'.at.Revived?) }

  /** Step n leaves prompt and flag alone while another task is in its gap, and stores no flag over a foreign prompt. */
  ghost predicate Gentle(g: System, n: nat, g': System)
    requires n < |g.tasks| && n < |g'.tasks|
  {
    && (forall i | 0 <= i < |g.tasks| && i != n && InGap(g.tasks[i]) ::
          g'.session.current == g.session.current && g'.session.ready == g.session.ready)
    && (Rearms(g.tasks[n], g'.tasks[n]) ==> g.session.current == None)
    && (g.tasks[n].Submit? && g.tasks[n].at.SendFailed? ==> g.session.current in {None, Some(g.tasks[n].prompt)})
  }

  ghost predicate GentleRun(states: seq<System>, schedule: seq<nat>, k: nat)
    requires Run(states, schedule) && k <= |schedule|
  {
    forall n: nat | n < k ::
      schedule[n] < |states[n].tasks| == |states[n + 1].tasks| && Gentle(states[n], schedule[n], states[n + 1])
  }

  /** In its gap a task knows whether there is a prompt. */
  ghost predicate GapKnows(s: Session, t: Task) {
    match t
    case Submit(_, at) => (at == Committed ==> s.current.Some?) && (at == Dropped ==> s.current == None)
    case Inject(_, point) => point.Installed? ==> s.current.Some?
    case _ => true
  }

  ghost predicate Tidy(g: System) {
    && (forall i | 0 <= i < |g.tasks| :: GapKnows(g.session, g.tasks[i]))
    && (AtRest(g) ==> ReadyMeansIdle(g.session))
  }

  lemma GentleStep(g: System, n: nat, g': System)
    requires Tidy(g) && Next(g, n, g') && Gentle(g, n, g')
    ensures Tidy(g')
  {
    assert forall i | 0 <= i < |g.tasks| && i != n :: g'.tasks[i] == g.tasks[i];
    forall i | 0 <= i < |g'.tasks| ensures GapKnows(g'.session, g'.tasks[i]) {
      if i != n {
        assert GapKnows(g.session, g.tasks[i]);
      }
    }
    assert GapKnows(g.session, g.tasks[n]);
    if AtRest(g') && !AtRest(g) {
      assert InGap(g.tasks[n]);
    }
  }

  /**
   If no step disturbs a gap, no respawn re-arms a session with a prompt and no failed Submit finds another turn's
   prompt, isReady means "no prompt" whenever no task is in its gap.
   */
  lemma {:induction false} ReadyMeansIdleWhenGentle(states: seq<System>, schedule: seq<nat>, k: nat)
    requires Run(states, schedule) && k <= |schedule| && GentleRun(states, schedule, k)
    ensures Tidy(states[k])
    ensures AtRest(states[k]) ==> ReadyMeansIdle(states[k].session)
  {
    if k == 0 {
      assert forall i | 0 <= i < |states[0].tasks| :: states[0].tasks[i] in states[0].tasks;
      assert forall t | t in states[0].tasks :: Fresh(states[0].session, t);
    } else {
      ReadyMeansIdleWhenGentle(states, schedule, k - 1);
      GentleStep(states[k - 1], schedule[k - 1], states[k]);
    }
  }

  // ----- over the tasks of a session -----

  /** A Submit, or an injection with a message to reply to. */
  predicate Turn(t: Task) { t.Submit? || (t.Inject? && t.replyTo != "") }

  /** A turn shares the session with no other turn, no endPrompt and no respawn. */
  ghost predicate TurnsAlone(g: System) {
    forall i, j | 0 <= i < |g.tasks| && 0 <= j < |g.tasks| && i != j && Turn(g.tasks[i]) ::
      !Turn(g.tasks[j]) && !g.tasks[j].End? && !g.tasks[j].Rearm?
  }

  ghost predicate AlwaysReadyMeansIdle(g: System) {
    forall h | Reaches(g, h) && AtRest(h) :: ReadyMeansIdle(h.session)
  }

  /** Where a lone turn has brought the session. */
  ghost predicate LoneTurn(s: Session, t: Task) {
    match t
    case Submit(p, at) =>
      match at {
        case Committed => s.current == Some(p) && s.ready
        case Sending => s.current == Some(p) && !s.ready
        case SendFailed => s.current == Some(p) && !s.ready
        case Submitted => s.current == Some(p) && !s.ready
        case Dropped => s.current == None && !s.ready
        case _ => s.current == None && s.ready
      }
    case Inject(_, point) =>
      match point {
        case Installed(p) => s.current == Some(p) && s.ready
        case Injecting(p) => s.current == Some(p) && !s.ready
        case InjectFailed(p) => s.current == Some(p) && !s.ready
        case Injected => ReadyMeansIdle(s)
        case _ => s.current == None && s.ready
      }
    case _ => false
  }

  ghost predicate Alone(g: System) {
    && TurnsAlone(g)
    && (forall i | 0 <= i < |g.tasks| && Turn(g.tasks[i]) :: LoneTurn(g.session, g.tasks[i]))
    && ((forall i | 0 <= i < |g.tasks| :: !Turn(g.tasks[i])) ==> g.session.current == None && g.session.ready)
  }

  /** A turn's own step keeps it where its point says; other tasks that may be there leave prompt and flag alone. */
  lemma LoneStep(s: Session, t: Task, s': Session, t': Task)
    requires TaskStep(s, t, s', t') && OwnPrompt(s, t)
    ensures Turn(t') == Turn(t)
    ensures Turn(t) && LoneTurn(s, t) ==> LoneTurn(s', t')
    ensures !Turn(t) && !t.End? && !t.Rearm? ==> s'.current == s.current && s'.ready == s.ready
    ensures !Turn(t) && s.current == None && s.ready ==> s'.current == None && s'.ready
  {
  }

  lemma AloneStep(g: System, n: nat, g': System)
    requires Invariant(g) && Alone(g) && Next(g, n, g')
    ensures Alone(g')
  {
    assert g.tasks[n] in g.tasks;
    LoneStep(g.session, g.tasks[n], g'.session, g'.tasks[n]);
    assert forall i | 0 <= i < |g.tasks| && i != n :: g'.tasks[i] == g.tasks[i];
    assert SameTask(g.tasks[n], g'.tasks[n]);
    forall i | 0 <= i < |g'.tasks| && Turn(g'.tasks[i]) ensures LoneTurn(g'.session, g'.tasks[i]) {
      if i != n {
        assert LoneTurn(g.session, g.tasks[i]);
        assert !Turn(g.tasks[n]);
      }
    }
    if forall i | 0 <= i < |g'.tasks| :: !Turn(g'.tasks[i]) {
      assert forall i | 0 <= i < |g.tasks| :: !Turn(g.tasks[i]) by {
        assert forall i | 0 <= i < |g.tasks| :: !Turn(g'.tasks[i]);
      }
    }
  }

  lemma {:induction false} AloneRun(states: seq<System>, schedule: seq<nat>, k: nat)
    requires Run(states, schedule) && k <= |schedule| && TurnsAlone(states[0])
    ensures Alone(states[k])
  {
    if k == 0 {
      assert forall i | 0 <= i < |states[0].tasks| :: states[0].tasks[i] in states[0].tasks;
      assert forall t | t in states[0].tasks :: Fresh(states[0].session, t);
    } else {
      AloneRun(states, schedule, k - 1);
      RunKeeps(states, schedule, k - 1);
      AloneStep(states[k - 1], schedule[k - 1], states[k]);
    }
  }

  lemma AloneAtRest(h: System)
    requires Alone(h) && AtRest(h)
    ensures ReadyMeansIdle(h.session)
  {
    if exists i | 0 <= i < |h.tasks| :: Turn(h.tasks[i]) {
      var i :| 0 <= i < |h.tasks| && Turn(h.tasks[i]);
      assert LoneTurn(h.session, h.tasks[i]) && !InGap(h.tasks[i]);
    }
  }

  // ----- the runs that break it -----

  /** Task i has installed its prompt p, and its store is still to come. */
  ghost predicate Entered(h: System, i: nat, p: nat) {
    && i < |h.tasks| && p in h.session.prompts && h.session.current == Some(p)
    && (h.tasks[i] == Submit(p, Committed) || (h.tasks[i].Inject? && h.tasks[i].point == Installed(p)))
  }

  /** Task i has marked the session busy. */
  ghost predicate Marked(h: System, i: nat, p: nat) {
    && i < |h.tasks| && p in h.session.prompts
    && (h.tasks[i] == Submit(p, Sending) || (h.tasks[i].Inject? && h.tasks[i].point == Injecting(p)))
  }

  ghost predicate NotBegun(h: System, i: nat) {
    && i < |h.tasks| && Turn(h.tasks[i]) && Fresh(h.session, h.tasks[i])
  }

  /** A move of task i. */
  ghost predicate Moved(h: System, h': System, i: nat) {
    && i < |h.tasks| == |h'.tasks| && SameTask(h.tasks[i], h'.tasks[i])
    && (forall j | 0 <= j < |h.tasks| && j != i :: h'.tasks[j] == h.tasks[j])
    && (forall p | p in h.session.prompts :: p in h'.session.prompts)
  }

  /** With isReady set, or no prompt, any turn can install its prompt. */
  lemma Begin(g: System, h: System, i: nat) returns (h': System, p: nat)
    requires Reaches(g, h) && NotBegun(h, i) && !TurnInFlight(h.session)
    ensures Reaches(g, h') && Moved(h, h', i) && Entered(h', i, p) && h'.session.ready == h.session.ready
  {
    if h.tasks[i].Submit? {
      p := h.tasks[i].prompt;
      h' := Take(g, h, i, Install(h.session, p), Submit(p, Committed));
    } else {
      var replyTo := h.tasks[i].replyTo;
      p := Unused(h.session.prompts.Keys);
      var passed := Take(g, h, i, h.session, Inject(replyTo, Passed));
      h' := Take(g, passed, i, InstallInjected(h.session, p, replyTo), Inject(replyTo, Installed(p)));
    }
  }

  lemma MarkBusy(g: System, h: System, i: nat, q: nat) returns (h': System)
    requires Reaches(g, h) && i < |h.tasks| && q in h.session.prompts
    requires h.tasks[i] == Submit(q, Committed) || (h.tasks[i].Inject? && h.tasks[i].point == Installed(q))
    ensures Reaches(g, h') && Moved(h, h', i) && Marked(h', i, q)
    ensures !h'.session.ready && h'.session.current == h.session.current
  {
    var s := MarkReady(h.session, false);
    if h.tasks[i].Submit? {
      h' := Take(g, h, i, s, Submit(q, Sending));
    } else {
      h' := Take(g, h, i, s, Inject(h.tasks[i].replyTo, Injecting(q)));
    }
  }

  /** A turn whose prompt is current fails and leaves an idle session. */
  lemma Fail(g: System, h: System, i: nat, p: nat) returns (h': System)
    requires Reaches(g, h) && Marked(h, i, p) && h.session.current == Some(p)
    ensures Reaches(g, h') && Moved(h, h', i) && !InGap(h'.tasks[i])
    ensures h'.session.ready && h'.session.current == None
  {
    if h.tasks[i].Submit? {
      h' := Take(g, h, i, h.session, Submit(p, SendFailed));
      h' := Take(g, h', i, DropSubmitted(h.session, p), Submit(p, Dropped));
      h' := Take(g, h', i, MarkReady(h'.session, true), Submit(p, Refused));
    } else {
      var replyTo := h.tasks[i].replyTo;
      h' := Take(g, h, i, h.session, Inject(replyTo, InjectFailed(p)));
      h' := Take(g, h', i, RollbackInjected(h.session, p), Inject(replyTo, Withdrawn(p)));
    }
  }

  lemma StartsIdle(g: System)
    requires Init(g)
    ensures Reaches(g, g) && g.session.ready && g.session.current == None
    ensures forall i: nat | i < |g.tasks| :: Fresh(g.session, g.tasks[i]) && !InGap(g.tasks[i])
  {
    ReachStart(g);
    assert forall i: nat | i < |g.tasks| :: g.tasks[i] in g.tasks;
  }

  /** An end, or another turn that comes and fails, between a turn's section and its store: busy with no prompt. */
  lemma BusyWithoutPrompt(g: System, i: nat, j: nat) returns (h: System)
    requires Init(g) && i < |g.tasks| && j < |g.tasks| && i != j
    requires Turn(g.tasks[i]) && (Turn(g.tasks[j]) || g.tasks[j].End?)
    ensures Reaches(g, h) && AtRest(h) && h.session.current == None && !h.session.ready
  {
    StartsIdle(g);
    var p, q;
    h, p := Begin(g, g, i);
    if g.tasks[j].End? {
      ReachKeeps(g, h);
      h := Take(g, h, j, EndPrompt(h.session), End(true));
    } else {
      h, q := Begin(g, h, j);
      h := MarkBusy(g, h, j, q);
      h := Fail(g, h, j, q);
    }
    h := MarkBusy(g, h, i, p);
  }

  /** A respawn during a turn: ready with a prompt in flight. */
  lemma ReadyWithPrompt(g: System, i: nat, j: nat) returns (h: System)
    requires Init(g) && i < |g.tasks| && j < |g.tasks| && i != j && Turn(g.tasks[i]) && g.tasks[j].Rearm?
    ensures Reaches(g, h) && AtRest(h) && h.session.current.Some? && h.session.ready
  {
    StartsIdle(g);
    var p;
    h, p := Begin(g, g, i);
    h := MarkBusy(g, h, i, p);
    h := Take(g, h, j, MarkReady(h.session, true), Rearm(true));
  }

  /** A failed Submit's late store: another turn's prompt is in flight and the session reads as ready. */
  lemma LateStoreReadies(g: System, i: nat, j: nat) returns (h: System)
    requires Init(g) && i < |g.tasks| && j < |g.tasks| && i != j && g.tasks[i].Submit? && Turn(g.tasks[j])
    ensures Reaches(g, h) && AtRest(h) && h.session.ready
    ensures exists q :: h.session.current == Some(q) && Marked(h, j, q)
  {
    StartsIdle(g);
    var p, q;
    h, p := Begin(g, g, i);
    h := MarkBusy(g, h, i, p);
    h := Take(g, h, i, h.session, Submit(p, SendFailed));
    h := Take(g, h, i, DropSubmitted(h.session, p), Submit(p, Dropped));
    h, q := Begin(g, h, j);
    h := MarkBusy(g, h, j, q);
    h := Take(g, h, i, MarkReady(h.session, true), Submit(p, Refused));
    assert Marked(h, j, q);
  }

  /** For every idle session and every set of tasks: isReady always means "no prompt" iff turns are alone. */
  lemma ReadyMeansIdleExactly(g: System)
    requires Init(g)
    ensures AlwaysReadyMeansIdle(g) <==> TurnsAlone(g)
  {
    if TurnsAlone(g) {
      forall h | Reaches(g, h) && AtRest(h) ensures ReadyMeansIdle(h.session) {
        var states, schedule :| RunBetween(states, schedule, g, h);
        AloneRun(states, schedule, |schedule|);
        AloneAtRest(h);
      }
    } else {
      var i: nat, j: nat :| i < |g.tasks| && j < |g.tasks| && i != j && Turn(g.tasks[i])
        && (Turn(g.tasks[j]) || g.tasks[j].End? || g.tasks[j].Rearm?);
      var h;
      if g.tasks[j].Rearm? {
        h := ReadyWithPrompt(g, i, j);
      } else {
        h := BusyWithoutPrompt(g, i, j);
      }
    }
  }
}
