/**
 Which message an agent event is anchored to: the prompt and reply-to override
 of an AgentSession under any interleaving of Submit, injected SendBlocks,
 their rollbacks, endPrompt and the read pump
 (internal/agentsession/session.go, internal/agentsession/readpump.go).
 Every critical section of asMu and every isReady store outside it is one step.
 */
module PromptProtocol {

  datatype Option<T> = None | Some(value: T)

  datatype Prompt = Prompt(injected: bool, lastMessageID: string)

  /** An enriched event as published: its anchor and the prompt it carries. */
  datatype Anchored = Anchored(userMsgID: string, prompt: Option<nat>)

  // Prompts are objects: a number is a prompt's identity, prompts its fields.
  datatype Session = Session(prompts: map<nat, Prompt>, current: Option<nat>, override: string, ready: bool,
                             events: seq<Anchored>)

  ghost predicate WellFormed(s: Session) { s.current.Some? ==> s.current.value in s.prompts }

  // ----- the sections -----

  function Install(s: Session, p: nat): Session { s.(current := Some(p), override := "") }

  function MarkReady(s: Session, ready: bool): Session { s.(ready := ready) }

  function DropSubmitted(s: Session, p: nat): Session { if s.current == Some(p) then s.(current := None) else s }

  predicate TurnInFlight(s: Session) { s.current.Some? && !s.ready }

  function InstallInjected(s: Session, p: nat, replyTo: string): Session {
    s.(prompts := s.prompts[p := Prompt(true, replyTo)], current := Some(p), override := replyTo)
  }

  function RollbackInjected(s: Session, p: nat): Session
    requires p in s.prompts
  {
    var t := if s.current == Some(p) then s.(current := None, ready := true) else s;
    if t.override == s.prompts[p].lastMessageID then t.(override := "") else t
  }

  /** The read pump's anchor: the override, if any, wins over the prompt's own message. */
  function Anchor(s: Session): string
    requires WellFormed(s)
  {
    if s.override != "" then s.override
    else if s.current.Some? then s.prompts[s.current.value].lastMessageID
    else ""
  }

  function Enrich(s: Session): Session
    requires WellFormed(s)
  {
    s.(events := s.events + [Anchored(Anchor(s), s.current)])
  }

  function EndPrompt(s: Session): Session
    requires WellFormed(s)
  {
    var anchor := Anchor(s);
    var prompts :=
      if s.current.Some? && s.override != "" then
        s.prompts[s.current.value := s.prompts[s.current.value].(lastMessageID := s.override)]
      else s.prompts;
    Session(prompts, None, "", true, s.events + [Anchored(anchor, s.current)])
  }

  // ----- the threads -----

  datatype SubmitPoint =
    Starting | NotRunning | Revived | Committed | Sending | SendFailed | Dropped | Submitted | Refused

  datatype InjectPoint =
    | Guarding
    | Passed
    | Installed(p: nat)
    | Injecting(q: nat)
    | InjectFailed(r: nat)
    | Withdrawn(w: nat)
    | Injected

  datatype Task =
    | Submit(prompt: nat, at: SubmitPoint)
    | Inject(replyTo: string, point: InjectPoint)
    | End(ended: bool)    // any caller of endPrompt
    | Pump(read: bool)    // one event through the read pump
    | Rearm(rearmed: bool)  // the isReady store of any other successful respawn

  ghost predicate SubmitStep(s: Session, p: nat, at: SubmitPoint, s': Session, at': SubmitPoint) {
    match at
    case Starting =>
      || (at' == NotRunning && s' == s)  // no handle, or its bridge could not be revived
      || (at' == Revived && s' == MarkReady(s, true))  // its bridge was dead and has been respawned
      || (at' == Committed && s' == Install(s, p))
    case Revived => at' == Committed && s' == Install(s, p)
    case NotRunning => false
    case Committed => at' == Sending && s' == MarkReady(s, false)
    case Sending => at' in {SendFailed, Submitted} && s' == s
    case SendFailed => at' == Dropped && s' == DropSubmitted(s, p)
    case Dropped => at' == Refused && s' == MarkReady(s, true)
    case Submitted => false
    case Refused => false
  }

  ghost predicate InjectStep(s: Session, replyTo: string, at: InjectPoint, s': Session, at': InjectPoint) {
    match at
    case Guarding => s' == s && at' == if replyTo == "" || TurnInFlight(s) then Injected else Passed
    case Passed =>
      || (at' == Injected && s' == s)  // no handle attached
      || (at'.Installed? && at'.p !in s.prompts && s' == InstallInjected(s, at'.p, replyTo))
    case Installed(p) => at' == Injecting(p) && s' == MarkReady(s, false)
    case Injecting(p) => at' in {InjectFailed(p), Injected} && s' == s
    case InjectFailed(p) => at' == Withdrawn(p) && p in s.prompts && s' == RollbackInjected(s, p)
    case Withdrawn(_) => false
    case Injected => false
  }

  ghost predicate TaskStep(s: Session, t: Task, s': Session, t': Task) {
    match t
    case Submit(p, at) => t'.Submit? && t'.prompt == p && SubmitStep(s, p, at, s', t'.at)
    case Inject(replyTo, at) => t'.Inject? && t'.replyTo == replyTo && InjectStep(s, replyTo, at, s', t'.point)
    case End(ended) => !ended && t' == End(true) && WellFormed(s) && s' == EndPrompt(s)
    case Pump(read) => !read && t' == Pump(true) && WellFormed(s) && s' == Enrich(s)
    case Rearm(rearmed) => !rearmed && t' == Rearm(true) && s' == MarkReady(s, true)
  }

  datatype System = System(session: Session, tasks: seq<Task>)

  ghost predicate Next(g: System, i: nat, g': System) {
    && i < |g.tasks| && |g'.tasks| == |g.tasks|
    && TaskStep(g.session, g.tasks[i], g'.session, g'.tasks[i])
    && g'.tasks == g.tasks[i := g'.tasks[i]]
  }

  /** An idle session with the callers' prompts, and any tasks about to start. */
  ghost predicate Init(g: System) {
    && g.session.current == None && g.session.override == "" && g.session.ready && g.session.events == []
    && (forall p | p in g.session.prompts :: !g.session.prompts[p].injected)
    && forall t | t in g.tasks :: Fresh(g.session, t)
  }

  ghost predicate Fresh(s: Session, t: Task) {
    match t
    case Submit(p, at) => at == Starting && p in s.prompts
    case Inject(_, at) => at == Guarding
    case End(ended) => !ended
    case Pump(read) => !read
    case Rearm(rearmed) => !rearmed
  }

  ghost predicate Run(states: seq<System>, schedule: seq<nat>) {
    && |states| == |schedule| + 1 && Init(states[0])
    && forall k | 0 <= k < |schedule| :: Next(states[k], schedule[k], states[k + 1])
  }

  // ----- what every step keeps -----

  /** A non-empty override means the injected prompt is current and carries it. */
  ghost predicate OverrideIsInjected(s: Session) {
    s.override != "" ==>
      s.current.Some? && s.current.value in s.prompts && s.prompts[s.current.value] == Prompt(true, s.override)
  }

  ghost predicate EventMatches(s: Session, e: Anchored) {
    match e.prompt
    case Some(p) => p in s.prompts && e.userMsgID == s.prompts[p].lastMessageID
    case None => e.userMsgID == ""
  }

  /** Each published event is anchored to the message of the prompt it carries, and to none without one. */
  ghost predicate EventsMatch(s: Session) { forall e | e in s.events :: EventMatches(s, e) }

  ghost predicate OwnPrompt(s: Session, t: Task) {
    match t
    case Submit(p, _) => p in s.prompts && !s.prompts[p].injected
    case Inject(replyTo, point) =>
      match point {
        case Installed(p) => replyTo != "" && p in s.prompts && s.prompts[p] == Prompt(true, replyTo)
        case Injecting(p) => replyTo != "" && p in s.prompts && s.prompts[p] == Prompt(true, replyTo)
        case InjectFailed(p) => replyTo != "" && p in s.prompts && s.prompts[p] == Prompt(true, replyTo)
        case Withdrawn(p) => p in s.prompts && s.prompts[p].injected
        case Passed => replyTo != ""
        case _ => true
      }
    case _ => true
  }

  ghost predicate Good(s: Session) { WellFormed(s) && OverrideIsInjected(s) && EventsMatch(s) }

  ghost predicate Invariant(g: System) {
    Good(g.session) && forall t | t in g.tasks :: OwnPrompt(g.session, t)
  }

  /** No step changes a prompt that exists: endPrompt's rewrite of LastMessageID never has an effect. */
  ghost predicate Preserves(s: Session, s': Session) {
    && (forall p | p in s.prompts :: p in s'.prompts && s'.prompts[p] == s.prompts[p])
    && s.events <= s'.events
  }

  lemma EndPromptKeeps(s: Session)
    requires Good(s)
    ensures Good(EndPrompt(s)) && EndPrompt(s).prompts == s.prompts
  {
    var s' := EndPrompt(s);
    assert s'.prompts == s.prompts;
    forall e | e in s'.events ensures EventMatches(s', e) {
      if e in s.events {
        assert EventMatches(s, e);
      }
    }
  }

  lemma EnrichKeeps(s: Session)
    requires Good(s)
    ensures Good(Enrich(s))
  {
    forall e | e in Enrich(s).events ensures EventMatches(Enrich(s), e) {
      if e in s.events {
        assert EventMatches(s, e);
      }
    }
  }

  lemma InstallInjectedKeeps(s: Session, p: nat, replyTo: string)
    requires Good(s) && p !in s.prompts
    ensures Good(InstallInjected(s, p, replyTo)) && Preserves(s, InstallInjected(s, p, replyTo))
  {
    forall e | e in s.events ensures EventMatches(InstallInjected(s, p, replyTo), e) {
      assert EventMatches(s, e);
    }
  }

  lemma SameEvents(s: Session, s': Session)
    requires EventsMatch(s) && s'.prompts == s.prompts && s'.events == s.events
    ensures EventsMatch(s')
  {
    forall e | e in s'.events ensures EventMatches(s', e) {
      assert EventMatches(s, e);
    }
  }

  lemma TaskStepKeeps(s: Session, t: Task, s': Session, t': Task)
    requires Good(s) && OwnPrompt(s, t) && TaskStep(s, t, s', t')
    ensures Good(s') && OwnPrompt(s', t') && Preserves(s, s')
  {
    match t
    case End(_) => EndPromptKeeps(s);
    case Pump(_) => EnrichKeeps(s);
    case Rearm(_) => SameEvents(s, s');
    case Submit(_, _) => SameEvents(s, s');
    case Inject(replyTo, point) =>
      if point.Passed? && t'.point.Installed? {
        InstallInjectedKeeps(s, t'.point.p, replyTo);
      } else {
        SameEvents(s, s');
      }
  }

  lemma NextKeeps(g: System, i: nat, g': System)
    requires Invariant(g) && Next(g, i, g')
    ensures Invariant(g') && Preserves(g.session, g'.session)
  {
    TaskStepKeeps(g.session, g.tasks[i], g'.session, g'.tasks[i]);
    forall t | t in g'.tasks ensures OwnPrompt(g'.session, t) {
      var k :| 0 <= k < |g'.tasks| && g'.tasks[k] == t;
      if k != i {
        assert g.tasks[k] == t;
        assert OwnPrompt(g.session, t);
      }
    }
  }

  lemma InitHolds(g: System)
    requires Init(g)
    ensures Invariant(g)
  {
    forall t | t in g.tasks ensures OwnPrompt(g.session, t) {
      assert Fresh(g.session, t);
    }
  }

  lemma {:induction false} RunKeeps(states: seq<System>, schedule: seq<nat>, k: nat)
    requires Run(states, schedule) && k <= |schedule|
    ensures Invariant(states[k])
  {
    if k == 0 {
      InitHolds(states[0]);
    } else {
      RunKeeps(states, schedule, k - 1);
      NextKeeps(states[k - 1], schedule[k - 1], states[k]);
    }
  }

  lemma {:induction false} RunPreserves(states: seq<System>, schedule: seq<nat>, j: nat, k: nat)
    requires Run(states, schedule) && j <= k <= |schedule|
    ensures Preserves(states[j].session, states[k].session)
  {
    if j < k {
      RunPreserves(states, schedule, j, k - 1);
      RunKeeps(states, schedule, k - 1);
      NextKeeps(states[k - 1], schedule[k - 1], states[k]);
    }
  }

  // ----- the main results -----

  /** At every point of every run the override is the current injected prompt's message. */
  lemma OverrideAlwaysInjected(states: seq<System>, schedule: seq<nat>, k: nat)
    requires Run(states, schedule) && k <= |schedule|
    ensures OverrideIsInjected(states[k].session)
    ensures WellFormed(states[k].session)
    ensures var s := states[k].session;
      Anchor(s) == if s.current.Some? then s.prompts[s.current.value].lastMessageID else ""
  {
    RunKeeps(states, schedule, k);
  }

  /**
   Every event published up to k is anchored to the message its prompt carried when k was reached and at every
   later point: nothing ever moves an anchor.
   */
  lemma AnchorsHold(states: seq<System>, schedule: seq<nat>, j: nat, k: nat, e: Anchored)
    requires Run(states, schedule) && j <= k <= |schedule| && e in states[j].session.events
    ensures e in states[k].session.events
    ensures e.prompt.Some? ==>
      var p, before, after := e.prompt.value, states[j].session.prompts, states[k].session.prompts;
      p in before && p in after && after[p] == before[p] && e.userMsgID == after[p].lastMessageID
    ensures e.prompt.None? ==> e.userMsgID == ""
  {
    RunKeeps(states, schedule, j);
    RunPreserves(states, schedule, j, k);
    assert EventMatches(states[j].session, e);
  }

  /** With no prompt installed the end of a turn is published without an anchor. */
  lemma EndWithoutPrompt(states: seq<System>, schedule: seq<nat>, k: nat)
    requires Run(states, schedule) && k < |schedule|
    requires states[k].session.current == None
    requires schedule[k] < |states[k].tasks| && states[k].tasks[schedule[k]].End?
    ensures states[k + 1].session.events == states[k].session.events + [Anchored("", None)]
  {
    OverrideAlwaysInjected(states, schedule, k);
    assert Next(states[k], schedule[k], states[k + 1]);
  }

  // ----- a failed turn is gone -----

  /** The prompt of a turn whose send failed and was rolled back. */
  ghost function FailedPrompt(t: Task): Option<nat> {
    match t
    case Submit(p, at) => if at == Dropped || at == Refused then Some(p) else None
    case Inject(_, point) => if point.Withdrawn? then Some(point.w) else None
    case _ => None
  }

  /** Another Submit than task i's has made p current since, and has not rolled back. */
  ghost predicate Resubmitted(g: System, i: nat, p: nat) {
    exists j | 0 <= j < |g.tasks| && j != i :: Submits(g.tasks[j], p)
  }

  predicate Submits(t: Task, p: nat) {
    t.Submit? && t.prompt == p && t.at in {Committed, Sending, SendFailed, Submitted}
  }

  ghost predicate FailedIsGone(g: System) {
    forall i: nat | i < |g.tasks| && FailedPrompt(g.tasks[i]).Some? ::
      g.session.current == FailedPrompt(g.tasks[i]) ==> Resubmitted(g, i, FailedPrompt(g.tasks[i]).value)
  }

  /** A step installs no prompt but its own task's. */
  lemma InstallsOwn(s: Session, t: Task, s': Session, t': Task)
    requires TaskStep(s, t, s', t')
    ensures s'.current == s.current || s'.current == None
      || (t.Submit? && (t.at.Starting? || t.at.Revived?) && t' == Submit(t.prompt, Committed)
          && s'.current == Some(t.prompt))
      || (t.Inject? && t.point.Passed? && t'.point.Installed?
          && s'.current == Some(t'.point.p) && t'.point.p !in s.prompts && t'.point.p in s'.prompts
          && s'.prompts[t'.point.p].injected)
    ensures FailedPrompt(t').Some? ==> s'.current != FailedPrompt(t') || FailedPrompt(t') == FailedPrompt(t)
    ensures forall p: nat | Submits(t, p) && s'.current == Some(p) :: Submits(t', p)
  {
  }

  lemma NextGone(g: System, n: nat, g': System)
    requires Invariant(g) && FailedIsGone(g) && Next(g, n, g')
    ensures FailedIsGone(g')
  {
    InstallsOwn(g.session, g.tasks[n], g'.session, g'.tasks[n]);
    assert forall i | 0 <= i < |g.tasks| && i != n :: g'.tasks[i] == g.tasks[i];
    forall i: nat | i < |g'.tasks| && FailedPrompt(g'.tasks[i]).Some? && g'.session.current == FailedPrompt(g'.tasks[i])
      ensures Resubmitted(g', i, FailedPrompt(g'.tasks[i]).value)
    {
      var p := FailedPrompt(g'.tasks[i]).value;
      if g.session.current == Some(p) {
        assert Resubmitted(g, i, p);
        var j: nat :| j < |g.tasks| && j != i && Submits(g.tasks[j], p);
        assert Submits(g'.tasks[j], p);
      } else {
        assert g.tasks[i] in g.tasks && OwnPrompt(g.session, g.tasks[i]);
        assert Submits(g'.tasks[n], p);
      }
    }
  }

  lemma {:induction false} RunGone(states: seq<System>, schedule: seq<nat>, k: nat)
    requires Run(states, schedule) && k <= |schedule|
    ensures FailedIsGone(states[k])
  {
    if k == 0 {
      assert forall i | 0 <= i < |states[0].tasks| :: states[0].tasks[i] in states[0].tasks;
      assert forall t | t in states[0].tasks :: Fresh(states[0].session, t) && FailedPrompt(t) == None;
    } else {
      RunGone(states, schedule, k - 1);
      RunKeeps(states, schedule, k - 1);
      NextGone(states[k - 1], schedule[k - 1], states[k]);
    }
  }

  /**
   Once a Submit or an injection has rolled back its failed send, its prompt is current only if another Submit made
   it so again; an injected prompt never is.
   */
  lemma FailedTurnNeverReturns(states: seq<System>, schedule: seq<nat>, k: nat, i: nat)
    requires Run(states, schedule) && k <= |schedule|
    requires i < |states[k].tasks| && FailedPrompt(states[k].tasks[i]).Some?
    ensures states[k].session.current == FailedPrompt(states[k].tasks[i]) ==>
      states[k].tasks[i].Submit? && Resubmitted(states[k], i, FailedPrompt(states[k].tasks[i]).value)
  {
    RunGone(states, schedule, k);
    RunKeeps(states, schedule, k);
    assert forall j | 0 <= j < |states[k].tasks| :: OwnPrompt(states[k].session, states[k].tasks[j]);
  }

  // ----- runs from a given start -----

  /** Some run leads from g to h. */
  ghost predicate Reaches(g: System, h: System) {
    exists states, schedule :: RunBetween(states, schedule, g, h)
  }

  ghost predicate RunBetween(states: seq<System>, schedule: seq<nat>, g: System, h: System) {
    Run(states, schedule) && states[0] == g && states[|schedule|] == h
  }

  lemma ReachStart(g: System)
    requires Init(g)
    ensures Reaches(g, g)
  {
    assert RunBetween([g], [], g, g);
  }

  lemma ReachNext(g: System, h: System, i: nat, h': System)
    requires Reaches(g, h) && Next(h, i, h')
    ensures Reaches(g, h')
  {
    var states, schedule :| RunBetween(states, schedule, g, h);
    assert RunBetween(states + [h'], schedule + [i], g, h');
  }

  lemma ReachKeeps(g: System, h: System)
    requires Reaches(g, h)
    ensures Init(g) && Invariant(h)
  {
    var states, schedule :| RunBetween(states, schedule, g, h);
    RunKeeps(states, schedule, |schedule|);
  }

  /** Task i takes one step. */
  lemma Take(g: System, h: System, i: nat, s': Session, t': Task) returns (h': System)
    requires Reaches(g, h) && i < |h.tasks| && TaskStep(h.session, h.tasks[i], s', t')
    ensures h' == System(s', h.tasks[i := t']) && Next(h, i, h') && Reaches(g, h')
  {
    h' := System(s', h.tasks[i := t']);
    ReachNext(g, h, i, h');
  }

  lemma {:induction false} Unused(used: set<nat>) returns (n: nat)
    ensures forall x | x in used :: x < n
  {
    if used == {} {
      n := 0;
    } else {
      var x :| x in used;
      var m := Unused(used - {x});
      n := if m > x then m else x + 1;
      assert forall y | y in used :: y == x || y in used - {x};
    }
  }

  /** A step never turns a task into another one. */
  ghost predicate SameTask(t: Task, t': Task) {
    match t
    case Submit(p, _) => t'.Submit? && t'.prompt == p
    case Inject(replyTo, _) => t'.Inject? && t'.replyTo == replyTo
    case End(_) => t'.End?
    case Pump(_) => t'.Pump?
    case Rearm(_) => t'.Rearm?
  }

  lemma {:induction false} SameTasks(states: seq<System>, schedule: seq<nat>, k: nat)
    requires Run(states, schedule) && k <= |schedule|
    ensures |states[k].tasks| == |states[0].tasks|
    ensures forall i | 0 <= i < |states[k].tasks| :: SameTask(states[0].tasks[i], states[k].tasks[i])
  {
    if k > 0 {
      SameTasks(states, schedule, k - 1);
      assert Next(states[k - 1], schedule[k - 1], states[k]);
    }
  }
}
