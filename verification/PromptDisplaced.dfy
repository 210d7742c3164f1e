/**
 When an injected SendBlocks takes the place of a submitted turn
 (internal/agentsession/session.go): its guard and the installation of its
 prompt are two critical sections.
 */
module PromptDisplaced {
  import opened PromptProtocol
  import opened PromptReady

  /** Step n installs an injected prompt over one that a Submit made current. */
  ghost predicate Displaces(g: System, n: nat, g': System) {
    && Next(g, n, g') && g.tasks[n].Inject? && g.tasks[n].point.Passed? && g'.tasks[n].point.Installed?
    && exists x: nat | x < |g.tasks| :: g.session.current.Some? && Submits(g.tasks[x], g.session.current.value)
  }

  ghost predicate CanDisplace(g: System) {
    exists h, n, h' :: Reaches(g, h) && Displaces(h, n, h')
  }

  ghost predicate InjectsAndSubmits(g: System) {
    exists i: nat, x: nat | i < |g.tasks| && x < |g.tasks| ::
      g.tasks[i].Inject? && g.tasks[i].replyTo != "" && g.tasks[x].Submit?
  }

  lemma DisplaceNeedsBoth(g: System, h: System, n: nat, h': System)
    requires Reaches(g, h) && Displaces(h, n, h')
    ensures InjectsAndSubmits(g)
  {
    var states, schedule :| RunBetween(states, schedule, g, h);
    SameTasks(states, schedule, |schedule|);
    RunKeeps(states, schedule, |schedule|);
    assert h.tasks[n] in h.tasks && OwnPrompt(h.session, h.tasks[n]);
    var x: nat :| x < |h.tasks| && Submits(h.tasks[x], h.session.current.value);
    assert SameTask(g.tasks[n], h.tasks[n]) && SameTask(g.tasks[x], h.tasks[x]);
  }

  /** The guard passes, the turn is submitted and marked busy, and the injection installs its prompt over it. */
  lemma DisplaceATurn(g: System, i: nat, x: nat) returns (h: System, h': System)
    requires Init(g) && i < |g.tasks| && x < |g.tasks|
    requires g.tasks[i].Inject? && g.tasks[i].replyTo != "" && g.tasks[x].Submit?
    ensures Reaches(g, h) && Displaces(h, i, h') && TurnInFlight(h.session)
  {
    StartsIdle(g);
    var replyTo, p := g.tasks[i].replyTo, g.tasks[x].prompt;
    h := Take(g, g, i, g.session, Inject(replyTo, Passed));
    h := Take(g, h, x, Install(h.session, p), Submit(p, Committed));
    h := Take(g, h, x, MarkReady(h.session, false), Submit(p, Sending));
    assert Submits(h.tasks[x], p);
    var q := Unused(h.session.prompts.Keys);
    h' := Take(g, h, i, InstallInjected(h.session, q, replyTo), Inject(replyTo, Installed(q)));
  }

  /** For every idle session: some run displaces a submitted turn iff there are an injection and a Submit. */
  lemma DisplacesExactly(g: System)
    requires Init(g)
    ensures CanDisplace(g) <==> InjectsAndSubmits(g)
  {
    if CanDisplace(g) {
      var h, n, h' :| Reaches(g, h) && Displaces(h, n, h');
      DisplaceNeedsBoth(g, h, n, h');
    }
    if InjectsAndSubmits(g) {
      var i: nat, x: nat :| i < |g.tasks| && x < |g.tasks|
        && g.tasks[i].Inject? && g.tasks[i].replyTo != "" && g.tasks[x].Submit?;
      var h, h' := DisplaceATurn(g, i, x);
    }
  }

  // ----- which turns, per run -----

  /** Step k lets the injection i past its guard. */
  ghost predicate PassesGuard(states: seq<System>, schedule: seq<nat>, i: nat, k: nat)
    requires Run(states, schedule) && k < |schedule|
  {
    && schedule[k] == i && i < |states[k].tasks| == |states[k + 1].tasks|
    && states[k].tasks[i].Inject? && states[k].tasks[i].point == Guarding
    && states[k + 1].tasks[i].Inject? && states[k + 1].tasks[i].point == Passed
  }

  /** Step m is the Submit x making p current, and p is current from then until k. */
  ghost predicate CommitStands(states: seq<System>, schedule: seq<nat>, x: nat, m: nat, k: nat, p: nat)
    requires Run(states, schedule) && k <= |schedule|
  {
    && m < k && schedule[m] == x && x < |states[m].tasks| == |states[m + 1].tasks|
    && states[m].tasks[x] in {Submit(p, Starting), Submit(p, Revived)} && states[m + 1].tasks[x] == Submit(p, Committed)
    && forall n | m < n <= k :: states[n].session.current == Some(p)
  }

  /** Between m and j a respawn, or a failed Submit's late store, has set isReady again. */
  ghost predicate Overwritten(states: seq<System>, schedule: seq<nat>, m: nat, j: nat)
    requires Run(states, schedule) && j <= |schedule|
  {
    exists n | m < n < j :: Overwrites(states, schedule, n)
  }

  /** The task's next step may store isReady over a foreign prompt: a respawn, or a failed Submit's late store. */
  predicate Raises(t: Task) { t.Rearm? || (t.Submit? && (t.at.Starting? || t.at.Dropped?)) }

  ghost predicate Overwrites(states: seq<System>, schedule: seq<nat>, n: nat)
    requires Run(states, schedule) && n < |schedule|
  {
    && schedule[n] < |states[n].tasks|
    && !states[n].session.ready && states[n + 1].session.ready
    && Raises(states[n].tasks[schedule[n]])
  }

  lemma {:induction false} LastCommit(states: seq<System>, schedule: seq<nat>, k: nat, p: nat)
    returns (x: nat, m: nat)
    requires Run(states, schedule) && k <= |schedule| && states[k].session.current == Some(p)
    requires p in states[k].session.prompts && !states[k].session.prompts[p].injected
    ensures CommitStands(states, schedule, x, m, k, p)
  {
    var n := k - 1;
    RunKeeps(states, schedule, n);
    RunPreserves(states, schedule, n, k);
    var g, g' := states[n], states[k];
    assert Next(g, schedule[n], g');
    InstallsOwn(g.session, g.tasks[schedule[n]], g'.session, g'.tasks[schedule[n]]);
    if g.session.current == Some(p) {
      x, m := LastCommit(states, schedule, n, p);
    } else {
      x, m := schedule[n], n;
    }
  }

  /** While p stays current, only a respawn or a failed Submit's late store sets isReady. */
  lemma RaisedBy(g: System, n: nat, g': System)
    requires Next(g, n, g') && g'.session.current.Some? && !g.session.ready && g'.session.ready
    ensures Raises(g.tasks[n])
  {
  }

  lemma {:induction false} Raised(states: seq<System>, schedule: seq<nat>, a: nat, b: nat) returns (n: nat)
    requires Run(states, schedule) && a <= b <= |schedule|
    requires !states[a].session.ready && states[b].session.ready
    requires forall n | a <= n <= b :: states[n].session.current.Some?
    ensures a <= n < b && Overwrites(states, schedule, n)
  {
    if states[b - 1].session.ready {
      n := Raised(states, schedule, a, b - 1);
    } else {
      n := b - 1;
      assert Next(states[n], schedule[n], states[b]);
      RaisedBy(states[n], schedule[n], states[b]);
    }
  }

  /** After its commit at m a Submit either has its store still to come at j, or has marked the session busy before. */
  lemma {:induction false} StoreOrGap(states: seq<System>, schedule: seq<nat>, x: nat, m: nat, j: nat, p: nat)
    returns (n: nat)
    requires Run(states, schedule) && m < j <= |schedule| && x < |states[m + 1].tasks|
    requires states[m + 1].tasks[x] == Submit(p, Committed)
    ensures x < |states[j].tasks|
    ensures states[j].tasks[x] == Submit(p, Committed) || (m + 1 < n <= j && !states[n].session.ready)
  {
    n := j;
    if m + 1 < j {
      n := StoreOrGap(states, schedule, x, m, j - 1, p);
      assert Next(states[j - 1], schedule[j - 1], states[j]);
      if states[j - 1].tasks[x] == Submit(p, Committed) {
        n := j;
      }
    }
  }

  /**
   The turn an injection finds when it installs its prompt at k was submitted after the guard had looked at j, or
   before with isReady nevertheless set at j: its own store still to come, or overwritten by a respawn or by the
   late store of another Submit that had failed.
   */
  lemma DisplacedTurn(states: seq<System>, schedule: seq<nat>, i: nat, j: nat, k: nat, p: nat)
    returns (x: nat, m: nat)
    requires Run(states, schedule) && j < k <= |schedule| && PassesGuard(states, schedule, i, j)
    requires states[k].session.current == Some(p)
    requires p in states[k].session.prompts && !states[k].session.prompts[p].injected
    ensures CommitStands(states, schedule, x, m, k, p) && m != j
    ensures m < j ==> states[j].session.ready && x < |states[j].tasks|
    ensures m < j ==> states[j].tasks[x] == Submit(p, Committed) || Overwritten(states, schedule, m, j)
  {
    x, m := LastCommit(states, schedule, k, p);
    assert Next(states[j], schedule[j], states[j + 1]);
    if m < j {
      var n := StoreOrGap(states, schedule, x, m, j, p);
      if states[j].tasks[x] != Submit(p, Committed) {
        var r := Raised(states, schedule, n, j);
      }
    }
  }
}
