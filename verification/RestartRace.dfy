/**
 Whether a session that says it is running has a bridge, when restarts race each other and
 nobody closes it (RestartFromDeath and respawn in internal/agentsession/session.go). A failed
 respawn drops the handle but demotes the session only by the status it saw before it began.
 */
module RestartRace {
  import opened CloseRace

  /** In every reachable state a running session has a handle. */
  ghost predicate AlwaysAttached(g: System) {
    forall actions: seq<Action>, h: System | Runs(g, actions, h) && h.session.stat == Running :: h.session.handle.Some?
  }

  /** No restart that saw the session not running can find it running when it fails. */
  ghost predicate Careful(h: System) {
    && (h.session.stat == Running ==> h.session.handle.Some?)
    && forall k | 0 <= k < |h.restarts| && h.restarts[k].Spawning? && h.restarts[k].before != Running ::
         h.session.stat != Running && forall j | 0 <= j < |h.restarts| && j != k :: h.restarts[j].Returned?
  }

  /** Once a session that was running is not, one of two restarts has failed. */
  ghost predicate OneGone(h: System) {
    h.session.stat != Running ==> exists k | 0 <= k < |h.restarts| :: h.restarts[k].Returned?
  }

  lemma OthersReturned(h: System, k: nat)
    requires OneGone(h) && |h.restarts| == 2 && k < 2 && h.session.stat != Running && !h.restarts[k].Returned?
    ensures forall j | 0 <= j < |h.restarts| && j != k :: h.restarts[j].Returned?
  {
  }

  lemma CarefulStep(m: System, a: Action)
    requires Careful(m) && Enabled(m, a) && |m.closes| == 0 && !m.session.closedByUser
    requires |m.restarts| <= 1 || (|m.restarts| == 2 && OneGone(m))
    ensures Careful(Step(m, a))
  {
    if a.Snapshot? && |m.restarts| == 2 && m.session.stat != Running {
      OthersReturned(m, a.k);
    }
  }

  lemma OneGoneStep(m: System, a: Action)
    requires OneGone(m) && Enabled(m, a) && |m.closes| == 0 && !m.session.closedByUser
    ensures OneGone(Step(m, a))
  {
    var h := Step(m, a);
    if h.session.stat != Running {
      if m.session.stat == Running {
        assert h.restarts[a.k].Returned?;
      } else {
        var k :| 0 <= k < |m.restarts| && m.restarts[k].Returned?;
        assert h.restarts[k].Returned?;
      }
    }
  }

  lemma {:induction false} CarefulRun(g: System, actions: seq<Action>, h: System)
    requires Init(g) && Runs(g, actions, h) && |g.closes| == 0 && !g.session.closedByUser
    requires g.session.handle.Some? || g.session.stat != Running
    requires |g.restarts| <= 1 || (|g.restarts| == 2 && g.session.stat == Running)
    ensures |h.restarts| == |g.restarts| && |h.closes| == 0 && !h.session.closedByUser
    ensures Careful(h) && (|g.restarts| == 2 ==> OneGone(h))
  {
    if actions == [] {
      AllAtStart(g);
    } else {
      var n := |actions| - 1;
      var m: System :| Runs(g, actions[..n], m) && Enabled(m, actions[n]) && h == Step(m, actions[n]);
      CarefulRun(g, actions[..n], m);
      CarefulStep(m, actions[n]);
      if |g.restarts| == 2 {
        OneGoneStep(m, actions[n]);
      }
    }
  }

  /** A session the user had closed is left as it was. */
  lemma {:induction false} ClosedIsLeft(g: System, actions: seq<Action>, h: System)
    requires Init(g) && Runs(g, actions, h) && |g.closes| == 0 && g.session.closedByUser
    ensures h.session == g.session && |h.closes| == 0
    ensures |h.restarts| == |g.restarts|
    ensures forall k | 0 <= k < |h.restarts| :: h.restarts[k] == Entering || h.restarts[k] == Returned(false)
  {
    if actions == [] {
      AllAtStart(g);
    } else {
      var n := |actions| - 1;
      var m: System :| Runs(g, actions[..n], m) && Enabled(m, actions[n]) && h == Step(m, actions[n]);
      ClosedIsLeft(g, actions[..n], m);
    }
  }

  // ----- two restarts, neither of which saw the session running -----

  lemma BothSpawning(g: System, actions: seq<Action>, m: System, i: nat, k: nat)
    returns (h: System, more: seq<Action>)
    requires Runs(g, actions, m) && i < |m.restarts| && k < |m.restarts| && i != k && !m.session.closedByUser
    requires m.restarts[i] == Entering && m.restarts[k] == Entering
    ensures Runs(g, more, h) && h.session == m.session && |h.restarts| == |m.restarts|
    ensures h.restarts[i] == Spawning(m.session.stat) && h.restarts[k] == Spawning(m.session.stat)
  {
    h, more := Then(g, actions, m, Admit(i));
    h, more := Then(g, more, h, Snapshot(i));
    h, more := Then(g, more, h, Admit(k));
    h, more := Then(g, more, h, Snapshot(k));
  }

  /** One lands and runs, then the other fails and takes the handle away. */
  lemma FailsAfterLanding(g: System, actions: seq<Action>, m: System, i: nat, k: nat)
    returns (h: System, more: seq<Action>)
    requires Runs(g, actions, m) && i < |m.restarts| && k < |m.restarts| && i != k && !m.session.closedByUser
    requires m.restarts[i] == Entering && m.restarts[k] == Entering && m.session.stat != Running
    ensures Runs(g, more, h) && h.session == Session(None, Running, false)
  {
    h, more := BothSpawning(g, actions, m, i, k);
    h, more := Then(g, more, h, SpawnLands(i));
    h, more := Then(g, more, h, SpawnFails(k));
  }

  lemma FailsFirst(g: System) returns (actions: seq<Action>, h: System)
    requires Init(g) && !g.session.closedByUser && |g.restarts| >= 3 && g.session.stat == Running
    ensures Runs(g, actions, h) && h.session == Session(None, Exited, false)
    ensures |h.restarts| == |g.restarts| && h.restarts[1] == Entering && h.restarts[2] == Entering
  {
    AllAtStart(g);
    h, actions := Then(g, [], g, Admit(0));
    h, actions := Then(g, actions, h, Snapshot(0));
    h, actions := Then(g, actions, h, SpawnFails(0));
  }

  /** Enough restarts leave a session running without a bridge. */
  lemma RunningWithoutHandle(g: System) returns (actions: seq<Action>, h: System)
    requires Init(g) && !g.session.closedByUser
    requires |g.restarts| >= 3 || (|g.restarts| == 2 && g.session.stat != Running)
    ensures Runs(g, actions, h) && h.session == Session(None, Running, false)
  {
    AllAtStart(g);
    if g.session.stat == Running {
      actions, h := FailsFirst(g);
      h, actions := FailsAfterLanding(g, actions, h, 1, 2);
    } else {
      h, actions := FailsAfterLanding(g, [], g, 0, 1);
    }
  }

  /**
   While nobody closes it: running means attached in every run exactly if it does at the start, and the user had closed
   the session, or at most one restart is under way, or two of a session that was running.
   */
  lemma AttachedExactly(g: System)
    requires Init(g) && |g.closes| == 0
    ensures AlwaysAttached(g) <==>
      && (g.session.stat == Running ==> g.session.handle.Some?)
      && (g.session.closedByUser || |g.restarts| <= 1 || (|g.restarts| == 2 && g.session.stat == Running))
  {
    assert Runs(g, [], g);
    if g.session.stat == Running && g.session.handle == None {
      assert !AlwaysAttached(g);
    } else if g.session.closedByUser || |g.restarts| <= 1 || (|g.restarts| == 2 && g.session.stat == Running) {
      forall actions: seq<Action>, h: System | Runs(g, actions, h) && h.session.stat == Running
        ensures h.session.handle.Some?
      {
        if g.session.closedByUser {
          ClosedIsLeft(g, actions, h);
        } else {
          CarefulRun(g, actions, h);
        }
      }
    } else {
      var actions, h := RunningWithoutHandle(g);
    }
  }
}
