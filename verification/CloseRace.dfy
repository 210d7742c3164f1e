/**
 Closing an AgentSession while restarts of its bridge are under way
 (RestartFromDeath, respawn, SetExited and Close in
 internal/agentsession/session.go). Every critical section of asMu and every
 handle close outside it is one step; any number of restarts and closes race.
 */
module CloseRace {

  datatype Option<T> = None | Some(value: T)

  datatype Status = Detached | Running | Exited

  /** The bridge handle present at the start, or the one restart k forked. */
  datatype Handle = Original | Spawned(k: nat)

  datatype Session = Session(handle: Option<Handle>, stat: Status, closedByUser: bool)

  // ----- the sections -----

  /** respawn's failure section: only a session that was Running is demoted. */
  function SpawnFailed(s: Session, before: Status): Session {
    s.(handle := None, stat := if before == Running then Exited else s.stat)
  }

  /** respawn's success section, with its roll-back when a close came first. */
  function SpawnLanded(s: Session, h: Handle): Session {
    if s.closedByUser then s.(handle := None, stat := Exited) else s.(handle := Some(h), stat := Running)
  }

  function MarkClosed(s: Session): Session { s.(closedByUser := true) }

  function SetExited(s: Session): Session { s.(stat := Exited) }

  // ----- the threads -----

  datatype Restart =
    | Entering
    | Admitted
    | Spawning(before: Status)
    | RollingBack              // the fresh handle is still to be closed
    | Landed                   // the last look at closedByUser is still to come
    | Returned(obtained: bool)  // whether a handle was forked

  datatype Close =
    | Closing
    | Marked(handle: Option<Handle>)  // stopping the pump
    | Settled(held: Option<Handle>)   // status set, handle still to be closed
    | Closed

  /** closed: handles closed so far. dropped: handles a respawn replaced before any close had looked. */
  datatype System = System(session: Session, restarts: seq<Restart>, closes: seq<Close>, closed: set<Handle>,
                           dropped: set<Handle>)

  datatype Action =
    | Admit(k: nat)
    | Snapshot(k: nat)
    | ReapFails(k: nat)
    | SpawnFails(k: nat)
    | SpawnLands(k: nat)
    | RollBack(k: nat)
    | LastLook(k: nat)
    | Mark(j: nat)
    | Settle(j: nat)
    | CloseHandle(j: nat)

  predicate Enabled(g: System, a: Action) {
    match a
    case Admit(k) => k < |g.restarts| && g.restarts[k] == Entering
    case Snapshot(k) => k < |g.restarts| && g.restarts[k] == Admitted
    case ReapFails(k) => k < |g.restarts| && g.restarts[k].Spawning?
    case SpawnFails(k) => k < |g.restarts| && g.restarts[k].Spawning?
    case SpawnLands(k) => k < |g.restarts| && g.restarts[k].Spawning?
    case RollBack(k) => k < |g.restarts| && g.restarts[k] == RollingBack
    case LastLook(k) => k < |g.restarts| && g.restarts[k] == Landed
    case Mark(j) => j < |g.closes| && g.closes[j] == Closing
    case Settle(j) => j < |g.closes| && g.closes[j].Marked?
    case CloseHandle(j) => j < |g.closes| && g.closes[j].Settled?
  }

  function Replaced(g: System): set<Handle> {
    if g.session.closedByUser || g.session.handle == None then g.dropped else g.dropped + {g.session.handle.value}
  }

  function Step(g: System, a: Action): System
    requires Enabled(g, a)
  {
    match a
    case Admit(k) =>
      g.(restarts := g.restarts[k := if g.session.closedByUser then Returned(false) else Admitted])
    case Snapshot(k) => g.(restarts := g.restarts[k := Spawning(g.session.stat)])
    case ReapFails(k) => g.(restarts := g.restarts[k := Returned(false)])
    case SpawnFails(k) =>
      g.(session := SpawnFailed(g.session, g.restarts[k].before), restarts := g.restarts[k := Returned(false)],
         dropped := Replaced(g))
    case SpawnLands(k) =>
      g.(session := SpawnLanded(g.session, Spawned(k)),
         restarts := g.restarts[k := if g.session.closedByUser then RollingBack else Landed],
         dropped := Replaced(g))
    case RollBack(k) => g.(restarts := g.restarts[k := Returned(true)], closed := g.closed + {Spawned(k)})
    case LastLook(k) => g.(restarts := g.restarts[k := Returned(true)])
    case Mark(j) => g.(session := MarkClosed(g.session), closes := g.closes[j := Marked(g.session.handle)])
    case Settle(j) => g.(session := SetExited(g.session), closes := g.closes[j := Settled(g.closes[j].handle)])
    case CloseHandle(j) =>
      g.(closes := g.closes[j := Closed],
         closed := if g.closes[j].held.Some? then g.closed + {g.closes[j].held.value} else g.closed)
  }

  ghost predicate Init(g: System) {
    && (forall r | r in g.restarts :: r == Entering) && (forall c | c in g.closes :: c == Closing)
    && (g.session.handle.Some? ==> g.session.handle.value == Original)
    && g.closed == {} == g.dropped
  }

  ghost predicate Runs(g: System, actions: seq<Action>, h: System)
    decreases |actions|
  {
    if actions == [] then h == g
    else
      var n := |actions| - 1;
      exists m: System :: Runs(g, actions[..n], m) && Enabled(m, actions[n]) && h == Step(m, actions[n])
  }

  /** Every thread has returned. */
  predicate AllReturned(g: System) {
    && (forall k | 0 <= k < |g.restarts| :: g.restarts[k].Returned?)
    && (forall j | 0 <= j < |g.closes| :: g.closes[j].Closed?)
  }

  // ----- what every step keeps -----

  predicate Obtained(g: System, k: nat) {
    k < |g.restarts| &&
    (g.restarts[k].RollingBack? || g.restarts[k].Landed? || (g.restarts[k].Returned? && g.restarts[k].obtained))
  }

  function HeldBy(c: Close): Option<Handle> {
    match c
    case Marked(h) => h
    case Settled(h) => h
    case _ => None
  }

  /** A close has taken note of the handle and will still close it. */
  ghost predicate Pending(g: System, h: Handle) {
    exists j | 0 <= j < |g.closes| :: HeldBy(g.closes[j]) == Some(h)
  }

  /** Before any close, nothing is closed, noted or rolled back; after one, the session is marked. */
  ghost predicate MarkFirst(g: System) {
    && (forall k | 0 <= k < |g.restarts| :: g.restarts[k] == RollingBack ==> g.session.closedByUser)
    && (!g.session.closedByUser ==> g.closed == {} && forall j | 0 <= j < |g.closes| :: g.closes[j] == Closing)
    && ((exists j | 0 <= j < |g.closes| :: g.closes[j] != Closing) ==> g.session.closedByUser)
  }

  /** Once a close has settled, the session stays exited. */
  ghost predicate ExitStays(g: System) {
    forall j | 0 <= j < |g.closes| :: g.closes[j].Settled? || g.closes[j].Closed? ==> g.session.stat == Exited
  }

  ghost predicate Attached(g: System, h: Handle) { g.session.handle == Some(h) && !g.session.closedByUser }

  /** A forked handle is in exactly one place until it is closed; a dropped one is lost for good. */
  ghost predicate Accounted(g: System, k: nat) {
    var h := Spawned(k);
    && (Obtained(g, k) ==>
        h in g.closed || h in g.dropped || Attached(g, h) || Pending(g, h) || g.restarts[k] == RollingBack)
    && (h in g.dropped ==>
        && Obtained(g, k) && g.restarts[k] != RollingBack
        && h !in g.closed && g.session.handle != Some(h) && !Pending(g, h))
    && (h in g.closed || g.session.handle == Some(h) || Pending(g, h) ==> Obtained(g, k))
  }

  /** Only another restart drops a handle. */
  ghost predicate DroppedByOthers(g: System) {
    |g.restarts| <= 1 ==> forall k: nat :: Spawned(k) !in g.dropped
  }

  ghost predicate Invariant(g: System) {
    MarkFirst(g) && ExitStays(g) && DroppedByOthers(g) && forall k: nat :: Accounted(g, k)
  }

  lemma SamePending(g: System, g': System, h: Handle)
    requires g'.closes == g.closes
    ensures Pending(g', h) <==> Pending(g, h)
  {
  }

  /** What one close's move does to the handles still to be closed. */
  lemma PendingMoves(g: System, j: nat, c: Close, g': System, h: Handle)
    requires j < |g.closes| && g'.closes == g.closes[j := c]
    ensures Pending(g, h) ==> HeldBy(g.closes[j]) == Some(h) || Pending(g', h)
    ensures Pending(g', h) ==> HeldBy(c) == Some(h) || Pending(g, h)
    ensures HeldBy(c) == Some(h) ==> Pending(g', h)
    ensures HeldBy(g.closes[j]) == Some(h) ==> Pending(g, h)
  {
    assert g'.closes[j] == c;
    if Pending(g, h) {
      var i :| 0 <= i < |g.closes| && HeldBy(g.closes[i]) == Some(h);
      assert i != j ==> g'.closes[i] == g.closes[i];
    }
    if Pending(g', h) {
      var i :| 0 <= i < |g'.closes| && HeldBy(g'.closes[i]) == Some(h);
      assert i != j ==> g'.closes[i] == g.closes[i];
    }
  }

  predicate ByRestart(a: Action) { !a.Mark? && !a.Settle? && !a.CloseHandle? }

  lemma RestartKeepsMark(g: System, a: Action)
    requires Invariant(g) && Enabled(g, a) && ByRestart(a)
    ensures MarkFirst(Step(g, a)) && ExitStays(Step(g, a))
  {
  }

  lemma CloseKeepsMark(g: System, a: Action)
    requires Invariant(g) && Enabled(g, a) && !ByRestart(a)
    ensures MarkFirst(Step(g, a)) && ExitStays(Step(g, a))
  {
    var g' := Step(g, a);
    var j := match a case Mark(j) => j case Settle(j) => j case CloseHandle(j) => j;
    assert g'.closes[j] != Closing;
    assert forall i | 0 <= i < |g.closes| && i != j :: g'.closes[i] == g.closes[i];
    if !a.Mark? {
      assert g.closes[j] != Closing;
    }
  }

  lemma RestartKeepsAccount(g: System, a: Action, k: nat)
    requires Invariant(g) && Enabled(g, a) && ByRestart(a)
    ensures Accounted(Step(g, a), k)
  {
    var g' := Step(g, a);
    assert Accounted(g, k);
    SamePending(g, g', Spawned(k));
  }

  lemma CloseKeepsAccount(g: System, a: Action, k: nat)
    requires Invariant(g) && Enabled(g, a) && !ByRestart(a)
    ensures Accounted(Step(g, a), k)
  {
    var g' := Step(g, a);
    var j := match a case Mark(j) => j case Settle(j) => j case CloseHandle(j) => j;
    assert Accounted(g, k);
    PendingMoves(g, j, g'.closes[j], g', Spawned(k));
  }

  lemma StepKeepsDropped(g: System, a: Action)
    requires Invariant(g) && Enabled(g, a)
    ensures DroppedByOthers(Step(g, a))
  {
    forall k: nat | |g.restarts| <= 1 ensures Spawned(k) !in Step(g, a).dropped {
      assert Accounted(g, k);
      assert Spawned(k) !in g.dropped;
    }
  }

  lemma StepKeeps(g: System, a: Action)
    requires Invariant(g) && Enabled(g, a)
    ensures Invariant(Step(g, a))
  {
    StepKeepsDropped(g, a);
    if ByRestart(a) {
      RestartKeepsMark(g, a);
      forall k: nat ensures Accounted(Step(g, a), k) {
        RestartKeepsAccount(g, a, k);
      }
    } else {
      CloseKeepsMark(g, a);
      forall k: nat ensures Accounted(Step(g, a), k) {
        CloseKeepsAccount(g, a, k);
      }
    }
  }

  lemma InitHolds(g: System)
    requires Init(g)
    ensures Invariant(g)
  {
    assert forall j | 0 <= j < |g.closes| :: g.closes[j] in g.closes;
    assert forall k | 0 <= k < |g.restarts| :: g.restarts[k] in g.restarts;
    assert forall j | 0 <= j < |g.closes| :: HeldBy(g.closes[j]) == None;
    forall k: nat ensures Accounted(g, k) {
      assert !Pending(g, Spawned(k));
    }
  }

  lemma {:induction false} RunsKeep(g: System, actions: seq<Action>, h: System)
    requires Init(g) && Runs(g, actions, h)
    ensures Invariant(h) && |h.restarts| == |g.restarts| && |h.closes| == |g.closes|
  {
    if actions == [] {
      InitHolds(g);
    } else {
      var n := |actions| - 1;
      var m: System :| Runs(g, actions[..n], m) && Enabled(m, actions[n]) && h == Step(m, actions[n]);
      RunsKeep(g, actions[..n], m);
      StepKeeps(m, actions[n]);
    }
  }

  // ----- the main results -----

  /**
   Once every restart and close has returned, and there was a close, the session is exited and a handle some
   restart forked is closed exactly unless another restart replaced it before the first close looked.
   */
  lemma CloseWins(g: System, actions: seq<Action>, h: System, k: nat)
    requires Init(g) && Runs(g, actions, h) && AllReturned(h) && |g.closes| > 0
    ensures h.session.stat == Exited
    ensures k < |h.restarts| && h.restarts[k] == Returned(true) ==>
      (Spawned(k) in h.closed <==> Spawned(k) !in h.dropped)
    ensures k < |h.restarts| && h.restarts[k] == Returned(false) ==> Spawned(k) !in h.closed
  {
    RunsKeep(g, actions, h);
    assert h.closes[0].Closed?;
    assert Accounted(h, k);
    assert !Pending(h, Spawned(k));
  }

  /** One restart racing any number of closes never leaves a bridge behind. */
  lemma SingleRestartLeavesNothing(g: System, actions: seq<Action>, h: System)
    requires Init(g) && Runs(g, actions, h) && AllReturned(h) && |g.closes| > 0 && |g.restarts| == 1
    ensures h.session.stat == Exited
    ensures h.restarts == [Returned(true)] ==> Spawned(0) in h.closed
  {
    CloseWins(g, actions, h, 0);
    RunsKeep(g, actions, h);
  }

  /** The user's close is not undone: a session already marked keeps its handle and gets no new one. */
  lemma {:induction false} ClosedStaysClosed(g: System, actions: seq<Action>, h: System, k: nat)
    requires Init(g) && g.session.closedByUser && Runs(g, actions, h)
    ensures h.session.closedByUser && h.session.handle == g.session.handle
    ensures |h.restarts| == |g.restarts| && (k < |h.restarts| ==> h.restarts[k] in {Entering, Returned(false)})
  {
    if actions == [] {
      assert k < |g.restarts| ==> g.restarts[k] in g.restarts;
    } else {
      var n := |actions| - 1;
      var m: System :| Runs(g, actions[..n], m) && Enabled(m, actions[n]) && h == Step(m, actions[n]);
      ClosedStaysClosed(g, actions[..n], m, k);
      if ByRestart(actions[n]) {
        ClosedStaysClosed(g, actions[..n], m, actions[n].k);
      }
    }
  }

  /** Where a lone restart stands, and what it has made of the session so far. */
  ghost predicate LoneRestart(g: System, h: System)
    requires |h.restarts| == 1
  {
    match h.restarts[0]
    case Entering => h.session == g.session
    case Admitted => h.session == g.session
    case Spawning(before) => h.session == g.session && before == g.session.stat
    case RollingBack => false
    case Landed => h.session == Session(Some(Spawned(0)), Running, false)
    case Returned(obtained) =>
      if obtained then h.session == Session(Some(Spawned(0)), Running, false)
      else
        || h.session == g.session
        || h.session == Session(None, if g.session.stat == Running then Exited else g.session.stat, false)
  }

  /** Without a close a restart leaves its bridge attached; failing, it demotes a session that was running, no other. */
  lemma {:induction false} RestartOutcome(g: System, actions: seq<Action>, h: System)
    requires Init(g) && !g.session.closedByUser && |g.restarts| == 1 && |g.closes| == 0 && Runs(g, actions, h)
    ensures |h.restarts| == 1 && |h.closes| == 0 && LoneRestart(g, h)
  {
    if actions == [] {
      assert g.restarts[0] in g.restarts;
    } else {
      var n := |actions| - 1;
      var m: System :| Runs(g, actions[..n], m) && Enabled(m, actions[n]) && h == Step(m, actions[n]);
      RestartOutcome(g, actions[..n], m);
      LoneStep(g, m, actions[n]);
    }
  }

  lemma LoneStep(g: System, m: System, a: Action)
    requires |m.restarts| == 1 && |m.closes| == 0 && LoneRestart(g, m) && Enabled(m, a) && !g.session.closedByUser
    ensures |Step(m, a).restarts| == 1 && |Step(m, a).closes| == 0 && LoneRestart(g, Step(m, a))
  {
  }

  /** A restart that lost to a close leaves the session exited and without a handle. */
  lemma {:induction false} RolledBackIsDetached(g: System, actions: seq<Action>, h: System, k: nat)
    requires Init(g) && Runs(g, actions, h) && k < |h.restarts| && h.restarts[k] == RollingBack
    ensures h.session == Session(None, Exited, true)
  {
    if actions == [] {
      AllAtStart(g);
    } else {
      var n := |actions| - 1;
      var m: System :| Runs(g, actions[..n], m) && Enabled(m, actions[n]) && h == Step(m, actions[n]);
      RunsKeep(g, actions[..n], m);
      if m.restarts[k] == RollingBack {
        RolledBackIsDetached(g, actions[..n], m, k);
      }
    }
  }

  /** Extends a run by one step. */
  lemma Then(g: System, actions: seq<Action>, m: System, a: Action) returns (h: System, more: seq<Action>)
    requires Runs(g, actions, m) && Enabled(m, a)
    ensures more == actions + [a] && h == Step(m, a) && Runs(g, more, h)
  {
    h, more := Step(m, a), actions + [a];
    assert more[..|actions|] == actions;
  }

  /** A restart that nothing disturbs attaches its bridge. */
  lemma RestartAlone(g: System, actions: seq<Action>, m: System, k: nat) returns (h: System, more: seq<Action>)
    requires Runs(g, actions, m) && k < |m.restarts| && m.restarts[k] == Entering && !m.session.closedByUser
    ensures Runs(g, more, h)
    ensures h == m.(session := Session(Some(Spawned(k)), Running, false), restarts := m.restarts[k := Returned(true)],
                    dropped := Replaced(m))
  {
    var s, all := Session(Some(Spawned(k)), Running, false), m.restarts;
    UpdateTwice(all, k, Admitted, Spawning(m.session.stat));
    UpdateTwice(all, k, Spawning(m.session.stat), Landed);
    UpdateTwice(all, k, Landed, Returned(true));
    h, more := Then(g, actions, m, Admit(k));
    assert h == m.(restarts := all[k := Admitted]);
    h, more := Then(g, more, h, Snapshot(k));
    assert h == m.(restarts := all[k := Spawning(m.session.stat)]);
    h, more := Then(g, more, h, SpawnLands(k));
    assert h == m.(session := s, restarts := all[k := Landed], dropped := Replaced(m));
    h, more := Then(g, more, h, LastLook(k));
  }

  lemma UpdateTwice<T>(s: seq<T>, k: nat, x: T, y: T)
    requires k < |s|
    ensures s[k := x][k := y] == s[k := y]
  {
  }

  lemma CloseAlone(g: System, actions: seq<Action>, m: System, j: nat) returns (h: System, more: seq<Action>)
    requires Runs(g, actions, m) && j < |m.closes| && m.closes[j] == Closing && m.session.handle.Some?
    ensures Runs(g, more, h)
    ensures h == m.(session := Session(m.session.handle, Exited, true), closes := m.closes[j := Closed],
                    closed := m.closed + {m.session.handle.value})
  {
    h, more := Then(g, actions, m, Mark(j));
    h, more := Then(g, more, h, Settle(j));
    h, more := Then(g, more, h, CloseHandle(j));
  }

  /** After a close the threads that have not started yet return one by one; no handle changes hands. */
  lemma {:induction false} RestReturns(g: System, actions: seq<Action>, m: System, k: nat, j: nat)
    returns (h: System, more: seq<Action>)
    requires Runs(g, actions, m) && m.session.closedByUser && m.session.handle.Some?
    requires 0 < k <= |m.restarts| && j <= |m.closes|
    requires forall i | 0 <= i < |m.restarts| :: if i < k then m.restarts[i].Returned? else m.restarts[i] == Entering
    requires forall i | 0 <= i < |m.closes| :: m.closes[i] == if i < j then Closed else Closing
    ensures Runs(g, more, h) && AllReturned(h)
    ensures |h.restarts| == |m.restarts| && h.restarts[0] == m.restarts[0] && h.dropped == m.dropped
    decreases |m.restarts| - k + |m.closes| - j
  {
    if k < |m.restarts| {
      var n, next := Then(g, actions, m, Admit(k));
      h, more := RestReturns(g, next, n, k + 1, j);
    } else if j < |m.closes| {
      var n, next := CloseAlone(g, actions, m, j);
      h, more := RestReturns(g, next, n, k, j + 1);
    } else {
      h, more := m, actions;
    }
  }

  /**
   Two restarts can, from every start: the second replaces the first one's handle, and no close ever sees it. The
   model has no bridge death: the source restarts on an exit event, so the handle lost need not be a live bridge.
   */
  lemma TwoRestartsLeaveAHandle(g: System) returns (actions: seq<Action>, h: System)
    requires Init(g) && !g.session.closedByUser && |g.restarts| >= 2 && |g.closes| > 0
    ensures Runs(g, actions, h) && AllReturned(h)
    ensures |h.restarts| == |g.restarts| && h.restarts[0] == Returned(true) && Spawned(0) !in h.closed
  {
    AllAtStart(g);
    h, actions := RestartAlone(g, [], g, 0);
    h, actions := RestartAlone(g, actions, h, 1);
    assert Spawned(0) in h.dropped;
    h, actions := CloseAlone(g, actions, h, 0);
    h, actions := RestReturns(g, actions, h, 2, 1);
    CloseWins(g, actions, h, 0);
  }

  lemma AllAtStart(g: System)
    requires Init(g)
    ensures forall k | 0 <= k < |g.restarts| :: g.restarts[k] == Entering
    ensures forall j | 0 <= j < |g.closes| :: g.closes[j] == Closing
  {
    assert forall k | 0 <= k < |g.restarts| :: g.restarts[k] in g.restarts;
    assert forall j | 0 <= j < |g.closes| :: g.closes[j] in g.closes;
  }

  /** Every complete run closes every handle that was forked. */
  ghost predicate AlwaysAllClosed(g: System) {
    forall actions: seq<Action>, h: System, k: nat
      | Runs(g, actions, h) && AllReturned(h) && k < |h.restarts| && h.restarts[k] == Returned(true) ::
      Spawned(k) in h.closed
  }

  /** When a close takes part, that is so exactly if the session was closed to begin with or at most one restart is. */
  lemma AllClosedExactly(g: System)
    requires Init(g) && |g.closes| > 0
    ensures AlwaysAllClosed(g) <==> g.session.closedByUser || |g.restarts| <= 1
  {
    if g.session.closedByUser || |g.restarts| <= 1 {
      forall actions: seq<Action>, h: System, k: nat
        | Runs(g, actions, h) && AllReturned(h) && k < |h.restarts| && h.restarts[k] == Returned(true)
        ensures Spawned(k) in h.closed
      {
        if g.session.closedByUser {
          ClosedStaysClosed(g, actions, h, k);
        } else {
          RunsKeep(g, actions, h);
          SingleRestartLeavesNothing(g, actions, h);
        }
      }
    } else {
      var actions, h := TwoRestartsLeaveAHandle(g);
    }
  }

  /** Nothing waits for anything: a thread that has not returned can always move. */
  lemma NeverStuck(g: System)
    ensures AllReturned(g) <==> forall a :: !Enabled(g, a)
  {
    if !AllReturned(g) {
      if exists k | 0 <= k < |g.restarts| :: !g.restarts[k].Returned? {
        var k :| 0 <= k < |g.restarts| && !g.restarts[k].Returned?;
        match g.restarts[k]
        case Entering => assert Enabled(g, Admit(k));
        case Admitted => assert Enabled(g, Snapshot(k));
        case Spawning(_) => assert Enabled(g, SpawnLands(k));
        case RollingBack => assert Enabled(g, RollBack(k));
        case Landed => assert Enabled(g, LastLook(k));
        case Returned(_) =>
      } else {
        var j :| 0 <= j < |g.closes| && !g.closes[j].Closed?;
        match g.closes[j]
        case Closing => assert Enabled(g, Mark(j));
        case Marked(_) => assert Enabled(g, Settle(j));
        case Settled(_) => assert Enabled(g, CloseHandle(j));
        case Closed =>
      }
    }
  }
}
