/**
 Where FanoutLag does not rule it out, the snapshot forwarded last misses something: a complete
 run is built in which one goroutine forwards after all others have merged. With it the two
 halves give the exact condition.
 */
module FanoutLagging {
  import opened Sums
  import opened AggregatorSpec
  import opened Fanout
  import opened FanoutOutcome
  import opened FanoutResults
  import opened FanoutTasks
  import opened FanoutProgress
  import opened FanoutTools
  import opened FanoutOrder
  import opened FanoutReplay
  import opened FanoutBacklog
  import opened FanoutPlans
  import opened FanoutOpening
  import opened FanoutReorder
  import opened FanoutLatest
  import opened FanoutStale
  import opened FanoutSnapshots
  import opened FanoutDue
  import opened FanoutBeside
  import opened FanoutLag

  // ----- a goroutine running alone -----

  /** Only goroutine j has moved, and merged evs. */
  ghost predicate OnlyIts(s: System, t: System, j: nat, evs: seq<Event>) {
    && j < |s.jobs| == |t.jobs| && (forall h | 0 <= h < |s.jobs| && h != j :: t.jobs[h] == s.jobs[h])
    && t.agg.merged == s.agg.merged + evs && Due(s.jobs[j]) == evs + Due(t.jobs[j])
    && !t.jobs[j].stage.Waiting?
  }

  lemma OwnStep(s: System, traces: seq<seq<Event>>, j: nat) returns (act: Action)
    requires Late(s, traces) && j < |s.jobs| && !s.jobs[j].stage.Waiting? && Due(s.jobs[j]) != []
    ensures Enabled(s, act) && OnlyIts(s, Next(s, act), j, if Merging(s, act, j) then [Due(s.jobs[j])[0]] else [])
    ensures Merging(s, act, j) ==> FullPends(Next(s, act), j)
  {
    assert ControlOk(s.jobs[j]);
    act := GoroutineMoves(s, j);
    StepDue(s, traces, act, j);
    if Merging(s, act, j) {
      ExecPends(s, traces, j, act.c);
    }
  }

  lemma ThenIts(s: System, s1: System, t: System, j: nat, a: seq<Event>, b: seq<Event>)
    requires OnlyIts(s, s1, j, a) && OnlyIts(s1, t, j, b)
    ensures OnlyIts(s, t, j, a + b)
  {
    Regroup(s.agg.merged, a, b);
    Regroup(a, b, Due(t.jobs[j]));
  }

  lemma AloneLeft(s: System, s1: System, j: nat, merges: bool, n: nat) returns (m: nat)
    requires j < |s.jobs| && 0 < n <= |Due(s.jobs[j])|
    requires OnlyIts(s, s1, j, if merges then [Due(s.jobs[j])[0]] else [])
    ensures m == (if merges then n - 1 else n) && m <= |Due(s1.jobs[j])|
  {
    m := if merges then n - 1 else n;
    var first := if merges then [Due(s.jobs[j])[0]] else [];
    assert Due(s.jobs[j]) == first + Due(s1.jobs[j]);
  }

  lemma AloneParts(s: System, s1: System, t: System, j: nat, merges: bool, n: nat, m: nat)
    requires j < |s.jobs| && j < |s1.jobs| && 0 < n <= |Due(s.jobs[j])| && m == (if merges then n - 1 else n)
    requires OnlyIts(s, s1, j, if merges then [Due(s.jobs[j])[0]] else [])
    requires m <= |Due(s1.jobs[j])| && OnlyIts(s1, t, j, Due(s1.jobs[j])[..m])
    ensures OnlyIts(s, t, j, Due(s.jobs[j])[..n])
  {
    var first := if merges then [Due(s.jobs[j])[0]] else [];
    ThenIts(s, s1, t, j, first, Due(s1.jobs[j])[..m]);
    assert first + Due(s1.jobs[j])[..m] == (first + Due(s1.jobs[j]))[..n];
  }

  /** It is let run until it has merged n events of its list; then it is about to forward the last. */
  lemma {:induction false} RunAlone(s: System, traces: seq<seq<Event>>, j: nat, n: nat)
    returns (acts: seq<Action>, t: System)
    requires Late(s, traces) && j < |s.jobs| && !s.jobs[j].stage.Waiting? && n <= |Due(s.jobs[j])|
    ensures Runs(s, acts, t) && Late(t, traces) && OnlyIts(s, t, j, Due(s.jobs[j])[..n])
    ensures if n > 0 then FullPends(t, j) else t == s
    decreases Cost(s)
  {
    if n == 0 {
      acts, t := [], s;
    } else {
      var act := OwnStep(s, traces, j);
      var m := AloneLeft(s, Next(s, act), j, Merging(s, act, j), n);
      CostsLess(s, traces, act);
      var more, end := RunAlone(Next(s, act), traces, j, m);
      acts, t := [act] + more, end;
      AloneParts(s, Next(s, act), t, j, Merging(s, act, j), n, m);
    }
  }

  /** It is let run until its next operation is a merge. */
  lemma {:induction false} RunToMerge(s: System, traces: seq<seq<Event>>, j: nat) returns (acts: seq<Action>, t: System)
    requires Late(s, traces) && j < |s.jobs| && !s.jobs[j].stage.Waiting? && Due(s.jobs[j]) != []
    ensures Runs(s, acts, t) && Late(t, traces) && OnlyIts(s, t, j, [])
    ensures t.jobs[j].todo != [] && t.jobs[j].todo[0].Merge?
    decreases Cost(s)
  {
    if s.jobs[j].todo != [] && s.jobs[j].todo[0].Merge? {
      acts, t := [], s;
    } else {
      var act := OwnStep(s, traces, j);
      CostsLess(s, traces, act);
      var more, end := RunToMerge(Next(s, act), traces, j);
      acts, t := [act] + more, end;
      ThenIts(s, Next(s, act), t, j, [], []);
    }
  }

  // ----- the end of the run -----

  /** Goroutine a is about to forward its last snapshot, which goroutine b's list will make stale under the id. */
  ghost predicate Poised(s: System, traces: seq<seq<Event>>, a: nat, b: nat, id: string) {
    && Late(s, traces) && a != b && b < |s.jobs| && FullPends(s, a) && Due(s.jobs[a]) == []
    && id in Table(Due(s.jobs[b]))
    && (id in s.agg.tasks ==> s.agg.tasks[id] != Table(Due(s.jobs[b]))[id])
  }

  lemma GoneDue(s: System, held: set<nat>, j: nat)
    requires Lifecycle(s) && Rest(s, held) && j < |s.jobs| && j !in held
    ensures Due(s.jobs[j]) == [] && !Pends(s.jobs[j])
  {
    assert ControlOk(s.jobs[j]);
  }

  lemma TakenAll(s: System, acts: seq<Action>, t: System, traces: seq<seq<Event>>, b: nat, id: string)
    requires Late(s, traces) && Runs(s, acts, t) && b < |s.jobs| == |t.jobs|
    requires Due(t.jobs[b]) == [] && id in Table(Due(s.jobs[b]))
    ensures s.agg.merged <= t.agg.merged && id in Table(Since(s, t))
  {
    var evs := TakenOff(s, acts, t, traces, b);
    assert evs + [] == evs;
  }

  /** While only a and b are left, and a merges no more, b decides. */
  lemma LeftToOne(s: System, acts: seq<Action>, t: System, traces: seq<seq<Event>>, a: nat, b: nat, id: string)
    requires Late(s, traces) && Runs(s, acts, t) && Rest(s, {a, b}) && a < |s.jobs| == |t.jobs| && b < |s.jobs|
    requires Due(s.jobs[a]) == [] && Due(t.jobs[b]) == [] && id in Table(Due(s.jobs[b]))
    ensures id in Table(t.agg.merged) && Table(t.agg.merged)[id] == Table(Due(s.jobs[b]))[id]
  {
    TakenAll(s, acts, t, traces, b, id);
    var g, made := LastBy(s, acts, t, traces, id);
    if g != a && g != b {
      GoneDue(s, {a, b}, g);
    }
    OneDecides(s, t, b, made, id);
  }

  lemma OneDecides(s: System, t: System, b: nat, made: seq<Event>, id: string)
    requires s.agg.merged <= t.agg.merged && Decides(s, t, b, made, id) && Due(t.jobs[b]) == []
    ensures Due(s.jobs[b]) == made && id in Table(t.agg.merged) && Table(t.agg.merged)[id] == Table(made)[id]
  {
    assert made + [] == made;
    assert t.agg.merged == s.agg.merged + Since(s, t);
    TableAppend(s.agg.merged, Since(s, t), id);
  }

  lemma StaysSilent(s: System, traces: seq<seq<Event>>, act: Action)
    requires Late(s, traces) && AllMade(s) && Enabled(s, act)
    ensures AllMade(Next(s, act)) && Next(s, act).agg.merged == s.agg.merged
    ensures forall k | |s.agg.log| <= k < |Next(s, act).agg.log| :: !Next(s, act).agg.log[k].kind.Task()
  {
    var t := Next(s, act);
    NextLate(s, traces, act);
    forall j | 0 <= j < |t.jobs| ensures Due(t.jobs[j]) == [] && !Pends(t.jobs[j]) {
      StepDue(s, traces, act, j);
      StillNone(s, traces, act, j);
    }
    if act.Exec? {
      StepDue(s, traces, act, act.i);
    } else {
      QuietTables(s, act);
    }
    forall k | |s.agg.log| <= k < |t.agg.log| ensures !t.agg.log[k].kind.Task() {
      if t.agg.log[k].kind.Task() {
        NewEntry(s, traces, act, k);
      }
    }
  }

  lemma StillNone(s: System, traces: seq<seq<Event>>, act: Action, j: nat)
    requires Late(s, traces) && Enabled(s, act) && j < |s.jobs| && Due(s.jobs[j]) == [] && !Pends(s.jobs[j])
    ensures |Next(s, act).jobs| == |s.jobs| && !Pends(Next(s, act).jobs[j])
  {
    if act.Exec? {
      ExecPends(s, traces, act.i, act.c);
      StepDue(s, traces, act, j);
    } else {
      assert OnlyFirst(s.jobs[j].todo);
      QuietPends(s, act, j);
    }
  }

  /** When nothing is left to merge or to forward, neither happens. */
  lemma {:induction false} Silent(s: System, acts: seq<Action>, t: System, traces: seq<seq<Event>>)
    requires Late(s, traces) && AllMade(s) && Runs(s, acts, t)
    ensures t.agg.merged == s.agg.merged && s.agg.log <= t.agg.log
    ensures forall k | |s.agg.log| <= k < |t.agg.log| :: !t.agg.log[k].kind.Task()
    decreases acts
  {
    RunMonotone(s, acts, t);
    if acts != [] {
      var s1 := Next(s, acts[0]);
      StaysSilent(s, traces, acts[0]);
      NextLate(s, traces, acts[0]);
      Silent(s1, acts[1..], t, traces);
      RunMonotone(s1, acts[1..], t);
    }
  }

  lemma ForwardStep(s: System, traces: seq<seq<Event>>, a: nat) returns (act: Action)
    requires Late(s, traces) && a < |s.jobs| && Rest(s, {a}) && Pends(s.jobs[a]) && Due(s.jobs[a]) == []
    ensures Enabled(s, act) && Late(Next(s, act), traces) && AllMade(Next(s, act))
    ensures Next(s, act).agg.merged == s.agg.merged
    ensures Next(s, act).agg.log == s.agg.log + s.jobs[a].todo[0].evs
  {
    var c := SomeChoice(s.agg, s.jobs[a].todo[0]);
    act := Exec(a, c);
    var s1 := Next(s, act);
    NextLate(s, traces, act);
    ExecPends(s, traces, a, c);
    PendsNext(s, traces, act, a);
    StepDue(s, traces, act, a);
    forall j | 0 <= j < |s1.jobs| ensures Due(s1.jobs[j]) == [] && !Pends(s1.jobs[j]) {
      if j != a {
        GoneDue(s, {a}, j);
      }
    }
  }

  /** Goroutine a forwards its snapshot, the last of all. */
  lemma ForwardLast(s: System, traces: seq<seq<Event>>, a: nat) returns (acts: seq<Action>, t: System)
    requires Late(s, traces) && a < |s.jobs| && Rest(s, {a}) && Pends(s.jobs[a]) && Due(s.jobs[a]) == []
    ensures Runs(s, acts, t) && t.main.Merged? && t.agg.merged == s.agg.merged
    ensures LastTask(t.agg.log, |s.agg.log|) && t.agg.log[|s.agg.log|] == s.jobs[a].todo[0].evs[0]
  {
    var act := ForwardStep(s, traces, a);
    var more, end := CanFinish(Next(s, act), traces);
    Silent(Next(s, act), more, end, traces);
    acts, t := [act] + more, end;
    RunsAfter(s, act, more, end);
  }

  lemma OneListing(items: seq<Item>, was: map<string, Item>, now: map<string, Item>, id: string)
    requires Lists(items, was) && id in now && now[id].id == id && (id in was ==> was[id] != now[id])
    ensures !Lists(items, now)
  {
  }

  lemma TableKeyed(evs: seq<Event>)
    ensures forall id | id in Table(evs) :: Table(evs)[id].id == id
  {
    KeyedById(map[], Items(evs));
  }

  lemma BesideTwo(s: System, traces: seq<seq<Event>>, a: nat, b: nat) returns (acts: seq<Action>, t: System)
    requires Late(s, traces) && a < |s.jobs| && b < |s.jobs|
    ensures Runs(s, acts, t) && Late(t, traces) && Rest(t, {a, b}) && |t.jobs| == |s.jobs|
    ensures SameWork(s.jobs[a], t.jobs[a]) && SameWork(s.jobs[b], t.jobs[b])
  {
    acts, t := FinishBeside(s, traces, {a, b});
    assert a in {a, b} && b in {a, b};
  }

  lemma BesideOne(s: System, traces: seq<seq<Event>>, a: nat) returns (acts: seq<Action>, t: System)
    requires Late(s, traces) && a < |s.jobs|
    ensures Runs(s, acts, t) && Late(t, traces) && Rest(t, {a}) && |t.jobs| == |s.jobs|
    ensures SameWork(s.jobs[a], t.jobs[a])
  {
    acts, t := FinishBeside(s, traces, {a});
    assert a in {a};
  }

  /** From there a complete run's last snapshot does not list the whole table. */
  lemma PoisedLags(s: System, traces: seq<seq<Event>>, a: nat, b: nat, id: string)
    returns (acts: seq<Action>, t: System, k: nat)
    requires Poised(s, traces, a, b, id)
    ensures Runs(s, acts, t) && t.main.Merged? && LastTask(t.agg.log, k)
    ensures !Lists(t.agg.log[k].items, Table(t.agg.merged))
  {
    var a1, s1 := LetOthers(s, traces, a, b, id);
    var a2, s2 := ForwardLast(s1, traces, a);
    RunsAppend(s, a1, s1, a2, s2);
    acts, t, k := a1 + a2, s2, |s1.agg.log|;
    TableKeyed(t.agg.merged);
    OneListing(t.agg.log[k].items, s.agg.tasks, Table(t.agg.merged), id);
  }

  /** All but a come to their end, b last. */
  lemma LetOthers(s: System, traces: seq<seq<Event>>, a: nat, b: nat, id: string)
    returns (acts: seq<Action>, t: System)
    requires Late(s, traces) && a < |s.jobs| && b < |s.jobs| && a != b
    requires Due(s.jobs[a]) == [] && id in Table(Due(s.jobs[b]))
    ensures Runs(s, acts, t) && Late(t, traces) && a < |t.jobs| && Rest(t, {a}) && SameWork(s.jobs[a], t.jobs[a])
    ensures id in Table(t.agg.merged) && Table(t.agg.merged)[id] == Table(Due(s.jobs[b]))[id]
  {
    var a1, s1 := BesideTwo(s, traces, a, b);
    var a2, s2 := BesideOne(s1, traces, a);
    GoneDue(s2, {a}, b);
    LeftToOne(s1, a2, s2, traces, a, b, id);
    RunsAppend(s, a1, s1, a2, s2);
    acts, t := a1 + a2, s2;
  }

  // ----- up to goroutine a's last merge -----

  lemma PoisedAt(s: System, traces: seq<seq<Event>>, a: nat, b: nat, id: string)
    requires Late(s, traces) && a != b && b < |s.jobs| && FullPends(s, a) && Due(s.jobs[a]) == []
    requires id in Table(Due(s.jobs[b]))
    requires id in Table(s.agg.merged) ==> Table(s.agg.merged)[id] != Table(Due(s.jobs[b]))[id]
    ensures Poised(s, traces, a, b, id)
  {
    assert s.agg.tasks == Table(s.agg.merged);
  }

  lemma SparedDue(s: System, t: System, held: set<nat>, g: nat)
    requires Spared(s, t, held) && g in held && g < |s.jobs|
    ensures g < |t.jobs| && SameWork(s.jobs[g], t.jobs[g]) && Due(t.jobs[g]) == Due(s.jobs[g])
  {
  }

  /** Goroutine j is launched, if need be, while those in held do nothing. */
  lemma Launched(s: System, traces: seq<seq<Event>>, held: set<nat>, j: nat) returns (acts: seq<Action>, t: System)
    requires Late(s, traces) && j < |s.jobs| && |Below(held, j)| < MAX_JOBS
    ensures Runs(s, acts, t) && Late(t, traces) && |t.jobs| == |s.jobs| && !t.jobs[j].stage.Waiting?
    ensures Due(t.jobs[j]) == Due(s.jobs[j])
    ensures forall g | g in held && g < |s.jobs| :: SameWork(s.jobs[g], t.jobs[g]) && Due(t.jobs[g]) == Due(s.jobs[g])
  {
    acts, t := LaunchBeside(s, traces, held, j);
    SparedDue(s, t, held + {j}, j);
    forall g | g in held && g < |s.jobs| ensures SameWork(s.jobs[g], t.jobs[g]) && Due(t.jobs[g]) == Due(s.jobs[g]) {
      SparedDue(s, t, held + {j}, g);
    }
  }

  lemma RunAll(s: System, traces: seq<seq<Event>>, j: nat) returns (acts: seq<Action>, t: System)
    requires Late(s, traces) && j < |s.jobs| && !s.jobs[j].stage.Waiting? && Due(s.jobs[j]) != []
    ensures Runs(s, acts, t) && Late(t, traces) && |t.jobs| == |s.jobs| && FullPends(t, j) && Due(t.jobs[j]) == []
    ensures forall h | 0 <= h < |s.jobs| && h != j :: t.jobs[h] == s.jobs[h]
    ensures t.agg.merged == s.agg.merged + Due(s.jobs[j])
  {
    var due := Due(s.jobs[j]);
    acts, t := RunAlone(s, traces, j, |due|);
    assert due[..|due|] == due;
    assert |Due(t.jobs[j])| == 0;
  }

  /** Goroutine a makes all its merges while those in held do nothing. */
  lemma MakeAll(s: System, traces: seq<seq<Event>>, held: set<nat>, a: nat)
    returns (acts: seq<Action>, t: System, base: seq<Event>)
    requires Late(s, traces) && a < |s.jobs| && a !in held && |Below(held, a)| < MAX_JOBS && Due(s.jobs[a]) != []
    ensures Runs(s, acts, t) && Late(t, traces) && FullPends(t, a) && Due(t.jobs[a]) == []
    ensures |t.jobs| == |s.jobs| && forall g | g in held && g < |s.jobs| :: Due(t.jobs[g]) == Due(s.jobs[g])
    ensures t.agg.merged == base + Due(s.jobs[a])
  {
    var a1, s1 := Launched(s, traces, held, a);
    var a2, s2 := RunAll(s1, traces, a);
    RunsAppend(s, a1, s1, a2, s2);
    acts, t, base := a1 + a2, s2, s1.agg.merged;
  }

  lemma ListersBelow(traces: seq<seq<Event>>, prog: seq<nat>, r: nat, order: seq<nat>, id: string, a: nat)
    requires Extent(traces, prog) && a <= |traces|
    ensures Below(Listing(traces, prog, r, order, id, |traces|), a) == Listing(traces, prog, r, order, id, a)
  {
  }

  /** None of those that list the id has merged, so nobody has listed it. */
  lemma NobodyListed(s: System, acts: seq<Action>, t: System, traces: seq<seq<Event>>, prog: seq<nat>, r: nat,
                     order: seq<nat>, id: string)
    requires Shared(s, traces, prog, r, order) && Runs(s, acts, t) && |t.jobs| == |traces|
    requires forall g | 0 <= g < |traces| && id in Table(Share(traces, prog, r, order, g)) ::
      Due(t.jobs[g]) == Share(traces, prog, r, order, g)
    ensures id !in Table(t.agg.merged)
  {
    if id in Table(t.agg.merged) {
      var g, made := MadeLast(s, acts, t, traces, prog, r, order, id);
      TableAppend(made, Due(t.jobs[g]), id);
      NothingMade(made, Due(t.jobs[g]));
    }
  }

  lemma NothingMade(made: seq<Event>, due: seq<Event>)
    requires made + due == due
    ensures made == []
  {
    assert |made| == 0;
  }

  lemma MakeUnlisted(s: System, traces: seq<seq<Event>>, held: set<nat>, a: nat, b: nat, id: string)
    returns (acts: seq<Action>, t: System)
    requires Late(s, traces) && a < |s.jobs| && a !in held && |Below(held, a)| < MAX_JOBS && Due(s.jobs[a]) != []
    requires b in held && b < |s.jobs| && id in Table(Due(s.jobs[b]))
    ensures Runs(s, acts, t) && |t.jobs| == |s.jobs|
    ensures forall g | g in held && g < |s.jobs| :: Due(t.jobs[g]) == Due(s.jobs[g])
    ensures id !in Table(t.agg.merged) ==> Poised(t, traces, a, b, id)
  {
    var base;
    acts, t, base := MakeAll(s, traces, held, a);
    if id !in Table(t.agg.merged) {
      PoisedAt(t, traces, a, b, id);
    }
  }

  lemma ListersWait(s: System, t: System, traces: seq<seq<Event>>, prog: seq<nat>, r: nat, order: seq<nat>,
                    held: set<nat>, id: string)
    requires Shared(s, traces, prog, r, order) && held == Listing(traces, prog, r, order, id, |traces|)
    requires |t.jobs| == |s.jobs| && forall g | g in held && g < |s.jobs| :: Due(t.jobs[g]) == Due(s.jobs[g])
    ensures |t.jobs| == |traces|
    ensures forall g | 0 <= g < |traces| && id in Table(Share(traces, prog, r, order, g)) ::
      Due(t.jobs[g]) == Share(traces, prog, r, order, g)
  {
    forall g | 0 <= g < |traces| && id in Table(Share(traces, prog, r, order, g))
      ensures Due(t.jobs[g]) == Share(traces, prog, r, order, g)
    {
      assert g in held;
    }
  }

  lemma ReachUntouched(s: System, traces: seq<seq<Event>>, prog: seq<nat>, r: nat, order: seq<nat>, a: nat, b: nat,
                    id: string)
    returns (acts: seq<Action>, t: System)
    requires Shared(s, traces, prog, r, order) && a < |traces| && b < |traces| && a != b
    requires Share(traces, prog, r, order, a) != [] && id in Table(Share(traces, prog, r, order, b))
    requires Untouched(traces, prog, r, order, a, id)
    ensures Runs(s, acts, t) && Poised(t, traces, a, b, id)
  {
    var held := Listing(traces, prog, r, order, id, |traces|);
    ListersBelow(traces, prog, r, order, id, a);
    acts, t := MakeUnlisted(s, traces, held, a, b, id);
    ListersWait(s, t, traces, prog, r, order, held, id);
    NobodyListed(s, acts, t, traces, prog, r, order, id);
  }

  /** Goroutine a's own list has another item under the id. */
  lemma ReachOwnOlder(s: System, traces: seq<seq<Event>>, a: nat, b: nat, id: string)
    returns (acts: seq<Action>, t: System)
    requires Late(s, traces) && a < |s.jobs| && b < |s.jobs| && a != b
    requires id in Table(Due(s.jobs[a])) && id in Table(Due(s.jobs[b]))
    requires Table(Due(s.jobs[a]))[id] != Table(Due(s.jobs[b]))[id]
    ensures Runs(s, acts, t) && Poised(t, traces, a, b, id)
  {
    BelowGrows({b}, a);
    var base;
    acts, t, base := MakeAll(s, traces, {b}, a);
    assert b in {b};
    TableAppend(base, Due(s.jobs[a]), id);
    PoisedAt(t, traces, a, b, id);
  }

  /** Goroutine a is about to make its last merge; b and c have not begun. */
  lemma ReachLastMerge(s: System, traces: seq<seq<Event>>, a: nat, b: nat, c: nat, x: Event)
    returns (acts: seq<Action>, t: System)
    requires Late(s, traces) && a < |s.jobs| && b < |s.jobs| && c < |s.jobs| && a != b && a != c
    requires Due(s.jobs[a]) != [] && Due(s.jobs[a])[|Due(s.jobs[a])| - 1] == x
    ensures Runs(s, acts, t) && Late(t, traces) && |t.jobs| == |s.jobs|
    ensures Due(t.jobs[a]) == [x] && t.jobs[a].todo != [] && t.jobs[a].todo[0].Merge?
    ensures Due(t.jobs[b]) == Due(s.jobs[b]) && Due(t.jobs[c]) == Due(s.jobs[c])
  {
    var a1, s1 := LaunchedFirst(s, traces, a, b, c);
    var a2, s2 := RunToLast(s1, traces, a, x);
    acts, t := a1 + a2, s2;
    assert Late(t, traces) && t.jobs[b] == s1.jobs[b] && t.jobs[c] == s1.jobs[c];
    RunsAppend(s, a1, s1, a2, t);
  }

  lemma LaunchedFirst(s: System, traces: seq<seq<Event>>, a: nat, b: nat, c: nat)
    returns (acts: seq<Action>, t: System)
    requires Late(s, traces) && a < |s.jobs| && b < |s.jobs| && c < |s.jobs|
    ensures Runs(s, acts, t) && Late(t, traces) && |t.jobs| == |s.jobs| && !t.jobs[a].stage.Waiting?
    ensures Due(t.jobs[a]) == Due(s.jobs[a]) && Due(t.jobs[b]) == Due(s.jobs[b]) && Due(t.jobs[c]) == Due(s.jobs[c])
  {
    var held := {b, c};
    BelowGrows(held, a);
    acts, t := Launched(s, traces, held, a);
    assert b in held && c in held;
  }

  lemma RunToLast(s: System, traces: seq<seq<Event>>, a: nat, x: Event) returns (acts: seq<Action>, t: System)
    requires Late(s, traces) && a < |s.jobs| && !s.jobs[a].stage.Waiting?
    requires Due(s.jobs[a]) != [] && Due(s.jobs[a])[|Due(s.jobs[a])| - 1] == x
    ensures Runs(s, acts, t) && Late(t, traces) && |t.jobs| == |s.jobs|
    ensures Due(t.jobs[a]) == [x] && t.jobs[a].todo != [] && t.jobs[a].todo[0].Merge?
    ensures forall h | 0 <= h < |s.jobs| && h != a :: t.jobs[h] == s.jobs[h]
  {
    var due := Due(s.jobs[a]);
    var a1, s1 := RunAlone(s, traces, a, |due| - 1);
    ButLast(due, Due(s1.jobs[a]));
    var a2, s2 := RunToMerge(s1, traces, a);
    RunsAppend(s, a1, s1, a2, s2);
    acts, t := a1 + a2, s2;
    assert [] + Due(s2.jobs[a]) == Due(s2.jobs[a]);
  }

  lemma ButLast(due: seq<Event>, left: seq<Event>)
    requires due != [] && due == due[..|due| - 1] + left
    ensures left == [due[|due| - 1]]
  {
    assert |left| == 1 && left[0] == due[|due| - 1];
  }

  /** Goroutine c merges the first n of its list while a and b do nothing. */
  lemma ReachOther(s: System, traces: seq<seq<Event>>, a: nat, b: nat, c: nat, n: nat)
    returns (acts: seq<Action>, t: System, base: seq<Event>)
    requires Late(s, traces) && a < |s.jobs| && b < |s.jobs| && c < |s.jobs| && a != b && a != c
    requires n <= |Due(s.jobs[c])|
    ensures Runs(s, acts, t) && Late(t, traces) && |t.jobs| == |s.jobs| && SameWork(s.jobs[a], t.jobs[a])
    ensures t.agg.merged == base + Due(s.jobs[c])[..n]
    ensures Due(s.jobs[b]) == (if b == c then Due(s.jobs[c])[..n] else []) + Due(t.jobs[b])
  {
    BelowGrows({a, b}, c);
    var a1, s1 := Launched(s, traces, {a, b}, c);
    assert a in {a, b} && b in {a, b};
    var a2, s2 := RunAlone(s1, traces, c, n);
    RunsAppend(s, a1, s1, a2, s2);
    acts, t, base := a1 + a2, s2, s1.agg.merged;
    LeftBeside(s1, s2, c, b, Due(s1.jobs[c])[..n]);
  }

  lemma LeftBeside(s: System, t: System, c: nat, b: nat, made: seq<Event>)
    requires OnlyIts(s, t, c, made) && b < |s.jobs|
    ensures Due(s.jobs[b]) == (if b == c then made else []) + Due(t.jobs[b])
  {
    assert [] + Due(t.jobs[b]) == Due(t.jobs[b]);
  }

  lemma LastMergeStep(s: System, traces: seq<seq<Event>>, a: nat, b: nat) returns (act: Action)
    requires Late(s, traces) && a < |s.jobs| && b < |s.jobs| && a != b && |Due(s.jobs[a])| == 1
    requires s.jobs[a].todo != [] && s.jobs[a].todo[0].Merge?
    ensures Enabled(s, act) && Late(Next(s, act), traces) && b < |Next(s, act).jobs| && FullPends(Next(s, act), a)
    ensures Due(Next(s, act).jobs[a]) == [] && Due(Next(s, act).jobs[b]) == Due(s.jobs[b])
    ensures Next(s, act).agg.merged == s.agg.merged + Due(s.jobs[a])
  {
    var c := SomeChoice(s.agg, s.jobs[a].todo[0]);
    act := Exec(a, c);
    NextLate(s, traces, act);
    ExecPends(s, traces, a, c);
    MergeTakes(s, traces, a, c);
    assert Due(s.jobs[a]) == [Due(s.jobs[a])[0]];
  }

  /** Goroutine a makes its last merge, which does not list the id. */
  lemma MakeLast(s: System, traces: seq<seq<Event>>, a: nat, b: nat, id: string)
    returns (act: Action)
    requires Late(s, traces) && a < |s.jobs| && b < |s.jobs| && a != b && |Due(s.jobs[a])| == 1
    requires s.jobs[a].todo != [] && s.jobs[a].todo[0].Merge? && id !in Table(Due(s.jobs[a]))
    requires id in Table(Due(s.jobs[b])) && id in Table(s.agg.merged)
    requires Table(s.agg.merged)[id] != Table(Due(s.jobs[b]))[id]
    ensures Enabled(s, act) && |s.agg.perJob| == |s.jobs| && Poised(Next(s, act), traces, a, b, id)
  {
    act := LastMergeStep(s, traces, a, b);
    TableAppend(s.agg.merged, Due(s.jobs[a]), id);
    PoisedAt(Next(s, act), traces, a, b, id);
  }

  lemma LeftOfList(made: seq<Event>, left: seq<Event>, id: string)
    requires id in Table(made + left) && id in Table(made) && Table(made)[id] != Table(made + left)[id]
    ensures id in Table(left) && Table(left)[id] == Table(made + left)[id]
  {
    TableAppend(made, left, id);
  }

  /** Another goroutine c has listed another item under the id, on which a's last merge comes. */
  lemma ReachOtherOlder(s: System, traces: seq<seq<Event>>, a: nat, b: nat, id: string, c: nat, n: nat)
    returns (acts: seq<Action>, t: System)
    requires Late(s, traces) && a < |s.jobs| && b < |s.jobs| && c < |s.jobs| && a != b && a != c
    requires Due(s.jobs[a]) != [] && id !in Table([Due(s.jobs[a])[|Due(s.jobs[a])| - 1]])
    requires id in Table(Due(s.jobs[b])) && n <= |Due(s.jobs[c])| && id in Table(Due(s.jobs[c])[..n])
    requires Table(Due(s.jobs[c])[..n])[id] != Table(Due(s.jobs[b]))[id]
    ensures Runs(s, acts, t) && Poised(t, traces, a, b, id)
  {
    var due := Due(s.jobs[a]);
    var a1, s1 := ReachLastMerge(s, traces, a, b, c, due[|due| - 1]);
    var a2, s2, base := ReachOther(s1, traces, a, b, c, n);
    TableAppend(base, Due(s1.jobs[c])[..n], id);
    if b == c {
      LeftOfList(Due(s1.jobs[c])[..n], Due(s2.jobs[b]), id);
    } else {
      assert [] + Due(s2.jobs[b]) == Due(s2.jobs[b]);
    }
    var act := MakeLast(s2, traces, a, b, id);
    RunsAppend(s, a1, s1, a2, s2);
    RunsOne(s, a1 + a2, s2, act);
    acts, t := a1 + a2 + [act], Next(s2, act);
  }

  // ----- exactly -----

  lemma ReachPoised(s: System, traces: seq<seq<Event>>, launched: nat, prog: seq<nat>, r: nat, order: seq<nat>,
                    a: nat, b: nat, id: string)
    returns (acts: seq<Action>, t: System)
    requires Lags(traces, launched, prog, r, order, a, b, id) && Shared(s, traces, prog, r, order)
    ensures Runs(s, acts, t) && Poised(t, traces, a, b, id)
  {
    if Untouched(traces, prog, r, order, a, id) {
      acts, t := ReachUntouched(s, traces, prog, r, order, a, b, id);
    } else {
      var c, n :| Older(traces, prog, r, order, a, b, id, c, n);
      OlderIsDue(s, traces, prog, r, order, a, b, id, c, n);
      acts, t := FromOlderDue(s, traces, a, b, id, c, n);
    }
  }

  /** The condition in terms of what the goroutines have to merge. */
  ghost predicate OlderDue(s: System, a: nat, b: nat, id: string, c: nat, n: nat) {
    && a < |s.jobs| && b < |s.jobs| && c < |s.jobs| && a != b
    && Due(s.jobs[a]) != [] && id in Table(Due(s.jobs[b]))
    && n <= |Due(s.jobs[c])| && id in Table(Due(s.jobs[c])[..n])
    && Table(Due(s.jobs[c])[..n])[id] != Table(Due(s.jobs[b]))[id]
    && (if c == a then n == |Due(s.jobs[a])| else id !in Table([Due(s.jobs[a])[|Due(s.jobs[a])| - 1]]))
  }

  lemma OlderIsDue(s: System, traces: seq<seq<Event>>, prog: seq<nat>, r: nat, order: seq<nat>, a: nat, b: nat,
                   id: string, c: nat, n: nat)
    requires Extent(traces, prog) && |s.jobs| == |traces| && a < |traces| && b < |traces| && c < |traces| && a != b
    requires Due(s.jobs[a]) == Share(traces, prog, r, order, a) && Due(s.jobs[b]) == Share(traces, prog, r, order, b)
    requires Due(s.jobs[c]) == Share(traces, prog, r, order, c)
    requires Share(traces, prog, r, order, a) != [] && id in Table(Share(traces, prog, r, order, b))
    requires Older(traces, prog, r, order, a, b, id, c, n)
    ensures OlderDue(s, a, b, id, c, n)
  {
  }

  lemma FromOlderDue(s: System, traces: seq<seq<Event>>, a: nat, b: nat, id: string, c: nat, n: nat)
    returns (acts: seq<Action>, t: System)
    requires Late(s, traces) && OlderDue(s, a, b, id, c, n)
    ensures Runs(s, acts, t) && Poised(t, traces, a, b, id)
  {
    if c == a {
      assert Due(s.jobs[a])[..n] == Due(s.jobs[a]);
      acts, t := ReachOwnOlder(s, traces, a, b, id);
    } else {
      acts, t := ReachOtherOlder(s, traces, a, b, id, c, n);
    }
  }

  lemma PlanOpens(mid: System, traces: seq<seq<Event>>, launched: nat, prog: seq<nat>, r: nat, c: Choice)
    requires Fires(traces, launched, prog, r) && AtOpening(mid, traces, launched, prog, r, c)
    ensures OpensAt(mid, traces, prog, r, c)
  {
    forall g | 0 <= g < |traces|
      ensures PartsOf(Merges, mid, g) == Parts([], TasksBefore(traces, prog, g), TasksBehind(traces, prog, g))
    {
      PlanParts(Merges, mid, traces, launched, prog, r, c, g);
    }
  }

  /** Where it can, the last snapshot does lag. */
  lemma LastLags(traces: seq<seq<Event>>, launched: nat, prog: seq<nat>, r: nat, order: seq<nat>, a: nat, b: nat,
                 id: string)
    returns (acts: seq<Action>, t: System, k: nat)
    requires Lags(traces, launched, prog, r, order, a, b, id)
    ensures Runs(Init(traces), acts, t) && t.main.Merged? && LastTask(t.agg.log, k)
    ensures !Lists(t.agg.log[k].items, t.agg.tasks)
  {
    var c := Choice(order, []);
    var a1, mid := ReachOpening(traces, launched, prog, r, c);
    PlanOpens(mid, traces, launched, prog, r, c);
    RunsOne(Init(traces), a1, mid, Exec(r, c));
    OpensShared(traces, a1, mid, prog, r, c);
    var s := Next(mid, Exec(r, c));
    var a2, s2 := ReachPoised(s, traces, launched, prog, r, order, a, b, id);
    var a3;
    a3, t, k := PoisedLags(s2, traces, a, b, id);
    RunsAppend(Init(traces), a1 + [Exec(r, c)], s, a2, s2);
    RunsAppend(Init(traces), a1 + [Exec(r, c)] + a2, s2, a3, t);
    acts := a1 + [Exec(r, c)] + a2 + a3;
    TaskTable(traces, acts, t);
  }

  /** In every complete run the snapshot forwarded last lists the whole final table. */
  ghost predicate AlwaysFull(traces: seq<seq<Event>>) {
    forall acts: seq<Action>, t: System, k: nat
      | Runs(Init(traces), acts, t) && t.main.Merged? && LastTask(t.agg.log, k) ::
      Lists(t.agg.log[k].items, t.agg.tasks)
  }

  /** No snapshot is forwarded before phase 2. */
  lemma TasksNeedReady(traces: seq<seq<Event>>, acts: seq<Action>, t: System, k: nat)
    requires Runs(Init(traces), acts, t) && LastTask(t.agg.log, k)
    ensures t.agg.readyEmitted
  {
    InitInv(traces);
    RunInv(Init(traces), acts, t, traces);
    if !t.agg.readyEmitted {
      EarlyLog(t, k);
    }
  }

  lemma EarlyLog(t: System, k: nat)
    requires Split(t) && !t.agg.readyEmitted && k < |t.agg.log|
    ensures !t.agg.log[k].kind.Task()
  {
    assert t.agg.log[k] in t.agg.log;
  }

  /**
   For every fan-out: the last snapshot of every complete run lists the whole table iff phase 2 can never open so that
   some goroutine's last merge precedes another's that changes the table for good.
   */
  lemma LastFullExactly(traces: seq<seq<Event>>)
    ensures AlwaysFull(traces) <==> !CanLag(traces)
  {
    if CanLag(traces) {
      var launched: nat, prog: seq<nat>, r: nat, order: seq<nat>, a: nat, b: nat, id: string :|
        Lags(traces, launched, prog, r, order, a, b, id);
      var acts, t, k := LastLags(traces, launched, prog, r, order, a, b, id);
    } else {
      forall acts: seq<Action>, t: System, k: nat
        | Runs(Init(traces), acts, t) && t.main.Merged? && LastTask(t.agg.log, k)
        ensures Lists(t.agg.log[k].items, t.agg.tasks)
      {
        TasksNeedReady(traces, acts, t, k);
        if !Lists(t.agg.log[k].items, t.agg.tasks) {
          FindLag(traces, acts, t, k);
        }
      }
    }
  }

  // ----- at its smallest -----

  /** A group that is ready and then creates one task. */
  function Creating(id: string): seq<Event> {
    [Event(Ready, Outer, "", [], ""), Event(TaskCreate, Outer, "", [Item(id, "")], "")]
  }

  function Two(): seq<seq<Event>> { [Creating("x"), Creating("y")] }

  lemma CreatingFires(prog: seq<nat>)
    requires prog == [1, 0]
    ensures Fires(Two(), 2, prog, 1)
  {
    var sent := Stamp(0, Two()[0]);
    assert |Two()| == 2 && |Two()[0]| == |Two()[1]| == 2 && prog[0] == 1 && prog[1] == 0;
    assert sent[..1] == [sent[0]] && Stamp(1, Two()[1])[..0] == [];
    SumSmall(IsReady(), sent[0], sent[0]);
    assert Extent(Two(), prog) && Unfinished(Two(), prog, 0) == 0 && Unfinished(Two(), prog, 1) == 1;
    assert CountedBy(Two(), prog, 0) == 0 && CountedBy(Two(), prog, 1) == 1 && CountedBy(Two(), prog, 2) == 1;
  }

  lemma CreatingTasks(i: nat, id: string)
    ensures var sent := Stamp(i, Creating(id));
      && Picks(Merges, sent[1..], i) == [sent[1]] && Picks(Merges, sent[..1], i) == []
      && Picks(Merges, sent, i) == [sent[1]] && Table([sent[1]]) == map[id := Item(id, "")]
  {
    var sent := Stamp(i, Creating(id));
    assert sent == [sent[0]] + [sent[1]] && sent[1..] == [sent[1]] && sent[..1] == [sent[0]];
    PicksAppend(Merges, [sent[0]], [sent[1]], i);
    PicksOne(Merges, sent[0], i);
    PicksOne(Merges, sent[1], i);
    OneTask(sent[1]);
  }

  lemma CreatingReplay(prog: seq<nat>, order: seq<nat>)
    requires Extent(Two(), prog) && prog == [1, 0] && order == [0, 1]
    ensures ReplayShare(Two(), prog, order) == []
  {
    CreatingTasks(0, "x");
    assert TasksBefore(Two(), prog, 0) == [];
    assert Stamp(1, Two()[1])[..0] == [] && TasksBefore(Two(), prog, 1) == [];
    assert order[1..] == [1] && [1][1..] == [];
    assert ReplayShare(Two(), prog, [1]) == TasksBefore(Two(), prog, 1) + ReplayShare(Two(), prog, [1][1..]);
  }

  lemma CreatingShares(prog: seq<nat>, order: seq<nat>)
    requires Extent(Two(), prog) && prog == [1, 0] && order == [0, 1]
    ensures Share(Two(), prog, 1, order, 0) != []
    ensures Table(Share(Two(), prog, 1, order, 0)) == map["x" := Item("x", "")]
    ensures Table(Share(Two(), prog, 1, order, 1)) == map["y" := Item("y", "")]
  {
    CreatingTasks(0, "x");
    CreatingTasks(1, "y");
    CreatingReplay(prog, order);
    var all := Stamp(1, Two()[1]);
    assert all[0..] == all;
    assert TasksBehind(Two(), prog, 1) == [all[1]] && [] + [all[1]] == [all[1]];
  }

  lemma CreatingLags(prog: seq<nat>, order: seq<nat>)
    requires Extent(Two(), prog) && prog == [1, 0] && order == [0, 1]
    ensures Lags(Two(), 2, prog, 1, order, 0, 1, "y")
  {
    CreatingFires(prog);
    CreatingShares(prog, order);
    assert Listing(Two(), prog, 1, order, "y", 0) == {};
    assert Untouched(Two(), prog, 1, order, 0, "y");
    assert Range(2) == [0, 1];
  }

  /** Of two groups that create a task each, the snapshot forwarded last can miss one. */
  lemma OneTaskMissing()
    ensures !AlwaysFull([Creating("x"), Creating("y")])
  {
    var prog: seq<nat>, order: seq<nat> := [1, 0], [0, 1];
    assert |Creating("x")| == 2;
    CreatingLags(prog, order);
    LastFullExactly(Two());
  }
}
