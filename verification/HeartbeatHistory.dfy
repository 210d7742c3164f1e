/**
 What the tracker says of an id, in the observations themselves: which of them an entry still
 counts, and what counters, verdict and date it makes of them (internal/chatsession/heartbeat.go).
 */
module HeartbeatHistory {
  import opened HeartbeatSpec

  // ----- which observations count -----

  lemma SinceNext(history: seq<Observation>, id: string, x: string)
    requires history != []
    ensures var n := |history| - 1;
      x in Since(history, id) <==>
        history[n].id != id && (x in Since(history[..n], id) || (x == history[n].id && x != ""))
  {
  }

  /** x was observed, and the id not since. */
  ghost predicate SeenSince(history: seq<Observation>, id: string, x: string) {
    exists k | 0 <= k < |history| :: history[k].id == x && forall j | k < j < |history| :: history[j].id != id
  }

  lemma SeenSinceNext(history: seq<Observation>, id: string, x: string)
    requires history != [] && x != id
    ensures var n := |history| - 1;
      SeenSince(history, id, x) <==> history[n].id == x || (history[n].id != id && SeenSince(history[..n], id, x))
  {
    var n := |history| - 1;
    var init := history[..n];
    if history[n].id != id && SeenSince(init, id, x) {
      var k :| 0 <= k < n && init[k].id == x && forall j | k < j < n :: init[j].id != id;
      assert history[k].id == x && forall j | k < j < n :: history[j].id == init[j].id;
    }
    if history[n].id != x && SeenSince(history, id, x) {
      var k :| 0 <= k < |history| && history[k].id == x && forall j | k < j < |history| :: history[j].id != id;
      assert k < n && init[k].id == x && forall j | k < j < n :: init[j].id == history[j].id;
    }
  }

  /** The ids observed since the id was. */
  lemma {:induction false} SinceMeans(history: seq<Observation>, id: string, x: string)
    ensures x in Since(history, id) <==> x != id && x != "" && SeenSince(history, id, x)
  {
    if history != [] {
      SinceNext(history, id, x);
      SinceMeans(history[..|history| - 1], id, x);
      if x != id {
        SeenSinceNext(history, id, x);
      }
    }
  }

  /** Fewer than cap other ids were observed since. */
  ghost predicate Near(cap: nat, history: seq<Observation>, id: string) { |Since(history, id)| < cap }

  ghost predicate NearAt(cap: nat, history: seq<Observation>, id: string, q: nat)
    requires q <= |history|
  {
    Near(cap, history[..q], id)
  }

  /** Observation p is one of the id, which has been among the cap ids observed last ever since. */
  ghost predicate Held(cap: nat, history: seq<Observation>, id: string, p: nat) {
    && p < |history| && history[p].id == id
    && forall q | p < q <= |history| :: NearAt(cap, history, id, q)
  }

  lemma SameNear(cap: nat, history: seq<Observation>, init: seq<Observation>, id: string, q: nat)
    requires q <= |init| && init <= history
    ensures NearAt(cap, history, id, q) <==> NearAt(cap, init, id, q)
  {
    assert history[..q] == init[..q];
  }

  lemma NearUpTo(cap: nat, history: seq<Observation>, init: seq<Observation>, id: string, p: nat)
    requires history != [] && init == history[..|history| - 1] && p < |history|
    ensures (forall q | p < q <= |history| :: NearAt(cap, history, id, q)) <==>
      Near(cap, history, id) && forall q | p < q <= |init| :: NearAt(cap, init, id, q)
  {
    assert history[..|history|] == history;
    assert NearAt(cap, history, id, |history|) <==> Near(cap, history, id);
    forall q | 0 <= q <= |init| ensures NearAt(cap, history, id, q) <==> NearAt(cap, init, id, q) {
      SameNear(cap, history, init, id, q);
    }
  }

  lemma HeldNext(cap: nat, history: seq<Observation>, id: string, p: nat)
    requires cap > 0 && history != []
    ensures var n := |history| - 1;
      Held(cap, history, id, p) <==>
        Near(cap, history, id) && (Held(cap, history[..n], id, p) || (p == n && history[n].id == id))
  {
    var n := |history| - 1;
    if p < |history| {
      NearUpTo(cap, history, history[..n], id, p);
    }
  }

  /** They are the observations of the current stay. */
  lemma {:induction false} StayAtMeans(cap: nat, history: seq<Observation>, id: string, p: nat)
    requires cap > 0
    ensures p in StayAt(cap, history, id) <==> Held(cap, history, id, p)
  {
    if history != [] {
      var n := |history| - 1;
      StayAtMeans(cap, history[..n], id, p);
      HeldNext(cap, history, id, p);
      if history[n].id == id {
        assert |Since(history, id)| == 0;
      }
    }
  }

  ghost predicate Ascending(at: seq<nat>) { forall i, j | 0 <= i < j < |at| :: at[i] < at[j] }

  lemma {:induction false} StayAscends(cap: nat, history: seq<Observation>, id: string)
    ensures Ascending(StayAt(cap, history, id))
    ensures forall p | p in StayAt(cap, history, id) :: p < |history|
  {
    if history != [] {
      var n := |history| - 1;
      var before, at := StayAt(cap, history[..n], id), StayAt(cap, history, id);
      StayAscends(cap, history[..n], id);
      if history[n].id == id {
        assert at == before + [n];
        assert forall i | 0 <= i < |before| :: before[i] in before;
      }
    }
  }

  // ----- the counters -----

  ghost function Places(history: seq<Observation>, at: seq<nat>, e: Event): set<nat> {
    set p | p in at && p < |history| && history[p].event == e
  }

  lemma PlacesSnoc(history: seq<Observation>, at: seq<nat>, p: nat, e: Event)
    requires p < |history| && p !in at
    ensures |Places(history, at + [p], e)| == |Places(history, at, e)| + if history[p].event == e then 1 else 0
  {
    if history[p].event == e {
      assert Places(history, at + [p], e) == Places(history, at, e) + {p};
    } else {
      assert Places(history, at + [p], e) == Places(history, at, e);
    }
  }

  lemma {:induction false} CountPlaces(history: seq<Observation>, at: seq<nat>, stay: seq<Observation>, e: Event)
    requires Ascending(at) && |at| == |stay|
    requires forall m | 0 <= m < |at| :: at[m] < |history| && history[at[m]] == stay[m]
    ensures Count(stay, e) == |Places(history, at, e)|
  {
    if stay != [] {
      var n := |stay| - 1;
      assert at == at[..n] + [at[n]];
      CountPlaces(history, at[..n], stay[..n], e);
      PlacesSnoc(history, at[..n], at[n], e);
    }
  }

  ghost function HeldEvents(cap: nat, history: seq<Observation>, id: string, e: Event): set<nat> {
    set p | 0 <= p < |history| && Held(cap, history, id, p) && history[p].event == e
  }

  lemma StayFacts(cap: nat, history: seq<Observation>, id: string)
    requires cap > 0
    ensures var at, stay := StayAt(cap, history, id), Stay(cap, history, id);
      && Ascending(at) && |at| == |stay|
      && (forall m | 0 <= m < |at| :: at[m] < |history| && history[at[m]] == stay[m] && Held(cap, history, id, at[m]))
      && forall p: nat | Held(cap, history, id, p) :: p in at
  {
    var at := StayAt(cap, history, id);
    StayAscends(cap, history, id);
    StayPlaces(cap, history, id);
    forall p: nat ensures p in at <==> Held(cap, history, id, p) {
      StayAtMeans(cap, history, id, p);
    }
  }

  /** The counters count the observations that are still held, event by event. */
  lemma CountersSay(cap: nat, history: seq<Observation>, id: string)
    requires cap > 0 && id != ""
    ensures var beat := Lookup(Run(cap, history).beats, id);
      && beat.thinkCount == |HeldEvents(cap, history, id, Thinking)|
      && beat.toolCount == |HeldEvents(cap, history, id, ToolStart)|
  {
    var at, stay := StayAt(cap, history, id), Stay(cap, history, id);
    StayFacts(cap, history, id);
    SnapshotIsStay(cap, history, id);
    BeatsMeaning(stay);
    CountPlaces(history, at, stay, Thinking);
    CountPlaces(history, at, stay, ToolStart);
    assert Places(history, at, Thinking) == HeldEvents(cap, history, id, Thinking);
    assert Places(history, at, ToolStart) == HeldEvents(cap, history, id, ToolStart);
  }

  // ----- the verdict -----

  /** The first terminal observation of a stay decides: a failed result or a failing end is a failure, any other not. */
  lemma VerdictExactly(stay: seq<Observation>, k: nat)
    requires k < |stay| && (stay[k].event.Result? || stay[k].event.PromptEnded?)
    requires forall j | 0 <= j < k :: !stay[j].event.Result? && !stay[j].event.PromptEnded?
    ensures Beats(stay).status == Failed <==>
      stay[k].event == Result(true) || stay[k].event == PromptEnded(Failing)
    ensures Beats(stay).status == Done <==>
      stay[k].event in {Result(false), PromptEnded(Clean), PromptEnded(Unstated)}
  {
    BeatsMeaning(stay);
    assert FirstTerminal(stay, k);
  }

  /** Observation p is the first terminal one of those held. */
  ghost predicate Decides(cap: nat, history: seq<Observation>, id: string, p: nat) {
    && Held(cap, history, id, p) && (history[p].event.Result? || history[p].event.PromptEnded?)
    && forall o: nat | o < p && Held(cap, history, id, o) ::
         !history[o].event.Result? && !history[o].event.PromptEnded?
  }

  /** A snapshot is running exactly while nothing terminal is held; else the first terminal observation decides. */
  lemma StatusSays(cap: nat, history: seq<Observation>, id: string)
    requires cap > 0 && id != ""
    ensures var status := Lookup(Run(cap, history).beats, id).status;
      status == Running <==> forall p: nat | Held(cap, history, id, p) ::
        !history[p].event.Result? && !history[p].event.PromptEnded?
  {
    var at, stay := StayAt(cap, history, id), Stay(cap, history, id);
    StayFacts(cap, history, id);
    SnapshotIsStay(cap, history, id);
    BeatsMeaning(stay);
    if k :| 0 <= k < |stay| && Terminal(stay[k].event) {
      assert Held(cap, history, id, at[k]) && history[at[k]] == stay[k];
    } else {
      forall p: nat | Held(cap, history, id, p) ensures !history[p].event.Result? && !history[p].event.PromptEnded? {
        var m :| 0 <= m < |at| && at[m] == p;
        assert !Terminal(stay[m].event);
      }
    }
  }

  lemma VerdictSays(cap: nat, history: seq<Observation>, id: string, p: nat)
    requires cap > 0 && id != "" && Decides(cap, history, id, p)
    ensures var status := Lookup(Run(cap, history).beats, id).status;
      && (status == Failed <==> history[p].event == Result(true) || history[p].event == PromptEnded(Failing))
      && (status == Done <==> history[p].event in {Result(false), PromptEnded(Clean), PromptEnded(Unstated)})
  {
    var at, stay := StayAt(cap, history, id), Stay(cap, history, id);
    StayFacts(cap, history, id);
    SnapshotIsStay(cap, history, id);
    var k :| 0 <= k < |at| && at[k] == p;
    forall j | 0 <= j < k ensures !stay[j].event.Result? && !stay[j].event.PromptEnded? {
      assert at[j] < p && Held(cap, history, id, at[j]);
    }
    VerdictExactly(stay, k);
  }

  /** The last held observation dates the entry; without any it reads as zero. */
  lemma DateSays(cap: nat, history: seq<Observation>, id: string)
    requires cap > 0 && id != ""
    ensures var beat := Lookup(Run(cap, history).beats, id);
      && (forall p: nat | Held(cap, history, id, p) && (forall o: nat | Held(cap, history, id, o) :: o <= p) ::
            beat.lastBeatAt == history[p].at)
      && ((forall p: nat :: !Held(cap, history, id, p)) ==> beat == Beat(0, 0, 0, Running))
  {
    var at, stay := StayAt(cap, history, id), Stay(cap, history, id);
    StayFacts(cap, history, id);
    SnapshotIsStay(cap, history, id);
    BeatsMeaning(stay);
    forall p: nat | Held(cap, history, id, p) && (forall o: nat | Held(cap, history, id, o) :: o <= p)
      ensures Beats(stay).lastBeatAt == history[p].at
    {
      var m :| 0 <= m < |at| && at[m] == p;
      assert Held(cap, history, id, at[|at| - 1]);
    }
    if stay != [] {
      assert Held(cap, history, id, at[0]);
    }
  }

  // ----- what Observe reports -----

  /** A change is visible exactly for thinking, a tool start, and the first terminal observation of those held. */
  lemma ReportsExactly(cap: nat, history: seq<Observation>, id: string, e: Event)
    requires cap > 0 && id != ""
    ensures Visible(Lookup(Run(cap, history).beats, id), e) <==>
      || e.Thinking? || e.ToolStart?
      || ((e.Result? || e.PromptEnded?)
          && forall p: nat | Held(cap, history, id, p) :: !history[p].event.Result? && !history[p].event.PromptEnded?)
  {
    StatusSays(cap, history, id);
  }
}
