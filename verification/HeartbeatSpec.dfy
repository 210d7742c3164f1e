/**
 What the heartbeat tracker amounts to: a bounded map from message id to the
 activity of the current turn (internal/chatsession/heartbeat.go).
 Everything here is a function of the history of observations alone.
 */
module HeartbeatSpec {

  datatype Status = Running | Done | Failed

  // The zero value is what an absent entry reads as.
  datatype Beat = Beat(thinkCount: nat, toolCount: nat, lastBeatAt: int, status: Status)

  const NO_BEAT := Beat(0, 0, 0, Running)

  datatype EndReason = Unstated | Clean | Failing

  datatype Event =
    | Thinking
    | ToolStart
    | Result(failed: bool)
    | PromptEnded(reason: EndReason)
    | Other

  datatype Observation = Observation(id: string, event: Event, at: int)

  // ----- one entry -----

  predicate Terminal(e: Event) { e.Result? || e.PromptEnded? }

  function Verdict(e: Event): Status
    requires Terminal(e)
  {
    match e
    case Result(failed) => if failed then Failed else Done
    case PromptEnded(reason) => if reason == Failing then Failed else Done
  }

  function Beaten(beat: Beat, e: Event, at: int): Beat {
    var now := beat.(lastBeatAt := at);
    match e
    case Thinking => now.(thinkCount := beat.thinkCount + 1)
    case ToolStart => now.(toolCount := beat.toolCount + 1)
    case Other => now
    case _ => if beat.status == Running then now.(status := Verdict(e)) else now
  }

  /** What Observe reports. */
  predicate Visible(beat: Beat, e: Event) {
    e.Thinking? || e.ToolStart? || (Terminal(e) && beat.status == Running)
  }

  /** An entry after a stay in the tracker. */
  function Beats(stay: seq<Observation>): Beat {
    if stay == [] then NO_BEAT
    else
      var n := |stay| - 1;
      Beaten(Beats(stay[..n]), stay[n].event, stay[n].at)
  }

  function Count(stay: seq<Observation>, e: Event): nat {
    if stay == [] then 0
    else
      var n := |stay| - 1;
      Count(stay[..n], e) + if stay[n].event == e then 1 else 0
  }

  ghost predicate FirstTerminal(stay: seq<Observation>, k: nat) {
    && k < |stay| && Terminal(stay[k].event)
    && forall j | 0 <= j < k :: !Terminal(stay[j].event)
  }

  /** Counters count, the first terminal event fixes the verdict, the last observation dates the entry. */
  lemma {:induction false} BeatsMeaning(stay: seq<Observation>)
    ensures Beats(stay).thinkCount == Count(stay, Thinking) && Beats(stay).toolCount == Count(stay, ToolStart)
    ensures stay != [] ==> Beats(stay).lastBeatAt == stay[|stay| - 1].at
    ensures Beats(stay).status == Running <==> forall k | 0 <= k < |stay| :: !Terminal(stay[k].event)
    ensures forall k: nat | FirstTerminal(stay, k) :: Beats(stay).status == Verdict(stay[k].event)
  {
    if stay != [] {
      var n := |stay| - 1;
      var init := stay[..n];
      BeatsMeaning(init);
      forall k: nat | FirstTerminal(stay, k) ensures Beats(stay).status == Verdict(stay[k].event) {
        if k < n {
          assert FirstTerminal(init, k);
        }
      }
      assert forall k | 0 <= k < n :: init[k] == stay[k];
    }
  }

  /** Of a stay's terminal observations exactly the first reports a change. */
  lemma OneVerdictPerStay(stay: seq<Observation>, k: nat)
    requires k < |stay| && Terminal(stay[k].event)
    ensures Visible(Beats(stay[..k]), stay[k].event) <==> FirstTerminal(stay, k)
  {
    BeatsMeaning(stay[..k]);
    assert forall j | 0 <= j < k :: stay[..k][j] == stay[j];
  }

  // ----- the tracker -----

  datatype Tracked = Tracked(order: seq<string>, beats: map<string, Beat>)

  const NOTHING := Tracked([], map[])

  function Lookup(beats: map<string, Beat>, id: string): Beat {
    if id in beats then beats[id] else NO_BEAT
  }

  function IndexOf(order: seq<string>, id: string): (i: nat)
    ensures i <= |order| && (i < |order| <==> id in order)
    ensures forall j | 0 <= j < i :: order[j] != id
    ensures i < |order| ==> order[i] == id
  {
    if order == [] then 0
    else if order[0] == id then 0
    else IndexOf(order[1..], id) + 1
  }

  function Without(order: seq<string>, id: string): seq<string> {
    var i := IndexOf(order, id);
    if i < |order| then order[..i] + order[i + 1..] else order
  }

  function Touched(order: seq<string>, id: string): seq<string> { [id] + Without(order, id) }

  function Take<T>(s: seq<T>, n: nat): seq<T> { if n <= |s| then s[..n] else s }

  function Members(s: seq<string>): set<string> { set x | x in s }

  function Kept(beats: map<string, Beat>, order: seq<string>, cap: nat): map<string, Beat> {
    if |order| <= cap then beats else beats - Members(order[cap..])
  }

  function Observed(cap: nat, t: Tracked, o: Observation): Tracked {
    if o.id == "" then t
    else
      var beats := t.beats[o.id := Beaten(Lookup(t.beats, o.id), o.event, o.at)];
      var order := Touched(t.order, o.id);
      Tracked(Take(order, cap), Kept(beats, order, cap))
  }

  /** The tracker after a history of observations. */
  function Run(cap: nat, history: seq<Observation>): Tracked {
    if history == [] then NOTHING
    else
      var n := |history| - 1;
      Observed(cap, Run(cap, history[..n]), history[n])
  }

  lemma RunAppend(cap: nat, history: seq<Observation>, o: Observation)
    ensures Run(cap, history + [o]) == Observed(cap, Run(cap, history), o)
  {
    assert (history + [o])[..|history|] == history;
  }

  lemma Bounded(cap: nat, history: seq<Observation>)
    ensures |Run(cap, history).order| <= cap
  {
  }

  // ----- the reference: all ids, most recent first -----

  function Recent(history: seq<Observation>): seq<string> {
    if history == [] then []
    else
      var n := |history| - 1;
      var rest := Recent(history[..n]);
      if history[n].id == "" then rest else Touched(rest, history[n].id)
  }

  ghost predicate Distinct(s: seq<string>) {
    forall i, j | 0 <= i < j < |s| :: s[i] != s[j]
  }

  predicate Seen(history: seq<Observation>, id: string) {
    id != "" && exists k | 0 <= k < |history| :: history[k].id == id
  }

  /** The other ids observed since the id was observed last. */
  function Since(history: seq<Observation>, id: string): set<string> {
    if history == [] then {}
    else
      var n := |history| - 1;
      if history[n].id == id then {}
      else if history[n].id == "" then Since(history[..n], id)
      else Since(history[..n], id) + {history[n].id}
  }

  lemma TouchedFacts(order: seq<string>, id: string)
    requires Distinct(order)
    ensures Distinct(Touched(order, id))
    ensures Members(Touched(order, id)) == Members(order) + {id}
  {
    var rest, at := Without(order, id), IndexOf(order, id);
    forall x | x in order && x != id ensures x in rest {
      var k :| 0 <= k < |order| && order[k] == x;
      assert rest[if k < at then k else k - 1] == x;
    }
  }

  lemma MembersAppend(a: seq<string>, b: seq<string>)
    ensures Members(a + b) == Members(a) + Members(b)
  {
    assert forall x :: x in a + b <==> x in a || x in b;
  }

  /** Removing the first occurrence, in terms of what stands around it. */
  lemma WithoutSplit(low: seq<string>, id: string, high: seq<string>)
    requires id !in low
    ensures IndexOf(low + [id] + high, id) == |low| && Without(low + [id] + high, id) == low + high
  {
    var order := low + [id] + high;
    assert order[|low|] == id;
    assert forall j | 0 <= j < |low| :: order[j] == low[j];
    assert order[..|low|] == low && order[|low| + 1..] == high;
  }

  function Before(order: seq<string>, id: string): seq<string> { order[..IndexOf(order, id)] }

  function Behind(order: seq<string>, id: string): seq<string>
    requires id in order
  {
    order[IndexOf(order, id) + 1..]
  }

  lemma Around(order: seq<string>, id: string)
    requires id in order
    ensures order == Before(order, id) + [id] + Behind(order, id) && id !in Before(order, id)
    ensures Without(order, id) == Before(order, id) + Behind(order, id)
  {
  }

  lemma TouchedBefore(order: seq<string>, id: string, p: nat)
    requires 0 < p <= IndexOf(order, id)
    ensures p < |Touched(order, id)| && Touched(order, id)[p] == order[p - 1] != id
    ensures Members(Touched(order, id)[..p]) == Members(order[..p - 1]) + {id}
  {
    if id in order {
      var low, high := Before(order, id), Behind(order, id);
      Around(order, id);
      BeforeSplit(low, id, high, p);
      assert Touched(order, id) == [id] + (low + high);
      assert order[p - 1] == low[p - 1] && order[..p - 1] == low[..p - 1];
    } else {
      BeforeSplit(order, id, [], p);
      assert order + [] == order;
    }
  }

  lemma BeforeSplit(low: seq<string>, id: string, tail: seq<string>, p: nat)
    requires 0 < p <= |low|
    ensures (low + tail)[p - 1] == low[p - 1] && (low + tail)[..p - 1] == low[..p - 1]
    ensures ([id] + (low + tail))[p] == low[p - 1]
    ensures Members(([id] + (low + tail))[..p]) == Members(low[..p - 1]) + {id}
  {
    assert ([id] + (low + tail))[..p] == [id] + low[..p - 1];
    MembersAppend([id], low[..p - 1]);
  }

  lemma TouchedAfter(order: seq<string>, id: string, p: nat)
    requires Distinct(order) && IndexOf(order, id) < p < |order|
    ensures p < |Touched(order, id)| && Touched(order, id)[p] == order[p] != id
    ensures Members(Touched(order, id)[..p]) == Members(order[..p]) + {id}
  {
    Around(order, id);
    AfterSplit(Before(order, id), id, Behind(order, id), order, Touched(order, id), p);
    assert order[IndexOf(order, id)] != order[p];
  }

  lemma AfterSplit(low: seq<string>, id: string, high: seq<string>, order: seq<string>, touched: seq<string>, p: nat)
    requires order == low + [id] + high && touched == [id] + (low + high) && |low| < p < |order|
    ensures p < |touched| && touched[p] == order[p]
    ensures Members(touched[..p]) == Members(order[..p]) + {id}
  {
    var q := p - 1 - |low|;
    assert order[..p] == (low + [id]) + high[..q];
    assert touched[..p] == ([id] + low) + high[..q];
    MembersAppend(low + [id], high[..q]);
    MembersAppend(low, [id]);
    MembersAppend([id] + low, high[..q]);
    MembersAppend([id], low);
  }

  lemma {:induction false} RecentDistinct(history: seq<Observation>)
    ensures Distinct(Recent(history)) && "" !in Recent(history)
  {
    if history != [] {
      var n := |history| - 1;
      RecentDistinct(history[..n]);
      TouchedFacts(Recent(history[..n]), history[n].id);
      assert forall id :: id in Recent(history) <==> id in Members(Recent(history));
      assert forall id :: id in Recent(history[..n]) <==> id in Members(Recent(history[..n]));
    }
  }

  lemma {:induction false} RecentSeen(history: seq<Observation>, id: string)
    ensures id in Recent(history) <==> Seen(history, id)
  {
    if history != [] {
      var n := |history| - 1;
      var init, o := history[..n], history[n];
      RecentSeen(init, id);
      RecentDistinct(init);
      TouchedFacts(Recent(init), o.id);
      SeenLast(history, id);
      assert id in Recent(history) <==> id in Members(Recent(history));
      assert id in Recent(init) <==> id in Members(Recent(init));
    }
  }

  lemma SeenLast(history: seq<Observation>, id: string)
    requires history != []
    ensures var n := |history| - 1;
      Seen(history, id) <==> Seen(history[..n], id) || (id != "" && history[n].id == id)
  {
    var n := |history| - 1;
    assert forall k | 0 <= k < n :: history[..n][k] == history[k];
  }

  /** In front of the id at place p stand exactly those observed since. */
  predicate OrderedAt(history: seq<Observation>, p: nat)
    requires p < |Recent(history)|
  {
    Members(Recent(history)[..p]) == Since(history, Recent(history)[p])
  }

  lemma TouchedOrder(history: seq<Observation>, init: seq<Observation>, id: string, p: nat)
    requires history != [] && init == history[..|history| - 1] && id == history[|history| - 1].id != ""
    requires p < |Recent(history)| && Distinct(Recent(init))
    requires forall q | 0 <= q < |Recent(init)| :: OrderedAt(init, q)
    ensures OrderedAt(history, p)
  {
    var order := Recent(init);
    assert Recent(history) == Touched(order, id);
    if p == 0 {
      assert Touched(order, id)[..0] == [] && Since(history, id) == {};
    } else if p <= IndexOf(order, id) {
      TouchedBefore(order, id, p);
      assert OrderedAt(init, p - 1);
      assert Since(history, order[p - 1]) == Since(init, order[p - 1]) + {id};
    } else {
      TouchedAfter(order, id, p);
      assert OrderedAt(init, p);
      assert Since(history, order[p]) == Since(init, order[p]) + {id};
    }
  }

  /** What "most recently used" means: in front of an id stand exactly those observed since. */
  lemma {:induction false} RecentOrder(history: seq<Observation>, p: nat)
    requires p < |Recent(history)|
    ensures Members(Recent(history)[..p]) == Since(history, Recent(history)[p])
  {
    if history != [] {
      var n := |history| - 1;
      var init, id := history[..n], history[n].id;
      RecentDistinct(init);
      if id == "" {
        RecentOrder(init, p);
        assert Recent(init)[p] in Recent(init);
      } else {
        forall q | 0 <= q < |Recent(init)| ensures OrderedAt(init, q) {
          RecentOrder(init, q);
        }
        TouchedOrder(history, init, id, p);
      }
    }
  }

  lemma TakeSplit(low: seq<string>, id: string, high: seq<string>, cap: nat)
    requires |low| < cap
    ensures Take(low + [id] + high, cap) == low + [id] + Take(high, cap - |low| - 1)
    ensures Take([id] + (low + Take(high, cap - |low| - 1)), cap) == Take([id] + (low + high), cap)
  {
  }

  lemma TakeTouched(order: seq<string>, id: string, cap: nat)
    requires cap > 0
    ensures Take(Touched(Take(order, cap), id), cap) == Take(Touched(order, id), cap)
  {
    if id in order && IndexOf(order, id) < cap {
      Around(order, id);
      var low, high := Before(order, id), Behind(order, id);
      WithoutSplit(low, id, Take(high, cap - |low| - 1));
      TakeSplit(low, id, high, cap);
    } else if cap < |order| {
      TakeAbsent(order, id, cap);
    }
  }

  lemma TakeAbsent(order: seq<string>, id: string, cap: nat)
    requires 0 < cap < |order| && cap <= IndexOf(order, id)
    ensures Take(Touched(order[..cap], id), cap) == Take(Touched(order, id), cap)
  {
    assert id !in order[..cap];
    assert Without(order[..cap], id) == order[..cap];
    HeadTake(id, order[..cap], order, cap);
    if id in order {
      Around(order, id);
      assert order[..cap - 1] == Before(order, id)[..cap - 1];
      HeadTake(id, Before(order, id) + Behind(order, id), order, cap);
    } else {
      HeadTake(id, order, order, cap);
    }
  }

  lemma HeadTake(id: string, s: seq<string>, order: seq<string>, cap: nat)
    requires 0 < cap <= |s| && cap <= |order| && s[..cap - 1] == order[..cap - 1]
    ensures Take([id] + s, cap) == [id] + order[..cap - 1]
  {
    assert ([id] + s)[..cap] == [id] + s[..cap - 1];
  }

  /** The order list is the first cap entries of the full most-recently-used list. */
  lemma {:induction false} OrderIsRecent(cap: nat, history: seq<Observation>)
    requires cap > 0
    ensures Run(cap, history).order == Take(Recent(history), cap)
  {
    if history != [] {
      var n := |history| - 1;
      OrderIsRecent(cap, history[..n]);
      if history[n].id != "" {
        TakeTouched(Recent(history[..n]), history[n].id, cap);
      }
    }
  }

  lemma DistinctTake(s: seq<string>, n: nat)
    requires Distinct(s)
    ensures Distinct(Take(s, n))
    ensures n <= |s| ==> Members(s[..n]) == Members(s) - Members(s[n..])
  {
    if n <= |s| {
      assert s == s[..n] + s[n..];
      MembersAppend(s[..n], s[n..]);
      assert forall i | 0 <= i < n :: s[..n][i] == s[i];
      assert forall j | n <= j < |s| :: s[n..][j - n] == s[j];
    }
  }

  lemma {:induction false} KeysMatch(cap: nat, history: seq<Observation>)
    requires cap > 0
    ensures Distinct(Run(cap, history).order)
    ensures Run(cap, history).beats.Keys == Members(Run(cap, history).order)
  {
    if history != [] {
      var n := |history| - 1;
      var t, o := Run(cap, history[..n]), history[n];
      KeysMatch(cap, history[..n]);
      if o.id != "" {
        TouchedFacts(t.order, o.id);
        DistinctTake(Touched(t.order, o.id), cap);
      }
    }
  }

  lemma {:induction false} DistinctSize(s: seq<string>)
    requires Distinct(s)
    ensures |Members(s)| == |s|
  {
    if s != [] {
      var n := |s| - 1;
      DistinctSize(s[..n]);
      assert Members(s) == Members(s[..n]) + {s[n]};
    }
  }

  /** An id is tracked exactly while fewer than cap other ids have been observed since it was. */
  lemma TrackedExactly(cap: nat, history: seq<Observation>, id: string)
    requires cap > 0
    ensures id in Run(cap, history).beats <==> Seen(history, id) && |Since(history, id)| < cap
  {
    KeysMatch(cap, history);
    OrderIsRecent(cap, history);
    RecentDistinct(history);
    RecentSeen(history, id);
    var recent := Recent(history);
    assert id in Run(cap, history).beats <==> id in Take(recent, cap);
    if id in recent {
      var p := IndexOf(recent, id);
      RecentOrder(history, p);
      DistinctSize(recent[..p]);
      if p < cap {
        assert Take(recent, cap)[p] == id;
      }
    }
  }

  /** A larger tracker holds everything a smaller one does, in the same order. */
  lemma LargerContainsSmaller(small: nat, large: nat, history: seq<Observation>)
    requires 0 < small <= large
    ensures Run(small, history).order == Take(Run(large, history).order, small)
    ensures Run(small, history).beats.Keys <= Run(large, history).beats.Keys
  {
    OrderIsRecent(small, history);
    OrderIsRecent(large, history);
    KeysMatch(small, history);
    KeysMatch(large, history);
    assert Run(small, history).order <= Run(large, history).order;
  }

  // ----- what an entry says -----

  /** The id's observations since it last entered the tracker. */
  function Stay(cap: nat, history: seq<Observation>, id: string): seq<Observation> {
    if history == [] then []
    else
      var n := |history| - 1;
      if history[n].id == id then Stay(cap, history[..n], id) + [history[n]]
      else if |Since(history, id)| < cap then Stay(cap, history[..n], id)
      else []
  }

  /** All its observations. */
  function Of(history: seq<Observation>, id: string): seq<Observation> {
    if history == [] then []
    else
      var n := |history| - 1;
      Of(history[..n], id) + if history[n].id == id then [history[n]] else []
  }

  lemma {:induction false} UnseenNeverStays(cap: nat, history: seq<Observation>, id: string)
    requires id != "" && !Seen(history, id)
    ensures Stay(cap, history, id) == [] && Of(history, id) == []
  {
    if history != [] {
      var n := |history| - 1;
      SeenLast(history, id);
      UnseenNeverStays(cap, history[..n], id);
    }
  }

  /** A snapshot is the fold of the current stay. */
  lemma {:induction false} SnapshotIsStay(cap: nat, history: seq<Observation>, id: string)
    requires cap > 0 && id != ""
    ensures Lookup(Run(cap, history).beats, id) == Beats(Stay(cap, history, id))
  {
    if history != [] {
      var n := |history| - 1;
      var init, o := history[..n], history[n];
      SnapshotIsStay(cap, init, id);
      TrackedExactly(cap, history, id);
      if o.id == id {
        assert (Stay(cap, init, id) + [o])[..|Stay(cap, init, id)|] == Stay(cap, init, id);
        assert |Since(history, id)| == 0;
        assert Run(cap, history).beats[id] == Beaten(Lookup(Run(cap, init).beats, id), o.event, o.at);
      } else if |Since(history, id)| < cap {
        if !Seen(history, id) {
          UnseenNeverStays(cap, history, id);
        }
      }
    }
  }

  /** Where in the history the observations of the current stay stand. */
  function StayAt(cap: nat, history: seq<Observation>, id: string): seq<nat> {
    if history == [] then []
    else
      var n := |history| - 1;
      if history[n].id == id then StayAt(cap, history[..n], id) + [n]
      else if |Since(history, id)| < cap then StayAt(cap, history[..n], id)
      else []
  }

  lemma {:induction false} StayPlaces(cap: nat, history: seq<Observation>, id: string)
    ensures |StayAt(cap, history, id)| == |Stay(cap, history, id)|
    ensures forall m | 0 <= m < |StayAt(cap, history, id)| ::
      var p := StayAt(cap, history, id)[m];
      && p < |history| && history[p] == Stay(cap, history, id)[m] && history[p].id == id
      && Stay(cap, history[..p], id) == Stay(cap, history, id)[..m]
  {
    if history != [] {
      var n := |history| - 1;
      StayPlaces(cap, history[..n], id);
      assert forall p | 0 <= p <= n :: history[..n][..p] == history[..p];
    }
  }

  /**
   The tracker reports a verdict once per stay: of the terminal observations of an id's current stay, Observe returned
   true, in the state it then had, for the first and for no other.
   */
  lemma OneReportPerStay(cap: nat, history: seq<Observation>, id: string, m: nat)
    requires cap > 0 && id != "" && m < |StayAt(cap, history, id)| == |Stay(cap, history, id)|
    requires Terminal(Stay(cap, history, id)[m].event)
    ensures var p := StayAt(cap, history, id)[m];
      && p < |history| && history[p] == Stay(cap, history, id)[m]
      && (Visible(Lookup(Run(cap, history[..p]).beats, id), history[p].event)
          <==> FirstTerminal(Stay(cap, history, id), m))
  {
    StayPlaces(cap, history, id);
    SnapshotIsStay(cap, history[..StayAt(cap, history, id)[m]], id);
    OneVerdictPerStay(Stay(cap, history, id), m);
  }

  /** If the id was seen at all, it is still in. */
  ghost predicate InOrUnseen(cap: nat, history: seq<Observation>, id: string) {
    Seen(history, id) ==> |Since(history, id)| < cap
  }

  ghost predicate NeverEvicted(cap: nat, history: seq<Observation>, id: string) {
    forall k | 0 <= k <= |history| :: InOrUnseen(cap, history[..k], id)
  }

  lemma NeverEvictedStep(cap: nat, history: seq<Observation>, id: string)
    requires history != []
    ensures NeverEvicted(cap, history, id) <==>
      NeverEvicted(cap, history[..|history| - 1], id) && InOrUnseen(cap, history, id)
  {
    var n := |history| - 1;
    var init := history[..n];
    assert history[..n + 1] == history;
    assert forall k | 0 <= k <= n :: init[..k] == history[..k];
    if NeverEvicted(cap, init, id) && InOrUnseen(cap, history, id) {
      forall k | 0 <= k <= |history| ensures InOrUnseen(cap, history[..k], id) {
        if k <= n {
          assert InOrUnseen(cap, init[..k], id);
        }
      }
    }
    if NeverEvicted(cap, history, id) {
      forall k | 0 <= k <= n ensures InOrUnseen(cap, init[..k], id) {
        assert InOrUnseen(cap, history[..k], id);
      }
      assert InOrUnseen(cap, history[..n + 1], id);
    }
  }

  lemma {:induction false} SeenHasObservations(history: seq<Observation>, id: string)
    requires id != ""
    ensures Of(history, id) != [] <==> Seen(history, id)
  {
    if history != [] {
      SeenHasObservations(history[..|history| - 1], id);
      SeenLast(history, id);
    }
  }

  /** The stay is the id's whole history, and the bounded map agrees with an unbounded one, unless it was evicted. */
  lemma {:induction false} WholeHistoryExactly(cap: nat, history: seq<Observation>, id: string)
    requires cap > 0 && id != ""
    ensures Stay(cap, history, id) == Of(history, id) <==> NeverEvicted(cap, history, id)
  {
    if history != [] {
      var n := |history| - 1;
      WholeHistoryExactly(cap, history[..n], id);
      NeverEvictedStep(cap, history, id);
      SeenHasObservations(history, id);
      if history[n].id == id {
        assert |Since(history, id)| == 0;
        var stay, whole := Stay(cap, history, id), Of(history, id);
        assert stay[..|stay| - 1] == Stay(cap, history[..n], id);
        assert whole[..|whole| - 1] == Of(history[..n], id);
      } else if !Seen(history, id) {
        UnseenNeverStays(cap, history, id);
        SeenLast(history, id);
        UnseenNeverStays(cap, history[..n], id);
      }
    }
  }

  /** A larger tracker's stay only ever reaches further back. */
  lemma {:induction false} StayGrows(small: nat, large: nat, history: seq<Observation>, id: string)
    requires small <= large
    ensures |Stay(small, history, id)| <= |Stay(large, history, id)| <= |Of(history, id)|
    ensures Stay(large, history, id)[|Stay(large, history, id)| - |Stay(small, history, id)|..]
         == Stay(small, history, id)
  {
    if history != [] {
      var n := |history| - 1;
      StayGrows(small, large, history[..n], id);
    }
  }
}
