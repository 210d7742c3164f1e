/**
 The bounded per-turn activity tracker (HeartbeatTracker in
 internal/chatsession/heartbeat.go). Its mutex makes every method one step;
 the ghost history lists the observations in lock order.
 */
module HeartbeatTrackers {
  import opened HeartbeatSpec
  import opened HeartbeatHistory

  const DEFAULT_HEARTBEAT_CAP: nat := 1024

  class HeartbeatTracker {
    const cap: nat
    var order: seq<string>  // most recent first
    var snaps: map<string, Beat>
    ghost var history: seq<Observation>

    ghost predicate Valid()
      reads this
    {
      cap > 0 && Tracked(order, snaps) == Run(cap, history)
    }

    constructor (cap: int)
      ensures Valid() && history == []
      ensures this.cap == if cap <= 0 then 1024 else cap
    {
      this.cap := if cap <= 0 then DEFAULT_HEARTBEAT_CAP else cap;
      order, snaps, history := [], map[], [];
    }

    /** now stands for the clock. */
    method Observe(id: string, event: Event, now: int) returns (changed: bool)
      requires Valid()
      modifies this
      ensures Valid() && history == old(history) + [Observation(id, event, now)]
      ensures changed == (id != "" && Visible(Lookup(old(snaps), id), event))
      ensures changed <==>
        && id != ""
        && (event.Thinking? || event.ToolStart?
            || ((event.Result? || event.PromptEnded?)
                && forall p: nat | Held(cap, old(history), id, p) ::
                     !old(history)[p].event.Result? && !old(history)[p].event.PromptEnded?))
    {
      ghost var o := Observation(id, event, now);
      RunAppend(cap, history, o);
      Bounded(cap, history);
      if id == "" {
        history := history + [o];
        return false;
      }
      ReportsExactly(cap, history, id, event);
      var snap := Lookup(snaps, id).(lastBeatAt := now);
      changed := false;
      match event {
        case Thinking =>
          snap, changed := snap.(thinkCount := snap.thinkCount + 1), true;
        case ToolStart =>
          snap, changed := snap.(toolCount := snap.toolCount + 1), true;
        case Result(failed) =>
          snap, changed := FlipTerminal(snap, if failed then Failed else Done);
        case PromptEnded(reason) =>
          snap, changed := FlipTerminal(snap, if reason == Failing then Failed else Done);
        case Other =>
      }
      assert snap == Beaten(Lookup(old(snaps), id), event, now);
      snaps := snaps[id := snap];
      Touch(id);
      history := history + [o];
    }

    /** The first verdict wins. */
    static method FlipTerminal(snap: Beat, status: Status) returns (flipped: Beat, changed: bool)
      ensures changed <==> snap.status == Running
      ensures flipped == if changed then snap.(status := status) else snap
    {
      if snap.status != Running { return snap, false; }
      return snap.(status := status), true;
    }

    /** Moves the id to the head and evicts from the tail. */
    method Touch(id: string)
      requires |order| <= cap && cap > 0
      modifies this`order, this`snaps
      ensures order == Take(Touched(old(order), id), cap)
      ensures snaps == Kept(old(snaps), Touched(old(order), id), cap)
    {
      var i := 0;
      while i < |order|
        invariant i <= |order| && order == old(order)
        invariant forall j | 0 <= j < i :: order[j] != id
      {
        if order[i] == id {
          order := order[..i] + order[i + 1..];
          break;
        }
        i := i + 1;
      }
      assert order == Without(old(order), id);
      order := [id] + order;
      Evict();
    }

    /** Drops tail entries until the order is within the capacity. */
    method Evict()
      modifies this`order, this`snaps
      ensures order == Take(old(order), cap)
      ensures snaps == Kept(old(snaps), old(order), cap)
    {
      while |order| > cap
        invariant |order| <= |old(order)| && order == old(order)[..|order|]
        invariant |order| >= cap || |order| == |old(order)|
        invariant snaps == old(snaps) - Members(old(order)[|order|..])
      {
        var evicted := order[|order| - 1];
        assert old(order)[|order| - 1..] == [evicted] + old(order)[|order|..];
        MembersAppend([evicted], old(order)[|order|..]);
        order := order[..|order| - 1];
        snaps := snaps - {evicted};
      }
    }

    /** A copy of the entry; an id the tracker does not hold reads as the zero value. */
    method Snapshot(id: string) returns (beat: Beat)
      requires Valid()
      ensures id == "" ==> beat == Beat(0, 0, 0, Running)
      ensures id != "" ==> beat == Beats(Stay(cap, history, id))
    {
      beat := Lookup(snaps, id);
      if id == "" {
        TrackedExactly(cap, history, id);
      } else {
        SnapshotIsStay(cap, history, id);
      }
    }

    /** The number of ids tracked: as many as were seen, up to the capacity. */
    method Len() returns (n: nat)
      requires Valid()
      ensures n == |snaps| && n == |Take(Recent(history), cap)|
    {
      KeysMatch(cap, history);
      DistinctSize(order);
      OrderIsRecent(cap, history);
      assert |snaps| == |snaps.Keys|;
      n := |snaps|;
    }
  }
}
