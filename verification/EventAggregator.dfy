/**
 The event aggregator as the object it is: mutable counters, buffers and tables, one method
 per critical section of internal/agent/aggregate_sink.go. Every method is proved against
 the function of AggregatorSpec the interleaving proofs are about. `next` is what the
 calling goroutine has to do after the section's unlock.
 */
module EventAggregators {
  import opened AggregatorSpec

  class EventAggregator {
    const expected: nat
    var phase: Phase
    var readyCount: nat
    var doneCount: nat
    var readyEmitted: bool
    var finalEmitted: bool
    var perJob: seq<PerJob>
    var tasks: map<string, Item>
    var log: seq<Event>          // what the outer callback was called with, in order
    ghost var merged: seq<Event>
    ghost var strays: seq<Event>

    ghost function View(): Aggregator
      reads this
    {
      Aggregator(expected, phase, readyCount, doneCount, readyEmitted, finalEmitted, perJob, tasks, log, merged, strays)
    }

    constructor (expected: nat)
      ensures View() == NewAggregator(expected)
    {
      this.expected := expected;
      phase := Buffering;
      readyCount, doneCount := 0, 0;
      readyEmitted, finalEmitted := false, false;
      perJob := seq(expected, _ => EmptyJob);
      tasks := map[];
      log, merged, strays := [], [], [];
    }

    method WrapJob(i: nat)
      requires i < |perJob|
      modifies this
      ensures View() == WrapSection(old(View()), i)
      ensures perJob == old(perJob)[i := PerJob(map[], [])]
    {
      perJob := perJob[i := PerJob(map[], [])];
    }

    method Handle(i: nat, ev: Event) returns (next: seq<Op>)
      ensures next == HandleSection(View(), i, ev)
      ensures phase == Buffering ==> next == [Buffer(ev)]
      ensures phase == Streaming ==> next == [Stream(i, ev)]
      ensures phase == Closed ==> next == []
    {
      match phase {
        case Buffering => next := [Buffer(ev)];
        case Streaming => next := [Stream(i, ev)];
        case Closed => next := [];
      }
    }

    method RedirectStale(i: nat, ev: Event) returns (next: seq<Op>)
      ensures next == RedirectSection(View(), i, ev)
      ensures next == if phase == Closed then [] else [Stream(i, ev)]
    {
      next := if phase == Closed then [] else [Stream(i, ev)];
    }

    /** Phase 2 is open, the buffers are empty, and the outer Ready goes out first. */
    ghost predicate Opened(next: seq<Op>)
      reads this
    {
      && readyEmitted && phase == Streaming && next != [] && next[0] == Emit([SyntheticReady])
      && forall k | 0 <= k < |perJob| :: perJob[k].initBuffer == []
    }

    /** The transition gate at the end of a phase-1 section; the lock is held. */
    method LeavePhase1(order: seq<nat>) returns (next: seq<Op>)
      modifies this
      ensures (View(), next) == TransitionGate(old(View()), order)
      ensures readyCount == old(readyCount) && |perJob| == |old(perJob)|
      ensures if readyCount >= expected && !old(readyEmitted) then Opened(next) else next == [] && View() == old(View())
    {
      next := [];
      if readyCount >= expected && !readyEmitted {
        readyEmitted := true;
        phase := Streaming;
        next := SnapshotReplay(order);
        next := [Emit([SyntheticReady])] + next;
        perJob := seq(|perJob|, k requires 0 <= k < |perJob| reads this => perJob[k].(initBuffer := []));
        assert perJob == ClearBuffers(old(perJob));
      }
    }

    /** Collects every job's buffer for replay, in the order the map iteration visits the jobs. */
    method SnapshotReplay(order: seq<nat>) returns (replay: seq<Op>)
      ensures replay == Replay(perJob, order)
    {
      replay := [];
      var n := |order|;
      while n > 0
        invariant 0 <= n <= |order|
        invariant replay == Replay(perJob, order[n..])
      {
        n := n - 1;
        assert order[n..][1..] == order[n + 1..];
        if order[n] < |perJob| {
          replay := ReplayJob(order[n], perJob[order[n]].initBuffer) + replay;
        }
      }
      assert order[0..] == order;
    }

    /** handleBuffering up to its first unlock. */
    method HandleBuffering(i: nat, ev: Event, order: seq<nat>) returns (next: seq<Op>)
      requires i < |perJob|
      modifies this
      ensures (View(), next) == BufferSection(old(View()), i, ev, order)
      ensures old(phase) != Buffering ==> next == [Redirect(ev)] && View() == old(View())
      ensures old(phase) == Buffering && ev.kind == ToolEnd && ev.toolId != "" ==>
        var p := old(perJob)[i];
        && phase == Buffering && readyCount == old(readyCount)
        && (if ev.toolId in p.pending then
              && next == [Emit([p.pending[ev.toolId], ev]), Gate]
              && perJob == old(perJob)[i := PerJob(p.pending - {ev.toolId}, p.initBuffer)]
            else
              && next == [Emit([ev]), Gate]
              && perJob == old(perJob)[i := PerJob(p.pending, p.initBuffer + [ev])])
      ensures old(phase) == Buffering && !(ev.kind == ToolEnd && ev.toolId != "") ==>
        && readyCount == old(readyCount) + (if ev.kind == Ready then 1 else 0)
        && (if readyCount >= expected && !old(readyEmitted) then Opened(next)
            else
              var p := old(perJob)[i];
              var pending := if ev.kind == ToolStart && ev.toolId != "" then p.pending[ev.toolId := ev] else p.pending;
              next == [] && phase == Buffering && perJob == old(perJob)[i := PerJob(pending, p.initBuffer + [ev])])
    {
      if phase != Buffering {
        return [Redirect(ev)];
      }
      var p := perJob[i];
      var buffer := p.initBuffer + [ev];
      var pending := p.pending;
      if ev.kind == Ready {
        readyCount := readyCount + 1;
      } else if ev.kind == ToolStart && ev.toolId != "" {
        pending := pending[ev.toolId := ev];
      } else if ev.kind == ToolEnd && ev.toolId != "" {
        if ev.toolId in pending {
          next := [Emit([pending[ev.toolId], ev]), Gate];
          pending := pending - {ev.toolId};
          // pop the End just appended, so that the replay does not emit the pair again
          buffer := buffer[..|buffer| - 1];
        } else {
          next := [Emit([ev]), Gate];
          strays := strays + [ev];
        }
        perJob := perJob[i := PerJob(pending, buffer)];
        assert buffer == p.initBuffer || buffer == p.initBuffer + [ev];
        return;
      }
      perJob := perJob[i := PerJob(pending, buffer)];
      next := LeavePhase1(order);
    }

    /** handleBuffering after the re-lock that follows a phase-1 ToolEnd. */
    method Relock(order: seq<nat>) returns (next: seq<Op>)
      modifies this
      ensures (View(), next) == GateSection(old(View()), order)
      ensures if old(phase) == Buffering && readyCount >= expected && !old(readyEmitted) then Opened(next)
              else next == [] && View() == old(View())
    {
      next := [];
      if phase == Buffering {
        next := LeavePhase1(order);
      }
    }

    method HandleStreaming(owner: nat, ev: Event) returns (next: seq<Op>)
      ensures next == StreamSection(View(), owner, ev)
      ensures phase == Closed || ev.kind in {Ready, Result, Error} ==> next == []
      ensures phase != Closed && ev.kind == ToolStart ==> next == if ev.toolId == "" then [] else [Store(owner, ev)]
      ensures phase != Closed && ev.kind == ToolEnd ==> next == if ev.toolId == "" then [] else [Match(owner, ev)]
      ensures phase != Closed && ev.kind in {TaskCreate, TaskUpdate} ==> next == [Merge(ev)]
      ensures phase != Closed && ev.kind.PassThrough? ==> next == [Emit([ev])]
    {
      next := [];
      if phase == Closed {
        return;
      }
      match ev.kind {
        case Ready =>
        case ToolStart => if ev.toolId != "" { next := [Store(owner, ev)]; }
        case ToolEnd => if ev.toolId != "" { next := [Match(owner, ev)]; }
        case TaskCreate => next := [Merge(ev)];
        case TaskUpdate => next := [Merge(ev)];
        case Result =>
        case Error =>
        case PassThrough(_) => next := [Emit([ev])];
      }
    }

    method StoreStart(owner: nat, ev: Event)
      requires owner < |perJob|
      modifies this
      ensures View() == StoreSection(old(View()), owner, ev)
      ensures var p := old(perJob)[owner];
        perJob == old(perJob)[owner := PerJob(p.pending[ev.toolId := ev], p.initBuffer)]
    {
      var p := perJob[owner];
      perJob := perJob[owner := p.(pending := p.pending[ev.toolId := ev])];
    }

    method MatchEnd(owner: nat, ev: Event) returns (next: seq<Op>)
      requires owner < |perJob|
      modifies this
      ensures (View(), next) == MatchSection(old(View()), owner, ev)
      ensures var p := old(perJob)[owner];
        if ev.toolId in p.pending then
          && next == [Emit([p.pending[ev.toolId], ev])]
          && perJob == old(perJob)[owner := PerJob(p.pending - {ev.toolId}, p.initBuffer)]
        else next == [Emit([ev])] && perJob == old(perJob)
    {
      var p := perJob[owner];
      if ev.toolId in p.pending {
        next := [Emit([p.pending[ev.toolId], ev])];
        perJob := perJob[owner := p.(pending := p.pending - {ev.toolId})];
      } else {
        next := [Emit([ev])];
      }
    }

    /** Merges the items one by one, then lists the table in whatever order iteration yields. */
    method MergeTasks(ev: Event) returns (next: seq<Op>, items: seq<Item>)
      requires forall id | id in tasks :: tasks[id].id == id
      modifies this
      ensures (View(), next) == MergeSection(old(View()), ev, items)
      ensures Lists(items, tasks)
      ensures next == [Emit([Event(ev.kind, ev.source, "", items, "")])]
    {
      var k := 0;
      while k < |ev.items|
        invariant k <= |ev.items|
        invariant MergeItems(tasks, ev.items[k..]) == MergeItems(old(tasks), ev.items)
        invariant forall id | id in tasks :: tasks[id].id == id
        invariant View() == old(View()).(tasks := tasks)
      {
        assert ev.items[k..][1..] == ev.items[k + 1..];
        tasks := tasks[ev.items[k].id := ev.items[k]];
        k := k + 1;
      }
      assert ev.items[k..] == [];
      merged := merged + [ev];
      items := [];
      var left := tasks.Keys;
      while left != {}
        invariant left <= tasks.Keys
        invariant forall j | 0 <= j < |items| :: items[j].id in tasks && tasks[items[j].id] == items[j]
        invariant forall j | 0 <= j < |items| :: items[j].id !in left
        invariant forall j, m | 0 <= j < m < |items| :: items[j].id != items[m].id
        invariant forall id | id in tasks && id !in left :: tasks[id] in items
        decreases left
      {
        var id :| id in left;
        items := items + [tasks[id]];
        left := left - {id};
      }
      next := [Emit([Snapshot(ev, items)])];
    }

    /** One emitMu section: every call of the outer callback under one hold of emitMu. */
    method EmitBlock(evs: seq<Event>)
      modifies this`log
      ensures View() == EmitSection(old(View()), evs) && log == old(log) + evs
    {
      var k := 0;
      while k < |evs|
        invariant k <= |evs|
        invariant log == old(log) + evs[..k]
      {
        assert evs[..k + 1] == evs[..k] + [evs[k]];
        log := log + [evs[k]];
        k := k + 1;
      }
      assert evs[..k] == evs;
    }

    method MarkJobDone() returns (next: seq<Op>)
      modifies this
      ensures (View(), next) == MarkDoneSection(old(View()))
      ensures old(finalEmitted) ==> next == [] && View() == old(View())
      ensures !old(finalEmitted) ==>
        && doneCount == old(doneCount) + 1 && (finalEmitted <==> doneCount >= expected)
        && (if finalEmitted then phase == Closed && next == [Emit([OuterResult])]
            else phase == old(phase) && next == [])
    {
      next := [];
      if finalEmitted {
        return;
      }
      doneCount := doneCount + 1;
      if doneCount >= expected {
        finalEmitted := true;
        phase := Closed;
        next := [Emit([OuterResult])];
      }
    }

    method Finalize() returns (next: seq<Op>)
      modifies this
      ensures (View(), next) == FinalizeSection(old(View()))
      ensures old(finalEmitted) ==> next == [] && View() == old(View())
      ensures !old(finalEmitted) ==>
        finalEmitted && phase == Closed && doneCount >= expected && next == [Emit([OuterResult])]
    {
      next := [];
      if finalEmitted {
        return;
      }
      var missing := expected - doneCount;
      if missing > 0 {
        doneCount := expected;
      }
      if doneCount >= expected {
        finalEmitted := true;
        phase := Closed;
        next := [Emit([OuterResult])];
      }
    }
  }
}
