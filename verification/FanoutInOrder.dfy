/**
 In which order one job's events can stand in the outer log, or reach the task table, over
 every run: the ToolEnds of phase 1 come first, what phase 1 kept keeps its order, what was
 sent later keeps its order, and only these two may interleave. For the job whose own section
 opened phase 2 they do not even do that.
 */
module FanoutInOrder {
  import opened AggregatorSpec
  import opened Fanout
  import opened FanoutDelivery
  import opened FanoutResults
  import opened FanoutOrder
  import opened FanoutReplay
  import opened FanoutBacklog

  /**
   When goroutine r's step opened phase 2, at every later moment job i's entries are those there were, and then an
   interleaving of a prefix of what phase 1 had kept with a prefix of what the job's own goroutine had, each in order.
   */
  lemma OrderAfterOpening(ch: Channel, traces: seq<seq<Event>>, acts: seq<Action>, t: System, k: nat, mid: System,
                          r: nat, c: Choice, i: nat)
    requires OpensIn(Init(traces), acts, t, traces, k, mid, r, c) && i < |traces| == |mid.jobs|
    ensures |t.jobs| == |traces| && r < |t.jobs| && 0 <= Handled(mid, traces, i) <= |traces[i]|
    ensures CutAt(ch, PartsOf(ch, mid, i), Stamp(i, traces[i]), i, Handled(mid, traces, i), |Seen(ch, mid.agg, i)|)
    ensures LateAt(ch, t, r, i, PartsOf(ch, mid, i))
  {
    PartsCut(ch, mid, traces, i);
    OpensLate(ch, mid, traces, r, c, i);
    NextGood(mid, Exec(r, c), traces);
    LateRun(ch, Next(mid, Exec(r, c)), acts[k + 1..], t, traces, r, i, PartsOf(ch, mid, i));
  }

  /** sent interleaves the start of a with the start of z. */
  ghost predicate Interleaves(sent: seq<Event>, a: seq<Event>, z: seq<Event>) {
    exists p, q :: p <= a && q <= z && Shuffle(sent, p, q)
  }

  /** sent is the base and then an interleaving of the start of the early part with the start of the late one. */
  ghost predicate Spreads(sent: seq<Event>, q: Parts) {
    q.base <= sent && Interleaves(sent[|q.base|..], q.early, q.late)
  }

  lemma StartOfBoth(sent: seq<Event>, live: seq<Event>, a: seq<Event>, z: seq<Event>)
    requires sent + live == a + z
    ensures Interleaves(sent, a, z)
  {
    if |sent| <= |a| {
      assert sent == (a + z)[..|sent|] == a[..|sent|];
      ShuffleConcat(sent, []);
      assert sent + [] == sent;
    } else {
      assert sent == (a + z)[..|sent|] == a + z[..|sent| - |a|];
      ShuffleConcat(a, z[..|sent| - |a|]);
    }
  }

  lemma OwnSpreads(ch: Channel, t: System, r: nat, q: Parts)
    requires r < |t.jobs| && Seen(ch, t.agg, r) + Live(ch, t.jobs[r], r) == (q.base + q.early) + q.late
    requires q.base <= Seen(ch, t.agg, r)
    ensures Spreads(Seen(ch, t.agg, r), q)
  {
    var seen, live := Seen(ch, t.agg, r), Live(ch, t.jobs[r], r);
    assert seen[|q.base|..] + live == (seen + live)[|q.base|..] == ((q.base + q.early) + q.late)[|q.base|..]
        == q.early + q.late;
    StartOfBoth(seen[|q.base|..], live, q.early, q.late);
  }

  lemma LateSpreads(ch: Channel, t: System, r: nat, i: nat, q: Parts)
    requires i < |t.jobs| && r < |t.jobs| && LateAt(ch, t, r, i, q) && q.base <= Seen(ch, t.agg, i)
    ensures Spreads(Seen(ch, t.agg, i), q)
  {
    if i == r {
      OwnSpreads(ch, t, r, q);
    } else {
      var a, z :| PartsAt(ch, t, r, i, q, a, z);
      assert a <= q.early && z <= q.late;
    }
  }

  /** The log and the merge history only grow, and with them what is seen of a job. */
  lemma {:induction false} SeenGrows(ch: Channel, s: System, acts: seq<Action>, t: System, i: nat)
    requires Runs(s, acts, t)
    ensures Seen(ch, s.agg, i) <= Seen(ch, t.agg, i)
    decreases acts
  {
    if acts != [] {
      SinkGrows(ch, s, acts[0]);
      PrefixPicks(ch, Sink(ch, s.agg), Sink(ch, Next(s, acts[0]).agg), i);
      SeenGrows(ch, Next(s, acts[0]), acts[1..], t, i);
    }
  }

  lemma SinkGrows(ch: Channel, s: System, act: Action)
    requires Enabled(s, act) && |s.agg.perJob| == |s.jobs|
    ensures Sink(ch, s.agg) <= Sink(ch, Next(s, act).agg)
  {
  }

  lemma PrefixPicks(ch: Channel, a: seq<Event>, b: seq<Event>, i: nat)
    requires a <= b
    ensures Picks(ch, a, i) <= Picks(ch, b, i)
  {
    assert b == a + b[|a|..];
    PicksAppend(ch, a, b[|a|..], i);
  }

  /** Job i's turn can be cut behind n events, e of their ToolEnds appended, so that sent spreads over the parts. */
  ghost predicate SpreadAt(ch: Channel, sent: seq<Event>, trace: seq<Event>, i: nat, n: nat, e: nat, q: Parts) {
    CutAt(ch, q, trace, i, n, e) && Spreads(sent, q)
  }

  ghost predicate InParts(ch: Channel, sent: seq<Event>, trace: seq<Event>, i: nat) {
    exists n, e, q :: SpreadAt(ch, sent, trace, i, n, e, q)
  }

  lemma OpenedParts(ch: Channel, traces: seq<seq<Event>>, acts: seq<Action>, t: System, k: nat, mid: System, r: nat,
                    c: Choice, i: nat)
    requires OpensIn(Init(traces), acts, t, traces, k, mid, r, c) && i < |traces| == |mid.jobs|
    ensures InParts(ch, Seen(ch, t.agg, i), Stamp(i, traces[i]), i)
  {
    OrderAfterOpening(ch, traces, acts, t, k, mid, r, c, i);
    SeenGrows(ch, Next(mid, Exec(r, c)), acts[k + 1..], t, i);
    OpensReplay(ch, mid, traces, r, c, i);
    LateSpreads(ch, t, r, i, PartsOf(ch, mid, i));
    assert SpreadAt(ch, Seen(ch, t.agg, i), Stamp(i, traces[i]), i, Handled(mid, traces, i), |Seen(ch, mid.agg, i)|,
      PartsOf(ch, mid, i));
  }

  lemma UnopenedParts(ch: Channel, t: System, traces: seq<seq<Event>>, i: nat)
    requires Before(t, traces) && i < |t.jobs| == |traces|
    ensures InParts(ch, Seen(ch, t.agg, i), Stamp(i, traces[i]), i)
  {
    PartsCut(ch, t, traces, i);
    var seen, q := Seen(ch, t.agg, i), PartsOf(ch, t, i);
    assert seen[|q.base|..] == [] && Shuffle([], [], []) && [] <= q.early && [] <= q.late;
    assert SpreadAt(ch, seen, Stamp(i, traces[i]), i, Handled(t, traces, i), |seen|, q);
  }

  /**
   At every moment of every run, for every kind of event that is forwarded or merged: for some cut of job i's turn its
   entries are the first ToolEnds before the cut, and then an interleaving of the start of what phase 1 kept of the
   events before the cut with the start of the remaining ToolEnds and the events behind it, each part as it was sent.
   */
  lemma PartsInOrder(ch: Channel, traces: seq<seq<Event>>, acts: seq<Action>, t: System, i: nat)
    requires Runs(Init(traces), acts, t) && i < |traces|
    ensures InParts(ch, Seen(ch, t.agg, i), Stamp(i, traces[i]), i)
  {
    InitBefore(traces);
    if t.agg.readyEmitted {
      var k, mid, r, c := FindOpening(Init(traces), acts, t, traces);
      OpenedParts(ch, traces, acts, t, k, mid, r, c, i);
    } else {
      StillBefore(Init(traces), acts, t, traces);
      UnopenedParts(ch, t, traces, i);
    }
  }

  /** For passed-through events and for merges there are no ToolEnds, and phase 1 keeps everything. */
  lemma PlainCut(ch: Channel, q: Parts, trace: seq<Event>, i: nat, n: nat, e: nat)
    requires !ch.Forwards? && CutAt(ch, q, trace, i, n, e)
    ensures q == Parts([], Picks(ch, trace[..n], i), Picks(ch, trace[n..], i))
    ensures q.early + q.late == Picks(ch, trace, i)
  {
    KeepsAll(ch, trace[..n], i);
    assert [] + Picks(ch, trace[n..], i) == Picks(ch, trace[n..], i);
    assert trace == trace[..n] + trace[n..];
    PicksAppend(ch, trace[..n], trace[n..], i);
  }

  /** So in a complete run with enough Readys job i's are an interleaving of those before a cut with those behind. */
  lemma CompleteParts(ch: Channel, traces: seq<seq<Event>>, acts: seq<Action>, t: System, i: nat)
    requires Runs(Init(traces), acts, t) && t.main.Merged? && ReadysSent(traces) >= |traces| && i < |traces|
    requires !ch.Forwards?
    ensures exists m: nat | m <= |traces[i]| ::
      Shuffle(Seen(ch, t.agg, i), Picks(ch, Stamp(i, traces[i])[..m], i), Picks(ch, Stamp(i, traces[i])[m..], i))
  {
    InitBefore(traces);
    CompleteRun(traces, acts, t);
    var k, mid, r, c := FindOpening(Init(traces), acts, t, traces);
    OrderAfterOpening(ch, traces, acts, t, k, mid, r, c, i);
    PlainCut(ch, PartsOf(ch, mid, i), Stamp(i, traces[i]), i, Handled(mid, traces, i), |Seen(ch, mid.agg, i)|);
    AllSent(ch, traces, acts, t, i);
    CompleteLate(ch, t, r, i, PartsOf(ch, mid, i));
  }

  lemma CompleteLate(ch: Channel, t: System, r: nat, i: nat, q: Parts)
    requires i < |t.jobs| && r < |t.jobs| && LateAt(ch, t, r, i, q) && q.base == []
    requires Live(ch, t.jobs[i], i) == [] && Carried(ch, t.jobs[r].todo, i) == []
    ensures Shuffle(Seen(ch, t.agg, i), q.early, q.late)
  {
    if i == r {
      assert Seen(ch, t.agg, i) + [] == Seen(ch, t.agg, i) && [] + q.early == q.early;
      ShuffleConcat(q.early, q.late);
    } else {
      var a, z :| PartsAt(ch, t, r, i, q, a, z);
      assert a + [] == a && z + [] == z;
    }
  }

  lemma AllSent(ch: Channel, traces: seq<seq<Event>>, acts: seq<Action>, t: System, i: nat)
    requires Runs(Init(traces), acts, t) && t.main.Merged? && i < |t.jobs|
    ensures forall j | 0 <= j < |t.jobs| :: t.jobs[j].todo == [] && t.jobs[j].rest == []
    ensures Live(ch, t.jobs[i], i) == []
  {
    InitLifecycle(traces);
    RunLifecycle(Init(traces), acts, t);
    forall j | 0 <= j < |t.jobs| ensures t.jobs[j].todo == [] && t.jobs[j].rest == [] {
      assert ControlOk(t.jobs[j]);
    }
  }

  lemma OwnWhole(ch: Channel, t: System, r: nat, q: Parts, whole: seq<Event>)
    requires r < |t.jobs| && LateAt(ch, t, r, r, q) && q.base == [] && q.early + q.late == whole
    ensures Seen(ch, t.agg, r) <= whole
    ensures Live(ch, t.jobs[r], r) == [] ==> Seen(ch, t.agg, r) == whole
  {
    assert ([] + q.early) + q.late == whole;
    assert Seen(ch, t.agg, r) + [] == Seen(ch, t.agg, r);
  }

  /**
   The job whose own step opened phase 2 has its passed-through events, and its merges, exactly in the order it sent
   them.
   */
  lemma OpenerInOrder(ch: Channel, traces: seq<seq<Event>>, acts: seq<Action>, t: System, k: nat, mid: System, r: nat,
                      c: Choice)
    requires OpensIn(Init(traces), acts, t, traces, k, mid, r, c) && Runs(Init(traces), acts, t) && !ch.Forwards?
    ensures r < |traces| && Seen(ch, t.agg, r) <= Picks(ch, Stamp(r, traces[r]), r)
    ensures t.main.Merged? ==> Seen(ch, t.agg, r) == Picks(ch, Stamp(r, traces[r]), r)
  {
    assert |mid.jobs| == |traces| && r < |mid.jobs|;
    OrderAfterOpening(ch, traces, acts, t, k, mid, r, c, r);
    PlainCut(ch, PartsOf(ch, mid, r), Stamp(r, traces[r]), r, Handled(mid, traces, r), |Seen(ch, mid.agg, r)|);
    OwnWhole(ch, t, r, PartsOf(ch, mid, r), Picks(ch, Stamp(r, traces[r]), r));
    if t.main.Merged? {
      AllSent(ch, traces, acts, t, r);
    }
  }
}
