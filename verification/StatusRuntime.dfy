/**
 The shared cells of one terminal in the form the code has them: fields updated in place, one
 method per atomic section.  Each method is shown to do to the cells exactly what the matching
 action of the protocol does, for every protocol state s that has these cells.
 */
module StatusRuntime {
  import opened Prelude
  import opened StatusProtocol

  datatype Cells = Cells(exited: bool, lastCheck: Option<nat>, pending: bool, seqs: nat, last: Option<(Report, nat)>)

  function CellsOf(s: State): Cells {
    Cells(s.exited, s.lastCheck, s.pending, |s.reserved|,
          if s.last.None? then None else Some((s.last.value.report, s.last.value.seqno)))
  }

  class TerminalRuntime {
    var exited: bool
    var lastStatusCheck: Option<nat>
    var pendingStatusCheck: bool
    var detectionSeq: nat
    var lastAgentState: Option<(Report, nat)>

    function View(): Cells
      reads this
    {
      Cells(exited, lastStatusCheck, pendingStatusCheck, detectionSeq, lastAgentState)
    }

    constructor ()
      ensures View() == CellsOf(Init)
    {
      exited, lastStatusCheck, pendingStatusCheck, detectionSeq, lastAgentState := false, None, false, 0, None;
    }

    /** The mutex section shared by both callers: consume the window if it has expired. */
    method TakeWindow(now: nat) returns (run: bool)
      modifies this`lastStatusCheck
      ensures run == (old(lastStatusCheck) == None || now >= old(lastStatusCheck).value + 500)
      ensures lastStatusCheck == if run then Some(now) else old(lastStatusCheck)
    {
      run := lastStatusCheck.None? || now >= lastStatusCheck.value + THROTTLE_MS;
      if run { lastStatusCheck := Some(now); }
    }

    /** The reader's side of `publish_agent_status_if_changed`, up to the detection core. */
    method PublishGate(now: nat, ghost s: State) returns (run: bool)
      requires View() == CellsOf(s) && s.now == now && ReaderEnabled(s, Gate)
      modifies this
      ensures var g := ReaderApply(s, Gate);
        && run == g.reader.Clearing?
        && View() == CellsOf(ReaderApply(g, if run then ClearPending else MarkPending))
    {
      run := TakeWindow(now);
      pendingStatusCheck := !run;
    }

    /** One sweeper tick, up to the detection core; nothing else runs in between. */
    method SweepGate(now: nat, ghost s: State) returns (run: bool)
      requires View() == CellsOf(s) && s.now == now && SweeperEnabled(s, LoadExited)
      modifies this
      ensures s.exited ==> !run && View() == old(View())
      ensures !s.exited && !s.pending ==> !run && View() == old(View())
      ensures !s.exited && s.pending ==>
        var s1 := SweeperApply(SweeperApply(s, LoadExited), SwapPending);
        var g := SweeperApply(SweeperApply(SweeperApply(s1, Recheck), TakeNow), StatusProtocol.SweepGate);
        && run == g.sweeper.SweeperPass?
        && View() == CellsOf(if run then g else SweeperApply(g, Remark))
    {
      run := false;
      if exited { return; }
      if !pendingStatusCheck { return; }
      pendingStatusCheck := false;
      run := TakeWindow(now);
      if !run { pendingStatusCheck := true; }
    }

    method ReserveSeq(ghost s: State, ghost t: Tid) returns (q: nat)
      requires View() == CellsOf(s) && PassEnabled(s, t, Reserve)
      modifies this`detectionSeq
      ensures q == detectionSeq && (forall e: Detector :: View() == CellsOf(PassApply(e, s, t, Reserve)))
      ensures forall e: Detector :: PassApply(e, s, t, Reserve).passes[t] == Reserved(q)
    {
      detectionSeq := detectionSeq + 1;
      q := detectionSeq;
    }

    /** The compare-and-set under the cache lock; true when an event has to be published. */
    method CommitReport(report: Report, q: nat, ghost e: Detector, ghost s: State, ghost t: Tid) returns (publish: bool)
      requires View() == CellsOf(s) && PassEnabled(s, t, TryCommit)
      requires s.passes[t].q == q && e(s.passes[t].reading) == report
      modifies this`lastAgentState
      ensures View() == CellsOf(PassApply(e, s, t, TryCommit))
      ensures publish <==> t in PassApply(e, s, t, TryCommit).passes
      ensures var was := old(lastAgentState);
        publish ==> was.None? || (was.value.1 < q && was.value.0 != report)
    {
      if lastAgentState.Some? && lastAgentState.value.1 >= q {
        publish := false;
      } else {
        var changed := lastAgentState.None? || lastAgentState.value.0 != report;
        var hadAgent := lastAgentState.Some? && lastAgentState.value.0.agent.Some?;
        lastAgentState := Some((report, q));
        publish := changed && (report.agent.Some? || hadAgent);
      }
    }
  }
}
