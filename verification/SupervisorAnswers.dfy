/**
 What the server's answers mean: exactly when src/lib/supervisor/service.ts grants a claim or
 accepts a report, what each of them does to the ledger, and what no answer touches.
 */
module SupervisorAnswers {
  import opened Options
  import opened SupervisorLedger

  /** A status is final unless the run waits or is being processed. */
  lemma TerminalMeans(status: Status)
    ensures Terminal(status) <==> status != Pending && status != Processing
  {
  }

  // --------------------------------------------------------------- reports

  /** The machine owns the run in this generation, and no other run is active. */
  predicate Owns(s: Server, machine: Machine, r: Report) {
    && r.runId in s.runs && s.activeRun == Some(r.runId)
    && s.runs[r.runId].owner == Some(machine) && s.runs[r.runId].generation == r.generation
  }

  /** The run is being executed under a live lease. */
  predicate InExecution(run: Run) {
    run.status == Processing && run.localState == Running && run.leaseLive
  }

  predicate SessionFits(run: Run, r: Report) {
    run.checkpoint.session.Some? && r.session.Some? ==> run.checkpoint.session.value == r.session.value
  }

  predicate New(s: Server, r: Report) {
    r.requestId !in s.reports
  }

  /** A success needs a running execution, its session, and evidence of tests and readback. */
  lemma SuccessIsAcceptedIff(s: Server, machine: Machine, r: Report)
    requires New(s, r) && r.kind == Success
    ensures ReportRun(s, machine, r).1 == Accepted <==>
      && Owns(s, machine, r) && InExecution(s.runs[r.runId]) && SessionFits(s.runs[r.runId], r)
      && r.session.Some? && r.hasEvidence && r.checkpoint.testsPassed && r.checkpoint.readbackVerified
  {
  }

  /** A stop needs evidence and readback, but neither a lease nor a running execution. */
  lemma StopIsAcceptedIff(s: Server, machine: Machine, r: Report)
    requires New(s, r) && r.kind == Stop
    ensures ReportRun(s, machine, r).1 == Accepted <==>
      && Owns(s, machine, r) && SessionFits(s.runs[r.runId], r)
      && r.hasEvidence && r.checkpoint.processStopped && r.checkpoint.readbackVerified
  {
  }

  lemma PauseIsAcceptedIff(s: Server, machine: Machine, r: Report)
    requires New(s, r) && r.kind == Pause
    ensures ReportRun(s, machine, r).1 == Accepted <==>
      Owns(s, machine, r) && SessionFits(s.runs[r.runId], r) && r.checkpoint.processStopped
  {
  }

  lemma ProgressIsAcceptedIff(s: Server, machine: Machine, r: Report)
    requires New(s, r) && (r.kind == Progress || r.kind == Heartbeat)
    ensures ReportRun(s, machine, r).1 == Accepted <==>
      Owns(s, machine, r) && InExecution(s.runs[r.runId]) && SessionFits(s.runs[r.runId], r)
  {
  }

  /** Ownership is told apart from a lease, and both from everything else. */
  lemma RefusalCodesMean(s: Server, machine: Machine, r: Report)
    requires New(s, r)
    ensures
      var reply := ReportRun(s, machine, r).1;
      && (reply == ReportRefused(409, RunOwnershipLost) <==> r.runId in s.runs && !Owns(s, machine, r))
      && (reply == ReportRefused(409, RunLeaseLost) <==>
           Owns(s, machine, r) && !InExecution(s.runs[r.runId]) && r.kind != Stop && r.kind != Pause)
      && (reply == ReportRefused(503, OtherCode) <==> r.runId !in s.runs)
      && (reply == Accepted || reply == ReportRefused(409, RunOwnershipLost) || reply == ReportRefused(409, RunLeaseLost)
          || reply == ReportRefused(503, OtherCode) || reply == ReportRefused(409, OtherCode))
  {
  }

  /** An accepted report is kept under its id; the run follows it and nothing else changes. */
  lemma AcceptedReportDoes(s: Server, machine: Machine, r: Report)
    requires New(s, r) && ReportRun(s, machine, r).1 == Accepted
    ensures
      var run, s' := s.runs[r.runId], ReportRun(s, machine, r).0;
      && s'.mode == s.mode && s'.claims == s.claims && s'.reports == s.reports[r.requestId := ReportEvent(machine, r)]
      && s'.activeRun == (if r.kind == Success || r.kind == Stop then None else s.activeRun)
      && s'.runs == s.runs[r.runId := s'.runs[r.runId]]
      && var run' := s'.runs[r.runId];
         && run'.owner == run.owner && run'.generation == run.generation
         && run'.checkpoint.(session := None) == r.checkpoint.(session := None)
         && run'.checkpoint.session == (if r.session.Some? then r.session else run.checkpoint.session)
         && (r.kind == Heartbeat || r.kind == Progress ==>
              run'.status == run.status && run'.localState == run.localState && run'.leaseLive)
         && (r.kind == Pause ==> run'.status == run.status && run'.localState == Paused && !run'.leaseLive)
         && (r.kind == Stop ==>
              run'.localState == Stopped && !run'.leaseLive
              && run'.status == (if run.status == Cancelled then Cancelled else Failed))
         && (r.kind == Success ==> run'.status == Succeeded && run'.localState == Completed && !run'.leaseLive)
  {
  }

  /** A refused or repeated report changes nothing; a repeated one is accepted if it is the same. */
  lemma OtherReportsDoNothing(s: Server, machine: Machine, r: Report)
    ensures !New(s, r) || ReportRun(s, machine, r).1 != Accepted ==> ReportRun(s, machine, r).0 == s
    ensures !New(s, r) ==> (ReportRun(s, machine, r).1 == Accepted <==> s.reports[r.requestId] == ReportEvent(machine, r))
    ensures !New(s, r) && ReportRun(s, machine, r).1 != Accepted ==> ReportRun(s, machine, r).1 == ReportRefused(409, OtherCode)
  {
  }

  // ---------------------------------------------------------------- claims

  /** A new claim is granted the picked pending run of an active server that executes nothing. */
  lemma ClaimIsGrantedIff(s: Server, machine: Machine, q: RequestId, pick: Option<RunId>, admitted: bool)
    requires q !in s.claims
    ensures
      var (s', reply) := ClaimRun(s, machine, q, pick, admitted);
      && (reply.ClaimedRun? <==>
           && s.mode == ModeActive && s.activeRun.None? && admitted
           && pick.Some? && pick.value in s.runs && s.runs[pick.value].status == Pending)
      && (reply.ClaimedRun? ==>
           var run := s.runs[pick.value];
           && reply.runId == pick.value && s'.runs == s.runs[pick.value := reply.run]
           && s'.activeRun == pick && s'.claims == s.claims[q := ClaimEvent(machine, pick.value)]
           && s'.mode == s.mode && s'.reports == s.reports
           && reply.run.status == Processing && reply.run.localState == Running && reply.run.leaseLive
           && reply.run.owner == Some(machine) && reply.run.generation == run.generation + 1
           && reply.run.checkpoint.claimRequest == Some(q) && reply.run.checkpoint.phase.None?
           && reply.run.checkpoint.session.None? && !reply.run.checkpoint.processStopped
           && !reply.run.checkpoint.readbackVerified && !reply.run.checkpoint.testsPassed)
  {
  }

  /** Otherwise a new claim learns of the active run, of nothing to do, or is refused. */
  lemma UngrantedClaimMeans(s: Server, machine: Machine, q: RequestId, pick: Option<RunId>, admitted: bool)
    requires q !in s.claims
    ensures
      var reply := ClaimRun(s, machine, q, pick, admitted).1;
      && (reply == ClaimRefused(503, OtherCode) <==>
           s.mode == ModeActive && s.activeRun.Some? && s.activeRun.value !in s.runs)
      && (reply == ClaimRefused(409, OtherCode) <==>
           || s.mode != ModeActive
           || (s.activeRun.None? && !admitted && pick.Some? && pick.value in s.runs && s.runs[pick.value].status == Pending))
      && (reply.ActiveRun? <==> s.mode == ModeActive && s.activeRun.Some? && s.activeRun.value in s.runs)
      && (reply.ActiveRun? ==> reply.activeId == s.activeRun.value && reply.active == s.runs[s.activeRun.value])
      && (reply.ClaimRefused? ==> reply.code == OtherCode)
  {
  }

  /** It changes the ledger only by marking a running active run without a lease as uncertain. */
  lemma UngrantedClaimDoes(s: Server, machine: Machine, q: RequestId, pick: Option<RunId>, admitted: bool)
    requires !ClaimRun(s, machine, q, pick, admitted).1.ClaimedRun? || q in s.claims
    ensures
      var s' := ClaimRun(s, machine, q, pick, admitted).0;
      if q !in s.claims && s.mode == ModeActive && s.activeRun.Some? && s.activeRun.value in s.runs
         && s.runs[s.activeRun.value].localState == Running && !s.runs[s.activeRun.value].leaseLive
      then
        var id := s.activeRun.value;
        s' == s.(runs := s'.runs) && s'.runs == s.runs[id := s'.runs[id]] && s'.runs[id] == s.runs[id].(localState := Uncertain)
      else s' == s
  {
  }

  /** A repeated claim gets its run back while that is being executed, and otherwise only sees it. */
  lemma RepeatedClaimMeans(s: Server, machine: Machine, q: RequestId, pick: Option<RunId>, admitted: bool)
    requires q in s.claims
    ensures
      var reply, id := ClaimRun(s, machine, q, pick, admitted).1, s.claims[q].runId;
      if s.claims[q].actor != machine || id !in s.runs then reply == ClaimRefused(409, OtherCode)
      else if s.runs[id].owner != Some(machine) then reply == ClaimRefused(409, RunOwnershipLost)
      else if s.mode == ModeActive && InExecution(s.runs[id]) then reply == ClaimedRun(id, s.runs[id])
      else reply == ActiveRun(id, s.runs[id])
  {
  }

  // --------------------------------------------- decisions and the clock

  /** One run changes as decided, the claims and reports do not, and no other run does. */
  lemma DecisionsDo(s: Server, o: Outside, id: RunId, mine: set<RequestId>)
    requires CanHappen(s, o, mine)
    requires o == CancelRun(id) || o == Reconcile(id) || o == ExpirePending(id) || o == LeaseEnds(id) || o == Approve(id)
    ensures
      var s' := Happen(s, o);
      && s'.mode == s.mode && s'.claims == s.claims && s'.reports == s.reports
      && id in s'.runs && s'.runs == s.runs[id := s'.runs[id]]
      && (o != Approve(id) ==>
           s'.runs[id].owner == s.runs[id].owner && s'.runs[id].generation == s.runs[id].generation
           && s'.runs[id].checkpoint == s.runs[id].checkpoint)
  {
  }

  /** Which decisions the server takes: on runs in the state each asks for, and no request of ours among them. */
  lemma DecisionsAreTaken(s: Server, id: RunId, mine: set<RequestId>)
    ensures CanHappen(s, Approve(id), mine) <==> id !in s.runs
    ensures id in s.runs ==>
      && (CanHappen(s, CancelRun(id), mine) <==>
            (s.runs[id].status == Pending || s.runs[id].status == Processing) && s.runs[id].localState != Paused)
      && (CanHappen(s, Reconcile(id), mine) <==> s.runs[id].localState == Paused && s.runs[id].checkpoint.processStopped)
      && (CanHappen(s, ExpirePending(id), mine) <==> s.runs[id].status == Pending)
      && CanHappen(s, LeaseEnds(id), mine)
    ensures id !in s.runs ==>
      && !CanHappen(s, CancelRun(id), mine) && !CanHappen(s, Reconcile(id), mine)
      && !CanHappen(s, ExpirePending(id), mine) && !CanHappen(s, LeaseEnds(id), mine)
  {
  }

  /** Other machines send requests of their own at any time. */
  lemma OthersMayAsk(s: Server, machine: Machine, q: RequestId, pick: Option<RunId>, r: Report, mine: set<RequestId>)
    ensures CanHappen(s, OtherClaim(machine, q, pick), mine) <==> machine != Local && q !in mine
    ensures CanHappen(s, OtherReport(machine, r), mine) <==> machine != Local && r.requestId !in mine
    ensures Happen(s, OtherReport(machine, r)) == ReportRun(s, machine, r).0
    ensures s.mode == ModeActive && s.activeRun.None? && q !in s.claims && pick.Some? && pick.value in s.runs
            && s.runs[pick.value].status == Pending ==>
      Happen(s, OtherClaim(machine, q, pick)).activeRun == pick && q in Happen(s, OtherClaim(machine, q, pick)).claims
  {
  }

  /** Cancelling ends a waiting run at once, and asks the machine of a running one to stop. */
  lemma CancelDoes(s: Server, id: RunId)
    requires id in s.runs && (s.runs[id].status == Pending || s.runs[id].status == Processing)
    ensures
      var run, s' := s.runs[id], Happen(s, CancelRun(id));
      && s'.runs[id].status == Cancelled && s'.runs[id].leaseLive == run.leaseLive
      && s'.runs[id].localState == (if run.status == Pending then Stopped else StopRequested)
      && s'.activeRun == (if run.status == Pending && s.activeRun == Some(id) then None else s.activeRun)
  {
  }

  lemma ReconcileDoes(s: Server, id: RunId)
    requires id in s.runs
    ensures
      var run, s' := s.runs[id], Happen(s, Reconcile(id));
      && s'.runs[id].status == (if run.status == Cancelled then Cancelled else Failed)
      && s'.runs[id].localState == Stopped && !s'.runs[id].leaseLive
      && s'.activeRun == (if s.activeRun == Some(id) then None else s.activeRun)
  {
  }

  /** An approval queues a run; an expiry ends a waiting one; the clock ends a lease; modes change alone. */
  lemma OtherDecisionsDo(s: Server, id: RunId, mode: Mode)
    ensures Happen(s, Approve(id)).runs[id] == Run(Pending, Queued, None, 0, false, Checkpoint(None, None, false, false, false, None))
    ensures Happen(s, Approve(id)).activeRun == s.activeRun
    ensures id in s.runs ==>
      && Happen(s, ExpirePending(id)).runs[id] == s.runs[id].(status := Expired, localState := Stopped)
      && Happen(s, LeaseEnds(id)).runs[id] == s.runs[id].(leaseLive := false)
      && Happen(s, ExpirePending(id)).activeRun == s.activeRun && Happen(s, LeaseEnds(id)).activeRun == s.activeRun
    ensures Happen(s, SetMode(mode)) == s.(mode := mode)
  {
  }
}
