/**
 The server side of the supervisor protocol: the coordinator row, the runs and the
 two families of work events (claims and reports) of src/lib/supervisor/service.ts.

 Each database transaction is one function from the old ledger to the new one and a
 reply. Clock comparisons become facts: `leaseLive` says that leaseUntil is in the
 future, and `LeaseEnds` is the step that makes it false.
 */
module SupervisorLedger {
  import opened Options

  type RequestId = nat
  type RunId = nat
  type SessionId = nat

  /** `Local` is the machine whose runner is modelled; any other machine is `Remote`. */
  datatype Machine = Local | Remote(name: nat)

  datatype Mode = ModeObserve | ModeActive | ModePaused

  datatype Status = Pending | Processing | Succeeded | Failed | Cancelled | Expired

  datatype LocalState = Queued | Running | StopRequested | Uncertain | Paused | Stopped | Completed

  datatype Phase = Preparing | Executing | Verifying | NeedsReadback | NeedsExternalReadback

  datatype Checkpoint = Checkpoint(
    claimRequest: Option<RequestId>,
    phase: Option<Phase>,
    processStopped: bool,
    readbackVerified: bool,
    testsPassed: bool,
    session: Option<SessionId>)

  datatype Run = Run(
    status: Status,
    localState: LocalState,
    owner: Option<Machine>,
    generation: nat,
    leaseLive: bool,
    checkpoint: Checkpoint)

  datatype Kind = Heartbeat | Progress | Success | Pause | Stop

  datatype Report = Report(
    requestId: RequestId,
    runId: RunId,
    generation: nat,
    kind: Kind,
    session: Option<SessionId>,
    hasEvidence: bool,
    checkpoint: Checkpoint)

  datatype ReportEvent = ReportEvent(actor: Machine, report: Report)

  datatype ClaimEvent = ClaimEvent(actor: Machine, runId: RunId)

  datatype Server = Server(
    mode: Mode,
    activeRun: Option<RunId>,
    runs: map<RunId, Run>,
    claims: map<RequestId, ClaimEvent>,
    reports: map<RequestId, ReportEvent>)

  datatype Code = RunLeaseLost | RunOwnershipLost | OtherCode

  datatype ReportReply = Accepted | ReportRefused(status: nat, code: Code)

  datatype ClaimReply =
    | ClaimedRun(runId: RunId, run: Run)
    | ActiveRun(activeId: RunId, active: Run)
    | NothingToClaim
    | ClaimRefused(status: nat, code: Code)

  const EMPTY_CHECKPOINT := Checkpoint(None, None, false, false, false, None)

  const QUEUED_RUN := Run(Pending, Queued, None, 0, false, EMPTY_CHECKPOINT)

  predicate Terminal(status: Status) {
    status in {Succeeded, Failed, Cancelled, Expired}
  }

  predicate CanReport(run: Run, machine: Machine, generation: nat) {
    run.status == Processing && run.owner == Some(machine) && run.generation == generation && run.leaseLive
  }

  predicate Finishes(kind: Kind) {
    kind == Stop || kind == Success
  }

  /** The first check of reportRun that fails, if any. */
  function Refusal(s: Server, machine: Machine, r: Report): Option<ReportReply> {
    if r.runId !in s.runs then
      Some(ReportRefused(503, OtherCode))
    else
      var run := s.runs[r.runId];
      if !(run.owner == Some(machine) && run.generation == r.generation && s.activeRun == Some(r.runId)) then
        Some(ReportRefused(409, RunOwnershipLost))
      else if r.kind == Stop && !(r.checkpoint.processStopped && r.checkpoint.readbackVerified && r.hasEvidence) then
        Some(ReportRefused(409, OtherCode))
      else if r.kind == Pause && !r.checkpoint.processStopped then
        Some(ReportRefused(409, OtherCode))
      else if r.kind != Stop && r.kind != Pause
           && !(CanReport(run, machine, r.generation) && run.localState == Running) then
        Some(ReportRefused(409, RunLeaseLost))
      else if run.checkpoint.session.Some? && r.session.Some? && run.checkpoint.session != r.session then
        Some(ReportRefused(409, OtherCode))
      else if r.kind == Success
           && !(r.session.Some? && r.hasEvidence && r.checkpoint.testsPassed && r.checkpoint.readbackVerified) then
        Some(ReportRefused(409, OtherCode))
      else
        None
  }

  /** The run row after an accepted report: the checkpoint is replaced, not merged. */
  function Reported(run: Run, r: Report): Run {
    Run(
      if !Finishes(r.kind) || run.status == Cancelled then run.status
      else if r.kind == Success then Succeeded else Failed,
      match r.kind
      case Success => Completed
      case Stop => Stopped
      case Pause => Paused
      case _ => run.localState,
      run.owner,
      run.generation,
      !Finishes(r.kind) && r.kind != Pause,
      r.checkpoint.(session := if r.session.Some? then r.session else run.checkpoint.session))
  }

  function ReportRun(s: Server, machine: Machine, r: Report): (Server, ReportReply) {
    if r.requestId in s.reports then
      (s, if s.reports[r.requestId] == ReportEvent(machine, r) then Accepted else ReportRefused(409, OtherCode))
    else
      match Refusal(s, machine, r)
      case Some(reply) => (s, reply)
      case None =>
        (s.(runs := s.runs[r.runId := Reported(s.runs[r.runId], r)],
            activeRun := if Finishes(r.kind) then None else s.activeRun,
            reports := s.reports[r.requestId := ReportEvent(machine, r)]),
         Accepted)
  }

  function Claimed(run: Run, machine: Machine, request: RequestId): Run {
    Run(Processing, Running, Some(machine), run.generation + 1, true,
        EMPTY_CHECKPOINT.(claimRequest := Some(request)))
  }

  /**
   claimRun. `pick` is the pending run the database query selects, if there is one,
   and `admitted` says whether its evidence and target policy are still valid.
   */
  function ClaimRun(s: Server, machine: Machine, request: RequestId, pick: Option<RunId>, admitted: bool)
    : (Server, ClaimReply)
  {
    if request in s.claims then
      var event := s.claims[request];
      if event.actor != machine || event.runId !in s.runs then
        (s, ClaimRefused(409, OtherCode))
      else
        var run := s.runs[event.runId];
        if run.owner != Some(machine) then
          (s, ClaimRefused(409, RunOwnershipLost))
        else if s.mode == ModeActive && CanReport(run, machine, run.generation) && run.localState == Running then
          (s, ClaimedRun(event.runId, run))
        else
          (s, ActiveRun(event.runId, run))
    else if s.mode != ModeActive then
      (s, ClaimRefused(409, OtherCode))
    else if s.activeRun.Some? then
      var id := s.activeRun.value;
      if id !in s.runs then
        (s, ClaimRefused(503, OtherCode))
      else
        var run := s.runs[id];
        (if !run.leaseLive && run.localState == Running then
           s.(runs := s.runs[id := run.(localState := Uncertain)])
         else s,
         ActiveRun(id, run))
    else if pick.None? || pick.value !in s.runs || s.runs[pick.value].status != Pending then
      (s, NothingToClaim)
    else if !admitted then
      (s, ClaimRefused(409, OtherCode))
    else
      var run := Claimed(s.runs[pick.value], machine, request);
      (s.(runs := s.runs[pick.value := run],
          activeRun := pick,
          claims := s.claims[request := ClaimEvent(machine, pick.value)]),
       ClaimedRun(pick.value, run))
  }

  /** Everything that can happen on the server without this machine asking for it. */
  datatype Outside =
    | Approve(id: RunId)
    | CancelRun(id: RunId)
    | Reconcile(id: RunId)
    | ExpirePending(id: RunId)
    | LeaseEnds(id: RunId)
    | SetMode(mode: Mode)
    | OtherClaim(machine: Machine, request: RequestId, pick: Option<RunId>)
    | OtherReport(machine: Machine, report: Report)

  /** `mine` are the request ids this machine has drawn; others draw different ones. */
  predicate CanHappen(s: Server, o: Outside, mine: set<RequestId>) {
    match o
    case Approve(id) => id !in s.runs
    case CancelRun(id) =>
      id in s.runs && s.runs[id].status in {Pending, Processing} && s.runs[id].localState != Paused
    case Reconcile(id) =>
      id in s.runs && s.runs[id].localState == Paused && s.runs[id].checkpoint.processStopped
    case ExpirePending(id) => id in s.runs && s.runs[id].status == Pending
    case LeaseEnds(id) => id in s.runs
    case SetMode(_) => true
    case OtherClaim(machine, request, _) => machine != Local && request !in mine
    case OtherReport(machine, report) => machine != Local && report.requestId !in mine
  }

  function Happen(s: Server, o: Outside): Server {
    match o
    case Approve(id) => s.(runs := s.runs[id := QUEUED_RUN])
    case CancelRun(id) =>
      if id !in s.runs then s else
      var run := s.runs[id];
      s.(runs := s.runs[id := run.(status := Cancelled,
                                   localState := if run.status == Pending then Stopped else StopRequested)],
         activeRun := if run.status == Pending && s.activeRun == Some(id) then None else s.activeRun)
    case Reconcile(id) =>
      if id !in s.runs then s else
      var run := s.runs[id];
      s.(runs := s.runs[id := run.(status := if run.status == Cancelled then Cancelled else Failed,
                                   localState := Stopped, leaseLive := false)],
         activeRun := if s.activeRun == Some(id) then None else s.activeRun)
    case ExpirePending(id) =>
      if id !in s.runs then s else
      s.(runs := s.runs[id := s.runs[id].(status := Expired, localState := Stopped)])
    case LeaseEnds(id) =>
      if id !in s.runs then s else
      s.(runs := s.runs[id := s.runs[id].(leaseLive := false)])
    case SetMode(mode) => s.(mode := mode)
    case OtherClaim(machine, request, pick) => ClaimRun(s, machine, request, pick, true).0
    case OtherReport(machine, report) => ReportRun(s, machine, report).0
  }
}
