/**
 The crash-recovery protocol of scripts/supervisor/runner.py as a transition system.

 A world is what survives a crash (the three durable files and the archive), what does
 not (where the program is), the server, and the history the safety claims are about.
 Every action is one atomic file replacement, one unlink, one request as the server
 sees it, one start of the model CLI, a crash, or a step of the outside world.
 RunnerHost.dfy shows that the code takes no other steps.
 */
module RunnerProtocol {
  import opened Options
  import opened SupervisorLedger

  /** active.json: which run this machine is executing. */
  datatype Journal = Journal(runId: RunId, generation: nat, session: Option<SessionId>)

  /** What the running program knows and a crash forgets. */
  datatype Memory =
    | Idle
    | Claiming(request: RequestId)             // intent saved, claim not answered yet
    | Holding(claimedId: RunId, claimedGeneration: nat)
    | Journaled(preparingId: RunId)            // active.json written, CLI not started
    | Working(workingId: RunId)                // CLI started

  datatype World = World(
    intent: Option<RequestId>,
    active: Option<Journal>,
    outbox: Option<Report>,
    memory: Memory,
    server: Server,
    drawn: set<RequestId>,
    recorded: seq<Report>,
    applied: seq<Report>,
    acknowledged: seq<Report>,
    rejected: seq<Report>,
    starts: seq<RunId>,
    late: set<RequestId>)       // claims that may outlive their intent; only RunnerLate adds any

  datatype Action =
    | Environment(outside: Outside)
    | Crash
    | SaveIntent(request: RequestId)
    | SendClaim(pick: Option<RunId>, admitted: bool, heard: bool)
    | DropIntent
    | WriteActive
    | NoteSession(session: Option<SessionId>)
    | StartCli
    | Record(report: Report)
    | Deliver
    | Acknowledge
    | Archive
    | RemoveActive

  predicate Executes(phase: Phase) {
    phase in {Preparing, Executing, Verifying}
  }

  /** The bodies execute and recover write; only finishing reports carry no phase. */
  predicate RunnerBody(kind: Kind, checkpoint: Checkpoint) {
    && checkpoint.claimRequest.None?
    && match kind
       case Heartbeat => checkpoint.phase.Some? && Executes(checkpoint.phase.value)
       case Progress => checkpoint.phase.Some? && Executes(checkpoint.phase.value)
       case Pause => checkpoint.phase.Some? && !Executes(checkpoint.phase.value) && checkpoint.processStopped
       case Success => true
       case Stop => true
  }

  /** The server holds a terminal status or a paused record for the run. */
  predicate Settled(s: Server, id: RunId) {
    id in s.runs && (Terminal(s.runs[id].status) || s.runs[id].localState == Paused)
  }

  /** The server refuses the body for want of a lease or of ownership, and keeps no trace of it. */
  predicate Doomed(s: Server, r: Report) {
    && r.requestId !in s.reports
    && Refusal(s, Local, r) in {Some(ReportRefused(409, RunLeaseLost)), Some(ReportRefused(409, RunOwnershipLost))}
  }

  /** The kinds after which execute removes active.json. */
  predicate Ends(kind: Kind) {
    kind in {Success, Pause, Stop}
  }

  /** Some report of this machine about the run has been accepted. */
  predicate Heard(s: Server, id: RunId) {
    exists q :: q in s.reports && s.reports[q].actor == Local && s.reports[q].report.runId == id
  }

  predicate Fresh(w: World, q: RequestId) {
    q !in w.drawn && q !in w.server.claims && q !in w.server.reports
  }

  /** No claim made with the saved intent is still waiting to be executed. */
  predicate Released(w: World) {
    w.intent.Some? && w.intent.value in w.server.claims ==>
      Settled(w.server, w.server.claims[w.intent.value].runId)
  }

  /** What the program may report, given where it is and which file names the run. */
  predicate MayReport(w: World, id: RunId, generation: nat, kind: Kind, checkpoint: Checkpoint) {
    && RunnerBody(kind, checkpoint)
    && match w.memory
       case Idle =>
         if w.active.Some? then
           id == w.active.value.runId && generation == w.active.value.generation && kind == Pause
         else
           && w.intent.Some? && w.intent.value in w.server.claims
           && w.server.claims[w.intent.value].runId == id
           && kind == Stop
       case Journaled(current) =>
         w.active.Some? && id == current && generation == w.active.value.generation && kind in {Progress, Pause}
       case Working(current) =>
         w.active.Some? && id == current && generation == w.active.value.generation && kind in {Heartbeat, Success, Pause}
       case _ => false
  }

  predicate MayRecord(w: World, r: Report) {
    w.outbox.None? && Fresh(w, r.requestId) && MayReport(w, r.runId, r.generation, r.kind, r.checkpoint)
  }

  predicate Enabled(w: World, a: Action) {
    match a
    case Environment(outside) => CanHappen(w.server, outside, w.drawn)
    case Crash => true
    case SaveIntent(q) => w.memory == Idle && w.active.None? && Fresh(w, q) && Released(w)
    case SendClaim(_, _, _) =>
      w.intent.Some? && w.active.None? && (w.memory == Idle || w.memory == Claiming(w.intent.value))
    case DropIntent => w.intent.Some? && (w.memory.Journaled? || (w.memory == Idle && Released(w)))
    case WriteActive => w.memory.Holding?
    case NoteSession(_) => w.active.Some?
    case StartCli => w.memory.Journaled? && Heard(w.server, w.memory.preparingId)
    case Record(r) => MayRecord(w, r)
    case Deliver => w.outbox.Some?
    case Acknowledge =>
      && w.outbox.Some?
      && w.outbox.value.requestId in w.server.reports
      && w.server.reports[w.outbox.value.requestId] == ReportEvent(Local, w.outbox.value)
    case Archive =>
      && w.memory == Idle && w.outbox.Some? && w.active.Some?
      && w.outbox.value.runId == w.active.value.runId
      && w.outbox.value.generation == w.active.value.generation
      && Doomed(w.server, w.outbox.value)
    case RemoveActive => w.active.Some? && w.outbox.None? && Settled(w.server, w.active.value.runId)
  }

  /** Where the program stands after a claim request whose answer it may have missed. */
  function AfterClaim(w: World, reply: ClaimReply, heard: bool): Memory {
    if !heard || !reply.ClaimedRun? then Idle
    else if w.memory.Claiming? then Holding(reply.runId, reply.run.generation)
    else if w.intent.Some? && reply.run.checkpoint.claimRequest == w.intent && reply.run.checkpoint.phase.None? then
      Holding(reply.runId, reply.run.generation)
    else Idle
  }

  function Apply(w: World, a: Action): World
    requires Enabled(w, a)
  {
    match a
    case Environment(outside) => w.(server := Happen(w.server, outside))
    case Crash => w.(memory := Idle)
    case SaveIntent(q) => w.(intent := Some(q), memory := Claiming(q), drawn := w.drawn + {q})
    case SendClaim(pick, admitted, heard) =>
      var (server, reply) := ClaimRun(w.server, Local, w.intent.value, pick, admitted);
      w.(server := server, memory := AfterClaim(w, reply, heard))
    case DropIntent => w.(intent := None)
    case WriteActive =>
      w.(active := Some(Journal(w.memory.claimedId, w.memory.claimedGeneration, None)),
         memory := Journaled(w.memory.claimedId))
    case NoteSession(session) => w.(active := Some(w.active.value.(session := session)))
    case StartCli => w.(memory := Working(w.memory.preparingId), starts := w.starts + [w.memory.preparingId])
    case Record(r) => w.(outbox := Some(r), recorded := w.recorded + [r], drawn := w.drawn + {r.requestId})
    case Deliver =>
      var r := w.outbox.value;
      var (server, reply) := ReportRun(w.server, Local, r);
      w.(server := server,
         applied := if r.requestId in w.server.reports || reply != Accepted then w.applied else w.applied + [r])
    case Acknowledge => w.(outbox := None, acknowledged := w.acknowledged + [w.outbox.value])
    case Archive => w.(outbox := None, rejected := w.rejected + [w.outbox.value])
    case RemoveActive => w.(active := None, memory := Idle)
  }

  ghost predicate Next(w: World, w': World) {
    exists a: Action :: Enabled(w, a) && w' == Apply(w, a)
  }

  /** A machine that has never run, in front of any server it has not written to. */
  predicate Initial(w: World) {
    && w.intent.None? && w.active.None? && w.outbox.None? && w.memory == Idle
    && w.drawn == {} && w.recorded == [] && w.applied == [] && w.acknowledged == [] && w.rejected == []
    && w.starts == [] && w.late == {}
    && ServerOk(w.server)
    && (forall id :: id in w.server.runs ==> w.server.runs[id].owner != Some(Local))
    && (forall q :: q in w.server.claims ==> w.server.claims[q].actor != Local)
    && (forall q :: q in w.server.reports ==> w.server.reports[q].actor != Local)
  }

  ghost predicate StepAt(past: seq<World>, i: nat)
    requires 0 < i < |past|
  {
    Next(past[i - 1], past[i])
  }

  ghost predicate Legal(past: seq<World>) {
    forall i: nat :: 0 < i < |past| ==> StepAt(past, i)
  }

  // ---------------------------------------------------------------- claims

  /** The model CLI has been started at most once for every run. */
  predicate StartedAtMostOnce(w: World) {
    forall i, j :: 0 <= i < j < |w.starts| ==> w.starts[i] != w.starts[j]
  }

  /** Every start came after an accepted report about that run. */
  predicate StartsWereAnnounced(w: World) {
    forall i :: 0 <= i < |w.starts| ==> Heard(w.server, w.starts[i])
  }

  /** Claimed by this machine and neither finished nor cancelled. */
  predicate LiveHere(run: Run) {
    run.status == Processing && run.owner == Some(Local)
  }

  predicate NamesActive(w: World, id: RunId) {
    w.active.Some? && w.active.value.runId == id
  }

  /**
   Every live run of this machine is accounted for: an executing one is named by
   active.json, a stopped one is paused on the server, and one that has been claimed but
   never reported on is named by active.json or by the saved claim intent.
   */
  predicate NothingOrphaned(w: World) {
    forall id | id in w.server.runs && LiveHere(w.server.runs[id]) ::
      var run := w.server.runs[id];
      match run.checkpoint.phase
      case None => NamesActive(w, id) || (w.intent.Some? && run.checkpoint.claimRequest == w.intent)
      case Some(phase) => if Executes(phase) then NamesActive(w, id) else run.localState == Paused
  }

  /** The same but for runs claimed by a request that outlived its intent. */
  predicate OnlyLateOrphaned(w: World) {
    forall id | id in w.server.runs && LiveHere(w.server.runs[id]) ::
      var run := w.server.runs[id];
      match run.checkpoint.phase
      case None =>
        || NamesActive(w, id)
        || (w.intent.Some? && run.checkpoint.claimRequest == w.intent)
        || (run.checkpoint.claimRequest.Some? && run.checkpoint.claimRequest.value in w.late)
      case Some(phase) => if Executes(phase) then NamesActive(w, id) else run.localState == Paused
  }

  /** `a` is `b` with some elements left out. */
  predicate InOrder<T(==)>(a: seq<T>, b: seq<T>) {
    if a == [] then true
    else if b == [] then false
    else if a[|a| - 1] == b[|b| - 1] then InOrder(a[..|a| - 1], b[..|b| - 1])
    else InOrder(a, b[..|b| - 1])
  }

  function InOutbox(outbox: Option<Report>): seq<Report> {
    if outbox.Some? then [outbox.value] else []
  }

  predicate DistinctRequests(rs: seq<Report>) {
    forall i, j :: 0 <= i < j < |rs| ==> rs[i].requestId != rs[j].requestId
  }

  /**
   Every body ever written to the outbox is in exactly one of three places, and the
   server applied bodies in the order they were written, each at most once. An archived
   body was never applied and the server would still refuse it.
   */
  predicate ReportsAccounted(w: World) {
    && DistinctRequests(w.recorded)
    && multiset(w.recorded) == multiset(w.acknowledged) + multiset(w.rejected) + multiset(InOutbox(w.outbox))
    && InOrder(w.applied, w.recorded)
    && (forall r :: r in w.acknowledged ==> r in w.applied)
    && (forall r :: r in w.rejected ==> r !in w.applied && Doomed(w.server, r))
  }

  // ------------------------------------------------------- the invariant

  predicate ServerOk(s: Server) {
    && (forall id :: id in s.runs && s.runs[id].status == Processing ==> s.activeRun == Some(id))
    && (forall id :: id in s.runs && s.runs[id].status == Pending ==> s.runs[id].owner.None?)
    && (forall q :: q in s.claims ==>
         s.claims[q].runId in s.runs && s.runs[s.claims[q].runId].owner == Some(s.claims[q].actor))
    && (forall p, q :: p in s.claims && q in s.claims && s.claims[p].runId == s.claims[q].runId ==> p == q)
  }

  /** What this machine's own requests have left on the server. */
  predicate LocalTracks(w: World) {
    && (forall q :: q in w.server.claims && w.server.claims[q].actor == Local ==> q in w.drawn)
    && (forall q :: q in w.server.reports && w.server.reports[q].actor == Local ==>
         && w.server.reports[q].report.requestId == q
         && w.server.reports[q].report in w.applied
         && w.server.reports[q].report.runId in w.server.runs
         && w.server.runs[w.server.reports[q].report.runId].owner == Some(Local)
         && (Ends(w.server.reports[q].report.kind) ==> Settled(w.server, w.server.reports[q].report.runId)))
    && (forall r :: r in w.applied ==>
         r.requestId in w.server.reports && w.server.reports[r.requestId] == ReportEvent(Local, r))
    && (forall r :: r in w.recorded ==>
         && r.requestId in w.drawn
         && r.runId in w.server.runs && w.server.runs[r.runId].owner == Some(Local))
    && (forall r :: r in w.recorded && r.requestId in w.server.reports ==>
         w.server.reports[r.requestId] == ReportEvent(Local, r))
    && (w.intent.Some? ==> w.intent.value in w.drawn)
    && (w.intent.Some? && w.intent.value in w.server.claims ==> w.server.claims[w.intent.value].actor == Local)
  }

  /** Checkpoints of local runs: a live one without a phase is claimed and never reported on. */
  predicate CheckpointOk(w: World, id: RunId)
    requires id in w.server.runs
  {
    var run := w.server.runs[id];
    && (run.owner == Some(Local) && run.checkpoint.claimRequest.Some? ==>
         && run.checkpoint.claimRequest.value in w.server.claims
         && w.server.claims[run.checkpoint.claimRequest.value].runId == id)
    && (LiveHere(run) ==>
         && (run.localState == Paused ==> run.checkpoint.phase.Some? && !Executes(run.checkpoint.phase.value))
         && (run.checkpoint.phase.None? ==> run.checkpoint.claimRequest.Some? && !Heard(w.server, id)))
  }

  predicate FilesOk(w: World) {
    && (w.active.Some? ==>
         && w.active.value.runId in w.server.runs
         && w.server.runs[w.active.value.runId].owner == Some(Local)
         && w.server.runs[w.active.value.runId].generation == w.active.value.generation
         && (w.intent.Some? ==>
              w.intent.value in w.server.claims && w.server.claims[w.intent.value].runId == w.active.value.runId))
    && (w.outbox.Some? ==>
         && w.recorded != [] && w.recorded[|w.recorded| - 1] == w.outbox.value
         && RunnerBody(w.outbox.value.kind, w.outbox.value.checkpoint)
         && w.outbox.value !in w.acknowledged && w.outbox.value !in w.rejected
         && (w.outbox.value.kind != Stop ==>
              && NamesActive(w, w.outbox.value.runId)
              && w.active.value.generation == w.outbox.value.generation))
  }

  predicate MemoryOk(w: World) {
    match w.memory
    case Idle => true
    case Claiming(q) => w.intent == Some(q) && w.active.None? && q !in w.server.claims
    case Holding(id, generation) =>
      && w.active.None?
      && id !in w.starts
      && id in w.server.runs && w.server.runs[id].owner == Some(Local) && w.server.runs[id].generation == generation
      && w.intent.Some? && w.intent.value in w.server.claims && w.server.claims[w.intent.value].runId == id
    case Journaled(id) => NamesActive(w, id) && id !in w.starts
    case Working(id) => NamesActive(w, id)
  }

  predicate Inv(w: World) {
    && ServerOk(w.server)
    && LocalTracks(w)
    && (forall id :: id in w.server.runs ==> CheckpointOk(w, id))
    && FilesOk(w)
    && MemoryOk(w)
    && StartedAtMostOnce(w)
    && StartsWereAnnounced(w)
    && OnlyLateOrphaned(w)
    && ReportsAccounted(w)
  }
}
