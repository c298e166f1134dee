/**
 The runner itself: report, flush_outbox, execute, recover and cycle of
 scripts/supervisor/runner.py, over durable files that the methods rewrite and unlink.

 Before every file operation and around every request the outside world may act, earlier
 requests may arrive unless the server is `prompt`, and the machine may crash. `past` is the
 list of worlds so far; `Valid` says that it is a run of the transition system, so each method
 is shown to take only its steps, on every path, including the paths cut short by a crash.
 */
module RunnerHost {
  import opened Options
  import opened SupervisorLedger
  import opened SupervisorAnswers
  import opened RunnerProtocol
  import opened RunnerSafety
  import opened RunnerLate
  import opened RunnerMoves

  /**
   What ends a call early. `Waiting` and `Rejected` are the two exceptions execute handles;
   `Escaped` is any other exception; `Crashed` is the end of the process.
   */
  datatype Fault = Crashed | Waiting | Rejected(status: nat, code: Code) | Escaped

  datatype Outcome<+T> = Return(value: T) | Raise(fault: Fault) {
    predicate IsFailure() { Raise? }
    function PropagateFailure<U>(): Outcome<U> requires Raise? { Raise(fault) }
    function Extract(): T requires Return? { value }
  }

  /** The answer to GET runs/{id}. */
  datatype RunState = RunState(run: Option<Run>, activeRun: Option<RunId>)

  const VERIFIED := EMPTY_CHECKPOINT.(testsPassed := true, readbackVerified := true, processStopped := true)
  const INTERRUPTED := EMPTY_CHECKPOINT.(processStopped := true, phase := Some(NeedsReadback))
  const RESTARTED := EMPTY_CHECKPOINT.(processStopped := true, phase := Some(NeedsExternalReadback))
  const EXECUTES := EMPTY_CHECKPOINT.(phase := Some(Executing))
  const VERIFIES := EMPTY_CHECKPOINT.(phase := Some(Verifying))
  const PREPARES := EMPTY_CHECKPOINT.(phase := Some(Preparing))
  const NEVER_STARTED := EMPTY_CHECKPOINT.(processStopped := true, readbackVerified := true)

  predicate Says(r: Report, id: RunId, generation: nat, kind: Kind, session: Option<SessionId>, evidence: bool,
                 checkpoint: Checkpoint)
  {
    && r.runId == id && r.generation == generation && r.kind == kind && r.session == session
    && r.hasEvidence == evidence && r.checkpoint == checkpoint
  }

  predicate LastSays(rs: seq<Report>, id: RunId, generation: nat, kind: Kind, session: Option<SessionId>, evidence: bool,
                     checkpoint: Checkpoint)
  {
    rs != [] && Says(rs[|rs| - 1], id, generation, kind, session, evidence, checkpoint)
  }

  /** The last report that got through says that the run succeeded, or that it was paused. */
  ghost predicate Finished(rs: seq<Report>, id: RunId, generation: nat) {
    exists session ::
      || LastSays(rs, id, generation, Success, session, true, VERIFIED)
      || LastSays(rs, id, generation, Pause, session, true, INTERRUPTED)
  }

  /** A request that got no answer from the application. */
  function Unreachable<T>(): Outcome<T> {
    Raise(Waiting)
  }

  /** The test recover puts a claimed run to before handing it to execute (line 397). */
  predicate NeverReported(intent: Option<RequestId>, run: Run) {
    intent.Some? && run.checkpoint.claimRequest == intent && run.checkpoint.phase.None?
  }

  /** A copy of a local run: what it says about ownership and about the end is still so. */
  predicate Shows(s: Server, id: RunId, run: Run) {
    && run.owner == Some(Local)
    && id in s.runs && s.runs[id].owner == Some(Local) && s.runs[id].generation == run.generation
    && (Terminal(run.status) || run.localState == Paused ==> Settled(s, id))
  }

  /** What the answer "another run is active" tells about the saved intent for good. */
  predicate Answers(w: World, id: RunId, run: Run) {
    && w.intent.Some?
    && (run.owner == Some(Local) ==> Shows(w.server, id, run))
    && (run.owner == Some(Local) && run.checkpoint.claimRequest == w.intent ==>
         w.intent.value in w.server.claims && w.server.claims[w.intent.value].runId == id)
  }

  /** What it tells as long as no late claim is granted: any run of the intent is this one. */
  predicate Decides(w: World, id: RunId, run: Run) {
    w.intent.Some? && w.intent.value in w.server.claims ==>
      w.server.claims[w.intent.value].runId == id && run.owner == Some(Local)
  }

  lemma {:induction false} DrawnRemain(past: seq<World>, from: nat, to: nat)
    requires from <= to < |past| && LateLegal(past)
    ensures past[from].drawn <= past[to].drawn
  {
    if from < to {
      DrawnRemain(past, from, to - 1);
      assert LateStepAt(past, to);
    }
  }

  /** What GET runs/{id} shows of a world. */
  predicate Looks(w: World, id: RunId, state: RunState) {
    && state.activeRun == w.server.activeRun
    && state.run == (if id in w.server.runs && w.server.runs[id].owner == Some(Local) then Some(w.server.runs[id]) else None)
  }

  /** The run looked like this at some moment from `from` on. */
  ghost predicate WasSeen(past: seq<World>, from: nat, id: RunId, state: RunState) {
    exists i :: from <= i < |past| && Looks(past[i], id, state)
  }

  ghost predicate WasInMode(past: seq<World>, from: nat, mode: Mode) {
    exists i :: from <= i < |past| && past[i].server.mode == mode
  }

  /** The server is active and executes nothing. */
  predicate Free(w: World) {
    w.server.mode == ModeActive && w.server.activeRun.None?
  }

  ghost predicate WasFree(past: seq<World>, from: nat) {
    exists i :: from <= i < |past| && Free(past[i])
  }

  lemma MomentsRemain(before: seq<World>, past: seq<World>, from: nat)
    requires before <= past
    ensures forall id, state :: WasSeen(before, from, id, state) ==> WasSeen(past, from, id, state)
    ensures forall mode :: WasInMode(before, from, mode) ==> WasInMode(past, from, mode)
  {
    forall id, state | WasSeen(before, from, id, state)
      ensures WasSeen(past, from, id, state)
    {
      var i :| from <= i < |before| && Looks(before[i], id, state);
      assert Looks(past[i], id, state);
    }
    forall mode | WasInMode(before, from, mode)
      ensures WasInMode(past, from, mode)
    {
      var i :| from <= i < |before| && before[i].server.mode == mode;
      assert past[i].server.mode == mode;
    }
  }

  lemma FreedomRemains(before: seq<World>, past: seq<World>, later: nat, from: nat)
    requires before <= past && from <= later
    ensures WasFree(before, later) ==> WasFree(past, from)
  {
    if WasFree(before, later) {
      var i :| later <= i < |before| && Free(before[i]);
      assert Free(past[i]);
    }
  }

  /** The journal goes without a report if the run is over or paused, and with one while it is active. */
  predicate JournalMayGo(state: RunState, id: RunId, reported: bool) {
    && state.run.Some?
    && if state.activeRun == Some(id) then reported == (state.run.value.localState != Paused)
       else !reported && Terminal(state.run.value.status)
  }

  ghost predicate SawJournalMayGo(past: seq<World>, from: nat, id: RunId, reported: bool) {
    exists state :: WasSeen(past, from, id, state) && JournalMayGo(state, id, reported)
  }

  /** A lost claim is reported as stopped only while its run is active here and was never reported on. */
  predicate ClaimMayGo(state: RunState, id: RunId, run: Run, intent: Option<RequestId>, reported: bool) {
    if state.activeRun == Some(id) then
      reported && run.owner == Some(Local) && run.checkpoint.claimRequest == intent && run.checkpoint.phase.None?
    else !reported && Terminal(run.status)
  }

  ghost predicate SawClaimMayGo(past: seq<World>, from: nat, id: RunId, run: Run, intent: Option<RequestId>, reported: bool) {
    exists state :: WasSeen(past, from, id, state) && ClaimMayGo(state, id, run, intent, reported)
  }

  ghost predicate SawClaimOver(past: seq<World>, from: nat, intent: Option<RequestId>) {
    exists id, run :: SawClaimMayGo(past, from, id, run, intent, false)
  }

  lemma OverRemains(before: seq<World>, past: seq<World>, later: nat, from: nat, intent: Option<RequestId>)
    requires before <= past && from <= later
    ensures SawClaimOver(before, later, intent) ==> SawClaimOver(past, from, intent)
  {
    if SawClaimOver(before, later, intent) {
      var id, run :| SawClaimMayGo(before, later, id, run, intent, false);
      var state :| WasSeen(before, later, id, state) && ClaimMayGo(state, id, run, intent, false);
      var i :| later <= i < |before| && Looks(before[i], id, state);
      assert Looks(past[i], id, state);
      assert SawClaimMayGo(past, from, id, run, intent, false);
    }
  }

  lemma SightsRemain(before: seq<World>, past: seq<World>, from: nat, id: RunId, state: RunState)
    requires before <= past && WasSeen(before, from, id, state)
    ensures forall reported :: JournalMayGo(state, id, reported) ==> SawJournalMayGo(past, from, id, reported)
    ensures forall run, intent, reported :: ClaimMayGo(state, id, run, intent, reported) ==>
              SawClaimMayGo(past, from, id, run, intent, reported)
  {
    MomentsRemain(before, past, from);
  }

  /** Two worlds with the same run in hand, in the files and in memory. */
  predicate SameRun(w: World, w': World) {
    w'.intent == w.intent && w'.active == w.active && w'.memory == w.memory && w'.starts == w.starts
  }

  /** A history, seen as the world it has led to. */
  ghost predicate History(prompt: bool, past: seq<World>) {
    LateLegal(past) && (prompt ==> Legal(past))
  }

  function Now(past: seq<World>): World
    requires past != []
  {
    past[|past| - 1]
  }

  /** What execute reports as verified is accepted as long as the server sees the run executed here. */
  lemma VerifiedSuccessIsAccepted(s: Server, r: Report, session: SessionId)
    requires Says(r, r.runId, r.generation, Success, Some(session), true, VERIFIED) && New(s, r)
    requires Owns(s, Local, r) && InExecution(s.runs[r.runId])
    requires s.runs[r.runId].checkpoint.session in {None, Some(session)}
    ensures Refusal(s, Local, r).None? && ReportRun(s, Local, r).1 == Accepted
    ensures ReportRun(s, Local, r).0.runs[r.runId].status == Succeeded && ReportRun(s, Local, r).0.activeRun.None?
    ensures ReportRun(s, Local, r).0.runs[r.runId].checkpoint
         == EMPTY_CHECKPOINT.(testsPassed := true, readbackVerified := true, processStopped := true, session := Some(session))
  {
    SuccessIsAcceptedIff(s, Local, r);
    AcceptedReportDoes(s, Local, r);
  }

  /** What recovery reports as never started is accepted as long as the run is this machine's active one. */
  lemma NeverStartedStopIsAccepted(s: Server, r: Report)
    requires Says(r, r.runId, r.generation, Stop, None, true, NEVER_STARTED) && New(s, r) && Owns(s, Local, r)
    ensures Refusal(s, Local, r).None? && ReportRun(s, Local, r).1 == Accepted
    ensures Terminal(ReportRun(s, Local, r).0.runs[r.runId].status) && ReportRun(s, Local, r).0.activeRun.None?
  {
    StopIsAcceptedIff(s, Local, r);
    AcceptedReportDoes(s, Local, r);
  }

  /** So is either pause, from execute or from recovery, whatever has become of the lease. */
  lemma PauseIsAccepted(s: Server, r: Report)
    requires New(s, r) && Owns(s, Local, r) && SessionFits(s.runs[r.runId], r)
    requires Says(r, r.runId, r.generation, Pause, r.session, true, INTERRUPTED)
          || Says(r, r.runId, r.generation, Pause, r.session, true, RESTARTED)
    ensures Refusal(s, Local, r).None? && ReportRun(s, Local, r).1 == Accepted
    ensures
      var run := ReportRun(s, Local, r).0.runs[r.runId];
      && run.localState == Paused && run.checkpoint.processStopped
      && run.checkpoint.phase == Some(if r.checkpoint == RESTARTED then NeedsExternalReadback else NeedsReadback)
  {
    PauseIsAcceptedIff(s, Local, r);
    AcceptedReportDoes(s, Local, r);
  }

  lemma ClaimAnswers(w: World, pick: Option<RunId>, admitted: bool)
    requires Inv(w) && w.intent.Some?
    ensures
      var (s, reply) := ClaimRun(w.server, Local, w.intent.value, pick, admitted);
      && (reply.NothingToClaim? ==> w.intent.value !in s.claims)
      && (reply.ActiveRun? ==>
           Answers(w.(server := s), reply.activeId, reply.active) && Decides(w.(server := s), reply.activeId, reply.active))
      && (reply.ActiveRun? && w.memory.Claiming? ==> w.intent.value !in s.claims)
  {
    var reply := ClaimRun(w.server, Local, w.intent.value, pick, admitted).1;
    if reply.ActiveRun? {
      assert CheckpointOk(w, reply.activeId);
    }
  }

  lemma AcceptedReportCounts(w: World, r: Report)
    requires Inv(w) && r.requestId in w.server.reports && w.server.reports[r.requestId] == ReportEvent(Local, r)
    ensures Heard(w.server, r.runId)
    ensures Ends(r.kind) ==> Settled(w.server, r.runId)
  {
  }

  lemma IntentStaysUnclaimed(w: World, w': World)
    requires Inv(w) && Moves(true, w, w') && w.intent.Some? && w.intent.value !in w.server.claims
    ensures w.intent.value !in w'.server.claims
  {
  }

  /** What the answer to a claim tells, after some time. */
  lemma AnswerLasts(prompt: bool, w: World, w': World, reply: ClaimReply)
    requires Inv(w) && Moves(prompt, w, w') && w.intent.Some?
    ensures prompt && w.intent.value !in w.server.claims ==> w.intent.value !in w'.server.claims
    ensures reply.ActiveRun? && Answers(w, reply.activeId, reply.active) ==> Answers(w', reply.activeId, reply.active)
    ensures prompt && reply.ActiveRun? && Decides(w, reply.activeId, reply.active) ==> Decides(w', reply.activeId, reply.active)
  {
    if prompt && w.intent.value !in w.server.claims {
      IntentStaysUnclaimed(w, w');
    }
    if prompt && reply.ActiveRun? && Decides(w, reply.activeId, reply.active) {
      DecisionStays(w, w', reply.activeId, reply.active);
    }
  }

  lemma AnswersStay(prompt: bool, w: World, w': World, id: RunId, run: Run)
    requires Moves(prompt, w, w') && Answers(w, id, run)
    ensures Answers(w', id, run)
  {
  }

  lemma DecisionStays(w: World, w': World, id: RunId, run: Run)
    requires Inv(w) && Moves(true, w, w') && Decides(w, id, run)
    ensures Decides(w', id, run)
  {
  }

  lemma StaysFirm(prompt: bool, past: seq<World>, w: World)
    requires LateLegal(past) && Moves(prompt, Now(past), w) && Firm(Now(past))
    ensures Firm(w) && Released(w)
  {
    LateRunKeepsInv(past, |past| - 1);
    MovesKeepFirm(prompt, Now(past), w);
  }

  lemma StaysReleased(past: seq<World>, w: World)
    requires LateLegal(past) && Moves(true, Now(past), w) && Released(Now(past))
    ensures Released(w)
  {
    LateRunKeepsInv(past, |past| - 1);
    MovesKeepReleased(Now(past), w);
  }

  lemma ActiveStaysSettled(prompt: bool, past: seq<World>, w: World)
    requires LateLegal(past) && Moves(prompt, Now(past), w)
    requires Now(past).active.Some? && Settled(Now(past).server, Now(past).active.value.runId)
    ensures Settled(w.server, Now(past).active.value.runId) && Firm(w.(active := None))
  {
    LateRunKeepsInv(past, |past| - 1);
    MovesKeepActiveSettled(prompt, Now(past), w);
  }

  lemma AnswerStays(prompt: bool, past: seq<World>, w: World, reply: ClaimReply)
    requires LateLegal(past) && Moves(prompt, Now(past), w) && Now(past).intent.Some?
    ensures prompt && Now(past).intent.value !in Now(past).server.claims ==> Now(past).intent.value !in w.server.claims
    ensures reply.ActiveRun? && Answers(Now(past), reply.activeId, reply.active) ==> Answers(w, reply.activeId, reply.active)
    ensures prompt && reply.ActiveRun? && Decides(Now(past), reply.activeId, reply.active) ==> Decides(w, reply.activeId, reply.active)
  {
    LateRunKeepsInv(past, |past| - 1);
    AnswerLasts(prompt, Now(past), w, reply);
  }

  /** A finite set of ids leaves one over. */
  lemma {:induction false} SomeIdIsUnused(used: set<nat>)
    ensures exists q: nat :: q !in used
  {
    var n := AboveAll(used);
    assert n !in used;
  }

  lemma {:induction false} AboveAll(used: set<nat>) returns (n: nat)
    ensures forall q :: q in used ==> q < n
    decreases |used|
  {
    if used == {} {
      n := 0;
    } else {
      var x :| x in used;
      var m := AboveAll(used - {x});
      n := if x < m then m else x + 1;
      forall q | q in used
        ensures q < n
      {
        assert q == x || q in used - {x};
      }
    }
  }

  class Host {
    var intent: Option<RequestId>    // claim-intent.json
    var active: Option<Journal>      // active.json
    var outbox: Option<Report>       // outbox.json
    var rejected: seq<Report>        // rejected-<requestId>.json
    var server: Server               // reached only by the request methods
    const prompt: bool               // the server handles no request after its caller has gone on
    var memory: Memory               // where the program is
    var drawn: set<RequestId>        // the uuids used so far, so that a new one differs
    var recorded: seq<Report>        // what was ever in the outbox, and may still be under way
    var applied: seq<Report>         // the history the claims are about
    var acknowledged: seq<Report>
    var starts: seq<RunId>
    var late: set<RequestId>
    ghost var past: seq<World>

    function View(): World
      reads this
    {
      World(intent, active, outbox, memory, server, drawn, recorded, applied, acknowledged, rejected, starts, late)
    }

    ghost predicate Valid()
      reads this
    {
      History(prompt, past) && Now(past) == View()
    }

    /** The durable files and the program point are the same; the server may have moved on. */
    twostate predicate OnlyServerMoved()
      reads this
    {
      Moves(prompt, old(View()), View()) && old(past) <= past
    }

    constructor (s: Server, prompt: bool)
      requires ServerOk(s)
      requires forall id :: id in s.runs ==> s.runs[id].owner != Some(Local)
      requires forall q :: q in s.claims ==> s.claims[q].actor != Local
      requires forall q :: q in s.reports ==> s.reports[q].actor != Local
      ensures Valid() && memory == Idle && this.prompt == prompt
    {
      this.prompt := prompt;
      intent, active, outbox, rejected, server := None, None, None, [], s;
      memory, drawn, recorded, applied, acknowledged, starts, late := Idle, {}, [], [], [], [], {};
      new;
      past := [View()];
    }

    lemma Sound()
      requires Valid()
      ensures Inv(View())
    {
      LateRunKeepsInv(past, |past| - 1);
    }

    lemma EveryMomentIsSafe()
      requires Valid()
      ensures forall i: nat :: i < |past| ==>
                && StartedAtMostOnce(past[i]) && StartsWereAnnounced(past[i])
                && OnlyLateOrphaned(past[i]) && ReportsAccounted(past[i])
      ensures prompt ==> forall i :: 0 <= i < |past| ==> NothingOrphaned(past[i])
    {
      forall i: nat | i < |past|
        ensures StartedAtMostOnce(past[i]) && StartsWereAnnounced(past[i])
        ensures OnlyLateOrphaned(past[i]) && ReportsAccounted(past[i])
      {
        LateRequestsOnlyOrphan(past, i);
      }
      if prompt {
        EveryReachableWorldIsSafe(past);
      }
    }

    /** Appends the present world to the history after one enabled action. */
    ghost method Step(a: LateAction)
      requires History(prompt, past) && LateEnabled(Now(past), a) && View() == LateApply(Now(past), a)
      requires prompt ==> a.InTime?
      modifies this`past
      ensures Valid() && past == old(past) + [View()]
    {
      assert LateNext(Now(past), View());
      ghost var before := past;
      past := past + [View()];
      forall i: nat | 0 < i < |past| ensures LateStepAt(past, i) {
        assert i < |before| ==> LateStepAt(before, i);
      }
      if prompt {
        StepIsLegal(before, a.action, past);
      }
    }

    lemma StepIsLegal(before: seq<World>, a: Action, after: seq<World>)
      requires before != [] && Legal(before) && Enabled(Now(before), a) && after == before + [Apply(Now(before), a)]
      ensures Legal(after)
    {
      assert Next(Now(before), Now(after));
      forall i: nat | 0 < i < |after| ensures StepAt(after, i) {
        assert i < |before| ==> StepAt(before, i);
      }
    }

    /** A step of the outside world. */
    method HappenOutside(o: Outside)
      requires Valid() && CanHappen(server, o, drawn)
      modifies this`server, this`past
      ensures Valid() && OnlyServerMoved()
    {
      Sound();
      OutsideIsQuiet(server, o, drawn);
      QuietMoves(prompt, View(), Happen(server, o));
      server := Happen(server, o);
      Step(InTime(Environment(o)));
    }

    /** The server handles a claim whose caller has gone on. */
    method ClaimArrives(q: RequestId, pick: Option<RunId>, admitted: bool)
      requires Valid() && !prompt && LateEnabled(View(), LateClaim(q, pick, admitted))
      modifies this`server, this`late, this`past
      ensures Valid() && OnlyServerMoved()
    {
      Sound();
      LateClaimMoves(View(), q, pick, admitted);
      server, late := ClaimRun(server, Local, q, pick, admitted).0, if intent == Some(q) then late else late + {q};
      Step(LateClaim(q, pick, admitted));
    }

    /** The server handles a report whose caller has gone on. */
    method ReportArrives(r: Report)
      requires Valid() && !prompt && r in recorded
      modifies this`server, this`applied, this`past
      ensures Valid() && OnlyServerMoved()
    {
      Sound();
      LateReportMoves(View(), r);
      var (s, reply) := ReportRun(server, Local, r);
      applied := if r.requestId in server.reports || reply != Accepted then applied else applied + [r];
      server := s;
      Step(LateReport(r));
    }

    method Interfere()
      requires Valid()
      modifies this`server, this`applied, this`late, this`past
      ensures Valid() && OnlyServerMoved()
    {
      var n: nat := *;
      MovesReflexive(prompt, View());
      while n > 0
        invariant Valid() && OnlyServerMoved()
      {
        ghost var before := View();
        Arrive();
        MovesTransitive(prompt, old(View()), before, View());
        n := n - 1;
      }
    }

    /** One step that is not the program's. */
    method Arrive()
      requires Valid()
      modifies this`server, this`applied, this`late, this`past
      ensures Valid() && OnlyServerMoved()
    {
      MovesReflexive(prompt, View());
      var a: LateAction := *;
      match a {
        case InTime(Environment(o)) =>
          if CanHappen(server, o, drawn) {
            HappenOutside(o);
          }
        case LateClaim(q, pick, admitted) =>
          if !prompt && q in drawn && (forall r :: r in recorded ==> r.requestId != q) && memory != Claiming(q) {
            ClaimArrives(q, pick, admitted);
          }
        case LateReport(r) =>
          if !prompt && r in recorded {
            ReportArrives(r);
          }
        case _ =>
      }
    }

    /** The moment before an operation: others act, and the machine may die. */
    method Tick() returns (o: Outcome<()>)
      requires Valid()
      modifies this`server, this`applied, this`late, this`past, this`memory
      ensures Valid() && old(past) <= past
      ensures o.Return? ==> OnlyServerMoved()
      ensures o.Raise? ==> o.fault == Crashed && memory == Idle
    {
      Interfere();
      var dies: bool := *;
      if dies {
        memory := Idle;
        Step(InTime(Crash));
        return Raise(Crashed);
      }
      return Return(());
    }

    /** uuid.uuid4(). */
    method Draw() returns (q: RequestId)
      ensures Fresh(View(), q)
    {
      SomeIdIsUnused(drawn + server.claims.Keys + server.reports.Keys);
      q :| q !in drawn && q !in server.claims && q !in server.reports;
    }

    // ------------------------------------------------------ durable files

    /** private_json(STATE/'claim-intent.json', ...) with a new uuid (lines 543-544). */
    method SaveIntent() returns (o: Outcome<()>)
      requires Valid() && memory == Idle && active.None? && Firm(View())
      modifies this
      ensures Valid() && old(past) <= past
      ensures o.Return? ==> intent.Some? && active.None? && memory == Claiming(intent.value)
      ensures o.Return? ==> intent.value !in old(drawn) && drawn == old(drawn) + {intent.value}
      ensures o.Raise? ==> o.fault == Crashed && memory == Idle
    {
      var _ :- Tick();
      StaysFirm(prompt, old(past), View());
      var q := Draw();
      intent, memory, drawn := Some(q), Claiming(q), drawn + {q};
      Step(InTime(Action.SaveIntent(q)));
      return Return(());
    }

    /**
     (STATE/'claim-intent.json').unlink. A prompt server has settled the claim of an intent that
     recovery or cycle drops; on another one an earlier copy of the claim may still be granted.
     */
    method DropIntent() returns (o: Outcome<()>)
      requires Valid() && intent.Some?
      requires memory.Journaled? || (memory == Idle && (prompt ==> Released(View())))
      modifies this
      ensures Valid() && old(past) <= past
      ensures o.Return? ==> intent.None? && Moves(prompt, old(View()), View().(intent := old(intent)))
      ensures o.Raise? ==> o.fault == Crashed && memory == Idle
    {
      var _ :- Tick();
      var dropped: LateAction := if prompt || memory.Journaled? then InTime(Action.DropIntent) else GiveUp;
      if prompt && memory == Idle {
        StaysReleased(old(past), View());
      }
      if dropped.GiveUp? {
        late := late + {intent.value};
      }
      intent := None;
      Step(dropped);
      return Return(());
    }

    /** private_json(STATE/'active.json', journal) at the head of execute (lines 328-329). */
    method WriteActive(id: RunId, generation: nat) returns (o: Outcome<()>)
      requires Valid() && memory == Holding(id, generation)
      modifies this
      ensures Valid() && old(past) <= past
      ensures o.Return? ==>
        && active == Some(Journal(id, generation, None)) && memory == Journaled(id)
        && Moves(prompt, old(View()), View().(active := old(active), memory := old(memory)))
      ensures o.Raise? ==> o.fault == Crashed && memory == Idle
    {
      var _ :- Tick();
      active, memory := Some(Journal(id, generation, None)), Journaled(id);
      Step(InTime(Action.WriteActive));
      return Return(());
    }

    /** Rewriting active.json with the session, process or workspace (lines 231-232, 267-268, 280-281, 349-350, 359-360). */
    method NoteSession(session: Option<SessionId>) returns (o: Outcome<()>)
      requires Valid() && active.Some?
      modifies this
      ensures Valid() && old(past) <= past
      ensures o.Return? ==>
        && active == Some(old(active).value.(session := session))
        && Moves(prompt, old(View()), View().(active := old(active)))
      ensures o.Raise? ==> o.fault == Crashed && memory == Idle
    {
      var _ :- Tick();
      active := Some(active.value.(session := session));
      Step(InTime(Action.NoteSession(session)));
      return Return(());
    }

    /** (STATE/'active.json').unlink. */
    method RemoveActive() returns (o: Outcome<()>)
      requires Valid() && active.Some? && outbox.None? && Settled(server, active.value.runId)
      modifies this
      ensures Valid() && old(past) <= past
      ensures memory == Idle
      ensures o.Return? ==>
        && Firm(View()) && active.None?
        && Moves(prompt, old(View()), View().(active := old(active), memory := old(memory)))
      ensures o.Raise? ==> o.fault == Crashed
    {
      var _ :- Tick();
      ActiveStaysSettled(prompt, old(past), View());
      active, memory := None, Idle;
      Step(InTime(Action.RemoveActive));
      return Return(());
    }

    /** private_json(outbox, ...) of report with a new uuid (lines 170-172). */
    method Record(id: RunId, generation: nat, kind: Kind, session: Option<SessionId>, evidence: bool, checkpoint: Checkpoint)
      returns (o: Outcome<()>)
      requires Valid() && outbox.None? && MayReport(View(), id, generation, kind, checkpoint)
      modifies this
      ensures Valid() && old(past) <= past
      ensures o.Return? ==>
        && outbox.Some? && Says(outbox.value, id, generation, kind, session, evidence, checkpoint)
        && acknowledged == old(acknowledged) && rejected == old(rejected)
        && SameRun(old(View()), View()) && KeepsClaims(old(server), server)
      ensures o.Raise? ==> o.fault == Crashed && memory == Idle
    {
      var _ :- Tick();
      MovesKeepMayReport(prompt, old(View()), View(), id, generation, kind, checkpoint);
      WriteOutbox(id, generation, kind, session, evidence, checkpoint);
      return Return(());
    }

    /** The write itself. */
    method WriteOutbox(id: RunId, generation: nat, kind: Kind, session: Option<SessionId>, evidence: bool,
                       checkpoint: Checkpoint)
      requires Valid() && outbox.None? && MayReport(View(), id, generation, kind, checkpoint)
      modifies this
      ensures Valid() && old(past) <= past
      ensures outbox.Some? && Says(outbox.value, id, generation, kind, session, evidence, checkpoint)
      ensures outbox.value.requestId !in old(drawn)
      ensures acknowledged == old(acknowledged) && rejected == old(rejected)
      ensures SameRun(old(View()), View()) && server == old(server)
    {
      var q := Draw();
      var r := Report.Report(q, id, generation, kind, session, evidence, checkpoint);
      assert MayRecord(Now(past), r);
      outbox, recorded, drawn := Some(r), recorded + [r], drawn + {q};
      Step(InTime(Action.Record(r)));
    }

    /** outbox.unlink after an accepted report (lines 174 and 182). */
    method Acknowledge() returns (o: Outcome<()>)
      requires Valid() && Enabled(View(), Action.Acknowledge)
      modifies this
      ensures Valid() && old(past) <= past
      ensures o.Return? ==>
        && outbox.None? && acknowledged == old(acknowledged) + [old(outbox).value]
        && Moves(prompt, old(View()), View().(outbox := old(outbox), acknowledged := old(acknowledged)))
      ensures o.Raise? ==> o.fault == Crashed && memory == Idle
    {
      var _ :- Tick();
      outbox, acknowledged := None, acknowledged + [outbox.value];
      Step(InTime(Action.Acknowledge));
      return Return(());
    }

    /** os.replace(outbox, rejected-<requestId>.json) (line 437). */
    method Archive() returns (o: Outcome<()>)
      requires Valid() && Enabled(View(), Action.Archive)
      modifies this
      ensures Valid() && old(past) <= past
      ensures o.Return? ==>
        && outbox.None? && rejected == old(rejected) + [old(outbox).value]
        && Moves(prompt, old(View()), View().(outbox := old(outbox), rejected := old(rejected)))
      ensures o.Raise? ==> o.fault == Crashed && memory == Idle
    {
      var _ :- Tick();
      outbox, rejected := None, rejected + [outbox.value];
      Step(InTime(Action.Archive));
      return Return(());
    }

    /** subprocess.Popen of the model CLI for an approved run (line 228). */
    method StartCli(id: RunId) returns (o: Outcome<()>)
      requires Valid() && memory == Journaled(id) && Heard(server, id)
      modifies this
      ensures Valid() && old(past) <= past
      ensures o.Return? ==>
        && memory == Working(id) && starts == old(starts) + [id]
        && Moves(prompt, old(View()), View().(memory := old(memory), starts := old(starts)))
      ensures o.Raise? ==> o.fault == Crashed && memory == Idle
    {
      var _ :- Tick();
      MovesKeepHeard(prompt, old(View()), View(), id);
      memory, starts := Working(id), starts + [id];
      Step(InTime(Action.StartCli));
      return Return(());
    }

    // ----------------------------------------------------------- requests

    /** The server's side of one report. */
    method ServeReport() returns (reply: ReportReply)
      requires Valid() && outbox.Some?
      modifies this`server, this`applied, this`past
      ensures Valid() && old(past) <= past
      ensures View() == old(View()).(server := server, applied := applied)
      ensures (server, reply) == ReportRun(old(server), Local, outbox.value)
      ensures server.claims == old(server).claims
      ensures reply.Accepted? ==> Enabled(View(), Action.Acknowledge)
      ensures reply.ReportRefused? && reply.code != OtherCode ==> Doomed(server, outbox.value)
    {
      var (s, answer) := ReportRun(server, Local, outbox.value);
      applied := if outbox.value.requestId in server.reports || answer != Accepted then applied else applied + [outbox.value];
      server := s;
      Step(InTime(Action.Deliver));
      reply := answer;
    }

    /** One POST of the outbox body: it may not arrive, or its answer may not come back. */
    method SendReport() returns (o: Outcome<()>)
      requires Valid() && outbox.Some?
      modifies this
      ensures Valid() && old(past) <= past
      ensures o != Raise(Crashed) ==>
        && SameRun(old(View()), View()) && outbox == old(outbox) && KeepsClaims(old(server), server)
        && acknowledged == old(acknowledged) && rejected == old(rejected)
      ensures o.Return? ==> Enabled(View(), Action.Acknowledge)
      ensures o != Raise(Escaped)
      ensures o == Raise(Rejected(409, RunLeaseLost)) || o == Raise(Rejected(409, RunOwnershipLost)) ==>
        Doomed(server, outbox.value)
      ensures o == Raise(Crashed) ==> memory == Idle
    {
      var _ :- Tick();
      var arrives: bool := *;
      if !arrives {
        return Unreachable();
      }
      var reply := ServeReport();
      var _ :- Tick();
      var heard: bool := *;
      if !heard {
        return Raise(Waiting);
      }
      match reply
      case Accepted => return Return(());
      case ReportRefused(status, code) => return Raise(Rejected(status, code));
    }

    /** The server's side of one claim, and what the program makes of the answer if it gets it. */
    method ServeClaim(pick: Option<RunId>, admitted: bool, heard: bool) returns (reply: ClaimReply)
      requires Valid() && intent.Some? && active.None? && (memory == Idle || memory == Claiming(intent.value))
      modifies this`server, this`memory, this`past
      ensures Valid() && old(past) <= past
      ensures View() == old(View()).(server := server, memory := memory)
      ensures (server, reply) == ClaimRun(old(server), Local, intent.value, pick, admitted)
      ensures memory == AfterClaim(old(View()), reply, heard)
      ensures reply.NothingToClaim? ==> intent.value !in server.claims && WasFree(past, |old(past)| - 1)
      ensures reply.ActiveRun? ==>
        Answers(View(), reply.activeId, reply.active) && Decides(View(), reply.activeId, reply.active)
      ensures reply.ActiveRun? && old(memory).Claiming? ==> intent.value !in server.claims
    {
      Sound();
      ClaimAnswers(View(), pick, admitted);
      var (s, answer) := ClaimRun(server, Local, intent.value, pick, admitted);
      memory := AfterClaim(View(), answer, heard);
      assert answer.NothingToClaim? ==> Free(past[|past| - 1]);
      server := s;
      Step(InTime(Action.SendClaim(pick, admitted, heard)));
      reply := answer;
    }

    /** POST runs/claim with the saved intent. */
    method SendClaim() returns (o: Outcome<ClaimReply>)
      requires Valid() && intent.Some? && active.None? && (memory == Idle || memory == Claiming(intent.value))
      modifies this
      ensures Valid() && old(past) <= past
      ensures o != Raise(Crashed) ==>
        && intent == old(intent) && active.None? && outbox == old(outbox) && starts == old(starts)
      ensures o.Raise? ==> memory == Idle && o.fault != Escaped
      ensures o.Return? ==> !o.value.ClaimRefused?
      ensures o.Return? && o.value.NothingToClaim? ==> WasFree(past, |old(past)| - 1)
      ensures o.Return? && o.value.ClaimedRun? ==>
        memory == if old(memory).Claiming? || NeverReported(intent, o.value.run)
                  then Holding(o.value.runId, o.value.run.generation) else Idle
      ensures o.Return? && !o.value.ClaimedRun? ==> memory == Idle
      ensures prompt && o.Return? && o.value.NothingToClaim? ==> intent.value !in server.claims
      ensures o.Return? && o.value.ActiveRun? ==> Answers(View(), o.value.activeId, o.value.active)
      ensures prompt && o.Return? && o.value.ActiveRun? ==> Decides(View(), o.value.activeId, o.value.active)
      ensures prompt && o.Return? && o.value.ActiveRun? && old(memory).Claiming? ==> intent.value !in server.claims
    {
      var _ :- Tick();
      var arrives: bool := *;
      if !arrives {
        Forget();
        return Unreachable();
      }
      var heard: bool := *;
      var pick: Option<RunId>, admitted: bool := *, *;
      ghost var sent := |past| - 1;
      var reply := ServeClaim(pick, admitted, heard);
      ghost var answered := past;
      o := HearClaim(reply, heard);
      FreedomRemains(answered, past, sent, |old(past)| - 1);
    }

    /** The answer to a claim comes back, or does not. */
    method HearClaim(reply: ClaimReply, heard: bool) returns (o: Outcome<ClaimReply>)
      requires Valid() && intent.Some?
      requires reply.NothingToClaim? ==> intent.value !in server.claims
      requires reply.ActiveRun? ==>
        Answers(View(), reply.activeId, reply.active) && Decides(View(), reply.activeId, reply.active)
      modifies this
      ensures Valid() && old(past) <= past
      ensures o != Raise(Crashed) ==> OnlyServerMoved()
      ensures o == Raise(Crashed) ==> memory == Idle
      ensures o.Return? ==> heard && o.value == reply && !reply.ClaimRefused?
      ensures o.Raise? && o.fault != Crashed && heard ==> reply.ClaimRefused? && o.fault == Rejected(reply.status, reply.code)
      ensures o.Raise? && o.fault != Crashed && !heard ==> o.fault == Waiting
      ensures prompt && o.Return? && old(intent.value !in server.claims) ==> intent.value !in server.claims
      ensures o.Return? && reply.ActiveRun? ==> Answers(View(), reply.activeId, reply.active)
      ensures prompt && o.Return? && reply.ActiveRun? ==> Decides(View(), reply.activeId, reply.active)
    {
      var _ :- Tick();
      AnswerStays(prompt, old(past), View(), reply);
      if !heard {
        return Raise(Waiting);
      }
      match reply
      case ClaimRefused(status, code) => return Raise(Rejected(status, code));
      case _ => return Return(reply);
    }

    /** GET runs/{id}: the run if this machine owns it, and the coordinator's active run. */
    method GetRun(id: RunId) returns (o: Outcome<RunState>)
      requires Valid()
      modifies this`server, this`applied, this`late, this`past, this`memory
      ensures Valid() && old(past) <= past
      ensures o != Raise(Crashed) ==> OnlyServerMoved()
      ensures o == Raise(Crashed) ==> memory == Idle
      ensures o != Raise(Escaped)
      ensures o.Return? && o.value.run.Some? ==> Shows(server, id, o.value.run.value)
      ensures o.Return? ==> WasSeen(past, |old(past)| - 1, id, o.value)
    {
      var _ :- Tick();
      var state := RunState(
        if id in server.runs && server.runs[id].owner == Some(Local) then Some(server.runs[id]) else None,
        server.activeRun);
      ghost var asked, sight := View(), past;
      assert Looks(past[|past| - 1], id, state);
      var _ :- Tick();
      MovesTransitive(prompt, old(View()), asked, View());
      MomentsRemain(sight, past, |old(past)| - 1);
      var answered: bool := *;
      return if answered then Return(state) else Unreachable();
    }

    /** Any other step that can fail: local commands, checks, requests that change nothing here. */
    method Hazard() returns (o: Outcome<()>)
      ensures o != Raise(Crashed)
    {
      var n: nat := *;
      return if n == 0 then Return(()) else if n == 1 then Raise(Waiting)
             else if n == 2 then Raise(Rejected(503, OtherCode)) else Raise(Escaped);
    }

    /** An exception reached the loop of main, which goes back to sleep. */
    method Forget()
      requires Valid()
      modifies this`memory, this`past
      ensures Valid() && old(past) <= past && memory == Idle
    {
      memory := Idle;
      Step(InTime(Action.Crash));
    }

    // ----------------------------------------------------------- the code

    /** The request and the unlink that report and flush_outbox share (lines 173-174 and 181-182). */
    method DeliverOutbox() returns (o: Outcome<()>)
      requires Valid() && outbox.Some?
      modifies this
      ensures Valid() && old(past) <= past
      ensures o != Raise(Crashed) ==>
        SameRun(old(View()), View()) && KeepsClaims(old(server), server) && rejected == old(rejected)
      ensures o.Return? ==>
        && outbox.None? && acknowledged == old(acknowledged) + [old(outbox).value]
        && Heard(server, old(outbox).value.runId)
        && (Ends(old(outbox).value.kind) ==> Settled(server, old(outbox).value.runId))
      ensures o.Raise? && o.fault != Crashed ==>
        o.fault != Escaped && outbox == old(outbox) && acknowledged == old(acknowledged)
      ensures o == Raise(Rejected(409, RunLeaseLost)) || o == Raise(Rejected(409, RunOwnershipLost)) ==>
        Doomed(server, outbox.value)
      ensures o == Raise(Crashed) ==> memory == Idle
    {
      var _ :- SendReport();
      var _ :- Acknowledge();
      Sound();
      AcceptedReportCounts(View(), old(outbox).value);
      return Return(());
    }

    /** flush_outbox (lines 177-182). */
    method FlushOutbox() returns (o: Outcome<()>)
      requires Valid()
      modifies this
      ensures Valid() && old(past) <= past
      ensures o != Raise(Crashed) ==>
        SameRun(old(View()), View()) && KeepsClaims(old(server), server) && rejected == old(rejected)
      ensures o.Return? ==> outbox.None? && acknowledged == old(acknowledged) + InOutbox(old(outbox))
      ensures o.Raise? && o.fault != Crashed ==>
        o.fault != Escaped && outbox == old(outbox) && outbox.Some? && acknowledged == old(acknowledged)
      ensures o == Raise(Rejected(409, RunLeaseLost)) || o == Raise(Rejected(409, RunOwnershipLost)) ==>
        Doomed(server, outbox.value)
      ensures o == Raise(Crashed) ==> memory == Idle
    {
      if outbox.Some? {
        o := DeliverOutbox();
        return;
      }
      return Return(());
    }

    /** report (lines 167-175). */
    method SaveAndSend(id: RunId, generation: nat, kind: Kind, session: Option<SessionId>, evidence: bool, checkpoint: Checkpoint)
      returns (o: Outcome<()>)
      requires Valid() && MayReport(View(), id, generation, kind, checkpoint)
      modifies this
      ensures Valid() && old(past) <= past
      ensures o != Raise(Crashed) ==> SameRun(old(View()), View()) && KeepsClaims(old(server), server)
      ensures o.Return? ==> outbox.None? && Heard(server, id) && (Ends(kind) ==> Settled(server, id))
      ensures o.Return? ==>
        && |acknowledged| == |old(acknowledged)| + |InOutbox(old(outbox))| + 1
        && acknowledged[..|acknowledged| - 1] == old(acknowledged) + InOutbox(old(outbox))
        && LastSays(acknowledged, id, generation, kind, session, evidence, checkpoint)
      ensures o == Raise(Crashed) ==> memory == Idle
      ensures o != Raise(Escaped)
    {
      if outbox.Some? {
        var _ :- FlushOutbox();
      }
      var _ :- Record(id, generation, kind, session, evidence, checkpoint);
      o := DeliverOutbox();
    }

    /** One turn of the reading loop (lines 241-271): a session may be noted, a heartbeat may be due. */
    method Beat(id: RunId, session: Option<SessionId>) returns (o: Outcome<()>)
      requires Valid() && memory == Working(id) && active.Some? && active.value.runId == id
      modifies this
      ensures Valid() && old(past) <= past
      ensures o != Raise(Crashed) ==> active.Some? && active.value.runId == id
                                      && active.value.generation == old(active).value.generation
      ensures o != Raise(Crashed) ==> memory == Working(id) && starts == old(starts) && intent == old(intent)
      ensures o.Return? ==> active.value.session == if session.Some? then session else old(active).value.session
      ensures o.Return? && acknowledged != old(acknowledged) ==>
        LastSays(acknowledged, id, old(active).value.generation, Heartbeat, active.value.session, false, EXECUTES)
      ensures o == Raise(Crashed) ==> memory == Idle
    {
      var due: bool := *;
      if session.Some? {
        var _ :- NoteSession(session);
      }
      var _ :- Hazard();
      if !due {
        return Return(());
      }
      o := SaveAndSend(id, active.value.generation, Heartbeat, active.value.session, false, EXECUTES);
    }

    /** codex for an approved run (lines 216-290): start, session, heartbeats, result. */
    method Codex(id: RunId) returns (o: Outcome<Option<SessionId>>)
      requires Valid() && memory == Journaled(id) && active.Some? && active.value.runId == id && Heard(server, id)
      modifies this
      ensures Valid() && old(past) <= past
      ensures o != Raise(Crashed) ==> active.Some? && active.value.runId == id
                                      && active.value.generation == old(active).value.generation
      ensures o != Raise(Crashed) ==> memory == Working(id) && starts == old(starts) + [id] && intent == old(intent)
      ensures o.Return? ==> o.value == active.value.session
      ensures o == Raise(Crashed) ==> memory == Idle
    {
      var _ :- StartCli(id);
      var _ :- NoteSession(active.value.session);
      var beats: nat := *;
      while beats > 0
        invariant Valid() && old(past) <= past
        invariant memory == Working(id) && starts == old(starts) + [id] && intent == old(intent)
        invariant active.Some? && active.value.runId == id && active.value.generation == old(active).value.generation
      {
        var session: Option<SessionId> := *;
        var _ :- Beat(id, session);
        beats := beats - 1;
      }
      var _ :- Hazard();
      return Return(active.value.session);
    }

    /** The monitored commands of verify_result (lines 292-320 and 358-362). */
    method VerifyResult(id: RunId) returns (o: Outcome<()>)
      requires Valid() && memory == Working(id) && active.Some? && active.value.runId == id
      modifies this
      ensures Valid() && old(past) <= past
      ensures o != Raise(Crashed) ==> SameRun(old(View()), View())
      ensures o.Return? && acknowledged != old(acknowledged) ==>
        LastSays(acknowledged, id, active.value.generation, Heartbeat, active.value.session, false, VERIFIES)
      ensures o == Raise(Crashed) ==> memory == Idle
    {
      var beats: nat := *;
      while beats > 0
        invariant Valid() && old(past) <= past && SameRun(old(View()), View())
        invariant acknowledged != old(acknowledged) ==>
          LastSays(acknowledged, id, active.value.generation, Heartbeat, active.value.session, false, VERIFIES)
      {
        var _ :- NoteSession(active.value.session);
        var _ :- SaveAndSend(id, active.value.generation, Heartbeat, active.value.session, false, VERIFIES);
        beats := beats - 1;
      }
      var _ :- Hazard();
      return Return(());
    }

    /** The first report of a run and the workspace in its journal (lines 335-350). */
    method Announce(id: RunId) returns (o: Outcome<()>)
      requires Valid() && memory == Journaled(id) && active.Some? && active.value.runId == id
      modifies this
      ensures Valid() && old(past) <= past
      ensures o.Return? ==> Heard(server, id)
      ensures o.Return? ==>
        LastSays(acknowledged, id, old(active).value.generation, Progress, None, false, PREPARES)
      ensures o != Raise(Crashed) ==> SameRun(old(View()), View())
      ensures o == Raise(Crashed) ==> memory == Idle
    {
      var _ :- SaveAndSend(id, active.value.generation, Progress, None, false, PREPARES);
      var _ :- Hazard();
      ghost var announced := View();
      o := NoteSession(active.value.session);
      if o.Return? {
        MovesKeepHeard(prompt, announced, View().(active := announced.active), id);
      }
    }

    /** The verified success and the end of the journal (lines 381-382). */
    method Succeed(id: RunId, session: Option<SessionId>) returns (o: Outcome<()>)
      requires Valid() && memory == Working(id) && active.Some? && active.value.runId == id
      modifies this
      ensures Valid() && old(past) <= past
      ensures o.Return? ==>
        && memory == Idle && active.None? && outbox.None? && intent == old(intent) && starts == old(starts)
        && LastSays(acknowledged, id, old(active).value.generation, Success, session, true, VERIFIED)
      ensures o.Raise? && o.fault != Crashed ==> SameRun(old(View()), View())
      ensures o == Raise(Crashed) ==> memory == Idle
    {
      var _ :- SaveAndSend(id, active.value.generation, Success, session, true, VERIFIED);
      o := RemoveActive();
    }

    /** The try block of execute (lines 334-382), up to and including active.unlink. */
    method Attempt(id: RunId) returns (o: Outcome<()>)
      requires Valid() && memory == Journaled(id) && active.Some? && active.value.runId == id
      modifies this
      ensures Valid() && old(past) <= past
      ensures o.Return? ==>
        && memory == Idle && active.None? && outbox.None? && intent == old(intent)
        && starts == old(starts) + [id]
        && exists session :: LastSays(acknowledged, id, old(active).value.generation, Success, session, true, VERIFIED)
      ensures o.Raise? && o.fault != Crashed ==>
        && (memory == Journaled(id) || memory == Working(id))
        && active.Some? && active.value.runId == id && active.value.generation == old(active).value.generation
        && intent == old(intent)
      ensures o == Raise(Crashed) ==> memory == Idle
    {
      var _ :- Announce(id);
      var session :- Codex(id);
      var _ :- Hazard();
      var _ :- VerifyResult(id);
      var _ :- Hazard();
      o := Succeed(id, session);
    }

    /** The except clause of execute (lines 383-385). */
    method PauseRun(id: RunId) returns (o: Outcome<()>)
      requires Valid() && (memory == Journaled(id) || memory == Working(id)) && active.Some? && active.value.runId == id
      modifies this
      ensures Valid() && old(past) <= past
      ensures o.Return? ==>
        && memory == Idle && active.None? && outbox.None? && intent == old(intent) && starts == old(starts)
        && exists session :: LastSays(acknowledged, id, old(active).value.generation, Pause, session, true, INTERRUPTED)
    {
      var _ :- SaveAndSend(id, active.value.generation, Pause, active.value.session, true, INTERRUPTED);
      o := RemoveActive();
    }

    /** execute (lines 322-385). */
    method Execute(id: RunId, generation: nat) returns (o: Outcome<()>)
      requires Valid() && memory == Holding(id, generation) && intent.Some?
      modifies this
      ensures Valid() && old(past) <= past
      ensures o.Return? ==>
        && memory == Idle && intent.None? && active.None? && outbox.None?
        && Finished(acknowledged, id, generation)
    {
      var _ :- Hazard();
      var _ :- WriteActive(id, generation);
      var _ :- DropIntent();
      var attempt := Attempt(id);
      match attempt
      case Return(_) =>
        return attempt;
      case Raise(fault) =>
        if !(fault.Waiting? || fault.Rejected?) {
          return attempt;
        }
        o := PauseRun(id);
    }

    /** recover when no active.json exists (lines 390-413). */
    method RecoverClaim() returns (o: Outcome<Option<(RunId, nat)>>)
      requires Valid() && memory == Idle && active.None?
      modifies this
      ensures Valid() && old(past) <= past
      ensures o.Return? && o.value.None? ==> memory == Idle && active.None? && intent.None?
      ensures o.Return? ==> starts == old(starts)
      ensures o.Return? && o.value.Some? ==> o.value.value.0 !in starts
      ensures o.Return? && o.value.Some? ==> memory == Holding(o.value.value.0, o.value.value.1) && intent.Some?
      ensures o.Return? && o.value.None? ==>
        outbox.None? || SawClaimOver(past, |old(past)| - 1, old(intent))
      ensures o.Raise? ==> memory == Idle && o.fault != Escaped
    {
      if intent.Some? {
        var claim :- SendClaim();
        if claim.ClaimedRun? {
          if NeverReported(intent, claim.run) {
            Sound();
            return Return(Some((claim.runId, claim.run.generation)));
          }
          return Raise(Waiting);
        }
        if claim.ActiveRun? {
          ghost var answered := |past| - 1;
          var _ :- GiveUpClaim(claim.activeId, claim.active);
          OverRemains(past, past, answered, |old(past)| - 1, old(intent));
          return Return(None);
        }
        var _ :- DropIntent();
      }
      var _ :- FlushOutbox();
      return Return(None);
    }

    /** An answer that names another state of the claim: the intent goes once that is settled (lines 400-411). */
    method GiveUpClaim(id: RunId, run: Run) returns (o: Outcome<()>)
      requires Valid() && memory == Idle && active.None? && Answers(View(), id, run) && (prompt ==> Decides(View(), id, run))
      modifies this
      ensures Valid() && old(past) <= past
      ensures o.Return? ==> memory == Idle && active.None? && intent.None? && starts == old(starts)
      ensures o.Return? ==> outbox.None? || SawClaimOver(past, |old(past)| - 1, old(intent))
      ensures o.Raise? ==> memory == Idle && o.fault != Escaped
    {
      var _ :- SettleClaim(id, run);
      ghost var settled := past;
      var _ :- DropIntent();
      OverRemains(settled, past, |old(past)| - 1, |old(past)| - 1, old(intent));
      return Return(());
    }

    /** The claim is known to be active or finished: report it stopped, or find it finished (lines 402-409). */
    method SettleClaim(id: RunId, run: Run) returns (o: Outcome<()>)
      requires Valid() && memory == Idle && active.None? && Answers(View(), id, run) && (prompt ==> Decides(View(), id, run))
      modifies this
      ensures Valid() && old(past) <= past
      ensures o.Return? ==> memory == Idle && active.None? && intent == old(intent) && starts == old(starts)
      ensures prompt && o.Return? ==> Released(View())
      ensures o.Raise? ==> memory == Idle && o.fault != Escaped
      ensures o.Return? ==>
        || (SawClaimMayGo(past, |old(past)| - 1, id, run, intent, false) && acknowledged == old(acknowledged))
        || (SawClaimMayGo(past, |old(past)| - 1, id, run, intent, true)
            && outbox.None? && LastSays(acknowledged, id, run.generation, Stop, None, true, NEVER_STARTED))
    {
      Sound();
      var state :- GetRun(id);
      ghost var seen := past;
      AnswersStay(prompt, old(View()), View(), id, run);
      if prompt {
        DecisionStays(old(View()), View(), id, run);
      }
      if state.activeRun == Some(id) {
        if run.owner != Some(Local) || run.checkpoint.claimRequest != intent || run.checkpoint.phase.Some? {
          return Raise(Waiting);
        }
        o := StopLostClaim(id, run);
        SightsRemain(seen, past, |old(past)| - 1, id, state);
        return;
      }
      if !Terminal(run.status) {
        return Raise(Waiting);
      }
      SightsRemain(seen, past, |old(past)| - 1, id, state);
      return Return(());
    }

    /** The stopped report about a run that was claimed here and never started (line 407). */
    method StopLostClaim(id: RunId, run: Run) returns (o: Outcome<()>)
      requires Valid() && memory == Idle && active.None? && Answers(View(), id, run) && (prompt ==> Decides(View(), id, run))
      requires run.owner == Some(Local) && run.checkpoint.claimRequest == intent
      modifies this
      ensures Valid() && old(past) <= past
      ensures o.Return? ==> memory == Idle && active.None? && intent == old(intent) && starts == old(starts)
      ensures prompt && o.Return? ==> Released(View())
      ensures o.Return? ==> outbox.None? && LastSays(acknowledged, id, run.generation, Stop, None, true, NEVER_STARTED)
      ensures o.Raise? ==> memory == Idle && o.fault != Escaped
    {
      var _ :- SaveAndSend(id, run.generation, Stop, None, true, NEVER_STARTED);
      return Return(());
    }

    /** The outbox part of recover (lines 424-437). */
    method ResendPending(journal: Journal, observed: Run) returns (o: Outcome<()>)
      requires Valid() && memory == Idle && active == Some(journal)
      modifies this
      ensures Valid() && old(past) <= past
      ensures o.Return? ==> memory == Idle && active == Some(journal) && outbox.None? && starts == old(starts)
      ensures o.Return? ==>
        || (acknowledged == old(acknowledged) + InOutbox(old(outbox)) && rejected == old(rejected))
        || (old(outbox).Some? && acknowledged == old(acknowledged) && rejected == old(rejected) + InOutbox(old(outbox))
            && old(outbox).value.runId == journal.runId
            && old(outbox).value.generation == journal.generation == observed.generation)
      ensures o.Raise? ==> o.fault !in {Escaped, Rejected(409, RunLeaseLost), Rejected(409, RunOwnershipLost)}
    {
      if outbox.Some? {
        var pending := outbox.value;
        var flushed := FlushOutbox();
        if flushed.Raise? {
          if flushed.fault != Rejected(409, RunLeaseLost) && flushed.fault != Rejected(409, RunOwnershipLost) {
            return Raise(flushed.fault);
          }
          if pending.runId != journal.runId || pending.generation != journal.generation {
            return Raise(Waiting);
          }
          if observed.generation != journal.generation {
            return Raise(Waiting);
          }
          var _ :- Archive();
        }
      }
      return Return(());
    }

    /** recover when active.json exists (lines 414-455). */
    method RecoverActive() returns (o: Outcome<()>)
      requires Valid() && memory == Idle && active.Some?
      modifies this
      ensures Valid() && old(past) <= past
      ensures o.Return? ==> memory == Idle && active.None? && outbox.None? && Firm(View()) && starts == old(starts)
    {
      var _ :- Hazard();
      var journal := active.value;
      var state :- GetRun(journal.runId);
      if state.run.None? {
        return Raise(Waiting);
      }
      var _ :- ResendPending(journal, state.run.value);
      o := SettleActive(journal);
    }

    /** recover after the outbox is clear (lines 438-455). */
    method SettleActive(journal: Journal) returns (o: Outcome<()>)
      requires Valid() && memory == Idle && active == Some(journal) && outbox.None?
      modifies this
      ensures Valid() && old(past) <= past
      ensures o.Return? ==> memory == Idle && active.None? && outbox.None? && Firm(View()) && starts == old(starts)
      ensures o.Return? ==> SawJournalMayGo(past, |old(past)| - 1, journal.runId, acknowledged != old(acknowledged))
      ensures o.Return? && acknowledged != old(acknowledged) ==>
        LastSays(acknowledged, journal.runId, journal.generation, Pause, journal.session, true, RESTARTED)
    {
      var latest :- GetRun(journal.runId);
      ghost var seen := past;
      if latest.run.None? {
        return Raise(Escaped);
      }
      if latest.activeRun != Some(journal.runId) {
        if !Terminal(latest.run.value.status) {
          return Raise(Waiting);
        }
        o := RemoveActive();
      } else if latest.run.value.localState == Paused {
        o := RemoveActive();
      } else {
        var _ :- Hazard();
        var _ :- SaveAndSend(journal.runId, journal.generation, Pause, journal.session, true, RESTARTED);
        o := RemoveActive();
      }
      SightsRemain(seen, past, |old(past)| - 1, journal.runId, latest);
    }

    /** cycle (lines 533-553); what follows it there does not touch the protocol's files. */
    method Cycle() returns (o: Outcome<()>)
      requires Valid() && memory == Idle
      modifies this
      ensures Valid() && old(past) <= past
      ensures o.Return? ==> memory == Idle && active.None?
    {
      if active.Some? {
        var _ :- RecoverActive();
      } else {
        var recovered :- RecoverClaim();
        if recovered.Some? {
          o := Execute(recovered.value.0, recovered.value.1);
          return;
        }
      }
      o := SeekWork();
    }

    /** cycle after a recovery that left nothing in hand (lines 538-551). */
    method SeekWork() returns (o: Outcome<()>)
      requires Valid() && memory == Idle && active.None? && Firm(View())
      modifies this
      ensures Valid() && old(past) <= past
      ensures o.Return? ==> memory == Idle && active.None? && (intent.None? || intent == old(intent))
      ensures drawn != old(drawn) ==> WasInMode(past, |old(past)| - 1, ModeActive)
      ensures o.Return? && drawn == old(drawn) ==>
        WasInMode(past, |old(past)| - 1, ModePaused) || WasInMode(past, |old(past)| - 1, ModeObserve)
    {
      var _ :- Tick();
      StaysFirm(prompt, old(past), View());
      var mode := server.mode;
      ghost var seen := past;
      assert past[|past| - 1].server.mode == mode;
      var _ :- Hazard();
      if mode == ModeActive {
        o := AskForWork();
        MomentsRemain(seen, past, |old(past)| - 1);
        return;
      }
      return Return(());
    }

    /** cycle while the server is active (lines 542-551). */
    method AskForWork() returns (o: Outcome<()>)
      requires Valid() && memory == Idle && active.None? && Firm(View())
      modifies this
      ensures Valid() && old(past) <= past
      ensures o.Return? ==> memory == Idle && active.None? && intent.None? && drawn > old(drawn)
      ensures o.Return? ==>
        WasFree(past, |old(past)| - 1) || exists id, generation :: Finished(acknowledged, id, generation)
    {
      var _ :- SaveIntent();
      ghost var saved := |past| - 1;
      o := ClaimWork();
      DrawnRemain(past, saved, |past| - 1);
      FreedomRemains(past, past, saved, |old(past)| - 1);
    }

    /** The claim of a new intent, and the execution of what it is granted (lines 545-551). */
    method ClaimWork() returns (o: Outcome<()>)
      requires Valid() && intent.Some? && memory == Claiming(intent.value) && active.None?
      modifies this
      ensures Valid() && old(past) <= past
      ensures o.Return? ==> memory == Idle && active.None? && intent.None?
      ensures o.Return? ==>
        WasFree(past, |old(past)| - 1) || exists id, generation :: Finished(acknowledged, id, generation)
    {
      var claim :- SendClaim();
      if claim.ClaimedRun? {
        o := Execute(claim.runId, claim.run.generation);
        return;
      }
      ghost var answered := past;
      var _ :- DropIntent();
      FreedomRemains(answered, past, |old(past)| - 1, |old(past)| - 1);
      if claim.ActiveRun? {
        return Raise(Waiting);
      }
      return Return(());
    }

    /**
     main: cycle after cycle, across any number of process deaths. The history it leaves
     behind is a run of the protocol, so at every moment of it the four claims hold, the one
     about orphans but for runs claimed late, and without exception if the server is prompt.
     */
    method Serve(cycles: nat) returns (outcomes: seq<Outcome<()>>)
      requires Valid() && memory == Idle
      modifies this
      ensures |outcomes| == cycles
      ensures Valid() && old(past) <= past
      ensures forall i: nat :: i < |past| ==>
                && StartedAtMostOnce(past[i]) && StartsWereAnnounced(past[i])
                && OnlyLateOrphaned(past[i]) && ReportsAccounted(past[i])
      ensures prompt ==> forall i :: 0 <= i < |past| ==> NothingOrphaned(past[i])
    {
      outcomes := [];
      for i := 0 to cycles
        invariant |outcomes| == i
        invariant Valid() && memory == Idle && old(past) <= past
      {
        var outcome := Cycle();
        Forget();
        outcomes := outcomes + [outcome];
      }
      EveryMomentIsSafe();
    }
  }
}
