/**
 How a runner of RunnerProtocol gets stuck: a lost claim is reported as stopped twice, the
 server refuses the second report for good, and without a journal nothing archives it.
 */
module RunnerStuck {
  import opened Options
  import opened SupervisorLedger
  import opened RunnerProtocol
  import opened RunnerSafety

  /** A doomed stopped report about a finished run is pending, and no file or program point names that run. */
  predicate Stuck(w: World, r: Report) {
    && w.outbox == Some(r) && r.kind == Stop && Doomed(w.server, r)
    && r.runId in w.server.runs && w.server.runs[r.runId].owner == Some(Local) && Terminal(w.server.runs[r.runId].status)
    && !NamesActive(w, r.runId)
    && match w.memory
       case Holding(id, _) => id != r.runId && !Heard(w.server, id)
       case Journaled(id) => !Heard(w.server, id)
       case Working(_) => false
       case _ => true
  }

  /** What the machine has done: its reports and its starts. */
  predicate SameDeeds(w: World, w': World) {
    && w'.outbox == w.outbox && w'.starts == w.starts && w'.applied == w.applied
    && w'.recorded == w.recorded && w'.acknowledged == w.acknowledged && w'.rejected == w.rejected
  }

  lemma QuietKeepsStuck(w: World, s: Server, r: Report)
    requires Inv(w) && Stuck(w, r) && Quiet(w.server, s, w.drawn)
    ensures Stuck(w.(server := s), r)
  {
    assert r in w.recorded;
    QuietKeepsDoom(w.server, s, w.drawn, r);
    if w.memory.Holding? {
      QuietKeepsHeard(w.server, s, w.drawn, w.memory.claimedId);
    } else if w.memory.Journaled? {
      QuietKeepsHeard(w.server, s, w.drawn, w.memory.preparingId);
    }
  }

  lemma OldClaimKeepsStuck(w: World, pick: Option<RunId>, admitted: bool, heard: bool, r: Report)
    requires Inv(w) && Stuck(w, r) && Enabled(w, SendClaim(pick, admitted, heard))
    requires ClaimRun(w.server, Local, w.intent.value, pick, admitted).0.claims == w.server.claims
    ensures Stuck(Apply(w, SendClaim(pick, admitted, heard)), r)
  {
    var (s, reply) := ClaimRun(w.server, Local, w.intent.value, pick, admitted);
    OldClaimLeavesStuck(w, pick, admitted, r);
    if AfterClaim(w, reply, heard).Holding? {
      RepeatedClaimHolds(w, pick, admitted);
      assert CheckpointOk(w, reply.runId);
    }
  }

  lemma OldClaimLeavesStuck(w: World, pick: Option<RunId>, admitted: bool, r: Report)
    requires Inv(w) && Stuck(w, r) && w.intent.Some?
    requires ClaimRun(w.server, Local, w.intent.value, pick, admitted).0.claims == w.server.claims
    ensures Stuck(w.(server := ClaimRun(w.server, Local, w.intent.value, pick, admitted).0), r)
  {
    var s := ClaimRun(w.server, Local, w.intent.value, pick, admitted).0;
    if s != w.server {
      var id := w.server.activeRun.value;
      RunEditIsQuiet(w.server, s, id, s.runs[id], w.drawn);
      QuietKeepsStuck(w, s, r);
    }
  }

  lemma NewClaimKeepsStuck(w: World, id: RunId, memory: Memory, r: Report)
    requires Inv(w) && Stuck(w, r) && w.intent.Some? && Grants(w, w.intent.value, id)
    requires memory == Idle || memory == Holding(id, w.server.runs[id].generation + 1)
    ensures Stuck(w.(server := Granted(w.server, w.intent.value, id), memory := memory), r)
  {
    NewClaimKeepsStarts(w, w.intent.value, id);
    assert Granted(w.server, w.intent.value, id).reports == w.server.reports;
    assert Heard(Granted(w.server, w.intent.value, id), id) ==> Heard(w.server, id);
  }

  lemma StepKeepsStuck(w: World, a: Action, r: Report)
    requires Inv(w) && Stuck(w, r) && Enabled(w, a)
    ensures Stuck(Apply(w, a), r) && SameDeeds(w, Apply(w, a))
  {
    match a
    case Environment(o) =>
      OutsideIsQuiet(w.server, o, w.drawn);
      QuietKeepsStuck(w, Happen(w.server, o), r);
    case SendClaim(pick, admitted, heard) =>
      if ClaimRun(w.server, Local, w.intent.value, pick, admitted).0.claims == w.server.claims {
        OldClaimKeepsStuck(w, pick, admitted, heard, r);
      } else {
        NewClaimKeepsStuck(w, pick.value, AfterClaim(w, ClaimRun(w.server, Local, w.intent.value, pick, admitted).1, heard), r);
      }
    case _ =>
  }

  lemma LegalStepKeepsStuck(past: seq<World>, j: nat, r: Report)
    requires past != [] && Initial(past[0]) && Legal(past) && 0 < j < |past| && Stuck(past[j - 1], r)
    ensures Stuck(past[j], r) && SameDeeds(past[j - 1], past[j])
  {
    var w, w' := past[j - 1], past[j];
    LegalStep(past, j);
    NextKeepsStuck(w, w', r);
  }

  lemma LegalStep(past: seq<World>, j: nat)
    requires past != [] && Initial(past[0]) && Legal(past) && 0 < j < |past|
    ensures Inv(past[j - 1]) && Next(past[j - 1], past[j])
  {
    LegalRunKeepsInv(past, j - 1);
    assert StepAt(past, j);
  }

  lemma NextKeepsStuck(w: World, w': World, r: Report)
    requires Inv(w) && Stuck(w, r) && Next(w, w')
    ensures Stuck(w', r) && SameDeeds(w, w')
  {
    var a: Action :| Enabled(w, a) && w' == Apply(w, a);
    StepKeepsStuck(w, a, r);
  }

  /**
   Once a doomed stopped report is pending without a journal that names its run, it stays
   pending: the machine records, delivers and archives no report and starts no run any more.
   */
  lemma {:induction false} DoomedStopStaysPending(past: seq<World>, i: nat, j: nat, r: Report)
    requires past != [] && Initial(past[0]) && Legal(past) && i <= j < |past| && Stuck(past[i], r)
    ensures Stuck(past[j], r) && SameDeeds(past[i], past[j])
    decreases j
  {
    if i < j {
      DoomedStopStaysPending(past, i, j - 1, r);
      LegalStepKeepsStuck(past, j, r);
    }
  }

  // --------------------------------------- how a runner gets into that state

  ghost predicate Follows(w: World, a: Action, w': World) {
    Enabled(w, a) && w' == Apply(w, a)
  }

  function StoppedReport(q: RequestId): Report {
    Report.Report(q, 0, 1, Stop, None, true, EMPTY_CHECKPOINT.(processStopped := true, readbackVerified := true))
  }

  const QUEUE := Server(ModeActive, None, map[0 := QUEUED_RUN], map[], map[])

  /** The one run of the queue has been claimed by request 1, and its lease has ended. */
  function LeftAlone(): Server {
    Server(ModeActive, Some(0), map[0 := Claimed(QUEUED_RUN, Local, 1).(leaseLive := false)], map[1 := ClaimEvent(Local, 0)], map[])
  }

  /** And the first stopped report has arrived. */
  function StoppedOnce(): Server {
    var r := StoppedReport(2);
    Server(ModeActive, None, map[0 := Reported(LeftAlone().runs[0], r)], map[1 := ClaimEvent(Local, 0)], map[2 := ReportEvent(Local, r)])
  }

  /** A machine at rest whose intent is request 1. */
  function AtRest(server: Server, outbox: Option<Report>, drawn: set<RequestId>, recorded: seq<Report>, sent: seq<Report>,
                  acknowledged: seq<Report>): World
  {
    World(Some(1), None, outbox, Idle, server, drawn, recorded, sent, acknowledged, [], [], {})
  }

  function Waiting(): World { AtRest(LeftAlone(), None, {1}, [], [], []) }

  function Recorded(): World { AtRest(LeftAlone(), Some(StoppedReport(2)), {1, 2}, [StoppedReport(2)], [], []) }

  function Acknowledged(): World { AtRest(StoppedOnce(), None, {1, 2}, [StoppedReport(2)], [StoppedReport(2)], [StoppedReport(2)]) }

  /** The claim is granted, its answer is lost, and the lease ends. */
  lemma ClaimIsLost() returns (w0: World, w1: World, w2: World)
    ensures Initial(w0) && Follows(w0, SaveIntent(1), w1) && Follows(w1, SendClaim(Some(0), true, false), w2)
    ensures Follows(w2, Environment(LeaseEnds(0)), Waiting())
  {
    w0 := World(None, None, None, Idle, QUEUE, {}, [], [], [], [], [], {});
    w1 := Apply(w0, SaveIntent(1));
    w2 := Apply(w1, SendClaim(Some(0), true, false));
  }

  /** The first stopped report does not arrive; the next recovery claims again and delivers it. */
  lemma FirstStopIsDeliveredLate() returns (w: World)
    ensures Follows(Waiting(), Record(StoppedReport(2)), Recorded())
    ensures Follows(Recorded(), Crash, Recorded()) && Follows(Recorded(), SendClaim(None, false, true), Recorded())
    ensures Follows(Recorded(), Deliver, w) && Follows(w, Acknowledge, Acknowledged())
  {
    w := Apply(Recorded(), Deliver);
  }

  lemma SecondStopIsRecorded() returns (w: World)
    ensures Follows(Acknowledged(), Record(StoppedReport(3)), w) && Stuck(w, StoppedReport(3))
  {
    w := Apply(Acknowledged(), Record(StoppedReport(3)));
  }

  lemma Extended(past: seq<World>, a: Action, w: World) returns (past': seq<World>)
    requires past != [] && Initial(past[0]) && Legal(past) && Follows(past[|past| - 1], a, w)
    ensures past' == past + [w] && Initial(past'[0]) && Legal(past') && past'[|past'| - 1] == w
  {
    past' := past + [w];
    forall i: nat | 0 < i < |past'| ensures StepAt(past', i) {
      assert i < |past| ==> StepAt(past, i);
    }
  }

  /** A legal run that ends with a doomed second stopped report pending. */
  lemma StuckIsReachable() returns (past: seq<World>, r: Report)
    ensures past != [] && Initial(past[0]) && Legal(past) && Stuck(past[|past| - 1], r)
  {
    var w0, w1, w2 := ClaimIsLost();
    past := Extended([w0], SaveIntent(1), w1);
    past := Extended(past, SendClaim(Some(0), true, false), w2);
    past := Extended(past, Environment(LeaseEnds(0)), Waiting());
    var delivered := FirstStopIsDeliveredLate();
    past := Extended(past, Record(StoppedReport(2)), Recorded());
    past := Extended(past, Crash, Recorded());
    past := Extended(past, SendClaim(None, false, true), Recorded());
    past := Extended(past, Deliver, delivered);
    past := Extended(past, Acknowledge, Acknowledged());
    var stuck := SecondStopIsRecorded();
    past := Extended(past, Record(StoppedReport(3)), stuck);
    r := StoppedReport(3);
  }
}
