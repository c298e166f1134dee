/**
 Requests that the server handles after the runner has given up waiting for them: the
 protocol of RunnerProtocol, and on top of it late reports, late claims and an intent that
 is dropped although an earlier copy of its claim is still under way.
 */
module RunnerLate {
  import opened Options
  import opened SupervisorLedger
  import opened RunnerProtocol
  import opened RunnerSafety

  datatype LateAction =
    | InTime(action: Action)
    | LateReport(report: Report)
    | LateClaim(request: RequestId, pick: Option<RunId>, admitted: bool)
    | GiveUp                     // the intent goes although its claim may still be granted

  predicate LateEnabled(w: World, a: LateAction) {
    match a
    case InTime(action) => Enabled(w, action)
    case LateReport(r) => r in w.recorded
    case LateClaim(q, _, _) =>
      q in w.drawn && (forall r :: r in w.recorded ==> r.requestId != q) && w.memory != Claiming(q)
    case GiveUp => w.memory == Idle && w.intent.Some?
  }

  function LateApply(w: World, a: LateAction): World
    requires LateEnabled(w, a)
  {
    match a
    case InTime(action) => Apply(w, action)
    case LateReport(r) =>
      var (server, reply) := ReportRun(w.server, Local, r);
      w.(server := server,
         applied := if r.requestId in w.server.reports || reply != Accepted then w.applied else w.applied + [r])
    case LateClaim(q, pick, admitted) =>
      w.(server := ClaimRun(w.server, Local, q, pick, admitted).0,
         late := if w.intent == Some(q) then w.late else w.late + {q})
    case GiveUp => w.(intent := None, late := w.late + {w.intent.value})
  }

  ghost predicate LateNext(w: World, w': World) {
    exists a: LateAction :: LateEnabled(w, a) && w' == LateApply(w, a)
  }

  ghost predicate LateStepAt(past: seq<World>, i: nat)
    requires 0 < i < |past|
  {
    LateNext(past[i - 1], past[i])
  }

  ghost predicate LateLegal(past: seq<World>) {
    past != [] && Initial(past[0]) && forall i: nat :: 0 < i < |past| ==> LateStepAt(past, i)
  }

  /** A live run of this machine that neither file names and that was never reported on. */
  predicate Orphaned(w: World, id: RunId) {
    && id in w.server.runs && LiveHere(w.server.runs[id]) && w.server.runs[id].checkpoint.phase.None?
    && !NamesActive(w, id) && !(w.intent.Some? && w.server.runs[id].checkpoint.claimRequest == w.intent)
  }

  /** A repeated report changes nothing, unless the body is still pending: then it is delivered. */
  lemma LateReportIsHarmless(w: World, r: Report)
    requires Inv(w) && r in w.recorded
    ensures LateApply(w, LateReport(r)) == w
         || (w.outbox == Some(r) && LateApply(w, LateReport(r)) == Apply(w, Deliver))
  {
    EachReportIsInOnePlace(w, r);
  }

  lemma MoreMayBeLate(w: World, q: RequestId)
    requires Inv(w)
    ensures Inv(w.(late := w.late + {q}))
  {
    forall id | id in w.server.runs
      ensures CheckpointOk(w.(late := w.late + {q}), id)
    {
      assert CheckpointOk(w, id);
    }
  }

  lemma LateClaimKeepsInv(w: World, q: RequestId, pick: Option<RunId>, admitted: bool)
    requires Inv(w) && LateEnabled(w, LateClaim(q, pick, admitted)) && (w.intent == Some(q) || q in w.late)
    ensures Inv(w.(server := ClaimRun(w.server, Local, q, pick, admitted).0))
  {
    var s := ClaimRun(w.server, Local, q, pick, admitted).0;
    LateClaimCases(w.server, q, pick, admitted, w.drawn);
    if Grantable(w.server, q, pick, admitted) {
      NewClaimKeepsInv(w, q, pick.value, w.memory);
    } else {
      QuietKeepsInv(w, s);
    }
  }

  /** When the server grants a claim a run: it can be checked before the call. */
  predicate Grantable(s: Server, q: RequestId, pick: Option<RunId>, admitted: bool) {
    && q !in s.claims && s.mode == ModeActive && s.activeRun.None?
    && pick.Some? && pick.value in s.runs && s.runs[pick.value].status == Pending && admitted
  }

  /** A claim is granted a pending run, or does at most what others could do as well. */
  lemma LateClaimCases(s: Server, q: RequestId, pick: Option<RunId>, admitted: bool, mine: set<RequestId>)
    requires ServerOk(s)
    ensures
      var s' := ClaimRun(s, Local, q, pick, admitted).0;
      if Grantable(s, q, pick, admitted) then s' == Granted(s, q, pick.value)
      else s'.claims == s.claims && Quiet(s, s', mine) && ServerOk(s')
  {
    var s' := ClaimRun(s, Local, q, pick, admitted).0;
    if s != s' && !Grantable(s, q, pick, admitted) {
      RunEditIsQuiet(s, s', s.activeRun.value, s'.runs[s.activeRun.value], mine);
    }
  }

  lemma GiveUpKeepsInv(w: World)
    requires Inv(w) && LateEnabled(w, GiveUp)
    ensures Inv(LateApply(w, GiveUp))
  {
    var w1 := w.(late := w.late + {w.intent.value});
    MoreMayBeLate(w, w.intent.value);
    FilesAreNoEvidence(w1, w1.(intent := None));
    assert LateApply(w, GiveUp) == w1.(intent := None);
  }

  lemma LateActionKeepsInv(w: World, a: LateAction)
    requires Inv(w) && LateEnabled(w, a)
    ensures Inv(LateApply(w, a))
  {
    match a
    case InTime(action) => ActionKeepsInv(w, action);
    case LateReport(r) =>
      LateReportIsHarmless(w, r);
      if LateApply(w, a) != w {
        DeliverKeepsInv(w);
      }
    case LateClaim(q, pick, admitted) =>
      if w.intent == Some(q) {
        LateClaimKeepsInv(w, q, pick, admitted);
      } else {
        MoreMayBeLate(w, q);
        LateClaimKeepsInv(w.(late := w.late + {q}), q, pick, admitted);
      }
    case GiveUp => GiveUpKeepsInv(w);
  }

  lemma LateStepKeepsInv(past: seq<World>, i: nat)
    requires 0 < i < |past| && LateStepAt(past, i) && Inv(past[i - 1])
    ensures Inv(past[i])
  {
    assert LateNext(past[i - 1], past[i]);
    var a: LateAction :| LateEnabled(past[i - 1], a) && past[i] == LateApply(past[i - 1], a);
    LateActionKeepsInv(past[i - 1], a);
  }

  lemma {:induction false} LateRunKeepsInv(past: seq<World>, n: nat)
    requires LateLegal(past) && n < |past|
    ensures Inv(past[n])
  {
    if n == 0 {
      InitialWorldIsSafe(past[0]);
    } else {
      LateRunKeepsInv(past, n - 1);
      assert LateStepAt(past, n);
      LateStepKeepsInv(past, n);
    }
  }

  /**
   What survives late requests: each run is started at most once and only after an accepted
   report, and every report is accounted for. A live run may now be named by neither file,
   but only one that was claimed by a request given up before, and it has not been started.
   */
  lemma LateRequestsOnlyOrphan(past: seq<World>, n: nat)
    requires LateLegal(past) && n < |past|
    ensures StartedAtMostOnce(past[n]) && StartsWereAnnounced(past[n]) && ReportsAccounted(past[n])
    ensures OnlyLateOrphaned(past[n])
    ensures forall id :: Orphaned(past[n], id) ==> id !in past[n].starts
  {
    LateRunKeepsInv(past, n);
    forall id | Orphaned(past[n], id)
      ensures id !in past[n].starts
    {
      UnphasedIsUnstarted(past[n], id);
    }
  }

  /**
   A late claim orphans a run exactly if it is new to a server in active mode without an
   active run, and there is a pending run to pick whose evidence still holds.
   */
  lemma LateClaimOrphansIffGranted(w: World, q: RequestId, pick: Option<RunId>, admitted: bool)
    requires ServerOk(w.server) && FilesOk(w) && LateEnabled(w, LateClaim(q, pick, admitted)) && w.intent != Some(q)
    ensures
      var w' := LateApply(w, LateClaim(q, pick, admitted));
      (exists id :: Orphaned(w', id) && !Orphaned(w, id)) <==> Grantable(w.server, q, pick, admitted)
  {
    var w' := LateApply(w, LateClaim(q, pick, admitted));
    LateClaimCases(w.server, q, pick, admitted, w.drawn);
    if Grantable(w.server, q, pick, admitted) {
      GrantOrphans(w, w', q, pick.value);
    } else {
      QuietOrphansNone(w, w');
    }
  }

  lemma GrantOrphans(w: World, w': World, q: RequestId, id: RunId)
    requires ServerOk(w.server) && FilesOk(w) && Grants(w, q, id) && w.intent != Some(q)
    requires w' == w.(server := Granted(w.server, q, id), late := w'.late)
    ensures Orphaned(w', id) && !Orphaned(w, id)
  {
    assert w.server.runs[id].owner.None?;
  }

  lemma QuietOrphansNone(w: World, w': World)
    requires w' == w.(server := w'.server, late := w'.late) && Quiet(w.server, w'.server, w.drawn)
    ensures forall id :: Orphaned(w', id) ==> Orphaned(w, id)
  {
    forall id | Orphaned(w', id)
      ensures Orphaned(w, id)
    {
      assert QuietRun(w.server.runs[id], w'.server.runs[id]);
    }
  }

  // -------------------------------------------- an orphan is never executed

  /** The run of a claim whose intent is gone, and which has not been started. */
  predicate Abandoned(w: World, q: RequestId, id: RunId) {
    && q in w.server.claims && w.server.claims[q] == ClaimEvent(Local, id)
    && w.intent != Some(q) && !NamesActive(w, id) && id !in w.starts
  }

  lemma ServerKeepsClaims(w: World, a: LateAction, q: RequestId)
    requires ServerOk(w.server) && LateEnabled(w, a) && q in w.server.claims
    ensures q in LateApply(w, a).server.claims && LateApply(w, a).server.claims[q] == w.server.claims[q]
  {
    if a.InTime? && a.action.Environment? {
      OutsideIsQuiet(w.server, a.action.outside, w.drawn);
    }
  }

  lemma LateActionKeepsAbandoned(w: World, a: LateAction, q: RequestId, id: RunId)
    requires ServerOk(w.server) && MemoryOk(w) && LateEnabled(w, a) && Abandoned(w, q, id)
    ensures Abandoned(LateApply(w, a), q, id)
  {
    ServerKeepsClaims(w, a, q);
  }

  lemma LateStepKeepsAbandoned(past: seq<World>, i: nat, q: RequestId, id: RunId)
    requires LateLegal(past) && 0 < i < |past| && Abandoned(past[i - 1], q, id)
    ensures Abandoned(past[i], q, id)
  {
    var w, w' := past[i - 1], past[i];
    LateRunKeepsInv(past, i - 1);
    assert LateStepAt(past, i);
    var a: LateAction :| LateEnabled(w, a) && w' == LateApply(w, a);
    LateActionKeepsAbandoned(w, a, q, id);
  }

  /** A run that has been orphaned is never started by this machine, however long it waits. */
  lemma {:induction false} OrphanIsNeverStarted(past: seq<World>, i: nat, j: nat, id: RunId)
    requires LateLegal(past) && i <= j < |past| && Orphaned(past[i], id)
    ensures id !in past[j].starts && !NamesActive(past[j], id)
  {
    var q := OrphanWasClaimed(past, i, id);
    AbandonedStays(past, i, j, q, id);
  }

  lemma OrphanWasClaimed(past: seq<World>, i: nat, id: RunId) returns (q: RequestId)
    requires LateLegal(past) && i < |past| && Orphaned(past[i], id)
    ensures Abandoned(past[i], q, id) && q in past[i].late
  {
    var w := past[i];
    LateRunKeepsInv(past, i);
    UnphasedIsUnstarted(w, id);
    assert CheckpointOk(w, id);
    q := w.server.runs[id].checkpoint.claimRequest.value;
  }

  lemma {:induction false} AbandonedStays(past: seq<World>, i: nat, j: nat, q: RequestId, id: RunId)
    requires LateLegal(past) && i <= j < |past| && Abandoned(past[i], q, id)
    ensures Abandoned(past[j], q, id)
    decreases j
  {
    if i < j {
      AbandonedStays(past, i, j - 1, q, id);
      LateStepKeepsAbandoned(past, j, q, id);
    }
  }

  // ------------------------------------------------ a run that leaves an orphan

  lemma Extended(past: seq<World>, a: LateAction) returns (past': seq<World>)
    requires LateLegal(past) && LateEnabled(past[|past| - 1], a)
    ensures LateLegal(past') && past'[|past'| - 1] == LateApply(past[|past| - 1], a)
  {
    past' := past + [LateApply(past[|past| - 1], a)];
    assert LateNext(past[|past| - 1], past'[|past|]);
    forall i: nat | 0 < i < |past'| ensures LateStepAt(past', i) {
      assert i < |past| ==> LateStepAt(past, i);
    }
  }

  const NO_RUNS := Server(ModeActive, None, map[], map[], map[])

  /** The claim times out, the repeated one finds nothing, and the intent goes. */
  lemma ClaimIsGivenUp() returns (past: seq<World>)
    ensures LateLegal(past)
    ensures past[|past| - 1] == World(None, None, None, Idle, NO_RUNS, {1}, [], [], [], [], [], {1})
  {
    past := [World(None, None, None, Idle, NO_RUNS, {}, [], [], [], [], [], {})];
    past := Extended(past, InTime(SaveIntent(1)));
    past := Extended(past, InTime(Crash));
    past := Extended(past, InTime(SendClaim(None, false, true)));
    past := Extended(past, GiveUp);
  }

  /** Then a run is approved, and the first claim arrives. */
  lemma OrphanIsReachable() returns (past: seq<World>, id: RunId)
    ensures LateLegal(past) && Orphaned(past[|past| - 1], id)
  {
    past := ClaimIsGivenUp();
    past := Extended(past, InTime(Environment(Approve(0))));
    past := Extended(past, LateClaim(1, Some(0), true));
    id := 0;
  }
}
