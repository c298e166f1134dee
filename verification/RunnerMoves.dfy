/**
 What can happen between two steps of the program: steps of the outside world and, unless
 the server is `prompt`, late arrivals of the machine's own earlier requests. `Moves` says
 what the program may rely on across such a moment.
 */
module RunnerMoves {
  import opened Options
  import opened SupervisorLedger
  import opened RunnerProtocol
  import opened RunnerSafety
  import opened RunnerLate

  predicate KeepsClaims(s: Server, s': Server) {
    forall q :: q in s.claims ==> q in s'.claims && s'.claims[q] == s.claims[q]
  }

  predicate KeepsReports(s: Server, s': Server) {
    forall q :: q in s.reports ==> q in s'.reports && s'.reports[q] == s.reports[q]
  }

  /** Ownership, generation and settlement of this machine's runs last. */
  predicate KeepsRuns(s: Server, s': Server) {
    forall id :: id in s.runs && s.runs[id].owner == Some(Local) ==>
      && id in s'.runs && s'.runs[id].owner == Some(Local) && s'.runs[id].generation == s.runs[id].generation
      && (Settled(s, id) ==> Settled(s', id))
  }

  predicate KeepsDoom(s: Server, s': Server, outbox: Option<Report>) {
    outbox.Some? && Doomed(s, outbox.value) ==> Doomed(s', outbox.value)
  }

  /** Files and program point are the same; the server may have moved on. */
  ghost predicate Moves(prompt: bool, w: World, w': World) {
    && w' == w.(server := w'.server, applied := w'.applied, late := w'.late)
    && (prompt ==> w'.applied == w.applied && w'.late == w.late && Quiet(w.server, w'.server, w.drawn))
    && KeepsClaims(w.server, w'.server) && KeepsReports(w.server, w'.server) && KeepsRuns(w.server, w'.server)
    && KeepsDoom(w.server, w'.server, w.outbox)
  }

  lemma QuietReflexive(s: Server, mine: set<RequestId>)
    ensures Quiet(s, s, mine)
  {
  }

  lemma QuietTransitive(s0: Server, s1: Server, s2: Server, mine: set<RequestId>)
    requires Quiet(s0, s1, mine) && Quiet(s1, s2, mine)
    ensures Quiet(s0, s2, mine)
  {
    forall id | id in s0.runs && s0.runs[id].owner == Some(Local)
      ensures QuietRun(s0.runs[id], s2.runs[id])
    {
      QuietRunTransitive(s0.runs[id], s1.runs[id], s2.runs[id]);
    }
  }

  lemma QuietRunTransitive(r0: Run, r1: Run, r2: Run)
    requires QuietRun(r0, r1) && QuietRun(r1, r2)
    ensures QuietRun(r0, r2)
  {
  }

  lemma MovesReflexive(prompt: bool, w: World)
    ensures Moves(prompt, w, w)
  {
    QuietReflexive(w.server, w.drawn);
  }

  lemma MovesTransitive(prompt: bool, w0: World, w1: World, w2: World)
    requires Moves(prompt, w0, w1) && Moves(prompt, w1, w2)
    ensures Moves(prompt, w0, w2)
  {
    if prompt {
      QuietTransitive(w0.server, w1.server, w2.server, w0.drawn);
    }
  }

  // -------------------------------------------------- what makes such a move

  lemma QuietKeepsRuns(s: Server, s': Server, mine: set<RequestId>)
    requires Quiet(s, s', mine)
    ensures KeepsClaims(s, s') && KeepsReports(s, s') && KeepsRuns(s, s')
  {
    forall id | id in s.runs && s.runs[id].owner == Some(Local)
      ensures QuietRun(s.runs[id], s'.runs[id])
    {
    }
  }

  lemma QuietMoves(prompt: bool, w: World, s: Server)
    requires Inv(w) && Quiet(w.server, s, w.drawn)
    ensures Moves(prompt, w, w.(server := s))
  {
    QuietKeepsRuns(w.server, s, w.drawn);
    if w.outbox.Some? && Doomed(w.server, w.outbox.value) {
      assert w.outbox.value in w.recorded;
      QuietKeepsDoom(w.server, s, w.drawn, w.outbox.value);
    }
  }

  lemma DeliverMoves(w: World)
    requires Inv(w) && w.outbox.Some?
    ensures Moves(false, w, Apply(w, Deliver))
  {
    var r := w.outbox.value;
    if Accepts(w, r) {
      assert Apply(w, Deliver) == Delivered(w, r);
      TakenKeepsRuns(w.server, r);
    } else {
      assert Apply(w, Deliver) == w;
    }
  }

  lemma TakenKeepsRuns(s: Server, r: Report)
    requires r.requestId !in s.reports && Refusal(s, Local, r).None?
    ensures KeepsClaims(s, Taken(s, r)) && KeepsReports(s, Taken(s, r)) && KeepsRuns(s, Taken(s, r))
  {
  }

  lemma LateReportMoves(w: World, r: Report)
    requires Inv(w) && r in w.recorded
    ensures Moves(false, w, LateApply(w, LateReport(r)))
  {
    LateReportIsHarmless(w, r);
    if LateApply(w, LateReport(r)) == w {
      MovesReflexive(false, w);
    } else {
      DeliverMoves(w);
    }
  }

  lemma GrantKeepsRuns(w: World, q: RequestId, id: RunId)
    requires Inv(w) && Grants(w, q, id)
    ensures
      var s := Granted(w.server, q, id);
      && KeepsClaims(w.server, s) && KeepsReports(w.server, s) && KeepsRuns(w.server, s)
      && KeepsDoom(w.server, s, w.outbox)
  {
    assert w.server.runs[id].owner.None?;
  }

  lemma LateClaimMoves(w: World, q: RequestId, pick: Option<RunId>, admitted: bool)
    requires Inv(w) && LateEnabled(w, LateClaim(q, pick, admitted))
    ensures Moves(false, w, LateApply(w, LateClaim(q, pick, admitted)))
  {
    var w' := LateApply(w, LateClaim(q, pick, admitted));
    LateClaimCases(w.server, q, pick, admitted, w.drawn);
    if Grantable(w.server, q, pick, admitted) {
      GrantKeepsRuns(w, q, pick.value);
    } else {
      QuietMoves(false, w, w'.server);
    }
  }

  // -------------------------------------------------------- what it preserves

  lemma MovesKeepHeard(prompt: bool, w: World, w': World, id: RunId)
    requires Moves(prompt, w, w') && Heard(w.server, id)
    ensures Heard(w'.server, id)
  {
    var q :| q in w.server.reports && w.server.reports[q].actor == Local && w.server.reports[q].report.runId == id;
    assert q in w'.server.reports;
  }

  lemma MovesKeepMayReport(prompt: bool, w: World, w': World, id: RunId, generation: nat, kind: Kind, checkpoint: Checkpoint)
    requires Moves(prompt, w, w') && MayReport(w, id, generation, kind, checkpoint)
    ensures MayReport(w', id, generation, kind, checkpoint)
  {
  }

  /** No claim can be granted to the saved intent any more: its run is settled, or there is none. */
  predicate Firm(w: World) {
    w.intent.Some? ==> w.intent.value in w.server.claims && Settled(w.server, w.server.claims[w.intent.value].runId)
  }

  lemma FirmIsReleased(w: World)
    requires Firm(w)
    ensures Released(w)
  {
  }

  lemma MovesKeepFirm(prompt: bool, w: World, w': World)
    requires Inv(w) && Moves(prompt, w, w') && Firm(w)
    ensures Firm(w')
  {
    if w.intent.Some? {
      assert w.server.claims[w.intent.value].actor == Local;
    }
  }

  lemma MovesKeepReleased(w: World, w': World)
    requires Inv(w) && Moves(true, w, w') && Released(w)
    ensures Released(w')
  {
    if w.intent.Some? && w.intent.value in w.server.claims {
      assert w.server.claims[w.intent.value].actor == Local;
    }
  }

  /** The journaled run stays settled, and with it the claim it came from. */
  lemma MovesKeepActiveSettled(prompt: bool, w: World, w': World)
    requires Inv(w) && Moves(prompt, w, w') && w.active.Some? && Settled(w.server, w.active.value.runId)
    ensures Settled(w'.server, w.active.value.runId)
    ensures Firm(w'.(active := None))
  {
  }
}
