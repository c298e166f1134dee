/** The invariant of RunnerProtocol survives every action, hence every run. */
module RunnerSafety {
  import opened Options
  import opened SupervisorLedger
  import opened RunnerProtocol

  /** What no step outside this machine does to this machine's runs and events. */
  ghost predicate Quiet(s: Server, s': Server, mine: set<RequestId>) {
    && s.runs.Keys <= s'.runs.Keys
    && (forall id :: id in s'.runs && s'.runs[id].owner == Some(Local) ==>
         id in s.runs && s.runs[id].owner == Some(Local))
    && (forall id :: id in s.runs && s.runs[id].owner == Some(Local) ==> QuietRun(s.runs[id], s'.runs[id]))
    && (forall id :: id in s.runs && s.runs[id].owner == Some(Local) && s'.activeRun == Some(id) ==>
         s.activeRun == Some(id))
    && (forall q :: q in s.claims ==> q in s'.claims && s'.claims[q] == s.claims[q])
    && (forall q :: q in s'.claims && q !in s.claims ==> q !in mine && s'.claims[q].actor != Local)
    && (forall q :: q in s.reports ==> q in s'.reports && s'.reports[q] == s.reports[q])
    && (forall q :: q in s'.reports && q !in s.reports ==> q !in mine && s'.reports[q].actor != Local)
  }

  predicate QuietRun(run: Run, run': Run) {
    && run'.owner == run.owner && run'.generation == run.generation && run'.checkpoint == run.checkpoint
    && (run'.status == run.status || Terminal(run'.status))
    && (run'.leaseLive ==> run.leaseLive)
    && (run'.localState == Running ==> run.localState == Running)
    && (!Terminal(run'.status) ==> (run'.localState == Paused <==> run.localState == Paused))
    && (Terminal(run.status) ==> Terminal(run'.status))
  }

  lemma RunEditIsQuiet(s: Server, s': Server, id: RunId, run: Run, mine: set<RequestId>)
    requires id in s.runs && s'.runs == s.runs[id := run]
    requires s'.claims == s.claims && s'.reports == s.reports
    requires s'.activeRun == s.activeRun || s'.activeRun.None?
    requires run.owner == s.runs[id].owner
    requires run.owner == Some(Local) ==> QuietRun(s.runs[id], run)
    ensures Quiet(s, s', mine)
  {
  }

  lemma ForeignClaimIsQuiet(s: Server, machine: Machine, q: RequestId, pick: Option<RunId>, mine: set<RequestId>)
    requires ServerOk(s) && machine != Local && q !in mine
    ensures Quiet(s, ClaimRun(s, machine, q, pick, true).0, mine)
  {
    var s' := ClaimRun(s, machine, q, pick, true).0;
    if s' != s {
      if s.activeRun.Some? {
        RunEditIsQuiet(s, s', s.activeRun.value, s'.runs[s.activeRun.value], mine);
      } else {
        assert s'.runs == s.runs[pick.value := Claimed(s.runs[pick.value], machine, q)];
        assert s'.claims == s.claims[q := ClaimEvent(machine, pick.value)];
        assert s.runs[pick.value].owner.None?;
      }
    }
  }

  lemma ForeignReportIsQuiet(s: Server, machine: Machine, r: Report, mine: set<RequestId>)
    requires ServerOk(s) && machine != Local && r.requestId !in mine
    ensures Quiet(s, ReportRun(s, machine, r).0, mine)
  {
  }

  lemma OutsideIsQuiet(s: Server, o: Outside, mine: set<RequestId>)
    requires ServerOk(s) && CanHappen(s, o, mine)
    ensures Quiet(s, Happen(s, o), mine)
  {
    var s' := Happen(s, o);
    match o
    case Approve(id) => assert s'.runs == s.runs[id := QUEUED_RUN];
    case CancelRun(id) => RunEditIsQuiet(s, s', id, s'.runs[id], mine);
    case Reconcile(id) => RunEditIsQuiet(s, s', id, s'.runs[id], mine);
    case ExpirePending(id) => RunEditIsQuiet(s, s', id, s'.runs[id], mine);
    case LeaseEnds(id) => RunEditIsQuiet(s, s', id, s'.runs[id], mine);
    case SetMode(mode) =>
    case OtherClaim(machine, q, pick) => ForeignClaimIsQuiet(s, machine, q, pick, mine);
    case OtherReport(machine, r) => ForeignReportIsQuiet(s, machine, r, mine);
  }

  lemma OutsideKeepsServerOk(s: Server, o: Outside, mine: set<RequestId>)
    requires ServerOk(s) && CanHappen(s, o, mine)
    ensures ServerOk(Happen(s, o))
  {
    match o
    case OtherClaim(machine, request, pick) => ClaimKeepsServerOk(s, machine, request, pick);
    case OtherReport(machine, report) => ReportKeepsServerOk(s, machine, report);
    case _ =>
  }

  lemma ClaimKeepsServerOk(s: Server, machine: Machine, request: RequestId, pick: Option<RunId>)
    requires ServerOk(s)
    ensures ServerOk(ClaimRun(s, machine, request, pick, true).0)
  {
  }

  lemma ReportKeepsServerOk(s: Server, machine: Machine, report: Report)
    requires ServerOk(s)
    ensures ServerOk(ReportRun(s, machine, report).0)
  {
  }

  lemma QuietKeepsHeard(s: Server, s': Server, mine: set<RequestId>, id: RunId)
    requires Quiet(s, s', mine)
    ensures Heard(s, id) <==> Heard(s', id)
  {
  }

  lemma QuietKeepsTracks(w: World, s: Server)
    requires LocalTracks(w) && Quiet(w.server, s, w.drawn)
    ensures LocalTracks(w.(server := s))
  {
  }

  lemma QuietKeepsCheckpoints(w: World, s: Server)
    requires (forall id :: id in w.server.runs ==> CheckpointOk(w, id)) && Quiet(w.server, s, w.drawn)
    ensures forall id :: id in s.runs ==> CheckpointOk(w.(server := s), id)
  {
    forall id | id in s.runs
      ensures CheckpointOk(w.(server := s), id)
    {
      QuietKeepsHeard(w.server, s, w.drawn, id);
      if id in w.server.runs {
        assert CheckpointOk(w, id);
      }
    }
  }

  lemma QuietKeepsDoom(s: Server, s': Server, mine: set<RequestId>, r: Report)
    requires Quiet(s, s', mine) && Doomed(s, r) && r.requestId in mine
    requires r.runId in s.runs && s.runs[r.runId].owner == Some(Local)
    ensures Doomed(s', r)
  {
    assert QuietRun(s.runs[r.runId], s'.runs[r.runId]);
  }

  lemma QuietKeepsFiles(w: World, s: Server)
    requires FilesOk(w) && MemoryOk(w) && LocalTracks(w) && Quiet(w.server, s, w.drawn)
    ensures FilesOk(w.(server := s)) && MemoryOk(w.(server := s))
  {
  }

  lemma QuietKeepsClaims(w: World, s: Server)
    requires OnlyLateOrphaned(w) && StartsWereAnnounced(w) && Quiet(w.server, s, w.drawn)
    ensures OnlyLateOrphaned(w.(server := s)) && StartsWereAnnounced(w.(server := s))
  {
    forall id | id in s.runs && LiveHere(s.runs[id])
      ensures LiveHere(w.server.runs[id]) && QuietRun(w.server.runs[id], s.runs[id])
    {
    }
    forall i | 0 <= i < |w.starts|
      ensures Heard(s, w.starts[i])
    {
      QuietKeepsHeard(w.server, s, w.drawn, w.starts[i]);
    }
  }

  lemma QuietKeepsAccounts(w: World, s: Server)
    requires ReportsAccounted(w) && LocalTracks(w) && Quiet(w.server, s, w.drawn)
    ensures ReportsAccounted(w.(server := s))
  {
    forall r | r in w.rejected
      ensures Doomed(s, r)
    {
      SettledBodyWasRecorded(w, r);
      QuietKeepsDoom(w.server, s, w.drawn, r);
    }
  }

  /** An acknowledged or archived body was written to the outbox once. */
  lemma SettledBodyWasRecorded(w: World, r: Report)
    requires ReportsAccounted(w) && (r in w.acknowledged || r in w.rejected)
    ensures r in w.recorded
  {
    assert r in multiset(w.acknowledged) + multiset(w.rejected);
    assert r in multiset(w.recorded);
  }

  lemma QuietKeepsInv(w: World, s: Server)
    requires Inv(w) && ServerOk(s) && Quiet(w.server, s, w.drawn)
    ensures Inv(w.(server := s))
  {
    QuietKeepsTracks(w, s);
    QuietKeepsCheckpoints(w, s);
    QuietKeepsFiles(w, s);
    QuietKeepsClaims(w, s);
    QuietKeepsAccounts(w, s);
  }

  lemma EnvironmentKeepsInv(w: World, o: Outside)
    requires Inv(w) && CanHappen(w.server, o, w.drawn)
    ensures Inv(Apply(w, Environment(o)))
  {
    OutsideIsQuiet(w.server, o, w.drawn);
    OutsideKeepsServerOk(w.server, o, w.drawn);
    QuietKeepsInv(w, Happen(w.server, o));
  }

  lemma CrashKeepsInv(w: World)
    requires Inv(w)
    ensures Inv(Apply(w, Crash))
  {
  }

  lemma SaveIntentKeepsInv(w: World, q: RequestId)
    requires Inv(w) && Enabled(w, SaveIntent(q))
    ensures Inv(Apply(w, SaveIntent(q)))
  {
  }

  /** A run that is live and was never reported on has not been started. */
  lemma UnphasedIsUnstarted(w: World, id: RunId)
    requires Inv(w) && id in w.server.runs && LiveHere(w.server.runs[id])
    requires w.server.runs[id].checkpoint.phase.None?
    ensures id !in w.starts
  {
    assert CheckpointOk(w, id);
  }

  /** A repeated claim, or one the server answers without giving out a run. */
  lemma OldClaimKeepsInv(w: World, pick: Option<RunId>, admitted: bool, heard: bool)
    requires Inv(w) && Enabled(w, SendClaim(pick, admitted, heard))
    requires ClaimRun(w.server, Local, w.intent.value, pick, admitted).0.claims == w.server.claims
    ensures Inv(Apply(w, SendClaim(pick, admitted, heard)))
  {
    var (s, reply) := ClaimRun(w.server, Local, w.intent.value, pick, admitted);
    var memory := AfterClaim(w, reply, heard);
    OldClaimEditsQuietly(w, pick, admitted);
    if memory.Holding? {
      RepeatedClaimHolds(w, pick, admitted);
    }
    MemoryChangeKeepsInv(w.(server := s), memory);
  }

  /** A claim that grants nothing new at most marks the active run as uncertain. */
  lemma OldClaimEditsQuietly(w: World, pick: Option<RunId>, admitted: bool)
    requires Inv(w) && w.intent.Some?
    requires ClaimRun(w.server, Local, w.intent.value, pick, admitted).0.claims == w.server.claims
    ensures Inv(w.(server := ClaimRun(w.server, Local, w.intent.value, pick, admitted).0))
  {
    var s := ClaimRun(w.server, Local, w.intent.value, pick, admitted).0;
    if s != w.server {
      var id := w.server.activeRun.value;
      RunEditIsQuiet(w.server, s, id, s.runs[id], w.drawn);
      QuietKeepsInv(w, s);
    }
  }

  lemma MemoryChangeKeepsInv(w: World, memory: Memory)
    requires Inv(w) && MemoryOk(w.(memory := memory))
    ensures Inv(w.(memory := memory))
  {
  }

  /** Recovery re-enters a claimed run only when it was never reported on. */
  lemma RepeatedClaimHolds(w: World, pick: Option<RunId>, admitted: bool)
    requires Inv(w) && Enabled(w, SendClaim(pick, admitted, true))
    requires ClaimRun(w.server, Local, w.intent.value, pick, admitted).0.claims == w.server.claims
    requires AfterClaim(w, ClaimRun(w.server, Local, w.intent.value, pick, admitted).1, true).Holding?
    ensures
      var (s, reply) := ClaimRun(w.server, Local, w.intent.value, pick, admitted);
      && s == w.server
      && w.intent.value in s.claims && s.claims[w.intent.value].runId == reply.runId
      && reply.runId in s.runs && reply.run == s.runs[reply.runId] && LiveHere(reply.run)
      && reply.runId !in w.starts
  {
    var reply := ClaimRun(w.server, Local, w.intent.value, pick, admitted).1;
    assert w.intent.value in w.server.claims;
    UnphasedIsUnstarted(w, reply.runId);
  }

  lemma SendClaimKeepsInv(w: World, pick: Option<RunId>, admitted: bool, heard: bool)
    requires Inv(w) && Enabled(w, SendClaim(pick, admitted, heard))
    ensures Inv(Apply(w, SendClaim(pick, admitted, heard)))
  {
    if ClaimRun(w.server, Local, w.intent.value, pick, admitted).0.claims == w.server.claims {
      OldClaimKeepsInv(w, pick, admitted, heard);
    } else {
      NewClaimKeepsInv(w, w.intent.value, pick.value, AfterClaim(w, ClaimRun(w.server, Local, w.intent.value, pick, admitted).1, heard));
    }
  }

  function Granted(s: Server, q: RequestId, id: RunId): Server
    requires id in s.runs
  {
    s.(runs := s.runs[id := Claimed(s.runs[id], Local, q)],
       activeRun := Some(id),
       claims := s.claims[q := ClaimEvent(Local, id)])
  }

  /** The server can grant a run to a claim of this machine, in time or late. */
  predicate Grants(w: World, q: RequestId, id: RunId) {
    && q in w.drawn && q !in w.server.claims
    && w.server.activeRun.None? && id in w.server.runs && w.server.runs[id].status == Pending
  }

  predicate Named(w: World, q: RequestId) {
    w.intent == Some(q) || q in w.late
  }

  /** Where the program may be once the claim has been granted; a late answer reaches nobody. */
  predicate MayBeAt(w: World, q: RequestId, id: RunId, memory: Memory)
    requires id in w.server.runs
  {
    || (memory == w.memory && memory != Claiming(q))
    || (w.intent == Some(q) && w.active.None? && (memory == Idle || memory == Holding(id, w.server.runs[id].generation + 1)))
  }

  lemma NewClaimKeepsInv(w: World, q: RequestId, id: RunId, memory: Memory)
    requires Inv(w) && Grants(w, q, id) && Named(w, q) && MayBeAt(w, q, id, memory)
    ensures Inv(w.(server := Granted(w.server, q, id), memory := memory))
  {
    var s := Granted(w.server, q, id);
    var w' := w.(server := s, memory := memory);
    NewClaimKeepsTracks(w, q, id);
    NewClaimKeepsStarts(w, q, id);
    NewClaimKeepsCheckpoints(w, q, id);
    NewClaimKeepsAccounts(w, q, id);
    NewClaimKeepsFiles(w, q, id, memory);
    MemoryIsNoEvidence(w.(server := s), memory);
  }

  /** Nothing that is claimed about the server and the files rests on the program point. */
  lemma MemoryIsNoEvidence(w: World, memory: Memory)
    ensures LocalTracks(w) ==> LocalTracks(w.(memory := memory))
    ensures (forall x :: x in w.server.runs ==> CheckpointOk(w, x)) ==>
              forall x :: x in w.server.runs ==> CheckpointOk(w.(memory := memory), x)
    ensures StartsWereAnnounced(w) ==> StartsWereAnnounced(w.(memory := memory))
    ensures OnlyLateOrphaned(w) ==> OnlyLateOrphaned(w.(memory := memory))
    ensures ReportsAccounted(w) ==> ReportsAccounted(w.(memory := memory))
  {
    if forall x :: x in w.server.runs ==> CheckpointOk(w, x) {
      forall x | x in w.server.runs
        ensures CheckpointOk(w.(memory := memory), x)
      {
        assert CheckpointOk(w, x);
      }
    }
  }

  lemma NewClaimKeepsFiles(w: World, q: RequestId, id: RunId, memory: Memory)
    requires Inv(w) && Grants(w, q, id) && id !in w.starts && MayBeAt(w, q, id, memory)
    ensures
      var w' := w.(server := Granted(w.server, q, id), memory := memory);
      FilesOk(w') && MemoryOk(w')
  {
  }

  lemma NewClaimKeepsTracks(w: World, q: RequestId, id: RunId)
    requires Inv(w) && Grants(w, q, id)
    ensures LocalTracks(w.(server := Granted(w.server, q, id)))
    ensures ServerOk(Granted(w.server, q, id))
  {
    assert w.server.runs[id].owner.None?;
  }

  lemma NewClaimKeepsStarts(w: World, q: RequestId, id: RunId)
    requires Inv(w) && Grants(w, q, id)
    ensures id !in w.starts && !Heard(w.server, id)
    ensures StartsWereAnnounced(w.(server := Granted(w.server, q, id)))
  {
    var s := Granted(w.server, q, id);
    assert w.server.runs[id].owner.None?;
    forall i | 0 <= i < |w.starts|
      ensures Heard(s, w.starts[i])
    {
      assert Heard(w.server, w.starts[i]);
      var p :| p in w.server.reports && w.server.reports[p].actor == Local
               && w.server.reports[p].report.runId == w.starts[i];
      assert p in s.reports;
    }
  }

  lemma NewClaimKeepsCheckpoints(w: World, q: RequestId, id: RunId)
    requires Inv(w) && Grants(w, q, id) && Named(w, q)
    ensures
      var w' := w.(server := Granted(w.server, q, id));
      (forall x :: x in w'.server.runs ==> CheckpointOk(w', x)) && OnlyLateOrphaned(w')
  {
    var w' := w.(server := Granted(w.server, q, id));
    NewClaimKeepsStarts(w, q, id);
    forall x | x in w'.server.runs
      ensures CheckpointOk(w', x)
    {
      assert CheckpointOk(w, x);
      assert w'.server.reports == w.server.reports;
      assert Heard(w'.server, x) ==> Heard(w.server, x);
    }
  }

  lemma NewClaimKeepsAccounts(w: World, q: RequestId, id: RunId)
    requires Inv(w) && Grants(w, q, id)
    ensures ReportsAccounted(w.(server := Granted(w.server, q, id)))
  {
    var s := Granted(w.server, q, id);
    assert w.server.runs[id].owner.None?;
    forall r | r in w.rejected
      ensures Doomed(s, r)
    {
      SettledBodyWasRecorded(w, r);
      assert Doomed(w.server, r);
    }
  }

  /** Giving up an intent orphans nothing more once its claim is settled or another file names the run. */
  lemma DropIntentKeepsRunsNamed(w: World)
    requires (forall id :: id in w.server.runs ==> CheckpointOk(w, id)) && FilesOk(w) && MemoryOk(w)
    requires OnlyLateOrphaned(w) && Enabled(w, DropIntent)
    ensures OnlyLateOrphaned(Apply(w, DropIntent))
  {
    forall id | id in w.server.runs && LiveHere(w.server.runs[id]) && w.server.runs[id].checkpoint.phase.None?
      ensures NamesActive(w, id) || w.server.runs[id].checkpoint.claimRequest.value in w.late
    {
      assert CheckpointOk(w, id);
    }
  }

  lemma DropIntentKeepsInv(w: World)
    requires Inv(w) && Enabled(w, DropIntent)
    ensures Inv(Apply(w, DropIntent))
  {
    var w' := w.(intent := None);
    DropIntentKeepsRunsNamed(w);
    FilesAreNoEvidence(w, w');
    DropIntentKeepsFiles(w);
  }

  lemma DropIntentKeepsFiles(w: World)
    requires Inv(w) && Enabled(w, DropIntent)
    ensures LocalTracks(w.(intent := None)) && FilesOk(w.(intent := None)) && MemoryOk(w.(intent := None))
  {
  }

  /** The claims about reports, checkpoints and starts do not rest on the intent or the journal. */
  lemma FilesAreNoEvidence(w: World, w': World)
    requires w' == w.(intent := w'.intent, active := w'.active)
    ensures (forall x :: x in w.server.runs ==> CheckpointOk(w, x)) ==> forall x :: x in w.server.runs ==> CheckpointOk(w', x)
    ensures StartsWereAnnounced(w) ==> StartsWereAnnounced(w')
    ensures ReportsAccounted(w) ==> ReportsAccounted(w')
  {
    if forall x :: x in w.server.runs ==> CheckpointOk(w, x) {
      forall x | x in w.server.runs
        ensures CheckpointOk(w', x)
      {
        assert CheckpointOk(w, x);
      }
    }
  }

  lemma WriteActiveKeepsInv(w: World)
    requires Inv(w) && Enabled(w, WriteActive)
    ensures Inv(Apply(w, WriteActive))
  {
  }

  lemma NoteSessionKeepsInv(w: World, session: Option<SessionId>)
    requires Inv(w) && Enabled(w, NoteSession(session))
    ensures Inv(Apply(w, NoteSession(session)))
  {
  }

  lemma StartCliKeepsInv(w: World)
    requires Inv(w) && Enabled(w, StartCli)
    ensures Inv(Apply(w, StartCli))
  {
  }

  lemma {:induction false} InOrderWiden<T>(a: seq<T>, b: seq<T>, x: T)
    requires InOrder(a, b)
    ensures InOrder(a, b + [x])
    decreases |b|, 0, |a|
  {
    assert (b + [x])[..|b|] == b;
    if a != [] && a[|a| - 1] == x {
      InOrderDropLast(a, b);
    }
  }

  lemma {:induction false} InOrderDropLast<T>(a: seq<T>, b: seq<T>)
    requires InOrder(a, b) && a != []
    ensures InOrder(a[..|a| - 1], b)
    decreases |b|, 0, 0
  {
    var b0 := b[..|b| - 1];
    assert b0 + [b[|b| - 1]] == b;
    if a[|a| - 1] != b[|b| - 1] {
      InOrderDropLast(a, b0);
    }
    InOrderWiden(a[..|a| - 1], b0, b[|b| - 1]);
  }

  lemma RecordKeepsAccounts(w: World, r: Report)
    requires Inv(w) && Enabled(w, Record(r))
    ensures ReportsAccounted(Apply(w, Record(r)))
  {
    InOrderWiden(w.applied, w.recorded, r);
  }

  /** A body that has just been drawn is new to every list. */
  lemma RecordedBodyIsNew(w: World, r: Report)
    requires Inv(w) && Fresh(w, r.requestId)
    ensures r !in w.recorded && r !in w.acknowledged && r !in w.rejected && r !in w.applied
  {
    if r in w.acknowledged || r in w.rejected {
      SettledBodyWasRecorded(w, r);
    }
  }

  lemma RecordKeepsFiles(w: World, r: Report)
    requires Inv(w) && Enabled(w, Record(r))
    ensures FilesOk(Apply(w, Record(r)))
  {
    RecordedBodyIsNew(w, r);
  }

  lemma RecordKeepsTracks(w: World, r: Report)
    requires Inv(w) && Enabled(w, Record(r))
    ensures LocalTracks(Apply(w, Record(r)))
  {
  }

  lemma RecordKeepsInv(w: World, r: Report)
    requires Inv(w) && Enabled(w, Record(r))
    ensures Inv(Apply(w, Record(r)))
  {
    var w' := Apply(w, Record(r));
    RecordKeepsAccounts(w, r);
    RecordKeepsFiles(w, r);
    RecordKeepsTracks(w, r);
    forall id | id in w.server.runs
      ensures CheckpointOk(w', id)
    {
      assert CheckpointOk(w, id);
    }
  }

  /** The server accepts the pending body for the first time. */
  predicate Accepts(w: World, r: Report) {
    && w.outbox == Some(r) && r.requestId !in w.server.reports
    && Refusal(w.server, Local, r).None?
  }

  function Taken(s: Server, r: Report): Server
    requires r.runId in s.runs
  {
    s.(runs := s.runs[r.runId := Reported(s.runs[r.runId], r)],
       activeRun := if Finishes(r.kind) then None else s.activeRun,
       reports := s.reports[r.requestId := ReportEvent(Local, r)])
  }

  function Delivered(w: World, r: Report): World
    requires r.runId in w.server.runs
  {
    w.(server := Taken(w.server, r), applied := w.applied + [r])
  }

  lemma DeliverKeepsTracks(w: World, r: Report)
    requires Inv(w) && Accepts(w, r)
    ensures LocalTracks(Delivered(w, r)) && ServerOk(Delivered(w, r).server)
  {
  }

  lemma DeliverKeepsHeard(w: World, r: Report, id: RunId)
    requires r.runId in w.server.runs && r.requestId !in w.server.reports
    ensures Heard(Taken(w.server, r), id) <==> Heard(w.server, id) || id == r.runId
  {
    var s := Taken(w.server, r);
    assert s.reports[r.requestId] == ReportEvent(Local, r);
    if Heard(w.server, id) {
      var q :| q in w.server.reports && w.server.reports[q].actor == Local && w.server.reports[q].report.runId == id;
      assert q in s.reports && s.reports[q] == w.server.reports[q];
    }
  }

  lemma DeliverKeepsCheckpoints(w: World, r: Report)
    requires Inv(w) && Accepts(w, r)
    ensures forall id :: id in Delivered(w, r).server.runs ==> CheckpointOk(Delivered(w, r), id)
  {
    var w' := Delivered(w, r);
    forall id | id in w'.server.runs
      ensures CheckpointOk(w', id)
    {
      assert CheckpointOk(w, id);
      DeliverKeepsHeard(w, r, id);
    }
  }

  lemma DeliverKeepsFiles(w: World, r: Report)
    requires Inv(w) && Accepts(w, r)
    ensures FilesOk(Delivered(w, r)) && MemoryOk(Delivered(w, r))
  {
  }

  lemma DeliverKeepsClaims(w: World, r: Report)
    requires Inv(w) && Accepts(w, r)
    ensures OnlyLateOrphaned(Delivered(w, r)) && StartsWereAnnounced(Delivered(w, r))
  {
    var w' := Delivered(w, r);
    forall i | 0 <= i < |w.starts|
      ensures Heard(w'.server, w.starts[i])
    {
      DeliverKeepsHeard(w, r, w.starts[i]);
    }
    forall id | id in w'.server.runs && LiveHere(w'.server.runs[id])
      ensures LiveHere(w.server.runs[id])
    {
    }
  }

  lemma DeliverKeepsOrder(w: World, r: Report)
    requires InOrder(w.applied, w.recorded) && r !in w.applied
    requires w.recorded != [] && w.recorded[|w.recorded| - 1] == r
    ensures InOrder(w.applied + [r], w.recorded)
  {
    assert InOrder(w.applied, w.recorded[..|w.recorded| - 1]);
    assert (w.applied + [r])[..|w.applied|] == w.applied;
  }

  lemma DeliverKeepsRejected(w: World, r: Report, x: Report)
    requires ReportsAccounted(w) && LocalTracks(w) && FilesOk(w) && Accepts(w, r) && x in w.rejected
    ensures x !in Delivered(w, r).applied && Doomed(Delivered(w, r).server, x)
  {
    SettledBodyWasRecorded(w, x);
    assert Doomed(w.server, x);
    RejectedDiffersFromPending(w, x);
  }

  lemma DeliverKeepsAccounts(w: World, r: Report)
    requires ReportsAccounted(w) && LocalTracks(w) && FilesOk(w) && Accepts(w, r)
    ensures ReportsAccounted(Delivered(w, r))
  {
    DeliverKeepsOrder(w, r);
    forall x | x in w.rejected
      ensures x !in Delivered(w, r).applied && Doomed(Delivered(w, r).server, x)
    {
      DeliverKeepsRejected(w, r, x);
    }
  }

  lemma RejectedDiffersFromPending(w: World, x: Report)
    requires ReportsAccounted(w) && FilesOk(w) && w.outbox.Some? && x in w.rejected
    ensures x.requestId != w.outbox.value.requestId
  {
    SettledBodyWasRecorded(w, x);
    assert x != w.outbox.value;
    var i :| 0 <= i < |w.recorded| && w.recorded[i] == x;
    assert i != |w.recorded| - 1;
  }

  lemma DeliverKeepsInv(w: World)
    requires Inv(w) && Enabled(w, Deliver)
    ensures Inv(Apply(w, Deliver))
  {
    var r := w.outbox.value;
    if Accepts(w, r) {
      assert Apply(w, Deliver) == Delivered(w, r);
      DeliverKeepsTracks(w, r);
      DeliverKeepsCheckpoints(w, r);
      DeliverKeepsFiles(w, r);
      DeliverKeepsClaims(w, r);
      DeliverKeepsAccounts(w, r);
    } else {
      assert Apply(w, Deliver) == w;
    }
  }

  lemma AcknowledgeKeepsAccounts(w: World)
    requires ReportsAccounted(w) && LocalTracks(w) && FilesOk(w) && Enabled(w, Acknowledge)
    ensures ReportsAccounted(Apply(w, Acknowledge)) && FilesOk(Apply(w, Acknowledge))
  {
    assert w.server.reports[w.outbox.value.requestId].report in w.applied;
  }

  lemma AcknowledgeKeepsInv(w: World)
    requires Inv(w) && Enabled(w, Acknowledge)
    ensures Inv(Apply(w, Acknowledge))
  {
    AcknowledgeKeepsAccounts(w);
    assert forall id :: id in w.server.runs ==> CheckpointOk(w, id) == CheckpointOk(Apply(w, Acknowledge), id);
  }

  lemma ArchiveKeepsAccounts(w: World)
    requires ReportsAccounted(w) && LocalTracks(w) && FilesOk(w) && Enabled(w, Archive)
    ensures ReportsAccounted(Apply(w, Archive)) && FilesOk(Apply(w, Archive))
  {
  }

  lemma ArchiveKeepsInv(w: World)
    requires Inv(w) && Enabled(w, Archive)
    ensures Inv(Apply(w, Archive))
  {
    ArchiveKeepsAccounts(w);
    assert forall id :: id in w.server.runs ==> CheckpointOk(w, id) == CheckpointOk(Apply(w, Archive), id);
  }

  lemma RemoveActiveKeepsInv(w: World)
    requires Inv(w) && Enabled(w, RemoveActive)
    ensures Inv(Apply(w, RemoveActive))
  {
  }

  lemma ActionKeepsInv(w: World, a: Action)
    requires Inv(w) && Enabled(w, a)
    ensures Inv(Apply(w, a))
  {
    match a
    case Environment(outside) => EnvironmentKeepsInv(w, outside);
    case Crash => CrashKeepsInv(w);
    case SaveIntent(q) => SaveIntentKeepsInv(w, q);
    case SendClaim(pick, admitted, heard) => SendClaimKeepsInv(w, pick, admitted, heard);
    case DropIntent => DropIntentKeepsInv(w);
    case WriteActive => WriteActiveKeepsInv(w);
    case NoteSession(session) => NoteSessionKeepsInv(w, session);
    case StartCli => StartCliKeepsInv(w);
    case Record(r) => RecordKeepsInv(w, r);
    case Deliver => DeliverKeepsInv(w);
    case Acknowledge => AcknowledgeKeepsInv(w);
    case Archive => ArchiveKeepsInv(w);
    case RemoveActive => RemoveActiveKeepsInv(w);
  }

  lemma InitialWorldIsSafe(w: World)
    requires Initial(w)
    ensures Inv(w)
  {
  }

  lemma {:induction false} LegalRunKeepsInv(past: seq<World>, n: nat)
    requires past != [] && Initial(past[0]) && Legal(past) && n < |past|
    ensures Inv(past[n])
  {
    if n == 0 {
      InitialWorldIsSafe(past[0]);
    } else {
      LegalRunKeepsInv(past, n - 1);
      assert StepAt(past, n);
      StepKeepsInv(past[n - 1], past[n]);
    }
  }

  /** In a run of the protocol itself no claim outlives its intent. */
  lemma {:induction false} InTimeIsNotLate(past: seq<World>, n: nat)
    requires past != [] && Initial(past[0]) && Legal(past) && n < |past|
    ensures past[n].late == {}
  {
    if n > 0 {
      InTimeIsNotLate(past, n - 1);
      assert StepAt(past, n);
    }
  }

  lemma StepKeepsInv(w: World, w': World)
    requires Inv(w) && Next(w, w')
    ensures Inv(w')
  {
    var a: Action :| Enabled(w, a) && w' == Apply(w, a);
    ActionKeepsInv(w, a);
  }

  /**
   The safety theorem. After any number of crashes, lost requests, lost answers, restarts
   and interventions on the server, no run has been started twice, none is orphaned, and
   every report is accounted for.
   */
  lemma EveryReachableWorldIsSafe(past: seq<World>)
    requires past != [] && Initial(past[0]) && Legal(past)
    ensures forall i :: 0 <= i < |past| ==>
              && StartedAtMostOnce(past[i])
              && StartsWereAnnounced(past[i])
              && NothingOrphaned(past[i])
              && ReportsAccounted(past[i])
  {
    forall i | 0 <= i < |past|
      ensures Inv(past[i]) && NothingOrphaned(past[i])
    {
      LegalRunKeepsInv(past, i);
      InTimeIsNotLate(past, i);
    }
  }

  /** A body written to the outbox is acknowledged, or archived, or pending, and only one of them. */
  lemma EachReportIsInOnePlace(w: World, r: Report)
    requires ReportsAccounted(w) && r in w.recorded
    ensures
      || (r in w.acknowledged && r !in w.rejected && w.outbox != Some(r))
      || (r !in w.acknowledged && r in w.rejected && w.outbox != Some(r))
      || (r !in w.acknowledged && r !in w.rejected && w.outbox == Some(r))
  {
    DistinctRequestsOccurOnce(w.recorded, r);
    assert multiset(w.acknowledged)[r] + multiset(w.rejected)[r] + multiset(InOutbox(w.outbox))[r] == 1;
    assert r in w.acknowledged <==> multiset(w.acknowledged)[r] > 0;
    assert r in w.rejected <==> multiset(w.rejected)[r] > 0;
    assert r in InOutbox(w.outbox) <==> multiset(InOutbox(w.outbox))[r] > 0;
  }

  lemma {:induction false} DistinctRequestsOccurOnce(rs: seq<Report>, r: Report)
    requires DistinctRequests(rs) && r in rs
    ensures multiset(rs)[r] == 1
  {
    var n := |rs| - 1;
    assert rs == rs[..n] + [rs[n]];
    if r in rs[..n] {
      DistinctRequestsOccurOnce(rs[..n], r);
    } else {
      assert r !in multiset(rs[..n]);
    }
  }

  /** The run an active.json named is settled on the server when the file goes. */
  lemma ActiveGoesOnlyWhenSettled(past: seq<World>, i: nat)
    requires past != [] && Initial(past[0]) && Legal(past) && 0 < i < |past|
    requires past[i - 1].active.Some?
    requires past[i].active.None? || past[i].active.value.runId != past[i - 1].active.value.runId
    ensures Settled(past[i].server, past[i - 1].active.value.runId) && past[i].outbox.None?
  {
    LegalRunKeepsInv(past, i - 1);
    assert StepAt(past, i);
    var a: Action :| Enabled(past[i - 1], a) && past[i] == Apply(past[i - 1], a);
    OnlyRemovalDropsActive(past[i - 1], a);
  }

  lemma OnlyRemovalDropsActive(w: World, a: Action)
    requires MemoryOk(w) && Enabled(w, a) && w.active.Some?
    ensures a == RemoveActive
         || (Apply(w, a).active.Some? && Apply(w, a).active.value.runId == w.active.value.runId)
  {
  }

  /**
   A second stopped report about a run is refused for good once the first one has been
   accepted, whatever happens on the server afterwards.
   */
  lemma SecondStopIsDoomed(s: Server, later: Server, first: Report, second: Report, mine: set<RequestId>)
    requires first.kind == Stop && first.requestId !in s.reports && ReportRun(s, Local, first).1 == Accepted
    requires second.runId == first.runId && second.requestId != first.requestId && second.requestId !in s.reports
    requires second.requestId in mine && Quiet(ReportRun(s, Local, first).0, later, mine)
    ensures Doomed(later, second) && Terminal(later.runs[second.runId].status)
  {
    var s' := ReportRun(s, Local, first).0;
    QuietKeepsDoom(s', later, mine, second);
    assert QuietRun(s'.runs[first.runId], later.runs[first.runId]);
  }
}
