/**
 The attestation signer of scripts/provider-execution-attestation-signer.ts as a transition
 system: settlement requests that read a trusted observation, worker proxy calls, and
 restarts, in any interleaving.

 `issued`, `claims` and `settled` are durable rows; `threads` are the settlement requests
 in progress and vanish on a restart; `calls` records what the broker answered.
 */
module SignerProtocol {
  import opened Options

  type Id = nat
  type ThreadId = nat

  datatype Stage = Register | Verify | Consume | Result | Observation

  /** The columns that providerSignerRequestId hashes; the hash is taken as injective. */
  datatype Attestation = Attestation(execution: Id, generation: nat, stage: Stage, ordinal: nat)

  /** The request digest binds the command envelope, the stage and the ordinal. */
  datatype Digest = Digest(envelope: nat, stage: Stage, ordinal: nat)

  /**
   The durable row of one execution. `held` says that it runs under this worker; the two
   flags say that the lease and the approval leave at least five seconds.
   */
  datatype Claim = Claim(held: bool, generation: nat, leaseLive: bool, approvalLive: bool, readback: bool, envelope: nat)

  /** An observation, and the envelope whose policy grant the broker says it belongs to. */
  datatype Sighting = Sighting(grant: nat, payload: nat)

  /** A broker response; no body stands for one that the response schema refuses. */
  datatype Response = Response(status: int, body: Option<Sighting>)

  datatype Outcome = CommandAccepted | Observed | ResultUnknown | Failed | HumanRequired | ApprovalRequired

  datatype Request = Request(execution: Id, generation: nat, outcome: Outcome, errorCode: Option<string>)

  /** A settlement as it is handed to settleProviderExecution. */
  datatype Settlement =
    Settlement(execution: Id, generation: nat, outcome: Outcome, errorCode: Option<string>, observation: Option<Sighting>)

  /** A broker call made under an attestation, and its answer. */
  datatype Call = Call(attestation: Attestation, response: Response)

  const BUDGET := 20
  const OBSERVATION_PENDING := "PROVIDER_OBSERVATION_PENDING"

  // ------------------------------------------------------ authorization

  datatype Authorization = StaleClaim | BindingMismatch | AlreadyIssued | Granted

  /** assertDurableProviderClaim. */
  predicate Current(claims: map<Id, Claim>, execution: Id, generation: nat) {
    && execution in claims
    && claims[execution].held
    && claims[execution].generation == generation
    && claims[execution].leaseLive
  }

  /** authorizeProviderBrokerRequest up to the insertion of the attestation row. */
  function Authorize(issued: seq<Attestation>, claims: map<Id, Claim>, a: Attestation, digest: Digest): Authorization {
    if !Current(claims, a.execution, a.generation) then StaleClaim
    else if digest != Digest(claims[a.execution].envelope, a.stage, a.ordinal) then BindingMismatch
    else if !claims[a.execution].approvalLive then StaleClaim
    else if a in issued then AlreadyIssued
    else Granted
  }

  /** The request names the work, the stage and the ordinal that the ledger row stands for. */
  predicate Matches(claim: Claim, a: Attestation, digest: Digest) {
    digest.envelope == claim.envelope && digest.stage == a.stage && digest.ordinal == a.ordinal
  }

  /**
   An attestation is granted once, to the worker that holds the generation under a live lease
   and a live approval, for the very request it sends; each refusal says which of this fails.
   */
  lemma AuthorizationMeans(issued: seq<Attestation>, claims: map<Id, Claim>, a: Attestation, digest: Digest)
    ensures
      var r := Authorize(issued, claims, a, digest);
      if a.execution !in claims then r.StaleClaim?
      else
        var claim := claims[a.execution];
        var served := claim.held && claim.generation == a.generation && claim.leaseLive;
        && (r.Granted? <==> served && Matches(claim, a, digest) && claim.approvalLive && a !in issued)
        && (r.AlreadyIssued? <==> served && Matches(claim, a, digest) && claim.approvalLive && a in issued)
        && (r.BindingMismatch? <==> served && !Matches(claim, a, digest))
  {
  }

  // ----------------------------------------------------- broker answers

  /** sanitizeProviderBrokerResponse for the observation stage; no body is an error body. */
  function Sanitized(r: Response): Response {
    if r.status < 100 || r.status > 599 then Response(502, None)
    else if r.status < 200 || r.status >= 300 then Response(r.status, None)
    else if r.status == 204 then Response(204, None)
    else if r.body.None? then Response(502, None)
    else r
  }

  /**
   Only a 2xx answer with a body of the right shape is passed on; every other keeps its status
   without a body, and a status that is none, or a success that is none, becomes a 502.
   */
  lemma SanitizedMeans(r: Response)
    ensures Sanitized(r).body.Some? <==> r.body.Some? && 200 <= r.status <= 299 && r.status != 204
    ensures Sanitized(r).body.Some? ==> Sanitized(r) == r
    ensures Sanitized(r).status == 204 <==> r.status == 204
    ensures 100 <= Sanitized(r).status <= 599
    ensures 100 <= r.status <= 599 && (r.status <= 199 || r.status >= 300 || r.status == 204 || r.body.Some?) ==>
      Sanitized(r).status == r.status
    ensures r.status <= 99 || r.status >= 600 || (200 <= r.status <= 299 && r.status != 204 && r.body.None?) ==>
      Sanitized(r).status == 502
  {
  }

  datatype Reading = Trusted(sighting: Sighting) | NotYet | Throws

  /** readTrustedBrokerObservation on a sanitized response. */
  function ReadTrusted(envelope: nat, r: Response): Reading {
    if r.status == 204 then NotYet
    else if r.status != 200 then Throws
    else if r.body.None? || r.body.value.grant != envelope then Throws
    else Trusted(r.body.value)
  }

  /**
   A trusted observation is exactly a 200 whose grant is that of this envelope, "not yet"
   is exactly a 204, and everything else is an error.
   */
  lemma TrustedIffBound(envelope: nat, r: Response)
    ensures forall s :: ReadTrusted(envelope, Sanitized(r)) == Trusted(s) <==> r == Response(200, Some(s)) && s.grant == envelope
    ensures ReadTrusted(envelope, Sanitized(r)).NotYet? <==> r.status == 204
  {
  }

  // ------------------------------------------------- settlement requests

  /** A JSON body: its keys, and the fields when each has the type the schema asks for. */
  datatype Body = NotAnObject | Object(keys: set<string>, fields: Option<Request>)

  const SETTLEMENT_KEYS: set<string> := {"executionId", "generation", "outcome", "errorCode", "idempotencyKey"}
  const OBSERVATION_KEYS: set<string> := {"observation", "observationReceipt", "leaseToken"}

  /** containsWorkerSuppliedObservation. */
  predicate SuppliesObservation(body: Body) {
    body.Object? && exists key :: key in OBSERVATION_KEYS && key in body.keys
  }

  /** providerSignerSettlementRequestSchema: strict, and some outcomes need an error code. */
  function Parse(body: Body): Option<Request> {
    if body.NotAnObject? || body.fields.None? || !(body.keys <= SETTLEMENT_KEYS) then None
    else if (body.fields.value.outcome == Failed || body.fields.value.outcome == ApprovalRequired)
              && body.fields.value.errorCode.None?
    then None
    else body.fields
  }

  /** The strict schema alone would already refuse every body that carries an observation. */
  lemma SuppliedObservationNeverParses(body: Body)
    requires SuppliesObservation(body)
    ensures Parse(body).None?
  {
    var key :| key in OBSERVATION_KEYS && key in body.keys;
    assert key !in SETTLEMENT_KEYS;
  }

  /** What parses: no key but the five, and an error code where the outcome needs one. */
  lemma ParsedBodyIs(body: Body, request: Request)
    ensures Parse(body) == Some(request) <==>
      && body.Object? && body.fields == Some(request)
      && (forall key :: key in body.keys ==>
           key == "executionId" || key == "generation" || key == "outcome" || key == "errorCode" || key == "idempotencyKey")
      && (request.outcome == Failed || request.outcome == ApprovalRequired ==> request.errorCode.Some?)
  {
    assert forall key :: key in SETTLEMENT_KEYS <==>
      key == "executionId" || key == "generation" || key == "outcome" || key == "errorCode" || key == "idempotencyKey";
  }

  /** Only OBSERVED without an observation is changed, to RESULT_UNKNOWN with the pending code. */
  lemma SettlementMeans(request: Request, trusted: Option<Sighting>)
    ensures
      var s := SettlementOf(request, trusted);
      && s.execution == request.execution && s.generation == request.generation && s.observation == trusted
      && ((s.outcome == request.outcome && s.errorCode == request.errorCode)
          || (request.outcome == Observed && trusted.None? && s.outcome == ResultUnknown
              && s.errorCode == Some("PROVIDER_OBSERVATION_PENDING")))
      && (request.outcome == Observed && trusted.None? ==> s.outcome == ResultUnknown)
  {
  }

  /** The settlement made of a request and the signer's own observation (lines 413-440). */
  function SettlementOf(request: Request, trusted: Option<Sighting>): Settlement {
    if request.outcome == Observed && trusted.None? then
      Settlement(request.execution, request.generation, ResultUnknown, Some(OBSERVATION_PENDING), None)
    else
      Settlement(request.execution, request.generation, request.outcome, request.errorCode, trusted)
  }

  // ------------------------------------------------------------- worlds

  /**
   A settlement request in progress: trying ordinals, waiting for the broker's answer, or
   about to hand its settlement over.
   */
  datatype Thread =
    | Trying(request: Request, envelope: nat, ordinal: nat)
    | Calling(request: Request, envelope: nat, ordinal: nat)
    | Ready(request: Request, trusted: Option<Sighting>)

  datatype World = World(
    issued: seq<Attestation>,
    claims: map<Id, Claim>,
    threads: map<ThreadId, Thread>,
    calls: seq<Call>,
    settled: seq<Settlement>,
    bound: map<Attestation, nat>)    // the envelope in the ledger row when an attestation was issued

  datatype Action =
    | Begin(tid: ThreadId, body: Body)                 // POST /v1/settlements
    | Attest(tid: ThreadId)                            // one turn of the ordinal loop
    | Answer(tid: ThreadId, response: Response)        // the broker answers
    | Hand(tid: ThreadId)                              // settleProviderExecution
    | Abort(tid: ThreadId)                             // any other error ends the request
    | Proxy(attestation: Attestation, digest: Digest)  // POST /v1/broker-requests
    | Restart
    | ClaimChanges(execution: Id, claim: Claim)        // leases, approvals and other workers

  function Sought(t: Thread): Attestation
    requires !t.Ready?
  {
    Attestation(t.request.execution, t.request.generation, Observation, t.ordinal)
  }

  /** brokerRequestSchema: the worker cannot ask for an observation, nor for a second ordinal. */
  predicate ProxyAdmits(a: Attestation) {
    a.generation >= 1 && a.stage != Observation && a.ordinal == 1
  }

  /** The state of a request after its checks, if it is not refused. */
  function Started(claims: map<Id, Claim>, request: Request): Option<Thread> {
    var current := Current(claims, request.execution, request.generation);
    if request.outcome == HumanRequired && !current then None
    else if request.outcome != Observed then Some(Ready(request, None))
    else if !current then None
    else if !claims[request.execution].readback then Some(Ready(request, None))
    else Some(Trying(request, claims[request.execution].envelope, 1))
  }

  /** After a refusal at this ordinal: the next one, or no observation when all are spent. */
  function NextTry(t: Thread): Thread
    requires t.Trying?
  {
    if t.ordinal < BUDGET then Trying(t.request, t.envelope, t.ordinal + 1) else Ready(t.request, None)
  }

  predicate Enabled(w: World, a: Action) {
    match a
    case Begin(tid, body) => tid !in w.threads
    case Attest(tid) => tid in w.threads && w.threads[tid].Trying?
    case Answer(tid, _) => tid in w.threads && w.threads[tid].Calling?
    case Hand(tid) => tid in w.threads && w.threads[tid].Ready?
    case Abort(tid) => tid in w.threads
    case Proxy(_, _) => true
    case Restart => true
    case ClaimChanges(_, _) => true
  }

  /** The attestation row and the request digest it stores. */
  function Issue(w: World, a: Attestation): World
    requires a.execution in w.claims
  {
    w.(issued := w.issued + [a], bound := w.bound[a := w.claims[a.execution].envelope])
  }

  function Apply(w: World, a: Action): World
    requires Enabled(w, a)
  {
    match a
    case Begin(tid, body) =>
      if SuppliesObservation(body) || Parse(body).None? then w
      else
        var thread := Started(w.claims, Parse(body).value);
        if thread.None? then w else w.(threads := w.threads[tid := thread.value])
    case Attest(tid) =>
      var t := w.threads[tid];
      (match Authorize(w.issued, w.claims, Sought(t), Digest(t.envelope, Observation, t.ordinal))
       case Granted =>
         Issue(w, Sought(t)).(threads := w.threads[tid := Calling(t.request, t.envelope, t.ordinal)])
       case AlreadyIssued => w.(threads := w.threads[tid := NextTry(t)])
       case _ => w.(threads := w.threads - {tid}))
    case Answer(tid, response) =>
      var t := w.threads[tid];
      var called := w.(calls := w.calls + [Call(Sought(t), response)]);
      (match ReadTrusted(t.envelope, Sanitized(response))
       case Trusted(s) => called.(threads := w.threads[tid := Ready(t.request, Some(s))])
       case NotYet => called.(threads := w.threads[tid := Ready(t.request, None)])
       case Throws => called.(threads := w.threads - {tid}))
    case Hand(tid) =>
      var t := w.threads[tid];
      w.(settled := w.settled + [SettlementOf(t.request, t.trusted)], threads := w.threads - {tid})
    case Abort(tid) => w.(threads := w.threads - {tid})
    case Proxy(a, digest) =>
      if ProxyAdmits(a) && Authorize(w.issued, w.claims, a, digest).Granted? then Issue(w, a) else w
    case Restart => w.(threads := map[])
    case ClaimChanges(execution, claim) => w.(claims := w.claims[execution := claim])
  }

  predicate Initial(w: World) {
    w.issued == [] && w.threads == map[] && w.calls == [] && w.settled == [] && w.bound == map[]
  }

  ghost predicate Next(w: World, w': World) {
    exists a :: Enabled(w, a) && w' == Apply(w, a)
  }

  /** A run: it starts with no attestation issued and takes only enabled actions. */
  ghost predicate History(past: seq<World>) {
    && past != []
    && Initial(past[0])
    && (forall i :: 0 < i < |past| ==> Next(past[i - 1], past[i]))
  }

  function Now(past: seq<World>): World
    requires past != []
  {
    past[|past| - 1]
  }

  // ------------------------------------------------------------- claims

  /** The ordinals of the observation attestations of one generation, in order of issue. */
  function Ordinals(issued: seq<Attestation>, execution: Id, generation: nat): seq<nat> {
    if issued == [] then []
    else
      var last := issued[|issued| - 1];
      var before := Ordinals(issued[..|issued| - 1], execution, generation);
      if last == Attestation(execution, generation, Observation, last.ordinal) then before + [last.ordinal] else before
  }

  /** The ordinals are 1, 2, ..., k in this order, and k is within the budget. */
  predicate CountsUp(ordinals: seq<nat>) {
    |ordinals| <= BUDGET && forall i :: 0 <= i < |ordinals| ==> ordinals[i] == i + 1
  }

  ghost predicate ObservationsArePrefix(issued: seq<Attestation>) {
    forall execution: Id, generation: nat :: CountsUp(Ordinals(issued, execution, generation))
  }

  predicate IssuedOnce(issued: seq<Attestation>) {
    forall i, j :: 0 <= i < j < |issued| ==> issued[i] != issued[j]
  }

  /** The broker is called at most once under an attestation, and only under an issued one. */
  predicate CalledOnce(w: World) {
    && (forall i, j :: 0 <= i < j < |w.calls| ==> w.calls[i].attestation != w.calls[j].attestation)
    && (forall c :: c in w.calls ==> c.attestation in w.issued && c.attestation.stage == Observation)
  }

  /**
   The broker itself gave this observation to the signer, for this very generation, and it
   belongs to the grant of the envelope that the attestation of the call was issued for.
   */
  predicate Backed(w: World, execution: Id, generation: nat, s: Sighting) {
    exists c :: c in w.calls
      && c.attestation == Attestation(execution, generation, Observation, c.attestation.ordinal)
      && c.response == Response(200, Some(s))
      && c.attestation in w.bound && w.bound[c.attestation] == s.grant
  }

  /** A settlement carries an observation exactly if it is OBSERVED, and then a backed one. */
  predicate Justified(w: World, s: Settlement) {
    && (s.outcome == Observed <==> s.observation.Some?)
    && (s.observation.Some? ==> Backed(w, s.execution, s.generation, s.observation.value))
  }

  // ------------------------------------------------------ the invariant

  predicate ThreadOk(w: World, t: Thread)
    requires forall a :: a in w.issued ==> a in w.bound
  {
    match t
    case Trying(request, _, ordinal) =>
      && request.outcome == Observed
      && 1 <= ordinal <= BUDGET
      && ordinal <= |Ordinals(w.issued, request.execution, request.generation)| + 1
    case Calling(request, envelope, _) =>
      && request.outcome == Observed
      && Sought(t) in w.issued
      && w.bound[Sought(t)] == envelope
      && (forall c :: c in w.calls ==> c.attestation != Sought(t))
    case Ready(request, trusted) =>
      trusted.Some? ==>
        request.outcome == Observed && Backed(w, request.execution, request.generation, trusted.value)
  }

  ghost predicate IssuedOk(w: World) {
    && (forall a :: a in w.issued <==> a in w.bound)
    && IssuedOnce(w.issued)
    && ObservationsArePrefix(w.issued)
    && (forall a :: a in w.issued && a.stage != Observation ==> a.ordinal == 1 && a.generation >= 1)
  }

  /** No two requests wait for an answer under the same attestation. */
  predicate CallersDiffer(threads: map<ThreadId, Thread>) {
    forall p, q :: p in threads && q in threads && p != q && threads[p].Calling? && threads[q].Calling? ==>
      Sought(threads[p]) != Sought(threads[q])
  }

  ghost predicate Inv(w: World) {
    && IssuedOk(w)
    && CalledOnce(w)
    && (forall tid :: tid in w.threads ==> ThreadOk(w, w.threads[tid]))
    && CallersDiffer(w.threads)
    && (forall s :: s in w.settled ==> Justified(w, s))
  }

  lemma OrdinalsAppend(issued: seq<Attestation>, a: Attestation, execution: Id, generation: nat)
    ensures Ordinals(issued + [a], execution, generation)
         == Ordinals(issued, execution, generation)
            + (if a == Attestation(execution, generation, Observation, a.ordinal) then [a.ordinal] else [])
  {
    assert (issued + [a])[..|issued|] == issued;
  }

  lemma {:induction false} OrdinalsAreTheIssued(issued: seq<Attestation>, execution: Id, generation: nat, ordinal: nat)
    ensures ordinal in Ordinals(issued, execution, generation)
       <==> Attestation(execution, generation, Observation, ordinal) in issued
  {
    if issued != [] {
      var front := issued[..|issued| - 1];
      OrdinalsAreTheIssued(front, execution, generation, ordinal);
      assert issued == front + [issued[|issued| - 1]];
    }
  }

  lemma CountedOrdinalsAreIn(ordinals: seq<nat>, ordinal: nat)
    requires CountsUp(ordinals)
    ensures ordinal in ordinals <==> 1 <= ordinal <= |ordinals|
  {
    if 1 <= ordinal <= |ordinals| {
      assert ordinals[ordinal - 1] == ordinal;
    }
  }

  /** An ordinal not yet issued that no gap separates from the others is the next one. */
  lemma FreeOrdinalIsNext(w: World, t: Thread)
    requires Inv(w) && t.Trying? && ThreadOk(w, t) && Sought(t) !in w.issued
    ensures t.ordinal == |Ordinals(w.issued, t.request.execution, t.request.generation)| + 1
  {
    var ordinals := Ordinals(w.issued, t.request.execution, t.request.generation);
    OrdinalsAreTheIssued(w.issued, t.request.execution, t.request.generation, t.ordinal);
    CountedOrdinalsAreIn(ordinals, t.ordinal);
  }

  /** An ordinal that is taken lies within the prefix, so the next one is no gap either. */
  lemma TakenOrdinalIsWithin(w: World, t: Thread)
    requires Inv(w) && t.Trying? && Sought(t) in w.issued
    ensures t.ordinal <= |Ordinals(w.issued, t.request.execution, t.request.generation)|
  {
    var ordinals := Ordinals(w.issued, t.request.execution, t.request.generation);
    OrdinalsAreTheIssued(w.issued, t.request.execution, t.request.generation, t.ordinal);
    CountedOrdinalsAreIn(ordinals, t.ordinal);
  }

  lemma IssuingKeepsPrefix(issued: seq<Attestation>, a: Attestation)
    requires ObservationsArePrefix(issued)
    requires a.stage == Observation ==>
      a.ordinal == |Ordinals(issued, a.execution, a.generation)| + 1 && a.ordinal <= BUDGET
    ensures ObservationsArePrefix(issued + [a])
    ensures forall execution, generation ::
      |Ordinals(issued, execution, generation)| <= |Ordinals(issued + [a], execution, generation)|
  {
    forall execution: Id, generation: nat
      ensures CountsUp(Ordinals(issued + [a], execution, generation))
      ensures |Ordinals(issued, execution, generation)| <= |Ordinals(issued + [a], execution, generation)|
    {
      assert CountsUp(Ordinals(issued, execution, generation));
      OrdinalsAppend(issued, a, execution, generation);
    }
  }

  /** More calls, and more attestations, each with the envelope it had. */
  predicate Grows(w: World, w': World) {
    && w.issued <= w'.issued && w.calls <= w'.calls
    && (forall a :: a in w.issued ==> a in w.bound)
    && (forall a :: a in w'.issued ==> a in w'.bound)
    && (forall a :: a in w.bound ==> a in w'.bound && w'.bound[a] == w.bound[a])
  }

  lemma BackedGrows(w: World, w': World, execution: Id, generation: nat, s: Sighting)
    requires Backed(w, execution, generation, s) && Grows(w, w')
    ensures Backed(w', execution, generation, s)
  {
    var c :| c in w.calls
      && c.attestation == Attestation(execution, generation, Observation, c.attestation.ordinal)
      && c.response == Response(200, Some(s))
      && c.attestation in w.bound && w.bound[c.attestation] == s.grant;
    assert c in w'.calls;
  }

  lemma JustifiedGrows(w: World, w': World)
    requires Grows(w, w') && forall s :: s in w.settled ==> Justified(w, s)
    ensures forall s :: s in w.settled ==> Justified(w', s)
  {
    forall s | s in w.settled
      ensures Justified(w', s)
    {
      if s.observation.Some? {
        BackedGrows(w, w', s.execution, s.generation, s.observation.value);
      }
    }
  }

  lemma ThreadGrows(w: World, w': World, t: Thread)
    requires Grows(w, w') && ThreadOk(w, t)
    requires t.Trying? ==>
      |Ordinals(w.issued, t.request.execution, t.request.generation)| <= |Ordinals(w'.issued, t.request.execution, t.request.generation)|
    requires t.Calling? ==> forall c :: c in w'.calls ==> c.attestation != Sought(t)
    ensures ThreadOk(w', t)
  {
    if t.Ready? && t.trusted.Some? {
      BackedGrows(w, w', t.request.execution, t.request.generation, t.trusted.value);
    }
  }

  /** A longer list of attestations disturbs no other request in progress. */
  lemma ThreadsStayOk(w: World, w': World, tid: ThreadId)
    requires Grows(w, w') && w.calls == w'.calls
    requires forall p :: p in w.threads ==> ThreadOk(w, w.threads[p])
    requires forall execution, generation ::
      |Ordinals(w.issued, execution, generation)| <= |Ordinals(w'.issued, execution, generation)|
    requires forall p :: p in w'.threads && p != tid ==> p in w.threads && w'.threads[p] == w.threads[p]
    requires tid in w'.threads ==> ThreadOk(w', w'.threads[tid])
    ensures forall p :: p in w'.threads ==> ThreadOk(w', w'.threads[p])
  {
    forall p | p in w'.threads && p != tid
      ensures ThreadOk(w', w'.threads[p])
    {
      ThreadGrows(w, w', w.threads[p]);
    }
  }

  lemma IssueKeepsIssuedOk(w: World, a: Attestation)
    requires IssuedOk(w) && a.execution in w.claims && a !in w.issued
    requires if a.stage == Observation then a.ordinal == |Ordinals(w.issued, a.execution, a.generation)| + 1 <= BUDGET
             else a.ordinal == 1 && a.generation >= 1
    ensures IssuedOk(Issue(w, a))
  {
    IssuingKeepsPrefix(w.issued, a);
  }

  /** The digest the ledger accepted binds the envelope the request was started with. */
  lemma GrantedShape(w: World, tid: ThreadId)
    requires Enabled(w, Attest(tid)) && Granting(w, tid)
    ensures
      var t := w.threads[tid];
      && Sought(t) !in w.issued && t.request.execution in w.claims && w.claims[t.request.execution].envelope == t.envelope
      && Apply(w, Attest(tid)) == Issue(w, Sought(t)).(threads := w.threads[tid := Calling(t.request, t.envelope, t.ordinal)])
  {
  }

  lemma GrantKeepsCallers(w: World, tid: ThreadId)
    requires Enabled(w, Attest(tid)) && Sought(w.threads[tid]) !in w.issued && CallersDiffer(w.threads)
    requires forall p :: p in w.threads && w.threads[p].Calling? ==> Sought(w.threads[p]) in w.issued
    ensures
      var t := w.threads[tid];
      CallersDiffer(w.threads[tid := Calling(t.request, t.envelope, t.ordinal)])
  {
    var t := w.threads[tid];
    assert Sought(Calling(t.request, t.envelope, t.ordinal)) == Sought(t);
  }

  predicate Granting(w: World, tid: ThreadId)
    requires Enabled(w, Attest(tid))
  {
    var t := w.threads[tid];
    Authorize(w.issued, w.claims, Sought(t), Digest(t.envelope, Observation, t.ordinal)).Granted?
  }

  lemma GrantKeepsInv(w: World, tid: ThreadId)
    requires Inv(w) && Enabled(w, Attest(tid)) && Granting(w, tid)
    ensures Inv(Apply(w, Attest(tid)))
  {
    var t := w.threads[tid];
    GrantedShape(w, tid);
    FreeOrdinalIsNext(w, t);
    IssueKeepsIssuedOk(w, Sought(t));
    assert forall p :: p in w.threads ==> ThreadOk(w, w.threads[p]);
    GrantKeepsCallers(w, tid);
    assert Sought(Calling(t.request, t.envelope, t.ordinal)) == Sought(t);
    IssuedKeepsInv(w, Sought(t), w.threads[tid := Calling(t.request, t.envelope, t.ordinal)], {tid});
  }

  /** One more attestation keeps the invariant if it does so for itself and for its request. */
  lemma IssuedKeepsInv(w: World, a: Attestation, threads: map<ThreadId, Thread>, moved: set<ThreadId>)
    requires Inv(w) && a.execution in w.claims && a !in w.issued
    requires forall p :: p in threads && p !in moved ==> p in w.threads && threads[p] == w.threads[p]
    requires IssuedOk(Issue(w, a).(threads := threads)) && CallersDiffer(threads)
    requires forall p :: p in threads && p in moved ==> ThreadOk(Issue(w, a).(threads := threads), threads[p])
    ensures Inv(Issue(w, a).(threads := threads))
  {
    var w' := Issue(w, a).(threads := threads);
    IssueGrows(w, a);
    JustifiedGrows(w, w');
    forall p | p in threads && p !in moved
      ensures ThreadOk(w', threads[p])
    {
      OrdinalsAppend(w.issued, a, threads[p].request.execution, threads[p].request.generation);
      ThreadGrows(w, w', threads[p]);
    }
  }

  lemma IssueGrows(w: World, a: Attestation)
    requires IssuedOk(w) && a.execution in w.claims && a !in w.issued
    ensures Grows(w, Issue(w, a))
  {
  }

  lemma RefusalKeepsInv(w: World, tid: ThreadId, threads: map<ThreadId, Thread>)
    requires Inv(w) && Enabled(w, Attest(tid))
    requires threads == w.threads - {tid} || (Sought(w.threads[tid]) in w.issued && threads == w.threads[tid := NextTry(w.threads[tid])])
    ensures Inv(w.(threads := threads))
  {
    if tid in threads {
      TakenOrdinalIsWithin(w, w.threads[tid]);
    }
    ThreadsStayOk(w, w.(threads := threads), tid);
  }

  lemma AttestKeepsInv(w: World, tid: ThreadId)
    requires Inv(w) && Enabled(w, Attest(tid))
    ensures Inv(Apply(w, Attest(tid)))
  {
    var t := w.threads[tid];
    if Authorize(w.issued, w.claims, Sought(t), Digest(t.envelope, Observation, t.ordinal)).Granted? {
      GrantKeepsInv(w, tid);
    } else {
      RefusalKeepsInv(w, tid, Apply(w, Attest(tid)).threads);
    }
  }

  lemma AnswerKeepsThread(w: World, tid: ThreadId, response: Response, p: ThreadId)
    requires Inv(w) && Enabled(w, Answer(tid, response)) && p in Apply(w, Answer(tid, response)).threads
    ensures ThreadOk(Apply(w, Answer(tid, response)), Apply(w, Answer(tid, response)).threads[p])
  {
    if p == tid {
      TrustedIsBacked(w, tid, response);
    } else {
      ThreadGrows(w, Apply(w, Answer(tid, response)), w.threads[p]);
    }
  }

  /** What is trusted is bound to the envelope of the request, and the attestation to the same one. */
  lemma TrustedIsBacked(w: World, tid: ThreadId, response: Response)
    requires Inv(w) && Enabled(w, Answer(tid, response)) && tid in Apply(w, Answer(tid, response)).threads
    ensures ThreadOk(Apply(w, Answer(tid, response)), Apply(w, Answer(tid, response)).threads[tid])
  {
    var t, w' := w.threads[tid], Apply(w, Answer(tid, response));
    TrustedIffBound(t.envelope, response);
    assert Call(Sought(t), response) in w'.calls;
  }

  lemma AnswerKeepsInv(w: World, tid: ThreadId, response: Response)
    requires Inv(w) && Enabled(w, Answer(tid, response))
    ensures Inv(Apply(w, Answer(tid, response)))
  {
    var w' := Apply(w, Answer(tid, response));
    AnswerKeepsCalls(w, tid, response);
    JustifiedGrows(w, w');
    forall p | p in w'.threads
      ensures ThreadOk(w', w'.threads[p])
    {
      AnswerKeepsThread(w, tid, response, p);
    }
  }

  lemma AnswerKeepsCalls(w: World, tid: ThreadId, response: Response)
    requires Inv(w) && Enabled(w, Answer(tid, response))
    ensures
      var w' := Apply(w, Answer(tid, response));
      && w'.issued == w.issued && w'.bound == w.bound && w'.settled == w.settled
      && Grows(w, w') && CalledOnce(w') && CallersDiffer(w'.threads)
  {
    assert ThreadOk(w, w.threads[tid]);
  }

  lemma ProxyKeepsInv(w: World, a: Attestation, digest: Digest)
    requires Inv(w)
    ensures Inv(Apply(w, Proxy(a, digest)))
  {
    if ProxyAdmits(a) && Authorize(w.issued, w.claims, a, digest).Granted? {
      IssueKeepsIssuedOk(w, a);
      IssuedKeepsInv(w, a, w.threads, {});
    }
  }

  lemma BeginKeepsInv(w: World, tid: ThreadId, body: Body)
    requires Inv(w) && Enabled(w, Begin(tid, body))
    ensures Inv(Apply(w, Begin(tid, body)))
  {
  }

  lemma ActionKeepsInv(w: World, a: Action)
    requires Inv(w) && Enabled(w, a)
    ensures Inv(Apply(w, a))
  {
    match a {
      case Attest(tid) => AttestKeepsInv(w, tid);
      case Answer(tid, response) => AnswerKeepsInv(w, tid, response);
      case Proxy(attestation, digest) => ProxyKeepsInv(w, attestation, digest);
      case Begin(tid, body) => BeginKeepsInv(w, tid, body);
      case _ =>
    }
  }

  lemma {:induction false} HistoryKeepsInv(past: seq<World>)
    requires History(past)
    ensures Inv(Now(past))
  {
    var front := past[..|past| - 1];
    if front != [] {
      assert past[|front|] == Now(past) && past[|front| - 1] == Now(front);
      HistoryKeepsInv(front);
      var a :| Enabled(Now(front), a) && Now(past) == Apply(Now(front), a);
      ActionKeepsInv(Now(front), a);
    }
  }

  /**
   The main claims, after any interleaving of settlements, worker calls and restarts: each
   attestation is issued once, the observation ordinals of every generation are 1..k with
   k at most twenty, the broker is called once under each, and a settlement is OBSERVED
   exactly if it carries an observation that the broker gave to the signer itself, under the
   grant of the envelope the attestation was issued for.
   */
  lemma EveryRunKeepsObservations(past: seq<World>)
    requires History(past)
    ensures IssuedOnce(Now(past).issued)
    ensures ObservationsArePrefix(Now(past).issued)
    ensures forall execution: Id, generation: nat, ordinal: nat ::
              Attestation(execution, generation, Observation, ordinal) in Now(past).issued ==> 1 <= ordinal <= 20
    ensures forall a :: a in Now(past).issued && a.stage != Observation ==> a.ordinal == 1 && a.generation >= 1
    ensures CalledOnce(Now(past))
    ensures forall s :: s in Now(past).settled ==> Justified(Now(past), s)
  {
    HistoryKeepsInv(past);
    var issued := Now(past).issued;
    forall execution: Id, generation: nat, ordinal: nat | Attestation(execution, generation, Observation, ordinal) in issued
      ensures 1 <= ordinal <= 20
    {
      OrdinalsAreTheIssued(issued, execution, generation, ordinal);
      assert CountsUp(Ordinals(issued, execution, generation));
      CountedOrdinalsAreIn(Ordinals(issued, execution, generation), ordinal);
    }
  }

  /** A request that waits for nothing issues nothing and asks nobody, whatever it does next. */
  lemma ReadyRequestReadsNothing(w: World, tid: ThreadId, a: Action)
    requires Enabled(w, a) && tid in w.threads && w.threads[tid].Ready?
    requires a == Attest(tid) || (a.Answer? && a.tid == tid) || a == Hand(tid) || a == Abort(tid)
    ensures Apply(w, a).issued == w.issued && Apply(w, a).calls == w.calls && Apply(w, a).bound == w.bound
    ensures tid !in Apply(w, a).threads
  {
  }

  /** Whatever a worker sends to the proxy, no observation ordinal is spent by it. */
  lemma ProxySpendsNoOrdinal(w: World, a: Attestation, digest: Digest, execution: Id, generation: nat)
    ensures Ordinals(Apply(w, Proxy(a, digest)).issued, execution, generation) == Ordinals(w.issued, execution, generation)
  {
    OrdinalsAppend(w.issued, a, execution, generation);
  }

  /**
   In a reachable world a request that is admitted at its ordinal takes the next one, and
   one that is turned away at the last ordinal finds the whole budget spent.
   */
  lemma ReaderTakesTheNextOrdinal(past: seq<World>, tid: ThreadId)
    requires History(past) && Enabled(Now(past), Attest(tid))
    ensures
      var t := Now(past).threads[tid];
      var before := Ordinals(Now(past).issued, t.request.execution, t.request.generation);
      var after := Apply(Now(past), Attest(tid));
      && (tid in after.threads && after.threads[tid].Calling? ==>
           Ordinals(after.issued, t.request.execution, t.request.generation) == before + [|before| + 1])
      && (tid in after.threads && after.threads[tid].Ready? ==> |before| == BUDGET)
      && (tid !in after.threads || !after.threads[tid].Calling? ==> after.issued == Now(past).issued)
  {
    HistoryKeepsInv(past);
    if Granting(Now(past), tid) {
      AdmittedTakesTheNext(Now(past), tid);
    } else {
      TurnedAwayTakesNone(Now(past), tid);
    }
  }

  lemma AdmittedTakesTheNext(w: World, tid: ThreadId)
    requires Inv(w) && Enabled(w, Attest(tid)) && Granting(w, tid)
    ensures
      var t, after := w.threads[tid], Apply(w, Attest(tid));
      var before := Ordinals(w.issued, t.request.execution, t.request.generation);
      && tid in after.threads && after.threads[tid].Calling?
      && Ordinals(after.issued, t.request.execution, t.request.generation) == before + [|before| + 1]
  {
    var t := w.threads[tid];
    GrantedShape(w, tid);
    FreeOrdinalIsNext(w, t);
    OrdinalsAppend(w.issued, Sought(t), t.request.execution, t.request.generation);
  }

  lemma TurnedAwayTakesNone(w: World, tid: ThreadId)
    requires Inv(w) && Enabled(w, Attest(tid)) && !Granting(w, tid)
    ensures
      var t, after := w.threads[tid], Apply(w, Attest(tid));
      && after.issued == w.issued && (tid in after.threads ==> !after.threads[tid].Calling?)
      && (tid in after.threads && after.threads[tid].Ready? ==> |Ordinals(w.issued, t.request.execution, t.request.generation)| == BUDGET)
  {
    var t, after := w.threads[tid], Apply(w, Attest(tid));
    if tid in after.threads {
      TakenOrdinalIsWithin(w, t);
      assert CountsUp(Ordinals(w.issued, t.request.execution, t.request.generation));
    }
  }
}
