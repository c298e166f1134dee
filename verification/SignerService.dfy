/**
 The signer process of scripts/provider-execution-attestation-signer.ts: the ordinal loop
 of readObservation, the /v1/settlements branch and the /v1/broker-requests branch, over
 database rows that other requests change in between.

 `past` is the list of worlds so far; `Valid` says that it is a run of the transition
 system, so every method is shown to take only its steps.
 */
module SignerService {
  import opened Options
  import opened SignerProtocol

  /** How a request ends; `Died` is a restart, after which nobody is answered. */
  datatype Ending<+T> = Done(value: T) | Refused | Died {
    predicate IsFailure() { !Done? }
    function PropagateFailure<U>(): Ending<U> requires !Done? { if Refused? then Ending.Refused else Ending.Died }
    function Extract(): T requires Done? { value }
  }

  /** The answers of the settlement route that are not errors of the ledger. */
  datatype Reply = WorkerObservationRejected | InvalidRequest | Recorded(settlement: Settlement)

  /** The actions that belong to request `me`. */
  predicate Acts(me: ThreadId, a: Action) {
    match a
    case Begin(tid, _) => tid == me
    case Attest(tid) => tid == me
    case Answer(tid, _) => tid == me
    case Hand(tid) => tid == me
    case Abort(tid) => tid == me
    case _ => false
  }

  /** All twenty ordinals of the generation have been issued. */
  predicate Spent(issued: seq<Attestation>, execution: Id, generation: nat) {
    |Ordinals(issued, execution, generation)| == BUDGET
  }

  /** The claim of an execution, as the ledger held it at some moment from `from` on. */
  ghost predicate WasReadback(past: seq<World>, from: nat, execution: Id, readback: bool) {
    exists i :: from <= i < |past| && IsReadback(past[i], execution, readback)
  }

  predicate IsReadback(w: World, execution: Id, readback: bool) {
    execution in w.claims && w.claims[execution].readback == readback
  }

  /** At some moment from `from` on the generation was held by this worker under a live lease, or was not. */
  ghost predicate WasCurrent(past: seq<World>, from: nat, request: Request, current: bool) {
    exists i :: from <= i < |past| && IsCurrent(past[i], request, current)
  }

  predicate IsCurrent(w: World, request: Request, current: bool) {
    current == (request.execution in w.claims && w.claims[request.execution].held
                && w.claims[request.execution].generation == request.generation && w.claims[request.execution].leaseLive)
  }

  /** The request never tried an ordinal nor waited for the broker. */
  predicate NeverReads(past: seq<World>, from: nat, me: ThreadId) {
    forall i :: from <= i < |past| && me in past[i].threads ==> past[i].threads[me].Ready?
  }

  /** The broker has answered 204 under an attestation of this generation. */
  predicate AnsweredNotYet(calls: seq<Call>, request: Request) {
    exists c :: c in calls && c.response.status == 204
      && c.attestation == Attestation(request.execution, request.generation, Observation, c.attestation.ordinal)
  }

  lemma {:induction false} OrdinalsGrow(issued: seq<Attestation>, issued': seq<Attestation>, execution: Id, generation: nat)
    requires issued <= issued'
    ensures |Ordinals(issued, execution, generation)| <= |Ordinals(issued', execution, generation)|
    decreases |issued'|
  {
    if |issued| < |issued'| {
      OrdinalsGrow(issued, issued'[..|issued'| - 1], execution, generation);
    } else {
      assert issued == issued';
    }
  }

  lemma SpentStays(issued: seq<Attestation>, issued': seq<Attestation>, execution: Id, generation: nat)
    requires issued <= issued' && ObservationsArePrefix(issued')
    ensures Spent(issued, execution, generation) ==> Spent(issued', execution, generation)
  {
    OrdinalsGrow(issued, issued', execution, generation);
    assert CountsUp(Ordinals(issued', execution, generation));
  }

  lemma MomentsRemain(past: seq<World>, past': seq<World>, from: nat, request: Request)
    requires past <= past'
    ensures forall b :: WasReadback(past, from, request.execution, b) ==> WasReadback(past', from, request.execution, b)
    ensures forall b :: WasCurrent(past, from, request, b) ==> WasCurrent(past', from, request, b)
  {
    forall b | WasReadback(past, from, request.execution, b)
      ensures WasReadback(past', from, request.execution, b)
    {
      var i :| from <= i < |past| && IsReadback(past[i], request.execution, b);
      assert IsReadback(past'[i], request.execution, b);
    }
    forall b | WasCurrent(past, from, request, b)
      ensures WasCurrent(past', from, request, b)
    {
      var i :| from <= i < |past| && IsCurrent(past[i], request, b);
      assert IsCurrent(past'[i], request, b);
    }
  }

  class Signer {
    var issued: seq<Attestation>           // broker_attestation_issued events
    var claims: map<Id, Claim>             // provider executions
    var settled: seq<Settlement>           // what settleProviderExecution was given
    var threads: map<ThreadId, Thread>     // the settlement requests in this process
    var calls: seq<Call>                   // what the broker was asked and answered
    var bound: map<Attestation, nat>       // the envelope each attestation was issued for
    ghost var past: seq<World>

    function View(): World
      reads this
    {
      World(issued, claims, threads, calls, settled, bound)
    }

    ghost predicate Valid()
      reads this
    {
      History(past) && Now(past) == View()
    }

    constructor (c: map<Id, Claim>)
      ensures Valid() && claims == c && threads == map[]
    {
      issued, claims, settled, threads, calls, bound := [], c, [], map[], [], map[];
      new;
      past := [View()];
    }

    /** Takes one action; every change of state goes through here. */
    method Take(a: Action)
      requires Valid() && Enabled(View(), a)
      modifies this
      ensures Valid() && View() == Apply(old(View()), a) && past == old(past) + [View()]
    {
      var w := Apply(View(), a);
      issued, claims, settled, threads, calls, bound := w.issued, w.claims, w.settled, w.threads, w.calls, w.bound;
      assert Next(Now(past), View());
      past := past + [View()];
    }

    /** Other requests, the worker, the ledger and the broker act; the process may restart. */
    method Tick(me: ThreadId) returns (e: Ending<()>)
      requires Valid()
      modifies this
      ensures Valid() && old(past) <= past
      ensures e.Done? ==> (me in threads <==> old(me in threads)) && (me in threads ==> threads[me] == old(threads)[me])
      ensures !e.Done? ==> e.Died? && me !in threads
      ensures forall i :: |old(past)| <= i < |past| && me in past[i].threads ==>
                me in old(threads) && past[i].threads[me] == old(threads)[me]
      ensures old(calls) <= calls && old(issued) <= issued
    {
      var n: nat := *;
      while n > 0
        invariant Valid() && old(past) <= past
        invariant forall i :: |old(past)| <= i < |past| && me in past[i].threads ==>
                    me in old(threads) && past[i].threads[me] == old(threads)[me]
        invariant (me in threads <==> old(me in threads)) && (me in threads ==> threads[me] == old(threads)[me])
        invariant old(calls) <= calls && old(issued) <= issued
      {
        var a: Action := *;
        if Enabled(View(), a) && !a.Restart? && !Acts(me, a) {
          Take(a);
        }
        n := n - 1;
      }
      var restarts: bool := *;
      if restarts {
        Take(Restart);
        return Died;
      }
      return Done(());
    }

    /**
     readObservation after its claim check (lines 279-296): ordinals are tried in order, one
     that was issued before is passed over, and any other refusal ends the request. What is
     returned is the broker's own answer, or nothing if it is pending or all ordinals are spent.
     */
    method ReadObservation(me: ThreadId, request: Request, envelope: nat) returns (e: Ending<Option<Sighting>>)
      requires Valid() && me in threads && threads[me] == Trying(request, envelope, 1)
      modifies this
      ensures Valid() && old(past) <= past
      ensures e.Done? ==> me in threads && threads[me] == Ready(request, e.value)
      ensures e == Done(None) ==> Spent(issued, request.execution, request.generation) || AnsweredNotYet(calls, request)
      ensures !e.Done? ==> me !in threads
    {
      var ordinal := 1;
      while ordinal <= BUDGET
        invariant 1 <= ordinal <= BUDGET + 1
        invariant Valid() && old(past) <= past && me in threads
        invariant ordinal <= BUDGET ==> threads[me] == Trying(request, envelope, ordinal)
        invariant ordinal > BUDGET ==> threads[me] == Ready(request, None) && Spent(issued, request.execution, request.generation)
      {
        var _ :- Tick(me);
        var sought := Attestation(request.execution, request.generation, Observation, ordinal);
        var authorization := Authorize(issued, claims, sought, Digest(envelope, Observation, ordinal));
        ReaderTakesTheNextOrdinal(past, me);
        Take(Attest(me));
        if authorization.AlreadyIssued? {
          ordinal := ordinal + 1;
        } else if authorization.Granted? {
          var reading :- AskBroker(me);
          return Done(reading);
        } else {
          return Refused;
        }
      }
      return Done(None);
    }

    /** brokerCall under the attestation just issued, and readTrustedBrokerObservation. */
    method AskBroker(me: ThreadId) returns (e: Ending<Option<Sighting>>)
      requires Valid() && me in threads && threads[me].Calling?
      modifies this
      ensures Valid() && old(past) <= past
      ensures e.Done? ==> me in threads && threads[me] == Ready(old(threads[me].request), e.value)
      ensures e == Done(None) ==>
        exists c :: c in calls && c.response.status == 204 && c.attestation == Sought(old(threads[me]))
      ensures !e.Done? ==> me !in threads
    {
      ghost var sought := Sought(threads[me]);
      var request, envelope := threads[me].request, threads[me].envelope;
      var _ :- Tick(me);
      var lost: bool := *;
      if lost {
        Take(Abort(me));
        return Refused;
      }
      var response: Response := *;
      TrustedIffBound(envelope, response);
      Take(Answer(me, response));
      assert Call(sought, response) in calls by {
        assert calls[|calls| - 1] == Call(sought, response);
      }
      match ReadTrusted(envelope, Sanitized(response)) {
        case Trusted(s) => return Done(Some(s));
        case NotYet => return Done(None);
        case Throws => return Refused;
      }
    }

    /** The checks of a settlement request and the start of its reading, if there is any (lines 390-415). */
    method Open(me: ThreadId, body: Body) returns (e: Ending<Thread>)
      requires Valid() && me !in threads && !SuppliesObservation(body) && Parse(body).Some?
      modifies this
      ensures Valid() && old(past) <= past
      ensures !e.Done? ==> me !in threads
      ensures e.Done? ==> me in threads && threads[me] == e.value && e.value.request == Parse(body).value
      ensures e.Done? && e.value.Ready? ==> e.value.trusted.None?
      ensures
        var request := Parse(body).value;
        && (e.Done? && !e.value.Ready? ==> request.outcome == Observed && e.value == Trying(request, e.value.envelope, 1))
        && (e.Done? && (request.outcome == Observed || request.outcome == HumanRequired) ==>
             WasCurrent(past, |old(past)| - 1, request, true))
        && (e.Done? && request.outcome == Observed ==> WasReadback(past, |old(past)| - 1, request.execution, !e.value.Ready?))
        && (e.Refused? ==> WasCurrent(past, |old(past)| - 1, request, false)
                           && (request.outcome == Observed || request.outcome == HumanRequired))
      ensures forall i :: |old(past)| <= i < |past| && me in past[i].threads ==> e.Done? && past[i].threads[me] == e.value
    {
      var request := Parse(body).value;
      var _ :- Tick(me);
      var started := Started(claims, request);
      ghost var now := |past| - 1;
      assert past[now] == View();
      assert IsCurrent(past[now], request, Current(claims, request.execution, request.generation));
      assert request.execution in claims ==> IsReadback(past[now], request.execution, claims[request.execution].readback);
      Take(Begin(me, body));
      return if started.None? then Refused else Done(started.value);
    }

    /** What the settlement is given: nothing, or what readObservation returns. */
    method Observe(me: ThreadId, body: Body) returns (e: Ending<Option<Sighting>>)
      requires Valid() && me !in threads && !SuppliesObservation(body) && Parse(body).Some?
      modifies this
      ensures Valid() && old(past) <= past
      ensures !e.Done? ==> me !in threads
      ensures e.Done? ==> me in threads && threads[me] == Ready(Parse(body).value, e.value)
      ensures
        var request := Parse(body).value;
        && (e.Done? && request.outcome != Observed ==> e.value.None?)
        && (e.Done? && (request.outcome == Observed || request.outcome == HumanRequired) ==>
             WasCurrent(past, |old(past)| - 1, request, true))
        && (e == Done(None) && request.outcome == Observed ==>
             WasReadback(past, |old(past)| - 1, request.execution, false) || AnsweredNotYet(calls, request)
             || Spent(issued, request.execution, request.generation))
        && (e.Refused? ==>
             || (WasCurrent(past, |old(past)| - 1, request, false)
                 && (request.outcome == Observed || request.outcome == HumanRequired))
             || (request.outcome == Observed && WasReadback(past, |old(past)| - 1, request.execution, true)))
        && (!WasReadback(past, |old(past)| - 1, request.execution, true) ==> NeverReads(past, |old(past)|, me))
    {
      var request := Parse(body).value;
      var started :- Open(me, body);
      if started.Ready? {
        return Done(None);
      }
      ghost var begun := past;
      e := ReadObservation(me, request, started.envelope);
      MomentsRemain(begun, past, |old(past)| - 1, request);
    }

    /** settleProviderExecution with what the request asks for and what was observed (lines 416-440). */
    method HandOver(me: ThreadId, request: Request, trusted: Option<Sighting>) returns (e: Ending<Settlement>)
      requires Valid() && me in threads && threads[me] == Ready(request, trusted)
      modifies this
      ensures Valid() && old(past) <= past && me !in threads && !e.Refused?
      ensures old(calls) <= calls && old(issued) <= issued
      ensures e.Done? ==> settled != [] && settled[|settled| - 1] == e.value
      ensures e.Done? ==>
        && e.value.execution == request.execution && e.value.generation == request.generation
        && (if request.outcome == Observed && trusted.None?
            then e.value.outcome == ResultUnknown && e.value.errorCode == Some(OBSERVATION_PENDING)
            else e.value.outcome == request.outcome && e.value.errorCode == request.errorCode)
        && e.value.observation == trusted
        && (trusted.Some? ==> Backed(View(), request.execution, request.generation, trusted.value))
      ensures forall i :: |old(past)| <= i < |past| && me in past[i].threads ==> past[i].threads[me].Ready?
    {
      var _ :- Tick(me);
      var settlement := SettlementOf(request, trusted);
      Take(Hand(me));
      EveryRunKeepsObservations(past);
      assert settlement in settled by {
        assert settled[|settled| - 1] == settlement;
      }
      return Done(settlement);
    }

    /**
     POST /v1/settlements (lines 384-443). A body that brings its own observation, or does
     not parse, changes nothing. Otherwise an OBSERVED settlement is recorded only with an
     observation the broker gave to this process, and RESULT_UNKNOWN is recorded in its
     place; every other outcome is passed on as it came, without an observation.
     */
    method Settle(me: ThreadId, body: Body) returns (e: Ending<Reply>)
      requires Valid() && me !in threads
      modifies this
      ensures Valid() && old(past) <= past && me !in threads
      ensures e == Done(WorkerObservationRejected) <==> SuppliesObservation(body)
      ensures e == Done(InvalidRequest) <==> !SuppliesObservation(body) && Parse(body).None?
      ensures e.Refused? ==>
        Parse(body).Some? && (Parse(body).value.outcome == Observed || Parse(body).value.outcome == HumanRequired)
      ensures SuppliesObservation(body) || Parse(body).None? ==> past == old(past) && unchanged(this)
      ensures e.Done? && e.value.Recorded? ==>
        var request := Parse(body).value;
        var s := e.value.settlement;
        && settled != [] && settled[|settled| - 1] == s
        && s.execution == request.execution && s.generation == request.generation
        && (request.outcome != Observed ==> s.outcome == request.outcome && s.errorCode == request.errorCode && s.observation.None?)
        && (request.outcome == Observed && s.observation.Some? ==>
             s.outcome == Observed && s.errorCode == request.errorCode
             && Backed(View(), s.execution, s.generation, s.observation.value))
        && (request.outcome == Observed && s.observation.None? ==>
             s.outcome == ResultUnknown && s.errorCode == Some(OBSERVATION_PENDING)
             && (WasReadback(past, |old(past)| - 1, s.execution, false) || AnsweredNotYet(calls, request)
                 || Spent(issued, s.execution, s.generation)))
        && (request.outcome == Observed || request.outcome == HumanRequired ==>
             WasCurrent(past, |old(past)| - 1, request, true))
      ensures e.Refused? ==>
        || WasCurrent(past, |old(past)| - 1, Parse(body).value, false)
        || (Parse(body).value.outcome == Observed && WasReadback(past, |old(past)| - 1, Parse(body).value.execution, true))
      ensures Parse(body).Some? && !WasReadback(past, |old(past)| - 1, Parse(body).value.execution, true) ==>
        NeverReads(past, |old(past)|, me)
    {
      if SuppliesObservation(body) {
        return Done(WorkerObservationRejected);
      }
      if Parse(body).None? {
        return Done(InvalidRequest);
      }
      var request := Parse(body).value;
      var trusted :- Observe(me, body);
      ghost var observed, spent := past, issued;
      var settlement :- HandOver(me, request, trusted);
      EveryRunKeepsObservations(past);
      SpentStays(spent, issued, request.execution, request.generation);
      MomentsRemain(observed, past, |old(past)| - 1, request);
      return Done(Recorded(settlement));
    }

    /**
     POST /v1/broker-requests (lines 369-383): the same attestation path, but for the stages
     and the one ordinal a worker may name. No observation ordinal is spent by the request.
     */
    method ProxyRequest(a: Attestation, digest: Digest) returns (authorization: Option<Authorization>)
      requires Valid()
      modifies this
      ensures Valid() && old(past) <= past
      ensures claims == old(claims) && threads == old(threads) && calls == old(calls) && settled == old(settled)
      ensures authorization.Some? <==> a.generation >= 1 && a.stage != Observation && a.ordinal == 1
      ensures a in issued && a !in old(issued) <==> authorization == Some(Granted)
      ensures issued == if authorization == Some(Granted) then old(issued) + [a] else old(issued)
      ensures authorization == Some(Granted) ==> Current(claims, a.execution, a.generation) && a.stage != Observation && a.ordinal == 1
      ensures forall execution, generation :: Ordinals(issued, execution, generation) == Ordinals(old(issued), execution, generation)
    {
      forall execution, generation
        ensures Ordinals(Apply(View(), Proxy(a, digest)).issued, execution, generation) == Ordinals(issued, execution, generation)
      {
        ProxySpendsNoOrdinal(View(), a, digest, execution, generation);
      }
      if !ProxyAdmits(a) {
        return None;
      }
      authorization := Some(Authorize(issued, claims, a, digest));
      Take(Proxy(a, digest));
    }
  }
}
