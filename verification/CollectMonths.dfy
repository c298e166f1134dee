/**
 The collection run of scripts/book-sales/collect.py (lines 101-168): one verdict per
 window, early termination with full accounting, failure posts, and the batch record.

 The browser, the archive and the report parser are the parameter `attempts`; `apiOk` says
 which calls of the backoffice API succeed, in the order they are made.
 */
module CollectMonths {
  import opened Options

  /** The failures the loop handles. Any other error ends the run with an exception. */
  datatype Code = AuthRequired | DownloadFailed | ReportInvalid | ArchiveFailed

  /** What downloading, archiving and parsing one window comes to. */
  datatype Attempt = Parsed(rows: nat) | Fails(code: Code) | Breaks

  /** The browser lease: none, one of the caller's session, or an own one, whose release may fail. */
  datatype Lease = Unleased | OfSession | Own(releases: bool)

  datatype State = Observed | Empty | NeedsInput | Failed

  datatype Verdict = Verdict(window: nat, state: State, code: Option<Code>)

  /** A failure sent for a window; no code stands for a browser that could not be leased. */
  datatype FailurePost = FailurePost(window: nat, code: Option<Code>)

  datatype BatchStatus = BatchRunning | BatchSucceeded | BatchFailed

  datatype BatchRecord = BatchRecord(status: BatchStatus, expected: nat, verified: nat)

  /** The result of collect_months: `Unavailable` is the answer without a browser lease. */
  datatype Outcome = Returned(ok: bool, results: seq<Verdict>) | Unavailable | Raised

  predicate Terminal(code: Code) {
    code == AuthRequired || code == ArchiveFailed
  }

  predicate Good(v: Verdict) {
    v.state == Observed || v.state == Empty
  }

  function FailedVerdict(window: nat, code: Code): Verdict {
    Verdict(window, if code == AuthRequired then NeedsInput else Failed, Some(code))
  }

  function GoodVerdict(window: nat, rows: nat): Verdict {
    Verdict(window, if rows > 0 then Observed else Empty, None)
  }

  /** The window at which the loop stops: the first terminal failure, or past the end. */
  function StopAt(attempts: seq<Attempt>, i: nat): nat
    requires i <= |attempts|
    decreases |attempts| - i
  {
    if i == |attempts| then i
    else if attempts[i].Fails? && Terminal(attempts[i].code) then i
    else StopAt(attempts, i + 1)
  }

  /** The verdict on window `k`: its own attempt, or the terminal failure before it. */
  function VerdictOn(attempts: seq<Attempt>, k: nat): Verdict
    requires k < |attempts|
  {
    var stop := StopAt(attempts, 0);
    if stop < k && stop < |attempts| && attempts[stop].Fails? then FailedVerdict(k, attempts[stop].code)
    else
      match attempts[k]
      case Parsed(rows) => GoodVerdict(k, rows)
      case Fails(code) => FailedVerdict(k, code)
      case Breaks => Verdict(k, Failed, None)
  }

  function Verdicts(attempts: seq<Attempt>): seq<Verdict> {
    seq(|attempts|, k requires 0 <= k < |attempts| => VerdictOn(attempts, k))
  }

  lemma {:induction false} StopAtIsFirst(attempts: seq<Attempt>, i: nat)
    requires i <= |attempts|
    ensures i <= StopAt(attempts, i) <= |attempts|
    ensures forall j :: i <= j < StopAt(attempts, i) ==> !(attempts[j].Fails? && Terminal(attempts[j].code))
    ensures StopAt(attempts, i) < |attempts| ==>
      attempts[StopAt(attempts, i)].Fails? && Terminal(attempts[StopAt(attempts, i)].code)
    decreases |attempts| - i
  {
    if i < |attempts| {
      StopAtIsFirst(attempts, i + 1);
    }
  }

  lemma {:induction false} StopAtSkips(attempts: seq<Attempt>, i: nat, j: nat)
    requires i <= j <= |attempts|
    requires forall k :: i <= k < j ==> !(attempts[k].Fails? && Terminal(attempts[k].code))
    ensures StopAt(attempts, i) == StopAt(attempts, j)
    decreases j - i
  {
    if i < j {
      StopAtSkips(attempts, i + 1, j);
    }
  }

  /** The failure posts a list of verdicts asks for: one for each failure, in order. */
  function PostsFor(verdicts: seq<Verdict>): seq<FailurePost> {
    if verdicts == [] then []
    else
      var n := |verdicts| - 1;
      PostsFor(verdicts[..n])
      + (if verdicts[n].code.Some? then [FailurePost(verdicts[n].window, verdicts[n].code)] else [])
  }

  function CountGood(verdicts: seq<Verdict>): nat {
    if verdicts == [] then 0
    else CountGood(verdicts[..|verdicts| - 1]) + if Good(verdicts[|verdicts| - 1]) then 1 else 0
  }

  lemma {:induction false} AllGoodIffCounted(verdicts: seq<Verdict>)
    ensures CountGood(verdicts) <= |verdicts|
    ensures CountGood(verdicts) == |verdicts| <==> forall v :: v in verdicts ==> Good(v)
  {
    if verdicts != [] {
      var n := |verdicts| - 1;
      AllGoodIffCounted(verdicts[..n]);
      assert verdicts == verdicts[..n] + [verdicts[n]];
    }
  }

  /** How many windows the run has verified. */
  function Verified(r: Outcome): nat {
    if r.Returned? then CountGood(r.results) else 0
  }

  /** The closing record: succeeded exactly when everything expected has been verified. */
  function Closing(expected: nat, verified: nat): BatchRecord {
    BatchRecord(if verified == expected then BatchSucceeded else BatchFailed, expected, verified)
  }

  lemma Associates<T>(a: seq<T>, b: seq<T>, c: seq<T>)
    ensures (a + b) + c == a + (b + c)
  {
  }

  function UpTo(n: nat): seq<nat> {
    if n == 0 then [] else UpTo(n - 1) + [n - 1]
  }

  /** The windows that have been downloaded when the loop is over: none after a terminal failure. */
  function Downloaded(attempts: seq<Attempt>): seq<nat> {
    UpTo(LoopEnd(attempts))
  }

  function LoopEnd(attempts: seq<Attempt>): (n: nat)
    ensures n <= |attempts|
  {
    StopAtIsFirst(attempts, 0);
    var stop := StopAt(attempts, 0);
    if stop < |attempts| then stop + 1 else stop
  }

  function ParsedAt(attempts: seq<Attempt>, k: nat): seq<nat>
    requires k < |attempts|
  {
    if attempts[k].Parsed? then [k] else []
  }

  /** The windows before `n` whose report could be parsed. */
  function ParsedBelow(attempts: seq<Attempt>, n: nat): seq<nat>
    requires n <= |attempts|
  {
    if n == 0 then [] else ParsedBelow(attempts, n - 1) + ParsedAt(attempts, n - 1)
  }

  /** The windows whose snapshot is sent. */
  function Sent(attempts: seq<Attempt>): seq<nat> {
    ParsedBelow(attempts, LoopEnd(attempts))
  }

  /** The good verdicts are those of the windows that were downloaded and parsed. */
  lemma GoodAreTheParsed(attempts: seq<Attempt>, k: nat)
    requires k < |attempts| && NeverBreaks(attempts)
    ensures Good(Verdicts(attempts)[k]) <==> attempts[k].Parsed? && forall j :: 0 <= j < k ==> !StopsHere(attempts[j])
    ensures Good(Verdicts(attempts)[k]) <==> Verdicts(attempts)[k].code.None?
  {
    StopAtIsFirst(attempts, 0);
  }

  lemma {:induction false} PostsForConcat(a: seq<Verdict>, b: seq<Verdict>)
    ensures PostsFor(a + b) == PostsFor(a) + PostsFor(b)
  {
    if b == [] {
      assert a + b == a;
    } else {
      assert (a + b)[..|a + b| - 1] == a + b[..|b| - 1];
      PostsForConcat(a, b[..|b| - 1]);
    }
  }

  lemma PostsForMore(posts: seq<FailurePost>, before: seq<Verdict>, after: seq<Verdict>)
    requires before <= after
    ensures posts + PostsFor(before) + PostsFor(after[|before|..]) == posts + PostsFor(after)
  {
    assert after == before + after[|before|..];
    PostsForConcat(before, after[|before|..]);
    Associates(posts, PostsFor(before), PostsFor(after[|before|..]));
  }

  /** The loop has handled `i` windows; after a terminal failure it has a verdict on all of them. */
  predicate Reached(attempts: seq<Attempt>, i: nat, stopped: bool, results: seq<Verdict>)
    requires i <= |attempts|
  {
    if stopped then i > 0 && StopAt(attempts, 0) == i - 1 && results == Verdicts(attempts)
    else StopAt(attempts, 0) == StopAt(attempts, i) && results == Verdicts(attempts)[..i]
  }

  lemma ReachedEnd(attempts: seq<Attempt>, i: nat, stopped: bool, results: seq<Verdict>)
    requires i <= |attempts| && Reached(attempts, i, stopped, results) && (stopped || i == |attempts|)
    ensures results == Verdicts(attempts) && UpTo(i) == Downloaded(attempts)
  {
  }

  lemma GoodStep(attempts: seq<Attempt>, i: nat, results: seq<Verdict>, rows: nat)
    requires i < |attempts| && Reached(attempts, i, false, results) && attempts[i] == Parsed(rows)
    ensures Reached(attempts, i + 1, false, results + [GoodVerdict(i, rows)])
    ensures PostsFor((results + [GoodVerdict(i, rows)])[|results|..]) == []
  {
    StopAtIsFirst(attempts, i);
    assert (results + [GoodVerdict(i, rows)])[|results|..] == [GoodVerdict(i, rows)];
    assert [GoodVerdict(i, rows)][..0] == [];
    assert Verdicts(attempts)[i] == GoodVerdict(i, rows);
    assert Verdicts(attempts)[..i + 1] == Verdicts(attempts)[..i] + [GoodVerdict(i, rows)];
  }

  lemma FailedStep(attempts: seq<Attempt>, i: nat, before: seq<Verdict>, code: Code, after: seq<Verdict>)
    requires i < |attempts| && Reached(attempts, i, false, before) && attempts[i] == Fails(code)
    requires
      var n := (if Terminal(code) then |attempts| else i + 1) - i;
      after == before + seq(n, k requires 0 <= k < n => FailedVerdict(i + k, code))
    ensures Reached(attempts, i + 1, Terminal(code), after)
  {
    StopAtIsFirst(attempts, i);
    forall k | i <= k < |after|
      ensures after[k] == VerdictOn(attempts, k)
    {
      assert after[k] == FailedVerdict(k, code);
    }
    assert after == Verdicts(attempts)[..|after|];
  }

  /** No window the loop gets to ends in an error it does not handle. */
  predicate NeverBreaks(attempts: seq<Attempt>) {
    forall k :: 0 <= k < |attempts| && k <= StopAt(attempts, 0) ==> !attempts[k].Breaks?
  }

  /** The lease is there, and giving it back does not end the run with an exception. */
  predicate Leased(lease: Lease) {
    lease == OfSession || lease == Own(true)
  }

  /** Exactly one verdict for every window, in window order. */
  lemma OneVerdictPerWindow(attempts: seq<Attempt>)
    ensures |Verdicts(attempts)| == |attempts|
    ensures forall k :: 0 <= k < |attempts| ==> Verdicts(attempts)[k].window == k
  {
  }

  /** Each failed window has one post with its own code, and no other window has one. */
  lemma {:induction false} PostsAreTheFailures(verdicts: seq<Verdict>)
    requires forall i, j :: 0 <= i < j < |verdicts| ==> verdicts[i].window < verdicts[j].window
    ensures forall post :: post in PostsFor(verdicts) <==>
              exists v :: v in verdicts && v.code.Some? && post == FailurePost(v.window, v.code)
    ensures forall i, j :: 0 <= i < j < |PostsFor(verdicts)| ==>
              PostsFor(verdicts)[i].window < PostsFor(verdicts)[j].window
  {
    if verdicts != [] {
      var n := |verdicts| - 1;
      PostsAreTheFailures(verdicts[..n]);
      assert verdicts == verdicts[..n] + [verdicts[n]];
      forall i | 0 <= i < |PostsFor(verdicts[..n])|
        ensures PostsFor(verdicts[..n])[i].window < verdicts[n].window
      {
        var post := PostsFor(verdicts[..n])[i];
        assert post in PostsFor(verdicts[..n]);
        var v :| v in verdicts[..n] && v.code.Some? && post == FailurePost(v.window, v.code);
        var j :| 0 <= j < n && verdicts[j] == v;
      }
    }
  }

  /** After a terminal failure every later window carries the same code; before it none does. */
  lemma TerminalFailureCoversTheRest(attempts: seq<Attempt>, k: nat)
    requires k < |attempts|
    ensures
      var stop := StopAt(attempts, 0);
      if k < stop then
        Verdicts(attempts)[k].code != Some(AuthRequired) && Verdicts(attempts)[k].code != Some(ArchiveFailed)
      else
        attempts[stop].Fails? && Verdicts(attempts)[k] == FailedVerdict(k, attempts[stop].code)
  {
    StopAtIsFirst(attempts, 0);
  }

  predicate StopsHere(attempt: Attempt) {
    attempt == Fails(AuthRequired) || attempt == Fails(ArchiveFailed)
  }

  /**
   A window is downloaded exactly if no earlier one failed to authenticate or to be archived;
   then it is judged by its own attempt, whatever happened to the windows before it.
   */
  lemma OtherFailuresDoNotStop(attempts: seq<Attempt>, k: nat)
    requires k < |attempts|
    ensures k in Downloaded(attempts) <==> forall j :: 0 <= j < k ==> !StopsHere(attempts[j])
    ensures k in Downloaded(attempts) ==>
      match attempts[k]
      case Parsed(rows) => Verdicts(attempts)[k] == Verdict(k, if rows == 0 then Empty else Observed, None)
      case Fails(AuthRequired) => Verdicts(attempts)[k] == Verdict(k, NeedsInput, Some(AuthRequired))
      case Fails(code) => Verdicts(attempts)[k] == Verdict(k, State.Failed, Some(code))
      case Breaks => true
  {
    StopAtIsFirst(attempts, 0);
    assert forall n: nat, i: nat :: i in UpTo(n) <==> i < n by {
      forall n: nat, i: nat
        ensures i in UpTo(n) <==> i < n
      {
        UpToHas(n, i);
      }
    }
  }

  lemma {:induction false} UpToHas(n: nat, i: nat)
    ensures i in UpTo(n) <==> i < n
  {
    if n > 0 {
      UpToHas(n - 1, i);
    }
  }

  class Collector {
    const apiOk: nat -> bool
    const config: bool          // false in a dry run: nothing is sent
    var calls: nat
    var releases: nat           // client.release, tried or done
    var downloads: seq<nat>
    var snapshots: seq<nat>     // windows posted and read back
    var posts: seq<FailurePost>
    var batch: seq<BatchRecord>

    constructor (apiOk: nat -> bool, config: bool)
      ensures this.apiOk == apiOk && this.config == config
      ensures calls == 0 && releases == 0 && downloads == [] && snapshots == [] && posts == [] && batch == []
    {
      this.apiOk, this.config := apiOk, config;
      calls, releases, downloads, snapshots, posts, batch := 0, 0, [], [], [], [];
    }

    /** Nothing is sent, or everything that is sent succeeds. */
    ghost predicate Reliable() {
      !config || forall n: nat :: apiOk(n)
    }

    method Call() returns (ok: bool)
      modifies this`calls
      ensures calls == old(calls) + 1
      ensures ok == apiOk(old(calls))
    {
      ok := apiOk(calls);
      calls := calls + 1;
    }

    /** The failure post of one window, if anything is sent at all: one call of the API. */
    method PostFailure(window: nat, code: Option<Code>) returns (ok: bool)
      modifies this`calls, this`posts
      ensures calls == old(calls) + if config then 1 else 0
      ensures ok <==> !config || apiOk(old(calls))
      ensures ok && config ==> posts == old(posts) + [FailurePost(window, code)]
      ensures !config ==> ok && posts == old(posts)
      ensures !ok ==> posts == old(posts)
      ensures Reliable() ==> ok
    {
      ok := true;
      if config {
        ok := Call();
        if ok {
          posts := posts + [FailurePost(window, code)];
        }
      }
    }

    /** Snapshot post and readback of a parsed window (lines 124-128): two calls, the second after the first. */
    method SendSnapshot(window: nat) returns (ok: bool)
      modifies this`calls, this`snapshots
      ensures ok <==> !config || (apiOk(old(calls)) && apiOk(old(calls) + 1))
      ensures ok ==> calls == old(calls) + if config then 2 else 0
      ensures snapshots == old(snapshots) + if ok && config then [window] else []
      ensures Reliable() ==> ok
    {
      ok := true;
      if config {
        ok := Call();
        if ok {
          ok := Call();
        }
        if ok {
          snapshots := snapshots + [window];
        }
      }
    }

    /** The branch without a browser lease (lines 107-110). */
    method ReportUnavailable(windows: nat) returns (r: Outcome)
      modifies this`calls, this`posts
      ensures r == Unavailable || r == Raised
      ensures Reliable() ==> r == Unavailable
      ensures !config ==> posts == old(posts)
      ensures r == Unavailable && config ==>
        posts == old(posts) + seq(windows, k requires 0 <= k < windows => FailurePost(k, None))
    {
      for k := 0 to windows
        invariant !config ==> posts == old(posts)
        invariant config ==> posts == old(posts) + seq(k, j requires 0 <= j < k => FailurePost(j, None))
      {
        var ok := PostFailure(k, None);
        if !ok {
          return Raised;
        }
      }
      return Unavailable;
    }

    /** One failure for each pending window, recorded as a verdict each (lines 133-136). */
    method FailPending(from: nat, to: nat, code: Code, results0: seq<Verdict>) returns (ok: bool, results: seq<Verdict>)
      requires from <= to
      modifies this`calls, this`posts
      ensures ok ==> results == results0 + seq(to - from, k requires 0 <= k < to - from => FailedVerdict(from + k, code))
      ensures ok ==> posts == old(posts) + (if config then PostsFor(results[|results0|..]) else [])
      ensures !config ==> posts == old(posts)
      ensures Reliable() ==> ok
    {
      ok, results := true, results0;
      ghost var failed: seq<Verdict> := [];
      for k := from to to
        invariant ok && results == results0 + failed && |failed| == k - from
        invariant forall j :: 0 <= j < |failed| ==> failed[j] == FailedVerdict(from + j, code)
        invariant posts == old(posts) + if config then PostsFor(failed) else []
      {
        ok := PostFailure(k, Some(code));
        if !ok {
          return;
        }
        assert (failed + [FailedVerdict(k, code)])[..|failed|] == failed;
        results := results + [FailedVerdict(k, code)];
        failed := failed + [FailedVerdict(k, code)];
      }
      assert results[|results0|..] == failed;
      assert failed == seq(to - from, k requires 0 <= k < to - from => FailedVerdict(from + k, code));
    }

    /** collect_months (lines 101-140): an own lease is given back on every path, an exception of that included. */
    method CollectWindows(attempts: seq<Attempt>, lease: Lease) returns (r: Outcome)
      modifies this`calls, this`posts, this`snapshots, this`downloads, this`releases
      ensures !config ==> posts == old(posts) && snapshots == old(snapshots)
      ensures releases == old(releases) + if lease.Own? then 1 else 0
      ensures Reliable() ==> (r.Returned? <==> Leased(lease) && NeverBreaks(attempts)) && (r == Unavailable <==> lease.Unleased?)
      ensures r.Returned? ==>
        && Leased(lease) && NeverBreaks(attempts)
        && r.results == Verdicts(attempts)
        && (r.ok <==> forall v :: v in r.results ==> Good(v))
        && downloads == old(downloads) + Downloaded(attempts)
        && (config ==> posts == old(posts) + PostsFor(r.results) && snapshots == old(snapshots) + Sent(attempts))
      ensures r == Unavailable ==>
        && lease.Unleased? && downloads == old(downloads)
        && (config ==> posts == old(posts) + seq(|attempts|, k requires 0 <= k < |attempts| => FailurePost(k, None)))
    {
      if lease.Unleased? {
        r := ReportUnavailable(|attempts|);
        return;
      }
      var returned, results := CollectEach(attempts);
      AllGoodIffCounted(results);
      r := if returned then Returned(|results| == |attempts| && CountGood(results) == |results|, results) else Raised;
      if lease.Own? {
        releases := releases + 1;
        if !lease.releases {
          r := Raised;
        }
      }
    }

    /** The loop over the windows (lines 112-137); false is an exception. */
    method CollectEach(attempts: seq<Attempt>) returns (returned: bool, results: seq<Verdict>)
      modifies this`calls, this`posts, this`snapshots, this`downloads
      ensures !config ==> posts == old(posts) && snapshots == old(snapshots)
      ensures returned ==> NeverBreaks(attempts)
      ensures Reliable() && NeverBreaks(attempts) ==> returned
      ensures returned ==>
        && results == Verdicts(attempts)
        && downloads == old(downloads) + Downloaded(attempts)
        && (config ==> posts == old(posts) + PostsFor(results) && snapshots == old(snapshots) + Sent(attempts))
    {
      returned, results := true, [];
      StopAtIsFirst(attempts, 0);
      var i, stopped := 0, false;
      while i < |attempts| && !stopped
        invariant i <= |attempts| && returned
        invariant forall k :: 0 <= k < i ==> !attempts[k].Breaks?
        invariant Reached(attempts, i, stopped, results)
        invariant downloads == old(downloads) + UpTo(i)
        invariant posts == old(posts) + if config then PostsFor(results) else []
        invariant snapshots == old(snapshots) + if config then ParsedBelow(attempts, i) else []
      {
        ghost var before := results;
        StopAtIsFirst(attempts, i);
        returned, stopped, results := CollectOne(attempts, i, results);
        if !returned {
          return;
        }
        PostsForMore(old(posts), before, results);
        Associates(old(downloads), UpTo(i), [i]);
        Associates(old(snapshots), ParsedBelow(attempts, i), ParsedAt(attempts, i));
        i := i + 1;
      }
      ReachedEnd(attempts, i, stopped, results);
    }

    /** One turn of the loop (lines 112-137). */
    method CollectOne(attempts: seq<Attempt>, i: nat, results0: seq<Verdict>)
      returns (ok: bool, stopped: bool, results: seq<Verdict>)
      requires i < |attempts| && Reached(attempts, i, false, results0)
      modifies this`calls, this`posts, this`snapshots, this`downloads
      ensures downloads == old(downloads) + [i]
      ensures ok ==> snapshots == old(snapshots) + if config then ParsedAt(attempts, i) else []
      ensures !config ==> snapshots == old(snapshots)
      ensures ok ==> !attempts[i].Breaks?
      ensures Reliable() && !attempts[i].Breaks? ==> ok
      ensures ok ==> Reached(attempts, i + 1, stopped, results) && results0 <= results
      ensures ok ==> posts == old(posts) + (if config then PostsFor(results[|results0|..]) else [])
      ensures !config ==> posts == old(posts)
    {
      downloads := downloads + [i];
      stopped := false;
      match attempts[i]
      case Breaks =>
        ok, results := false, results0;
      case Parsed(rows) =>
        ok := SendSnapshot(i);
        results := results0 + [GoodVerdict(i, rows)];
        GoodStep(attempts, i, results0, rows);
      case Fails(code) =>
        stopped := Terminal(code);
        ok, results := FailPending(i, if stopped then |attempts| else i + 1, code, results0);
        if ok {
          FailedStep(attempts, i, results0, code, results);
        }
    }

    /** batch_result: the record of the whole run. */
    method PostBatch(status: BatchStatus, expected: nat, verified: nat) returns (ok: bool)
      modifies this`calls, this`batch
      ensures ok == apiOk(old(calls))
      ensures batch == if ok then old(batch) + [BatchRecord(status, expected, verified)] else old(batch)
    {
      ok := Call();
      if ok {
        batch := batch + [BatchRecord(status, expected, verified)];
      }
    }

    /** collect (lines 150-168). */
    method Collect(attempts: seq<Attempt>, lease: Lease) returns (r: Outcome)
      requires attempts != []
      modifies this
      ensures !config ==> batch == old(batch) && posts == old(posts)
      ensures Reliable() ==> (r.Returned? <==> Leased(lease) && NeverBreaks(attempts)) && (r == Unavailable <==> lease.Unleased?)
      ensures (r != Raised || Reliable()) && config ==>
        batch == old(batch) + [BatchRecord(BatchRunning, |attempts|, 0), Closing(|attempts|, Verified(r))]
      ensures r.Returned? ==> r.results == Verdicts(attempts) && downloads == old(downloads) + Downloaded(attempts)
    {
      if config {
        var ok := Call();
        if ok {
          ok := PostBatch(BatchRunning, |attempts|, 0);
        }
        if !ok {
          return Raised;
        }
      }
      r := CollectWindows(attempts, lease);
      if config {
        var ok;
        match r {
          case Raised =>
            ok := PostBatch(BatchFailed, |attempts|, 0);
          case Unavailable =>
            ok := PostBatch(BatchFailed, |attempts|, 0);
          case Returned(good, results) =>
            AllGoodIffCounted(results);
            OneVerdictPerWindow(attempts);
            ok := PostBatch(if good then BatchSucceeded else BatchFailed, |attempts|, CountGood(results));
        }
        ghost var opening, closing := BatchRecord(BatchRunning, |attempts|, 0), Closing(|attempts|, Verified(r));
        Associates(old(batch), [opening], [closing]);
        assert [opening] + [closing] == [opening, closing];
        if !ok {
          r := Raised;
        }
      }
    }
  }
}
