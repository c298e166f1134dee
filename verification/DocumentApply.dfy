/**
 Applying an approved document result to the user's folder, file by file
 (execute, lines 362-380 of scripts/supervisor/runner.py), while other programs may edit
 the folder and the workspace the result was made in, and the machine may crash.

 A file is represented by the SHA-256 digest of its bytes, taken as collision-free.
 */
module DocumentApply {
  import opened Options

  type Path = string
  type Digest = string
  type Tree = map<Path, Digest>

  datatype Entry = Entry(path: Path, digest: Digest)

  /** The two approved lists, each in its own order: the bound sources and the wanted results. */
  datatype Job = Job(bound: seq<Entry>, wanted: seq<Entry>)

  /** next(f for f in bound if f.path == path). */
  function SourceIn(bound: seq<Entry>, path: Path): Option<Digest> {
    if bound == [] then None
    else if bound[0].path == path then Some(bound[0].digest)
    else SourceIn(bound[1..], path)
  }

  function Paths(entries: seq<Entry>): set<Path> {
    set entry | entry in entries :: entry.path
  }

  /** The two lists name the same files (lines 364-367). */
  predicate SamePaths(job: Job) {
    Paths(job.bound) == Paths(job.wanted)
  }

  lemma {:induction false} SourceIsBound(bound: seq<Entry>, path: Path)
    ensures SourceIn(bound, path).Some? <==> path in Paths(bound)
    ensures SourceIn(bound, path).Some? ==> Entry(path, SourceIn(bound, path).value) in bound
  {
    if bound != [] {
      SourceIsBound(bound[1..], path);
      assert Paths(bound) == {bound[0].path} + Paths(bound[1..]);
    }
  }

  /** Where the loop stands with the next entry. The workspace copy is read again for each one. */
  datatype Phase = Ready | Checked | Copied(digest: Digest)

  /**
   The verifications before the loop have seen the first `seenCopies` workspace copies and
   the first `seenFiles` files; `written` is what the loop has installed, entry by entry.
   */
  datatype State = State(files: Tree, copies: Tree, seenCopies: nat, seenFiles: nat, phase: Phase, written: seq<Digest>)

  datatype Action =
    | Edit(path: Path, digest: Digest)         // another program writes to the folder
    | Remove(path: Path)
    | EditCopy(path: Path, digest: Digest)     // another program writes to the workspace
    | RemoveCopy(path: Path)
    | SeeCopy(i: nat) | SeeFile(i: nat)        // a verification sees what it expects
    | Check | Copy | Replace

  type Foreign = a: Action | a.Edit? || a.Remove? || a.EditCopy? || a.RemoveCopy? witness Remove("")

  function Next(job: Job, s: State): Entry
    requires |s.written| < |job.wanted|
  {
    job.wanted[|s.written|]
  }

  /** The bound source of the next file. */
  function Source(job: Job, s: State): Option<Digest>
    requires |s.written| < |job.wanted|
  {
    SourceIn(job.bound, Next(job, s).path)
  }

  function Content(files: Tree, path: Path): Option<Digest> {
    if path in files then Some(files[path]) else None
  }

  predicate Enabled(job: Job, s: State, a: Action) {
    match a
    case SeeCopy(i) =>
      s.phase.Ready? && i == s.seenCopies < |job.wanted| && Content(s.copies, job.wanted[i].path) == Some(job.wanted[i].digest)
    case SeeFile(i) =>
      && s.phase.Ready? && s.seenCopies == |job.wanted|
      && i == s.seenFiles < |job.bound| && Content(s.files, job.bound[i].path) == Some(job.bound[i].digest)
    case Check =>
      && s.phase.Ready? && s.seenCopies == |job.wanted| && s.seenFiles == |job.bound|
      && |s.written| < |job.wanted| && Content(s.files, Next(job, s).path).Some?
      && Content(s.files, Next(job, s).path) == Source(job, s)
    case Copy => s.phase.Checked? && |s.written| < |job.wanted| && Next(job, s).path in s.copies
    case Replace => s.phase.Copied? && |s.written| < |job.wanted|
    case _ => true
  }

  function Apply(job: Job, s: State, a: Action): State
    requires Enabled(job, s, a)
  {
    match a
    case Edit(path, digest) => s.(files := s.files[path := digest])
    case Remove(path) => s.(files := s.files - {path})
    case EditCopy(path, digest) => s.(copies := s.copies[path := digest])
    case RemoveCopy(path) => s.(copies := s.copies - {path})
    case SeeCopy(_) => s.(seenCopies := s.seenCopies + 1)
    case SeeFile(_) => s.(seenFiles := s.seenFiles + 1)
    case Check => s.(phase := Checked)
    case Copy => s.(phase := Copied(s.copies[Next(job, s).path]))
    case Replace =>
      s.(files := s.files[Next(job, s).path := s.phase.digest], phase := Ready, written := s.written + [s.phase.digest])
  }

  /** The moments of a run and the actions between them. A crash is where it ends. */
  datatype History = History(states: seq<State>, acts: seq<Action>)

  predicate Initial(s: State) {
    s.seenCopies == 0 && s.seenFiles == 0 && s.phase.Ready? && s.written == []
  }

  predicate Legal(job: Job, h: History) {
    && |h.states| == |h.acts| + 1
    && Initial(h.states[0])
    && (forall i :: 0 <= i < |h.acts| ==> Enabled(job, h.states[i], h.acts[i]) && h.states[i + 1] == Apply(job, h.states[i], h.acts[i]))
  }

  // ------------------------------------------ what others did, from the actions

  /** What the edits among the first `n` actions left of a file since entry `i` was verified, if there was one. */
  function LastEdit(acts: seq<Action>, n: nat, i: nat, path: Path): Option<Option<Digest>>
    requires n <= |acts|
  {
    if n == 0 then None
    else
      match acts[n - 1]
      case SeeFile(k) => if k == i then None else LastEdit(acts, n - 1, i, path)
      case Edit(p, digest) => if p == path then Some(Some(digest)) else LastEdit(acts, n - 1, i, path)
      case Remove(p) => if p == path then Some(None) else LastEdit(acts, n - 1, i, path)
      case _ => LastEdit(acts, n - 1, i, path)
  }

  /** The same for the edits since the last check. */
  function EditInWindow(acts: seq<Action>, n: nat, path: Path): Option<Option<Digest>>
    requires n <= |acts|
  {
    if n == 0 then None
    else
      match acts[n - 1]
      case Check => None
      case Edit(p, digest) => if p == path then Some(Some(digest)) else EditInWindow(acts, n - 1, path)
      case Remove(p) => if p == path then Some(None) else EditInWindow(acts, n - 1, path)
      case _ => EditInWindow(acts, n - 1, path)
  }

  /** The same for the workspace copy, since entry `i` was verified. */
  function LastCopyEdit(acts: seq<Action>, n: nat, i: nat, path: Path): Option<Option<Digest>>
    requires n <= |acts|
  {
    if n == 0 then None
    else
      match acts[n - 1]
      case SeeCopy(k) => if k == i then None else LastCopyEdit(acts, n - 1, i, path)
      case EditCopy(p, digest) => if p == path then Some(Some(digest)) else LastCopyEdit(acts, n - 1, i, path)
      case RemoveCopy(p) => if p == path then Some(None) else LastCopyEdit(acts, n - 1, i, path)
      case _ => LastCopyEdit(acts, n - 1, i, path)
  }

  /** The edits, if there were any, left this content. */
  predicate Leaves(edit: Option<Option<Digest>>, content: Option<Digest>) {
    edit.Some? ==> edit.value == content
  }

  /** What the loop installed last under a path. */
  function Installed(job: Job, written: seq<Digest>, path: Path): Option<Digest>
    requires |written| <= |job.wanted|
  {
    if written == [] then None
    else if job.wanted[|written| - 1].path == path then Some(written[|written| - 1])
    else Installed(job, written[..|written| - 1], path)
  }

  predicate Distinct(job: Job) {
    forall i, j :: 0 <= i < j < |job.wanted| ==> job.wanted[i].path != job.wanted[j].path
  }

  // ------------------------------------------------------------- claims

  /** Nothing is installed before every copy and every file has been seen. */
  predicate SeenFirst(job: Job, s: State) {
    && s.seenCopies <= |job.wanted| && s.seenFiles <= |job.bound| && |s.written| <= |job.wanted|
    && (s.seenFiles > 0 ==> s.seenCopies == |job.wanted|)
    && (s.phase.Checked? || s.phase.Copied? || s.written != [] ==>
          s.seenCopies == |job.wanted| && s.seenFiles == |job.bound|)
  }

  /** A bound file that nobody has edited since it was seen is its source, or what the loop has installed. */
  predicate OldOrNew(job: Job, h: History, n: nat)
    requires n < |h.states| && n <= |h.acts| && |h.states[n].written| <= |job.wanted|
  {
    forall k :: 0 <= k < |job.bound| && k < h.states[n].seenFiles && LastEdit(h.acts, n, k, job.bound[k].path).None? ==>
      var installed := Installed(job, h.states[n].written, job.bound[k].path);
      Content(h.states[n].files, job.bound[k].path) == if installed.Some? then installed else Some(job.bound[k].digest)
  }

  /**
   Entry `i` was installed as the workspace held it when it was read. That is the approved
   result exactly if no edit of the copy since its verification had left anything else.
   */
  predicate InstalledFromCopy(job: Job, h: History, c: nat, i: nat, digest: Digest)
    requires |h.states| == |h.acts| + 1 && i < |job.wanted|
  {
    && c < |h.acts| && h.acts[c] == Copy && |h.states[c].written| == i
    && Content(h.states[c].copies, job.wanted[i].path) == Some(digest)
    && (digest == job.wanted[i].digest <==> Leaves(LastCopyEdit(h.acts, c, i, job.wanted[i].path), Some(job.wanted[i].digest)))
  }

  /** Some copy before moment `n` was read for entry `i`, and gave this content. */
  ghost predicate CopiedBefore(job: Job, h: History, n: nat, i: nat, digest: Digest)
    requires |h.states| == |h.acts| + 1 && i < |job.wanted|
  {
    exists c: nat :: c < n && InstalledFromCopy(job, h, c, i, digest)
  }

  ghost predicate AllFromCopies(job: Job, h: History, n: nat)
    requires |h.states| == |h.acts| + 1 && n < |h.states| && |h.states[n].written| <= |job.wanted|
  {
    forall i: nat :: i < |h.states[n].written| ==> CopiedBefore(job, h, n, i, h.states[n].written[i])
  }

  /** A replacement that destroys something other than the approved source. */
  predicate Overwrites(job: Job, s: State, a: Action) {
    a == Replace && |s.written| < |job.wanted| && Content(s.files, Next(job, s).path) != Source(job, s)
  }

  // -------------------------------------------------------------- proofs

  /** The file of the entry in hand is its source but for the edits since its check. */
  predicate WindowOk(job: Job, h: History, n: nat)
    requires n < |h.states| && n <= |h.acts|
  {
    var s := h.states[n];
    (s.phase.Checked? || s.phase.Copied?) && |s.written| < |job.wanted| ==>
      var edit := EditInWindow(h.acts, n, Next(job, s).path);
      Content(s.files, Next(job, s).path) == if edit.Some? then edit.value else Source(job, s)
  }

  predicate CopiesOk(job: Job, h: History, n: nat)
    requires n < |h.states| && n <= |h.acts|
  {
    forall i :: 0 <= i < |job.wanted| && i < h.states[n].seenCopies ==>
      var edit := LastCopyEdit(h.acts, n, i, job.wanted[i].path);
      Content(h.states[n].copies, job.wanted[i].path) == if edit.Some? then edit.value else Some(job.wanted[i].digest)
  }

  /** The copy in hand has been read for the next entry. */
  ghost predicate CopyOk(job: Job, h: History, n: nat)
    requires |h.states| == |h.acts| + 1 && n < |h.states|
  {
    var s := h.states[n];
    s.phase.Copied? && |s.written| < |job.wanted| ==> CopiedBefore(job, h, n, |s.written|, s.phase.digest)
  }

  ghost predicate Inv(job: Job, h: History, n: nat)
    requires |h.states| == |h.acts| + 1 && n < |h.states|
  {
    && SeenFirst(job, h.states[n])
    && OldOrNew(job, h, n)
    && WindowOk(job, h, n)
    && CopiesOk(job, h, n)
    && CopyOk(job, h, n)
    && AllFromCopies(job, h, n)
  }

  lemma StepKeepsFiles(job: Job, h: History, n: nat)
    requires Legal(job, h) && n < |h.acts| && Inv(job, h, n)
    ensures SeenFirst(job, h.states[n + 1])
    ensures OldOrNew(job, h, n + 1)
  {
    var s, s', a := h.states[n], h.states[n + 1], h.acts[n];
    assert Enabled(job, s, a) && s' == Apply(job, s, a);
    if a == Replace {
      assert s'.written[..|s.written|] == s.written;
    } else if a.SeeFile? {
      assert s.written == [];
    }
  }

  lemma StepKeepsWindow(job: Job, h: History, n: nat)
    requires Legal(job, h) && n < |h.acts| && Inv(job, h, n)
    ensures WindowOk(job, h, n + 1)
  {
    assert h.states[n + 1] == Apply(job, h.states[n], h.acts[n]);
  }

  lemma StepKeepsCopies(job: Job, h: History, n: nat)
    requires Legal(job, h) && n < |h.acts| && Inv(job, h, n)
    ensures CopiesOk(job, h, n + 1)
  {
    assert h.states[n + 1] == Apply(job, h.states[n], h.acts[n]);
  }

  lemma StepKeepsCopyOk(job: Job, h: History, n: nat)
    requires Legal(job, h) && n < |h.acts| && Inv(job, h, n)
    ensures CopyOk(job, h, n + 1)
  {
    assert Enabled(job, h.states[n], h.acts[n]) && h.states[n + 1] == Apply(job, h.states[n], h.acts[n]);
    if h.acts[n] == Copy {
      assert InstalledFromCopy(job, h, n, |h.states[n].written|, h.states[n + 1].phase.digest);
    }
  }

  lemma StepKeepsInstalled(job: Job, h: History, n: nat)
    requires Legal(job, h) && n < |h.acts| && Inv(job, h, n) && |h.states[n + 1].written| <= |job.wanted|
    ensures AllFromCopies(job, h, n + 1)
  {
    var s, s' := h.states[n], h.states[n + 1];
    assert Enabled(job, s, h.acts[n]) && s' == Apply(job, s, h.acts[n]);
    forall i: nat | i < |s'.written|
      ensures CopiedBefore(job, h, n + 1, i, s'.written[i])
    {
      assert CopiedBefore(job, h, n, i, s'.written[i]);
    }
  }

  lemma {:induction false} HistoryKeepsInv(job: Job, h: History, n: nat)
    requires Legal(job, h) && n < |h.states|
    ensures Inv(job, h, n)
  {
    if n > 0 {
      HistoryKeepsInv(job, h, n - 1);
      StepKeepsFiles(job, h, n - 1);
      StepKeepsWindow(job, h, n - 1);
      StepKeepsCopies(job, h, n - 1);
      StepKeepsCopyOk(job, h, n - 1);
      StepKeepsInstalled(job, h, n - 1);
    }
  }

  /**
   Old or new at every crash point, the new ones a prefix of the list. What is new is what
   the workspace held when it was read, and that is the approved result exactly if no edit
   of the copy since its verification had left anything else.
   */
  lemma EveryCrashPointIsOldOrNew(job: Job, h: History, n: nat)
    requires Legal(job, h) && n < |h.states|
    ensures SeenFirst(job, h.states[n])
    ensures OldOrNew(job, h, n)
    ensures AllFromCopies(job, h, n)
  {
    HistoryKeepsInv(job, h, n);
  }

  /**
   A replacement destroys something other than the approved source if and only if the last
   edit of the file between its check and its replacement left something else.
   */
  lemma OverwritesIffEditedInWindow(job: Job, h: History, r: nat)
    requires Legal(job, h) && r < |h.acts| && h.acts[r] == Replace
    ensures |h.states[r].written| < |job.wanted|
    ensures
      var s := h.states[r];
      Overwrites(job, s, Replace) <==> !Leaves(EditInWindow(h.acts, r, Next(job, s).path), Source(job, s))
  {
    HistoryKeepsInv(job, h, r);
    assert Enabled(job, h.states[r], h.acts[r]);
  }

  /** Without edits of the folder nothing but the approved sources is ever written over. */
  lemma UneditedIsNeverOverwritten(job: Job, h: History, r: nat)
    requires Legal(job, h) && r < |h.acts|
    requires forall a :: a in h.acts ==> !a.Edit? && !a.Remove?
    ensures !Overwrites(job, h.states[r], h.acts[r])
  {
    if h.acts[r] == Replace {
      OverwritesIffEditedInWindow(job, h, r);
      NoEditInWindow(h.acts, r, Next(job, h.states[r]).path);
    }
  }

  lemma {:induction false} NoEditInWindow(acts: seq<Action>, n: nat, path: Path)
    requires n <= |acts| && forall a :: a in acts ==> !a.Edit? && !a.Remove?
    ensures EditInWindow(acts, n, path).None?
  {
    if n > 0 {
      assert acts[n - 1] in acts;
      NoEditInWindow(acts, n - 1, path);
    }
  }

  lemma {:induction false} InstalledIsWritten(job: Job, written: seq<Digest>, i: nat)
    requires Distinct(job) && |written| <= |job.wanted| && i < |job.wanted|
    ensures Installed(job, written, job.wanted[i].path) == if i < |written| then Some(written[i]) else None
  {
    if written != [] {
      InstalledIsWritten(job, written[..|written| - 1], i);
    }
  }

  /**
   Reading a file back that nobody else has edited finds the approved result if and only if
   the workspace copy it was made from had not been left with anything else.
   */
  lemma ReadBackTellsForeignCopies(job: Job, h: History, n: nat, i: nat, k: nat)
    requires Legal(job, h) && Distinct(job) && n < |h.states| && |h.states[n].written| == |job.wanted|
    requires i < |job.wanted| && k < |job.bound| && job.bound[k].path == job.wanted[i].path
    requires LastEdit(h.acts, n, k, job.bound[k].path).None?
    ensures exists c: nat :: c < n && InstalledFromCopy(job, h, c, i, h.states[n].written[i]) &&
              (Content(h.states[n].files, job.wanted[i].path) == Some(job.wanted[i].digest) <==>
               Leaves(LastCopyEdit(h.acts, c, i, job.wanted[i].path), Some(job.wanted[i].digest)))
  {
    HistoryKeepsInv(job, h, n);
    InstalledIsWritten(job, h.states[n].written, i);
    var c: nat :| c < n && InstalledFromCopy(job, h, c, i, h.states[n].written[i]);
  }

  ghost predicate IsLegal(job: Job, states: seq<State>, acts: seq<Action>) {
    Legal(job, History(states, acts))
  }

  /** An edit between check and replacement is written over. */
  lemma EditInWindowIsLost(path: Path, source: Digest, result: Digest, foreign: Digest)
    requires source != foreign
    ensures
      var job := Job([Entry(path, source)], [Entry(path, result)]);
      var s2 := State(map[path := source], map[path := result], 1, 1, Ready, []);
      var s5 := State(map[path := foreign], map[path := result], 1, 1, Copied(result), []);
      var s6 := State(map[path := result], map[path := result], 1, 1, Ready, [result]);
      && IsLegal(job,
           [s2.(seenCopies := 0, seenFiles := 0), s2.(seenFiles := 0), s2, s2.(phase := Checked), s2.(phase := Copied(result)), s5, s6],
           [SeeCopy(0), SeeFile(0), Check, Copy, Edit(path, foreign), Replace])
      && Overwrites(job, s5, Replace)
  {
    assert map[path := source][path := foreign] == map[path := foreign];
    assert map[path := foreign][path := result] == map[path := result];
  }

  /** An edit of the workspace copy after its verification is installed in the user's folder. */
  lemma CopyEditIsInstalled(path: Path, source: Digest, result: Digest, foreign: Digest)
    requires foreign != source && foreign != result
    ensures
      var job := Job([Entry(path, source)], [Entry(path, result)]);
      var s2 := State(map[path := source], map[path := result], 1, 1, Ready, []);
      var s4 := State(map[path := source], map[path := foreign], 1, 1, Checked, []);
      IsLegal(job,
        [s2.(seenCopies := 0, seenFiles := 0), s2.(seenFiles := 0), s2, s2.(phase := Checked), s4, s4.(phase := Copied(foreign)),
         State(map[path := foreign], map[path := foreign], 1, 1, Ready, [foreign])],
        [SeeCopy(0), SeeFile(0), Check, EditCopy(path, foreign), Copy, Replace])
  {
    assert map[path := source][path := foreign] == map[path := foreign];
    assert map[path := result][path := foreign] == map[path := foreign];
  }

  // ---------------------------------------------------- the program itself

  /** What happens before the program's next operation: edits, and possibly its end. */
  datatype Moment = Moment(edits: seq<Foreign>, ends: bool)

  /** Refused is the program's own exception; Ended a crash or a failed system call. */
  datatype Outcome = Completed | Refused | Ended

  /** How reading a file that should hold this content ends. */
  function Compared(content: Option<Digest>, expected: Digest): (r: Outcome)
    ensures r.Completed? <==> content == Some(expected)
    ensures r.Ended? <==> content.None?
  {
    if content.None? then Ended else if content.value == expected then Completed else Refused
  }

  predicate Extends(earlier: History, later: History) {
    |earlier.states| <= |later.states| && |earlier.acts| <= |later.acts|
    && later.states[..|earlier.states|] == earlier.states && later.acts[..|earlier.acts|] == earlier.acts
  }

  predicate SameProgress(s: State, s': State) {
    s'.(files := s.files, copies := s.copies) == s
  }

  /** The tree with the first `k` results installed. */
  function Applied(job: Job, files: Tree, k: nat): Tree
    requires k <= |job.wanted|
  {
    if k == 0 then files else Applied(job, files, k - 1)[job.wanted[k - 1].path := job.wanted[k - 1].digest]
  }

  predicate HasAll(tree: Tree, entries: seq<Entry>) {
    forall entry :: entry in entries ==> Content(tree, entry.path) == Some(entry.digest)
  }

  /** The first entry that does not hold what it should is not there at all. */
  predicate FirstBadIsMissing(tree: Tree, entries: seq<Entry>) {
    exists k :: 0 <= k < |entries| && entries[k].path !in tree && HasAll(tree, entries[..k])
  }

  /** The lists fit together, and folder and workspace hold what they say. */
  predicate Holds(job: Job, files: Tree, copies: Tree) {
    SamePaths(job) && HasAll(files, job.bound) && HasAll(copies, job.wanted)
  }

  lemma {:induction false} AppliedContent(job: Job, files: Tree, k: nat, i: nat)
    requires Distinct(job) && k <= |job.wanted| && i < |job.wanted|
    ensures Content(Applied(job, files, k), job.wanted[i].path) == if i < k then Some(job.wanted[i].digest) else Content(files, job.wanted[i].path)
  {
    if k > 0 {
      AppliedContent(job, files, k - 1, i);
    }
  }

  lemma FirstBadAt(tree: Tree, entries: seq<Entry>, k: nat)
    requires k < |entries| && HasAll(tree, entries[..k]) && Content(tree, entries[k].path) != Some(entries[k].digest)
    ensures FirstBadIsMissing(tree, entries) <==> entries[k].path !in tree
    ensures !HasAll(tree, entries)
  {
    assert entries[k] in entries;
    assert forall i, j :: 0 <= j < i <= |entries| ==> entries[j] in entries[..i];
  }

  lemma GoodTreeHasNoBad(tree: Tree, entries: seq<Entry>)
    requires HasAll(tree, entries)
    ensures !FirstBadIsMissing(tree, entries)
  {
    forall k | 0 <= k < |entries|
      ensures entries[k].path in tree
    {
      assert entries[k] in entries;
    }
  }

  class Folder {
    const job: Job
    const world: nat -> Moment
    var files: Tree
    var copies: Tree
    var time: nat
    ghost var history: History

    ghost predicate Valid() reads this {
      && Legal(job, history)
      && Now().files == files && Now().copies == copies
    }

    ghost function Now(): State
      requires Legal(job, history)
      reads this
    {
      history.states[|history.acts|]
    }

    /** Nobody else writes to the folder or to the workspace. */
    ghost predicate Unedited() {
      forall t :: world(t).edits == []
    }

    /** With `good` input a step completes unless the program ends; otherwise it does not complete. */
    ghost predicate AsExpected(r: Outcome, good: bool) {
      if good then !r.Refused? && (r.Ended? ==> exists t :: world(t).ends) else !r.Completed?
    }

    ghost predicate Steady() {
      forall t :: !world(t).ends
    }

    ghost predicate Claimed(n: nat)
      requires Legal(job, history) && n < |history.states|
      reads this
    {
      SeenFirst(job, history.states[n]) && OldOrNew(job, history, n) && AllFromCopies(job, history, n)
    }

    ghost predicate OverwritesAsEdited(n: nat)
      requires Legal(job, history) && n < |history.acts|
      reads this
    {
      && |history.states[n].written| < |job.wanted|
      && var s := history.states[n];
         (Overwrites(job, s, Replace) <==> !Leaves(EditInWindow(history.acts, n, Next(job, s).path), Source(job, s)))
    }

    /** At moment `n`, after the last replacement, file `i` held its approved result. */
    ghost predicate SeenBack(n: nat, i: nat)
      requires i < |job.wanted| && |history.states| == |history.acts| + 1
      reads this
    {
      && n < |history.states| && |history.states[n].written| == |job.wanted|
      && Content(history.states[n].files, job.wanted[i].path) == Some(job.wanted[i].digest)
    }

    /** A bound file that nobody has edited since it was seen. */
    ghost predicate Untouched(n: nat, path: Path)
      requires n <= |history.acts|
      reads this
    {
      exists k: nat :: k < |job.bound| && job.bound[k].path == path && LastEdit(history.acts, n, k, path).None?
    }

    /** Everything has been seen, and the file of entry `i` is the next to be replaced. */
    ghost predicate MayReplace(i: nat)
      requires Legal(job, history)
      reads this
    {
      && SamePaths(job) && Now().phase.Ready? && Now().seenCopies == |job.wanted| && Now().seenFiles == |job.bound|
      && i == |Now().written| < |job.wanted|
    }

    /** What was seen back in file `i`, if nobody else had edited it, the program installed. */
    ghost predicate OwnResult(n: nat, i: nat)
      requires Legal(job, history) && i < |job.wanted| && SeenBack(n, i)
      reads this
    {
      Distinct(job) && Untouched(n, job.wanted[i].path) ==> history.states[n].written[i] == job.wanted[i].digest
    }

    lemma ClaimsHold()
      requires Legal(job, history)
      ensures forall n: nat :: n < |history.states| ==> Claimed(n)
      ensures forall n: nat :: n < |history.acts| && history.acts[n] == Replace ==> OverwritesAsEdited(n)
    {
      forall n: nat | n < |history.states| ensures Claimed(n) {
        EveryCrashPointIsOldOrNew(job, history, n);
      }
      forall n: nat | n < |history.acts| && history.acts[n] == Replace ensures OverwritesAsEdited(n) {
        OverwritesIffEditedInWindow(job, history, n);
      }
    }

    lemma SeenBackIsOwn(n: nat, i: nat)
      requires Legal(job, history) && i < |job.wanted| && SeenBack(n, i)
      ensures OwnResult(n, i)
    {
      if Distinct(job) && Untouched(n, job.wanted[i].path) {
        EveryCrashPointIsOldOrNew(job, history, n);
        InstalledIsWritten(job, history.states[n].written, i);
      }
    }

    constructor (job: Job, world: nat -> Moment, files: Tree, copies: Tree)
      ensures Valid() && this.job == job && this.world == world && this.files == files && this.copies == copies
      ensures history.acts == []
    {
      this.job, this.world, this.files, this.copies, time := job, world, files, copies, 0;
      history := History([State(files, copies, 0, 0, Ready, [])], []);
    }

    ghost method Note(a: Action)
      requires Legal(job, history) && Enabled(job, Now(), a)
      requires files == Apply(job, Now(), a).files && copies == Apply(job, Now(), a).copies
      modifies this`history
      ensures Valid() && Extends(old(history), history)
      ensures |history.acts| == |old(history.acts)| + 1 && Now() == Apply(job, old(Now()), a)
    {
      history := History(history.states + [Apply(job, Now(), a)], history.acts + [a]);
    }

    /** Others act, and the program may end here. */
    method Elapse() returns (ends: bool)
      requires Valid()
      modifies this
      ensures Valid() && Extends(old(history), history) && SameProgress(old(Now()), Now())
      ensures time > old(time) && ends == world(old(time)).ends
      ensures world(old(time)).edits == [] ==> files == old(files) && copies == old(copies)
    {
      var moment := world(time);
      time := time + 1;
      for k := 0 to |moment.edits|
        invariant Valid() && Extends(old(history), history) && SameProgress(old(Now()), Now())
        invariant time == old(time) + 1
        invariant k == 0 ==> files == old(files) && copies == old(copies)
      {
        match moment.edits[k] {
          case Edit(path, digest) => files := files[path := digest];
          case Remove(path) => files := files - {path};
          case EditCopy(path, digest) => copies := copies[path := digest];
          case RemoveCopy(path) => copies := copies - {path};
        }
        Note(moment.edits[k]);
      }
      ends := moment.ends;
    }

    method VerifyCopy(k: nat) returns (r: Outcome)
      requires Valid() && Now().phase.Ready? && k == Now().seenCopies < |job.wanted|
      modifies this
      ensures Valid() && Extends(old(history), history) && time > old(time)
      ensures r == if world(old(time)).ends then Ended else Compared(Content(copies, job.wanted[k].path), job.wanted[k].digest)
      ensures Now() == old(Now()).(files := files, copies := copies, seenCopies := if r.Completed? then k + 1 else k)
      ensures world(old(time)).edits == [] ==> files == old(files) && copies == old(copies)
    {
      var ends := Elapse();
      r := if ends then Ended else Compared(Content(copies, job.wanted[k].path), job.wanted[k].digest);
      if r.Completed? { Note(SeeCopy(k)); }
    }

    /** verify_result on the workspace: each copy holds its approved result when it is read. */
    method VerifyCopies() returns (r: Outcome)
      requires Valid() && Initial(Now())
      modifies this
      ensures Valid() && Extends(old(history), history) && time >= old(time)
      ensures SameProgress(old(Now()).(seenCopies := Now().seenCopies), Now())
      ensures r.Completed? ==> Now().seenCopies == |job.wanted|
      ensures Unedited() ==> files == old(files) && copies == old(copies)
      ensures Unedited() ==> AsExpected(r, HasAll(copies, job.wanted))
      ensures Unedited() && Steady() ==> (r.Ended? <==> FirstBadIsMissing(copies, job.wanted))
    {
      for k := 0 to |job.wanted|
        invariant Valid() && Extends(old(history), history) && time >= old(time)
        invariant Now() == old(Now()).(files := files, copies := copies, seenCopies := k)
        invariant Unedited() ==> files == old(files) && copies == old(copies)
        invariant Unedited() ==> forall i :: 0 <= i < k ==> Content(copies, job.wanted[i].path) == Some(job.wanted[i].digest)
      {
        r := VerifyCopy(k);
        if !r.Completed? {
          if Unedited() && Steady() { FirstBadAt(copies, job.wanted, k); }
          return;
        }
      }
      if Unedited() { GoodTreeHasNoBad(copies, job.wanted); }
      r := Completed;
    }

    /** A file that is not there is refused here. */
    method VerifySource(k: nat) returns (r: Outcome)
      requires Valid() && Now().phase.Ready? && Now().seenCopies == |job.wanted| && k == Now().seenFiles < |job.bound|
      modifies this
      ensures Valid() && Extends(old(history), history) && time > old(time)
      ensures r ==
        if world(old(time)).ends then Ended else if Content(files, job.bound[k].path) == Some(job.bound[k].digest) then Completed else Refused
      ensures Now() == old(Now()).(files := files, copies := copies, seenFiles := if r.Completed? then k + 1 else k)
      ensures world(old(time)).edits == [] ==> files == old(files) && copies == old(copies)
    {
      var ends := Elapse();
      if ends { return Ended; }
      if Content(files, job.bound[k].path) != Some(job.bound[k].digest) { return Refused; }
      r := Completed;
      Note(SeeFile(k));
    }

    /** verify_binding on the folder: each file holds its bound source when it is read. */
    method VerifyBinding() returns (r: Outcome)
      requires Valid() && Now().seenCopies == |job.wanted| && Now().seenFiles == 0 && Now().phase.Ready?
      modifies this
      ensures Valid() && Extends(old(history), history) && time >= old(time)
      ensures SameProgress(old(Now()).(seenFiles := Now().seenFiles), Now())
      ensures r.Completed? ==> Now().seenFiles == |job.bound|
      ensures Unedited() ==> files == old(files) && copies == old(copies)
      ensures Unedited() ==> AsExpected(r, HasAll(files, job.bound))
      ensures Steady() ==> !r.Ended?
    {
      for k := 0 to |job.bound|
        invariant Valid() && Extends(old(history), history) && time >= old(time)
        invariant Now() == old(Now()).(files := files, copies := copies, seenFiles := k)
        invariant Unedited() ==> files == old(files) && copies == old(copies)
        invariant Unedited() ==> forall i :: 0 <= i < k ==> Content(files, job.bound[i].path) == Some(job.bound[i].digest)
      {
        r := VerifySource(k);
        if !r.Completed? { return; }
      }
      r := Completed;
    }

    /** The check of one file right before it is written, against its entry in the bound list. */
    method CheckNext(i: nat) returns (r: Outcome)
      requires Valid() && MayReplace(i)
      modifies this
      ensures Valid() && Extends(old(history), history) && time > old(time)
      ensures SourceIn(job.bound, job.wanted[i].path).Some?
      ensures r ==
        if world(old(time)).ends then Ended
        else Compared(Content(files, job.wanted[i].path), SourceIn(job.bound, job.wanted[i].path).value)
      ensures Now() == old(Now()).(files := files, copies := copies, phase := if r.Completed? then Checked else Ready)
      ensures world(old(time)).edits == [] ==> files == old(files) && copies == old(copies)
    {
      var ends := Elapse();
      var before := SourceIn(job.bound, job.wanted[i].path);
      SourceIsBound(job.bound, job.wanted[i].path);
      assert job.wanted[i].path in Paths(job.wanted);
      r := if ends then Ended else Compared(Content(files, job.wanted[i].path), before.value);
      if r.Completed? { Note(Check); }
    }

    /** The workspace copy is read once more, and written to a temporary file. */
    method CopyNext(i: nat) returns (r: Outcome, digest: Digest)
      requires Valid() && Now().phase.Checked? && i == |Now().written| < |job.wanted|
      modifies this
      ensures Valid() && Extends(old(history), history) && time > old(time)
      ensures r == if world(old(time)).ends || job.wanted[i].path !in copies then Ended else Completed
      ensures r.Completed? ==> Content(copies, job.wanted[i].path) == Some(digest)
      ensures Now() == old(Now()).(files := files, copies := copies, phase := if r.Completed? then Copied(digest) else Checked)
      ensures world(old(time)).edits == [] ==> files == old(files) && copies == old(copies)
    {
      var ends := Elapse();
      if ends || job.wanted[i].path !in copies { return Ended, ""; }
      r, digest := Completed, copies[job.wanted[i].path];
      Note(Copy);
    }

    method Install(i: nat, digest: Digest)
      requires Valid() && Now().phase == Copied(digest) && i == |Now().written| < |job.wanted|
      modifies this`files, this`history
      ensures Valid() && Extends(old(history), history) && |history.acts| == |old(history.acts)| + 1
      ensures files == old(files)[job.wanted[i].path := digest]
      ensures Now() == old(Now()).(files := files, phase := Ready, written := old(Now()).written + [digest])
    {
      files := files[job.wanted[i].path := digest];
      Note(Replace);
    }

    /** The temporary file takes the mode of the file it replaces, which must still be there. */
    method SwapNext(i: nat, digest: Digest) returns (r: Outcome)
      requires Valid() && Now().phase == Copied(digest) && i == |Now().written| < |job.wanted|
      modifies this
      ensures Valid() && Extends(old(history), history) && time > old(time)
      ensures r.Completed? || r.Ended?
      ensures r.Completed? ==>
        && files == history.states[|history.acts| - 1].files[job.wanted[i].path := digest]
        && Now() == old(Now()).(files := files, copies := copies, phase := Ready, written := old(Now()).written + [digest])
      ensures r.Ended? ==> SameProgress(old(Now()), Now())
      ensures Unedited() ==> copies == old(copies)
      ensures Unedited() ==> AsExpected(r, job.wanted[i].path in old(files))
      ensures Unedited() && r.Completed? ==> files == old(files)[job.wanted[i].path := digest]
    {
      var ends := Elapse();
      if ends || job.wanted[i].path !in files { return Ended; }
      ends := Elapse();
      if ends { return Ended; }
      Install(i, digest);
      r := Completed;
    }

    /** Check, copy and replacement of the next file. */
    method ReplaceNext(i: nat) returns (r: Outcome)
      requires Valid() && MayReplace(i)
      modifies this
      ensures Valid() && Extends(old(history), history) && time > old(time)
      ensures r.Completed? ==> Now().phase.Ready? && Now().seenCopies == |job.wanted| && Now().seenFiles == |job.bound| && |Now().written| == i + 1
      ensures
        Unedited() && SourceIn(job.bound, job.wanted[i].path).Some?
        && Content(old(files), job.wanted[i].path) == SourceIn(job.bound, job.wanted[i].path)
        && Content(old(copies), job.wanted[i].path) == Some(job.wanted[i].digest)
        ==> AsExpected(r, true)
      ensures Unedited() && r.Completed? && Content(old(copies), job.wanted[i].path) == Some(job.wanted[i].digest) ==>
        copies == old(copies) && files == old(files)[job.wanted[i].path := job.wanted[i].digest]
    {
      r := CheckNext(i);
      if !r.Completed? { return; }
      var digest;
      r, digest := CopyNext(i);
      if !r.Completed? { return; }
      r := SwapNext(i, digest);
    }

    /** The loop over the list. */
    method ReplaceAll() returns (r: Outcome)
      requires Valid() && SamePaths(job) && Now().phase.Ready? && Now().written == []
      requires Now().seenCopies == |job.wanted| && Now().seenFiles == |job.bound|
      modifies this
      ensures Valid() && Extends(old(history), history)
      ensures r.Completed? ==> |Now().written| == |job.wanted|
      ensures Unedited() && Distinct(job) && Holds(job, old(files), old(copies)) ==>
        AsExpected(r, true) && (r.Completed? ==> files == Applied(job, old(files), |job.wanted|))
    {
      for i := 0 to |job.wanted|
        invariant Valid() && Extends(old(history), history)
        invariant Now().phase.Ready? && Now().seenCopies == |job.wanted| && Now().seenFiles == |job.bound| && |Now().written| == i
        invariant Unedited() && Distinct(job) && Holds(job, old(files), old(copies)) ==>
          copies == old(copies) && files == Applied(job, old(files), i)
      {
        if Distinct(job) { AppliedContent(job, old(files), i, i); }
        SourceIsBound(job.bound, job.wanted[i].path);
        assert job.wanted[i].path in Paths(job.wanted) && job.wanted[i] in job.wanted;
        r := ReplaceNext(i);
        if !r.Completed? { return; }
      }
      r := Completed;
    }

    method VerifyThenReplace() returns (r: Outcome)
      requires Valid() && history.acts == []
      modifies this
      ensures Valid() && Extends(old(history), history)
      ensures r.Completed? ==> |Now().written| == |job.wanted|
      ensures Unedited() && Distinct(job) && Steady() ==> (r.Ended? <==> FirstBadIsMissing(old(copies), job.wanted))
      ensures Unedited() && Distinct(job) ==>
        && AsExpected(r, Holds(job, old(files), old(copies)))
        && (r.Completed? ==> files == Applied(job, old(files), |job.wanted|))
        && (r.Completed? ==> HasAll(files, job.wanted))
    {
      r := VerifyCopies();
      if !r.Completed? { return; }
      if !SamePaths(job) { return Refused; }
      r := VerifyBinding();
      if !r.Completed? { return; }
      r := ReplaceAll();
      if Distinct(job) {
        forall i | 0 <= i < |job.wanted|
          ensures Content(Applied(job, old(files), |job.wanted|), job.wanted[i].path) == Some(job.wanted[i].digest)
        {
          AppliedContent(job, old(files), |job.wanted|, i);
        }
      }
    }

    /** verify_result on the folder, after the last replacement. */
    method ReadBack() returns (r: Outcome, ghost seen: seq<nat>)
      requires Valid() && |Now().written| == |job.wanted|
      modifies this
      ensures Valid() && Extends(old(history), history) && time >= old(time)
      ensures SameProgress(old(Now()), Now())
      ensures r.Completed? ==> |seen| == |job.wanted| && forall i :: 0 <= i < |job.wanted| ==> SeenBack(seen[i], i)
      ensures Unedited() ==> files == old(files) && copies == old(copies)
      ensures Unedited() ==> AsExpected(r, HasAll(files, job.wanted))
    {
      seen := [];
      for k := 0 to |job.wanted|
        invariant Valid() && Extends(old(history), history) && time >= old(time)
        invariant SameProgress(old(Now()), Now())
        invariant |seen| == k && forall i :: 0 <= i < k ==> SeenBack(seen[i], i)
        invariant Unedited() ==> files == old(files) && copies == old(copies)
        invariant Unedited() ==> forall i :: 0 <= i < k ==> Content(files, job.wanted[i].path) == Some(job.wanted[i].digest)
      {
        var ends := Elapse();
        r := if ends then Ended else Compared(Content(files, job.wanted[k].path), job.wanted[k].digest);
        if !r.Completed? { return; }
        seen := seen + [|history.acts|];
      }
      r := Completed;
    }

    /** The approved list, from the verification in the workspace to the readback. */
    method ApplyAll() returns (r: Outcome, ghost seen: seq<nat>)
      requires Valid() && history.acts == []
      modifies this
      ensures Valid() && Extends(old(history), history)
      ensures forall n: nat :: n < |history.states| ==> Claimed(n)
      ensures forall n: nat :: n < |history.acts| && history.acts[n] == Replace ==> OverwritesAsEdited(n)
      ensures r.Completed? ==> |seen| == |job.wanted| && forall i :: 0 <= i < |job.wanted| ==> SeenBack(seen[i], i) && OwnResult(seen[i], i)
      ensures Unedited() && Distinct(job) && Steady() ==> (r.Ended? <==> FirstBadIsMissing(old(copies), job.wanted))
      ensures Unedited() && Distinct(job) ==>
        && AsExpected(r, Holds(job, old(files), old(copies)))
        && (r.Completed? ==> files == Applied(job, old(files), |job.wanted|))
    {
      seen := [];
      r := VerifyThenReplace();
      if r.Completed? {
        r, seen := ReadBack();
      }
      ClaimsHold();
      forall i | 0 <= i < |job.wanted| && r.Completed? ensures OwnResult(seen[i], i) {
        SeenBackIsOwn(seen[i], i);
      }
    }
  }
}
