/**
 The resumable poster of scripts/preview-slack-format.ts (lines 13-39) with the delivery it
 drives in src/lib/notifications/channel.ts (lines 55-165): reruns and crashes around a
 state file that is overwritten in place.

 `made` lists the messages Slack has created, known to the poster or not. Slack's answers,
 the crashes and the rewrites cut short are arbitrary; the one assumption is that an answer
 other than "outcome unknown" tells the truth about whether a message was created.
 */
module SlackPoster {
  import opened Options

  type Id = nat
  type Timestamp = nat

  /** An example, the number of messages it renders to, and whether an image is attached. */
  datatype Example = Example(id: Id, pages: nat, image: bool)

  datatype Phase = Started | Confirmed

  datatype PageReceipt = PageReceipt(state: Phase, messageId: Option<Timestamp>)

  datatype FileReceipt = FileReceipt(checksum: nat, uploaded: bool, complete: bool, messageTs: Option<Timestamp>)

  /** state[example.id]. */
  datatype Item = Item(
    done: bool,
    messageId: Option<Timestamp>,
    postState: Option<Phase>,
    file: Option<FileReceipt>,
    pages: seq<PageReceipt>)

  const NOTHING := Item(false, None, None, None, [])

  /** state.json; a rewrite that was cut short leaves text that does not parse. */
  datatype Disk = Missing | Torn | Saved(items: map<Id, Item>)

  /** A message on Slack: page 0 is the root message or the shared file, the rest follow it. */
  datatype Post = Post(id: Id, page: nat)

  /** A DeliveryResult; `unknown` is SLACK_DELIVERY_OUTCOME_UNKNOWN. */
  datatype Delivery = Delivered(messageId: Timestamp) | Undelivered(unknown: bool)

  /** The answer of slackApi to a call that creates. */
  datatype Sent = Accepted(messageId: Option<Timestamp>) | Refused | Unclear

  /** The calls of Slack that create no message, with their outcome. */
  datatype Request = BeginUpload(id: Id) | StoreBytes(id: Id) | FindShare(id: Id) | UpdateMessage(post: Post)

  datatype Asked = Asked(request: Request, ok: bool)

  datatype Alive<+T> = Return(value: T) | Dead {
    predicate IsFailure() { Dead? }
    function PropagateFailure<U>(): Alive<U> requires Dead? { Alive.Dead }
    function Extract(): T requires Return? { value }
  }

  /** How a run ends: every example delivered, or an error message and exit code 1. */
  datatype Ending = Completed | Stopped

  function Find(items: map<Id, Item>, id: Id): Item {
    if id in items then items[id] else NOTHING
  }

  // ------------------------------------------------------ what is kept

  predicate Complete(item: Item) {
    item.file.Some? && item.file.value.complete
  }

  /** A receipt per following page, of which only the last can be open. */
  predicate PagesOk(item: Item, made: seq<Post>, e: Example) {
    && (item.pages == [] || |item.pages| < e.pages)
    && (forall i :: 0 <= i < |item.pages| ==>
          && (item.pages[i].state == Confirmed <==> item.pages[i].messageId.Some?)
          && (item.pages[i].state == Confirmed ==> Post(e.id, i + 1) in made)
          && (item.pages[i].state == Started ==> i == |item.pages| - 1))
    && (forall p :: p in made && p.id == e.id && p.page > 0 ==> p.page <= |item.pages|)
  }

  predicate RootOk(item: Item, made: seq<Post>, e: Example) {
    && (Post(e.id, 0) in made ==> item.postState.Some?)
    && (item.postState == Some(Confirmed) ==> Post(e.id, 0) in made)
    && (item.postState == Some(Confirmed) <==> item.messageId.Some?)
    && (item.messageId.None? ==> item.pages == [])
    && (Complete(item) ==> Post(e.id, 0) in made)
    && (e.image && item.messageId.Some? ==> Complete(item))
    && (item.file.Some? && item.file.value.messageTs.Some? ==> Complete(item))
  }

  predicate AllPagesConfirmed(item: Item, e: Example) {
    |item.pages| + 1 == e.pages && forall i :: 0 <= i < |item.pages| ==> item.pages[i].state == Confirmed
  }

  /** A record of one example agrees with what Slack has created for it. */
  predicate ItemOk(item: Item, made: seq<Post>, e: Example) {
    && RootOk(item, made, e)
    && PagesOk(item, made, e)
    && (item.done ==> item.messageId.Some? && AllPagesConfirmed(item, e))
  }

  predicate ItemsOk(items: map<Id, Item>, made: seq<Post>, examples: seq<Example>) {
    forall e :: e in examples ==> ItemOk(Find(items, e.id), made, e)
  }

  /** A file that does not parse says nothing; it stops every later run instead. */
  predicate DiskOk(disk: Disk, made: seq<Post>, examples: seq<Example>) {
    match disk
    case Missing => ItemsOk(map[], made, examples)
    case Torn => true
    case Saved(items) => ItemsOk(items, made, examples)
  }

  /** No message of any example exists twice. */
  predicate AtMostOnce(made: seq<Post>) {
    forall i, j :: 0 <= i < j < |made| ==> made[i] != made[j]
  }

  predicate DistinctIds(examples: seq<Example>) {
    forall i, j :: 0 <= i < j < |examples| ==> examples[i].id != examples[j].id
  }

  /** The record announces that this page may be being created right now. */
  predicate Announced(item: Item, page: nat) {
    if page == 0 then item.postState == Some(Started)
    else |item.pages| == page && item.pages[page - 1] == PageReceipt(Started, None)
  }

  /** Creating an announced message leaves the record in order, whatever answer comes back. */
  lemma CreatingKeepsItem(item: Item, made: seq<Post>, e: Example, page: nat)
    requires ItemOk(item, made, e) && Announced(item, page)
    ensures ItemOk(item, made + [Post(e.id, page)], e)
  {
  }

  lemma CreatingKeepsOthers(item: Item, made: seq<Post>, e: Example, p: Post)
    requires ItemOk(item, made, e) && p.id != e.id
    ensures ItemOk(item, made + [p], e)
  {
    assert forall page :: Post(e.id, page) in made + [p] <==> Post(e.id, page) in made;
  }

  lemma CreatingKeepsItems(items: map<Id, Item>, made: seq<Post>, examples: seq<Example>, e: Example, page: nat)
    requires DistinctIds(examples) && ItemsOk(items, made, examples)
    requires e in examples && Announced(Find(items, e.id), page)
    ensures ItemsOk(items, made + [Post(e.id, page)], examples)
  {
    forall f | f in examples
      ensures ItemOk(Find(items, f.id), made + [Post(e.id, page)], f)
    {
      if f == e {
        CreatingKeepsItem(Find(items, e.id), made, e, page);
      } else {
        CreatingKeepsOthers(Find(items, f.id), made, f, Post(e.id, page));
      }
    }
  }

  /** Without a message id, a record is either untouched by any attempt or has one open. */
  lemma UnsentUnlessOpen(item: Item, made: seq<Post>, e: Example)
    requires RootOk(item, made, e) && item.messageId.None?
    ensures item.postState == Some(Started) || (item.postState.None? && Post(e.id, 0) !in made && !Complete(item))
  {
    if item.postState.Some? {
      match item.postState.value {
        case Started =>
        case Confirmed =>
      }
    }
  }

  /** An attempt is open whose outcome no file receipt tells. */
  predicate Blocked(item: Item) {
    item.postState == Some(Started) && !Complete(item)
  }

  predicate OthersKept(before: map<Id, Item>, after: map<Id, Item>, e: Example) {
    forall id :: id in before.Keys + after.Keys && id != e.id ==> Find(after, id) == Find(before, id)
  }

  /** Only messages of this example were added. */
  predicate OnlyGrows(before: seq<Post>, after: seq<Post>, e: Example) {
    before <= after && forall i :: |before| <= i < |after| ==> after[i].id == e.id
  }

  /** The messages of one example, in the order of their creation. */
  function Made(made: seq<Post>, id: Id): seq<Post> {
    if made == [] then []
    else
      var before := Made(made[..|made| - 1], id);
      if made[|made| - 1].id == id then before + [made[|made| - 1]] else before
  }

  ghost predicate NothingAddedIfBlocked(items: map<Id, Item>, before: seq<Post>, after: seq<Post>) {
    forall id :: Blocked(Find(items, id)) ==> Made(after, id) == Made(before, id)
  }

  predicate AllMade(made: seq<Post>, examples: seq<Example>) {
    forall e, page :: e in examples && 0 <= page < e.pages ==> Post(e.id, page) in made
  }

  lemma {:induction false} OthersAddNothing(before: seq<Post>, after: seq<Post>, e: Example)
    requires OnlyGrows(before, after, e)
    ensures forall id :: id != e.id ==> Made(after, id) == Made(before, id)
    decreases |after|
  {
    if |before| < |after| {
      OthersAddNothing(before, after[..|after| - 1], e);
    } else {
      assert before == after;
    }
  }

  /** The first `k` examples are done and were not blocked; the others are as they were loaded. */
  predicate DoneTo(k: nat, items: map<Id, Item>, loaded: map<Id, Item>, examples: seq<Example>)
    requires k <= |examples|
  {
    && (forall i :: 0 <= i < k ==> Find(items, examples[i].id).done && !Blocked(Find(loaded, examples[i].id)))
    && (forall i :: k <= i < |examples| ==> Find(items, examples[i].id) == Find(loaded, examples[i].id))
  }

  lemma OneMoreDone(k: nat, before: map<Id, Item>, after: map<Id, Item>, loaded: map<Id, Item>, examples: seq<Example>)
    requires k < |examples| && DistinctIds(examples) && DoneTo(k, before, loaded, examples)
    requires OthersKept(before, after, examples[k])
    requires Find(after, examples[k].id).done && !Blocked(Find(before, examples[k].id))
    ensures DoneTo(k + 1, after, loaded, examples)
  {
    forall i | 0 <= i < |examples| && i != k
      ensures Find(after, examples[i].id) == Find(before, examples[i].id)
    {
      assert examples[i].id != examples[k].id;
    }
  }

  lemma BlockedStayEmpty(items: map<Id, Item>, first: seq<Post>, before: seq<Post>, after: seq<Post>, e: Example)
    requires NothingAddedIfBlocked(items, first, before) && OnlyGrows(before, after, e)
    requires Blocked(Find(items, e.id)) ==> after == before
    ensures NothingAddedIfBlocked(items, first, after)
  {
    OthersAddNothing(before, after, e);
    forall id | Blocked(Find(items, id))
      ensures Made(after, id) == Made(first, id)
    {
      assert id == e.id ==> after == before;
    }
  }

  lemma DoneMeansMade(items: map<Id, Item>, made: seq<Post>, examples: seq<Example>)
    requires ItemsOk(items, made, examples)
    requires forall e :: e in examples ==> Find(items, e.id).done
    ensures AllMade(made, examples)
  {
    forall e, page | e in examples && 0 <= page < e.pages
      ensures Post(e.id, page) in made
    {
      var item := Find(items, e.id);
      assert ItemOk(item, made, e);
      assert page > 0 ==> item.pages[page - 1].state == Confirmed;
    }
  }

  lemma {:induction false} OccursOnce(made: seq<Post>, p: Post)
    requires AtMostOnce(made) && p in made
    ensures multiset(made)[p] == 1
  {
    var front := made[..|made| - 1];
    assert made == front + [made[|made| - 1]];
    if p in front {
      OccursOnce(front, p);
    }
  }

  /** Nothing that was asked from position `from` on has failed. */
  predicate NoneFailed(asked: seq<Asked>, from: nat) {
    forall i :: from <= i < |asked| ==> asked[i].ok
  }

  /** The pages of a message from `from` to `to` that had been posted before were updated. */
  predicate PagesUpdated(asked: seq<Asked>, e: Example, item: Item, to: nat) {
    forall page: nat :: 0 < page < to && page <= |item.pages| ==> Asked(UpdateMessage(Post(e.id, page)), true) in asked
  }

  /** Every example is recorded as delivered. */
  predicate AllDone(disk: Disk, examples: seq<Example>) {
    disk.Saved? && forall e :: e in examples ==> Find(disk.items, e.id).done
  }

  /** An attempt at a following page is open. */
  predicate PageOpen(item: Item) {
    exists i :: 0 <= i < |item.pages| && item.pages[i].state == Started
  }

  /** A page announced last can be struck out if it was not created, and confirmed if it was. */
  lemma AnnouncedPageSettles(item: Item, made: seq<Post>, e: Example, index: nat, sent: Sent)
    requires 1 <= index < e.pages && |item.pages| == index - 1 && !item.done && item.messageId.Some?
    requires ItemOk(item.(pages := item.pages + [PageReceipt(Started, None)]), made, e)
    ensures Post(e.id, index) !in made ==> ItemOk(item, made, e)
    ensures Post(e.id, index) in made && sent.Accepted? && sent.messageId.Some? ==>
      ItemOk(item.(pages := item.pages + [PageReceipt(Confirmed, sent.messageId)]), made, e)
  {
    var announced := item.pages + [PageReceipt(Started, None)];
    assert forall i :: 0 <= i < |item.pages| ==> announced[i] == item.pages[i];
    assert forall p :: p in made && p.id == e.id && p.page == index ==> p == Post(e.id, index);
  }

  class Poster {
    const examples: seq<Example>
    var disk: Disk                  // state.json
    var items: map<Id, Item>        // the state object of the running process
    ghost var made: seq<Post>
    var asked: seq<Asked>

    ghost predicate Valid()
      reads this
    {
      && DistinctIds(examples)
      && (forall e :: e in examples ==> e.pages >= 1)
      && (forall p :: p in made ==> exists e :: e in examples && e.id == p.id && p.page < e.pages)
      && AtMostOnce(made)
      && DiskOk(disk, made, examples)
    }

    /** The process and its state object are in order too. */
    ghost predicate Running()
      reads this
    {
      Valid() && ItemsOk(items, made, examples)
    }

    constructor (es: seq<Example>)
      requires DistinctIds(es) && forall e :: e in es ==> e.pages >= 1
      ensures Valid() && examples == es && made == [] && asked == [] && disk == Missing
    {
      examples, disk, items, made, asked := es, Missing, map[], [], [];
    }

    /** Replaces the record of one example and rewrites state.json, which a crash may cut short. */
    method Save(e: Example, item: Item) returns (o: Alive<()>)
      requires Running() && e in examples && ItemOk(item, made, e)
      modifies this`items, this`disk
      ensures Running() && items == old(items)[e.id := item]
      ensures o.Return? ==> disk == Saved(items)
    {
      items := items[e.id := item];
      var crash: nat := *;
      if crash == 0 {
        return Dead;
      } else if crash == 1 {
        disk := Torn;
        return Dead;
      }
      disk := Saved(items);
      if crash == 2 {
        return Dead;
      }
      return Return(());
    }

    /** chat.postMessage or files.completeUploadExternal: the only calls that create a message. */
    method Send(e: Example, page: nat) returns (o: Alive<Sent>)
      requires Running() && e in examples && page < e.pages
      requires Post(e.id, page) !in made
      requires disk == Saved(items) && Announced(Find(items, e.id), page)
      modifies this`made
      ensures Running()
      ensures made == old(made) || made == old(made) + [Post(e.id, page)]
      ensures o.Return? && o.value.Accepted? ==> made == old(made) + [Post(e.id, page)]
      ensures o.Return? && o.value.Refused? ==> made == old(made)
    {
      var arrives: bool, answers: nat, ts: Option<Timestamp> := *, *, *;
      if arrives {
        CreatingKeepsItems(items, made, examples, e, page);
        made := made + [Post(e.id, page)];
      }
      if answers == 0 {
        return Dead;
      } else if answers == 1 {
        return Return(Unclear);
      }
      return Return(if arrives then Accepted(ts) else Refused);
    }

    /** Any other call of Slack; its answer may be an error, or none at all. */
    method Ask(request: Request) returns (ok: bool)
      modifies this`asked
      ensures asked == old(asked) + [Asked(request, ok)]
    {
      ok := *;
      asked := asked + [Asked(request, ok)];
    }

    /** options.beforeCreate (line 34): nothing is created while an attempt is open. */
    method BeforeCreate(e: Example) returns (o: Alive<bool>)
      requires Running() && e in examples && Find(items, e.id).messageId.None?
      modifies this`items, this`disk
      ensures Running() && OthersKept(old(items), items, e)
      ensures o.Return? ==> (o.value <==> Find(old(items), e.id).postState.None?)
      ensures o.Return? && !o.value ==> items == old(items)
      ensures o.Return? && o.value ==>
        && items == old(items)[e.id := Find(old(items), e.id).(postState := Some(Started))]
        && disk == Saved(items) && Post(e.id, 0) !in made
    {
      var item := Find(items, e.id);
      if item.postState == Some(Started) {
        return Return(false);
      }
      UnsentUnlessOpen(item, made, e);
      var _ :- Save(e, item.(postState := Some(Started)));
      return Return(true);
    }

    /**
     options.created (line 35): a success is recorded with its message, an unclear outcome
     keeps STARTED, and any other failure takes it back.
     */
    method Created(e: Example, d: Delivery) returns (o: Alive<()>)
      requires Running() && e in examples
      requires Find(items, e.id).postState == Some(Started)
      requires d.Delivered? ==> Post(e.id, 0) in made && (e.image ==> Complete(Find(items, e.id)))
      requires d == Undelivered(false) ==> Post(e.id, 0) !in made
      modifies this`items, this`disk
      ensures Running() && OthersKept(old(items), items, e)
      ensures o.Return? ==>
        var item := Find(old(items), e.id);
        items == old(items)[e.id :=
          match d
          case Delivered(ts) => item.(postState := Some(Confirmed), messageId := Some(ts))
          case Undelivered(unknown) => if unknown then item else item.(postState := None)]
    {
      var item := Find(items, e.id);
      match d {
        case Delivered(ts) => item := item.(postState := Some(Confirmed), messageId := Some(ts));
        case Undelivered(unknown) =>
          if !unknown {
            item := item.(postState := None);
          }
      }
      o := Save(e, item);
    }

    /** files.getUploadURLExternal and the upload itself (lines 61-75); None stands for success. */
    method StoreFile(e: Example, checksum: nat) returns (o: Alive<Option<Delivery>>)
      requires Running() && e in examples && e.image && Find(items, e.id).messageId.None?
      modifies this`items, this`disk, this`asked
      ensures Running() && OthersKept(old(items), items, e) && old(asked) <= asked
      ensures
        var was, item := Find(old(items), e.id), Find(items, e.id);
        && item == was.(file := item.file)
        && (Complete(item) ==> item == was)
        && (o.Return? && o.value.None? ==>
             item.file == Some(FileReceipt(checksum, true, false, None)) && NoneFailed(asked, |old(asked)|)
             && Asked(BeginUpload(e.id), true) in asked && Asked(StoreBytes(e.id), true) in asked)
        && (o.Return? && o.value.Some? ==>
             && !o.value.value.Delivered?
             && (if asked == old(asked) + [Asked(BeginUpload(e.id), false)] then item == was
                 else asked == old(asked) + [Asked(BeginUpload(e.id), true), Asked(StoreBytes(e.id), false)]
                      && o.value == Some(Undelivered(true)) && item.file == Some(FileReceipt(checksum, false, false, None))))
    {
      var item := Find(items, e.id);
      var begun := Ask(BeginUpload(e.id));
      assert asked[|old(asked)|] == Asked(BeginUpload(e.id), begun);
      if !begun {
        var unknown: bool := *;
        return Return(Some(Undelivered(unknown)));
      }
      var file := FileReceipt(checksum, false, false, None);
      var _ :- Save(e, item.(file := Some(file)));
      var stored := Ask(StoreBytes(e.id));
      assert asked[|old(asked)| + 1] == Asked(StoreBytes(e.id), stored);
      if !stored {
        return Return(Some(Undelivered(true)));
      }
      var _ :- Save(e, item.(file := Some(file.(uploaded := true))));
      return Return(None);
    }

    /** files.completeUploadExternal (lines 77-83), which posts the file; None stands for success. */
    method ShareFile(e: Example) returns (o: Alive<Option<Delivery>>)
      requires Running() && e in examples && e.image && Find(items, e.id).messageId.None?
      requires Find(items, e.id).file.Some? && !Complete(Find(items, e.id))
      modifies this`items, this`disk, this`made
      ensures Running() && OnlyGrows(old(made), made, e) && OthersKept(old(items), items, e)
      ensures Find(old(items), e.id).postState == Some(Started) ==>
        made == old(made) && (o.Return? ==> o.value == Some(Undelivered(true)))
      ensures o.Return? && o.value.None? ==>
        && Find(items, e.id).messageId.None? && Complete(Find(items, e.id))
        && Find(items, e.id).file == Some(Find(old(items), e.id).file.value.(complete := true))
        && Post(e.id, 0) in made
      ensures o.Return? && o.value.Some? ==>
        var was, item := Find(old(items), e.id), Find(items, e.id);
        && o.value.value == Undelivered(item.postState == Some(Started))
        && item == was.(postState := item.postState) && (item.postState.None? ==> made == old(made))
    {
      assert ItemOk(Find(items, e.id), made, e);
      var admitted :- BeforeCreate(e);
      if !admitted {
        assert Find(items, e.id).postState.value.Started?;
        return Return(Some(Undelivered(true)));
      }
      var sent :- Send(e, 0);
      if !sent.Accepted? {
        var _ :- Created(e, Undelivered(sent.Unclear?));
        return Return(Some(Undelivered(sent.Unclear?)));
      }
      var item := Find(items, e.id);
      var _ :- Save(e, item.(file := Some(item.file.value.(complete := true))));
      return Return(None);
    }

    /**
     uploadAttachment for a new message (lines 55-96): each stage is saved before the next,
     and a file that was already shared is only looked up.
     */
    method Upload(e: Example, checksum: nat) returns (o: Alive<Delivery>)
      requires Running() && e in examples && e.image && Find(items, e.id).messageId.None?
      modifies this`items, this`disk, this`made, this`asked
      ensures Running() && OnlyGrows(old(made), made, e) && OthersKept(old(items), items, e) && old(asked) <= asked
      ensures o.Return? && o.value.Undelivered? ==> !Find(items, e.id).done
      ensures
        var file := Find(old(items), e.id).file;
        file.Some? && file.value.checksum == checksum && !file.value.uploaded ==>
          o == Return(Undelivered(true)) && made == old(made) && items == old(items) && asked == old(asked)
      ensures o.Return? && o.value.Delivered? ==>
        && Find(items, e.id).file == Some(FileReceipt(checksum, true, true, Some(o.value.messageId)))
        && NoneFailed(asked, |old(asked)|)
      ensures Blocked(Find(old(items), e.id)) ==> made == old(made)
      ensures o.Return? && o.value.Delivered? ==>
        && !Blocked(Find(old(items), e.id))
        && Find(items, e.id).messageId == Some(o.value.messageId) && !Find(items, e.id).done
    {
      if Find(items, e.id).file.None? || Find(items, e.id).file.value.checksum != checksum {
        var problem :- StoreFile(e, checksum);
        if problem.Some? {
          return Return(problem.value);
        }
      }
      if !Find(items, e.id).file.value.uploaded {
        return Return(Undelivered(true));
      }
      if !Find(items, e.id).file.value.complete {
        var problem :- ShareFile(e);
        if problem.Some? {
          return Return(problem.value);
        }
      }
      o := FindMessage(e);
    }

    /** The message of a shared file, from its receipt or from files.info (lines 84-95). */
    method FindMessage(e: Example) returns (o: Alive<Delivery>)
      requires Running() && e in examples && Find(items, e.id).messageId.None? && Complete(Find(items, e.id))
      modifies this`items, this`disk, this`asked
      ensures Running() && OthersKept(old(items), items, e) && old(asked) <= asked
      ensures
        var was := Find(old(items), e.id).file.value;
        && (was.messageTs.Some? ==> asked == old(asked) && (o.Return? ==> o.value == Delivered(was.messageTs.value)))
        && (o.Return? && o.value.Delivered? ==>
             && Find(items, e.id).messageId == Some(o.value.messageId) && !Find(items, e.id).done
             && Find(items, e.id).file == Some(was.(messageTs := Some(o.value.messageId)))
             && NoneFailed(asked, |old(asked)|))
        && (o.Return? && o.value.Undelivered? ==> items == old(items) && asked == old(asked) + [Asked(FindShare(e.id), false)])
    {
      UnsentUnlessOpen(Find(items, e.id), made, e);
      var file := Find(items, e.id).file.value;
      if file.messageTs.None? {
        var found := Ask(FindShare(e.id));
        if !found {
          var unknown: bool := *;
          return Return(Undelivered(unknown));
        }
        var ts: Timestamp := *;
        file := file.(messageTs := Some(ts));
        var _ :- Save(e, Find(items, e.id).(file := Some(file)));
      }
      var _ :- Created(e, Delivered(file.messageTs.value));
      return Return(Delivered(file.messageTs.value));
    }

    /** Posts one following page (lines 117-124): its attempt is saved before it is sent. */
    method PostPage(e: Example, index: nat) returns (o: Alive<Option<Delivery>>)
      requires Running() && e in examples && 1 <= index < e.pages
      requires Find(items, e.id).messageId.Some? && !Find(items, e.id).done
      requires |Find(items, e.id).pages| == index - 1
      requires forall i :: 0 <= i < index - 1 ==> Find(items, e.id).pages[i].state == Confirmed
      modifies this`items, this`disk, this`made
      ensures Running() && OnlyGrows(old(made), made, e) && OthersKept(old(items), items, e)
      ensures o.Return? && o.value.None? ==>
        var was, item := Find(old(items), e.id), Find(items, e.id);
        item == was.(pages := item.pages) && |item.pages| == index
        && item.pages[..index - 1] == was.pages && item.pages[index - 1].state == Confirmed
      ensures o.Return? && o.value.Some? ==>
        var was, item := Find(old(items), e.id), Find(items, e.id);
        || (o.value == Some(Undelivered(false)) && item == was && made == old(made))
        || (o.value == Some(Undelivered(true)) && item == was.(pages := was.pages + [PageReceipt(Started, None)]))
    {
      var item := Find(items, e.id);
      assert Post(e.id, index) !in made;
      var _ :- Save(e, item.(pages := item.pages + [PageReceipt(Started, None)]));
      var sent :- Send(e, index);
      o := RecordPage(e, index, item, sent);
    }

    /** What the answer makes of the announced page (lines 119-124). */
    method RecordPage(e: Example, index: nat, item: Item, sent: Sent) returns (o: Alive<Option<Delivery>>)
      requires Running() && e in examples && 1 <= index < e.pages && item.messageId.Some? && !item.done
      requires |item.pages| == index - 1 && forall i :: 0 <= i < index - 1 ==> item.pages[i].state == Confirmed
      requires Find(items, e.id) == item.(pages := item.pages + [PageReceipt(Started, None)])
      requires sent.Accepted? ==> Post(e.id, index) in made
      requires sent.Refused? ==> Post(e.id, index) !in made
      modifies this`items, this`disk
      ensures Running() && OthersKept(old(items), items, e)
      ensures o.Return? && o.value.None? ==>
        sent.Accepted? && sent.messageId.Some?
        && Find(items, e.id) == item.(pages := item.pages + [PageReceipt(Confirmed, sent.messageId)])
      ensures o.Return? && o.value.Some? ==>
        if sent.Refused? then o.value == Some(Undelivered(false)) && Find(items, e.id) == item
        else o.value == Some(Undelivered(true)) && items == old(items)
    {
      AnnouncedPageSettles(item, made, e, index, sent);
      if sent.Refused? {
        var _ :- Save(e, item);
        return Return(Some(Undelivered(false)));
      }
      if sent.Unclear? || sent.messageId.None? {
        return Return(Some(Undelivered(true)));
      }
      var _ :- Save(e, item.(pages := item.pages + [PageReceipt(Confirmed, sent.messageId)]));
      return Return(None);
    }

    /** One turn of the loop over the following pages; None means that it goes on. */
    method VisitPage(e: Example, index: nat) returns (o: Alive<Option<Delivery>>)
      requires Running() && e in examples && 1 <= index < e.pages
      requires Find(items, e.id).messageId.Some? && !Find(items, e.id).done && index - 1 <= |Find(items, e.id).pages|
      requires forall i :: 0 <= i < index - 1 ==> Find(items, e.id).pages[i].state == Confirmed
      modifies this`items, this`disk, this`made, this`asked
      ensures Running() && OnlyGrows(old(made), made, e) && OthersKept(old(items), items, e)
      ensures
        var was, item := Find(old(items), e.id), Find(items, e.id);
        && (index <= |was.pages| ==> made == old(made) && items == old(items))
        && (index <= |was.pages| && was.pages[index - 1].state == Started ==> o == Return(Some(Undelivered(true))))
        && (o.Return? ==> item == was.(pages := item.pages))
        && (o.Return? && o.value.Some? ==> o.value.value.Undelivered?)
        && (o.Return? && o.value.None? ==>
             && was.pages <= item.pages && index <= |item.pages|
             && forall i :: 0 <= i < index ==> item.pages[i].state == Confirmed)
        && (o.Return? && o.value.None? ==>
             asked == if index <= |was.pages| then old(asked) + [Asked(UpdateMessage(Post(e.id, index)), true)] else old(asked))
      ensures old(asked) <= asked
    {
      var receipts := Find(items, e.id).pages;
      if index - 1 == |receipts| {
        o := PostPage(e, index);
        return;
      }
      if receipts[index - 1].state == Started {
        return Return(Some(Undelivered(true)));
      }
      var updated := Ask(UpdateMessage(Post(e.id, index)));
      if !updated {
        var unknown: bool := *;
        return Return(Some(Undelivered(unknown)));
      }
      return Return(None);
    }

    /**
     continuationPages (lines 105-133): a page with an open attempt stops the delivery, one
     that was posted is only updated, and any other is posted once its attempt is saved.
     The records never list more pages than the message has, so none is ever deleted.
     */
    method PostPages(e: Example, root: Timestamp) returns (o: Alive<Delivery>)
      requires Running() && e in examples
      requires Find(items, e.id).messageId == Some(root) && !Find(items, e.id).done
      modifies this`items, this`disk, this`made, this`asked
      ensures Running() && OnlyGrows(old(made), made, e) && OthersKept(old(items), items, e) && old(asked) <= asked
      ensures o.Return? && o.value.Undelivered? ==> !Find(items, e.id).done
      ensures PageOpen(Find(old(items), e.id)) ==>
        made == old(made) && items == old(items) && (o.Return? ==> o.value.Undelivered?)
      ensures o.Return? && o.value.Delivered? ==>
        && o.value.messageId == root
        && Find(items, e.id).messageId == Some(root) && AllPagesConfirmed(Find(items, e.id), e)
        && NoneFailed(asked, |old(asked)|) && PagesUpdated(asked[|old(asked)|..], e, Find(old(items), e.id), e.pages)
    {
      ghost var was := Find(items, e.id);
      for index := 1 to e.pages
        invariant Running() && OnlyGrows(old(made), made, e) && OthersKept(old(items), items, e)
        invariant Find(items, e.id).messageId == Some(root) && !Find(items, e.id).done
        invariant index - 1 <= |Find(items, e.id).pages|
        invariant forall i :: 0 <= i < index - 1 ==> Find(items, e.id).pages[i].state == Confirmed
        invariant was.pages <= Find(items, e.id).pages && (index - 1 <= |was.pages| ==> made == old(made) && items == old(items))
        invariant old(asked) <= asked && NoneFailed(asked, |old(asked)|)
        invariant PagesUpdated(asked[|old(asked)|..], e, was, index)
      {
        ghost var before := asked;
        var problem :- VisitPage(e, index);
        if problem.Some? {
          return Return(problem.value);
        }
        assert asked[|old(asked)|..] == before[|old(asked)|..] + asked[|before|..];
      }
      return Return(Delivered(root));
    }

    /** editChannelMessage without an attachment (lines 150-165). */
    method Edit(e: Example, root: Timestamp) returns (o: Alive<Delivery>)
      requires Running() && e in examples
      requires Find(items, e.id).messageId == Some(root) && !Find(items, e.id).done
      modifies this`items, this`disk, this`made, this`asked
      ensures Running() && OnlyGrows(old(made), made, e) && OthersKept(old(items), items, e) && old(asked) <= asked
      ensures o.Return? && o.value.Undelivered? ==> !Find(items, e.id).done
      ensures PageOpen(Find(old(items), e.id)) ==>
        made == old(made) && items == old(items) && (o.Return? ==> o.value.Undelivered?)
      ensures o.Return? && o.value.Delivered? ==>
        && o.value.messageId == root
        && Find(items, e.id).messageId == Some(root) && AllPagesConfirmed(Find(items, e.id), e)
        && NoneFailed(asked, |old(asked)|) && Asked(UpdateMessage(Post(e.id, 0)), true) in asked[|old(asked)|..]
    {
      var updated := Ask(UpdateMessage(Post(e.id, 0)));
      if !updated {
        var unknown: bool := *;
        return Return(Undelivered(unknown));
      }
      assert asked[|old(asked)|] == Asked(UpdateMessage(Post(e.id, 0)), true);
      o := PostPages(e, root);
    }

    /** The root message of an example without an image (lines 142-147). */
    method SendRoot(e: Example) returns (o: Alive<Delivery>)
      requires Running() && e in examples && !e.image && Find(items, e.id).messageId.None?
      modifies this`items, this`disk, this`made
      ensures Running() && OnlyGrows(old(made), made, e) && OthersKept(old(items), items, e)
      ensures Find(old(items), e.id).postState == Some(Started) ==>
        made == old(made) && (o.Return? ==> o.value == Undelivered(true))
      ensures o.Return? && o.value.Delivered? ==>
        Find(items, e.id).messageId == Some(o.value.messageId) && !Find(items, e.id).done
      ensures o.Return? && o.value.Undelivered? ==>
        var was, item := Find(old(items), e.id), Find(items, e.id);
        && o.value == Undelivered(item.postState == Some(Started))
        && item == was.(postState := item.postState) && (item.postState.None? ==> made == old(made))
    {
      assert ItemOk(Find(items, e.id), made, e);
      var admitted :- BeforeCreate(e);
      if !admitted {
        assert Find(items, e.id).postState.value.Started?;
        return Return(Undelivered(true));
      }
      var sent :- Send(e, 0);
      var delivery :=
        if sent.Accepted? && sent.messageId.Some? then Delivered(sent.messageId.value)
        else Undelivered(!sent.Refused?);
      var _ :- Created(e, delivery);
      return Return(delivery);
    }

    /** createChannelMessage (lines 135-149). */
    method Create(e: Example, checksum: nat) returns (o: Alive<Delivery>)
      requires Running() && e in examples && Find(items, e.id).messageId.None?
      modifies this`items, this`disk, this`made, this`asked
      ensures Running() && OnlyGrows(old(made), made, e) && OthersKept(old(items), items, e) && old(asked) <= asked
      ensures o.Return? && o.value.Undelivered? ==> !Find(items, e.id).done
      ensures o.Return? && o.value.Delivered? ==> NoneFailed(asked, |old(asked)|)
      ensures Blocked(Find(old(items), e.id)) ==> made == old(made)
      ensures o.Return? && o.value.Delivered? ==>
        && !Blocked(Find(old(items), e.id))
        && Find(items, e.id).messageId == Some(o.value.messageId) && AllPagesConfirmed(Find(items, e.id), e)
    {
      if e.image {
        var shared :- Upload(e, checksum);
        if !shared.Delivered? {
          return Return(shared);
        }
        o := Edit(e, shared.messageId);
      } else {
        var sent :- SendRoot(e);
        if !sent.Delivered? {
          return Return(sent);
        }
        o := PostPages(e, sent.messageId);
      }
    }

    /** One turn of the loop over the examples (lines 29-38). */
    method DeliverExample(e: Example, checksum: nat) returns (o: Alive<bool>)
      requires Running() && e in examples
      modifies this`items, this`disk, this`made, this`asked
      ensures Running() && OnlyGrows(old(made), made, e) && OthersKept(old(items), items, e) && old(asked) <= asked
      ensures Blocked(Find(old(items), e.id)) ==> made == old(made) && o != Return(true)
      ensures o.Return? ==> (o.value <==> Find(items, e.id).done)
      ensures o == Return(true) ==> disk == Saved(items) && NoneFailed(asked, |old(asked)|)
      ensures Find(old(items), e.id).done ==>
        made == old(made) && asked == old(asked) && Find(items, e.id) == Find(old(items), e.id) && o != Return(false)
    {
      var item := Find(items, e.id);
      var delivery := Undelivered(false);
      if item.done {
        delivery := Delivered(item.messageId.value);
      } else if item.messageId.Some? {
        // A posted image is complete, so line 31 has dropped the attachment.
        assert e.image ==> Complete(item);
        delivery :- Edit(e, item.messageId.value);
      } else {
        delivery :- Create(e, checksum);
      }
      if !delivery.Delivered? {
        return Return(false);
      }
      var _ :- Save(e, Find(items, e.id).(messageId := Some(delivery.messageId), done := true));
      return Return(true);
    }

    /**
     One run with --post (lines 15-43). A state file that does not parse stops it before
     anything is sent; an example with an open attempt stops it with nothing sent for that
     example; a run that completes leaves every message of every example in existence.
     */
    method Run(files: Id -> nat) returns (o: Alive<Ending>)
      requires Valid()
      modifies this`items, this`disk, this`made, this`asked
      ensures Valid() && old(made) <= made
      ensures AllDone(old(disk), examples) ==> made == old(made) && asked == old(asked) && o != Return(Stopped)
      ensures o == Return(Completed) && examples != [] ==> AllDone(disk, examples)
      ensures old(disk).Torn? ==> o == Return(Stopped) && made == old(made) && disk == old(disk)
      ensures old(disk).Saved? ==>
        forall e :: e in examples && Blocked(Find(old(disk).items, e.id)) ==>
          o != Return(Completed) && Made(made, e.id) == Made(old(made), e.id)
      ensures o == Return(Completed) ==> AllMade(made, examples)
    {
      if disk.Torn? {
        return Return(Stopped);
      }
      items := if disk.Saved? then disk.items else map[];
      ghost var loaded := items;
      for k := 0 to |examples|
        invariant Running() && old(made) <= made
        invariant DoneTo(k, items, loaded, examples)
        invariant NothingAddedIfBlocked(loaded, old(made), made)
        invariant AllDone(old(disk), examples) ==> made == old(made) && asked == old(asked)
        invariant k > 0 ==> disk == Saved(items)
      {
        ghost var before, were := made, items;
        var delivered := DeliverExample(examples[k], files(examples[k].id));
        BlockedStayEmpty(loaded, old(made), before, made, examples[k]);
        if delivered.Dead? {
          return Dead;
        }
        if !delivered.value {
          return Return(Stopped);
        }
        OneMoreDone(k, were, items, loaded, examples);
      }
      DoneMeansMade(items, made, examples);
      return Return(Completed);
    }

    /**
     Any number of runs, each with its own files and cut short anywhere or not: no message of
     any example is ever created twice, and once a run completes every one has been created exactly once.
     */
    method Rerun(files: seq<Id -> nat>) returns (endings: seq<Alive<Ending>>)
      requires Valid()
      modifies this`items, this`disk, this`made, this`asked
      ensures Valid() && AtMostOnce(made) && old(made) <= made && |endings| == |files|
      ensures Return(Completed) in endings ==>
        forall e, page :: e in examples && 0 <= page < e.pages ==> multiset(made)[Post(e.id, page)] == 1
    {
      endings := [];
      for i := 0 to |files|
        invariant Valid() && old(made) <= made && |endings| == i
        invariant Return(Completed) in endings ==> AllMade(made, examples)
      {
        var o := Run(files[i]);
        endings := endings + [o];
      }
      forall e, page | Return(Completed) in endings && e in examples && 0 <= page < e.pages
        ensures multiset(made)[Post(e.id, page)] == 1
      {
        OccursOnce(made, Post(e.id, page));
      }
    }
  }
}
