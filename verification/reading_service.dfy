/** The reading-progress synchroniser (src/services/ReadingService.ts).
    Every record is written to the local cache; when a user identifier sits in
    the `user_id` slot the remote progress store is also written and is
    preferred on reads. A remote write or delete is represented by the
    request it sends, since its outcome changes nothing the client keeps; a
    remote read is represented by its reply (`RemoteRead`), so a failed fetch
    and a list that breaks part-way are inputs. */
module Reading {
  import opened Wrappers
  import opened Strings
  import opened Types
  import opened Storage

  const KeyPrefix := ProgressPrefix + "_"

  /** A progress entry as the remote store lists it. */
  datatype RemoteEntry = RemoteEntry(
    bookId: string, currentPage: int, percentageRead: real, userId: string, updatedAt: Time)

  /** The body of the remote write. */
  datatype PostBody = PostBody(
    userId: string, bookId: string, currentPage: int, percentageRead: real, updatedAt: Time)

  /** The remote delete, addressed by user and book. */
  datatype DeleteRequest = DeleteRequest(userId: string, bookId: string)

  /** The outcome of reading the user's list from the remote store.
      `ReadBrokenAfter(es)`: the list starts with `es` and the element after
      them cannot be read, so a scan that reaches it throws. */
  datatype RemoteRead =
    | ReadFailed
    | ReadOk(entries: seq<RemoteEntry>)
    | ReadBrokenAfter(entries: seq<RemoteEntry>)

  /** `getProgressKey`. Stripping the prefix from the key gives the book back. */
  function ProgressKey(bookId: string): (k: string)
    ensures StartsWith(k, KeyPrefix) && StartsWith(k, ProgressPrefix)
    ensures RemoveFirst(k, KeyPrefix) == bookId
  {
    RemoveFirstOfPrefixed(KeyPrefix, bookId);
    StartsWithAppend(KeyPrefix, bookId);
    assert StartsWith(KeyPrefix, ProgressPrefix);
    assert (KeyPrefix + bookId)[..|ProgressPrefix|] == KeyPrefix[..|ProgressPrefix|];
    KeyPrefix + bookId
  }

  /** The book a cache key stands for in the fallback scan:
      `key.replace('reading_progress_', '')`. */
  function BookIdOf(key: string): (b: string)
    ensures StartsWith(key, KeyPrefix) ==> key == KeyPrefix + b
    ensures IndexOf(key, KeyPrefix).None? ==> b == key
  {
    if StartsWith(key, KeyPrefix) then
      assert key == KeyPrefix + key[|KeyPrefix|..];
      RemoveFirstOfPrefixed(KeyPrefix, key[|KeyPrefix|..]);
      RemoveFirst(key, KeyPrefix)
    else RemoveFirst(key, KeyPrefix)
  }

  lemma ProgressKeyInjective(a: string, b: string)
    ensures ProgressKey(a) == ProgressKey(b) <==> a == b
  {
    if ProgressKey(a) == ProgressKey(b) {
      assert a == BookIdOf(ProgressKey(a));
    }
  }

  /** The record `saveProgress` caches: the caller's record with `lastReadAt`
      set to now and `status` recomputed from the pages. */
  function Stamped(p: Progress, now: Time): (r: Progress)
    ensures r.bookId == p.bookId && r.currentPage == p.currentPage && r.progress == p.progress
    ensures r.userId == p.userId && r.totalPages == p.totalPages
    ensures r.lastReadAt == Some(now) && r.status.Some?
    ensures r.status == Some(Completed) <==> p.totalPages == Some(p.currentPage)
    ensures p.totalPages.None? ==> r.status == Some(InProgress)
  {
    p.(lastReadAt := Some(now),
       status := Some(if Some(p.currentPage) == p.totalPages then Completed else InProgress))
  }

  /** A record rebuilt from a remote entry: `percentageRead` becomes
      `progress`, the status is always in progress and no page count is known. */
  function FromRemote(e: RemoteEntry): (r: Progress)
    ensures r.bookId == e.bookId && r.currentPage == e.currentPage
    ensures r.progress == e.percentageRead
    ensures r.userId == Some(e.userId) && r.lastReadAt == Some(e.updatedAt)
    ensures r.status == Some(InProgress) && r.totalPages.None?
  {
    Progress(e.bookId, e.currentPage, e.percentageRead, Some(e.userId), None, Some(InProgress), Some(e.updatedAt))
  }

  /** `progressList.find(p => p.bookId === bookId)`: the first entry for the book. */
  function FindRemote(es: seq<RemoteEntry>, bookId: string): (r: Option<nat>)
    ensures r.Some? ==> r.value < |es| && es[r.value].bookId == bookId
    ensures r.Some? ==> forall j :: 0 <= j < r.value ==> es[j].bookId != bookId
    ensures r.None? ==> forall j :: 0 <= j < |es| ==> es[j].bookId != bookId
  {
    if es == [] then None
    else if es[0].bookId == bookId then Some(0)
    else match FindRemote(es[1..], bookId)
      case None => None
      case Some(k) => Some(k + 1)
  }

  /** The remote entry `getProgress` returns for `bookId`, if any: only with a
      user, only from a list that could be read up to the match. */
  function RemoteHit(user: Option<string>, reply: RemoteRead, bookId: string): (r: Option<RemoteEntry>)
    ensures r.Some? <==>
      user.Some? && !reply.ReadFailed? && exists e :: e in reply.entries && e.bookId == bookId
    ensures r.Some? ==> r.value.bookId == bookId
    ensures r.Some? ==>
      exists i :: (0 <= i < |reply.entries| && reply.entries[i] == r.value &&
                   forall j :: 0 <= j < i ==> reply.entries[j].bookId != bookId)
  {
    if user.None? || reply.ReadFailed? then None
    else match FindRemote(reply.entries, bookId)
      case None => None
      case Some(i) => Some(reply.entries[i])
  }

  /** The `forEach` of `getAllProgress`: each entry is written under its own
      book, in list order, into the accumulator. */
  function PutAll(acc: map<string, Progress>, es: seq<RemoteEntry>): (r: map<string, Progress>)
    ensures r.Keys == acc.Keys + RemoteIds(es)
    decreases |es|
  {
    if es == [] then acc
    else
      assert es == [es[0]] + es[1..];
      assert RemoteIds(es) == {es[0].bookId} + RemoteIds(es[1..]);
      PutAll(acc[es[0].bookId := FromRemote(es[0])], es[1..])
  }

  /** Whether the fallback loop takes `key`: it starts with the storage key
      and holds a record. */
  predicate Scanned(key: string, items: map<string, Value>) {
    StartsWith(key, ProgressPrefix) && key in items && items[key].Record?
  }

  /** The fallback `for` loop over the cache keys in enumeration order. */
  function ScanInto(acc: map<string, Progress>, order: seq<string>, items: map<string, Value>): (r: map<string, Progress>)
    ensures r.Keys == acc.Keys + CacheIds(order, items)
    decreases |order|
  {
    if order == [] then acc
    else
      var acc' := if Scanned(order[0], items) then acc[BookIdOf(order[0]) := items[order[0]].record] else acc;
      assert order == [order[0]] + order[1..];
      assert CacheIds(order, items) ==
        (if Scanned(order[0], items) then {BookIdOf(order[0])} else {}) + CacheIds(order[1..], items);
      ScanInto(acc', order[1..], items)
  }

  function RemoteIds(es: seq<RemoteEntry>): set<string> {
    set e | e in es :: e.bookId
  }

  function CacheIds(order: seq<string>, items: map<string, Value>): set<string> {
    set k | k in order && Scanned(k, items) :: BookIdOf(k)
  }

  /** A book the list does not mention keeps the accumulator's record. */
  lemma {:induction false} PutAllKeeps(acc: map<string, Progress>, es: seq<RemoteEntry>, id: string)
    requires id in acc && id !in RemoteIds(es)
    ensures id in PutAll(acc, es) && PutAll(acc, es)[id] == acc[id]
    decreases |es|
  {
    if es != [] {
      assert es[0] in es;
      assert forall e :: e in es[1..] ==> e in es;
      PutAllKeeps(acc[es[0].bookId := FromRemote(es[0])], es[1..], id);
    }
  }

  /** When a book is listed several times, the last entry for it wins. */
  lemma {:induction false} PutAllLastWins(acc: map<string, Progress>, es: seq<RemoteEntry>, j: nat)
    requires j < |es|
    requires forall k :: j < k < |es| ==> es[k].bookId != es[j].bookId
    ensures es[j].bookId in PutAll(acc, es)
    ensures PutAll(acc, es)[es[j].bookId] == FromRemote(es[j])
    decreases |es|
  {
    var acc' := acc[es[0].bookId := FromRemote(es[0])];
    if j == 0 {
      forall e | e in es[1..] ensures e.bookId != es[0].bookId {
        var k :| 0 <= k < |es[1..]| && es[1..][k] == e;
        assert es[k + 1] == e;
      }
      PutAllKeeps(acc', es[1..], es[0].bookId);
    } else {
      PutAllLastWins(acc', es[1..], j - 1);
    }
  }

  /** A book no scanned key stands for keeps the accumulator's record. */
  lemma {:induction false} ScanKeeps(acc: map<string, Progress>, order: seq<string>, items: map<string, Value>, id: string)
    requires id in acc && id !in CacheIds(order, items)
    ensures id in ScanInto(acc, order, items) && ScanInto(acc, order, items)[id] == acc[id]
    decreases |order|
  {
    if order != [] {
      assert order[0] in order;
      assert forall k :: k in order[1..] ==> k in order;
      var acc' := if Scanned(order[0], items) then acc[BookIdOf(order[0]) := items[order[0]].record] else acc;
      ScanKeeps(acc', order[1..], items, id);
    }
  }

  /** When several scanned keys stand for one book, the last one scanned wins. */
  lemma {:induction false} ScanLastWins(acc: map<string, Progress>, order: seq<string>, items: map<string, Value>, j: nat)
    requires j < |order| && Scanned(order[j], items)
    requires forall k :: j < k < |order| && Scanned(order[k], items) ==> BookIdOf(order[k]) != BookIdOf(order[j])
    ensures BookIdOf(order[j]) in ScanInto(acc, order, items)
    ensures ScanInto(acc, order, items)[BookIdOf(order[j])] == items[order[j]].record
    decreases |order|
  {
    var acc' := if Scanned(order[0], items) then acc[BookIdOf(order[0]) := items[order[0]].record] else acc;
    if j == 0 {
      forall k | k in order[1..] && Scanned(k, items) ensures BookIdOf(k) != BookIdOf(order[0]) {
        var i :| 0 <= i < |order[1..]| && order[1..][i] == k;
        assert order[i + 1] == k;
      }
      ScanKeeps(acc', order[1..], items, BookIdOf(order[0]));
    } else {
      ScanLastWins(acc', order[1..], items, j - 1);
    }
  }

  /** Every key under the storage key is of the form `saveProgress` writes. */
  ghost predicate SavedKeysOnly(items: map<string, Value>) {
    forall k :: k in items && StartsWith(k, ProgressPrefix) ==> StartsWith(k, KeyPrefix)
  }

  lemma SavedKeyForm(k: string)
    requires StartsWith(k, KeyPrefix)
    ensures k == ProgressKey(BookIdOf(k))
  {
    assert k == KeyPrefix + k[|KeyPrefix|..];
    RemoveFirstOfPrefixed(KeyPrefix, k[|KeyPrefix|..]);
  }

  /** When the cache holds only keys written by `saveProgress`, the fallback
      scan maps exactly the saved books, each to its cached record, whatever
      the enumeration order. */
  lemma ScanOfSavedCache(order: seq<string>, items: map<string, Value>, b: string)
    requires Enumerates(order, items) && SavedKeysOnly(items)
    requires forall k :: k in items && StartsWith(k, ProgressPrefix) ==> items[k].Record?
    ensures b in ScanInto(map[], order, items) <==> ProgressKey(b) in items
    ensures ProgressKey(b) in items ==> ScanInto(map[], order, items)[b] == items[ProgressKey(b)].record
  {
    var key := ProgressKey(b);
    if b in CacheIds(order, items) {
      var k :| k in order && Scanned(k, items) && BookIdOf(k) == b;
      SavedKeyForm(k);
    }
    if key in items {
      assert key in order;
      var j :| 0 <= j < |order| && order[j] == key;
      assert BookIdOf(key) == b;
      forall i | j < i < |order| && Scanned(order[i], items)
        ensures BookIdOf(order[i]) != b
      {
        SavedKeyForm(order[i]);
        assert order[i] != order[j];
      }
      ScanLastWins(map[], order, items, j);
    }
  }

  /** A remote list that breaks after `es` leaves the listed books in the map
      and the cache scan adds its books on top: the result draws on both
      sources. */
  lemma PartialRemoteFailureMerges(es: seq<RemoteEntry>, order: seq<string>, items: map<string, Value>)
    ensures ScanInto(PutAll(map[], es), order, items).Keys == RemoteIds(es) + CacheIds(order, items)
  {
  }

  class ReadingService {
    const storage: Store

    constructor (storage: Store)
      ensures this.storage == storage
    {
      this.storage := storage;
    }

    /** `localStorage.getItem('user_id')`, taken as a user only when truthy. */
    function SessionUser(): (u: Option<string>)
      reads storage
      ensures u.Some? <==> storage.TextAt(UserIdKey).Some? && storage.TextAt(UserIdKey).value != ""
      ensures u.Some? ==> u == storage.TextAt(UserIdKey)
    {
      match storage.TextAt(UserIdKey)
      case Some(u) => if u != "" then Some(u) else None
      case None => None
    }

    /** The cache entry for `bookId`, as the fallback of `getProgress` reads it. */
    function Cached(bookId: string): (r: Option<Progress>)
      reads storage
      ensures r.Some? <==> ProgressKey(bookId) in storage.items && storage.items[ProgressKey(bookId)].Record?
      ensures r.Some? ==> storage.items[ProgressKey(bookId)] == Record(r.value)
    {
      var key := ProgressKey(bookId);
      if key in storage.items && storage.items[key].Record? then Some(storage.items[key].record) else None
    }

    /** `saveProgress`. Whether the remote write throws changes nothing
        here: the cache is written with the same record in every case. */
    method SaveProgress(p: Progress, now: Time) returns (posted: Option<PostBody>)
      requires storage.Valid()
      modifies storage
      ensures storage.Valid()
      ensures storage.items == old(storage.items)[ProgressKey(p.bookId) := Record(Stamped(p, now))]
      ensures posted.Some? <==> old(SessionUser()).Some?
      ensures posted.Some? ==>
        posted.value == PostBody(old(SessionUser()).value, p.bookId, p.currentPage, p.progress, now)
    {
      var user := SessionUser();
      posted := None;
      var key := ProgressKey(p.bookId);
      if user.Some? {
        posted := Some(PostBody(user.value, p.bookId, p.currentPage, p.progress, now));
      }
      // when the post throws, the catch block writes this same record
      storage.SetItem(key, Record(Stamped(p, now)));
    }

    /** `getProgress`: the first remote entry for the book wins; otherwise
        (no user, remote error, no match) the cache entry or nothing. */
    method GetProgress(bookId: string, reply: RemoteRead) returns (r: Option<Progress>)
      requires storage.Valid()
      ensures RemoteHit(SessionUser(), reply, bookId).Some? ==>
        r == Some(FromRemote(RemoteHit(SessionUser(), reply, bookId).value))
      ensures RemoteHit(SessionUser(), reply, bookId).None? ==> r == Cached(bookId)
    {
      var user := SessionUser();
      if user.Some? && !reply.ReadFailed? {
        var found := FindRemote(reply.entries, bookId);
        if found.Some? {
          return Some(FromRemote(reply.entries[found.value]));
        }
      }
      var key := ProgressKey(bookId);
      r := None;
      if key in storage.items {
        r := Some(storage.items[key].record);
      }
    }

    /** `getAllProgress`. With a user and a readable list, the list reshaped
        into a map; otherwise the scan of the cache keys in `order`, written
        over whatever the remote loop had already put in. */
    method GetAllProgress(reply: RemoteRead, order: seq<string>) returns (r: map<string, Progress>)
      requires storage.Valid()
      requires Enumerates(order, storage.items)
      ensures SessionUser().Some? && reply.ReadOk? ==> r == PutAll(map[], reply.entries)
      ensures SessionUser().Some? && reply.ReadBrokenAfter? ==>
        r == ScanInto(PutAll(map[], reply.entries), order, storage.items)
      ensures SessionUser().None? || reply.ReadFailed? ==> r == ScanInto(map[], order, storage.items)
    {
      var progress: map<string, Progress> := map[];
      var user := SessionUser();
      if user.Some? && !reply.ReadFailed? {
        var es := reply.entries;
        var i := 0;
        while i < |es|
          invariant 0 <= i <= |es|
          invariant PutAll(progress, es[i..]) == PutAll(map[], es)
        {
          progress := progress[es[i].bookId := FromRemote(es[i])];
          i := i + 1;
        }
        if reply.ReadOk? {
          return progress;
        }
      }
      var i := 0;
      ghost var start := progress;
      while i < |order|
        invariant 0 <= i <= |order|
        invariant ScanInto(progress, order[i..], storage.items) == ScanInto(start, order, storage.items)
      {
        var key := order[i];
        if StartsWith(key, ProgressPrefix) {
          var bookId := BookIdOf(key);
          if key in storage.items {
            progress := progress[bookId := storage.items[key].record];
          }
        }
        i := i + 1;
      }
      r := progress;
    }

    /** `clearProgress`: a best-effort remote delete, then the cache entry is
        removed whatever its outcome, so the outcome is not an input. */
    method ClearProgress(bookId: string) returns (deleted: Option<DeleteRequest>)
      requires storage.Valid()
      modifies storage
      ensures storage.Valid()
      ensures storage.items == old(storage.items) - {ProgressKey(bookId)}
      ensures deleted.Some? <==> old(SessionUser()).Some?
      ensures deleted.Some? ==> deleted.value == DeleteRequest(old(SessionUser()).value, bookId)
    {
      var user := SessionUser();
      deleted := None;
      if user.Some? {
        deleted := Some(DeleteRequest(user.value, bookId));
      }
      storage.RemoveItem(ProgressKey(bookId));
    }
  }
}

/** Client-side scenarios of the synchroniser, stated over its contracts. */
module ReadingScenarios {
  import opened Wrappers
  import opened Types
  import opened Storage
  import opened Reading

  /** Without a user, or with the remote store unreachable, a read after a
      save returns the record just saved. */
  method SaveThenRead(svc: ReadingService, p: Progress, now: Time, reply: RemoteRead)
    returns (r: Option<Progress>)
    requires svc.storage.Valid()
    requires svc.SessionUser().None? || reply.ReadFailed?
    modifies svc.storage
    ensures r == Some(Stamped(p, now))
    ensures r.value.currentPage == p.currentPage
  {
    var _ := svc.SaveProgress(p, now);
    r := svc.GetProgress(p.bookId, reply);
  }

  /** Without a user, a read after a clear finds nothing. */
  method ClearThenRead(svc: ReadingService, bookId: string, reply: RemoteRead)
    returns (r: Option<Progress>)
    requires svc.storage.Valid()
    requires svc.SessionUser().None?
    modifies svc.storage
    ensures r.None?
  {
    var _ := svc.ClearProgress(bookId);
    r := svc.GetProgress(bookId, reply);
  }

  /** Saving the same record twice at the same instant leaves the store as
      the first save left it. */
  method SaveTwice(svc: ReadingService, p: Progress, now: Time)
    requires svc.storage.Valid()
    modifies svc.storage
    ensures svc.storage.items == old(svc.storage.items)[ProgressKey(p.bookId) := Record(Stamped(p, now))]
  {
    var _ := svc.SaveProgress(p, now);
    ghost var once := svc.storage.items;
    var _ := svc.SaveProgress(p, now);
    assert svc.storage.items == once;
  }
}
