/** The paginated reader (src/pages/ReadBook.tsx): it loads a book, restores
    the saved page, turns pages from buttons or arrow keys, and hands the
    reading-progress synchroniser a record after every page that actually
    changes. */
module ReadBookPage {
  import opened Wrappers
  import opened Types
  import opened Storage
  import opened Reading

  datatype Direction = Prev | Next

  /** The five pages shown when the server sends a book without content
      (the chapter texts are abbreviated to their headings). */
  const DefaultContent: seq<string> := ["Chapter 1", "Chapter 2", "Chapter 3", "Chapter 4", "Chapter 5"]

  /** A route parameter is used only when it is truthy. */
  predicate Present(id: Option<string>) {
    id.Some? && id.value != ""
  }

  /** `handleKeyPress`: the left arrow turns back, the right arrow forward,
      every other key is ignored. */
  function KeyDirection(key: string): (d: Option<Direction>)
    ensures d == Some(Prev) <==> key == "ArrowLeft"
    ensures d == Some(Next) <==> key == "ArrowRight"
    ensures d.None? <==> key != "ArrowLeft" && key != "ArrowRight"
  {
    if key == "ArrowLeft" then Some(Prev)
    else if key == "ArrowRight" then Some(Next)
    else None
  }

  /** The page `handlePageChange` moves to from `page` in a book of `pages`
      pages. */
  function Turn(page: int, pages: int, dir: Direction): (r: int)
    ensures r != page <==> (dir == Prev && page > 1) || (dir == Next && page < pages)
    ensures r == page || (dir == Prev && r == page - 1) || (dir == Next && r == page + 1)
    ensures 1 <= page <= pages ==> 1 <= r <= pages
  {
    if dir == Prev && page > 1 then page - 1
    else if dir == Next && page < pages then page + 1
    else page
  }

  /** The record the reader passes to `saveProgress` for `page`; the
      percentage is computed here, not by the synchroniser. */
  function SaveArgs(bookId: string, page: int, pages: int): (p: Progress)
    requires pages > 0
    ensures p.bookId == bookId && p.currentPage == page && p.totalPages == Some(pages)
    ensures p.progress * (pages as real) == (page as real) * 100.0
    ensures p.userId.None? && p.status.None? && p.lastReadAt.None?
  {
    Progress(bookId, page, (page as real / pages as real) * 100.0, None, Some(pages), None, None)
  }

  /** What is cached for a page turned onto: 100 per cent and completed on
      the last page; otherwise in progress with a percentage strictly between
      0 and 100 for a page in range. */
  lemma SavedPageStatus(bookId: string, page: int, pages: int, now: Time)
    requires 1 <= page <= pages
    ensures var s := Stamped(SaveArgs(bookId, page, pages), now);
      && (page == pages ==> s.progress == 100.0 && s.status == Some(Completed))
      && (page < pages ==> 0.0 < s.progress < 100.0 && s.status == Some(InProgress))
  {
    var p := SaveArgs(bookId, page, pages);
    assert p.progress * (pages as real) == (page as real) * 100.0;
    if page < pages {
      assert p.progress * (pages as real) < 100.0 * (pages as real);
    }
  }

  /** The content the reader uses: the server's if it sent a non-empty one,
      the default pages otherwise. */
  function ContentOrDefault(content: Option<seq<string>>): (r: seq<string>)
    ensures |r| > 0
    ensures content.Some? && content.value != [] ==> r == content.value
    ensures content.None? || content.value == [] ==> r == DefaultContent
  {
    if content.None? || content.value == [] then DefaultContent else content.value
  }

  /** `progress.currentPage || 1`: a restored page of 0 becomes 1; a page
      beyond the content is kept as it is. */
  function RestoredPage(p: Progress): (r: int)
    ensures p.currentPage != 0 ==> r == p.currentPage
    ensures p.currentPage == 0 ==> r == 1
  {
    if p.currentPage == 0 then 1 else p.currentPage
  }

  class Reader {
    const id: Option<string>
    /** `book?.content`: `None` while no book has been loaded. */
    var content: Option<seq<string>>
    var currentPage: int
    var loading: bool
    /** The content the keyboard listener sees. The listener is registered
        again only when the page changes, and it keeps the `book` of the
        render that registered it; at mount that is no book at all. */
    var keyContent: Option<seq<string>>

    ghost predicate Valid()
      reads this
    {
      && (content.Some? ==> |content.value| > 0)
      && (keyContent.Some? ==> |keyContent.value| > 0)
    }

    constructor (id: Option<string>)
      ensures Valid() && this.id == id
      ensures content.None? && currentPage == 1 && loading && keyContent.None?
    {
      this.id := id;
      content := None;
      currentPage := 1;
      loading := true;
      keyContent := None;
    }

    /** `loadBook`. `fetched` is what `getBookById` returned (`None` when it
        threw); the saved progress is read from `svc` with the remote reply
        `reply`. A restored page that differs from the current one
        re-registers the keyboard listener with the loaded content. */
    method LoadBook(fetched: Option<Book>, svc: ReadingService, reply: RemoteRead)
      requires Valid() && svc.storage.Valid()
      modifies this
      ensures Valid()
      ensures !Present(id) ==> content == old(content) && currentPage == old(currentPage) && loading == old(loading)
      ensures Present(id) ==> !loading
      ensures Present(id) && fetched.None? ==> content == old(content) && currentPage == old(currentPage)
      ensures Present(id) && fetched.Some? ==> content == Some(ContentOrDefault(fetched.value.content))
      ensures Present(id) && fetched.Some? ==>
        var saved := if RemoteHit(svc.SessionUser(), reply, id.value).Some?
                     then Some(FromRemote(RemoteHit(svc.SessionUser(), reply, id.value).value))
                     else svc.Cached(id.value);
        currentPage == if saved.Some? then RestoredPage(saved.value) else old(currentPage)
      ensures currentPage != old(currentPage) ==> keyContent == content
      ensures currentPage == old(currentPage) ==> keyContent == old(keyContent)
    {
      if !Present(id) {
        return;
      }
      loading := true;
      if fetched.None? {
        loading := false;
        return;
      }
      content := Some(ContentOrDefault(fetched.value.content));
      var progress := svc.GetProgress(id.value, reply);
      if progress.Some? && RestoredPage(progress.value) != currentPage {
        currentPage := RestoredPage(progress.value);
        keyContent := content;
      }
      loading := false;
    }

    /** The page's own `saveProgress` as a handler whose render saw `view`:
        the record for the synchroniser, or nothing when there is no book id
        or no content. */
    function SaveRequest(view: Option<seq<string>>, page: int): (r: Option<Progress>)
      requires view.Some? ==> |view.value| > 0
      ensures r.Some? <==> Present(id) && view.Some?
      ensures r.Some? ==> r.value == SaveArgs(id.value, page, |view.value|)
    {
      if !Present(id) || view.None? then None else Some(SaveArgs(id.value, page, |view.value|))
    }

    /** `handlePageChange` as defined in a render that saw the content `view`:
        a guarded move by one page, followed by a save exactly when the page
        changed. A changed page re-registers the keyboard listener, which then
        sees the current content. */
    method ChangePage(view: Option<seq<string>>, dir: Direction) returns (saved: Option<Progress>)
      requires Valid() && (view.Some? ==> |view.value| > 0)
      modifies this`currentPage, this`keyContent
      ensures Valid()
      ensures view.None? ==> currentPage == old(currentPage) && saved.None?
      ensures view.Some? ==> currentPage == Turn(old(currentPage), |view.value|, dir)
      ensures currentPage != old(currentPage) ==> keyContent == content
      ensures currentPage == old(currentPage) ==> keyContent == old(keyContent)
      ensures saved.Some? <==> currentPage != old(currentPage) && Present(id)
      ensures saved.Some? ==> saved.value == SaveArgs(id.value, currentPage, |view.value|)
    {
      saved := None;
      if view.None? {
        return;
      }
      var newPage := Turn(currentPage, |view.value|, dir);
      if newPage != currentPage {
        currentPage := newPage;
        keyContent := content;
        saved := SaveRequest(view, newPage);
      }
    }

    /** `handlePageChange` from the buttons, which belong to the current render. */
    method HandlePageChange(dir: Direction) returns (saved: Option<Progress>)
      requires Valid()
      modifies this`currentPage, this`keyContent
      ensures Valid()
      ensures content.None? ==> currentPage == old(currentPage) && saved.None?
      ensures content.Some? ==> currentPage == Turn(old(currentPage), |content.value|, dir)
      ensures currentPage != old(currentPage) ==> keyContent == content
      ensures currentPage == old(currentPage) ==> keyContent == old(keyContent)
      ensures saved.Some? <==> currentPage != old(currentPage) && Present(id)
      ensures saved.Some? ==> saved.value == SaveArgs(id.value, currentPage, |content.value|)
    {
      saved := ChangePage(content, dir);
    }

    /** `handleKeyPress`: an arrow key runs the `handlePageChange` of the
        render that registered the listener, so it sees `keyContent`. */
    method HandleKeyPress(key: string) returns (saved: Option<Progress>)
      requires Valid()
      modifies this`currentPage, this`keyContent
      ensures Valid()
      ensures KeyDirection(key).None? || old(keyContent).None? ==>
        currentPage == old(currentPage) && saved.None? && keyContent == old(keyContent)
      ensures KeyDirection(key).Some? && old(keyContent).Some? ==>
        currentPage == Turn(old(currentPage), |old(keyContent).value|, KeyDirection(key).value)
      ensures currentPage != old(currentPage) ==> keyContent == content
      ensures currentPage == old(currentPage) ==> keyContent == old(keyContent)
      ensures saved.Some? <==> currentPage != old(currentPage) && Present(id)
      ensures saved.Some? ==> saved.value == SaveArgs(id.value, currentPage, |old(keyContent).value|)
    {
      saved := None;
      var dir := KeyDirection(key);
      if dir.Some? {
        saved := ChangePage(keyContent, dir.value);
      }
    }
  }

  /** A page turn followed by the save it triggers: when the reader lands on
      the last page, the cache holds that book as completed at 100 per cent. */
  method TurnAndSave(reader: Reader, svc: ReadingService, dir: Direction, now: Time)
    requires reader.Valid() && svc.storage.Valid()
    modifies reader`currentPage, reader`keyContent, svc.storage
    ensures reader.Valid() && svc.storage.Valid()
    ensures reader.currentPage == old(reader.currentPage) ==> svc.storage.items == old(svc.storage.items)
    ensures reader.currentPage != old(reader.currentPage) ==> reader.content.Some?
    ensures reader.currentPage != old(reader.currentPage) && Present(reader.id) ==>
      svc.storage.items == old(svc.storage.items)[ProgressKey(reader.id.value) :=
        Record(Stamped(SaveArgs(reader.id.value, reader.currentPage, |reader.content.value|), now))]
    ensures (reader.currentPage != old(reader.currentPage) && Present(reader.id) &&
             reader.currentPage == |reader.content.value|) ==>
      var key := ProgressKey(reader.id.value);
      && svc.storage.items[key].record.progress == 100.0
      && svc.storage.items[key].record.status == Some(Completed)
  {
    var saved := reader.HandlePageChange(dir);
    if saved.Some? {
      var _ := svc.SaveProgress(saved.value, now);
      if reader.currentPage == |reader.content.value| {
        SavedPageStatus(reader.id.value, reader.currentPage, |reader.content.value|, now);
      }
    }
  }

  /** The keyboard listener registered at mount saw no book. When loading
      leaves the page where it was (no saved progress, or progress restored
      to the page already shown), the listener is not registered again, so
      the arrow keys turn no page and save nothing until a button does. */
  method ArrowKeysIdleAfterLoad(id: Option<string>, fetched: Option<Book>, svc: ReadingService,
                                reply: RemoteRead, key: string)
    returns (page: int, saved: Option<Progress>)
    requires svc.storage.Valid()
    requires Present(id) && fetched.Some?
    requires RemoteHit(svc.SessionUser(), reply, id.value).None?
    requires svc.Cached(id.value).None? || RestoredPage(svc.Cached(id.value).value) == 1
    ensures page == 1 && saved.None?
  {
    var reader := new Reader(id);
    reader.LoadBook(fetched, svc, reply);
    saved := reader.HandleKeyPress(key);
    page := reader.currentPage;
  }
}
