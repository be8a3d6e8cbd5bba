/**
 * The per-user local cache: two stores (books and session history), each an
 * unscoped list of records tagged with their owner's id, newest first, plus a
 * "current view" holding the records of the user who is logged in now. Every
 * action rebuilds the list and derives the view again; a subscriber on the
 * authentication store re-derives both views when the user id changes.
 */
module Stores {
  import opened Wrappers
  import opened Api
  import Utils
  import Auth

  /** A cached record tagged with the id of the user it belongs to (`_uid`). */
  datatype Owned<R> = Owned(record: R, uid: string)

  /** `currentUserId()`: the logged-in user's id, or '' when nobody is logged in. */
  function CurrentUserId(auth: Auth.AuthStore): (uid: string)
    reads auth
    ensures auth.userId.None? ==> uid == ""
    ensures auth.userId.Some? ==> uid == auth.userId.value
  {
    auth.userId.GetOr("")
  }

  // ----- the list operations the stores are built from -----

  /** `all.filter(r => r._uid === uid)`: exactly the records owned by `uid`, in list order. */
  function OwnedBy<R>(all: seq<Owned<R>>, uid: string): (view: seq<Owned<R>>)
    ensures |view| <= |all|
    ensures forall x :: x in view ==> x in all && x.uid == uid
    ensures forall x :: x in all && x.uid == uid ==> x in view
  {
    if all == [] then []
    else (if all[0].uid == uid then [all[0]] else []) + OwnedBy(all[1..], uid)
  }

  /** `all.filter(r => r._uid !== uid)`: every record not owned by `uid`, in list order. */
  function OwnedByOthers<R>(all: seq<Owned<R>>, uid: string): (rest: seq<Owned<R>>)
    ensures |rest| <= |all|
    ensures forall x :: x in rest ==> x in all && x.uid != uid
    ensures forall x :: x in all && x.uid != uid ==> x in rest
  {
    if all == [] then []
    else (if all[0].uid != uid then [all[0]] else []) + OwnedByOthers(all[1..], uid)
  }

  /** `all.map(r => ({ ...r, ...f(r) }))`: each record rewritten in place, its owner kept. */
  function MapRecords<R>(all: seq<Owned<R>>, f: R -> R): (mapped: seq<Owned<R>>)
    ensures |mapped| == |all|
    ensures forall i :: 0 <= i < |all| ==> mapped[i] == Owned(f(all[i].record), all[i].uid)
  {
    seq(|all|, i requires 0 <= i < |all| => Owned(f(all[i].record), all[i].uid))
  }

  /** `view.find(r => key(r) === id)`: the first record with that key. */
  function FindFirst<R>(view: seq<Owned<R>>, key: R -> string, id: string): (found: Option<Owned<R>>)
    ensures found.Some? ==> found.value in view && key(found.value.record) == id
    ensures found.None? <==> forall i :: 0 <= i < |view| ==> key(view[i].record) != id
    ensures found.Some? ==> exists i :: 0 <= i < |view| && view[i] == found.value &&
                                        (forall j :: 0 <= j < i ==> key(view[j].record) != id)
  {
    if view == [] then None
    else if key(view[0].record) == id then Some(view[0])
    else
      var found := FindFirst(view[1..], key, id);
      assert found.Some? ==> exists i :: 0 <= i < |view| - 1 && view[1..][i] == found.value &&
                                         (forall j :: 0 <= j < i ==> key(view[1..][j].record) != id);
      found
  }

  /** Filtering a prepended list filters the head and the tail separately. */
  lemma {:induction false} OwnedByAppend<R>(a: seq<Owned<R>>, b: seq<Owned<R>>, uid: string)
    ensures OwnedBy(a + b, uid) == OwnedBy(a, uid) + OwnedBy(b, uid)
  {
    if a == [] {
      assert a + b == b;
    } else {
      var head := if a[0].uid == uid then [a[0]] else [];
      calc {
        OwnedBy(a + b, uid);
        { assert (a + b)[0] == a[0]; }
        head + OwnedBy((a + b)[1..], uid);
        { assert (a + b)[1..] == a[1..] + b; }
        head + OwnedBy(a[1..] + b, uid);
        { OwnedByAppend(a[1..], b, uid); }
        head + (OwnedBy(a[1..], uid) + OwnedBy(b, uid));
        (head + OwnedBy(a[1..], uid)) + OwnedBy(b, uid);
      }
    }
  }

  /** Deriving the view again from a view changes nothing. */
  lemma {:induction false} OwnedByIdempotent<R>(all: seq<Owned<R>>, uid: string)
    ensures OwnedBy(OwnedBy(all, uid), uid) == OwnedBy(all, uid)
  {
    if all != [] {
      OwnedByIdempotent(all[1..], uid);
      OwnedByAppend(if all[0].uid == uid then [all[0]] else [], OwnedBy(all[1..], uid), uid);
    }
  }

  /** Rewriting records in place and then deriving the view is the same as rewriting the view. */
  lemma {:induction false} OwnedByMapRecords<R>(all: seq<Owned<R>>, f: R -> R, uid: string)
    ensures OwnedBy(MapRecords(all, f), uid) == MapRecords(OwnedBy(all, uid), f)
  {
    if all != [] {
      var mapped, first := MapRecords(all, f), Owned(f(all[0].record), all[0].uid);
      var head := if all[0].uid == uid then [all[0]] else [];
      calc {
        OwnedBy(mapped, uid);
        { assert mapped[0] == first; }
        (if first.uid == uid then [first] else []) + OwnedBy(mapped[1..], uid);
        { assert mapped[1..] == MapRecords(all[1..], f); }
        (if first.uid == uid then [first] else []) + OwnedBy(MapRecords(all[1..], f), uid);
        { OwnedByMapRecords(all[1..], f, uid); }
        (if first.uid == uid then [first] else []) + MapRecords(OwnedBy(all[1..], uid), f);
        { assert MapRecords(head, f) == if first.uid == uid then [first] else []; }
        MapRecords(head, f) + MapRecords(OwnedBy(all[1..], uid), f);
        { MapRecordsAppend(head, OwnedBy(all[1..], uid), f); }
        MapRecords(OwnedBy(all, uid), f);
      }
    }
  }

  lemma MapRecordsAppend<R>(a: seq<Owned<R>>, b: seq<Owned<R>>, f: R -> R)
    ensures MapRecords(a + b, f) == MapRecords(a, f) + MapRecords(b, f)
  {
    var whole, parts := MapRecords(a + b, f), MapRecords(a, f) + MapRecords(b, f);
    forall i | 0 <= i < |whole| ensures whole[i] == parts[i] {
      if i < |a| {
        assert (a + b)[i] == a[i];
      } else {
        assert (a + b)[i] == b[i - |a|];
      }
    }
  }

  /**
   * Clearing one user's records leaves nothing for that user and leaves every
   * other user's view exactly as it was, in the same order.
   */
  lemma {:induction false} ClearKeepsOtherOwners<R>(all: seq<Owned<R>>, uid: string, other: string)
    ensures OwnedBy(OwnedByOthers(all, uid), uid) == []
    ensures other != uid ==> OwnedBy(OwnedByOthers(all, uid), other) == OwnedBy(all, other)
  {
    if all != [] {
      ClearKeepsOtherOwners(all[1..], uid, other);
      var head := if all[0].uid != uid then [all[0]] else [];
      OwnedByAppend(head, OwnedByOthers(all[1..], uid), uid);
      OwnedByAppend(head, OwnedByOthers(all[1..], uid), other);
    }
  }

  /** Two users' views never share a record. */
  lemma ViewsAreDisjoint<R>(all: seq<Owned<R>>, u: string, v: string, x: Owned<R>)
    requires u != v && x in OwnedBy(all, u)
    ensures x !in OwnedBy(all, v)
  {
  }

  /**
   * The logged-out view is the records tagged '' (not forced empty); it is
   * empty as long as nothing was added while logged out.
   */
  lemma {:induction false} LoggedOutViewOnlyUntagged<R>(all: seq<Owned<R>>)
    requires forall i :: 0 <= i < |all| ==> all[i].uid != ""
    ensures OwnedBy(all, "") == []
  {
    if all != [] {
      LoggedOutViewOnlyUntagged(all[1..]);
    }
  }

  // ----- the book store -----

  /** `{ ...b, topics }` for the book with the given id; other books are left alone. */
  function WithTopics(b: LocalBook, bookId: string, topics: seq<Topic>): LocalBook {
    if b.bookId == bookId then b.(topics := topics) else b
  }

  /** The persisted blob of the book store: the whole state, view included. */
  datatype StoredBooks = StoredBooks(all: seq<Owned<LocalBook>>, books: seq<Owned<LocalBook>>)

  class BookStore {
    /** The authentication store that `currentUserId()` reads. */
    const auth: Auth.AuthStore
    /** `_allBooks`: every user's books, newest first. */
    var all: seq<Owned<LocalBook>>
    /** `books`: the current user's books. */
    var books: seq<Owned<LocalBook>>

    /** The view is the unscoped list filtered to the current user id. */
    predicate Scoped()
      reads this, auth
    {
      books == OwnedBy(all, CurrentUserId(auth))
    }

    constructor (auth: Auth.AuthStore)
      ensures this.auth == auth && all == [] && books == []
    {
      this.auth := auth;
      all, books := [], [];
    }

    /**
     * Prepends one book stamped with the current user id, with no topics and
     * the given upload time; the old list is the tail, untouched.
     */
    method AddBook(b: NewBook, now: string)
      modifies this
      ensures all == [Owned(LocalBook(b.bookId, b.title, b.authors, now, []), CurrentUserId(auth))] + old(all)
      ensures Scoped()
      ensures old(Scoped()) ==> books == [all[0]] + old(books)
    {
      var uid := CurrentUserId(auth);
      all := [Owned(LocalBook(b.bookId, b.title, b.authors, now, []), uid)] + all;
      books := OwnedBy(all, uid);
      OwnedByAppend([all[0]], old(all), uid);
    }

    /**
     * Replaces the topics of every record with the given id, whoever owns it;
     * length, order, owners and all other fields stay; an unknown id changes nothing.
     */
    method SetTopics(bookId: string, topics: seq<Topic>)
      modifies this
      ensures |all| == |old(all)|
      ensures forall i :: 0 <= i < |all| ==>
        all[i] == Owned(WithTopics(old(all)[i].record, bookId, topics), old(all)[i].uid)
      ensures (forall i :: 0 <= i < |all| ==> old(all)[i].record.bookId != bookId) ==> all == old(all)
      ensures Scoped()
      ensures old(Scoped()) ==> books == MapRecords(old(books), b => WithTopics(b, bookId, topics))
    {
      var uid := CurrentUserId(auth);
      var f := b => WithTopics(b, bookId, topics);
      all := MapRecords(all, f);
      books := OwnedBy(all, uid);
      OwnedByMapRecords(old(all), f, uid);
    }

    /** `getBook`: the first book with this id in the current view, never another user's. */
    function GetBook(bookId: string): (found: Option<Owned<LocalBook>>)
      reads this
      ensures found.Some? ==> found.value in books && found.value.record.bookId == bookId
      ensures found.None? <==> forall i :: 0 <= i < |books| ==> books[i].record.bookId != bookId
      ensures found.Some? ==> exists i :: 0 <= i < |books| && books[i] == found.value &&
                                          (forall j :: 0 <= j < i ==> books[j].record.bookId != bookId)
    {
      FindFirst(books, (b: LocalBook) => b.bookId, bookId)
    }

    /** Drops exactly the current user's books, keeps everyone else's in order, and empties the view. */
    method ClearForUser()
      modifies this
      ensures all == OwnedByOthers(old(all), CurrentUserId(auth))
      ensures books == []
      ensures Scoped()
    {
      var uid := CurrentUserId(auth);
      all := OwnedByOthers(all, uid);
      books := [];
      ClearKeepsOtherOwners(old(all), uid, uid);
    }

    /** Loads the persisted list and derives the view again, ignoring the persisted view. */
    method Rehydrate(stored: StoredBooks)
      modifies this
      ensures all == stored.all && Scoped()
    {
      all, books := stored.all, stored.books;
      books := OwnedBy(all, CurrentUserId(auth));
    }

    /** `resyncBookStore`: re-derives the view only; on a store already in sync it changes nothing. */
    method Resync()
      modifies this
      ensures all == old(all) && Scoped()
      ensures old(Scoped()) ==> books == old(books)
    {
      books := OwnedBy(all, CurrentUserId(auth));
    }
  }

  // ----- the session history store -----

  /** `Partial<LocalSession>`: the fields a patch sets; None leaves the field as it is. */
  datatype SessionPatch = SessionPatch(
    sessionId: Option<string>,
    topicId: Option<string>,
    topicTitle: Option<string>,
    bookTitle: Option<string>,
    tone: Option<SessionTone>,
    durationMinutes: Option<int>,
    startedAt: Option<string>,
    endedAt: Option<string>,
    score: Option<int>,
    failures: Option<int>,
    rejects: Option<int>)

  /** `{ ...s, ...patch }`. */
  function ApplyPatch(s: LocalSession, p: SessionPatch): LocalSession {
    LocalSession(
      p.sessionId.GetOr(s.sessionId),
      p.topicId.GetOr(s.topicId),
      p.topicTitle.GetOr(s.topicTitle),
      p.bookTitle.GetOr(s.bookTitle),
      p.tone.GetOr(s.tone),
      p.durationMinutes.GetOr(s.durationMinutes),
      if p.startedAt.Some? then p.startedAt else s.startedAt,
      if p.endedAt.Some? then p.endedAt else s.endedAt,
      if p.score.Some? then p.score else s.score,
      if p.failures.Some? then p.failures else s.failures,
      if p.rejects.Some? then p.rejects else s.rejects)
  }

  /** The patch `{ ended_at, score }` that a finished session receives. */
  function EndPatch(endedAt: string, score: int): SessionPatch {
    SessionPatch(None, None, None, None, None, None, None, Some(endedAt), Some(score), None, None)
  }

  /** The end-of-session patch sets exactly `endedAt` and `score`. */
  lemma EndPatchSetsOnlyEndAndScore(s: LocalSession, endedAt: string, score: int)
    ensures ApplyPatch(s, EndPatch(endedAt, score)) == s.(endedAt := Some(endedAt), score := Some(score))
  {
  }

  /** The patch applied to the session with the given id; other sessions are left alone. */
  function PatchIfId(s: LocalSession, sessionId: string, p: SessionPatch): LocalSession {
    if s.sessionId == sessionId then ApplyPatch(s, p) else s
  }

  /** The persisted blob of the session store: the whole state, view included. */
  datatype StoredSessions = StoredSessions(all: seq<Owned<LocalSession>>, sessions: seq<Owned<LocalSession>>)

  class SessionHistoryStore {
    /** The authentication store that `currentUserId()` reads. */
    const auth: Auth.AuthStore
    /** `_allSessions`: every user's sessions, newest first. */
    var all: seq<Owned<LocalSession>>
    /** `sessions`: the current user's sessions. */
    var sessions: seq<Owned<LocalSession>>

    /** The view is the unscoped list filtered to the current user id. */
    predicate Scoped()
      reads this, auth
    {
      sessions == OwnedBy(all, CurrentUserId(auth))
    }

    constructor (auth: Auth.AuthStore)
      ensures this.auth == auth && all == [] && sessions == []
    {
      this.auth := auth;
      all, sessions := [], [];
    }

    /** Prepends the session stamped with the current user id; the old list is the tail, untouched. */
    method AddSession(session: LocalSession)
      modifies this
      ensures all == [Owned(session, CurrentUserId(auth))] + old(all)
      ensures Scoped()
      ensures old(Scoped()) ==> sessions == [all[0]] + old(sessions)
    {
      var uid := CurrentUserId(auth);
      all := [Owned(session, uid)] + all;
      sessions := OwnedBy(all, uid);
      OwnedByAppend([all[0]], old(all), uid);
    }

    /**
     * Merges the patch into every record with the given id, whoever owns it;
     * length, order and owners stay; an unknown id changes nothing.
     */
    method UpdateSession(sessionId: string, patch: SessionPatch)
      modifies this
      ensures |all| == |old(all)|
      ensures forall i :: 0 <= i < |all| ==>
        all[i] == Owned(PatchIfId(old(all)[i].record, sessionId, patch), old(all)[i].uid)
      ensures (forall i :: 0 <= i < |all| ==> old(all)[i].record.sessionId != sessionId) ==> all == old(all)
      ensures Scoped()
      ensures old(Scoped()) ==> sessions == MapRecords(old(sessions), s => PatchIfId(s, sessionId, patch))
    {
      var uid := CurrentUserId(auth);
      var f := s => PatchIfId(s, sessionId, patch);
      all := MapRecords(all, f);
      sessions := OwnedBy(all, uid);
      OwnedByMapRecords(old(all), f, uid);
    }

    /** `getSession`: the first session with this id in the current view, never another user's. */
    function GetSession(sessionId: string): (found: Option<Owned<LocalSession>>)
      reads this
      ensures found.Some? ==> found.value in sessions && found.value.record.sessionId == sessionId
      ensures found.None? <==> forall i :: 0 <= i < |sessions| ==> sessions[i].record.sessionId != sessionId
      ensures found.Some? ==> exists i :: 0 <= i < |sessions| && sessions[i] == found.value &&
                                          (forall j :: 0 <= j < i ==> sessions[j].record.sessionId != sessionId)
    {
      FindFirst(sessions, (s: LocalSession) => s.sessionId, sessionId)
    }

    /** Drops exactly the current user's sessions, keeps everyone else's in order, and empties the view. */
    method ClearForUser()
      modifies this
      ensures all == OwnedByOthers(old(all), CurrentUserId(auth))
      ensures sessions == []
      ensures Scoped()
    {
      var uid := CurrentUserId(auth);
      all := OwnedByOthers(all, uid);
      sessions := [];
      ClearKeepsOtherOwners(old(all), uid, uid);
    }

    /** Loads the persisted list and derives the view again, ignoring the persisted view. */
    method Rehydrate(stored: StoredSessions)
      modifies this
      ensures all == stored.all && Scoped()
    {
      all, sessions := stored.all, stored.sessions;
      sessions := OwnedBy(all, CurrentUserId(auth));
    }

    /** `resyncSessionStore`: re-derives the view only; on a store already in sync it changes nothing. */
    method Resync()
      modifies this
      ensures all == old(all) && Scoped()
      ensures old(Scoped()) ==> sessions == old(sessions)
    {
      sessions := OwnedBy(all, CurrentUserId(auth));
    }
  }

  // ----- the auth subscriber -----

  /**
   * The authentication store, the two caches and the module-level subscriber
   * that keeps `_prevUserId` and re-derives both views when the user id changes.
   */
  class Client {
    const auth: Auth.AuthStore
    const books: BookStore
    const sessions: SessionHistoryStore
    /** `_prevUserId`: the user id the subscriber saw last. */
    var prevUserId: Option<string>

    /** Both stores read this auth store, the subscriber is up to date, and both views are scoped. */
    ghost predicate Valid()
      reads this, auth, books, sessions
    {
      && books.auth == auth && sessions.auth == auth
      && prevUserId == auth.userId
      && books.Scoped() && sessions.Scoped()
    }

    /**
     * Start-up: the auth store and both caches are loaded from storage (each
     * cache derives its view with the restored user id), then the subscriber
     * starts from the restored user id.
     */
    constructor Startup(parse: Utils.PayloadParser, storedAuth: Option<Auth.PersistedAuth>,
                        storedBooks: Option<StoredBooks>, storedSessions: Option<StoredSessions>)
      ensures Valid() && fresh(auth) && fresh(books) && fresh(sessions)
      ensures storedAuth.Some? ==> auth.Persisted() == storedAuth.value
      ensures storedAuth.None? ==> auth.token == None && auth.userId == None
      ensures books.all == (if storedBooks.Some? then storedBooks.value.all else [])
      ensures sessions.all == (if storedSessions.Some? then storedSessions.value.all else [])
    {
      var a := new Auth.AuthStore(parse);
      if storedAuth.Some? {
        a.Rehydrate(storedAuth.value);
      }
      var b := new BookStore(a);
      if storedBooks.Some? {
        b.Rehydrate(storedBooks.value);
      }
      var s := new SessionHistoryStore(a);
      if storedSessions.Some? {
        s.Rehydrate(storedSessions.value);
      }
      auth, books, sessions := a, b, s;
      prevUserId := a.userId;
    }

    /**
     * Start-up as the source wires it: identical, except that the subscriber
     * starts from null although the auth store may already hold a user id.
     */
    constructor StartupAsWritten(parse: Utils.PayloadParser, storedAuth: Option<Auth.PersistedAuth>,
                                 storedBooks: Option<StoredBooks>, storedSessions: Option<StoredSessions>)
      ensures fresh(auth) && fresh(books) && fresh(sessions)
      ensures books.auth == auth && sessions.auth == auth
      ensures books.Scoped() && sessions.Scoped() && prevUserId == None
      ensures storedAuth.Some? ==> auth.Persisted() == storedAuth.value
      ensures books.all == (if storedBooks.Some? then storedBooks.value.all else [])
      ensures sessions.all == (if storedSessions.Some? then storedSessions.value.all else [])
    {
      var a := new Auth.AuthStore(parse);
      if storedAuth.Some? {
        a.Rehydrate(storedAuth.value);
      }
      var b := new BookStore(a);
      if storedBooks.Some? {
        b.Rehydrate(storedBooks.value);
      }
      var s := new SessionHistoryStore(a);
      if storedSessions.Some? {
        s.Rehydrate(storedSessions.value);
      }
      auth, books, sessions := a, b, s;
      prevUserId := None;
    }

    /**
     * The subscriber, run after every change of the auth store: both views are
     * re-derived exactly when the user id differs from the last one seen, and
     * that id is recorded. The unscoped lists never change.
     */
    method OnAuthChange() returns (resynced: bool)
      requires books.auth == auth && sessions.auth == auth
      modifies this, books, sessions
      ensures resynced == (auth.userId != old(prevUserId))
      ensures prevUserId == auth.userId
      ensures books.all == old(books.all) && sessions.all == old(sessions.all)
      ensures resynced ==> books.Scoped() && sessions.Scoped()
      ensures !resynced ==> books.books == old(books.books) && sessions.sessions == old(sessions.sessions)
    {
      resynced := auth.userId != prevUserId;
      if resynced {
        prevUserId := auth.userId;
        books.Resync();
        sessions.Resync();
      }
    }

    /** `setAuth` followed by the subscriber: the views now belong to the new user. */
    method Login(token: string, uid: string)
      requires Valid()
      modifies this, auth, books, sessions
      ensures Valid()
      ensures auth.token == Some(token) && auth.userId == Some(uid)
      ensures books.all == old(books.all) && sessions.all == old(sessions.all)
      ensures books.books == OwnedBy(books.all, uid) && sessions.sessions == OwnedBy(sessions.all, uid)
    {
      auth.SetAuth(token, uid);
      var _ := OnAuthChange();
    }

    /** `logout` followed by the subscriber: the views hold only records tagged ''. */
    method Logout()
      requires Valid()
      modifies this, auth, books, sessions
      ensures Valid()
      ensures auth.token == None && auth.userId == None
      ensures books.all == old(books.all) && sessions.all == old(sessions.all)
      ensures books.books == OwnedBy(books.all, "") && sessions.sessions == OwnedBy(sessions.all, "")
    {
      auth.Logout();
      var _ := OnAuthChange();
    }
  }

  /** A user's book saved in an earlier visit, with that user's token. */
  function RestoredBooks(): StoredBooks {
    StoredBooks([Owned(LocalBook("b1", "Physics 101", None, "2024-01-01T00:00:00.000Z", []), "u1")], [])
  }

  function RestoredAuth(): Auth.PersistedAuth {
    Auth.PersistedAuth(Some("header.payload.signature"), Some("u1"), None, None)
  }

  /**
   * As written: after a reload with user u1 still logged in, the first logout
   * does not re-derive the views (null equals the initial `_prevUserId`), so
   * the book view keeps u1's book while the current user id is ''.
   */
  method RestoredLogoutLeaksView() returns (leaked: bool)
    ensures leaked
  {
    var c := new Client.StartupAsWritten((seg: string) => None, Some(RestoredAuth()), Some(RestoredBooks()), None);
    assert c.books.books == RestoredBooks().all;
    c.auth.Logout();
    var resynced := c.OnAuthChange();
    assert !resynced;
    leaked := c.books.books != OwnedBy(c.books.all, CurrentUserId(c.auth));
  }

  /** With the subscriber starting from the restored id, the same reload and logout leave an empty view. */
  method RestoredLogoutStaysScoped() returns (scoped: bool)
    ensures scoped
  {
    var c := new Client.Startup((seg: string) => None, Some(RestoredAuth()), Some(RestoredBooks()), None);
    c.Logout();
    scoped := c.books.books == [] && c.books.books == OwnedBy(c.books.all, CurrentUserId(c.auth));
  }
}
