/**
 The calendar federation pull protocol: `calendar_sync` serves pages
 (crates/owney-api/src/wellknown.rs), `sync_federation` pulls them
 (crates/owney-api/src/calendar_sync.rs) and `apply_page` mirrors their events
 (crates/owney-api/src/fed_apply.rs).
 */
module Federation {
  import opened Collections
  import opened Text

  /** A remote event's id, known here by its rank in text order; the empty string ranks 0. */
  datatype Uid = Uid(rank: nat)

  /** The subscriber's own ids: of federations, calendars and local events. */
  datatype Id = Id(serial: nat)

  const MAX_EVENTS_PER_PAGE: nat := 500

  datatype Content = Content(title: string, description: Option<string>, start: int, end: int, rrule: Option<string>)

  datatype Event = Event(content: Content, updatedAt: int, remote: bool)

  /** A position in the order (updated_at, id). */
  datatype Cursor = Cursor(since: int, after: Uid)

  /** A sealed event; `payload` is what opening it gives, `None` if it is rejected as invalid or untrusted. */
  datatype Item = Item(uid: Uid, updatedAt: int, payload: Option<Content>)

  datatype Page = Page(items: seq<Item>, next: Cursor, hasMore: bool)

  predicate Before(a: Cursor, b: Cursor) {
    a.since < b.since || (a.since == b.since && a.after.rank < b.after.rank)
  }

  predicate AtOrBefore(a: Cursor, b: Cursor) {
    a == b || Before(a, b)
  }

  // ---- serving -------------------------------------------------------------------------

  predicate Native(server: map<Uid, Event>, id: Uid) {
    id in server && !server[id].remote
  }

  function Key(server: map<Uid, Event>, id: Uid): Cursor
    requires id in server
  {
    Cursor(server[id].updatedAt, id)
  }

  /** The rows of `list_calendar_events_page`: the first `limit` native events past the cursor, in order. */
  ghost predicate IsRows(server: map<Uid, Event>, from: Cursor, limit: nat, rows: seq<Uid>) {
    && |rows| <= limit
    && (forall i :: 0 <= i < |rows| ==> Native(server, rows[i]) && Before(from, Key(server, rows[i])))
    && (forall i, j :: 0 <= i < j < |rows| ==> Before(Key(server, rows[i]), Key(server, rows[j])))
    && (forall id :: Native(server, id) && Before(from, Key(server, id)) && id !in rows ==>
          |rows| == limit && forall i :: 0 <= i < |rows| ==> Before(Key(server, rows[i]), Key(server, id)))
  }

  function ItemOf(server: map<Uid, Event>, id: Uid): Item
    requires id in server
  {
    Item(id, server[id].updatedAt, Some(server[id].content))
  }

  /** The next cursor is the last row, or on an empty page the same second with an empty id. */
  function NextCursor(server: map<Uid, Event>, from: Cursor, rows: seq<Uid>): Cursor
    requires forall i :: 0 <= i < |rows| ==> rows[i] in server
  {
    if rows == [] then Cursor(from.since, Uid(0)) else Key(server, rows[|rows| - 1])
  }

  function PageOf(server: map<Uid, Event>, from: Cursor, rows: seq<Uid>): Page
    requires forall i :: 0 <= i < |rows| ==> rows[i] in server
  {
    Page(seq(|rows|, i requires 0 <= i < |rows| => ItemOf(server, rows[i])),
         NextCursor(server, from, rows),
         |rows| == MAX_EVENTS_PER_PAGE)
  }

  /** `calendar_sync` after its authorisation checks; `rows` is the answer of the database. */
  method CalendarSync(server: map<Uid, Event>, from: Cursor, rows: seq<Uid>) returns (page: Page)
    requires IsRows(server, from, MAX_EVENTS_PER_PAGE, rows)
    ensures page == PageOf(server, from, rows)
  {
    var hasMore := |rows| == MAX_EVENTS_PER_PAGE;
    var nextUpdatedAt, nextId := from.since, Uid(0);
    var items: seq<Item> := [];
    for i := 0 to |rows|
      invariant items == seq(i, k requires 0 <= k < i => ItemOf(server, rows[k]))
      invariant Cursor(nextUpdatedAt, nextId) == NextCursor(server, from, rows[..i])
    {
      var e := server[rows[i]];
      items := items + [Item(rows[i], e.updatedAt, Some(e.content))];
      nextUpdatedAt, nextId := e.updatedAt, rows[i];
    }
    assert rows[..|rows|] == rows;
    page := Page(items, Cursor(nextUpdatedAt, nextId), hasMore);
  }

  /** The database can always answer: take the first pending event, then the rest. */
  lemma {:induction false} RowsExist(server: map<Uid, Event>, from: Cursor, limit: nat) returns (rows: seq<Uid>)
    ensures IsRows(server, from, limit, rows)
    decreases limit
  {
    var pending := set u | u in server && Native(server, u) && Before(from, Key(server, u));
    if limit == 0 || pending == {} {
      rows := [];
      assert forall u :: Native(server, u) && Before(from, Key(server, u)) ==> u in pending;
    } else {
      var first := Earliest(server, pending);
      var rest := RowsExist(server, Key(server, first), limit - 1);
      rows := [first] + rest;
      assert forall u :: Native(server, u) && Before(from, Key(server, u)) ==> u in pending;
    }
  }

  lemma Earliest(server: map<Uid, Event>, pool: set<Uid>) returns (first: Uid)
    requires pool != {} && pool <= server.Keys
    ensures first in pool && forall u :: u in pool && u != first ==> Before(Key(server, first), Key(server, u))
  {
    first := FirstExists(pool, (a, b) => a in server && b in server && Before(Key(server, a), Key(server, b)));
  }

  ghost function Pending(server: map<Uid, Event>, from: Cursor): set<Uid> {
    set id | id in server && Native(server, id) && Before(from, Key(server, id))
  }

  /**
   A page carries, with its current content, every native event past the cursor
   up to the next one; the next cursor moves on by the page's size, or on an
   empty page only drops the id.
   */
  lemma PageCovers(server: map<Uid, Event>, from: Cursor, rows: seq<Uid>)
    requires IsRows(server, from, MAX_EVENTS_PER_PAGE, rows)
    ensures var page := PageOf(server, from, rows);
            && (forall id ::
                  Native(server, id) && Before(from, Key(server, id)) && AtOrBefore(Key(server, id), page.next) ==>
                    id in rows)
            && (rows == [] ==> page.next == Cursor(from.since, Uid(0)) && !page.hasMore)
            && (rows != [] ==> Before(from, page.next))
            && (!page.hasMore ==> forall id :: Native(server, id) && Before(from, Key(server, id)) ==> id in rows)
  {
    if rows != [] {
      assert rows[|rows| - 1] in rows;
    }
  }

  lemma RowsAreDistinct(server: map<Uid, Event>, from: Cursor, rows: seq<Uid>)
    requires IsRows(server, from, MAX_EVENTS_PER_PAGE, rows)
    ensures Distinct(rows)
  {
    forall i, j | 0 <= i < j < |rows| ensures rows[i] != rows[j] {
      assert Before(Key(server, rows[i]), Key(server, rows[j]));
    }
  }

  lemma FullPageShrinks(server: map<Uid, Event>, from: Cursor, rows: seq<Uid>)
    requires IsRows(server, from, MAX_EVENTS_PER_PAGE, rows) && |rows| == MAX_EVENTS_PER_PAGE
    ensures |Pending(server, PageOf(server, from, rows).next)| + MAX_EVENTS_PER_PAGE <= |Pending(server, from)|
  {
    var next := PageOf(server, from, rows).next;
    RowsAreDistinct(server, from, rows);
    DistinctSize(rows);
    forall i | 0 <= i < |rows| ensures !Before(next, Key(server, rows[i])) && rows[i] in Pending(server, from) {
      assert i == |rows| - 1 || Before(Key(server, rows[i]), next);
    }
    DisjointSize(Elements(rows), Pending(server, next), Pending(server, from));
  }

  lemma DisjointSize<T>(a: set<T>, b: set<T>, whole: set<T>)
    requires a !! b && a <= whole && b <= whole
    ensures |a| + |b| <= |whole|
  {
    assert |a + b| == |a| + |b|;
    SubsetSize(a + b, whole);
  }

  // ---- applying ------------------------------------------------------------------------

  /** `origin` is the federation a mirrored event came through; local events have none. */
  datatype Local = Local(content: Content, calendar: Id, origin: Option<Id>)

  /** Every local id was minted here, below `minted`. */
  datatype Calendar = Calendar(events: map<Id, Local>, eventMap: map<Id, map<Uid, Id>>, minted: nat)

  datatype Subscription = Subscription(id: Id, calendar: Id)

  function MapOf(m: Calendar, fed: Id): map<Uid, Id> {
    if fed in m.eventMap then m.eventMap[fed] else map[]
  }

  /** One event: update the event its uid maps to, or mint a local one and map it. */
  function Applied(m: Calendar, sub: Subscription, item: Item): Calendar {
    var known: map<Uid, Id> := MapOf(m, sub.id);
    match item.payload
    case None => m
    case Some(content) =>
      if item.uid in known then
        var id := known[item.uid];
        if id in m.events && m.events[id].origin.Some?
        then m.(events := m.events[id := m.events[id].(content := content)]) else m
      else
        Calendar(m.events[Id(m.minted) := Local(content, sub.calendar, Some(sub.id))],
                 m.eventMap[sub.id := known[item.uid := Id(m.minted)]],
                 m.minted + 1)
  }

  function AppliedAll(m: Calendar, sub: Subscription, items: seq<Item>): Calendar
    decreases |items|
  {
    if items == [] then m else Applied(AppliedAll(m, sub, items[..|items| - 1]), sub, items[|items| - 1])
  }

  /** How the storage calls of one item go: look the uid up, write the event and, if it is new, map it. */
  datatype Fate = Stored | LookupFails | WriteFails | MapFails

  /** An item is applied if it is trusted and every call it takes succeeds; only a new event takes the last one. */
  predicate Lands(m: Calendar, fed: Id, item: Item, fate: Fate) {
    item.payload.Some? && (fate == Stored || (fate == MapFails && item.uid in MapOf(m, fed)))
  }

  /** A new event was created, and mapping it failed. */
  predicate Orphans(m: Calendar, fed: Id, item: Item, fate: Fate) {
    item.payload.Some? && fate == MapFails && item.uid !in MapOf(m, fed)
  }

  /** Creating an event without mapping it leaves one that no uid leads to. */
  function Orphaned(m: Calendar, sub: Subscription, content: Content): Calendar {
    m.(events := m.events[Id(m.minted) := Local(content, sub.calendar, Some(sub.id))], minted := m.minted + 1)
  }

  function Tried(m: Calendar, sub: Subscription, item: Item, fate: Fate): Calendar {
    if Lands(m, sub.id, item, fate) then Applied(m, sub, item)
    else if Orphans(m, sub.id, item, fate) then Orphaned(m, sub, item.payload.value)
    else m
  }

  /** The items of a page in order: one that fails is skipped, and the page goes on. */
  function TriedAll(m: Calendar, sub: Subscription, items: seq<Item>, fates: nat -> Fate): Calendar
    decreases |items|
  {
    if items == [] then m
    else
      var k := |items| - 1;
      Tried(TriedAll(m, sub, items[..k], fates), sub, items[k], fates(k))
  }

  /** The items that were applied. */
  function Landed(m: Calendar, sub: Subscription, items: seq<Item>, fates: nat -> Fate): seq<Item>
    decreases |items|
  {
    if items == [] then []
    else
      var k := |items| - 1;
      Landed(m, sub, items[..k], fates)
      + if Lands(TriedAll(m, sub, items[..k], fates), sub.id, items[k], fates(k)) then [items[k]] else []
  }

  datatype Cert = Missing | Broken | Usable

  /** `None` stops the pull before anything of the page is applied. */
  function TriedPage(m: Calendar, sub: Subscription, page: Page, cert: Cert, fates: nat -> Fate): Option<Calendar> {
    match cert
    case Broken => None
    case Missing => if page.items == [] then Some(m) else None
    case Usable => Some(TriedAll(m, sub, page.items, fates))
  }

  /** What a request comes to: the page served, its author's certificate, and how the own database takes the items. */
  datatype Response = Served(page: Page, cert: Cert, fates: nat -> Fate) | Refused | Unreachable

  /** What the i-th request of a pull, which names a cursor, comes to. */
  type Peer = (nat, Cursor) -> Response

  datatype PullResult = Complete(mirror: Calendar, cursor: Cursor) | Broke(mirror: Calendar)

  /** What a pull makes of a peer, from request `i` on; the connection is lost after `n` of them. */
  function Pulled(m: Calendar, sub: Subscription, peer: Peer, from: Cursor, i: nat, n: nat): PullResult
    requires i <= n
    decreases n - i
  {
    if i == n then Broke(m)
    else
      match peer(i, from)
      case Refused => Broke(m)
      case Unreachable => Broke(m)
      case Served(page, cert, fates) =>
        match TriedPage(m, sub, page, cert, fates)
        case None => Broke(m)
        case Some(next) =>
          if page.hasMore then Pulled(next, sub, peer, page.next, i + 1, n) else Complete(next, page.next)
  }

  /** A federation that was never pulled starts from the beginning. */
  function TokenOf(tokens: map<Id, Cursor>, fed: Id): Cursor {
    if fed in tokens then tokens[fed] else Cursor(0, Uid(0))
  }

  class Mirror {
    var events: map<Id, Local>
    var eventMap: map<Id, map<Uid, Id>>
    var minted: nat
    /** The stored sync token of each federation. */
    var tokens: map<Id, Cursor>

    function Contents(): Calendar
      reads this
    {
      Calendar(events, eventMap, minted)
    }

    /** A storage error is reported to the caller; what was written before it stays. */
    method ApplyOne(sub: Subscription, item: Item, fate: Fate) returns (ok: bool)
      modifies this`events, this`eventMap, this`minted
      ensures Contents() == old(Tried(Contents(), sub, item, fate))
      ensures ok == old(Lands(Contents(), sub.id, item, fate))
    {
      if item.payload.None? {
        return false;
      }
      var content := item.payload.value;
      if fate == LookupFails {
        return false;
      }
      var known: map<Uid, Id> := MapOf(Contents(), sub.id);
      if item.uid in known {
        if fate == WriteFails {
          return false;
        }
        var id := known[item.uid];
        if id in events && events[id].origin.Some? {
          events := events[id := events[id].(content := content)];
        }
      } else {
        if fate == WriteFails {
          return false;
        }
        var id := Id(minted);
        minted := minted + 1;
        events := events[id := Local(content, sub.calendar, Some(sub.id))];
        if fate == MapFails {
          return false;
        }
        eventMap := eventMap[sub.id := known[item.uid := id]];
      }
      ok := true;
    }

    /** Items that are not trusted or fail on a storage error are skipped, and do not count as applied. */
    method ApplyPage(sub: Subscription, page: Page, cert: Cert, fates: nat -> Fate) returns (applied: Option<nat>)
      modifies this`events, this`eventMap, this`minted
      ensures var r := old(TriedPage(Contents(), sub, page, cert, fates));
              applied.Some? == r.Some? && Contents() == if r.Some? then r.value else old(Contents())
      ensures applied.Some? ==>
                applied.value ==
                if cert == Usable then |old(Landed(Contents(), sub, page.items, fates))| else 0
    {
      if cert == Broken {
        return None;
      }
      if cert == Missing {
        return if page.items == [] then Some(0) else None;
      }
      var count := 0;
      for i := 0 to |page.items|
        invariant Contents() == TriedAll(old(Contents()), sub, page.items[..i], fates)
        invariant count == |Landed(old(Contents()), sub, page.items[..i], fates)|
      {
        assert page.items[..i + 1][..i] == page.items[..i];
        var ok := ApplyOne(sub, page.items[i], fates(i));
        if ok {
          count := count + 1;
        }
      }
      assert page.items[..|page.items|] == page.items;
      applied := Some(count);
    }

    /** The pull loop, from the stored token; only a pull that reaches its last page moves the token. */
    method SyncFederation(sub: Subscription, peer: Peer, n: nat, tokenStored: bool) returns (ok: bool)
      modifies this
      ensures var r := old(Pulled(Contents(), sub, peer, TokenOf(tokens, sub.id), 0, n));
              && ok == (r.Complete? && tokenStored) && Contents() == r.mirror
              && tokens == if ok then old(tokens)[sub.id := r.cursor] else old(tokens)
    {
      var i := 0;
      var cursor := TokenOf(tokens, sub.id);
      while i < n
        invariant 0 <= i <= n
        invariant tokens == old(tokens)
        invariant Pulled(Contents(), sub, peer, cursor, i, n) ==
                  old(Pulled(Contents(), sub, peer, TokenOf(tokens, sub.id), 0, n))
      {
        var response := peer(i, cursor);
        if !response.Served? {
          return false;
        }
        var page := response.page;
        var applied := ApplyPage(sub, page, response.cert, response.fates);
        if applied.None? {
          return false;
        }
        cursor := page.next;
        if !page.hasMore {
          if tokenStored {
            tokens := tokens[sub.id := cursor];
          }
          return tokenStored;
        }
        i := i + 1;
      }
      ok := false;
    }
  }

  // ---- the mirror --------------------------------------------------------------------------

  /** A federation's map leads, one to one, to events that came through it. */
  ghost predicate MapOk(events: map<Id, Local>, fed: Id, known: map<Uid, Id>) {
    && (forall u :: u in known ==> known[u] in events && events[known[u]].origin == Some(fed))
    && (forall u, v :: u in known && v in known && known[u] == known[v] ==> u == v)
  }

  ghost predicate MirrorOk(m: Calendar) {
    && (forall id :: id in m.events ==> id.serial < m.minted)
    && (forall f :: f in m.eventMap ==> MapOk(m.events, f, m.eventMap[f]))
  }

  /** The map stays one to one across federations, because an event remembers where it came from. */
  lemma MapIsInjective(m: Calendar, f: Id, u: Uid, g: Id, v: Uid)
    requires MirrorOk(m) && u in MapOf(m, f) && v in MapOf(m, g) && MapOf(m, f)[u] == MapOf(m, g)[v]
    ensures f == g && u == v
  {
    assert MapOk(m.events, f, m.eventMap[f]) && MapOk(m.events, g, m.eventMap[g]);
  }

  /** What the mirror shows of a federation's remote event. */
  function Seen(m: Calendar, fed: Id, u: Uid): Option<Content> {
    var known := MapOf(m, fed);
    if u in known && known[u] in m.events then Some(m.events[known[u]].content) else None
  }

  ghost predicate Mapped(m: Calendar, fed: Id, id: Id) {
    exists u :: u in MapOf(m, fed) && MapOf(m, fed)[u] == id
  }

  /** The last trusted version of each remote event in a series of items. */
  function Latest(items: seq<Item>, u: Uid): Option<Content>
    decreases |items|
  {
    if items == [] then None
    else
      var last := items[|items| - 1];
      if last.uid == u && last.payload.Some? then last.payload else Latest(items[..|items| - 1], u)
  }

  function Newer(content: Option<Content>, older: Option<Content>): Option<Content> {
    if content.Some? then content else older
  }

  lemma ApplyShows(m: Calendar, sub: Subscription, item: Item, u: Uid)
    requires MirrorOk(m)
    ensures Seen(Applied(m, sub, item), sub.id, u) ==
            if item.uid == u then Newer(item.payload, Seen(m, sub.id, u)) else Seen(m, sub.id, u)
  {
    assert sub.id in m.eventMap ==> MapOk(m.events, sub.id, m.eventMap[sub.id]);
  }

  lemma ApplyKeeps(m: Calendar, sub: Subscription, item: Item)
    requires MirrorOk(m)
    ensures MirrorOk(Applied(m, sub, item))
  {
    var n := Applied(m, sub, item);
    assert MapOk(m.events, sub.id, MapOf(m, sub.id));
    forall f | f in n.eventMap ensures MapOk(n.events, f, n.eventMap[f]) {
      if f != sub.id {
        assert MapOk(m.events, f, m.eventMap[f]);
      }
    }
  }

  /** `n` differs from `m` at most inside the federation's own map; mappings made earlier stay. */
  ghost predicate Isolated(m: Calendar, n: Calendar, fed: Id) {
    && (forall id :: id in m.events && !Mapped(m, fed, id) ==> id in n.events && n.events[id] == m.events[id])
    && (forall f :: f != fed ==> MapOf(n, f) == MapOf(m, f))
    && (forall u :: u in MapOf(m, fed) ==> u in MapOf(n, fed) && MapOf(n, fed)[u] == MapOf(m, fed)[u])
    && (forall u :: u in MapOf(n, fed) && u !in MapOf(m, fed) ==> MapOf(n, fed)[u] !in m.events)
    && (forall id :: id in m.events ==> id in n.events)
  }

  lemma ApplyIsIsolated(m: Calendar, sub: Subscription, item: Item)
    requires MirrorOk(m)
    ensures Isolated(m, Applied(m, sub, item), sub.id)
  {
    if item.payload.Some? && item.uid in MapOf(m, sub.id) {
      assert Mapped(m, sub.id, MapOf(m, sub.id)[item.uid]);
    }
  }

  lemma IsolatedThrough(a: Calendar, b: Calendar, c: Calendar, fed: Id)
    requires Isolated(a, b, fed) && Isolated(b, c, fed)
    ensures Isolated(a, c, fed)
  {
    forall u | u in MapOf(b, fed) && MapOf(b, fed)[u] in a.events ensures Mapped(a, fed, MapOf(b, fed)[u]) {
      assert u in MapOf(a, fed);
    }
  }

  /** What other federations show is untouched as well. */
  lemma OtherViewsStay(m: Calendar, n: Calendar, fed: Id, other: Id, u: Uid)
    requires MirrorOk(m) && Isolated(m, n, fed) && other != fed
    ensures Seen(n, other, u) == Seen(m, other, u)
  {
    if u in MapOf(m, other) {
      assert MapOk(m.events, other, m.eventMap[other]);
      assert fed in m.eventMap ==> MapOk(m.events, fed, m.eventMap[fed]);
      assert !Mapped(m, fed, MapOf(m, other)[u]);
    }
  }

  lemma ApplyOneMore(m: Calendar, n: Calendar, sub: Subscription, item: Item)
    requires MirrorOk(n) && Isolated(m, n, sub.id)
    ensures var k := Applied(n, sub, item); MirrorOk(k) && Isolated(m, k, sub.id)
  {
    ApplyKeeps(n, sub, item);
    ApplyIsIsolated(n, sub, item);
    IsolatedThrough(m, n, Applied(n, sub, item), sub.id);
  }

  /** Applying any items, with repeats, keeps the map one to one and touches nothing outside the federation. */
  lemma {:induction false} ApplyAllIsIsolated(m: Calendar, sub: Subscription, items: seq<Item>)
    requires MirrorOk(m)
    ensures var n := AppliedAll(m, sub, items); MirrorOk(n) && Isolated(m, n, sub.id)
    decreases |items|
  {
    if items != [] {
      ApplyAllIsIsolated(m, sub, items[..|items| - 1]);
      ApplyOneMore(m, AppliedAll(m, sub, items[..|items| - 1]), sub, items[|items| - 1]);
    }
  }

  /** The mirror shows the last trusted version of each remote event over what was there. */
  lemma {:induction false} ApplyAllShowsLatest(m: Calendar, sub: Subscription, items: seq<Item>, u: Uid)
    requires MirrorOk(m)
    ensures Seen(AppliedAll(m, sub, items), sub.id, u) == Newer(Latest(items, u), Seen(m, sub.id, u))
    decreases |items|
  {
    if items != [] {
      var front := items[..|items| - 1];
      ApplyAllShowsLatest(m, sub, front, u);
      ApplyAllIsIsolated(m, sub, front);
      ApplyShows(AppliedAll(m, sub, front), sub, items[|items| - 1], u);
    }
  }

  /** Redelivery is harmless: series with the same last versions leave the same mirror, repeats included. */
  lemma ApplyIsIdempotent(m: Calendar, sub: Subscription, once: seq<Item>, again: seq<Item>, u: Uid)
    requires MirrorOk(m) && Latest(again, u) == Latest(once, u)
    ensures Seen(AppliedAll(m, sub, again), sub.id, u) == Seen(AppliedAll(m, sub, once), sub.id, u)
    ensures var done := AppliedAll(m, sub, once);
            Seen(AppliedAll(done, sub, again), sub.id, u) == Seen(done, sub.id, u)
  {
    ApplyAllShowsLatest(m, sub, once, u);
    ApplyAllShowsLatest(m, sub, again, u);
    ApplyAllIsIsolated(m, sub, once);
    ApplyAllShowsLatest(AppliedAll(m, sub, once), sub, again, u);
  }

  /** `Latest` is what its name says: the payload of a trusted item that no later trusted item of the uid follows. */
  lemma {:induction false} LatestIsLast(items: seq<Item>, u: Uid)
    ensures Latest(items, u) == None <==> forall i :: 0 <= i < |items| && items[i].uid == u ==> items[i].payload == None
    ensures Latest(items, u).Some? ==>
              exists i :: 0 <= i < |items| && items[i].uid == u && items[i].payload == Latest(items, u)
                          && forall j :: i < j < |items| && items[j].uid == u ==> items[j].payload == None
    decreases |items|
  {
    if items != [] {
      var front, last := items[..|items| - 1], items[|items| - 1];
      LatestIsLast(front, u);
      assert forall i :: 0 <= i < |front| ==> front[i] == items[i];
      if last.uid == u && last.payload.Some? {
        assert items[|items| - 1].payload == Latest(items, u);
      } else if Latest(front, u).Some? {
        var i :| 0 <= i < |front| && front[i].uid == u && front[i].payload == Latest(front, u)
                 && forall j :: i < j < |front| && front[j].uid == u ==> front[j].payload == None;
        assert items[i].payload == Latest(items, u);
      }
    }
  }

  // ---- items that fail ---------------------------------------------------------------------

  lemma OrphanIsUnmapped(m: Calendar, sub: Subscription, content: Content)
    requires MirrorOk(m)
    ensures var o := Orphaned(m, sub, content);
            && MirrorOk(o) && MapOf(o, sub.id) == MapOf(m, sub.id) && !Mapped(o, sub.id, Id(m.minted))
            && forall u :: Seen(o, sub.id, u) == Seen(m, sub.id, u)
  {
    var o := Orphaned(m, sub, content);
    forall f | f in o.eventMap ensures MapOk(o.events, f, o.eventMap[f]) {
      assert MapOk(m.events, f, m.eventMap[f]);
    }
    assert sub.id in m.eventMap ==> MapOk(m.events, sub.id, m.eventMap[sub.id]);
  }

  /** An item that is not applied changes nothing that the federation shows. */
  lemma TryShows(m: Calendar, sub: Subscription, item: Item, fate: Fate, u: Uid)
    requires MirrorOk(m)
    ensures var n := Tried(m, sub, item, fate);
            && MirrorOk(n) && Isolated(m, n, sub.id)
            && Seen(n, sub.id, u) ==
               if item.uid == u && Lands(m, sub.id, item, fate) then item.payload else Seen(m, sub.id, u)
  {
    if Lands(m, sub.id, item, fate) {
      ApplyKeeps(m, sub, item);
      ApplyIsIsolated(m, sub, item);
      ApplyShows(m, sub, item, u);
    } else if Orphans(m, sub.id, item, fate) {
      OrphanIsUnmapped(m, sub, item.payload.value);
    }
  }

  /**
   However the storage calls of a page go: nothing outside the federation changes, the map
   stays one to one, and the mirror shows the last version that was applied over what was there.
   */
  lemma {:induction false} TryAllShowsLanded(m: Calendar, sub: Subscription, items: seq<Item>,
                                             fates: nat -> Fate, u: Uid)
    requires MirrorOk(m)
    ensures var n := TriedAll(m, sub, items, fates);
            && MirrorOk(n) && Isolated(m, n, sub.id)
            && Seen(n, sub.id, u) == Newer(Latest(Landed(m, sub, items, fates), u), Seen(m, sub.id, u))
    decreases |items|
  {
    if items != [] {
      var k := |items| - 1;
      var before := TriedAll(m, sub, items[..k], fates);
      var landed := Landed(m, sub, items[..k], fates);
      TryAllShowsLanded(m, sub, items[..k], fates, u);
      TryShows(before, sub, items[k], fates(k), u);
      IsolatedThrough(m, before, TriedAll(m, sub, items, fates), sub.id);
      if Lands(before, sub.id, items[k], fates(k)) {
        assert Landed(m, sub, items, fates)[..|landed|] == landed;
      } else {
        assert Landed(m, sub, items, fates) == landed;
      }
    }
  }

  /** Where no storage call fails, a page is applied as a whole. */
  lemma {:induction false} AllStored(m: Calendar, sub: Subscription, items: seq<Item>, fates: nat -> Fate)
    requires forall k :: 0 <= k < |items| ==> fates(k) == Stored
    ensures TriedAll(m, sub, items, fates) == AppliedAll(m, sub, items)
    decreases |items|
  {
    if items != [] {
      AllStored(m, sub, items[..|items| - 1], fates);
    }
  }

  /** The local events that came through a federation. */
  ghost function EventsOf(m: Calendar, fed: Id): set<Id> {
    set id | id in m.events && m.events[id].origin == Some(fed)
  }

  /** The events of a federation that no uid leads to. */
  ghost function Strays(m: Calendar, fed: Id): set<Id> {
    set id | id in m.events && m.events[id].origin == Some(fed) && !Mapped(m, fed, id)
  }

  /** The events of a federation that a uid leads to. */
  ghost function Mirrored(m: Calendar, fed: Id): set<Id> {
    set id | id in m.events && m.events[id].origin == Some(fed) && Mapped(m, fed, id)
  }

  /** Each known remote event has exactly one local event, besides the strays. */
  lemma OneEventEach(m: Calendar, fed: Id)
    requires MirrorOk(m)
    ensures |EventsOf(m, fed)| == |MapOf(m, fed)| + |Strays(m, fed)|
  {
    MirroredSize(m, fed);
    assert EventsOf(m, fed) == Mirrored(m, fed) + Strays(m, fed);
  }

  lemma MirroredSize(m: Calendar, fed: Id)
    requires MirrorOk(m)
    ensures |Mirrored(m, fed)| == |MapOf(m, fed)|
  {
    var known := MapOf(m, fed);
    assert MapOk(m.events, fed, known);
    forall u | u in known ensures known[u] in Mirrored(m, fed) {
      assert Mapped(m, fed, known[u]);
    }
    InjectiveSize(known, Mirrored(m, fed));
  }

  lemma {:induction false} InjectiveSize(known: map<Uid, Id>, image: set<Id>)
    requires forall u :: u in known ==> known[u] in image
    requires forall u, v :: u in known && v in known && known[u] == known[v] ==> u == v
    requires forall id :: id in image ==> exists u :: u in known && known[u] == id
    ensures |image| == |known|
    decreases known.Keys
  {
    if known == map[] {
      assert image == {};
    } else {
      var u :| u in known;
      var rest := known - {u};
      assert rest.Keys == known.Keys - {u};
      forall id | id in image - {known[u]} ensures exists v :: v in rest && rest[v] == id {
        var v :| v in known && known[v] == id;
        assert v in rest;
      }
      InjectiveSize(rest, image - {known[u]});
    }
  }

  lemma OrphanStrays(m: Calendar, sub: Subscription, content: Content)
    requires MirrorOk(m)
    ensures Id(m.minted) !in m.events
    ensures Strays(Orphaned(m, sub, content), sub.id) == Strays(m, sub.id) + {Id(m.minted)}
  {
    var o := Orphaned(m, sub, content);
    OrphanIsUnmapped(m, sub, content);
    assert forall id :: Mapped(o, sub.id, id) <==> Mapped(m, sub.id, id);
  }

  lemma ApplyStrays(m: Calendar, sub: Subscription, item: Item)
    requires MirrorOk(m)
    ensures Strays(Applied(m, sub, item), sub.id) == Strays(m, sub.id)
  {
    var n := Applied(m, sub, item);
    assert sub.id in m.eventMap ==> MapOk(m.events, sub.id, m.eventMap[sub.id]);
    if item.payload.Some? && item.uid !in MapOf(m, sub.id) {
      assert MapOf(n, sub.id)[item.uid] == Id(m.minted);
      forall id | id in m.events ensures Mapped(n, sub.id, id) <==> Mapped(m, sub.id, id) {
        MappedLater(m, n, sub.id, id);
      }
      assert Mapped(n, sub.id, Id(m.minted));
    } else {
      assert MapOf(n, sub.id) == MapOf(m, sub.id);
      assert forall id :: Mapped(n, sub.id, id) <==> Mapped(m, sub.id, id);
    }
  }

  /** Mapping new events leaves the others mapped or not as they were. */
  lemma MappedLater(m: Calendar, n: Calendar, fed: Id, id: Id)
    requires id in m.events
    requires forall u :: u in MapOf(m, fed) ==> u in MapOf(n, fed) && MapOf(n, fed)[u] == MapOf(m, fed)[u]
    requires forall u :: u in MapOf(n, fed) && u !in MapOf(m, fed) ==> MapOf(n, fed)[u] !in m.events
    ensures Mapped(n, fed, id) <==> Mapped(m, fed, id)
  {
    if Mapped(m, fed, id) {
      var u :| u in MapOf(m, fed) && MapOf(m, fed)[u] == id;
      assert u in MapOf(n, fed) && MapOf(n, fed)[u] == id;
    }
  }

  /** A stray is made exactly where a new event is created and not mapped, and nothing ever touches it again. */
  lemma TryStrays(m: Calendar, sub: Subscription, item: Item, fate: Fate)
    requires MirrorOk(m)
    ensures var n := Tried(m, sub, item, fate);
            && Strays(n, sub.id) ==
               Strays(m, sub.id) + (if Orphans(m, sub.id, item, fate) then {Id(m.minted)} else {})
            && Id(m.minted) !in Strays(m, sub.id)
            && forall id :: id in Strays(m, sub.id) ==> n.events[id] == m.events[id]
  {
    TryShows(m, sub, item, fate, item.uid);
    if Lands(m, sub.id, item, fate) {
      ApplyStrays(m, sub, item);
    } else if Orphans(m, sub.id, item, fate) {
      OrphanStrays(m, sub, item.payload.value);
    }
  }

  /**
   The event that was created and not mapped, in a crash or on a storage error, and the one
   that the next delivery of its uid creates, with whatever content it has by then, are twins.
   */
  lemma OrphanDuplicates(m: Calendar, o: Calendar, sub: Subscription, content: Content, item: Item)
    requires MirrorOk(m) && item.payload.Some? && item.uid !in MapOf(m, sub.id)
    requires o == Orphaned(m, sub, content)
    ensures var n := Applied(o, sub, item);
            && MirrorOk(n) && Seen(n, sub.id, item.uid) == item.payload
            && n.events == m.events[Id(m.minted) := Local(content, sub.calendar, Some(sub.id))]
                                   [Id(m.minted + 1) := Local(item.payload.value, sub.calendar, Some(sub.id))]
            && !Mapped(n, sub.id, Id(m.minted)) && Mapped(n, sub.id, Id(m.minted + 1))
  {
    OrphanIsUnmapped(m, sub, content);
    ApplyKeeps(o, sub, item);
    CreatedIsMapped(o, sub, item, Id(m.minted));
  }

  lemma CreatedIsMapped(m: Calendar, sub: Subscription, item: Item, other: Id)
    requires item.payload.Some? && item.uid !in MapOf(m, sub.id)
    requires !Mapped(m, sub.id, other) && other != Id(m.minted)
    ensures var n := Applied(m, sub, item); Mapped(n, sub.id, Id(m.minted)) && !Mapped(n, sub.id, other)
  {
    assert MapOf(Applied(m, sub, item), sub.id)[item.uid] == Id(m.minted);
  }

  // ---- one complete pull ---------------------------------------------------------------

  predicate Fresh(server: map<Uid, Event>, m: Calendar, fed: Id, u: Uid)
    requires u in server
  {
    Seen(m, fed, u) == Some(server[u].content)
  }

  /** The native events from `low` (exclusive) to `high` (inclusive) are shown as they are. */
  ghost predicate Covered(server: map<Uid, Event>, m: Calendar, fed: Id, low: Cursor, high: Cursor) {
    forall u :: Native(server, u) && Before(low, Key(server, u)) && AtOrBefore(Key(server, u), high) ==>
      Fresh(server, m, fed, u)
  }

  ghost predicate AllCovered(server: map<Uid, Event>, m: Calendar, fed: Id, low: Cursor) {
    forall u :: Native(server, u) && Before(low, Key(server, u)) ==> Fresh(server, m, fed, u)
  }

  /** A page of this server, whichever rows the database gives. */
  ghost predicate IsPage(server: map<Uid, Event>, from: Cursor, response: Response) {
    exists rows :: IsServed(server, from, response, rows)
  }

  ghost predicate IsServed(server: map<Uid, Event>, from: Cursor, response: Response, rows: seq<Uid>) {
    && IsRows(server, from, MAX_EVENTS_PER_PAGE, rows)
    && response.Served? && response.page == PageOf(server, from, rows) && response.cert == Usable
  }

  /** The peer is an unchanging server that answers every request. */
  ghost predicate Honest(server: map<Uid, Event>, peer: Peer) {
    forall i, from :: Answers(server, peer, i, from)
  }

  ghost predicate Answers(server: map<Uid, Event>, peer: Peer, i: nat, from: Cursor) {
    IsPage(server, from, peer(i, from))
  }

  /** No storage call of the subscriber fails. */
  ghost predicate Sound(peer: Peer) {
    forall i, from :: StoresAll(peer, i, from)
  }

  ghost predicate StoresAll(peer: Peer, i: nat, from: Cursor) {
    peer(i, from).Served? ==> forall k :: peer(i, from).fates(k) == Stored
  }

  ghost function SomeRows(server: map<Uid, Event>, from: Cursor): (rows: seq<Uid>)
    ensures IsRows(server, from, MAX_EVENTS_PER_PAGE, rows)
  {
    RowsCanBeChosen(server, from);
    var rows :| IsRows(server, from, MAX_EVENTS_PER_PAGE, rows);
    rows
  }

  lemma RowsCanBeChosen(server: map<Uid, Event>, from: Cursor)
    ensures exists rows :: IsRows(server, from, MAX_EVENTS_PER_PAGE, rows)
  {
    var rows := RowsExist(server, from, MAX_EVENTS_PER_PAGE);
  }

  /** Every server has a peer that is honest about it, and may meet a database that works. */
  lemma HonestPeer(server: map<Uid, Event>) returns (peer: Peer)
    ensures Honest(server, peer) && Sound(peer)
  {
    peer := (i: nat, from: Cursor) => Served(PageOf(server, from, SomeRows(server, from)), Usable, (k: nat) => Stored);
    forall i: nat, from: Cursor ensures Answers(server, peer, i, from) {
      assert IsServed(server, from, peer(i, from), SomeRows(server, from));
    }
  }

  /** The one item of a page about an event carries its content as served. */
  lemma PageLatest(server: map<Uid, Event>, from: Cursor, rows: seq<Uid>, u: Uid)
    requires IsRows(server, from, MAX_EVENTS_PER_PAGE, rows)
    ensures var latest := Latest(PageOf(server, from, rows).items, u);
            if u in rows then u in server && latest == Some(server[u].content) else latest == None
  {
    var items := PageOf(server, from, rows).items;
    LatestIsLast(items, u);
    assert forall i :: 0 <= i < |rows| ==> items[i] == ItemOf(server, rows[i]);
    if u in rows {
      var i :| 0 <= i < |rows| && rows[i] == u;
      assert items[i].uid == u;
    }
  }

  /** After a page everything from `low` to the new cursor is shown, and after the last page everything past `low`. */
  lemma PageConverges(server: map<Uid, Event>, m: Calendar, sub: Subscription, low: Cursor,
                      from: Cursor, rows: seq<Uid>)
    requires MirrorOk(m) && IsRows(server, from, MAX_EVENTS_PER_PAGE, rows) && Covered(server, m, sub.id, low, from)
    ensures var page := PageOf(server, from, rows);
            var n := AppliedAll(m, sub, page.items);
            && Covered(server, n, sub.id, low, page.next)
            && (!page.hasMore ==> AllCovered(server, n, sub.id, low))
  {
    var page := PageOf(server, from, rows);
    var n := AppliedAll(m, sub, page.items);
    PageCovers(server, from, rows);
    forall u | Native(server, u) && Before(low, Key(server, u)) && (u in rows || AtOrBefore(Key(server, u), from))
      ensures Fresh(server, n, sub.id, u)
    {
      ApplyAllShowsLatest(m, sub, page.items, u);
      PageLatest(server, from, rows, u);
    }
  }

  /** One request of a pull to an honest peer. */
  lemma PulledPage(m: Calendar, sub: Subscription, server: map<Uid, Event>, peer: Peer, from: Cursor, i: nat, n: nat)
    returns (rows: seq<Uid>, next: Calendar)
    requires Honest(server, peer) && i < n
    ensures IsServed(server, from, peer(i, from), rows)
    ensures next == TriedAll(m, sub, PageOf(server, from, rows).items, peer(i, from).fates)
    ensures Sound(peer) ==> next == AppliedAll(m, sub, PageOf(server, from, rows).items)
    ensures var page := PageOf(server, from, rows);
            Pulled(m, sub, peer, from, i, n) ==
            if page.hasMore then Pulled(next, sub, peer, page.next, i + 1, n) else Complete(next, page.next)
  {
    assert Answers(server, peer, i, from);
    rows :| IsServed(server, from, peer(i, from), rows);
    next := TriedAll(m, sub, PageOf(server, from, rows).items, peer(i, from).fates);
    if Sound(peer) {
      assert StoresAll(peer, i, from);
      AllStored(m, sub, PageOf(server, from, rows).items, peer(i, from).fates);
    }
  }

  /** Every page that is not the last leaves 500 events fewer. */
  lemma PullShrinks(m: Calendar, sub: Subscription, server: map<Uid, Event>, peer: Peer, from: Cursor, i: nat, n: nat)
    returns (more: bool, next: Calendar, cursor: Cursor)
    requires Honest(server, peer) && i < n
    ensures Pulled(m, sub, peer, from, i, n) ==
            if more then Pulled(next, sub, peer, cursor, i + 1, n) else Complete(next, cursor)
    ensures more ==> |Pending(server, cursor)| + MAX_EVENTS_PER_PAGE <= |Pending(server, from)|
  {
    var rows, after := PulledPage(m, sub, server, peer, from, i, n);
    var page := PageOf(server, from, rows);
    more, next, cursor := page.hasMore, after, page.next;
    if more {
      FullPageShrinks(server, from, rows);
    }
  }

  lemma {:induction false} PullEnds(m: Calendar, sub: Subscription, server: map<Uid, Event>, peer: Peer,
                                    from: Cursor, i: nat, n: nat)
    requires Honest(server, peer) && i <= n && (n - i) * MAX_EVENTS_PER_PAGE > |Pending(server, from)|
    ensures Pulled(m, sub, peer, from, i, n).Complete?
    decreases n - i
  {
    var more, next, cursor := PullShrinks(m, sub, server, peer, from, i, n);
    if more {
      assert (n - i) * MAX_EVENTS_PER_PAGE == (n - (i + 1)) * MAX_EVENTS_PER_PAGE + MAX_EVENTS_PER_PAGE;
      PullEnds(next, sub, server, peer, cursor, i + 1, n);
    }
  }

  lemma {:induction false} PullShows(m: Calendar, sub: Subscription, server: map<Uid, Event>, peer: Peer,
                                     low: Cursor, from: Cursor, i: nat, n: nat)
    requires MirrorOk(m) && Honest(server, peer) && Sound(peer) && Covered(server, m, sub.id, low, from) && i <= n
    ensures var r := Pulled(m, sub, peer, from, i, n);
            MirrorOk(r.mirror) && (r.Complete? ==> AllCovered(server, r.mirror, sub.id, low))
    decreases n - i
  {
    if i < n {
      var rows, next := PulledPage(m, sub, server, peer, from, i, n);
      var page := PageOf(server, from, rows);
      ApplyAllIsIsolated(m, sub, page.items);
      PageConverges(server, m, sub, low, from, rows);
      if page.hasMore {
        PullShows(next, sub, server, peer, low, page.next, i + 1, n);
      }
    }
  }

  /**
   A pull against an unchanging server ends within |events past the cursor| / 500 + 1
   pages, and then, if no storage call failed, mirrors every event past `low` as it is.
   */
  lemma CompletePullConverges(m: Calendar, sub: Subscription, server: map<Uid, Event>, peer: Peer,
                              low: Cursor, from: Cursor, n: nat)
    requires MirrorOk(m) && Honest(server, peer) && Covered(server, m, sub.id, low, from)
    ensures var r := Pulled(m, sub, peer, from, 0, n);
            && (n * MAX_EVENTS_PER_PAGE > |Pending(server, from)| ==> r.Complete?)
            && (Sound(peer) ==> MirrorOk(r.mirror))
            && (Sound(peer) && r.Complete? ==> AllCovered(server, r.mirror, sub.id, low))
  {
    if n * MAX_EVENTS_PER_PAGE > |Pending(server, from)| {
      PullEnds(m, sub, server, peer, from, 0, n);
    }
    if Sound(peer) {
      PullShows(m, sub, server, peer, low, from, 0, n);
    }
  }

  /** A page never carries what lies at or before the cursor it was asked for. */
  lemma NotServed(server: map<Uid, Event>, from: Cursor, rows: seq<Uid>, u: Uid)
    requires IsRows(server, from, MAX_EVENTS_PER_PAGE, rows) && u in server && AtOrBefore(Key(server, u), from)
    ensures u !in rows && (rows != [] ==> AtOrBefore(Key(server, u), NextCursor(server, from, rows)))
  {
    if rows != [] {
      assert rows[|rows| - 1] in rows;
    }
  }

  /**
   An event stamped at or before the cursor is not delivered by any pull. The cursor
   stays past it unless the pull ends on an empty page in the event's own second:
   only then does the next pull serve it again.
   */
  lemma {:induction false} EditBehindTheCursorIsMissed(m: Calendar, sub: Subscription, server: map<Uid, Event>,
                                                       peer: Peer, from: Cursor, i: nat, n: nat, u: Uid)
    requires MirrorOk(m) && Honest(server, peer) && i <= n
    requires Native(server, u) && AtOrBefore(Key(server, u), from)
    ensures var r := Pulled(m, sub, peer, from, i, n);
            && Seen(r.mirror, sub.id, u) == Seen(m, sub.id, u)
            && (r.Complete? ==>
                  (AtOrBefore(Key(server, u), r.cursor) <==>
                   r.cursor != Cursor(server[u].updatedAt, Uid(0)) || u == Uid(0)))
    decreases n - i
  {
    if i < n {
      var rows, next := PulledPage(m, sub, server, peer, from, i, n);
      var page := PageOf(server, from, rows);
      NotServed(server, from, rows, u);
      PageTried(m, sub, server, from, rows, peer(i, from).fates, u);
      if page.hasMore {
        EditBehindTheCursorIsMissed(next, sub, server, peer, page.next, i + 1, n, u);
      }
    }
  }

  /** A complete pull ends no earlier than the second it started in, nor than any event it found waiting. */
  lemma {:induction false} CursorAdvances(m: Calendar, sub: Subscription, server: map<Uid, Event>, peer: Peer,
                                          from: Cursor, i: nat, n: nat, w: Uid)
    requires Honest(server, peer) && i <= n && Native(server, w)
    requires Pulled(m, sub, peer, from, i, n).Complete?
    ensures var end := Pulled(m, sub, peer, from, i, n).cursor;
            from.since <= end.since && (Before(from, Key(server, w)) ==> server[w].updatedAt <= end.since)
    decreases n - i
  {
    var rows, next := PulledPage(m, sub, server, peer, from, i, n);
    var page := PageOf(server, from, rows);
    PageCovers(server, from, rows);
    if w in rows {
      var j :| 0 <= j < |rows| && rows[j] == w;
      assert j == |rows| - 1 || Before(Key(server, rows[j]), Key(server, rows[|rows| - 1]));
    }
    if page.hasMore {
      CursorAdvances(next, sub, server, peer, page.next, i + 1, n, w);
    }
  }

  /** The events that a pull was served and did not apply. */
  ghost function Missed(m: Calendar, sub: Subscription, peer: Peer, from: Cursor, i: nat, n: nat): set<Uid>
    requires i <= n
    decreases n - i
  {
    if i == n || !peer(i, from).Served? || peer(i, from).cert != Usable then {}
    else
      var page, fates := peer(i, from).page, peer(i, from).fates;
      (Uids(page.items) - Uids(Landed(m, sub, page.items, fates)))
      + if page.hasMore then Missed(TriedAll(m, sub, page.items, fates), sub, peer, page.next, i + 1, n) else {}
  }

  ghost function Uids(items: seq<Item>): set<Uid> {
    set i | 0 <= i < |items| :: items[i].uid
  }

  lemma {:induction false} LandedAreItems(m: Calendar, sub: Subscription, items: seq<Item>, fates: nat -> Fate)
    ensures forall i :: i in Landed(m, sub, items, fates) ==> i in items && i.payload.Some?
    decreases |items|
  {
    if items != [] {
      LandedAreItems(m, sub, items[..|items| - 1], fates);
    }
  }

  lemma PageUids(server: map<Uid, Event>, from: Cursor, rows: seq<Uid>, u: Uid)
    requires IsRows(server, from, MAX_EVENTS_PER_PAGE, rows)
    ensures u in Uids(PageOf(server, from, rows).items) <==> u in rows
    ensures forall item :: item in PageOf(server, from, rows).items && item.uid == u ==>
              u in rows && item.payload == Some(server[u].content)
  {
    var items := PageOf(server, from, rows).items;
    assert forall i :: 0 <= i < |rows| ==> items[i] == ItemOf(server, rows[i]);
    if u in rows {
      var i :| 0 <= i < |rows| && rows[i] == u;
      assert items[i].uid == u;
    }
  }

  /** What a page with failures does to one event: its current content if it was served and applied, else nothing. */
  lemma PageTried(m: Calendar, sub: Subscription, server: map<Uid, Event>, from: Cursor, rows: seq<Uid>,
                  fates: nat -> Fate, u: Uid)
    requires MirrorOk(m) && IsRows(server, from, MAX_EVENTS_PER_PAGE, rows)
    ensures var items := PageOf(server, from, rows).items;
            var n := TriedAll(m, sub, items, fates);
            && MirrorOk(n)
            && (u in Uids(items) <==> u in rows)
            && (u in Uids(Landed(m, sub, items, fates)) ==> u in rows)
            && Seen(n, sub.id, u) ==
               if u in Uids(Landed(m, sub, items, fates)) then Some(server[u].content) else Seen(m, sub.id, u)
  {
    var items := PageOf(server, from, rows).items;
    var landed := Landed(m, sub, items, fates);
    PageUids(server, from, rows, u);
    TryAllShowsLanded(m, sub, items, fates, u);
    LandedAreItems(m, sub, items, fates);
    forall i | 0 <= i < |landed| && landed[i].uid == u
      ensures u in rows && landed[i].payload == Some(server[u].content)
    {
      assert landed[i] in items;
    }
    LatestIsLast(landed, u);
  }

  /**
   A complete pull leaves out exactly what it was served and did not apply: such an event
   stays as it was in the mirror, while the cursor goes past it, for good unless the pull
   ends on an empty page in the event's own second.
   */
  lemma {:induction false} PullLeavesOut(m: Calendar, sub: Subscription, server: map<Uid, Event>, peer: Peer,
                                         from: Cursor, i: nat, n: nat, u: Uid)
    requires MirrorOk(m) && Honest(server, peer) && i <= n
    requires Native(server, u) && Before(from, Key(server, u))
    requires Pulled(m, sub, peer, from, i, n).Complete?
    ensures var r := Pulled(m, sub, peer, from, i, n);
            && Seen(r.mirror, sub.id, u) ==
               (if u in Missed(m, sub, peer, from, i, n) then Seen(m, sub.id, u) else Some(server[u].content))
            && (AtOrBefore(Key(server, u), r.cursor) <==>
                r.cursor != Cursor(server[u].updatedAt, Uid(0)) || u == Uid(0))
    decreases n - i
  {
    var rows, next := PulledPage(m, sub, server, peer, from, i, n);
    var page := PageOf(server, from, rows);
    PageCovers(server, from, rows);
    PageTried(m, sub, server, from, rows, peer(i, from).fates, u);
    if u in rows {
      assert AtOrBefore(Key(server, u), page.next);
      if page.hasMore {
        NeverMissed(next, sub, server, peer, page.next, i + 1, n, u);
        EditBehindTheCursorIsMissed(next, sub, server, peer, page.next, i + 1, n, u);
      }
    } else {
      PullLeavesOut(next, sub, server, peer, page.next, i + 1, n, u);
    }
  }

  lemma {:induction false} NeverMissed(m: Calendar, sub: Subscription, server: map<Uid, Event>, peer: Peer,
                                       from: Cursor, i: nat, n: nat, u: Uid)
    requires MirrorOk(m) && Honest(server, peer) && i <= n
    requires Native(server, u) && AtOrBefore(Key(server, u), from)
    ensures u !in Missed(m, sub, peer, from, i, n)
    decreases n - i
  {
    if i < n {
      var rows, next := PulledPage(m, sub, server, peer, from, i, n);
      var page := PageOf(server, from, rows);
      NotServed(server, from, rows, u);
      PageTried(m, sub, server, from, rows, peer(i, from).fates, u);
      if page.hasMore {
        NeverMissed(next, sub, server, peer, page.next, i + 1, n, u);
      }
    }
  }

  // ---- edits, pulls and failures in any order --------------------------------------------

  datatype Pull = Asking(cursor: Cursor) | Applying(items: seq<Item>, next: Cursor, hasMore: bool)

  /** One server, one subscriber, at most one pull in flight. */
  datatype System = System(server: map<Uid, Event>, mirror: Calendar, persisted: Cursor, pull: Option<Pull>)

  datatype Action =
    | Edit(u: Uid, event: Event)
    | Start
    | Serve(rows: seq<Uid>)
    | TryItem(fate: Fate)
    | CrashCreating
    | Advance
    | Fail

  /** What will be shown of an event once the rest of the page is applied. */
  function Shown(m: Calendar, fed: Id, items: seq<Item>, u: Uid): Option<Content> {
    Newer(Latest(items, u), Seen(m, fed, u))
  }

  /** Every version of the event still to be applied is this one. */
  ghost predicate OnlyCarries(items: seq<Item>, u: Uid, content: Content) {
    forall i :: 0 <= i < |items| && items[i].uid == u && items[i].payload.Some? ==> items[i].payload == Some(content)
  }

  /**
   Whether an event with this content may stand at this key. What lies past the persisted
   cursor and past the pull in flight will be served again; what does not must be shown
   already, or be about to be.
   */
  ghost predicate MayStand(s: System, fed: Id, u: Uid, content: Content, key: Cursor) {
    && (AtOrBefore(key, s.persisted) ==>
          && Seen(s.mirror, fed, u) == Some(content)
          && (s.pull.Some? && s.pull.value.Applying? ==> OnlyCarries(s.pull.value.items, u, content)))
    && match s.pull
       case None => true
       case Some(Asking(cursor)) => AtOrBefore(key, cursor) ==> Seen(s.mirror, fed, u) == Some(content)
       case Some(Applying(items, next, _)) => AtOrBefore(key, next) ==> Shown(s.mirror, fed, items, u) == Some(content)
  }

  /** The condition on one edit: it lies past both cursors, or is not native, or its content is shown or on its way. */
  ghost predicate EditOk(s: System, fed: Id, u: Uid, event: Event) {
    event.remote || MayStand(s, fed, u, event.content, Cursor(event.updatedAt, u))
  }

  predicate AtItem(s: System) {
    s.pull.Some? && s.pull.value.Applying? && s.pull.value.items != []
  }

  /**
   The condition on what becomes of the next item of a page: it is applied, or is rejected
   anyway, or the rest of the page or the mirror has what the server has now, or the event has
   moved past the page or is not there any more.
   */
  ghost predicate SkipOk(s: System, fed: Id, fate: Fate)
    requires AtItem(s)
  {
    var p := s.pull.value;
    var item := p.items[0];
    item.payload.None? || Lands(s.mirror, fed, item, fate)
    || (Native(s.server, item.uid) && AtOrBefore(Key(s.server, item.uid), p.next) ==>
          Shown(s.mirror, fed, p.items[1..], item.uid) == Some(s.server[item.uid].content))
  }

  /** What can happen in a state. */
  ghost predicate Possible(s: System, fed: Id, a: Action) {
    match a
    case Edit(_, _) => true
    case Start => s.pull.None?
    case Serve(rows) =>
      s.pull.Some? && s.pull.value.Asking? && IsRows(s.server, s.pull.value.cursor, MAX_EVENTS_PER_PAGE, rows)
    case TryItem(_) => AtItem(s)
    case CrashCreating =>
      AtItem(s) && s.pull.value.items[0].payload.Some? && s.pull.value.items[0].uid !in MapOf(s.mirror, fed)
    case Advance => s.pull.Some? && s.pull.value.Applying? && s.pull.value.items == []
    case Fail => s.pull.Some?
  }

  /** What may happen: edits and skips that meet their conditions. */
  ghost predicate Fit(s: System, fed: Id, a: Action)
    requires Possible(s, fed, a)
  {
    match a
    case Edit(u, event) => EditOk(s, fed, u, event)
    case TryItem(fate) => SkipOk(s, fed, fate)
    case _ => true
  }

  function Edited(s: System, u: Uid, event: Event): System {
    s.(server := s.server[u := event])
  }

  /** One item off the page, whether it is applied or not. */
  function Taken(s: System, sub: Subscription, fate: Fate): System
    requires AtItem(s)
  {
    var p := s.pull.value;
    s.(mirror := Tried(s.mirror, sub, p.items[0], fate), pull := Some(p.(items := p.items[1..])))
  }

  ghost function Next(s: System, sub: Subscription, a: Action): System
    requires Possible(s, sub.id, a)
  {
    match a
    case Edit(u, event) => Edited(s, u, event)
    case Start => s.(pull := Some(Asking(s.persisted)))
    case Serve(rows) =>
      var page := PageOf(s.server, s.pull.value.cursor, rows);
      s.(pull := Some(Applying(page.items, page.next, page.hasMore)))
    case TryItem(fate) => Taken(s, sub, fate)
    case CrashCreating =>
      s.(mirror := Orphaned(s.mirror, sub, s.pull.value.items[0].payload.value), pull := None)
    case Advance =>
      var p := s.pull.value;
      if p.hasMore then s.(pull := Some(Asking(p.next))) else s.(pull := None, persisted := p.next)
    case Fail => s.(pull := None)
  }

  /** Every native event at or before the cursor is mirrored with its current content. */
  ghost predicate Safe(server: map<Uid, Event>, m: Calendar, fed: Id, cursor: Cursor) {
    forall u :: Native(server, u) && AtOrBefore(Key(server, u), cursor) ==> Fresh(server, m, fed, u)
  }

  ghost predicate StateSafe(s: System, fed: Id) {
    Safe(s.server, s.mirror, fed, s.persisted)
  }

  ghost predicate Inv(s: System, fed: Id) {
    && MirrorOk(s.mirror)
    && forall u :: Native(s.server, u) ==> MayStand(s, fed, u, s.server[u].content, Key(s.server, u))
  }

  lemma InvIsSafe(s: System, fed: Id)
    requires Inv(s, fed)
    ensures StateSafe(s, fed)
  {
    forall u | Native(s.server, u) && AtOrBefore(Key(s.server, u), s.persisted)
      ensures Fresh(s.server, s.mirror, fed, u)
    {
      assert MayStand(s, fed, u, s.server[u].content, Key(s.server, u));
    }
  }

  /** The condition on an edit is exactly what the invariant needs. */
  lemma EditKeepsIff(s: System, fed: Id, u: Uid, event: Event)
    requires Inv(s, fed)
    ensures Inv(Edited(s, u, event), fed) <==> EditOk(s, fed, u, event)
  {
    var t := Edited(s, u, event);
    forall v, content, key ensures MayStand(t, fed, v, content, key) <==> MayStand(s, fed, v, content, key) {
    }
    if EditOk(s, fed, u, event) {
      forall v | Native(t.server, v) ensures MayStand(t, fed, v, t.server[v].content, Key(t.server, v)) {
        assert v != u ==> MayStand(s, fed, v, s.server[v].content, Key(s.server, v));
      }
    } else {
      assert Native(t.server, u) && !MayStand(t, fed, u, t.server[u].content, Key(t.server, u));
    }
  }

  /** The common case: an edit in a later second than any the protocol has named so far. */
  lemma LaterSecondIsOk(s: System, fed: Id, u: Uid, event: Event)
    requires event.updatedAt > s.persisted.since
    requires match s.pull
             case None => true
             case Some(Asking(cursor)) => event.updatedAt > cursor.since
             case Some(Applying(_, next, _)) => event.updatedAt > next.since
    ensures EditOk(s, fed, u, event)
  {
  }

  lemma ServeKeeps(s: System, sub: Subscription, rows: seq<Uid>)
    requires Inv(s, sub.id) && Possible(s, sub.id, Serve(rows))
    ensures Inv(Next(s, sub, Serve(rows)), sub.id)
  {
    var from := s.pull.value.cursor;
    var page := PageOf(s.server, from, rows);
    var t := Next(s, sub, Serve(rows));
    PageCovers(s.server, from, rows);
    assert forall i :: 0 <= i < |rows| ==> page.items[i] == ItemOf(s.server, rows[i]);
    forall u | Native(s.server, u) ensures MayStand(t, sub.id, u, s.server[u].content, Key(s.server, u)) {
      assert MayStand(s, sub.id, u, s.server[u].content, Key(s.server, u));
      PageLatest(s.server, from, rows, u);
    }
  }

  lemma {:induction false} LatestHead(items: seq<Item>, u: Uid)
    requires items != []
    ensures Latest(items, u) == Newer(Latest(items[1..], u), if items[0].uid == u then items[0].payload else None)
    decreases |items|
  {
    if |items| > 1 {
      var front := items[..|items| - 1];
      LatestHead(front, u);
      assert front[1..] == items[1..][..|items| - 2];
    } else {
      assert items[..0] == [] && items[1..] == [];
    }
  }

  lemma AppliedKeeps(s: System, sub: Subscription, fate: Fate)
    requires Inv(s, sub.id) && AtItem(s) && Lands(s.mirror, sub.id, s.pull.value.items[0], fate)
    ensures Inv(Taken(s, sub, fate), sub.id)
  {
    var items := s.pull.value.items;
    var t := Taken(s, sub, fate);
    ApplyKeeps(s.mirror, sub, items[0]);
    assert forall i :: 0 <= i < |items| - 1 ==> items[1..][i] == items[i + 1];
    forall u | Native(s.server, u) ensures MayStand(t, sub.id, u, s.server[u].content, Key(s.server, u)) {
      assert MayStand(s, sub.id, u, s.server[u].content, Key(s.server, u));
      ApplyShows(s.mirror, sub, items[0], u);
      LatestHead(items, u);
    }
  }

  /** An item that is not applied only matters to its own event. */
  lemma SkippedStands(s: System, sub: Subscription, fate: Fate, u: Uid)
    requires Inv(s, sub.id) && AtItem(s) && !Lands(s.mirror, sub.id, s.pull.value.items[0], fate) && Native(s.server, u)
    ensures MayStand(Taken(s, sub, fate), sub.id, u, s.server[u].content, Key(s.server, u)) <==>
            u != s.pull.value.items[0].uid || SkipOk(s, sub.id, fate)
  {
    var items := s.pull.value.items;
    assert MayStand(s, sub.id, u, s.server[u].content, Key(s.server, u));
    assert forall i :: 0 <= i < |items| - 1 ==> items[1..][i] == items[i + 1];
    TryShows(s.mirror, sub, items[0], fate, u);
    LatestHead(items, u);
  }

  /** The condition on a skip is exactly what the invariant needs. */
  lemma SkipKeepsIff(s: System, sub: Subscription, fate: Fate)
    requires Inv(s, sub.id) && AtItem(s)
    ensures Inv(Taken(s, sub, fate), sub.id) <==> SkipOk(s, sub.id, fate)
  {
    var item := s.pull.value.items[0];
    var t := Taken(s, sub, fate);
    if Lands(s.mirror, sub.id, item, fate) {
      AppliedKeeps(s, sub, fate);
    } else {
      TryShows(s.mirror, sub, item, fate, item.uid);
      forall u | Native(s.server, u)
        ensures MayStand(t, sub.id, u, s.server[u].content, Key(s.server, u)) <==>
                u != item.uid || SkipOk(s, sub.id, fate)
      {
        SkippedStands(s, sub, fate, u);
      }
    }
  }

  /** Steps that end the page or the pull. */
  lemma EndKeeps(s: System, sub: Subscription, a: Action)
    requires Inv(s, sub.id) && Possible(s, sub.id, a) && (a.Start? || a.CrashCreating? || a.Advance? || a.Fail?)
    ensures Inv(Next(s, sub, a), sub.id)
  {
    var t := Next(s, sub, a);
    if a.CrashCreating? {
      OrphanIsUnmapped(s.mirror, sub, s.pull.value.items[0].payload.value);
    }
    forall u | Native(s.server, u) ensures MayStand(t, sub.id, u, s.server[u].content, Key(s.server, u)) {
      assert MayStand(s, sub.id, u, s.server[u].content, Key(s.server, u));
    }
  }

  /** A step keeps the invariant exactly if it is an edit or a skip that meets its condition, or any other step. */
  lemma StepKeepsIff(s: System, sub: Subscription, a: Action)
    requires Inv(s, sub.id) && Possible(s, sub.id, a)
    ensures Inv(Next(s, sub, a), sub.id) <==> Fit(s, sub.id, a)
  {
    match a
    case Edit(u, event) => EditKeepsIff(s, sub.id, u, event);
    case Serve(rows) => ServeKeeps(s, sub, rows);
    case TryItem(fate) => SkipKeepsIff(s, sub, fate);
    case _ => EndKeeps(s, sub, a);
  }

  /** A run: any possible steps. */
  ghost predicate Run(s: System, sub: Subscription, actions: seq<Action>)
    decreases |actions|
  {
    actions == [] || (Possible(s, sub.id, actions[0]) && Run(Next(s, sub, actions[0]), sub, actions[1..]))
  }

  ghost predicate AllFit(s: System, sub: Subscription, actions: seq<Action>)
    requires Run(s, sub, actions)
    decreases |actions|
  {
    actions == [] || (Fit(s, sub.id, actions[0]) && AllFit(Next(s, sub, actions[0]), sub, actions[1..]))
  }

  ghost predicate Legal(s: System, sub: Subscription, actions: seq<Action>) {
    Run(s, sub, actions) && AllFit(s, sub, actions)
  }

  ghost function After(s: System, sub: Subscription, actions: seq<Action>): System
    requires Run(s, sub, actions)
    decreases |actions|
  {
    if actions == [] then s else After(Next(s, sub, actions[0]), sub, actions[1..])
  }

  lemma {:induction false} RunKeeps(s: System, sub: Subscription, actions: seq<Action>)
    requires Inv(s, sub.id) && Legal(s, sub, actions)
    ensures Inv(After(s, sub, actions), sub.id)
    decreases |actions|
  {
    if actions != [] {
      StepKeepsIff(s, sub, actions[0]);
      RunKeeps(Next(s, sub, actions[0]), sub, actions[1..]);
    }
  }

  /** Nothing pulled yet, and every native event is stamped after the zero cursor. */
  ghost predicate Initial(s: System) {
    && MirrorOk(s.mirror) && s.persisted == Cursor(0, Uid(0)) && s.pull == None
    && forall u :: Native(s.server, u) ==> Before(s.persisted, Key(s.server, u))
  }

  /**
   Safety of the protocol: over every interleaving of edits and skipped items that meet their
   conditions, pulls, single items, failures and crashes, the persisted cursor covers only
   mirrored, current events.
   */
  lemma FederationIsSafe(s: System, sub: Subscription, actions: seq<Action>)
    requires Initial(s) && Legal(s, sub, actions)
    ensures Inv(After(s, sub, actions), sub.id) && StateSafe(After(s, sub, actions), sub.id)
  {
    assert Inv(s, sub.id);
    RunKeeps(s, sub, actions);
    InvIsSafe(After(s, sub, actions), sub.id);
  }

  // ---- strays ------------------------------------------------------------------------------

  predicate MakesStray(s: System, fed: Id, a: Action) {
    a.CrashCreating? || (a.TryItem? && AtItem(s) && Orphans(s.mirror, fed, s.pull.value.items[0], a.fate))
  }

  ghost function StraysMade(s: System, sub: Subscription, actions: seq<Action>): nat
    requires Run(s, sub, actions)
    decreases |actions|
  {
    if actions == [] then 0
    else
      (if MakesStray(s, sub.id, actions[0]) then 1 else 0) + StraysMade(Next(s, sub, actions[0]), sub, actions[1..])
  }

  lemma StepStrays(s: System, sub: Subscription, a: Action)
    requires MirrorOk(s.mirror) && Possible(s, sub.id, a)
    ensures var t := Next(s, sub, a);
            && MirrorOk(t.mirror)
            && |Strays(t.mirror, sub.id)| ==
               |Strays(s.mirror, sub.id)| + (if MakesStray(s, sub.id, a) then 1 else 0)
            && forall id :: id in Strays(s.mirror, sub.id) ==>
                 id in Strays(t.mirror, sub.id) && t.mirror.events[id] == s.mirror.events[id]
  {
    if a.TryItem? {
      TryShows(s.mirror, sub, s.pull.value.items[0], a.fate, s.pull.value.items[0].uid);
      TryStrays(s.mirror, sub, s.pull.value.items[0], a.fate);
    } else if a.CrashCreating? {
      OrphanIsUnmapped(s.mirror, sub, s.pull.value.items[0].payload.value);
      OrphanStrays(s.mirror, sub, s.pull.value.items[0].payload.value);
    }
  }

  /**
   Strays are conserved: over every run their number grows by one exactly where a new event
   is created and, by a crash or a storage error, not mapped; none ever changes or goes away.
   */
  lemma {:induction false} StraysAreCounted(s: System, sub: Subscription, actions: seq<Action>)
    requires MirrorOk(s.mirror) && Run(s, sub, actions)
    ensures var t := After(s, sub, actions);
            && MirrorOk(t.mirror)
            && |Strays(t.mirror, sub.id)| == |Strays(s.mirror, sub.id)| + StraysMade(s, sub, actions)
            && forall id :: id in Strays(s.mirror, sub.id) ==>
                 id in Strays(t.mirror, sub.id) && t.mirror.events[id] == s.mirror.events[id]
    decreases |actions|
  {
    if actions != [] {
      StepStrays(s, sub, actions[0]);
      StraysAreCounted(Next(s, sub, actions[0]), sub, actions[1..]);
    }
  }

  /** Every event of the federation is one that a uid leads to. */
  ghost predicate Tidy(m: Calendar, fed: Id) {
    forall id :: id in m.events && m.events[id].origin == Some(fed) ==> Mapped(m, fed, id)
  }

  /** After a run no event of the federation is without its uid if and only if none was before and no step made one. */
  lemma TidyIff(s: System, sub: Subscription, actions: seq<Action>)
    requires MirrorOk(s.mirror) && Run(s, sub, actions)
    ensures Tidy(After(s, sub, actions).mirror, sub.id) <==>
            Tidy(s.mirror, sub.id) && StraysMade(s, sub, actions) == 0
  {
    StraysAreCounted(s, sub, actions);
    NoStrays(s.mirror, sub.id);
    NoStrays(After(s, sub, actions).mirror, sub.id);
  }

  lemma NoStrays(m: Calendar, fed: Id)
    ensures Tidy(m, fed) <==> |Strays(m, fed)| == 0
  {
    if |Strays(m, fed)| == 0 {
      forall id | id in m.events && m.events[id].origin == Some(fed) ensures Mapped(m, fed, id) {
        assert id !in Strays(m, fed);
      }
    } else {
      var id :| id in Strays(m, fed);
    }
  }

  // ---- pulls as runs -------------------------------------------------------------------------

  lemma {:induction false} RunAppends(s: System, sub: Subscription, a: seq<Action>, b: seq<Action>)
    requires Run(s, sub, a) && Run(After(s, sub, a), sub, b)
    ensures Run(s, sub, a + b) && After(s, sub, a + b) == After(After(s, sub, a), sub, b)
    ensures AllFit(s, sub, a) && AllFit(After(s, sub, a), sub, b) ==> AllFit(s, sub, a + b)
    decreases |a|
  {
    if a == [] {
      assert a + b == b;
    } else {
      assert (a + b)[1..] == a[1..] + b;
      RunAppends(Next(s, sub, a[0]), sub, a[1..], b);
    }
  }

  lemma RunOne(s: System, sub: Subscription, a: Action)
    requires Possible(s, sub.id, a)
    ensures Run(s, sub, [a]) && After(s, sub, [a]) == Next(s, sub, a)
    ensures Fit(s, sub.id, a) ==> AllFit(s, sub, [a])
  {
    assert [a][1..] == [];
  }

  /** The first `k` items of a page, one step each, whatever comes of each. */
  lemma {:induction false} TrySome(s: System, sub: Subscription, k: nat, fates: nat -> Fate)
    returns (actions: seq<Action>)
    requires s.pull.Some? && s.pull.value.Applying? && k <= |s.pull.value.items|
    ensures Run(s, sub, actions)
    ensures var p := s.pull.value;
            After(s, sub, actions) ==
            s.(mirror := TriedAll(s.mirror, sub, p.items[..k], fates), pull := Some(p.(items := p.items[k..])))
    ensures (forall i :: 0 <= i < k ==> fates(i) == Stored) ==> AllFit(s, sub, actions)
    ensures Start !in actions
    decreases k
  {
    var p := s.pull.value;
    if k == 0 {
      actions := [];
      assert p.items[0..] == p.items && p.items[..0] == [];
    } else {
      actions := TrySome(s, sub, k - 1, fates);
      var t := After(s, sub, actions);
      RunOne(t, sub, TryItem(fates(k - 1)));
      RunAppends(s, sub, actions, [TryItem(fates(k - 1))]);
      actions := actions + [TryItem(fates(k - 1))];
      assert p.items[..k][..k - 1] == p.items[..k - 1] && p.items[k - 1..][1..] == p.items[k..];
    }
  }

  /** The first `k` items of a page, all of them applied. */
  lemma ApplySome(s: System, sub: Subscription, k: nat) returns (actions: seq<Action>)
    requires s.pull.Some? && s.pull.value.Applying? && k <= |s.pull.value.items|
    ensures Legal(s, sub, actions)
    ensures var p := s.pull.value;
            After(s, sub, actions) ==
            s.(mirror := AppliedAll(s.mirror, sub, p.items[..k]), pull := Some(p.(items := p.items[k..])))
  {
    var fates := (i: nat) => Stored;
    actions := TrySome(s, sub, k, fates);
    AllStored(s.mirror, sub, s.pull.value.items[..k], fates);
  }

  /** The rest of a page: take its items, move on. */
  lemma PageEnds(s: System, sub: Subscription, fates: nat -> Fate) returns (actions: seq<Action>)
    requires s.pull.Some? && s.pull.value.Applying?
    ensures Run(s, sub, actions)
    ensures var p := s.pull.value;
            var m := TriedAll(s.mirror, sub, p.items, fates);
            After(s, sub, actions) == if p.hasMore then s.(mirror := m, pull := Some(Asking(p.next)))
                                      else s.(mirror := m, pull := None, persisted := p.next)
    ensures (forall k :: 0 <= k < |s.pull.value.items| ==> fates(k) == Stored) ==> AllFit(s, sub, actions)
    ensures Start !in actions
  {
    var items := s.pull.value.items;
    var take := TrySome(s, sub, |items|, fates);
    assert items[..|items|] == items && items[|items|..] == [];
    RunOne(After(s, sub, take), sub, Advance);
    RunAppends(s, sub, take, [Advance]);
    actions := take + [Advance];
  }

  /** One page: serve it, take its items, move on. */
  lemma PageIsARun(s: System, sub: Subscription, rows: seq<Uid>, fates: nat -> Fate) returns (actions: seq<Action>)
    requires Possible(s, sub.id, Serve(rows))
    ensures Run(s, sub, actions)
    ensures var page := PageOf(s.server, s.pull.value.cursor, rows);
            var m := TriedAll(s.mirror, sub, page.items, fates);
            After(s, sub, actions) == if page.hasMore then s.(mirror := m, pull := Some(Asking(page.next)))
                                      else s.(mirror := m, pull := None, persisted := page.next)
    ensures (forall k :: 0 <= k < |rows| ==> fates(k) == Stored) ==> AllFit(s, sub, actions)
  {
    RunOne(s, sub, Serve(rows));
    var rest := PageEnds(Next(s, sub, Serve(rows)), sub, fates);
    RunAppends(s, sub, [Serve(rows)], rest);
    actions := [Serve(rows)] + rest;
  }

  /**
   The pull loop against an honest peer is a run of the steps, whatever storage calls fail,
   and ends with its result and its cursor persisted.
   */
  lemma {:induction false} PullIsARun(s: System, sub: Subscription, peer: Peer, i: nat, n: nat)
    returns (actions: seq<Action>)
    requires s.pull.Some? && s.pull.value.Asking? && Honest(s.server, peer) && i <= n
    requires Pulled(s.mirror, sub, peer, s.pull.value.cursor, i, n).Complete?
    ensures Run(s, sub, actions)
    ensures var r := Pulled(s.mirror, sub, peer, s.pull.value.cursor, i, n);
            After(s, sub, actions) == s.(mirror := r.mirror, persisted := r.cursor, pull := None)
    ensures Sound(peer) ==> AllFit(s, sub, actions)
    decreases n - i
  {
    var from := s.pull.value.cursor;
    var rows, next := PulledPage(s.mirror, sub, s.server, peer, from, i, n);
    assert StoresAll(peer, i, from) <==> forall k :: peer(i, from).fates(k) == Stored;
    actions := PageIsARun(s, sub, rows, peer(i, from).fates);
    if PageOf(s.server, from, rows).hasMore {
      var rest := PullIsARun(After(s, sub, actions), sub, peer, i + 1, n);
      RunAppends(s, sub, actions, rest);
      actions := actions + rest;
    }
  }

  // ---- edits and skips that do not meet their condition ------------------------------------

  /** All continuations keep the persisted cursor safe, if further edits and skips meet their conditions. */
  ghost predicate StaysSafe(s: System, sub: Subscription) {
    forall actions :: Legal(s, sub, actions) ==> StateSafe(After(s, sub, actions), sub.id)
  }

  lemma {:induction false} UnusedUid(used: set<Uid>) returns (w: Uid)
    ensures w !in used && forall u :: u in used ==> u.rank < w.rank
    decreases |used|
  {
    if used == {} {
      w := Uid(0);
    } else {
      var u :| u in used;
      var v := UnusedUid(used - {u});
      w := Uid(1 + if u.rank > v.rank then u.rank else v.rank);
      forall x | x in used ensures x.rank < w.rank {
        assert x == u || x in used - {u};
      }
    }
  }

  /** A pull in flight that has passed a stale event: one more event anywhere later, and it takes the cursor past it. */
  lemma StaleBehindThePull(s: System, sub: Subscription, u: Uid) returns (actions: seq<Action>)
    requires MirrorOk(s.mirror) && s.pull.Some? && s.pull.value.Asking?
    requires Native(s.server, u) && AtOrBefore(Key(s.server, u), s.pull.value.cursor)
    requires !Fresh(s.server, s.mirror, sub.id, u)
    ensures Legal(s, sub, actions) && !StateSafe(After(s, sub, actions), sub.id)
  {
    var from := s.pull.value.cursor;
    var w := UnusedUid(s.server.Keys);
    var late := 1 + if from.since > s.persisted.since then from.since else s.persisted.since;
    var event := Event(s.server[u].content, late, false);
    LaterSecondIsOk(s, sub.id, w, event);
    RunOne(s, sub, Edit(w, event));
    var t := Edited(s, w, event);
    var peer := HonestPeer(t.server);
    var n := |Pending(t.server, from)| + 1;
    CompletePullConverges(s.mirror, sub, t.server, peer, from, from, n);
    EditBehindTheCursorIsMissed(s.mirror, sub, t.server, peer, from, 0, n, u);
    CursorAdvances(s.mirror, sub, t.server, peer, from, 0, n, w);
    var pull := PullIsARun(t, sub, peer, 0, n);
    RunAppends(s, sub, [Edit(w, event)], pull);
    actions := [Edit(w, event)] + pull;
    var end := After(s, sub, actions);
    assert Native(end.server, u) && AtOrBefore(Key(end.server, u), end.persisted);
  }

  lemma StaleOnThePage(s: System, sub: Subscription, u: Uid) returns (actions: seq<Action>)
    requires MirrorOk(s.mirror) && s.pull.Some? && s.pull.value.Applying? && Native(s.server, u)
    requires AtOrBefore(Key(s.server, u), s.pull.value.next)
    requires Shown(s.mirror, sub.id, s.pull.value.items, u) != Some(s.server[u].content)
    ensures Legal(s, sub, actions) && !StateSafe(After(s, sub, actions), sub.id)
  {
    var p := s.pull.value;
    var fates := (i: nat) => Stored;
    actions := PageEnds(s, sub, fates);
    AllStored(s.mirror, sub, p.items, fates);
    ApplyAllIsIsolated(s.mirror, sub, p.items);
    ApplyAllShowsLatest(s.mirror, sub, p.items, u);
    var d := After(s, sub, actions);
    assert !Fresh(d.server, d.mirror, sub.id, u);
    if p.hasMore {
      var rest := StaleBehindThePull(d, sub, u);
      RunAppends(s, sub, actions, rest);
      actions := actions + rest;
    } else {
      assert Native(d.server, u) && AtOrBefore(Key(d.server, u), d.persisted);
    }
  }

  lemma StaleInTheItems(s: System, sub: Subscription, u: Uid) returns (actions: seq<Action>)
    requires MirrorOk(s.mirror) && s.pull.Some? && s.pull.value.Applying? && Native(s.server, u)
    requires AtOrBefore(Key(s.server, u), s.persisted) && !OnlyCarries(s.pull.value.items, u, s.server[u].content)
    ensures Legal(s, sub, actions) && !StateSafe(After(s, sub, actions), sub.id)
  {
    var items := s.pull.value.items;
    var i :| 0 <= i < |items| && items[i].uid == u && items[i].payload.Some?
             && items[i].payload != Some(s.server[u].content);
    actions := ApplySome(s, sub, i + 1);
    ApplyAllShowsLatest(s.mirror, sub, items[..i + 1], u);
    assert Latest(items[..i + 1], u) == items[i].payload;
    var d := After(s, sub, actions);
    assert Native(d.server, u) && AtOrBefore(Key(d.server, u), d.persisted) && !Fresh(d.server, d.mirror, sub.id, u);
  }

  /** An event that may not stand where it stands is the end of safety in some continuation. */
  lemma UnfitEventEndsUnsafe(s: System, sub: Subscription, u: Uid)
    requires MirrorOk(s.mirror) && Native(s.server, u)
    requires !MayStand(s, sub.id, u, s.server[u].content, Key(s.server, u))
    ensures !StaysSafe(s, sub)
  {
    var content, key := s.server[u].content, Key(s.server, u);
    if AtOrBefore(key, s.persisted) && Seen(s.mirror, sub.id, u) != Some(content) {
      assert Legal(s, sub, []) && !StateSafe(After(s, sub, []), sub.id);
    } else if AtOrBefore(key, s.persisted) && s.pull.Some? && s.pull.value.Applying?
              && !OnlyCarries(s.pull.value.items, u, content) {
      var actions := StaleInTheItems(s, sub, u);
    } else if s.pull.value.Asking? {
      var actions := StaleBehindThePull(s, sub, u);
    } else {
      var actions := StaleOnThePage(s, sub, u);
    }
  }

  /**
   The exact condition: after an edit, whatever happens, the persisted cursor stays safe if
   and only if the edit's key lies past the persisted cursor and past the pull in flight,
   or the event is not native, or its content is shown, or on its way, where it lies behind.
   */
  lemma EditIsSafeIff(s: System, sub: Subscription, u: Uid, event: Event)
    requires Inv(s, sub.id)
    ensures StaysSafe(Edited(s, u, event), sub) <==> EditOk(s, sub.id, u, event)
  {
    var t := Edited(s, u, event);
    if EditOk(s, sub.id, u, event) {
      EditKeepsIff(s, sub.id, u, event);
      forall actions | Legal(t, sub, actions) ensures StateSafe(After(t, sub, actions), sub.id) {
        RunKeeps(t, sub, actions);
        InvIsSafe(After(t, sub, actions), sub.id);
      }
    } else {
      assert !MayStand(t, sub.id, u, t.server[u].content, Key(t.server, u));
      UnfitEventEndsUnsafe(t, sub, u);
    }
  }

  /** Likewise for an item that is not applied. */
  lemma SkipIsSafeIff(s: System, sub: Subscription, fate: Fate)
    requires Inv(s, sub.id) && AtItem(s)
    ensures StaysSafe(Taken(s, sub, fate), sub) <==> SkipOk(s, sub.id, fate)
  {
    var t := Taken(s, sub, fate);
    SkipKeepsIff(s, sub, fate);
    if SkipOk(s, sub.id, fate) {
      forall actions | Legal(t, sub, actions) ensures StateSafe(After(t, sub, actions), sub.id) {
        RunKeeps(t, sub, actions);
        InvIsSafe(After(t, sub, actions), sub.id);
      }
    } else {
      var u := s.pull.value.items[0].uid;
      TryShows(s.mirror, sub, s.pull.value.items[0], fate, u);
      SkippedStands(s, sub, fate, u);
      UnfitEventEndsUnsafe(t, sub, u);
    }
  }

  /** Two edits in one second: the pull in between makes the second one invisible to the pull after. */
  lemma SameSecondEditIsLost(earlier: Content, newer: Content)
    returns (m: Calendar, sub: Subscription, server: map<Uid, Event>, edited: map<Uid, Event>, from: Cursor, peer: Peer)
    requires earlier != newer
    ensures MirrorOk(m) && Safe(server, m, sub.id, from)
    ensures server == map[Uid(1) := Event(earlier, 5, false)]
    ensures edited == server[Uid(1) := Event(newer, 5, false)][Uid(2) := Event(earlier, 6, false)]
    ensures Honest(edited, peer) && Sound(peer)
    ensures var r := Pulled(m, sub, peer, from, 0, 3);
            r.Complete? && !Safe(edited, r.mirror, sub.id, r.cursor)
  {
    sub := Subscription(Id(0), Id(0));
    server := map[Uid(1) := Event(earlier, 5, false)];
    m := Calendar(map[Id(0) := Local(earlier, Id(0), Some(Id(0)))], map[Id(0) := map[Uid(1) := Id(0)]], 1);
    from := Cursor(5, Uid(1));
    edited := server[Uid(1) := Event(newer, 5, false)][Uid(2) := Event(earlier, 6, false)];
    peer := HonestPeer(edited);
    assert Seen(m, sub.id, Uid(1)) == Some(earlier);
    SubsetSize(Pending(edited, from), {Uid(1), Uid(2)});
    CompletePullConverges(m, sub, edited, peer, from, from, 3);
    EditBehindTheCursorIsMissed(m, sub, edited, peer, from, 0, 3, Uid(1));
    CursorAdvances(m, sub, edited, peer, from, 0, 3, Uid(2));
    var r := Pulled(m, sub, peer, from, 0, 3);
    assert Native(edited, Uid(1)) && AtOrBefore(Key(edited, Uid(1)), r.cursor);
    assert !Fresh(edited, r.mirror, sub.id, Uid(1));
  }

  /** A storage error on the only item of a page: the pull completes, and its cursor passes the event by. */
  lemma SkippedEventIsLost(content: Content, fate: Fate)
    returns (m: Calendar, sub: Subscription, server: map<Uid, Event>, peer: Peer)
    requires fate != Stored
    ensures MirrorOk(m) && server == map[Uid(1) := Event(content, 5, false)] && Honest(server, peer)
    ensures var r := Pulled(m, sub, peer, Cursor(0, Uid(0)), 0, 1);
            && r.Complete? && r.cursor == Cursor(5, Uid(1)) && !Safe(server, r.mirror, sub.id, r.cursor)
            && |Strays(r.mirror, sub.id)| == if fate == MapFails then 1 else 0
  {
    var from, u := Cursor(0, Uid(0)), Uid(1);
    sub := Subscription(Id(0), Id(0));
    m := Calendar(map[], map[], 0);
    server := map[u := Event(content, 5, false)];
    var rows := (at: Cursor) => if Before(at, Cursor(5, Uid(1))) then [Uid(1)] else [];
    var served := server;
    peer := (i: nat, at: Cursor) =>
      if Before(at, Cursor(5, Uid(1))) then Served(PageOf(served, at, [Uid(1)]), Usable, (k: nat) => fate)
      else Served(PageOf(served, at, []), Usable, (k: nat) => fate);
    forall i: nat, at: Cursor ensures Answers(server, peer, i, at) {
      assert IsServed(server, at, peer(i, at), rows(at));
    }
    var item := ItemOf(server, u);
    var n := Tried(m, sub, item, fate);
    var items := PageOf(server, from, [u]).items;
    assert items == [item] && items[..0] == [];
    assert TriedAll(m, sub, items, (k: nat) => fate) == n;
    TryShows(m, sub, item, fate, u);
    TryStrays(m, sub, item, fate);
    assert Strays(m, sub.id) == {};
    assert Native(server, u) && AtOrBefore(Key(server, u), Cursor(5, u)) && !Fresh(server, n, sub.id, u);
  }

  // ---- two pulls at once -------------------------------------------------------------------

  /** Nothing that a pull still does can change the mirror. */
  predicate Spent(p: Pull) {
    p.Applying? && !p.hasMore && forall i :: 0 <= i < |p.items| ==> p.items[i].payload.None?
  }

  /** A second pull that begins and completes while the first is in flight; then the first goes on. */
  function SecondPull(s: System, sub: Subscription, peer: Peer, n: nat): System {
    var r := Pulled(s.mirror, sub, peer, s.persisted, 0, n);
    if r.Complete? then s.(mirror := r.mirror, persisted := r.cursor) else s.(mirror := r.mirror)
  }

  ghost predicate OverlapBreaks(s: System, sub: Subscription, peer: Peer, n: nat, actions: seq<Action>) {
    && s.pull.Some? && Honest(s.server, peer) && Sound(peer)
    && Pulled(s.mirror, sub, peer, s.persisted, 0, n).Complete?
    && Legal(SecondPull(s, sub, peer, n), sub, actions)
    && !StateSafe(After(SecondPull(s, sub, peer, n), sub, actions), sub.id)
  }

  /** However the pull in flight goes on, a second one beside it does no harm. */
  ghost predicate OverlapIsSafe(s: System, sub: Subscription) {
    forall first, peer, n, actions :: Legal(s, sub, first) && Start !in first ==>
      !OverlapBreaks(After(s, sub, first), sub, peer, n, actions)
  }

  /**
   While a pull still has a trusted item to apply, its event can be edited and a second pull
   can mirror the edit and store its cursor; then the first one puts the older version back.
   */
  lemma OverlappingPullIsUnsafe(s: System, sub: Subscription, i: nat)
    returns (edits: seq<Action>, peer: Peer, n: nat, actions: seq<Action>)
    requires MirrorOk(s.mirror) && s.pull.Some? && s.pull.value.Applying?
    requires i < |s.pull.value.items| && s.pull.value.items[i].payload.Some?
    ensures Legal(s, sub, edits) && Start !in edits
    ensures OverlapBreaks(After(s, sub, edits), sub, peer, n, actions)
  {
    var p := s.pull.value;
    var u, older := p.items[i].uid, p.items[i].payload.value;
    var late := 1 + if p.next.since > s.persisted.since then p.next.since else s.persisted.since;
    var newer := Event(older.(title := older.title + "'"), late, false);
    var w := UnusedUid(s.server.Keys + {u});
    LaterSecondIsOk(s, sub.id, u, newer);
    RunOne(s, sub, Edit(u, newer));
    var e := Edited(s, u, newer);
    var other := Event(older, late + 1, false);
    LaterSecondIsOk(e, sub.id, w, other);
    RunOne(e, sub, Edit(w, other));
    RunAppends(s, sub, [Edit(u, newer)], [Edit(w, other)]);
    edits := [Edit(u, newer)] + [Edit(w, other)];
    var t := Edited(e, w, other);
    peer := HonestPeer(t.server);
    n := |Pending(t.server, t.persisted)| + 1;
    CompletePullConverges(t.mirror, sub, t.server, peer, t.persisted, t.persisted, n);
    CursorAdvances(t.mirror, sub, t.server, peer, t.persisted, 0, n, w);
    assert !OnlyCarries(p.items, u, newer.content);
    actions := StaleInTheItems(SecondPull(t, sub, peer, n), sub, u);
  }

  /** A pull that is not spent can get to a trusted item. */
  lemma ReachTrusted(s: System, sub: Subscription) returns (actions: seq<Action>, i: nat)
    requires MirrorOk(s.mirror) && s.pull.Some? && !Spent(s.pull.value)
    ensures Legal(s, sub, actions) && Start !in actions
    ensures var t := After(s, sub, actions);
            && MirrorOk(t.mirror) && t.pull.Some? && t.pull.value.Applying?
            && i < |t.pull.value.items| && t.pull.value.items[i].payload.Some?
  {
    if s.pull.value.Asking? {
      actions := AskForTrusted(s, sub);
      i := 0;
    } else if j :| 0 <= j < |s.pull.value.items| && s.pull.value.items[j].payload.Some? {
      actions, i := [], j;
    } else {
      var fates := (k: nat) => Stored;
      actions := PageEnds(s, sub, fates);
      AllStored(s.mirror, sub, s.pull.value.items, fates);
      ApplyAllIsIsolated(s.mirror, sub, s.pull.value.items);
      var t := After(s, sub, actions);
      var rest := AskForTrusted(t, sub);
      RunAppends(s, sub, actions, rest);
      actions, i := actions + rest, 0;
    }
  }

  /** A new event, and the page that begins with it or with another. */
  lemma AskForTrusted(s: System, sub: Subscription) returns (actions: seq<Action>)
    requires s.pull.Some? && s.pull.value.Asking?
    ensures Legal(s, sub, actions) && Start !in actions
    ensures var t := After(s, sub, actions);
            && t.mirror == s.mirror && t.pull.Some? && t.pull.value.Applying?
            && t.pull.value.items != [] && t.pull.value.items[0].payload.Some?
  {
    var from := s.pull.value.cursor;
    var w := UnusedUid(s.server.Keys);
    var late := 1 + if from.since > s.persisted.since then from.since else s.persisted.since;
    var event := Event(Content("", None, 0, 0, None), late, false);
    LaterSecondIsOk(s, sub.id, w, event);
    RunOne(s, sub, Edit(w, event));
    var t := Edited(s, w, event);
    var rows := RowsExist(t.server, from, MAX_EVENTS_PER_PAGE);
    assert Native(t.server, w) && Before(from, Key(t.server, w));
    assert rows != [];
    RunOne(t, sub, Serve(rows));
    RunAppends(s, sub, [Edit(w, event)], [Serve(rows)]);
    actions := [Edit(w, event)] + [Serve(rows)];
  }

  /** Beside a spent pull a second one leaves everything shown as it is. */
  lemma SecondPullKeeps(s: System, sub: Subscription, peer: Peer, n: nat)
    requires Inv(s, sub.id) && (s.pull.None? || Spent(s.pull.value))
    requires Honest(s.server, peer) && Sound(peer) && Pulled(s.mirror, sub, peer, s.persisted, 0, n).Complete?
    ensures Inv(SecondPull(s, sub, peer, n), sub.id)
  {
    var d := SecondPull(s, sub, peer, n);
    CompletePullConverges(s.mirror, sub, s.server, peer, s.persisted, s.persisted, n);
    forall u | Native(s.server, u) ensures MayStand(d, sub.id, u, s.server[u].content, Key(s.server, u)) {
      assert MayStand(s, sub.id, u, s.server[u].content, Key(s.server, u));
      if AtOrBefore(Key(s.server, u), s.persisted) {
        EditBehindTheCursorIsMissed(s.mirror, sub, s.server, peer, s.persisted, 0, n, u);
      }
      assert Fresh(s.server, d.mirror, sub.id, u);
      if s.pull.Some? {
        LatestIsLast(s.pull.value.items, u);
      }
    }
  }

  lemma {:induction false} StaysSpent(s: System, sub: Subscription, actions: seq<Action>)
    requires s.pull.None? || Spent(s.pull.value)
    requires Run(s, sub, actions) && Start !in actions
    ensures var t := After(s, sub, actions); t.pull.None? || Spent(t.pull.value)
    decreases |actions|
  {
    if actions != [] {
      var t := Next(s, sub, actions[0]);
      assert actions[0] != Start;
      assert forall a :: a in actions[1..] ==> a in actions;
      if actions[0].TryItem? {
        var items := s.pull.value.items;
        assert forall i :: 0 <= i < |items| - 1 ==> items[1..][i] == items[i + 1];
      }
      StaysSpent(t, sub, actions[1..]);
    }
  }

  /**
   One pull at a time is needed, though nothing keeps a notified pull from starting beside the
   periodic one: a second pull beside one in flight is safe, whatever happens, if and only if
   the first has nothing left to apply and no page left to ask for.
   */
  lemma OverlapIsSafeIff(s: System, sub: Subscription)
    requires Inv(s, sub.id) && s.pull.Some?
    ensures OverlapIsSafe(s, sub) <==> Spent(s.pull.value)
  {
    if Spent(s.pull.value) {
      forall first, peer, n, actions | Legal(s, sub, first) && Start !in first
        ensures !OverlapBreaks(After(s, sub, first), sub, peer, n, actions)
      {
        var t := After(s, sub, first);
        RunKeeps(s, sub, first);
        StaysSpent(s, sub, first);
        if OverlapBreaks(t, sub, peer, n, actions) {
          SecondPullKeeps(t, sub, peer, n);
          RunKeeps(SecondPull(t, sub, peer, n), sub, actions);
          InvIsSafe(After(SecondPull(t, sub, peer, n), sub, actions), sub.id);
        }
      }
    } else {
      var reach, i := ReachTrusted(s, sub);
      var edits, peer, n, actions := OverlappingPullIsUnsafe(After(s, sub, reach), sub, i);
      RunAppends(s, sub, reach, edits);
      assert OverlapBreaks(After(s, sub, reach + edits), sub, peer, n, actions);
    }
  }

  // ---- the stored cursor -------------------------------------------------------------------

  const TWO_63: int := 0x8000_0000_0000_0000

  /** `str::parse::<i64>`. */
  function ParseI64(s: string): Option<int> {
    var digits := if s != [] && (s[0] == '-' || s[0] == '+') then s[1..] else s;
    if digits == [] || !AllDigits(digits) then None
    else
      var v := if s[0] == '-' then 0 - (Number(digits) as int) else Number(digits) as int;
      if -TWO_63 <= v < TWO_63 then Some(v) else None
  }

  function PrintI64(v: int): string {
    if v < 0 then "-" + Decimal(-v) else Decimal(v)
  }

  function SplitOnce(s: string, c: char): Option<(string, string)> {
    if s == [] then None
    else if s[0] == c then Some(("", s[1..]))
    else
      match SplitOnce(s[1..], c)
      case None => None
      case Some((before, after)) => Some(([s[0]] + before, after))
  }

  /** `parse_cursor`; a missing or damaged token starts from the beginning. */
  function ParseCursor(token: Option<string>): (int, string) {
    match token
    case None => (0, "")
    case Some(text) =>
      match SplitOnce(text, '|')
      case None => (0, "")
      case Some((since, after)) => (match ParseI64(since) case Some(v) => v case None => 0, after)
  }

  lemma {:induction false} SplitOnceFirst(before: string, after: string, c: char)
    requires c !in before
    ensures SplitOnce(before + [c] + after, c) == Some((before, after))
  {
    var s := before + [c] + after;
    if before == [] {
      assert s[1..] == after;
    } else {
      assert s[1..] == before[1..] + [c] + after;
      SplitOnceFirst(before[1..], after, c);
      assert [before[0]] + before[1..] == before;
    }
  }

  lemma DigitsAreNotSeparators(s: string)
    requires AllDigits(s)
    ensures '|' !in s && (s != [] ==> s[0] != '-' && s[0] != '+')
  {
    assert forall i :: 0 <= i < |s| ==> IsDigit(s[i]);
  }

  lemma IntegersRoundTrip(v: int)
    requires -TWO_63 <= v < TWO_63
    ensures ParseI64(PrintI64(v)) == Some(v) && '|' !in PrintI64(v)
  {
    var digits := Decimal(if v < 0 then -v else v);
    DigitsAreNotSeparators(digits);
    DecimalIsNumber(if v < 0 then -v else v);
    assert v < 0 ==> PrintI64(v)[1..] == digits;
  }

  /** A stored cursor is read back as it was, whatever the id contains. */
  lemma CursorRoundTrip(since: int, after: string)
    requires -TWO_63 <= since < TWO_63
    ensures ParseCursor(Some(PrintI64(since) + "|" + after)) == (since, after)
  {
    IntegersRoundTrip(since);
    SplitOnceFirst(PrintI64(since), after, '|');
  }
}
