/**
 Mail rows, their attributes and the modification counters behind delta sync
 (crates/owney-storage/src/attributes.rs, mail_queries.rs, ingest.rs, lib.rs).
 One class operation is one database transaction: it commits as a whole or
 changes nothing.
 */
module MailStore {
  import opened Collections
  import opened Text

  type Id = int

  /** `states.modseq` is a strict 64-bit integer column: the statement past the top value fails. */
  const MAX_MODSEQ: nat := 0x7FFF_FFFF_FFFF_FFFF

  datatype Email = Email(account: Id, created: nat, updated: nat, keywords: set<string>, mailboxes: set<Id>)

  datatype Attribute = Attribute(content: string, dismissedAt: Option<int>, createdAt: int, updatedAt: int)

  /** `mailboxes` gives each mailbox its account; a counter that was never bumped reads 0. */
  datatype Store = Store(
    emails: map<Id, Email>,
    attributes: map<Id, map<string, Attribute>>,
    emailState: map<Id, nat>,
    mailboxState: map<Id, nat>,
    threadState: map<Id, nat>,
    mailboxes: map<Id, Id>)

  datatype Error =
    NotAuthorized | NoEmail | NoMailbox | EmptyMailboxes | RepeatedMailbox | NoActiveAttribute | Exhausted

  datatype Outcome<+T> = Done(value: T) | Failed(error: Error)

  predicate Owned(s: Store, account: Id, email: Id) {
    email in s.emails && s.emails[email].account == account
  }

  predicate OwnedMailbox(mailboxes: map<Id, Id>, account: Id, mailbox: Id) {
    mailbox in mailboxes && mailboxes[mailbox] == account
  }

  function Counter(counters: map<Id, nat>, account: Id): nat {
    if account in counters then counters[account] else 0
  }

  function EmailState(s: Store, account: Id): nat {
    Counter(s.emailState, account)
  }

  function AttributesOf(s: Store, email: Id): map<string, Attribute> {
    if email in s.attributes then s.attributes[email] else map[]
  }

  // ---- what each transaction does -----------------------------------------------

  /** `bump` on one counter. */
  function Bumped(counters: map<Id, nat>, account: Id): Option<map<Id, nat>> {
    if Counter(counters, account) >= MAX_MODSEQ then None
    else Some(counters[account := Counter(counters, account) + 1])
  }

  /** The tail shared by every email write: bump the Email counter and stamp the row with it. */
  function Stamped(s: Store, account: Id, email: Id): Outcome<Store>
    requires email in s.emails
  {
    match Bumped(s.emailState, account)
    case None => Failed(Exhausted)
    case Some(counters) =>
      Done(s.(emailState := counters,
              emails := s.emails[email := s.emails[email].(updated := Counter(counters, account))]))
  }

  function Upserted(rows: map<string, Attribute>, kind: string, content: string, now: int): map<string, Attribute> {
    rows[kind := if kind in rows then rows[kind].(content := content, updatedAt := now)
                 else Attribute(content, None, now, now)]
  }

  function Lower(c: char): char {
    if 'A' <= c <= 'Z' then (c as int + 32) as char else c
  }

  function Lowered(s: string): (l: string)
    ensures |l| == |s|
  {
    seq(|s|, i requires 0 <= i < |s| => Lower(s[i]))
  }

  function KeywordSet(keywords: seq<string>): set<string> {
    set i | 0 <= i < |keywords| :: Lowered(keywords[i])
  }

  predicate AllOwned(mailboxes: map<Id, Id>, account: Id, ids: seq<Id>) {
    forall i :: 0 <= i < |ids| ==> OwnedMailbox(mailboxes, account, ids[i])
  }

  /** What `update_email` refuses, in the order it looks. */
  function Refusal(s: Store, account: Id, email: Id, mailboxes: Option<seq<Id>>): Option<Error> {
    if !Owned(s, account, email) then Some(NoEmail)
    else if mailboxes.None? then None
    else if mailboxes.value == [] then Some(EmptyMailboxes)
    else if !AllOwned(s.mailboxes, account, mailboxes.value) then Some(NoMailbox)
    else if !Distinct(mailboxes.value) then Some(RepeatedMailbox)
    else None
  }

  function Placed(e: Email, keywords: Option<seq<string>>, mailboxes: Option<seq<Id>>): Email {
    e.(keywords := if keywords.Some? then KeywordSet(keywords.value) else e.keywords,
       mailboxes := if mailboxes.Some? then (set m | m in mailboxes.value) else e.mailboxes)
  }

  function Updated(s: Store, account: Id, email: Id, keywords: Option<seq<string>>, mailboxes: Option<seq<Id>>)
    : Outcome<Store>
  {
    match Refusal(s, account, email, mailboxes)
    case Some(e) => Failed(e)
    case None =>
      var placed := s.(emails := s.emails[email := Placed(s.emails[email], keywords, mailboxes)]);
      match Bumped(s.mailboxState, account) {
        case None => Failed(Exhausted)
        case Some(counters) => Stamped(placed.(mailboxState := counters), account, email)
      }
  }

  datatype Write =
    | SetAttribute(account: Id, email: Id, kind: string, content: string, now: int)
    | Dismiss(account: Id, email: Id, kind: string, now: int)
    | Update(account: Id, email: Id, keywords: Option<seq<string>>, newMailboxes: Option<seq<Id>>)
    | Ingest(account: Id, email: Id, mailbox: Id)

  predicate Active(rows: map<string, Attribute>, kind: string) {
    kind in rows && rows[kind].dismissedAt.None?
  }

  /** The store after a write, or why nothing changed. */
  function Written(s: Store, w: Write): Outcome<Store>
    requires w.Ingest? ==> w.email !in s.emails
  {
    match w
    case SetAttribute(account, email, kind, content, now) =>
      if !Owned(s, account, email) then Failed(NotAuthorized)
      else
        var rows := Upserted(AttributesOf(s, email), kind, content, now);
        Stamped(s.(attributes := s.attributes[email := rows]), account, email)
    case Dismiss(account, email, kind, now) =>
      var rows := AttributesOf(s, email);
      if !Owned(s, account, email) then Failed(NotAuthorized)
      else if !Active(rows, kind) then Failed(NoActiveAttribute)
      else
        var dismissed := rows[kind := rows[kind].(dismissedAt := Some(now), updatedAt := now)];
        Stamped(s.(attributes := s.attributes[email := dismissed]), account, email)
    case Update(account, email, keywords, mailboxes) =>
      Updated(s, account, email, keywords, mailboxes)
    case Ingest(account, email, mailbox) =>
      if !OwnedMailbox(s.mailboxes, account, mailbox) then Failed(NoMailbox)
      else
        var e, t, m := Bumped(s.emailState, account), Bumped(s.threadState, account), Bumped(s.mailboxState, account);
        if e.None? || t.None? || m.None? then Failed(Exhausted)
        else
          var seqno := Counter(e.value, account);
          Done(s.(emails := s.emails[email := Email(account, seqno, seqno, {}, {mailbox})],
                  emailState := e.value, threadState := t.value, mailboxState := m.value))
  }

  /** Email ids are fresh random UUIDs, so an id is never ingested twice. */
  predicate FreshId(s: Store, w: Write) {
    w.Ingest? ==> w.email !in s.emails
  }

  // ---- the operations -------------------------------------------------------------

  class Database {
    var emails: map<Id, Email>
    var attributes: map<Id, map<string, Attribute>>
    var emailState: map<Id, nat>
    var mailboxState: map<Id, nat>
    var threadState: map<Id, nat>
    var mailboxes: map<Id, Id>

    function Contents(): Store
      reads this
    {
      Store(emails, attributes, emailState, mailboxState, threadState, mailboxes)
    }

    method Stamp(account: Id, email: Id) returns (ok: bool)
      requires email in emails
      modifies this`emails, this`emailState
      ensures ok == old(Stamped(Contents(), account, email)).Done?
      ensures Contents() == if ok then old(Stamped(Contents(), account, email)).value else old(Contents())
    {
      var counters := Bumped(emailState, account);
      if counters.None? {
        return false;
      }
      emailState := counters.value;
      emails := emails[email := emails[email].(updated := emailState[account])];
      ok := true;
    }

    /** `set_email_attribute`: insert, or on conflict overwrite content and time but not the dismissal. */
    method SetEmailAttribute(account: Id, email: Id, kind: string, content: string, now: int) returns (ok: bool)
      modifies this
      ensures var r := old(Written(Contents(), SetAttribute(account, email, kind, content, now)));
              ok == r.Done? && Contents() == if ok then r.value else old(Contents())
    {
      var before := attributes;
      if !(email in emails && emails[email].account == account) {
        return false;
      }
      var rows := AttributesOf(Contents(), email);
      if kind in rows {
        rows := rows[kind := rows[kind].(content := content, updatedAt := now)];
      } else {
        rows := rows[kind := Attribute(content, None, now, now)];
      }
      attributes := attributes[email := rows];
      ok := Stamp(account, email);
      if !ok {
        attributes := before;
      }
    }

    method DismissEmailAttribute(account: Id, email: Id, kind: string, now: int) returns (ok: bool)
      modifies this
      ensures var r := old(Written(Contents(), Dismiss(account, email, kind, now)));
              ok == r.Done? && Contents() == if ok then r.value else old(Contents())
    {
      var before := attributes;
      if !(email in emails && emails[email].account == account) {
        return false;
      }
      var rows := AttributesOf(Contents(), email);
      var hit := kind in rows && rows[kind].dismissedAt.None?;
      if !hit {
        return false;
      }
      attributes := attributes[email := rows[kind := rows[kind].(dismissedAt := Some(now), updatedAt := now)]];
      ok := Stamp(account, email);
      if !ok {
        attributes := before;
      }
    }

    method StoredKeywords(keywords: seq<string>) returns (stored: set<string>)
      ensures stored == KeywordSet(keywords)
    {
      stored := {};
      for i := 0 to |keywords|
        invariant stored == KeywordSet(keywords[..i])
      {
        stored := stored + {Lowered(keywords[i])};
        KeywordsGrow(keywords, i);
      }
      assert keywords[..|keywords|] == keywords;
    }

    /** Every target mailbox must exist and belong to the account; a repeated one breaks the primary key. */
    method StoredMailboxes(account: Id, ids: seq<Id>) returns (stored: Option<set<Id>>)
      ensures stored == if ids != [] && AllOwned(mailboxes, account, ids) && Distinct(ids)
                        then Some(set m | m in ids) else None
    {
      if ids == [] {
        return None;
      }
      for i := 0 to |ids|
        invariant forall j :: 0 <= j < i ==> OwnedMailbox(mailboxes, account, ids[j])
      {
        if !OwnedMailbox(mailboxes, account, ids[i]) {
          return None;
        }
      }
      var inserted: set<Id> := {};
      for i := 0 to |ids|
        invariant inserted == set m | m in ids[..i]
        invariant forall j, k :: 0 <= j < k < i ==> ids[j] != ids[k]
      {
        if ids[i] in inserted {
          return None;
        }
        inserted := inserted + {ids[i]};
      }
      assert ids[..|ids|] == ids;
      stored := Some(inserted);
    }

    /** `update_email`: keywords first, then the mailbox checks; an error rolls everything back. */
    method UpdateEmail(account: Id, email: Id, keywords: Option<seq<string>>, target: Option<seq<Id>>)
      returns (ok: bool)
      modifies this
      ensures var r := old(Updated(Contents(), account, email, keywords, target));
              ok == r.Done? && Contents() == if ok then r.value else old(Contents())
    {
      if !(email in emails && emails[email].account == account) {
        return false;
      }
      var row := emails[email];
      if keywords.Some? {
        var stored := StoredKeywords(keywords.value);
        row := row.(keywords := stored);
      }
      if target.Some? {
        var stored := StoredMailboxes(account, target.value);
        if stored.None? {
          return false;
        }
        row := row.(mailboxes := stored.value);
      }
      var counters := Bumped(mailboxState, account);
      if counters.None? {
        return false;
      }
      var beforeEmails, beforeState := emails, mailboxState;
      emails := emails[email := row];
      mailboxState := counters.value;
      ok := Stamp(account, email);
      if !ok {
        emails, mailboxState := beforeEmails, beforeState;
      }
    }
  }

  lemma KeywordsGrow(keywords: seq<string>, i: nat)
    requires i < |keywords|
    ensures KeywordSet(keywords[..i + 1]) == KeywordSet(keywords[..i]) + {Lowered(keywords[i])}
  {
    var shorter, longer := keywords[..i], keywords[..i + 1];
    forall k | k in KeywordSet(longer) ensures k in KeywordSet(shorter) + {Lowered(keywords[i])} {
      var j :| 0 <= j < |longer| && k == Lowered(longer[j]);
      if j < i {
        assert shorter[j] == longer[j];
      }
    }
    forall k | k in KeywordSet(shorter) + {Lowered(keywords[i])} ensures k in KeywordSet(longer) {
      if k in KeywordSet(shorter) {
        var j :| 0 <= j < |shorter| && k == Lowered(shorter[j]);
        assert longer[j] == shorter[j];
      } else {
        assert longer[i] == keywords[i];
      }
    }
  }

  // ---- what every run keeps -------------------------------------------------------

  ghost predicate RowOk(s: Store, id: Id)
    requires id in s.emails
  {
    var e := s.emails[id];
    && 1 <= e.created <= e.updated <= EmailState(s, e.account)
    && (forall k :: k in e.keywords ==> Lowered(k) == k)
    && e.mailboxes != {}
    && (forall m :: m in e.mailboxes ==> OwnedMailbox(s.mailboxes, e.account, m))
  }

  ghost predicate StampsDiffer(s: Store) {
    forall i, j :: i in s.emails && j in s.emails && i != j && s.emails[i].account == s.emails[j].account ==>
      s.emails[i].updated != s.emails[j].updated
  }

  ghost predicate CountersFit(counters: map<Id, nat>) {
    forall a :: Counter(counters, a) <= MAX_MODSEQ
  }

  ghost predicate Inv(s: Store) {
    && (forall id :: id in s.emails ==> RowOk(s, id))
    && StampsDiffer(s)
    && CountersFit(s.emailState) && CountersFit(s.mailboxState) && CountersFit(s.threadState)
    && s.attributes.Keys <= s.emails.Keys
  }

  function After(s: Store, w: Write): Store
    requires FreshId(s, w)
  {
    match Written(s, w)
    case Done(v) => v
    case Failed(_) => s
  }

  lemma KeywordsAreLower(keywords: seq<string>)
    ensures forall k :: k in KeywordSet(keywords) ==> Lowered(k) == k
  {
  }

  /** What any successful write amounts to for the counters and the one row it names. */
  ghost predicate Stepped(s: Store, t: Store, account: Id, email: Id) {
    && email in t.emails && t.emails == s.emails[email := t.emails[email]]
    && (email in s.emails ==> s.emails[email].account == account)
    && t.emails[email].account == account
    && t.emails[email].updated == EmailState(s, account) + 1 <= MAX_MODSEQ
    && t.emailState == s.emailState[account := EmailState(s, account) + 1]
    && t.mailboxes == s.mailboxes
    && t.attributes.Keys <= s.attributes.Keys + {email}
  }

  ghost predicate OthersBumped(s: Store, t: Store, account: Id) {
    && (t.mailboxState == s.mailboxState || Some(t.mailboxState) == Bumped(s.mailboxState, account))
    && (t.threadState == s.threadState || Some(t.threadState) == Bumped(s.threadState, account))
  }

  lemma WriteSteps(s: Store, w: Write)
    requires FreshId(s, w) && Written(s, w).Done?
    ensures Stepped(s, After(s, w), w.account, w.email) && OthersBumped(s, After(s, w), w.account)
  {
  }

  lemma WrittenRowOk(s: Store, w: Write)
    requires Inv(s) && FreshId(s, w) && Written(s, w).Done?
    ensures var t := After(s, w); w.email in t.emails && RowOk(t, w.email)
  {
    var t := After(s, w);
    match w
    case SetAttribute(_, email, _, _, _) => assert RowOk(s, email);
    case Dismiss(_, email, _, _) => assert RowOk(s, email);
    case Update(_, email, keywords, mailboxes) =>
      assert RowOk(s, email);
      if keywords.Some? {
        KeywordsAreLower(keywords.value);
      }
      if mailboxes.Some? {
        assert mailboxes.value[0] in t.emails[email].mailboxes;
      }
    case Ingest(_, email, mailbox) => assert mailbox in t.emails[email].mailboxes;
  }

  lemma StepKeeps(s: Store, t: Store, account: Id, email: Id)
    requires Inv(s) && Stepped(s, t, account, email) && OthersBumped(s, t, account) && RowOk(t, email)
    ensures Inv(t)
  {
    forall id | id in t.emails ensures RowOk(t, id) {
      if id != email {
        assert RowOk(s, id);
      }
    }
    assert forall id :: id in s.emails ==> RowOk(s, id);
    CountersStayFit(s.emailState, t.emailState, account);
    CountersStayFit(s.mailboxState, t.mailboxState, account);
    CountersStayFit(s.threadState, t.threadState, account);
  }

  lemma CountersStayFit(before: map<Id, nat>, after: map<Id, nat>, account: Id)
    requires CountersFit(before) && (after == before || Some(after) == Bumped(before, account))
    ensures CountersFit(after)
  {
    forall a ensures Counter(after, a) <= MAX_MODSEQ {
      assert Counter(before, a) <= MAX_MODSEQ;
    }
  }

  lemma WriteKeeps(s: Store, w: Write)
    requires Inv(s) && FreshId(s, w)
    ensures Inv(After(s, w))
  {
    if Written(s, w).Done? {
      WriteSteps(s, w);
      WrittenRowOk(s, w);
      StepKeeps(s, After(s, w), w.account, w.email);
    }
  }

  // ---- runs -------------------------------------------------------------------------

  ghost predicate Legal(s: Store, ws: seq<Write>)
    decreases |ws|
  {
    ws != [] ==> FreshId(s, ws[0]) && Legal(After(s, ws[0]), ws[1..])
  }

  ghost function Run(s: Store, ws: seq<Write>): Store
    requires Legal(s, ws)
    decreases |ws|
  {
    if ws == [] then s else Run(After(s, ws[0]), ws[1..])
  }

  ghost function TouchedOnce(s: Store, w: Write, account: Id): set<Id>
    requires FreshId(s, w)
  {
    IdIf(w.email, Written(s, w).Done? && w.account == account)
  }

  /** The account's emails that some successful write of the run named. */
  ghost function Touched(s: Store, ws: seq<Write>, account: Id): set<Id>
    requires Legal(s, ws)
    decreases |ws|
  {
    if ws == [] then {} else TouchedOnce(s, ws[0], account) + Touched(After(s, ws[0]), ws[1..], account)
  }

  /** `WHERE account_id = ? AND updated_modseq > ?`. */
  function Above(s: Store, account: Id, since: int): set<Id> {
    set id | id in s.emails && s.emails[id].account == account && s.emails[id].updated > since
  }

  function IdIf(email: Id, c: bool): set<Id> {
    if c then {email} else {}
  }

  lemma StepAbove(s: Store, t: Store, writer: Id, email: Id, account: Id, since: int)
    requires Stepped(s, t, writer, email) && since <= EmailState(s, account)
    ensures Above(t, account, since) == Above(s, account, since) + IdIf(email, writer == account)
  {
    var before, after := Above(s, account, since), Above(t, account, since);
    forall id | id in after ensures id in before + IdIf(email, writer == account) {
      if id != email {
        assert t.emails[id] == s.emails[id];
      }
    }
    forall id | id in before + IdIf(email, writer == account) ensures id in after {
      if id != email {
        assert t.emails[id] == s.emails[id];
      }
    }
  }

  lemma WriteMoves(s: Store, w: Write, account: Id, since: int)
    requires FreshId(s, w) && since <= EmailState(s, account)
    ensures var t, named := After(s, w), TouchedOnce(s, w, account);
            && Above(t, account, since) == Above(s, account, since) + named
            && EmailState(t, account) == EmailState(s, account) + if named == {} then 0 else 1
  {
    var t := After(s, w);
    if Written(s, w).Done? {
      WriteSteps(s, w);
      StepAbove(s, t, w.account, w.email, account, since);
      assert w.account == account ==> w.email in TouchedOnce(s, w, account);
    }
  }

  lemma {:induction false} RunMoves(s: Store, ws: seq<Write>, account: Id, since: int)
    requires Inv(s) && Legal(s, ws) && since <= EmailState(s, account)
    ensures Inv(Run(s, ws))
    ensures Above(Run(s, ws), account, since) == Above(s, account, since) + Touched(s, ws, account)
    ensures EmailState(Run(s, ws), account) >= EmailState(s, account)
    ensures EmailState(Run(s, ws), account) == EmailState(s, account) <==> Touched(s, ws, account) == {}
    decreases |ws|
  {
    if ws != [] {
      WriteKeeps(s, ws[0]);
      WriteMoves(s, ws[0], account, since);
      RunMoves(After(s, ws[0]), ws[1..], account, since);
    }
  }

  lemma NoneAbove(s: Store, account: Id)
    requires Inv(s)
    ensures Above(s, account, EmailState(s, account)) == {}
  {
    forall id | id in s.emails && s.emails[id].account == account
      ensures s.emails[id].updated <= EmailState(s, account)
    {
      assert RowOk(s, id);
    }
  }

  /**
   Delta sync is complete and exact: the emails stamped above a state seen
   earlier are those written since, and the state moves exactly when there are any.
   */
  lemma DeltaSync(s: Store, ws: seq<Write>, account: Id)
    requires Inv(s) && Legal(s, ws)
    ensures Inv(Run(s, ws))
    ensures Above(Run(s, ws), account, EmailState(s, account)) == Touched(s, ws, account)
    ensures EmailState(s, account) <= EmailState(Run(s, ws), account) <= MAX_MODSEQ
    ensures EmailState(Run(s, ws), account) == EmailState(s, account) <==> Touched(s, ws, account) == {}
  {
    RunMoves(s, ws, account, EmailState(s, account));
    NoneAbove(s, account);
    assert CountersFit(Run(s, ws).emailState);
    assert Counter(Run(s, ws).emailState, account) <= MAX_MODSEQ;
  }

  ghost predicate Dismissed(s: Store, email: Id, kind: string, at: int) {
    kind in AttributesOf(s, email) && AttributesOf(s, email)[kind].dismissedAt == Some(at)
  }

  /** No later write of any kind clears or moves a dismissal. */
  lemma {:induction false} DismissalSticks(s: Store, ws: seq<Write>, email: Id, kind: string, at: int)
    requires Legal(s, ws) && Dismissed(s, email, kind, at)
    ensures Dismissed(Run(s, ws), email, kind, at)
    decreases |ws|
  {
    if ws != [] {
      DismissalSticks(After(s, ws[0]), ws[1..], email, kind, at);
    }
  }

  // ---- Email/changes ------------------------------------------------------------------

  const TWO_64: nat := 0x1_0000_0000_0000_0000

  /** `since as i64`: a token above the signed range wraps to a negative bound. */
  function Signed(since: nat): int
    requires since < TWO_64
  {
    if since <= MAX_MODSEQ then since else since - TWO_64
  }

  /** The rows of the query: ascending stamps, at most `limit`, the smallest ones first. */
  ghost predicate IsRows(s: Store, account: Id, since: int, limit: nat, rows: seq<Id>) {
    && (forall i :: 0 <= i < |rows| ==> rows[i] in Above(s, account, since))
    && (forall i, j :: 0 <= i < j < |rows| ==> s.emails[rows[i]].updated < s.emails[rows[j]].updated)
    && |rows| <= limit
    && (forall id, i :: id in Above(s, account, since) && id !in rows && 0 <= i < |rows| ==>
          s.emails[rows[i]].updated < s.emails[id].updated)
    && (|rows| < limit ==> forall id :: id in Above(s, account, since) ==> id in rows)
  }

  /** Distinct stamps make the query answerable in exactly this order: walk up the stamps to `top`. */
  lemma {:induction false} RowsExist(s: Store, account: Id, since: int, top: int, limit: nat) returns (rows: seq<Id>)
    requires StampsDiffer(s) && forall id :: id in s.emails ==> s.emails[id].updated <= top
    ensures IsRows(s, account, since, limit, rows)
    decreases top - since
  {
    if since >= top || limit == 0 {
      rows := [];
    } else if id :| id in s.emails && s.emails[id].account == account && s.emails[id].updated == since + 1 {
      var rest := RowsExist(s, account, since + 1, top, limit - 1);
      rows := [id] + rest;
      EarliestFirst(s, account, since, limit, id, rest);
    } else {
      rows := RowsExist(s, account, since + 1, top, limit);
      forall id | id in Above(s, account, since) ensures id in Above(s, account, since + 1) {
        assert id in s.emails && s.emails[id].updated != since + 1;
      }
    }
  }

  lemma EarliestFirst(s: Store, account: Id, since: int, limit: nat, id: Id, rest: seq<Id>)
    requires StampsDiffer(s) && limit > 0
    requires id in s.emails && s.emails[id].account == account && s.emails[id].updated == since + 1
    requires IsRows(s, account, since + 1, limit - 1, rest)
    ensures IsRows(s, account, since, limit, [id] + rest)
  {
    var rows := [id] + rest;
    forall other | other in Above(s, account, since) && other != id ensures other in Above(s, account, since + 1) {
      assert s.emails[other].updated != s.emails[id].updated;
    }
    assert forall i :: 0 < i < |rows| ==> rows[i] == rest[i - 1] && rows[i] in Above(s, account, since + 1);
  }

  /** One row more than the page is asked for; it exists exactly when the page leaves something out. */
  lemma PageIsWholeIff(s: Store, account: Id, since: int, max: nat, rows: seq<Id>)
    requires IsRows(s, account, since, max + 1, rows)
    ensures |rows| > max <==> |Above(s, account, since)| > max
    ensures |rows| <= max ==> Elements(rows) == Above(s, account, since)
    ensures |rows| > max ==> Elements(rows[..max]) != Above(s, account, since)
  {
    assert Distinct(rows);
    DistinctSize(rows);
    if |rows| <= max {
      forall id | id in Above(s, account, since) ensures id in rows {
      }
      assert Elements(rows) == Above(s, account, since);
    } else {
      SubsetSize(Elements(rows), Above(s, account, since));
      DistinctSize(rows[..max]);
    }
  }

  /**
   `changes_since` for emails. The new state is the account's current counter
   even when rows were left out.
   */
  method ChangesSince(s: Store, account: Id, since: nat, max: nat, rows: seq<Id>)
    returns (created: seq<Id>, updated: seq<Id>, newState: nat, hasMore: bool)
    requires since < TWO_64 && IsRows(s, account, Signed(since), max + 1, rows)
    ensures newState == EmailState(s, account)
    ensures hasMore <==> |Above(s, account, Signed(since))| > max
    ensures forall id :: id in created ==> id in s.emails && s.emails[id].created > since
    ensures forall id :: id in updated ==> id in s.emails && s.emails[id].created <= since
    ensures !hasMore ==> Elements(created) + Elements(updated) == Above(s, account, Signed(since))
    ensures hasMore ==> |rows| > max && Elements(created) + Elements(updated) == Elements(rows[..max])
    ensures hasMore <==> Elements(created) + Elements(updated) != Above(s, account, Signed(since))
  {
    PageIsWholeIff(s, account, Signed(since), max, rows);
    hasMore := |rows| > max;
    var n := if hasMore then max else |rows|;
    created, updated := [], [];
    for i := 0 to n
      invariant forall id :: id in created ==> id in s.emails && s.emails[id].created > since
      invariant forall id :: id in updated ==> id in s.emails && s.emails[id].created <= since
      invariant Elements(created) + Elements(updated) == Elements(rows[..i])
    {
      assert Elements(rows[..i + 1]) == Elements(rows[..i]) + {rows[i]};
      if s.emails[rows[i]].created > since {
        created := created + [rows[i]];
        assert Elements(created) == Elements(created[..|created| - 1]) + {rows[i]};
      } else {
        updated := updated + [rows[i]];
        assert Elements(updated) == Elements(updated[..|updated| - 1]) + {rows[i]};
      }
    }
    assert rows[..|rows|] == rows;
    newState := EmailState(s, account);
  }

  /**
   What a page leaves out comes back from the state it returned exactly when it
   is written again: a client that trusts `newState` after `hasMore` has lost it.
   */
  lemma LeftOutReturnsIff(s: Store, ws: seq<Write>, account: Id, since: int, max: nat, rows: seq<Id>, lost: Id)
    requires Inv(s) && Legal(s, ws) && IsRows(s, account, since, max + 1, rows)
    requires lost in Above(s, account, since) && |rows| > max && lost !in rows[..max]
    ensures lost in Above(Run(s, ws), account, EmailState(s, account)) <==> lost in Touched(s, ws, account)
  {
    DeltaSync(s, ws, account);
  }

  /** Two fresh emails read one at a time: the second is never reported. */
  lemma PagingLosesMail()
    ensures exists s: Store, rows: seq<Id> ::
      && Inv(s) && IsRows(s, 1, 0, 2, rows) && |rows| == 2 && Elements(rows[..1]) == {7}
      && Above(s, 1, 0) == {7, 8} && Above(s, 1, EmailState(s, 1)) == {}
  {
    var one, two := Email(1, 1, 1, {}, {5}), Email(1, 2, 2, {}, {5});
    var s := Store(map[7 := one, 8 := two], map[], map[1 := 2], map[1 := 2], map[1 := 2], map[5 := 1]);
    assert 5 in one.mailboxes;
    assert RowOk(s, 7) && RowOk(s, 8);
    assert Above(s, 1, 0) == {7, 8};
    assert Above(s, 1, 2) == {};
    var rows: seq<Id> := [7, 8];
    assert IsRows(s, 1, 0, 2, rows);
    assert Elements(rows[..1]) == {7} by {
      assert rows[..1] == [7];
    }
    assert EmailState(s, 1) == 2;
  }
}
