/**
 The audited actions on mail and their undo: `undo_action` (crates/owney-ai/src/lib.rs),
 `move_email` (crates/owney-mcp/src/service.rs), `screen` and `categorize`
 (crates/owney-ai/src/skills.rs) over the log of crates/owney-storage/src/ai_store.rs.
 */
module ActionLog {
  import opened Collections
  import opened Text
  import opened MailStore

  /** `ai_action` looks among this many newest actions of the account. */
  const WINDOW := 10_000

  datatype Patch = Patch(keywords: Option<seq<string>>, mailboxes: Option<seq<Id>>)

  datatype Action = Action(account: Id, email: Id, inverse: Option<Patch>, undone: bool)

  /** The log is in the order of insertion; a position stands for the action's id. */
  datatype World = World(store: Store, log: seq<Action>)

  /** The row a skill works from, as read by `emails_by_ids` at some earlier moment. */
  datatype Snapshot = Snapshot(keywords: seq<string>, mailboxes: seq<Id>)

  const CATEGORIES := ["personal", "transactional", "newsletter", "notification", "promotional"]

  // ---- finding an action ---------------------------------------------------------

  /** How many actions of the account are newer than the one at `i`. */
  function Later(log: seq<Action>, account: Id, i: nat): nat
    decreases |log|
  {
    if |log| <= i + 1 then 0
    else Later(log[..|log| - 1], account, i) + if log[|log| - 1].account == account then 1 else 0
  }

  predicate Findable(log: seq<Action>, account: Id, i: nat) {
    i < |log| && log[i].account == account && Later(log, account, i) < WINDOW
  }

  // ---- what each operation does ------------------------------------------------------

  /** Update the email, then record how to take it back. `None` is an error that changed nothing. */
  function Acted(w: World, account: Id, email: Id, keywords: Option<seq<string>>, mailboxes: Option<seq<Id>>,
                 inverse: Patch): Option<World>
  {
    match Updated(w.store, account, email, keywords, mailboxes)
    case Failed(_) => None
    case Done(s) => Some(World(s, w.log + [Action(account, email, Some(inverse), false)]))
  }

  /** What an operation leaves: if the entry in the log cannot be written, an error, with the email as updated. */
  function Left(w: World, r: Option<World>, logs: bool): World {
    if r.None? then w else if logs then r.value else World(r.value.store, w.log)
  }

  /** An operation that wrote nothing has nothing to log. */
  predicate Succeeds(w: World, r: Option<World>, logs: bool) {
    r.Some? && (logs || r.value.log == w.log)
  }

  /** An empty list in the patch counts as absent. */
  function NonEmpty(ids: Option<seq<Id>>): Option<seq<Id>> {
    if ids == Some([]) then None else ids
  }

  function Undone(w: World, account: Id, i: nat): Option<World> {
    if !Findable(w.log, account, i) then None
    else if w.log[i].undone then Some(w)
    else if w.log[i].inverse.None? then None
    else
      var patch := w.log[i].inverse.value;
      match Updated(w.store, account, w.log[i].email, patch.keywords, NonEmpty(patch.mailboxes))
      case Failed(_) => None
      case Done(s) => Some(World(s, w.log[i := w.log[i].(undone := true)]))
  }

  /** What is left when the email was updated and marking the action failed: an error, and an action still to undo. */
  function Unmarked(w: World, account: Id, i: nat): World
    requires Undone(w, account, i).Some?
  {
    World(Undone(w, account, i).value.store, w.log)
  }

  /** `move_email` to a role's mailbox, recording the placement in `row`. */
  function Moved(w: World, account: Id, email: Id, row: Snapshot, target: Option<Id>): Option<World> {
    if target.None? then None
    else Acted(w, account, email, None, Some([target.value]), Patch(None, Some(row.mailboxes)))
  }

  /** The screener moves a first-time sender's mail out of the inbox and leaves everything else alone. */
  predicate Screens(row: Snapshot, hasSender: bool, count: nat, inbox: Option<Id>, screener: Option<Id>) {
    hasSender && count <= 1 && inbox.Some? && inbox.value in row.mailboxes && screener.Some?
  }

  function Screened(w: World, account: Id, email: Id, row: Snapshot, hasSender: bool, count: nat,
                    inbox: Option<Id>, screener: Option<Id>): Option<World>
  {
    if !Screens(row, hasSender, count, inbox, screener) then Some(w)
    else Acted(w, account, email, None, Some([screener.value]), Patch(None, Some(row.mailboxes)))
  }

  function Categorized(w: World, account: Id, email: Id, row: Snapshot, answer: Option<string>): Option<World> {
    if answer.None? || answer.value !in CATEGORIES then None
    else Acted(w, account, email, Some(row.keywords + ["ai:" + answer.value]), None, Patch(Some(row.keywords), None))
  }

  class Activity {
    const db: Database
    var log: seq<Action>

    constructor (db: Database)
      ensures this.db == db && log == []
    {
      this.db := db;
      log := [];
    }

    function Contents(): World
      reads this, db
    {
      World(db.Contents(), log)
    }

    /** The new action can be undone at once; every earlier one of the account is now one further back. */
    method RecordAction(account: Id, email: Id, inverse: Option<Patch>) returns (i: nat)
      modifies this
      ensures old(log) <= log && |log| == i + 1 && i == |old(log)|
      ensures Findable(log, account, i) && !log[i].undone && log[i].email == email && log[i].inverse == inverse
      ensures forall j, other :: 0 <= j < i ==>
                Later(log, other, j) == old(Later(log, other, j)) + if other == account then 1 else 0
    {
      i := |log|;
      var action := Action(account, email, inverse, false);
      forall j, other | 0 <= j < i
        ensures Later(log + [action], other, j) == Later(log, other, j) + if other == account then 1 else 0
      {
        RecordingAges(log, action, other, j);
      }
      log := log + [action];
    }

    method UpdateAndRecord(account: Id, email: Id, keywords: Option<seq<string>>, mailboxes: Option<seq<Id>>,
                           inverse: Patch, logs: bool)
      returns (ok: bool)
      modifies this, db
      ensures var r := old(Acted(Contents(), account, email, keywords, mailboxes, inverse));
              ok == (r.Some? && logs) && Contents() == old(Left(Contents(), r, logs))
    {
      ok := db.UpdateEmail(account, email, keywords, mailboxes);
      if ok {
        if !logs {
          return false;
        }
        var i := RecordAction(account, email, Some(inverse));
        assert log == old(log) + [log[i]];
      }
    }

    method MoveEmail(account: Id, email: Id, row: Snapshot, target: Option<Id>, logs: bool) returns (ok: bool)
      modifies this, db
      ensures var r := old(Moved(Contents(), account, email, row, target));
              ok == old(Succeeds(Contents(), r, logs)) && Contents() == old(Left(Contents(), r, logs))
    {
      if target.None? {
        return false;
      }
      ok := UpdateAndRecord(account, email, None, Some([target.value]), Patch(None, Some(row.mailboxes)), logs);
    }

    method Screen(account: Id, email: Id, row: Snapshot, hasSender: bool, count: nat,
                  inbox: Option<Id>, screener: Option<Id>, logs: bool)
      returns (ok: bool, moved: bool)
      modifies this, db
      ensures var r := old(Screened(Contents(), account, email, row, hasSender, count, inbox, screener));
              ok == old(Succeeds(Contents(), r, logs)) && Contents() == old(Left(Contents(), r, logs))
      ensures moved <==> ok && Screens(row, hasSender, count, inbox, screener)
    {
      if !hasSender {
        return true, false;
      }
      if count > 1 {
        return true, false;
      }
      if inbox.None? || inbox.value !in row.mailboxes {
        return true, false;
      }
      if screener.None? {
        return true, false;
      }
      ok := UpdateAndRecord(account, email, None, Some([screener.value]), Patch(None, Some(row.mailboxes)), logs);
      moved := ok;
    }

    method Categorize(account: Id, email: Id, row: Snapshot, answer: Option<string>, logs: bool) returns (ok: bool)
      modifies this, db
      ensures var r := old(Categorized(Contents(), account, email, row, answer));
              ok == old(Succeeds(Contents(), r, logs)) && Contents() == old(Left(Contents(), r, logs))
    {
      if answer.None? || answer.value !in CATEGORIES {
        return false;
      }
      var keywords := row.keywords + ["ai:" + answer.value];
      ok := UpdateAndRecord(account, email, Some(keywords), None, Patch(Some(row.keywords), None), logs);
    }

    /** The newest `WINDOW` actions of the account are read and searched for the one asked for. */
    method FindAction(account: Id, i: nat) returns (action: Option<Action>)
      ensures action == if Findable(log, account, i) then Some(log[i]) else None
    {
      var seen, j := 0, |log|;
      assert log[..|log|] == log;
      while j > 0 && seen < WINDOW
        invariant 0 <= j <= |log|
        invariant i < j ==> Later(log, account, i) == seen + Later(log[..j], account, i)
        invariant i >= j ==> !Findable(log, account, i)
      {
        assert log[..j][..j - 1] == log[..j - 1];
        if log[j - 1].account == account {
          if j - 1 == i {
            return Some(log[i]);
          }
          seen := seen + 1;
        }
        j := j - 1;
      }
      action := None;
    }

    /** Update, then mark: two writes, of which the second may fail. */
    method UndoAction(account: Id, i: nat, marks: bool) returns (ok: bool)
      modifies this, db
      ensures var r := old(Undone(Contents(), account, i));
              && (r.None? ==> !ok && Contents() == old(Contents()))
              && (r.Some? ==> (ok <==> marks || old(log[i]).undone))
              && (r.Some? ==> Contents() == if ok then r.value else old(Unmarked(Contents(), account, i)))
    {
      var action := FindAction(account, i);
      if action.None? {
        return false;
      }
      if action.value.undone {
        return true;
      }
      if action.value.inverse.None? {
        return false;
      }
      var patch := action.value.inverse.value;
      ok := db.UpdateEmail(account, action.value.email, patch.keywords, NonEmpty(patch.mailboxes));
      if ok {
        if !marks {
          return false;
        }
        log := log[i := log[i].(undone := true)];
      }
    }
  }

  /** An action that enters the log pushes the account's earlier ones one place toward the end of the window. */
  lemma RecordingAges(log: seq<Action>, action: Action, account: Id, i: nat)
    requires i < |log|
    ensures Later(log + [action], account, i) == Later(log, account, i) + if action.account == account then 1 else 0
    ensures Findable(log + [action], account, i) <==>
            Findable(log, account, i) && (action.account == account ==> Later(log, account, i) < WINDOW - 1)
    ensures Findable(log + [action], action.account, |log|)
  {
    assert (log + [action])[..|log|] == log;
  }

  // ---- undo is the inverse -------------------------------------------------------------

  /** The two parts of an email's placement that actions change. */
  datatype Field = Keywords(email: Id) | Mailboxes(email: Id)

  datatype Value = KeywordsAre(keywords: set<string>) | MailboxesAre(mailboxes: set<Id>)

  function ValueOf(s: Store, f: Field): Value
    requires f.email in s.emails
  {
    if f.Keywords? then KeywordsAre(s.emails[f.email].keywords) else MailboxesAre(s.emails[f.email].mailboxes)
  }

  predicate Touches(action: Action, f: Field) {
    && action.inverse.Some? && action.email == f.email
    && if f.Keywords? then action.inverse.value.keywords.Some? else action.inverse.value.mailboxes.Some?
  }

  /** `t` has every email of the account in `s`, and the same mailboxes exist. */
  ghost predicate SameOwners(s: Store, t: Store, account: Id) {
    s.mailboxes == t.mailboxes && forall e :: Owned(s, account, e) ==> Owned(t, account, e)
  }

  /** Every email of the account in `s` has the same keywords and mailboxes in `t`. */
  ghost predicate SamePlacement(s: Store, t: Store, account: Id) {
    && SameOwners(s, t, account)
    && forall f: Field :: Owned(s, account, f.email) ==> ValueOf(t, f) == ValueOf(s, f)
  }

  /** The recorded patch holds what the action overwrote, and the action overwrote nothing else. */
  ghost predicate Inverts(before: Store, after: Store, action: Action) {
    && !action.undone && action.inverse.Some?
    && Owned(before, action.account, action.email) && Owned(after, action.account, action.email)
    && before.mailboxes == after.mailboxes
    && (forall e :: Owned(before, action.account, e) && e != action.email ==>
          e in after.emails && after.emails[e] == before.emails[e])
    && var p, was, became := action.inverse.value, before.emails[action.email], after.emails[action.email];
       && (if p.keywords.Some? then KeywordSet(p.keywords.value) == was.keywords else became.keywords == was.keywords)
       && (if p.mailboxes.Some? then
             && Elements(p.mailboxes.value) == was.mailboxes && p.mailboxes.value != [] && Distinct(p.mailboxes.value)
             && AllOwned(before.mailboxes, action.account, p.mailboxes.value)
           else became.mailboxes == was.mailboxes)
  }

  ghost predicate Headroom(s: Store, account: Id, steps: nat) {
    EmailState(s, account) + steps <= MAX_MODSEQ && Counter(s.mailboxState, account) + steps <= MAX_MODSEQ
  }

  /**
   Undoing one action, found or not: it succeeds exactly when fewer than `WINDOW` newer
   actions exist, and then what the action touched is as it was before, whatever it became
   since, and everything else stays.
   */
  lemma UndoRestores(before: Store, after: Store, u: World, account: Id, i: nat, more: nat)
    requires i < |u.log| && u.log[i].account == account && Inverts(before, after, u.log[i])
    requires SameOwners(after, u.store, account) && Headroom(u.store, account, more + 1)
    ensures Undone(u, account, i).Some? <==> Later(u.log, account, i) < WINDOW
    ensures Undone(u, account, i).Some? ==>
              var v := Undone(u, account, i).value;
              && SameOwners(u.store, v.store, account) && Headroom(v.store, account, more)
              && v.log == u.log[i := u.log[i].(undone := true)]
              && forall f: Field :: Owned(u.store, account, f.email) ==>
                   (Touches(u.log[i], f) ==> f.email in before.emails)
                   && ValueOf(v.store, f) == ValueOf(if Touches(u.log[i], f) then before else u.store, f)
  {
    var email, patch := u.log[i].email, u.log[i].inverse.value;
    assert Refusal(u.store, account, email, NonEmpty(patch.mailboxes)) == None;
    if Undone(u, account, i).Some? {
      var v := Undone(u, account, i).value;
      assert forall e :: Owned(u.store, account, e) && e != email ==> v.store.emails[e] == u.store.emails[e];
      if patch.mailboxes.Some? {
        assert v.store.emails[email].mailboxes == Elements(patch.mailboxes.value);
      }
    }
  }

  /** `logs` says whether the entry of the action can be written. */
  datatype Step =
    | Move(email: Id, row: Snapshot, target: Option<Id>, logs: bool)
    | ScreenMail(email: Id, row: Snapshot, hasSender: bool, count: nat, inbox: Option<Id>, screener: Option<Id>,
                 logs: bool)
    | Categorise(email: Id, row: Snapshot, answer: Option<string>, logs: bool)
    | Other(write: Write)

  /**
   Sequential runs: a move or screening knows the mailboxes and a categorisation the
   keywords as they are. Attribute writes and arriving mail may come in between.
   */
  ghost predicate Current(s: Store, account: Id, step: Step) {
    match step
    case Other(write) => !write.Update? && FreshId(s, write)
    case Categorise(email, row, _, _) =>
      Owned(s, account, email) ==> (set k | k in row.keywords) == s.emails[email].keywords
    case _ =>
      Owned(s, account, step.email) ==>
        Elements(step.row.mailboxes) == s.emails[step.email].mailboxes && Distinct(step.row.mailboxes)
  }

  ghost function Performed(w: World, account: Id, step: Step): Option<World>
    requires Current(w.store, account, step)
  {
    match step
    case Move(email, row, target, _) => Moved(w, account, email, row, target)
    case ScreenMail(email, row, hasSender, count, inbox, screener, _) =>
      Screened(w, account, email, row, hasSender, count, inbox, screener)
    case Categorise(email, row, answer, _) => Categorized(w, account, email, row, answer)
    case Other(write) => Some(World(After(w.store, write), w.log))
  }

  ghost function Next(w: World, account: Id, step: Step): World
    requires Current(w.store, account, step)
  {
    Left(w, Performed(w, account, step), step.Other? || step.logs)
  }

  lemma SameKeywords(keywords: seq<string>, stored: set<string>)
    requires (set k | k in keywords) == stored && forall k :: k in stored ==> Lowered(k) == k
    ensures KeywordSet(keywords) == stored
  {
    forall i | 0 <= i < |keywords| ensures Lowered(keywords[i]) == keywords[i] {
      assert keywords[i] in stored;
    }
    forall k | k in stored ensures k in KeywordSet(keywords) {
      var i :| 0 <= i < |keywords| && keywords[i] == k;
      assert Lowered(keywords[i]) == k;
    }
  }

  lemma ActedInverts(w: World, account: Id, email: Id, keywords: Option<seq<string>>, mailboxes: Option<seq<Id>>,
                     inverse: Patch)
    requires Inv(w.store) && Acted(w, account, email, keywords, mailboxes, inverse).Some?
    requires keywords.Some? <==> inverse.keywords.Some?
    requires mailboxes.Some? <==> inverse.mailboxes.Some?
    requires inverse.keywords.Some? && Owned(w.store, account, email) ==>
               (set k | k in inverse.keywords.value) == w.store.emails[email].keywords
    requires inverse.mailboxes.Some? && Owned(w.store, account, email) ==>
               Elements(inverse.mailboxes.value) == w.store.emails[email].mailboxes && Distinct(inverse.mailboxes.value)
    ensures var v := Acted(w, account, email, keywords, mailboxes, inverse).value;
            Inv(v.store) && Inverts(w.store, v.store, Action(account, email, Some(inverse), false))
  {
    WriteKeeps(w.store, Update(account, email, keywords, mailboxes));
    assert RowOk(w.store, email);
    if inverse.keywords.Some? {
      SameKeywords(inverse.keywords.value, w.store.emails[email].keywords);
    }
    if inverse.mailboxes.Some? {
      var ids := inverse.mailboxes.value;
      assert forall i :: 0 <= i < |ids| ==> ids[i] in Elements(ids);
    }
  }

  lemma OtherKeepsPlacement(w: World, account: Id, write: Write)
    requires Inv(w.store) && !write.Update? && FreshId(w.store, write)
    ensures Inv(After(w.store, write)) && SamePlacement(w.store, After(w.store, write), account)
  {
    WriteKeeps(w.store, write);
  }

  ghost predicate Recorded(w: World, v: World, account: Id) {
    && |v.log| == |w.log| + 1 && w.log <= v.log && v.log[|w.log|].account == account
    && Inverts(w.store, v.store, v.log[|w.log|])
  }

  lemma InvertsOwners(before: Store, after: Store, action: Action)
    requires Inverts(before, after, action)
    ensures SameOwners(before, after, action.account)
    ensures forall f: Field :: Owned(before, action.account, f.email) && !Touches(action, f) ==>
              f.email in after.emails && ValueOf(after, f) == ValueOf(before, f)
  {
  }

  /** What an operation did, whether it gets into the log or not. */
  lemma PerformedInverts(w: World, account: Id, step: Step)
    requires Inv(w.store) && Current(w.store, account, step) && !step.Other? && Performed(w, account, step).Some?
    ensures var v := Performed(w, account, step).value;
            v == w || (Inv(v.store) && Recorded(w, v, account))
  {
    match step
    case Move(email, row, target, _) =>
      ActedInverts(w, account, email, None, Some([target.value]), Patch(None, Some(row.mailboxes)));
    case ScreenMail(email, row, hasSender, count, inbox, screener, _) =>
      if Screens(row, hasSender, count, inbox, screener) {
        ActedInverts(w, account, email, None, Some([screener.value]), Patch(None, Some(row.mailboxes)));
      }
    case Categorise(email, row, answer, _) =>
      var keywords := row.keywords + ["ai:" + answer.value];
      ActedInverts(w, account, email, Some(keywords), None, Patch(Some(row.keywords), None));
  }

  /**
   One step either leaves the log alone or records its own inverse, and what it does not
   record it leaves alone, unless the entry could not be written.
   */
  lemma StepInverts(w: World, account: Id, step: Step)
    requires Inv(w.store) && Current(w.store, account, step)
    ensures var v := Next(w, account, step);
            && Inv(v.store) && SameOwners(w.store, v.store, account)
            && (v.log == w.log || Recorded(w, v, account))
            && (v.log == w.log && (step.Other? || step.logs) ==> SamePlacement(w.store, v.store, account))
  {
    if step.Other? {
      OtherKeepsPlacement(w, account, step.write);
    } else if Performed(w, account, step).Some? {
      PerformedInverts(w, account, step);
      var v := Performed(w, account, step).value;
      if v != w {
        InvertsOwners(w.store, v.store, v.log[|w.log|]);
      }
    }
  }

  /** The run of `steps` from `w`, with every snapshot current when it is used. */
  ghost predicate Sequential(w: World, account: Id, steps: seq<Step>)
    decreases |steps|, 0
  {
    steps != [] ==>
      && Sequential(w, account, steps[..|steps| - 1])
      && Current(End(w, account, steps[..|steps| - 1]).store, account, steps[|steps| - 1])
  }

  ghost function End(w: World, account: Id, steps: seq<Step>): World
    requires Sequential(w, account, steps)
    decreases |steps|, 1
  {
    if steps == [] then w
    else Next(End(w, account, steps[..|steps| - 1]), account, steps[|steps| - 1])
  }

  /** Undo the actions at positions `from` to `to - 1`, newest first; stop at the first error. */
  ghost function UndoAll(u: World, account: Id, from: nat, to: nat): Option<World>
    decreases to - from
  {
    if to <= from then Some(u)
    else match Undone(u, account, to - 1)
      case None => None
      case Some(v) => UndoAll(v, account, from, to - 1)
  }

  lemma {:induction false} LaterIsByAccount(a: seq<Action>, b: seq<Action>, account: Id, i: nat)
    requires SameAccounts(a, b)
    ensures Later(a, account, i) == Later(b, account, i)
    decreases |a|
  {
    if |a| > i + 1 {
      LaterIsByAccount(a[..|a| - 1], b[..|b| - 1], account, i);
    }
  }

  lemma {:induction false} LaterShrinks(log: seq<Action>, account: Id, i: nat, j: nat)
    requires i <= j
    ensures Later(log, account, j) <= Later(log, account, i)
    decreases |log|
  {
    if |log| > j + 1 {
      LaterShrinks(log[..|log| - 1], account, i, j);
    }
  }

  /** A world `u` that has the emails of the outcome of a run and the run's log entries. */
  ghost predicate Follows(u: World, w: World, account: Id, from: nat) {
    && SameOwners(w.store, u.store, account)
    && from <= |w.log| <= |u.log| && u.log[from..|w.log|] == w.log[from..]
  }

  /** The store just before the oldest action of the run's log that touches the field. */
  ghost function Oldest(w: World, account: Id, steps: seq<Step>, f: Field): Option<Store>
    requires Sequential(w, account, steps)
    decreases |steps|
  {
    if steps == [] then None
    else
      var v, end := End(w, account, steps[..|steps| - 1]), End(w, account, steps);
      var older := Oldest(w, account, steps[..|steps| - 1], f);
      if older.Some? then older
      else if |end.log| > |v.log| && Touches(end.log[|v.log|], f) then Some(v.store)
      else None
  }

  /** Undoing all from `to` down to `w`'s log goes through when it can be found, and gives each field its value. */
  ghost predicate GivesBack(w: World, u: World, account: Id, to: nat, steps: seq<Step>)
    requires Sequential(w, account, steps)
  {
    var all := UndoAll(u, account, |w.log|, to);
    && (all.Some? <==> to <= |w.log| || Later(u.log, account, |w.log|) < WINDOW)
    && (all.Some? ==>
          && SameOwners(w.store, all.value.store, account)
          && AllComeFrom(w, u, all.value, account, steps))
  }

  ghost predicate AllComeFrom(w: World, u: World, t: World, account: Id, steps: seq<Step>)
    requires Sequential(w, account, steps)
  {
    forall f: Field :: Owned(w.store, account, f.email) ==> ComesFrom(w, u, t, account, steps, f)
  }

  /** The field in `t` is as it was before the oldest logged action on it, or as in `u` if there is none. */
  ghost predicate ComesFrom(w: World, u: World, t: World, account: Id, steps: seq<Step>, f: Field)
    requires Sequential(w, account, steps)
  {
    var oldest := Oldest(w, account, steps, f);
    var source := if oldest.Some? then oldest.value else u.store;
    f.email in t.store.emails && f.email in source.emails && ValueOf(t.store, f) == ValueOf(source, f)
  }

  /**
   What undoing a run gives: after any sequential run, taking back its actions newest first
   goes through exactly when the oldest of them is still among the newest `WINDOW` of the
   account; and each field of each email then is what it was before the oldest logged action
   on it, or, without one, what it was when the undoing began.
   */
  lemma {:induction false} UndoGivesOldest(w: World, u: World, account: Id, steps: seq<Step>)
    requires Inv(w.store) && Sequential(w, account, steps)
    requires Follows(u, End(w, account, steps), account, |w.log|)
    requires Headroom(u.store, account, |End(w, account, steps).log| - |w.log|)
    ensures |w.log| <= |End(w, account, steps).log| && Inv(End(w, account, steps).store)
    ensures GivesBack(w, u, account, |End(w, account, steps).log|, steps)
    decreases |steps|
  {
    if steps != [] {
      var front := steps[..|steps| - 1];
      var v, end := End(w, account, front), End(w, account, steps);
      LastStep(w, account, steps);
      if end.log == v.log {
        UndoGivesOldest(w, u, account, front);
      } else {
        UndoLast(w, v, end, u, account);
        if Undone(u, account, |v.log|).Some? {
          UndoGivesOldest(w, Undone(u, account, |v.log|).value, account, front);
        }
        UndoOneMore(w, u, account, steps);
      }
    }
  }

  lemma UndoOneMore(w: World, u: World, account: Id, steps: seq<Step>)
    requires Sequential(w, account, steps) && steps != []
    requires var v, end := End(w, account, steps[..|steps| - 1]), End(w, account, steps);
             var undone := Undone(u, account, |v.log|);
             && |w.log| <= |v.log| && |end.log| == |v.log| + 1
             && (undone.Some? <==> Later(u.log, account, |v.log|) < WINDOW)
             && (undone.Some? ==>
                   && GivesBack(w, undone.value, account, |v.log|, steps[..|steps| - 1])
                   && SameAccounts(u.log, undone.value.log)
                   && FieldsUndone(w, account, v.store, u.store, undone.value.store, end.log[|v.log|]))
    ensures GivesBack(w, u, account, |End(w, account, steps).log|, steps)
  {
    var v := End(w, account, steps[..|steps| - 1]);
    WindowOneMore(u, account, |w.log|, |v.log|);
    if UndoAll(u, account, |w.log|, |v.log| + 1).Some? {
      var undone := Undone(u, account, |v.log|).value;
      FieldsThroughUndo(w, u, undone, UndoAll(undone, account, |w.log|, |v.log|).value, account, steps);
    }
  }

  /** Undoing one more action goes through exactly when the oldest can still be found. */
  lemma WindowOneMore(u: World, account: Id, from: nat, to: nat)
    requires from <= to
    requires Undone(u, account, to).Some? <==> Later(u.log, account, to) < WINDOW
    requires Undone(u, account, to).Some? ==>
               var v := Undone(u, account, to).value;
               && SameAccounts(u.log, v.log)
               && (UndoAll(v, account, from, to).Some? <==> to <= from || Later(v.log, account, from) < WINDOW)
    ensures UndoAll(u, account, from, to + 1).Some? <==> Later(u.log, account, from) < WINDOW
    ensures UndoAll(u, account, from, to + 1).Some? ==>
              Undone(u, account, to).Some?
              && UndoAll(u, account, from, to + 1) == UndoAll(Undone(u, account, to).value, account, from, to)
  {
    LaterShrinks(u.log, account, from, to);
    if Undone(u, account, to).Some? {
      LaterIsByAccount(u.log, Undone(u, account, to).value.log, account, from);
    }
  }

  lemma FieldsThroughUndo(w: World, u: World, undone: World, t: World, account: Id, steps: seq<Step>)
    requires Sequential(w, account, steps) && steps != []
    requires AllComeFrom(w, undone, t, account, steps[..|steps| - 1])
    requires var v, end := End(w, account, steps[..|steps| - 1]), End(w, account, steps);
             && |end.log| == |v.log| + 1
             && FieldsUndone(w, account, v.store, u.store, undone.store, end.log[|v.log|])
    ensures AllComeFrom(w, u, t, account, steps)
  {
    var v, end := End(w, account, steps[..|steps| - 1]), End(w, account, steps);
    forall f: Field | Owned(w.store, account, f.email) ensures ComesFrom(w, u, t, account, steps, f) {
      assert ComesFrom(w, undone, t, account, steps[..|steps| - 1], f);
      assert FieldUndone(v.store, u.store, undone.store, end.log[|v.log|], f);
    }
  }

  predicate SameAccounts(a: seq<Action>, b: seq<Action>) {
    |a| == |b| && forall k :: 0 <= k < |a| ==> a[k].account == b[k].account
  }

  ghost predicate FieldsUndone(w: World, account: Id, before: Store, u: Store, v: Store, action: Action) {
    forall f: Field :: Owned(w.store, account, f.email) ==> FieldUndone(before, u, v, action, f)
  }

  /** Undoing one action took the fields it touches from `before` and left the others as in `u`. */
  ghost predicate FieldUndone(before: Store, u: Store, v: Store, action: Action, f: Field) {
    var source := if Touches(action, f) then before else u;
    f.email in v.emails && f.email in source.emails && ValueOf(v, f) == ValueOf(source, f)
  }

  lemma LastStep(w: World, account: Id, steps: seq<Step>)
    requires Inv(w.store) && Sequential(w, account, steps) && steps != []
    ensures var v, end := End(w, account, steps[..|steps| - 1]), End(w, account, steps);
            && Inv(v.store) && Inv(end.store) && w.log <= v.log <= end.log
            && SameOwners(w.store, v.store, account) && SameOwners(v.store, end.store, account)
            && (end.log == v.log || Recorded(v, end, account))
            && (end.log == v.log && (steps[|steps| - 1].Other? || steps[|steps| - 1].logs) ==>
                  SamePlacement(v.store, end.store, account))
  {
    RunKeepsLog(w, account, steps[..|steps| - 1]);
    StepInverts(End(w, account, steps[..|steps| - 1]), account, steps[|steps| - 1]);
  }

  lemma {:induction false} RunKeepsLog(w: World, account: Id, steps: seq<Step>)
    requires Inv(w.store) && Sequential(w, account, steps)
    ensures Inv(End(w, account, steps).store) && w.log <= End(w, account, steps).log
    ensures SameOwners(w.store, End(w, account, steps).store, account)
    decreases |steps|
  {
    if steps != [] {
      RunKeepsLog(w, account, steps[..|steps| - 1]);
      StepInverts(End(w, account, steps[..|steps| - 1]), account, steps[|steps| - 1]);
    }
  }

  lemma UndoLast(w: World, v: World, end: World, u: World, account: Id)
    requires |w.log| <= |v.log| && Recorded(v, end, account) && SameOwners(w.store, v.store, account)
    requires SameOwners(v.store, end.store, account)
    requires Follows(u, end, account, |w.log|) && Headroom(u.store, account, |end.log| - |w.log|)
    ensures Undone(u, account, |v.log|).Some? <==> Later(u.log, account, |v.log|) < WINDOW
    ensures Undone(u, account, |v.log|).Some? ==>
              var next := Undone(u, account, |v.log|).value;
              && Follows(next, v, account, |w.log|) && Headroom(next.store, account, |v.log| - |w.log|)
              && SameAccounts(u.log, next.log)
              && FieldsUndone(w, account, v.store, u.store, next.store, end.log[|v.log|])
  {
    assert u.log[|v.log|] == u.log[|w.log|..|end.log|][|v.log| - |w.log|] == end.log[|v.log|];
    UndoRestores(v.store, end.store, u, account, |v.log|, |v.log| - |w.log|);
    if Undone(u, account, |v.log|).Some? {
      var next := Undone(u, account, |v.log|).value;
      forall k | 0 <= k < |v.log| - |w.log|
        ensures next.log[|w.log|..|v.log|][k] == v.log[|w.log|..][k]
      {
        assert u.log[|w.log|..|end.log|][k] == end.log[|w.log|..][k];
      }
      forall f: Field | Owned(w.store, account, f.email)
        ensures FieldUndone(v.store, u.store, next.store, end.log[|v.log|], f)
      {
        assert Owned(v.store, account, f.email) && Owned(end.store, account, f.email);
        assert Owned(u.store, account, f.email);
      }
    }
  }

  /** Every entry of the run could be written. */
  predicate AllLogged(steps: seq<Step>) {
    forall i :: 0 <= i < |steps| ==> steps[i].Other? || steps[i].logs
  }

  /** Then nothing changes a field before the oldest logged action on it. */
  lemma {:induction false} UnchangedBeforeOldest(w: World, account: Id, steps: seq<Step>, f: Field)
    requires Inv(w.store) && Sequential(w, account, steps) && AllLogged(steps) && Owned(w.store, account, f.email)
    ensures var oldest := Oldest(w, account, steps, f);
            var source := if oldest.Some? then oldest.value else End(w, account, steps).store;
            f.email in source.emails && ValueOf(source, f) == ValueOf(w.store, f)
    decreases |steps|
  {
    if steps != [] {
      var front := steps[..|steps| - 1];
      var v, end := End(w, account, front), End(w, account, steps);
      UnchangedBeforeOldest(w, account, front, f);
      LastStep(w, account, steps);
      assert Owned(v.store, account, f.email);
      if end.log != v.log {
        InvertsOwners(v.store, end.store, end.log[|v.log|]);
      }
    }
  }

  /**
   Undo inverts history: after any sequential run whose actions all got into the log, taking
   them back newest first restores every email's keywords and mailboxes, and it goes through
   exactly when the oldest is still among the newest `WINDOW` of the account.
   */
  lemma UndoInvertsHistory(w: World, u: World, account: Id, steps: seq<Step>)
    requires Inv(w.store) && Sequential(w, account, steps) && AllLogged(steps)
    requires Follows(u, End(w, account, steps), account, |w.log|)
    requires SamePlacement(End(w, account, steps).store, u.store, account)
    requires Headroom(u.store, account, |End(w, account, steps).log| - |w.log|)
    ensures var all := UndoAll(u, account, |w.log|, |End(w, account, steps).log|);
            && (all.Some? <==>
                |End(w, account, steps).log| <= |w.log| || Later(u.log, account, |w.log|) < WINDOW)
            && (all.Some? ==> SamePlacement(w.store, all.value.store, account))
  {
    UndoGivesOldest(w, u, account, steps);
    RunKeepsLog(w, account, steps);
    var all := UndoAll(u, account, |w.log|, |End(w, account, steps).log|);
    if all.Some? {
      forall f: Field | Owned(w.store, account, f.email)
        ensures ValueOf(all.value.store, f) == ValueOf(w.store, f)
      {
        assert ComesFrom(w, u, all.value, account, steps, f);
        UnchangedBeforeOldest(w, account, steps, f);
        assert Owned(End(w, account, steps).store, account, f.email);
      }
    }
  }

  /**
   Where entries can fail to be written: undoing the run from its end restores a field exactly
   if it still had, before the oldest logged action on it or else at the end, the value it
   began with. What an unlogged action did before that is not taken back.
   */
  lemma FieldIsRestoredIff(w: World, account: Id, steps: seq<Step>, f: Field)
    requires Inv(w.store) && Sequential(w, account, steps) && Owned(w.store, account, f.email)
    requires var end := End(w, account, steps);
             |w.log| <= |end.log| && Headroom(end.store, account, |end.log| - |w.log|)
             && UndoAll(end, account, |w.log|, |end.log|).Some?
    ensures var end := End(w, account, steps);
            var all := UndoAll(end, account, |w.log|, |end.log|).value;
            var oldest := Oldest(w, account, steps, f);
            var source := if oldest.Some? then oldest.value else end.store;
            && f.email in all.store.emails && f.email in source.emails
            && (ValueOf(all.store, f) == ValueOf(w.store, f) <==> ValueOf(source, f) == ValueOf(w.store, f))
  {
    var end := End(w, account, steps);
    UndoGivesOldest(w, end, account, steps);
    assert ComesFrom(w, end, UndoAll(end, account, |w.log|, |end.log|).value, account, steps, f);
  }

  /** A move whose entry was not written: an error is returned, the email is moved, and there is nothing to undo. */
  lemma UnloggedMoveStays(w: World, account: Id, email: Id, row: Snapshot, target: Id)
    requires Moved(w, account, email, row, Some(target)).Some?
    ensures var r := Moved(w, account, email, row, Some(target));
            var left := Left(w, r, false);
            && !Succeeds(w, r, false) && left.log == w.log
            && email in left.store.emails && left.store.emails[email].mailboxes == {target}
            && UndoAll(left, account, |w.log|, |left.log|) == Some(left)
  {
    assert Elements([target]) == {target};
  }

  /** Undoing an undone action succeeds and changes nothing. */
  lemma UndoTwice(w: World, account: Id, i: nat)
    requires Undone(w, account, i).Some?
    ensures Undone(Undone(w, account, i).value, account, i) == Undone(w, account, i)
  {
    LaterIsByAccount(w.log, Undone(w, account, i).value.log, account, i);
  }

  /**
   An undo whose mark failed has already given the placement back, and can be repeated:
   the repetition finds the action as before, succeeds, marks it, and leaves the placement alone.
   */
  lemma FailedMarkIsRepeatable(w: World, account: Id, i: nat)
    requires Undone(w, account, i).Some? && !w.log[i].undone && Headroom(w.store, account, 2)
    ensures var once, again := Undone(w, account, i).value, Undone(Unmarked(w, account, i), account, i);
            && again.Some? && again.value.log == once.log
            && SamePlacement(once.store, again.value.store, account)
            && SamePlacement(again.value.store, once.store, account)
  {
    var patch := w.log[i].inverse.value;
    var u := Unmarked(w, account, i);
    assert Refusal(u.store, account, w.log[i].email, NonEmpty(patch.mailboxes)) == None;
  }

  /** From a stale snapshot, categorise-then-undo leaves the snapshot's keywords: exact if nothing changed since. */
  lemma StaleSnapshotUndoes(w: World, account: Id, email: Id, row: Snapshot, answer: Option<string>)
    requires Categorized(w, account, email, row, answer).Some?
    requires Undone(Categorized(w, account, email, row, answer).value, account, |w.log|).Some?
    ensures Owned(w.store, account, email)
    ensures var v := Undone(Categorized(w, account, email, row, answer).value, account, |w.log|).value;
            && Owned(v.store, account, email)
            && v.store.emails[email].mailboxes == w.store.emails[email].mailboxes
            && (v.store.emails[email].keywords == w.store.emails[email].keywords
                <==> KeywordSet(row.keywords) == w.store.emails[email].keywords)
  {
    var v := Categorized(w, account, email, row, answer).value;
    assert v.log[|w.log|] == Action(account, email, Some(Patch(Some(row.keywords), None)), false);
  }

  lemma StaleRelocation(w: World, account: Id, email: Id, row: Snapshot, target: Id)
    requires Acted(w, account, email, None, Some([target]), Patch(None, Some(row.mailboxes))).Some?
    requires var moved := Acted(w, account, email, None, Some([target]), Patch(None, Some(row.mailboxes))).value;
             Undone(moved, account, |w.log|).Some?
    ensures var moved := Acted(w, account, email, None, Some([target]), Patch(None, Some(row.mailboxes))).value;
            PlacementIsBackIff(w, moved, account, email, row, target)
  {
    var moved := Acted(w, account, email, None, Some([target]), Patch(None, Some(row.mailboxes))).value;
    assert moved.log[|w.log|] == Action(account, email, Some(Patch(None, Some(row.mailboxes))), false);
    assert moved.store.emails[email].mailboxes == {target};
  }

  /**
   Undoing the move from `w` to `moved` gives back the placement exactly when the snapshot's
   mailboxes are still the email's, or when the snapshot has none and the email was already
   just where it was moved.
   */
  ghost predicate PlacementIsBackIff(w: World, moved: World, account: Id, email: Id, row: Snapshot, target: Id)
    requires Undone(moved, account, |w.log|).Some?
  {
    var v := Undone(moved, account, |w.log|).value;
    && Owned(w.store, account, email) && Owned(v.store, account, email)
    && v.store.emails[email].keywords == w.store.emails[email].keywords
    && (v.store.emails[email].mailboxes == w.store.emails[email].mailboxes <==>
        w.store.emails[email].mailboxes == if row.mailboxes == [] then {target} else Elements(row.mailboxes))
  }

  /** Likewise for the placement, from any snapshot: moving and undoing it. */
  lemma StaleMoveUndoes(w: World, account: Id, email: Id, row: Snapshot, target: Option<Id>)
    requires Moved(w, account, email, row, target).Some?
    requires Undone(Moved(w, account, email, row, target).value, account, |w.log|).Some?
    ensures PlacementIsBackIff(w, Moved(w, account, email, row, target).value, account, email, row, target.value)
  {
    StaleRelocation(w, account, email, row, target.value);
  }

  /** And screening and undoing it. */
  lemma StaleScreeningUndoes(w: World, account: Id, email: Id, row: Snapshot, hasSender: bool, count: nat,
                             inbox: Option<Id>, screener: Option<Id>)
    requires Screens(row, hasSender, count, inbox, screener)
    requires Screened(w, account, email, row, hasSender, count, inbox, screener).Some?
    requires var moved := Screened(w, account, email, row, hasSender, count, inbox, screener).value;
             Undone(moved, account, |w.log|).Some?
    ensures var moved := Screened(w, account, email, row, hasSender, count, inbox, screener).value;
            PlacementIsBackIff(w, moved, account, email, row, screener.value)
  {
    StaleRelocation(w, account, email, row, screener.value);
  }

  lemma {:induction false} LaterCounts(log: seq<Action>, account: Id, i: nat)
    requires i < |log| && forall k :: 0 <= k < |log| ==> log[k].account == account
    ensures Later(log, account, i) == |log| - i - 1
    decreases |log|
  {
    if |log| > i + 1 {
      LaterCounts(log[..|log| - 1], account, i);
    }
  }

  /** The oldest of 10,001 actions can no longer be undone; the second oldest can still be found. */
  lemma OldestIsLost(w: World, account: Id)
    requires |w.log| == 10_001 && forall k :: 0 <= k < |w.log| ==> w.log[k].account == account
    ensures Undone(w, account, 0) == None && Findable(w.log, account, 1)
  {
    LaterCounts(w.log, account, 0);
    LaterCounts(w.log, account, 1);
  }
}
