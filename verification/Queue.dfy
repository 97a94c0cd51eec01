/**
 The durable outbound queue (crates/owney-storage/src/queue.rs) and the worker
 that drives it (crates/owney-delivery/src/worker.rs): first the operations with
 their state changes, then any number of workers stepping over one queue with
 crashes, storage errors and restarts anywhere.
 */
module Queue {
  import opened Collections
  import opened Schedule

  type Id = nat
  type WorkerId = nat

  datatype Status = Queued | Sending | Delivered | Failed

  datatype Row = Row(status: Status, attempts: nat, nextAttempt: int, chat: bool)

  const BATCH := 16

  predicate Terminal(s: Status) {
    s == Status.Delivered || s == Status.Failed
  }

  // ---- row operations -------------------------------------------------------

  function NewRow(chat: bool, now: int): Row {
    Row(Queued, 0, now, chat)
  }

  /** `record_attempt`: status by outcome, one more attempt, a new due time only on retry. */
  function Recorded(row: Row, outcome: Outcome): Row {
    match outcome
    case Delivered => row.(status := Status.Delivered, attempts := row.attempts + 1)
    case Failed => row.(status := Status.Failed, attempts := row.attempts + 1)
    case Retry(next) => row.(status := Queued, attempts := row.attempts + 1, nextAttempt := next)
  }

  /** The row is due from `now` on and not before, and nothing was tried yet. */
  ghost predicate Queues(row: Row, chat: bool, now: int) {
    row.chat == chat && row.attempts == 0 && forall t :: Due(row, t) <==> now <= t
  }

  /** `after` has a new row for each id, and every other row is as it was. */
  ghost predicate Enqueued(before: map<Id, Row>, after: map<Id, Row>, ids: seq<Id>, chat: bool, now: int) {
    && (forall id :: id in after <==> id in before || id in ids)
    && (forall id :: id in before && id !in ids ==> after[id] == before[id])
    && (forall i :: 0 <= i < |ids| ==> ids[i] in after && Queues(after[ids[i]], chat, now))
  }

  /** `reset_stale_claims` on one row. */
  function Reset(row: Row): Row {
    if row.status == Sending then row.(status := Queued) else row
  }

  predicate Due(row: Row, now: int) {
    row.status == Queued && row.nextAttempt <= now
  }

  /** Chat before normal mail, then the earliest due time. */
  predicate Before(a: Row, b: Row) {
    (a.chat && !b.chat) || (a.chat == b.chat && a.nextAttempt < b.nextAttempt)
  }

  /** A claim takes as many due rows as it may, and none after a due row it leaves. */
  ghost predicate IsBatch(rows: map<Id, Row>, batch: set<Id>, now: int) {
    && (forall id :: id in batch ==> id in rows && Due(rows[id], now))
    && |batch| <= BATCH
    && (forall id, other :: id in batch && other in rows && other !in batch && Due(rows[other], now) ==>
          |batch| == BATCH && !Before(rows[other], rows[id]))
    && (batch == {} ==> forall other :: other in rows ==> !Due(rows[other], now))
  }

  function ClaimRows(rows: map<Id, Row>, batch: set<Id>): map<Id, Row> {
    map id | id in rows :: if id in batch then rows[id].(status := Sending) else rows[id]
  }

  function ResetRows(rows: map<Id, Row>): map<Id, Row> {
    map id | id in rows :: Reset(rows[id])
  }

  // ---- one attempt ------------------------------------------------------------

  /** What the relays answer, tried in order: the first answer that is not transient decides. */
  function FirstDecisive(answers: seq<Attempt>): Attempt {
    if answers == [] then Transient
    else if answers[0] != Transient then answers[0]
    else FirstDecisive(answers[1..])
  }

  /** `attempt`: an unreadable blob, a failed lookup and an empty relay list are all transient. */
  method TryRelays(blobReadable: bool, relays: seq<Attempt>, lookupOk: bool) returns (r: Attempt)
    ensures r == if blobReadable && lookupOk then FirstDecisive(relays) else Transient
    ensures r == Accepted ==> blobReadable && lookupOk && Accepted in relays
  {
    if !blobReadable || !lookupOk || relays == [] {
      return Transient;
    }
    for i := 0 to |relays|
      invariant forall j :: 0 <= j < i ==> relays[j] == Transient
      invariant FirstDecisive(relays) == FirstDecisive(relays[i..])
    {
      if relays[i] != Transient {
        return relays[i];
      }
    }
    r := Transient;
  }

  class QueueTable {
    var rows: map<Id, Row>
    var dsns: map<Id, nat>

    /** Bounces delivered for one item. */
    function Bounces(id: Id): nat
      reads this
    {
      if id in dsns then dsns[id] else 0
    }

    method Enqueue(id: Id, chat: bool, now: int)
      requires id !in rows
      modifies this`rows
      ensures Enqueued(old(rows), rows, [id], chat, now)
    {
      rows := rows[id := NewRow(chat, now)];
    }

    /**
     The queueing loop of `submit_with_priority`: a recipient without `@` or a storage error
     stops it half way, and what was queued before stays queued.
     */
    method Submit(recipients: seq<string>, ids: seq<Id>, chat: bool, now: int, stores: nat -> bool)
      returns (queued: seq<Id>, ok: bool)
      requires |ids| == |recipients| && Distinct(ids)
      requires forall i :: 0 <= i < |ids| ==> ids[i] !in rows
      modifies this`rows
      ensures queued <= ids && (ok <==> forall i :: 0 <= i < |recipients| ==> '@' in recipients[i] && stores(i))
      ensures ok ==> queued == ids
      ensures !ok ==> |queued| < |ids| && !('@' in recipients[|queued|] && stores(|queued|))
      ensures forall i :: 0 <= i < |queued| ==> '@' in recipients[i] && stores(i)
      ensures Enqueued(old(rows), rows, queued, chat, now)
    {
      queued := [];
      for i := 0 to |recipients|
        invariant queued == ids[..i] && forall j :: 0 <= j < i ==> '@' in recipients[j] && stores(j)
        invariant Enqueued(old(rows), rows, queued, chat, now)
      {
        if '@' !in recipients[i] {
          return queued, false;
        }
        if !stores(i) {
          return queued, false;
        }
        Enqueue(ids[i], chat, now);
        queued := queued + [ids[i]];
      }
      ok := true;
    }

    /**
     `due_queue_items`: the database chooses a batch (`BatchExists`) and it is claimed. What the
     worker gets are the rows as they were; none of them is in anyone's hands already.
     */
    method Claim(batch: set<Id>, now: int) returns (claimed: map<Id, Row>)
      requires IsBatch(rows, batch, now)
      modifies this`rows
      ensures rows.Keys == old(rows.Keys) && claimed.Keys == batch && |claimed| <= BATCH
      ensures forall id :: id in claimed ==> Due(old(rows)[id], now) && claimed[id] == old(rows)[id]
      ensures forall id :: id in claimed ==>
                rows[id].status == Sending && rows[id].attempts == claimed[id].attempts
                && rows[id].nextAttempt == claimed[id].nextAttempt && rows[id].chat == claimed[id].chat
      ensures forall id :: id in rows && id !in claimed ==> rows[id] == old(rows)[id]
      ensures |claimed| < BATCH ==> forall id :: id in rows ==> !Due(rows[id], now)
    {
      claimed := map id | id in batch :: rows[id];
      assert claimed.Keys == batch;
      rows := ClaimRows(rows, batch);
    }

    method ResetStaleClaims()
      modifies this`rows
      ensures rows == ResetRows(old(rows))
      ensures forall id :: id in rows ==> rows[id].status != Sending
    {
      rows := ResetRows(rows);
    }

    /** `process_item` after the attempt: decide, record, and bounce what was recorded as failed. */
    method ProcessItem(id: Id, claimed: Row, attempt: Attempt, hash: nat, now: int, recordOk: bool, bounceOk: bool)
      requires id in rows
      modifies this
      ensures var outcome := Decide(attempt, claimed.attempts, claimed.chat, hash, now);
              && rows == (if recordOk then old(rows)[id := Recorded(old(rows)[id], outcome)] else old(rows))
              && dsns == (if recordOk && outcome == Outcome.Failed && bounceOk
                          then old(dsns)[id := old(Bounces(id)) + 1] else old(dsns))
    {
      var outcome := Decide(attempt, claimed.attempts, claimed.chat, hash, now);
      if !recordOk {
        return;
      }
      rows := rows[id := Recorded(rows[id], outcome)];
      if outcome == Outcome.Failed && bounceOk {
        dsns := dsns[id := Bounces(id) + 1];
      }
    }
  }

  ghost predicate NoneBefore(rows: map<Id, Row>, pool: set<Id>, id: Id)
    requires pool <= rows.Keys && id in pool
  {
    forall other :: other in pool ==> !Before(rows[other], rows[id])
  }

  lemma FirstOfPool(rows: map<Id, Row>, pool: set<Id>) returns (first: Id)
    requires pool <= rows.Keys && pool != {}
    ensures first in pool && NoneBefore(rows, pool, first)
  {
    first := FirstExists(pool, (a, b) => a in rows && b in rows && Before(rows[a], rows[b]));
  }

  lemma {:induction false} TakeFirst(rows: map<Id, Row>, pool: set<Id>, n: nat) returns (batch: set<Id>)
    requires pool <= rows.Keys
    ensures batch <= pool && |batch| == if |pool| < n then |pool| else n
    ensures forall id, other :: id in batch && other in pool - batch ==> !Before(rows[other], rows[id])
    decreases n
  {
    if n == 0 || pool == {} {
      batch := {};
    } else {
      var first := FirstOfPool(rows, pool);
      var rest := TakeFirst(rows, pool - {first}, n - 1);
      batch := rest + {first};
    }
  }

  lemma BatchExists(rows: map<Id, Row>, now: int)
    ensures exists batch :: IsBatch(rows, batch, now)
  {
    var due := set id | id in rows && Due(rows[id], now);
    var batch := TakeFirst(rows, due, BATCH);
    if |due| <= BATCH {
      SubsetSize(batch, due);
    }
    assert IsBatch(rows, batch, now);
  }

  // ---- workers stepping over one queue -------------------------------------------

  /** How far a worker is with an item it claimed. */
  datatype Phase = Fresh | Tried(result: Attempt) | Bouncing

  /** The worker's copy of the row at claim time. */
  datatype Claimed = Claimed(attempts: nat, chat: bool, phase: Phase)

  /** What happened to an item so far; the code keeps none of it. */
  datatype History = History(tries: nat, resets: nat, delay: int, accepted: bool, dsns: nat)

  datatype System = System(
    rows: map<Id, Row>,
    history: map<Id, History>,
    claims: map<(WorkerId, Id), Claimed>,
    live: set<WorkerId>,
    mishap: bool)

  datatype Action =
    | Enqueue(id: Id, chat: bool, now: int)
    | Start(w: WorkerId, resetOk: bool)
    | ClaimBatch(w: WorkerId, batch: set<Id>, now: int)
    | TryItem(w: WorkerId, id: Id, result: Attempt)
    | Record(w: WorkerId, id: Id, hash: nat, now: int)
    | RecordError(w: WorkerId, id: Id)
    | Bounce(w: WorkerId, id: Id, ok: bool)
    | Crash(w: WorkerId)

  const EMPTY := System(map[], map[], map[], {}, false)

  ghost predicate Enabled(s: System, a: Action) {
    match a
    case Enqueue(id, _, _) => id !in s.rows && id !in s.history
    case Start(w, _) => w !in s.live
    case ClaimBatch(w, batch, now) =>
      && w in s.live && IsBatch(s.rows, batch, now)
      && (forall id :: (w, id) !in s.claims)
    case TryItem(w, id, _) => (w, id) in s.claims && s.claims[(w, id)].phase == Fresh && id in s.history
    case Record(w, id, _, _) => (w, id) in s.claims && s.claims[(w, id)].phase.Tried? && id in s.rows && id in s.history
    case RecordError(w, id) => (w, id) in s.claims && s.claims[(w, id)].phase.Tried?
    case Bounce(w, id, _) => (w, id) in s.claims && s.claims[(w, id)].phase == Bouncing && id in s.history
    case Crash(w) => w in s.live
  }

  function Without(claims: map<(WorkerId, Id), Claimed>, w: WorkerId, id: Id): map<(WorkerId, Id), Claimed> {
    map k | k in claims && k != (w, id) :: claims[k]
  }

  /** Delay scheduled by an outcome. */
  function Scheduled(outcome: Outcome, now: int): int {
    match outcome
    case Retry(next) => next - now
    case _ => 0
  }

  ghost function Next(s: System, a: Action): System
    requires Enabled(s, a)
  {
    match a
    case Enqueue(id, chat, now) =>
      s.(rows := s.rows[id := NewRow(chat, now)], history := s.history[id := History(0, 0, 0, false, 0)])
    case Start(w, resetOk) =>
      if !resetOk then s.(live := s.live + {w})
      else s.(
        live := s.live + {w},
        rows := ResetRows(s.rows),
        history := map id | id in s.history ::
          if id in s.rows && s.rows[id].status == Sending
          then s.history[id].(resets := s.history[id].resets + 1) else s.history[id])
    case ClaimBatch(w, batch, now) =>
      s.(rows := ClaimRows(s.rows, batch),
         claims := s.claims + map k: (WorkerId, Id) | k in Pairs(w, batch) && k.1 in s.rows ::
           Claimed(s.rows[k.1].attempts, s.rows[k.1].chat, Fresh))
    case TryItem(w, id, result) =>
      var h := s.history[id];
      s.(claims := s.claims[(w, id) := s.claims[(w, id)].(phase := Tried(result))],
         history := s.history[id := h.(tries := h.tries + 1, accepted := h.accepted || result == Accepted)])
    case Record(w, id, hash, now) =>
      var c, h := s.claims[(w, id)], s.history[id];
      var outcome := Decide(c.phase.result, c.attempts, c.chat, hash, now);
      s.(rows := s.rows[id := Recorded(s.rows[id], outcome)],
         history := s.history[id := h.(delay := h.delay + Scheduled(outcome, now))],
         claims := if outcome == Outcome.Failed then s.claims[(w, id) := c.(phase := Bouncing)]
                   else Without(s.claims, w, id))
    case RecordError(w, id) =>
      s.(claims := Without(s.claims, w, id), mishap := true)
    case Bounce(w, id, ok) =>
      var h := s.history[id];
      s.(claims := Without(s.claims, w, id),
         history := if ok then s.history[id := h.(dsns := h.dsns + 1)] else s.history,
         mishap := s.mishap || !ok)
    case Crash(w) =>
      s.(claims := map k | k in s.claims && k.0 != w :: s.claims[k], live := s.live - {w}, mishap := true)
  }

  function Pairs(w: WorkerId, batch: set<Id>): set<(WorkerId, Id)> {
    set id | id in batch :: (w, id)
  }

  // ---- the invariant ------------------------------------------------------------

  /** One row and what happened to it. */
  ghost predicate RowOk(r: Row, h: History) {
    && (if Terminal(r.status) then 1 <= r.attempts <= 10 else r.attempts <= 9)
    && (r.status == Status.Delivered ==> h.accepted)
    && h.dsns <= 1 && (h.dsns == 1 ==> r.status == Status.Failed)
    && h.tries <= r.attempts + h.resets + (if r.status == Sending then 1 else 0)
    && 0 <= h.delay && 10 * h.delay <= MaxDelay10(r.chat, if r.attempts < 9 then r.attempts else 9)
  }

  /** A claim agrees with the row it was taken from. */
  ghost predicate ClaimOk(c: Claimed, r: Row, h: History) {
    match c.phase
    case Bouncing => r.status == Status.Failed && h.dsns == 0
    case Fresh => r.status == Sending && c.attempts == r.attempts && c.chat == r.chat
                  && h.tries <= r.attempts + h.resets
    case Tried(result) => r.status == Sending && c.attempts == r.attempts && c.chat == r.chat
                          && (result == Accepted ==> h.accepted)
  }

  ghost predicate SomeoneHolds(s: System, id: Id) {
    exists w :: (w, id) in s.claims
  }

  ghost predicate RowsOk(s: System) {
    && s.rows.Keys == s.history.Keys
    && (forall id :: id in s.rows ==> RowOk(s.rows[id], s.history[id]))
  }

  ghost predicate ClaimsOk(s: System)
    requires s.rows.Keys == s.history.Keys
  {
    && (forall w, id :: (w, id) in s.claims ==>
          w in s.live && id in s.rows && ClaimOk(s.claims[(w, id)], s.rows[id], s.history[id]))
    && (forall v, w, id :: (v, id) in s.claims && (w, id) in s.claims ==> v == w)
  }

  /** Without mishaps nothing is ever abandoned. */
  ghost predicate Covered(s: System)
    requires s.rows.Keys == s.history.Keys
  {
    !s.mishap ==> forall id :: id in s.rows && Unfinished(s.rows[id], s.history[id]) ==> SomeoneHolds(s, id)
  }

  ghost predicate Inv(s: System) {
    RowsOk(s) && ClaimsOk(s) && Covered(s)
  }

  /** In a worker's hands, or failed without its bounce. */
  predicate Unfinished(r: Row, h: History) {
    r.status == Sending || (r.status == Status.Failed && h.dsns == 0)
  }

  /** A worker starts (and resets stale claims) only while no other worker has an attempt open. */
  ghost predicate Alone(s: System, a: Action) {
    a.Start? && a.resetOk ==> forall v, id :: (v, id) in s.claims ==> s.claims[(v, id)].phase == Bouncing
  }

  // ---- every step keeps it ---------------------------------------------------------

  /** Recording turns a consistent row and history into a consistent row and history. */
  lemma RecordedOk(r: Row, h: History, result: Attempt, hash: nat, now: int)
    requires RowOk(r, h) && r.status == Sending && (result == Accepted ==> h.accepted)
    ensures var outcome := Decide(result, r.attempts, r.chat, hash, now);
            RowOk(Recorded(r, outcome), h.(delay := h.delay + Scheduled(outcome, now)))
  {
    var outcome := Decide(result, r.attempts, r.chat, hash, now);
    if outcome.Retry? {
      RetryIsScheduled(result, r.attempts, r.chat, hash, now);
    }
    if r.attempts < 9 {
      MaxDelayStep(r.chat, r.attempts);
    }
  }

  lemma NewRowOk(chat: bool, now: int)
    ensures RowOk(NewRow(chat, now), History(0, 0, 0, false, 0))
  {
    assert Table(chat)[..0] == [];
  }

  /** Changing one row and its history consistently keeps all rows consistent. */
  lemma OneRow(s: System, t: System, id: Id, r: Row, h: History)
    requires RowsOk(s) && RowOk(r, h)
    requires t.rows == s.rows[id := r] && t.history == s.history[id := h]
    ensures RowsOk(t)
  {
  }

  lemma EnqueueRows(s: System, id: Id, chat: bool, now: int)
    requires Inv(s) && Enabled(s, Enqueue(id, chat, now))
    ensures RowsOk(Next(s, Enqueue(id, chat, now)))
  {
    NewRowOk(chat, now);
    OneRow(s, Next(s, Enqueue(id, chat, now)), id, NewRow(chat, now), History(0, 0, 0, false, 0));
  }

  lemma StartRows(s: System, w: WorkerId, resetOk: bool)
    requires Inv(s) && Enabled(s, Start(w, resetOk))
    ensures RowsOk(Next(s, Start(w, resetOk)))
  {
    forall id | id in s.rows && s.rows[id].status == Sending
      ensures RowOk(Reset(s.rows[id]), s.history[id].(resets := s.history[id].resets + 1))
    {
      ResetOk(s.rows[id], s.history[id]);
    }
  }

  lemma ResetOk(r: Row, h: History)
    requires RowOk(r, h) && r.status == Sending
    ensures RowOk(Reset(r), h.(resets := h.resets + 1))
  {
  }

  lemma SendingOk(r: Row, h: History)
    requires RowOk(r, h) && r.status == Queued
    ensures RowOk(r.(status := Sending), h)
  {
  }

  lemma ClaimBatchRows(s: System, w: WorkerId, batch: set<Id>, now: int)
    requires Inv(s) && Enabled(s, ClaimBatch(w, batch, now))
    ensures RowsOk(Next(s, ClaimBatch(w, batch, now)))
  {
    forall id | id in batch ensures RowOk(s.rows[id].(status := Sending), s.history[id]) {
      SendingOk(s.rows[id], s.history[id]);
    }
  }

  lemma TryRows(s: System, w: WorkerId, id: Id, result: Attempt)
    requires Inv(s) && Enabled(s, TryItem(w, id, result))
    ensures RowsOk(Next(s, TryItem(w, id, result)))
  {
    assert ClaimOk(s.claims[(w, id)], s.rows[id], s.history[id]);
    var t := Next(s, TryItem(w, id, result));
    OneRow(s, t, id, s.rows[id], t.history[id]);
  }

  lemma RecordRows(s: System, w: WorkerId, id: Id, hash: nat, now: int)
    requires Inv(s) && Enabled(s, Record(w, id, hash, now))
    ensures RowsOk(Next(s, Record(w, id, hash, now)))
  {
    assert ClaimOk(s.claims[(w, id)], s.rows[id], s.history[id]);
    RecordedOk(s.rows[id], s.history[id], s.claims[(w, id)].phase.result, hash, now);
    var t := Next(s, Record(w, id, hash, now));
    OneRow(s, t, id, t.rows[id], t.history[id]);
  }

  lemma BounceRows(s: System, w: WorkerId, id: Id, ok: bool)
    requires Inv(s) && Enabled(s, Bounce(w, id, ok))
    ensures RowsOk(Next(s, Bounce(w, id, ok)))
  {
    assert ClaimOk(s.claims[(w, id)], s.rows[id], s.history[id]);
    var t := Next(s, Bounce(w, id, ok));
    OneRow(s, t, id, s.rows[id], t.history[id]);
  }

  lemma RowsKept(s: System, a: Action)
    requires Inv(s) && Enabled(s, a)
    ensures RowsOk(Next(s, a))
  {
    match a
    case Enqueue(id, chat, now) => EnqueueRows(s, id, chat, now);
    case Start(w, resetOk) => StartRows(s, w, resetOk);
    case ClaimBatch(w, batch, now) => ClaimBatchRows(s, w, batch, now);
    case TryItem(w, id, result) => TryRows(s, w, id, result);
    case Record(w, id, hash, now) => RecordRows(s, w, id, hash, now);
    case Bounce(w, id, ok) => BounceRows(s, w, id, ok);
    case _ =>
  }

  /** No new claims; claims on `id` match its new row; claims on other items, and those items, are as before. */
  lemma OtherClaims(s: System, t: System, id: Id)
    requires Inv(s) && RowsOk(t)
    requires forall v, u :: (v, u) in t.claims ==> (v, u) in s.claims && v in t.live && u in t.rows
    requires forall v, u :: (v, u) in t.claims && u != id ==>
               t.claims[(v, u)] == s.claims[(v, u)] && t.rows[u] == s.rows[u] && t.history[u] == s.history[u]
    requires forall v :: (v, id) in t.claims ==> ClaimOk(t.claims[(v, id)], t.rows[id], t.history[id])
    ensures ClaimsOk(t)
  {
  }

  lemma ItemClaims(s: System, w: WorkerId, id: Id, a: Action)
    requires Inv(s) && Enabled(s, a) && RowsOk(Next(s, a))
    requires a.TryItem? || a.Record? || a.RecordError? || a.Bounce?
    requires a.w == w && a.id == id
    ensures ClaimsOk(Next(s, a))
  {
    assert ClaimOk(s.claims[(w, id)], s.rows[id], s.history[id]);
    var t := Next(s, a);
    forall v | (v, id) in t.claims ensures ClaimOk(t.claims[(v, id)], t.rows[id], t.history[id]) {
      assert v == w;
    }
    OtherClaims(s, t, id);
  }

  lemma EnqueueClaims(s: System, a: Action)
    requires Inv(s) && Enabled(s, a) && RowsOk(Next(s, a)) && a.Enqueue?
    ensures ClaimsOk(Next(s, a))
  {
    OtherClaims(s, Next(s, a), a.id);
  }

  lemma StartClaims(s: System, a: Action)
    requires Inv(s) && Enabled(s, a) && Alone(s, a) && RowsOk(Next(s, a)) && a.Start?
    ensures ClaimsOk(Next(s, a))
  {
  }

  lemma CrashClaims(s: System, a: Action)
    requires Inv(s) && Enabled(s, a) && RowsOk(Next(s, a)) && a.Crash?
    ensures ClaimsOk(Next(s, a))
  {
  }

  lemma ClaimsKept(s: System, a: Action)
    requires Inv(s) && Enabled(s, a) && Alone(s, a) && RowsOk(Next(s, a))
    ensures ClaimsOk(Next(s, a))
  {
    match a
    case Enqueue(_, _, _) => EnqueueClaims(s, a);
    case Start(_, _) => StartClaims(s, a);
    case ClaimBatch(w, batch, now) => BatchKept(s, w, batch, now);
    case Crash(_) => CrashClaims(s, a);
    case _ => ItemClaims(s, a.w, a.id, a);
  }

  lemma BatchClaims(s: System, w: WorkerId, batch: set<Id>, now: int)
    requires Enabled(s, ClaimBatch(w, batch, now))
    ensures var t := Next(s, ClaimBatch(w, batch, now));
            && (forall v, id :: (v, id) in t.claims <==> (v, id) in s.claims || (v == w && id in batch))
            && (forall v, id :: (v, id) in s.claims ==> t.claims[(v, id)] == s.claims[(v, id)])
            && (forall id :: id in batch ==> t.claims[(w, id)] == Claimed(s.rows[id].attempts, s.rows[id].chat, Fresh))
  {
    forall id ensures (w, id) in Pairs(w, batch) <==> id in batch { }
  }

  lemma BatchKept(s: System, w: WorkerId, batch: set<Id>, now: int)
    requires Inv(s) && Enabled(s, ClaimBatch(w, batch, now))
    requires RowsOk(Next(s, ClaimBatch(w, batch, now)))
    ensures ClaimsOk(Next(s, ClaimBatch(w, batch, now)))
  {
    BatchClaims(s, w, batch, now);
    var t := Next(s, ClaimBatch(w, batch, now));
    forall v, id | (v, id) in t.claims
      ensures v in t.live && id in t.rows && ClaimOk(t.claims[(v, id)], t.rows[id], t.history[id])
    {
      if (v, id) in s.claims {
        assert ClaimOk(s.claims[(v, id)], s.rows[id], s.history[id]);
      }
    }
    forall v, u, id | (v, id) in t.claims && (u, id) in t.claims ensures v == u {
      if (v, id) in s.claims {
        assert ClaimOk(s.claims[(v, id)], s.rows[id], s.history[id]);
      }
      if (u, id) in s.claims {
        assert ClaimOk(s.claims[(u, id)], s.rows[id], s.history[id]);
      }
    }
  }

  lemma CoverKept(s: System, a: Action)
    requires Inv(s) && Enabled(s, a) && RowsOk(Next(s, a))
    ensures Covered(Next(s, a))
  {
    var t := Next(s, a);
    if a.ClaimBatch? {
      BatchClaims(s, a.w, a.batch, a.now);
    }
    forall id | id in t.rows && !t.mishap && Unfinished(t.rows[id], t.history[id]) ensures SomeoneHolds(t, id) {
      if a.ClaimBatch? && id in a.batch {
        assert (a.w, id) in t.claims;
      } else {
        assert SomeoneHolds(s, id);
        var w :| (w, id) in s.claims;
        assert (w, id) in t.claims;
      }
    }
  }

  lemma StepKeeps(s: System, a: Action)
    requires Inv(s) && Enabled(s, a) && Alone(s, a)
    ensures Inv(Next(s, a))
  {
    RowsKept(s, a);
    ClaimsKept(s, a);
    CoverKept(s, a);
  }

  // ---- whole runs ---------------------------------------------------------------------

  ghost predicate Legal(s: System, actions: seq<Action>)
    decreases |actions|
  {
    actions == [] || (Enabled(s, actions[0]) && Legal(Next(s, actions[0]), actions[1..]))
  }

  ghost function After(s: System, actions: seq<Action>): System
    requires Legal(s, actions)
    decreases |actions|
  {
    if actions == [] then s else After(Next(s, actions[0]), actions[1..])
  }

  /** Every start of the run happens while no other worker has an attempt open. */
  ghost predicate StartsAlone(s: System, actions: seq<Action>)
    requires Legal(s, actions)
    decreases |actions|
  {
    actions == [] || (Alone(s, actions[0]) && StartsAlone(Next(s, actions[0]), actions[1..]))
  }

  lemma {:induction false} RunKeeps(s: System, actions: seq<Action>)
    requires Inv(s) && Legal(s, actions) && StartsAlone(s, actions)
    ensures Inv(After(s, actions))
    decreases |actions|
  {
    if actions != [] {
      StepKeeps(s, actions[0]);
      RunKeeps(Next(s, actions[0]), actions[1..]);
    }
  }

  lemma FinalStep(s: System, a: Action, id: Id)
    requires Inv(s) && Enabled(s, a) && Alone(s, a) && id in s.rows
    ensures id in Next(s, a).rows
    ensures Terminal(s.rows[id].status) ==> Next(s, a).rows[id] == s.rows[id]
  {
    if a.Record? {
      assert ClaimOk(s.claims[(a.w, a.id)], s.rows[a.id], s.history[a.id]);
    }
  }

  /** No item is ever lost, and a delivered or failed row never changes again. */
  lemma {:induction false} NeverLostAndFinal(s: System, actions: seq<Action>, id: Id)
    requires Inv(s) && Legal(s, actions) && StartsAlone(s, actions) && id in s.rows
    ensures id in After(s, actions).rows
    ensures Terminal(s.rows[id].status) ==> After(s, actions).rows[id] == s.rows[id]
    decreases |actions|
  {
    if actions != [] {
      FinalStep(s, actions[0], id);
      StepKeeps(s, actions[0]);
      NeverLostAndFinal(Next(s, actions[0]), actions[1..], id);
    }
  }

  /** Workers can start in every reachable state, and a start puts every abandoned item back in the queue. */
  lemma StartRecovers(s: System, w: WorkerId, id: Id)
    requires w !in s.live && id in s.rows
    ensures Enabled(s, Start(w, true))
    ensures var r := Next(s, Start(w, true)).rows[id];
            Terminal(r.status) || r.status == Queued
  {
  }

  /** Over every run from the empty queue whose workers start alone. */
  lemma QueueSafety(actions: seq<Action>, id: Id)
    requires Legal(EMPTY, actions) && StartsAlone(EMPTY, actions) && id in After(EMPTY, actions).rows
    ensures var s := After(EMPTY, actions);
            && id in s.history
            && var r, h := s.rows[id], s.history[id];
               && (r.status == Status.Delivered ==> h.accepted)
               && h.tries <= 10 + h.resets
               && h.delay <= (if r.chat then 24585 else 188496)
               && h.dsns <= (if r.status == Status.Failed then 1 else 0)
               && (!s.mishap && r.status == Status.Failed && !SomeoneHolds(s, id) ==> h.dsns == 1)
               && (r.attempts >= 10 ==> Terminal(r.status))
  {
    RunKeeps(EMPTY, actions);
    var s := After(EMPTY, actions);
    var r := s.rows[id];
    MaxDelayTotal();
    MaxDelayMonotone(r.chat, if r.attempts < 9 then r.attempts else 9);
  }

  lemma {:induction false} MaxDelayMonotone(chat: bool, n: nat)
    requires n <= 9
    ensures MaxDelay10(chat, n) <= MaxDelay10(chat, 9)
    decreases 9 - n
  {
    if n < 9 {
      MaxDelayStep(chat, n);
      MaxDelayMonotone(chat, n + 1);
    }
  }

  // ---- two workers ----------------------------------------------------------------------

  /** Whatever happens from here on, with later starts alone, no delivered or failed row ever changes. */
  ghost predicate FinalFrom(s: System) {
    forall first, rest, id ::
      Calm(s, first) && id in After(s, first).rows && Terminal(After(s, first).rows[id].status)
      && Calm(After(s, first), rest) ==>
        id in After(After(s, first), rest).rows && After(After(s, first), rest).rows[id] == After(s, first).rows[id]
  }

  /** A possible continuation in which every start is alone. */
  ghost predicate Calm(s: System, actions: seq<Action>) {
    Legal(s, actions) && StartsAlone(s, actions)
  }

  /**
   The claim is said to make a second worker process safe. It does not when that worker
   starts while another has an attempt open, tried or not and however often: its reset of
   "stale" claims then lets a delivered or failed item change. Finality from the start on
   holds exactly when the start is alone.
   */
  lemma StartIsSafeIffAlone(s: System, v: WorkerId)
    requires Inv(s) && Enabled(s, Start(v, true))
    ensures FinalFrom(Next(s, Start(v, true))) <==> Alone(s, Start(v, true))
  {
    var t := Next(s, Start(v, true));
    if Alone(s, Start(v, true)) {
      StepKeeps(s, Start(v, true));
      InvIsFinal(t);
    } else {
      var w, id :| (w, id) in s.claims && s.claims[(w, id)].phase != Bouncing;
      assert ClaimOk(s.claims[(w, id)], s.rows[id], s.history[id]);
      assert Stolen(t, w, v, id);
      var first, rest := OpenClaimBreaksFinality(t, w, v, id, 0, t.rows[id].nextAttempt);
    }
  }

  lemma InvIsFinal(s: System)
    requires Inv(s)
    ensures FinalFrom(s)
  {
    forall first, rest, id | Calm(s, first) && id in After(s, first).rows && Terminal(After(s, first).rows[id].status)
                             && Calm(After(s, first), rest)
      ensures id in After(After(s, first), rest).rows
              && After(After(s, first), rest).rows[id] == After(s, first).rows[id]
    {
      RunKeeps(s, first);
      NeverLostAndFinal(After(s, first), rest, id);
    }
  }

  /** `w` has an attempt at the item open, and the newcomer `v` has put the item back in the queue. */
  ghost predicate Stolen(s: System, w: WorkerId, v: WorkerId, id: Id) {
    && v != w && v in s.live && (forall i :: (v, i) !in s.claims)
    && (w, id) in s.claims && s.claims[(w, id)].phase != Bouncing
    && id in s.history && id in s.rows && s.rows[id].status == Queued
  }

  /** Both workers hold the item, and `v` has not tried it yet. */
  ghost predicate Shared(s: System, w: WorkerId, v: WorkerId, id: Id) {
    && v != w && (w, id) in s.claims && (v, id) in s.claims
    && s.claims[(w, id)].phase != Bouncing && s.claims[(v, id)].phase == Fresh
    && id in s.history && id in s.rows
  }

  lemma {:induction false} CalmAppends(s: System, a: seq<Action>, b: seq<Action>)
    requires Calm(s, a) && Calm(After(s, a), b)
    ensures Calm(s, a + b) && After(s, a + b) == After(After(s, a), b)
    decreases |a|
  {
    if a == [] {
      assert a + b == b;
    } else {
      assert (a + b)[1..] == a[1..] + b;
      CalmAppends(Next(s, a[0]), a[1..], b);
    }
  }

  lemma CalmOne(s: System, a: Action)
    requires Enabled(s, a) && Alone(s, a)
    ensures Calm(s, [a]) && After(s, [a]) == Next(s, a)
  {
    assert [a][1..] == [];
  }

  /** `v` claims batch after batch, crashing in between, until it holds the item as well. */
  lemma {:induction false} ReachShared(s: System, w: WorkerId, v: WorkerId, id: Id, now: int)
    returns (actions: seq<Action>)
    requires Stolen(s, w, v, id) && s.rows[id].nextAttempt <= now
    ensures Calm(s, actions) && Shared(After(s, actions), w, v, id)
    decreases |DueIds(s.rows, now)|
  {
    BatchExists(s.rows, now);
    var batch :| IsBatch(s.rows, batch, now);
    var claim := ClaimBatch(v, batch, now);
    CalmOne(s, claim);
    if id in batch {
      SecondClaim(s, w, v, id, batch, now);
      actions := [claim];
    } else {
      var t := GiveUpBatch(s, w, v, id, batch, now);
      FewerDue(s.rows, batch, now);
      var again := ReachShared(t, w, v, id, now);
      CalmAppends(s, [claim, Crash(v), Start(v, false)], again);
      actions := [claim, Crash(v), Start(v, false)] + again;
    }
  }

  ghost function DueIds(rows: map<Id, Row>, now: int): set<Id> {
    set id | id in rows && Due(rows[id], now)
  }

  lemma FewerDue(rows: map<Id, Row>, batch: set<Id>, now: int)
    requires batch <= rows.Keys && IsBatch(rows, batch, now) && |batch| == BATCH
    ensures |DueIds(ClaimRows(rows, batch), now)| < |DueIds(rows, now)|
  {
    var before, after := DueIds(rows, now), DueIds(ClaimRows(rows, batch), now);
    assert after == before - batch;
    SubsetSize(batch, before);
    assert |before| == |before - batch| + |before * batch|;
    assert before * batch == batch;
  }

  /** Claim, crash, start without the reset: the batch is out of the way and nothing else has changed. */
  lemma GiveUpBatch(s: System, w: WorkerId, v: WorkerId, id: Id, batch: set<Id>, now: int) returns (t: System)
    requires Stolen(s, w, v, id) && s.rows[id].nextAttempt <= now && IsBatch(s.rows, batch, now) && id !in batch
    ensures Calm(s, [ClaimBatch(v, batch, now), Crash(v), Start(v, false)])
    ensures t == After(s, [ClaimBatch(v, batch, now), Crash(v), Start(v, false)])
    ensures Stolen(t, w, v, id) && t.rows == ClaimRows(s.rows, batch) && t.rows[id] == s.rows[id]
    ensures batch <= s.rows.Keys && |batch| == BATCH
  {
    var a, b, c := ClaimBatch(v, batch, now), Crash(v), Start(v, false);
    var s1 := Next(s, a);
    var s2 := Next(s1, b);
    t := Next(s2, c);
    CalmOne(s, a);
    CalmOne(s1, b);
    CalmOne(s2, c);
    CalmAppends(s1, [b], [c]);
    CalmAppends(s, [a], [b] + [c]);
    assert [a] + ([b] + [c]) == [a, b, c];
    assert Due(s.rows[id], now);
  }

  /** `v` settles the item one way, and `w`, which still has its own attempt to record, settles it another way. */
  lemma Overtaken(s: System, w: WorkerId, v: WorkerId, id: Id, hash: nat, now: int)
    returns (first: seq<Action>, last: Action)
    requires Shared(s, w, v, id)
    ensures Calm(s, first) && id in After(s, first).rows && Terminal(After(s, first).rows[id].status)
    ensures Calm(After(s, first), [last]) && id in After(After(s, first), [last]).rows
    ensures After(After(s, first), [last]).rows[id].status != After(s, first).rows[id].status
  {
    var attempt := if s.claims[(w, id)].phase == Fresh then [TryItem(w, id, Permanent)] else [];
    var s1 := s;
    if attempt != [] {
      CalmOne(s, attempt[0]);
      s1 := Next(s, attempt[0]);
    }
    var c := s1.claims[(w, id)];
    var own := Decide(c.phase.result, c.attempts, c.chat, hash, now);
    var result := if own == Outcome.Delivered then Permanent else Accepted;
    var s2 := SettledBy(s1, w, v, id, result, hash, now);
    var settle := [TryItem(v, id, result), Record(v, id, hash, now)];
    CalmAppends(s, attempt, settle);
    first, last := attempt + settle, Record(w, id, hash, now);
    CalmOne(s2, last);
  }

  lemma SettledBy(s: System, w: WorkerId, v: WorkerId, id: Id, result: Attempt, hash: nat, now: int) returns (t: System)
    requires Shared(s, w, v, id) && s.claims[(w, id)].phase.Tried? && result != Transient
    ensures Calm(s, [TryItem(v, id, result), Record(v, id, hash, now)])
    ensures t == After(s, [TryItem(v, id, result), Record(v, id, hash, now)])
    ensures id in t.rows && id in t.history
    ensures t.rows[id].status == if result == Accepted then Status.Delivered else Status.Failed
    ensures (w, id) in t.claims && t.claims[(w, id)] == s.claims[(w, id)]
  {
    var a, b := TryItem(v, id, result), Record(v, id, hash, now);
    var s1 := Next(s, a);
    t := Next(s1, b);
    CalmOne(s, a);
    CalmOne(s1, b);
    CalmAppends(s, [a], [b]);
    assert [a] + [b] == [a, b];
  }

  /** However far the open attempt is, some continuation changes a row that was delivered or failed. */
  lemma OpenClaimBreaksFinality(s: System, w: WorkerId, v: WorkerId, id: Id, hash: nat, now: int)
    returns (first: seq<Action>, rest: seq<Action>)
    requires Stolen(s, w, v, id) && s.rows[id].nextAttempt <= now
    ensures Calm(s, first) && id in After(s, first).rows && Terminal(After(s, first).rows[id].status)
    ensures Calm(After(s, first), rest) && id in After(After(s, first), rest).rows
    ensures After(After(s, first), rest).rows[id].status != After(s, first).rows[id].status
    ensures !FinalFrom(s)
  {
    var reach := ReachShared(s, w, v, id, now);
    var settle, last := Overtaken(After(s, reach), w, v, id, hash, now);
    CalmAppends(s, reach, settle);
    first, rest := reach + settle, [last];
  }

  /** Both workers now hold the item. */
  lemma SecondClaim(s: System, w: WorkerId, v: WorkerId, id: Id, batch: set<Id>, now: int)
    requires Stolen(s, w, v, id) && Enabled(s, ClaimBatch(v, batch, now)) && id in batch
    ensures Shared(Next(s, ClaimBatch(v, batch, now)), w, v, id)
  {
    assert (v, id) in Pairs(v, batch);
  }

  /** One item and one worker are enough: a second worker that starts during its attempt ends finality. */
  lemma RaceIsReachable() returns (actions: seq<Action>)
    ensures Calm(EMPTY, actions)
    ensures Enabled(After(EMPTY, actions), Start(2, true))
    ensures !FinalFrom(Next(After(EMPTY, actions), Start(2, true)))
  {
    var a, b, c := Enqueue(1, false, 0), Start(1, true), ClaimBatch(1, {1}, 0);
    var s1 := Next(EMPTY, a);
    var s2 := Next(s1, b);
    assert s2.rows[1] == NewRow(false, 0) && s2.rows.Keys == {1};
    var s3 := Next(s2, c);
    CalmOne(EMPTY, a);
    CalmOne(s1, b);
    CalmOne(s2, c);
    CalmAppends(EMPTY, [a], [b]);
    CalmAppends(EMPTY, [a] + [b], [c]);
    actions := [a] + [b] + [c];
    assert (1, 1) in Pairs(1, {1}) && (1, 1) in s3.claims;
    EmptyOk();
    RunKeeps(EMPTY, actions);
    StartIsSafeIffAlone(s3, 2);
  }

  lemma EmptyOk()
    ensures Inv(EMPTY)
  {
  }

  // ---- the table runs the steps ----------------------------------------------------------

  /** There is only one such row. */
  lemma QueuesIsNewRow(row: Row, chat: bool, now: int)
    requires Queues(row, chat, now)
    ensures row == NewRow(chat, now)
  {
    assert Due(row, now) && !Due(row, now - 1);
  }

  lemma EnqueuedFirst(before: map<Id, Row>, after: map<Id, Row>, ids: seq<Id>, chat: bool, now: int)
    requires Enqueued(before, after, ids, chat, now) && ids != [] && Distinct(ids) && ids[0] !in before
    ensures Enqueued(before[ids[0] := NewRow(chat, now)], after, ids[1..], chat, now)
  {
    var first, rest := ids[0], ids[1..];
    QueuesIsNewRow(after[first], chat, now);
    forall id ensures id in ids <==> id == first || id in rest {
      InHeadOrTail(ids, id);
    }
    forall i | 0 <= i < |rest| ensures rest[i] in after && Queues(after[rest[i]], chat, now) {
      assert rest[i] == ids[i + 1];
    }
    forall id | id in before && id !in rest && id != first ensures after[id] == before[id] {
      assert id !in ids;
    }
  }

  lemma InHeadOrTail(ids: seq<Id>, id: Id)
    requires ids != []
    ensures id in ids <==> id == ids[0] || id in ids[1..]
  {
    assert ids == [ids[0]] + ids[1..];
  }

  /** What `Submit` queues, it queues by such steps. */
  lemma {:induction false} SubmitIsARun(s: System, after: map<Id, Row>, ids: seq<Id>, chat: bool, now: int)
    returns (actions: seq<Action>)
    requires Distinct(ids) && forall i :: 0 <= i < |ids| ==> ids[i] !in s.rows && ids[i] !in s.history
    requires Enqueued(s.rows, after, ids, chat, now)
    ensures Calm(s, actions) && After(s, actions).rows == after
    ensures After(s, actions).claims == s.claims && After(s, actions).live == s.live
    decreases |ids|
  {
    if ids == [] {
      actions := [];
      assert after == s.rows;
    } else {
      var id := ids[0];
      var t := Next(s, Enqueue(id, chat, now));
      EnqueuedFirst(s.rows, after, ids, chat, now);
      assert forall i :: 0 <= i < |ids| - 1 ==> ids[1..][i] == ids[i + 1];
      CalmOne(s, Enqueue(id, chat, now));
      var rest := SubmitIsARun(t, after, ids[1..], chat, now);
      CalmAppends(s, [Enqueue(id, chat, now)], rest);
      actions := [Enqueue(id, chat, now)] + rest;
    }
  }

  /** The table is that of `s`, and so are the bounces delivered. */
  ghost predicate Agrees(rows: map<Id, Row>, dsns: map<Id, nat>, s: System) {
    && rows == s.rows && s.rows.Keys == s.history.Keys
    && forall id :: id in s.history ==> s.history[id].dsns == if id in dsns then dsns[id] else 0
  }

  /** What the relays, the jitter hash, the clock and the storage make of one item. */
  datatype Fate = Fate(result: Attempt, hash: nat, now: int, recordOk: bool, bounceOk: bool)

  ghost function ItemActions(w: WorkerId, id: Id, claimed: Row, fate: Fate): seq<Action> {
    [TryItem(w, id, fate.result)]
    + if !fate.recordOk then [RecordError(w, id)]
      else [Record(w, id, fate.hash, fate.now)]
           + if Decide(fate.result, claimed.attempts, claimed.chat, fate.hash, fate.now) == Outcome.Failed
             then [Bounce(w, id, fate.bounceOk)] else []
  }

  /** The item is in the worker's hands as it was claimed. */
  ghost predicate Holds(s: System, w: WorkerId, id: Id, claimed: Row) {
    && (w, id) in s.claims && s.claims[(w, id)] == Claimed(claimed.attempts, claimed.chat, Fresh)
    && id in s.rows && id in s.history
  }

  /** `t` is what recording one item's outcome leaves of `s`; other items stay as they are. */
  ghost predicate Settles(s: System, t: System, w: WorkerId, id: Id, claimed: Row, fate: Fate)
    requires id in s.rows && id in s.history
  {
    var outcome := Decide(fate.result, claimed.attempts, claimed.chat, fate.hash, fate.now);
    && t.rows == (if fate.recordOk then s.rows[id := Recorded(s.rows[id], outcome)] else s.rows)
    && t.history.Keys == s.history.Keys
    && t.history[id].dsns ==
       s.history[id].dsns + (if fate.recordOk && outcome == Outcome.Failed && fate.bounceOk then 1 else 0)
    && (forall other :: other in s.history && other != id ==> t.history[other] == s.history[other])
    && t.claims == Without(s.claims, w, id) && t.live == s.live
  }

  /** The steps after the attempt. */
  lemma ItemSettles(s: System, w: WorkerId, id: Id, claimed: Row, fate: Fate) returns (t: System)
    requires (w, id) in s.claims && id in s.rows && id in s.history
    requires s.claims[(w, id)] == Claimed(claimed.attempts, claimed.chat, Tried(fate.result))
    ensures var actions := ItemActions(w, id, claimed, fate)[1..];
            Calm(s, actions) && t == After(s, actions) && Settles(s, t, w, id, claimed, fate)
  {
    if !fate.recordOk {
      CalmOne(s, RecordError(w, id));
      t := Next(s, RecordError(w, id));
      assert ItemActions(w, id, claimed, fate)[1..] == [RecordError(w, id)];
    } else {
      var b := Record(w, id, fate.hash, fate.now);
      CalmOne(s, b);
      t := Next(s, b);
      if Decide(fate.result, claimed.attempts, claimed.chat, fate.hash, fate.now) == Outcome.Failed {
        var c := Bounce(w, id, fate.bounceOk);
        CalmOne(t, c);
        CalmAppends(s, [b], [c]);
        t := Next(t, c);
        assert ItemActions(w, id, claimed, fate)[1..] == [b] + [c];
      } else {
        assert ItemActions(w, id, claimed, fate)[1..] == [b];
      }
    }
  }

  /** What `ProcessItem` leaves is what the steps of one item leave. */
  lemma ItemIsARun(s: System, w: WorkerId, id: Id, claimed: Row, fate: Fate) returns (t: System)
    requires Holds(s, w, id, claimed)
    ensures var actions := ItemActions(w, id, claimed, fate);
            Calm(s, actions) && t == After(s, actions) && Settles(s, t, w, id, claimed, fate)
  {
    var a := TryItem(w, id, fate.result);
    var tried := Next(s, a);
    CalmOne(s, a);
    t := ItemSettles(tried, w, id, claimed, fate);
    var rest := ItemActions(w, id, claimed, fate)[1..];
    CalmAppends(s, [a], rest);
    assert ItemActions(w, id, claimed, fate) == [a] + rest;
    assert Without(tried.claims, w, id) == Without(s.claims, w, id);
  }

  /** After `actions`, worker `w` holds exactly the items of `todo`, as it claimed them. */
  ghost predicate InRound(s: System, actions: seq<Action>, w: WorkerId, todo: set<Id>, claimed: map<Id, Row>) {
    && Calm(s, actions) && todo <= claimed.Keys
    && var t := After(s, actions);
       && t.live == s.live
       && (forall id :: id in todo ==> Holds(t, w, id, claimed[id]))
       && (forall id :: (w, id) in t.claims ==> id in todo)
  }

  lemma RoundBegins(s: System, w: WorkerId, batch: set<Id>, now: int, claimed: map<Id, Row>)
    requires Enabled(s, ClaimBatch(w, batch, now)) && s.rows.Keys == s.history.Keys
    requires claimed.Keys == batch && forall id :: id in batch ==> claimed[id] == s.rows[id]
    ensures InRound(Next(s, ClaimBatch(w, batch, now)), [], w, batch, claimed)
  {
    BatchClaims(s, w, batch, now);
    var t := Next(s, ClaimBatch(w, batch, now));
    forall id | id in batch ensures Holds(t, w, id, claimed[id]) {
      assert t.claims[(w, id)] == Claimed(s.rows[id].attempts, s.rows[id].chat, Fresh);
    }
    assert forall id :: (w, id) in t.claims ==> id in batch;
    HoldingIsInRound(t, w, claimed);
  }

  lemma HoldingIsInRound(s: System, w: WorkerId, claimed: map<Id, Row>)
    requires forall id :: id in claimed ==> Holds(s, w, id, claimed[id])
    requires forall id :: (w, id) in s.claims ==> id in claimed
    ensures InRound(s, [], w, claimed.Keys, claimed)
  {
  }

  /** What `Claim` leaves is what the step leaves. */
  lemma ClaimAgrees(s: System, w: WorkerId, batch: set<Id>, now: int, dsns: map<Id, nat>, after: map<Id, Row>)
    requires Enabled(s, ClaimBatch(w, batch, now)) && Agrees(s.rows, dsns, s) && after == ClaimRows(s.rows, batch)
    ensures Agrees(after, dsns, Next(s, ClaimBatch(w, batch, now)))
  {
  }

  lemma RoundEnds(s: System, w: WorkerId, batch: set<Id>, now: int, claimed: map<Id, Row>, actions: seq<Action>)
    requires Enabled(s, ClaimBatch(w, batch, now))
    requires InRound(Next(s, ClaimBatch(w, batch, now)), actions, w, {}, claimed)
    ensures var all := [ClaimBatch(w, batch, now)] + actions;
            && Calm(s, all) && After(s, all) == After(Next(s, ClaimBatch(w, batch, now)), actions)
            && After(s, all).live == s.live && forall id :: (w, id) !in After(s, all).claims
  {
    CalmOne(s, ClaimBatch(w, batch, now));
    CalmAppends(s, [ClaimBatch(w, batch, now)], actions);
  }

  lemma RoundGoesOn(s: System, actions: seq<Action>, w: WorkerId, todo: set<Id>, claimed: map<Id, Row>,
                    id: Id, fate: Fate, rows: map<Id, Row>, dsns: map<Id, nat>,
                    after: map<Id, Row>, later: map<Id, nat>)
    requires InRound(s, actions, w, todo, claimed) && id in todo
    requires Agrees(rows, dsns, After(s, actions)) && Processed(rows, dsns, after, later, id, claimed[id], fate)
    ensures var more := actions + ItemActions(w, id, claimed[id], fate);
            InRound(s, more, w, todo - {id}, claimed) && Agrees(after, later, After(s, more))
  {
    var was := After(s, actions);
    assert Holds(was, w, id, claimed[id]);
    var t := ItemIsARun(was, w, id, claimed[id], fate);
    CalmAppends(s, actions, ItemActions(w, id, claimed[id], fate));
    forall other | other in todo - {id} ensures Holds(t, w, other, claimed[other]) {
      assert Holds(was, w, other, claimed[other]);
    }
  }

  /** What `ProcessItem` does to the table and to the bounces. */
  ghost predicate Processed(rows: map<Id, Row>, dsns: map<Id, nat>, after: map<Id, Row>, later: map<Id, nat>,
                            id: Id, claimed: Row, fate: Fate)
  {
    var outcome := Decide(fate.result, claimed.attempts, claimed.chat, fate.hash, fate.now);
    && id in rows
    && after == (if fate.recordOk then rows[id := Recorded(rows[id], outcome)] else rows)
    && later == (if fate.recordOk && outcome == Outcome.Failed && fate.bounceOk
                 then dsns[id := (if id in dsns then dsns[id] else 0) + 1] else dsns)
  }

  /** The worker processes what it claimed, item by item. */
  method ProcessAll(q: QueueTable, w: WorkerId, claimed: map<Id, Row>, fates: Id -> Fate, ghost s: System)
    returns (processed: nat, ghost actions: seq<Action>)
    requires InRound(s, [], w, claimed.Keys, claimed) && Agrees(q.rows, q.dsns, s)
    modifies q
    ensures processed == |claimed|
    ensures InRound(s, actions, w, {}, claimed) && Agrees(q.rows, q.dsns, After(s, actions))
  {
    actions, processed := [], 0;
    var todo := claimed.Keys;
    while todo != {}
      invariant InRound(s, actions, w, todo, claimed) && Agrees(q.rows, q.dsns, After(s, actions))
      invariant processed + |todo| == |claimed|
      decreases |todo|
    {
      var id :| id in todo;
      var fate := fates(id);
      ghost var rows, dsns := q.rows, q.dsns;
      assert Holds(After(s, actions), w, id, claimed[id]);
      q.ProcessItem(id, claimed[id], fate.result, fate.hash, fate.now, fate.recordOk, fate.bounceOk);
      RoundGoesOn(s, actions, w, todo, claimed, id, fate, rows, dsns, q.rows, q.dsns);
      actions := actions + ItemActions(w, id, claimed[id], fate);
      todo, processed := todo - {id}, processed + 1;
    }
  }

  /**
   One round of the worker's loop on the table: claim what is due and process each item. It is
   a run of the steps, so everything proved about runs holds of the table as well.
   */
  method WorkerRound(q: QueueTable, w: WorkerId, batch: set<Id>, now: int, fates: Id -> Fate, ghost s: System)
    returns (processed: nat, ghost actions: seq<Action>)
    requires Agrees(q.rows, q.dsns, s) && Enabled(s, ClaimBatch(w, batch, now))
    modifies q
    ensures processed == |batch| && Calm(s, actions) && Agrees(q.rows, q.dsns, After(s, actions))
    ensures After(s, actions).live == s.live && forall id :: (w, id) !in After(s, actions).claims
  {
    var claimed := q.Claim(batch, now);
    assert q.rows == ClaimRows(s.rows, batch);
    RoundBegins(s, w, batch, now, claimed);
    ClaimAgrees(s, w, batch, now, q.dsns, q.rows);
    ghost var t := Next(s, ClaimBatch(w, batch, now));
    processed, actions := ProcessAll(q, w, claimed, fates, t);
    RoundEnds(s, w, batch, now, claimed, actions);
    actions := [ClaimBatch(w, batch, now)] + actions;
  }
}
