/**
 Retry decisions of the outbound queue: the backoff tables of
 crates/owney-delivery/src/lib.rs and the decision in `process_item`
 (crates/owney-delivery/src/worker.rs).
 */
module Schedule {

  const BACKOFF: seq<int> := [60, 300, 1800, 7200, 14400, 14400, 28800, 43200, 61200]
  const CHAT_BACKOFF: seq<int> := [30, 120, 600, 3600, 3600, 3600, 3600, 3600, 3600]

  /** What one delivery attempt came to: accepted by a relay, refused for good, or anything else. */
  datatype Attempt = Accepted | Permanent | Transient

  datatype Outcome = Delivered | Retry(nextAttempt: int) | Failed

  function Table(chat: bool): (t: seq<int>)
    ensures |t| == 9
  {
    if chat then CHAT_BACKOFF else BACKOFF
  }

  /** Signed division as Rust rounds it: toward zero. */
  function Truncated(a: int, b: int): int
    requires b > 0
  {
    if a >= 0 then a / b else -(-a / b)
  }

  /** Up to ten percent either way, decided by the hash of the item id. */
  function Jitter(delay: int, hash: nat): int {
    Truncated(delay * (hash % 21 - 10), 100)
  }

  /** The outcome `process_item` records; `attempts` counts the attempts recorded before this one. */
  function Decide(attempt: Attempt, attempts: nat, chat: bool, hash: nat, now: int): Outcome {
    match attempt
    case Accepted => Delivered
    case Permanent => Failed
    case Transient =>
      if attempts < |Table(chat)|
      then Retry(now + Table(chat)[attempts] + Jitter(Table(chat)[attempts], hash))
      else Failed
  }

  lemma DelayAt(chat: bool, k: nat)
    requires k < 9
    ensures 30 <= Table(chat)[k] <= 61200 && Table(chat)[k] % 10 == 0
  {
  }

  /** Jitter never exceeds a tenth of the delay, whatever the hash. */
  lemma JitterBound(delay: int, hash: nat)
    requires delay >= 0 && delay % 10 == 0
    ensures -(delay / 10) <= Jitter(delay, hash) <= delay / 10
  {
    var tenths, frac := delay / 10, hash % 21 - 10;
    assert delay * frac == 10 * (tenths * frac);
    if frac >= 0 {
      assert 0 <= tenths * frac <= tenths * 10;
    } else {
      assert 0 <= tenths * -frac <= tenths * 10;
      assert -(delay * frac) == 10 * (tenths * -frac);
    }
  }

  /** A retry is always in the future, within a tenth of its table entry, and only within the table. */
  lemma RetryIsScheduled(attempt: Attempt, attempts: nat, chat: bool, hash: nat, now: int)
    requires Decide(attempt, attempts, chat, hash, now).Retry?
    ensures attempt == Transient && attempts < 9
    ensures var delay := Decide(attempt, attempts, chat, hash, now).nextAttempt - now;
            0 < delay && 9 * Table(chat)[attempts] <= 10 * delay <= 11 * Table(chat)[attempts]
  {
    DelayAt(chat, attempts);
    JitterBound(Table(chat)[attempts], hash);
  }

  function Sum(table: seq<int>): int {
    if table == [] then 0 else Sum(table[..|table| - 1]) + table[|table| - 1]
  }

  /** The most seconds of delay that `n` retries can be scheduled to take, times ten. */
  function MaxDelay10(chat: bool, n: nat): int
    requires n <= 9
  {
    11 * Sum(Table(chat)[..n])
  }

  lemma MaxDelayStep(chat: bool, n: nat)
    requires n < 9
    ensures MaxDelay10(chat, n + 1) == MaxDelay10(chat, n) + 11 * Table(chat)[n]
    ensures MaxDelay10(chat, n) < MaxDelay10(chat, n + 1)
  {
    assert Table(chat)[..n + 1][..n] == Table(chat)[..n];
    DelayAt(chat, n);
  }

  /** The whole table: 188496 s for normal mail and 24585 s for chat. */
  lemma MaxDelayTotal()
    ensures MaxDelay10(false, 9) == 10 * 188496
    ensures MaxDelay10(true, 9) == 10 * 24585
  {
    SumOf(false);
    SumOf(true);
  }

  lemma SumOf(chat: bool)
    ensures Sum(Table(chat)[..9]) == if chat then 22350 else 171360
  {
    var t := Table(chat);
    assert Sum(t[..0]) == 0;
    MaxDelayStep(chat, 0);
    MaxDelayStep(chat, 1);
    MaxDelayStep(chat, 2);
    MaxDelayStep(chat, 3);
    MaxDelayStep(chat, 4);
    MaxDelayStep(chat, 5);
    MaxDelayStep(chat, 6);
    MaxDelayStep(chat, 7);
    MaxDelayStep(chat, 8);
  }
}
