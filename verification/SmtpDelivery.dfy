/**
 The server's mail policy behind the SMTP session (bin/owneyd/src/handler.rs):
 who is accepted, and what a message leaves in the store.
 */
module SmtpDelivery {
  import opened Text
  import opened SmtpReceivers
  import opened SmtpSession
  import opened SmtpProperties

  datatype Lookup = Found(account: int) | Missing | Failing

  /** What the pipeline in front of the store makes of the message for one account. */
  datatype Pgp = PgpError | Processed(raw: string, hasStatus: bool)

  datatype Copy = Copy(account: int, raw: string, mailbox: string, chat: bool)

  /**
   What the server asks of others during its n-th delivery: the account of a recipient, the
   processing of a text for an account, the chat preference of an account for a sender, the verdict
   and score of a message, and whether storing and marking succeed at a position of the list.
   `normal` trims and lower-cases an address.
   */
  datatype Config = Config(
    domain: string,
    rejectAt: real,
    quarantineAt: real,
    normal: string -> string,
    lookup: (nat, string) -> Lookup,
    verdict: (nat, InboundMail) -> string,
    score: (nat, InboundMail) -> real,
    pgp: (nat, int, string) -> Pgp,
    prefersChat: (nat, int, string) -> bool,
    ingestOk: (nat, nat) -> bool,
    statusOk: (nat, nat) -> bool)

  datatype Server = Server(stored: seq<Copy>, calls: nat)

  // ---- RCPT ------------------------------------------------------------------------

  /** `rsplit_once('@')`, the second part. */
  function DomainOf(address: string): Option<string>
    decreases |address|
  {
    if '@' !in address then None
    else if address[|address| - 1] == '@' then Some("")
    else
      match DomainOf(address[..|address| - 1])
      case None => None
      case Some(domain) => Some(domain + [address[|address| - 1]])
  }

  function RcptVerdict(config: Config, h: Server, address: string): Verdict {
    var normal := config.normal(address);
    match DomainOf(normal)
    case None => UnknownUser
    case Some(domain) =>
      if domain != config.domain then NotLocal
      else
        match config.lookup(h.calls, normal)
        case Found(_) => Accept
        case Missing => UnknownUser
        case Failing => TryAgainLater
  }

  // ---- deliver ------------------------------------------------------------------------

  /** The text that is stored: the server's verdict in front of the message. */
  function TextOf(config: Config, n: nat, mail: InboundMail): string {
    "Authentication-Results: " + config.verdict(n, mail) + "\r\n" + mail.raw
  }

  /** What the pipeline makes of the message for the `i`-th recipient. */
  function PgpOf(config: Config, n: nat, mail: InboundMail, i: nat): Pgp
    requires i < |mail.recipients|
  {
    match config.lookup(n, mail.recipients[i])
    case Found(account) => config.pgp(n, account, TextOf(config, n, mail))
    case _ => PgpError
  }

  predicate Stores(config: Config, n: nat, mail: InboundMail, i: nat)
    requires i < |mail.recipients|
  {
    PgpOf(config, n, mail, i).Processed? && config.ingestOk(n, i)
  }

  /** The mark that follows the copy can fail when the copy is already there. */
  predicate Completes(config: Config, n: nat, mail: InboundMail, i: nat)
    requires i < |mail.recipients|
  {
    Stores(config, n, mail, i) && (PgpOf(config, n, mail, i).hasStatus ==> config.statusOk(n, i))
  }

  function Mailbox(config: Config, n: nat, mail: InboundMail): string {
    if config.score(n, mail) >= config.quarantineAt then "junk" else "inbox"
  }

  /** This is the message, as processed for the account of the `i`-th recipient, in that account. */
  predicate IsCopyFor(config: Config, n: nat, mail: InboundMail, i: nat, copy: Copy)
    requires i < |mail.recipients|
  {
    && config.lookup(n, mail.recipients[i]) == Found(copy.account)
    && config.pgp(n, copy.account, TextOf(config, n, mail)).Processed?
    && config.pgp(n, copy.account, TextOf(config, n, mail)).raw == copy.raw
    && copy.mailbox == Mailbox(config, n, mail) && copy.chat == config.prefersChat(n, copy.account, mail.mailFrom)
  }

  function CopyOf(config: Config, n: nat, mail: InboundMail, i: nat): (copy: Copy)
    requires i < |mail.recipients| && Stores(config, n, mail, i)
    ensures IsCopyFor(config, n, mail, i, copy)
  {
    var account := config.lookup(n, mail.recipients[i]).account;
    Copy(account, config.pgp(n, account, TextOf(config, n, mail)).raw, Mailbox(config, n, mail),
         config.prefersChat(n, account, mail.mailFrom))
  }

  /** The copies of the first `k` recipients. */
  function Copies(config: Config, n: nat, mail: InboundMail, k: nat): seq<Copy>
    requires k <= |mail.recipients| && forall i :: 0 <= i < k ==> Stores(config, n, mail, i)
  {
    seq(k, i requires 0 <= i < k => CopyOf(config, n, mail, i))
  }

  /** How many recipients get their copy, from the `i`-th on, and the outcome. */
  function Progress(config: Config, n: nat, mail: InboundMail, i: nat): (r: (nat, Delivery))
    requires i <= |mail.recipients|
    ensures i <= r.0 <= |mail.recipients| && r.1 != Permanent
    ensures forall j :: i <= j < r.0 ==> Stores(config, n, mail, j)
    ensures r.1 == Accepted <==> forall j :: i <= j < |mail.recipients| ==> Completes(config, n, mail, j)
    ensures r.1 == Accepted ==> r.0 == |mail.recipients|
    decreases |mail.recipients| - i
  {
    if i == |mail.recipients| then (i, Accepted)
    else if !Stores(config, n, mail, i) then
      assert !Completes(config, n, mail, i);
      (i, Temporary)
    else if !Completes(config, n, mail, i) then (i + 1, Temporary)
    else Progress(config, n, mail, i + 1)
  }

  /** How far the `n`-th delivery gets. */
  function Fate(config: Config, n: nat, mail: InboundMail): (r: (nat, Delivery))
    ensures r.0 <= |mail.recipients| && forall j :: 0 <= j < r.0 ==> Stores(config, n, mail, j)
  {
    if config.score(n, mail) >= config.rejectAt then (0, Permanent) else Progress(config, n, mail, 0)
  }

  function AfterDelivery(config: Config, h: Server, mail: InboundMail): (Server, Delivery) {
    var (k, outcome) := Fate(config, h.calls, mail);
    (Server(h.stored + Copies(config, h.calls, mail, k), h.calls + 1), outcome)
  }

  class ServerCore {
    const config: Config
    var stored: seq<Copy>
    var calls: nat

    constructor (config: Config)
      ensures this.config == config && stored == [] && calls == 0
    {
      this.config := config;
      stored, calls := [], 0;
    }

    /** The body of the loop: look up, process, store, mark; every failure ends it at once and takes nothing back. */
    method StoreFor(n: nat, mail: InboundMail, i: nat, raw: string, mailbox: string) returns (ok: bool)
      requires i < |mail.recipients| && raw == TextOf(config, n, mail) && mailbox == Mailbox(config, n, mail)
      modifies this`stored
      ensures stored == old(stored) + if Stores(config, n, mail, i) then [CopyOf(config, n, mail, i)] else []
      ensures ok == Completes(config, n, mail, i)
    {
      var found := config.lookup(n, mail.recipients[i]);
      if !found.Found? {
        return false;
      }
      var pgp := config.pgp(n, found.account, raw);
      if pgp.PgpError? {
        return false;
      }
      var chat := config.prefersChat(n, found.account, mail.mailFrom);
      if !config.ingestOk(n, i) {
        return false;
      }
      stored := stored + [Copy(found.account, pgp.raw, mailbox, chat)];
      ok := pgp.hasStatus ==> config.statusOk(n, i);
    }

    /** `deliver`: the spam verdict for all, then the recipients in order up to the first that fails. */
    method Deliver(mail: InboundMail) returns (outcome: Delivery)
      modifies this
      ensures (Server(stored, calls), outcome) == old(AfterDelivery(config, Server(stored, calls), mail))
    {
      var n := calls;
      calls := calls + 1;
      var score := config.score(n, mail);
      assert stored == old(stored) + Copies(config, n, mail, 0);
      if score >= config.rejectAt {
        return Permanent;
      }
      var raw := "Authentication-Results: " + config.verdict(n, mail) + "\r\n" + mail.raw;
      var mailbox := if score >= config.quarantineAt then "junk" else "inbox";
      for i := 0 to |mail.recipients|
        invariant forall j :: 0 <= j < i ==> Stores(config, n, mail, j)
        invariant stored == old(stored) + Copies(config, n, mail, i)
        invariant Progress(config, n, mail, i) == Progress(config, n, mail, 0)
        invariant calls == n + 1
      {
        ghost var before := stored;
        var ok := StoreFor(n, mail, i, raw, mailbox);
        if Stores(config, n, mail, i) {
          CopiesGrow(config, n, mail, i);
          assert stored == old(stored) + Copies(config, n, mail, i + 1);
        } else {
          assert stored == before;
        }
        if !ok {
          return Temporary;
        }
      }
      outcome := Accepted;
    }
  }

  lemma CopiesGrow(config: Config, n: nat, mail: InboundMail, k: nat)
    requires k < |mail.recipients| && forall i :: 0 <= i <= k ==> Stores(config, n, mail, i)
    ensures Copies(config, n, mail, k + 1) == Copies(config, n, mail, k) + [CopyOf(config, n, mail, k)]
  {
  }

  // ---- the reply and the store ------------------------------------------------------------

  /** What a reply after DATA promises about what this delivery added, recipient by recipient. */
  ghost predicate Told(config: Config, before: Server, after: Server, mail: InboundMail, reply: Reply) {
    && after.calls == before.calls + 1
    && |after.stored| - |before.stored| <= |mail.recipients|
    && before.stored <= after.stored
    && var n, all, added := before.calls, |mail.recipients|, |after.stored| - |before.stored|;
       && (forall c :: |before.stored| <= c < |after.stored| ==>
             IsCopyFor(config, n, mail, c - |before.stored|, after.stored[c]))
       && (reply == AcceptedForDelivery ==> added == all)
       && (reply == MessageRejected ==> added == 0)
       && (reply == DeliveryDeferred ==>
             (added == all <==>
              (forall i :: 0 <= i < all ==> Stores(config, n, mail, i))
              && (forall i :: 0 <= i < all - 1 ==> Completes(config, n, mail, i))))
  }

  /**
   One delivery: 250 means that each listed recipient's account has its copy of this
   message, 550 means none has, and 451 means the first few have; these are all of them
   exactly when only the mark after the last copy failed.
   */
  lemma DeliveryIsTold(config: Config, h: Server, mail: InboundMail)
    ensures var (after, outcome) := AfterDelivery(config, h, mail);
            Told(config, h, after, mail, DeliveryReply(outcome))
  {
    var (k, outcome) := Fate(config, h.calls, mail);
    var after := AfterDelivery(config, h, mail).0;
    assert after.stored[..|h.stored|] == h.stored;
    if outcome == Temporary {
      StopsAtFirst(config, h.calls, mail, 0);
    }
  }

  lemma {:induction false} StopsAtFirst(config: Config, n: nat, mail: InboundMail, i: nat)
    requires i <= |mail.recipients| && Progress(config, n, mail, i).1 == Temporary
    ensures Progress(config, n, mail, i).0 == |mail.recipients| <==>
            (forall j :: i <= j < |mail.recipients| ==> Stores(config, n, mail, j))
            && (forall j :: i <= j < |mail.recipients| - 1 ==> Completes(config, n, mail, j))
    decreases |mail.recipients| - i
  {
    if Completes(config, n, mail, i) {
      StopsAtFirst(config, n, mail, i + 1);
    }
  }

  /** The stored text, before the pipeline, ends with the very body that was received. */
  lemma StoredTextEndsWithBody(config: Config, n: nat, p: Params, v: View, e: Event)
    requires e.Delivered? && DeliveryOk(p, v, e)
    ensures var text := TextOf(config, n, e.mail);
            |e.body| <= |text| && text[|text| - |e.body|..] == e.body
  {
    var text, raw := TextOf(config, n, e.mail), e.mail.raw;
    assert text[|text| - |raw|..] == raw;
    assert text[|text| - |e.body|..] == raw[|raw| - |e.body|..];
  }

  function ServerEnv(config: Config, params: Params, remote: string, parse: string -> Parse, date: Server -> string)
    : Env<Server>
  {
    Env(params, remote, parse,
        (h: Server, address: string) => RcptVerdict(config, h, address),
        (h: Server, mail: InboundMail) => AfterDelivery(config, h, mail),
        date)
  }

  /** The events of a session account for everything in the store: only deliveries add, and as they were told. */
  ghost predicate Accounts(config: Config, trace: seq<Event>, start: Server, end: Server)
    decreases |trace|
  {
    if trace == [] then start == end
    else
      var front, last := trace[..|trace| - 1], trace[|trace| - 1];
      if last.Delivered? then
        exists mid :: Accounts(config, front, start, mid) && Told(config, mid, end, last.mail, last.reply)
      else Accounts(config, front, start, end)
  }

  lemma AccountsGrow(config: Config, trace: seq<Event>, start: Server, mid: Server, end: Server, e: Event)
    requires Accounts(config, trace, start, mid)
    requires if e.Delivered? then Told(config, mid, end, e.mail, e.reply) else mid == end
    ensures Accounts(config, trace + [e], start, end)
  {
    assert (trace + [e])[..|trace|] == trace;
  }

  lemma LineAccounts(config: Config, env: Env<Server>, c: Conn<Server>, start: Server, event: LineEvent)
    requires Accounts(config, c.core.trace, start, c.core.handler)
    ensures var d := OnLine(env, c, event); Accounts(config, d.core.trace, start, d.core.handler)
  {
    var s := c.core;
    var parsed := if event.TooLong? then Bad(ResponseTooLong) else env.parse(event.text);
    match parsed
    case Good(request) =>
      AccountsGrow(config, s.trace, start, s.handler, s.handler, Answered(request, ReplyTo(env, s, request)));
    case Bad(e) =>
      AccountsGrow(config, s.trace, start, s.handler, s.handler, Refused(e, Erred(env, s, e).1));
  }

  lemma ByteAccounts(config: Config, env: Env<Server>, c: Conn<Server>, start: Server, b: char)
    requires forall h, mail :: env.deliver(h, mail) == AfterDelivery(config, h, mail)
    requires Accounts(config, c.core.trace, start, c.core.handler)
    ensures var d := FeedByte(env, c, b); Accounts(config, d.core.trace, start, d.core.handler)
  {
    if c.end == None {
      var m := c.core.mode;
      if m == Command {
        var (line, event) := LineByte(c.line, b, env.params.lineLimit);
        if event.Some? {
          LineAccounts(config, env, c.(line := line), start, event.value);
        }
      } else {
        var (next, kept, done) := DataByte(m.dot, b);
        if done {
          EndAccounts(config, env,
            c.core.(mode := Settled(env.params.maxMessageSize, next, m.data + kept, m.discarding)), start);
        }
      }
    }
  }

  lemma EndAccounts(config: Config, env: Env<Server>, s: Core<Server>, start: Server)
    requires forall h, mail :: env.deliver(h, mail) == AfterDelivery(config, h, mail)
    requires s.mode.Collect? && Accounts(config, s.trace, start, s.handler)
    ensures var t := Finished(env, s).0; Accounts(config, t.trace, start, t.handler)
  {
    var t := Finished(env, s).0;
    if !s.mode.discarding {
      DeliveryIsTold(config, s.handler, MailOf(env, s, s.mode.data));
    }
    AccountsGrow(config, s.trace, start, s.handler, t.handler, t.trace[|s.trace|]);
  }

  lemma {:induction false} FeedAccounts(config: Config, env: Env<Server>, c: Conn<Server>, start: Server, bytes: string)
    requires forall h, mail :: env.deliver(h, mail) == AfterDelivery(config, h, mail)
    requires Accounts(config, c.core.trace, start, c.core.handler)
    ensures var d := Feed(env, c, bytes); Accounts(config, d.core.trace, start, d.core.handler)
    decreases |bytes|
  {
    if bytes != [] {
      ByteAccounts(config, env, c, start, bytes[0]);
      FeedAccounts(config, env, FeedByte(env, c, bytes[0]), start, bytes[1..]);
    }
  }

  /** Replies tell the truth about the store on every connection, with or without TLS. */
  lemma RepliesTellTheTruth(config: Config, params: Params, remote: string, parse: string -> Parse,
                            date: Server -> string, start: Server, plain: string, handshake: bool, upgraded: string)
    ensures var env := ServerEnv(config, params, remote, parse, date);
            var end := Served(env, start, plain, handshake, upgraded);
            && Accounts(config, end.core.trace, start, end.core.handler)
            && TraceOk(params, end.core.trace)
  {
    var env := ServerEnv(config, params, remote, parse, date);
    FeedAccounts(config, env, Fresh(start), start, plain);
    var c := Feed(env, Fresh(start), plain);
    if c.end == Some(StartedTls) && handshake {
      FeedAccounts(config, env, Upgraded(c), start, upgraded);
    }
    TransactionIntegrity(env, start, plain, handshake, upgraded);
  }

  /** One recipient, stored but not marked: the sender is told to try again and the retry stores a second copy. */
  lemma DeferredAlthoughStored(config: Config, mail: InboundMail)
    requires |mail.recipients| == 1
    requires config.score(0, mail) < config.rejectAt && config.score(1, mail) < config.rejectAt
    requires Stores(config, 0, mail, 0) && !Completes(config, 0, mail, 0)
    requires Stores(config, 1, mail, 0) && config.lookup(1, mail.recipients[0]) == config.lookup(0, mail.recipients[0])
    ensures var (once, first) := AfterDelivery(config, Server([], 0), mail);
            var (twice, second) := AfterDelivery(config, once, mail);
            && first == Temporary && |once.stored| == 1
            && |twice.stored| == 2 && twice.stored[0].account == twice.stored[1].account
  {
    assert Progress(config, 0, mail, 0) == (1, Temporary);
    var once := AfterDelivery(config, Server([], 0), mail).0;
    assert once.stored[0] == CopyOf(config, 0, mail, 0);
    assert Progress(config, 1, mail, 0).0 == 1;
  }
}
