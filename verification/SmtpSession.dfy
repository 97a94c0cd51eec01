/**
 The per-connection SMTP state machine (crates/owney-smtp-in/src/session.rs).
 `Feed` says what a connection does byte by byte; the class does it read by
 read, draining each through command and DATA mode.
 */
module SmtpSession {
  import opened Text
  import opened SmtpReceivers

  datatype Params = Params(
    hostname: string, maxMessageSize: nat, maxRecipients: nat, maxErrors: nat, tls: bool, lineLimit: nat)

  datatype Request =
    | Ehlo(host: string)
    | Helo(host: string)
    | Mail(from: string, size: nat)
    | Rcpt(to: string)
    | Data
    | Rset
    | Noop
    | Quit
    | Vrfy
    | Expn
    | StartTls
    | Auth
    | Unimplemented(name: string)

  datatype SmtpError = UnknownCommand | InvalidSenderAddress | InvalidRecipientAddress | ResponseTooLong | OtherError

  datatype Parse = Good(request: Request) | Bad(error: SmtpError)

  datatype Verdict = Accept | UnknownUser | NotLocal | TryAgainLater

  datatype Delivery = Accepted | Temporary | Permanent

  datatype InboundMail = InboundMail(
    remote: string, helo: string, mailFrom: string, recipients: seq<string>, raw: string)

  /**
   What a session is given: its settings, the peer, the command grammar, and the mail handler,
   whose state `H` includes the clock.
   */
  datatype Env<!H> = Env(
    params: Params,
    remote: string,
    parse: string -> Parse,
    rcpt: (H, string) -> Verdict,
    deliver: (H, InboundMail) -> (H, Delivery),
    date: H -> string)

  datatype Mode = Command | Collect(dot: Dot, data: string, discarding: bool)

  /** What the client did and was told. */
  datatype Event =
    | Answered(request: Request, reply: Reply)
    | Refused(error: SmtpError, reply: Reply)
    | Delivered(mail: InboundMail, body: string, outcome: Delivery, reply: Reply)
    | Oversized(reply: Reply)

  datatype Core<H> = Core(
    mode: Mode, helo: string, mailFrom: Option<string>, recipients: seq<string>, errors: nat, tls: bool, handler: H,
    trace: seq<Event>)

  datatype Flow = Continue | Close | Upgrade

  // ---- commands --------------------------------------------------------------------

  datatype Reply =
    | Greets(starttls: bool)
    | Hello
    | NestedMail
    | TooBig
    | MailOk
    | MailFirst
    | TooManyRecipients
    | RcptOk
    | NoSuchUser
    | RelayingDenied
    | LookupFailed
    | RcptFirst
    | GoAhead
    | Ok
    | Bye
    | CannotVerify
    | AlreadyInTls
    | ReadyForTls
    | NoStartTls
    | NotImplemented
    | LineTooLong
    | TooManyErrors
    | NotRecognized
    | BadSender
    | BadRecipient
    | SyntaxError
    | AcceptedForDelivery
    | DeliveryDeferred
    | MessageRejected

  /** The code a reply begins with; clients go by it. */
  function Code(r: Reply): nat {
    match r
    case ReadyForTls => 220
    case Bye => 221
    case Greets(_) | Hello | MailOk | RcptOk | Ok | AcceptedForDelivery => 250
    case CannotVerify => 252
    case GoAhead => 354
    case TooManyErrors => 421
    case LookupFailed | DeliveryDeferred => 451
    case TooManyRecipients => 452
    case LineTooLong | NotRecognized => 500
    case BadSender | BadRecipient | SyntaxError => 501
    case NoStartTls | NotImplemented => 502
    case NestedMail | MailFirst | RcptFirst | AlreadyInTls => 503
    case NoSuchUser | RelayingDenied | MessageRejected => 550
    case TooBig => 552
  }

  function RcptReply(v: Verdict): Reply {
    match v
    case Accept => RcptOk
    case UnknownUser => NoSuchUser
    case NotLocal => RelayingDenied
    case TryAgainLater => LookupFailed
  }

  function ReplyTo<H>(env: Env<H>, s: Core<H>, request: Request): Reply {
    var p := env.params;
    match request
    case Ehlo(_) => Greets(p.tls && !s.tls)
    case Helo(_) => Hello
    case Mail(_, size) =>
      if s.mailFrom.Some? then NestedMail else if size != 0 && size > p.maxMessageSize then TooBig else MailOk
    case Rcpt(to) =>
      if s.mailFrom.None? then MailFirst
      else if |s.recipients| >= p.maxRecipients then TooManyRecipients
      else RcptReply(env.rcpt(s.handler, to))
    case Data => if s.recipients == [] then RcptFirst else GoAhead
    case Rset => Ok
    case Noop => Ok
    case Quit => Bye
    case Vrfy => CannotVerify
    case Expn => CannotVerify
    case StartTls => if s.tls then AlreadyInTls else if p.tls then ReadyForTls else NoStartTls
    case Auth => NotImplemented
    case Unimplemented(_) => NotImplemented
  }

  function FlowOf<H>(env: Env<H>, s: Core<H>, request: Request): Flow {
    match request
    case Quit => Close
    case StartTls => if !s.tls && env.params.tls then Upgrade else Continue
    case _ => Continue
  }

  function Reset<H>(s: Core<H>): Core<H> {
    s.(mailFrom := None, recipients := [])
  }

  /** `apply`. */
  function Applied<H>(env: Env<H>, s: Core<H>, request: Request): Core<H> {
    var reply := ReplyTo(env, s, request);
    var t := s.(trace := s.trace + [Answered(request, reply)]);
    match request
    case Ehlo(host) => Reset(t).(helo := host)
    case Helo(host) => Reset(t).(helo := host)
    case Mail(from, _) => if reply == MailOk then t.(mailFrom := Some(from)) else t
    case Rcpt(to) => if reply == RcptOk then t.(recipients := t.recipients + [to]) else t
    case Data => if s.recipients == [] then t else t.(mode := Collect(LineStart, "", false))
    case Rset => Reset(t)
    case _ => t
  }

  /**
   The code says what a command did: a refused one (400 and above) changes nothing but the
   history and keeps the connection; 354 starts the message, 220 the handshake, 221 ends the
   connection; and MAIL and RCPT enter the envelope exactly with their 250.
   */
  lemma CodeTellsEffect<H>(env: Env<H>, s: Core<H>, request: Request)
    requires s.mode == Command
    ensures var reply, t := ReplyTo(env, s, request), Applied(env, s, request);
            && (Code(reply) >= 400 ==> t == s.(trace := t.trace) && FlowOf(env, s, request) == Continue)
            && (Code(reply) == 354 <==> t.mode.Collect?)
            && (Code(reply) == 220 <==> FlowOf(env, s, request) == Upgrade)
            && (Code(reply) == 221 <==> FlowOf(env, s, request) == Close)
            && (request.Mail? ==> (Code(reply) == 250 <==> t.mailFrom != s.mailFrom))
            && (request.Rcpt? ==> (Code(reply) == 250 <==> t.recipients != s.recipients))
  {
    if request.Rcpt? && ReplyTo(env, s, request) == RcptOk {
      assert |s.recipients + [request.to]| == |s.recipients| + 1;
    }
  }

  // ---- errors ---------------------------------------------------------------------------

  function ErrorReply(e: SmtpError): Reply {
    match e
    case UnknownCommand => NotRecognized
    case InvalidSenderAddress => BadSender
    case InvalidRecipientAddress => BadRecipient
    case _ => SyntaxError
  }

  /** `protocol_error`: the state, the reply, and whether the connection is kept. */
  function Erred<H>(env: Env<H>, s: Core<H>, e: SmtpError): (Core<H>, Reply, bool) {
    if e == ResponseTooLong then
      var reply := LineTooLong;
      (s.(trace := s.trace + [Refused(e, reply)]), reply, false)
    else
      var errors := s.errors + 1;
      var keep := errors < env.params.maxErrors;
      var reply := if keep then ErrorReply(e) else TooManyErrors;
      (s.(errors := errors, trace := s.trace + [Refused(e, reply)]), reply, keep)
  }

  // ---- the end of DATA ----------------------------------------------------------------------

  predicate IsControl(c: char) {
    c < ' ' || c == '\U{7F}'
  }

  function Blanked(s: string): string {
    seq(|s|, i requires 0 <= i < |s| => if IsControl(s[i]) then ' ' else s[i])
  }

  function CleanHelo(helo: string): string {
    if helo == "" then "unknown" else Blanked(helo)
  }

  function ReceivedHeader<H>(env: Env<H>, s: Core<H>): string {
    "Received: from " + CleanHelo(s.helo) + " ([" + env.remote + "])\r\n\tby " + env.params.hostname
    + " with " + (if s.tls then "ESMTPS" else "ESMTP") + ";\r\n\t" + env.date(s.handler) + "\r\n"
  }

  /** A client's greeting cannot end a header line. */
  lemma HeloStaysOneLine(helo: string)
    ensures forall c :: c in CleanHelo(helo) ==> !IsControl(c)
    ensures helo != "" ==> |CleanHelo(helo)| == |helo|
  {
  }

  function DeliveryReply(d: Delivery): Reply {
    match d
    case Accepted => AcceptedForDelivery
    case Temporary => DeliveryDeferred
    case Permanent => MessageRejected
  }

  function MailOf<H>(env: Env<H>, s: Core<H>, body: string): InboundMail {
    InboundMail(env.remote, s.helo, if s.mailFrom.Some? then s.mailFrom.value else "", s.recipients,
                ReceivedHeader(env, s) + body)
  }

  /** `finish_data`. */
  function Finished<H>(env: Env<H>, s: Core<H>): (Core<H>, Reply)
    requires s.mode.Collect?
  {
    var t := Reset(s).(mode := Command);
    if s.mode.discarding then (t.(trace := s.trace + [Oversized(TooBig)]), TooBig)
    else
      var mail := MailOf(env, s, s.mode.data);
      var (handler, outcome) := env.deliver(s.handler, mail);
      var reply := DeliveryReply(outcome);
      (t.(handler := handler, trace := s.trace + [Delivered(mail, s.mode.data, outcome, reply)]), reply)
  }

  // ---- byte by byte -----------------------------------------------------------------------------

  datatype End = Closed | StartedTls

  /** A connection between two bytes: what was sent so far, and whether it has ended. */
  datatype Conn<H> = Conn(core: Core<H>, line: string, out: seq<Reply>, end: Option<End>)

  function EndOfFlow(flow: Flow): Option<End> {
    match flow
    case Continue => None
    case Close => Some(Closed)
    case Upgrade => Some(StartedTls)
  }

  function OnRequest<H>(env: Env<H>, c: Conn<H>, request: Request): Conn<H> {
    var reply := ReplyTo(env, c.core, request);
    Conn(Applied(env, c.core, request), "", c.out + [reply], EndOfFlow(FlowOf(env, c.core, request)))
  }

  function OnError<H>(env: Env<H>, c: Conn<H>, e: SmtpError): Conn<H> {
    var (core, reply, keep) := Erred(env, c.core, e);
    Conn(core, "", c.out + [reply], if keep then None else Some(Closed))
  }

  function OnLine<H>(env: Env<H>, c: Conn<H>, event: LineEvent): Conn<H> {
    match event
    case TooLong => OnError(env, c, ResponseTooLong)
    case Line(text) =>
      match env.parse(text)
      case Good(request) => OnRequest(env, c, request)
      case Bad(e) => OnError(env, c, e)
  }

  function OnDone<H>(env: Env<H>, c: Conn<H>): Conn<H>
    requires c.core.mode.Collect?
  {
    var (core, reply) := Finished(env, c.core);
    c.(core := core, out := c.out + [reply])
  }

  /** Once over the limit, nothing more is kept. */
  function Settled(max: nat, dot: Dot, data: string, discarding: bool): Mode {
    if discarding || |data| > max then Collect(dot, "", true) else Collect(dot, data, false)
  }

  function FeedByte<H>(env: Env<H>, c: Conn<H>, b: char): Conn<H> {
    if c.end.Some? then c
    else
      match c.core.mode
      case Command =>
        var (line, event) := LineByte(c.line, b, env.params.lineLimit);
        if event.None? then c.(line := line) else OnLine(env, c.(line := line), event.value)
      case Collect(dot, data, discarding) =>
        var (next, kept, done) := DataByte(dot, b);
        var d := c.(core := c.core.(mode := Settled(env.params.maxMessageSize, next, data + kept, discarding)));
        if done then OnDone(env, d) else d
  }

  function Feed<H>(env: Env<H>, c: Conn<H>, bytes: string): Conn<H>
    decreases |bytes|
  {
    if bytes == [] then c else Feed(env, FeedByte(env, c, bytes[0]), bytes[1..])
  }

  lemma {:induction false} FeedEnded<H>(env: Env<H>, c: Conn<H>, bytes: string)
    requires c.end.Some?
    ensures Feed(env, c, bytes) == c
    decreases |bytes|
  {
    if bytes != [] {
      FeedEnded(env, c, bytes[1..]);
    }
  }

  lemma {:induction false} FeedConcat<H>(env: Env<H>, c: Conn<H>, a: string, b: string)
    ensures Feed(env, c, a + b) == Feed(env, Feed(env, c, a), b)
    decreases |a|
  {
    if a == [] {
      assert a + b == b;
    } else {
      assert (a + b)[1..] == a[1..] + b;
      FeedConcat(env, FeedByte(env, c, a[0]), a[1..], b);
    }
  }

  // ---- a read at a time is a byte at a time ------------------------------------------------------

  lemma {:induction false} FeedLine<H>(env: Env<H>, c: Conn<H>, bytes: string)
    requires c.end.None? && c.core.mode == Command
    ensures var (last, used, event) := TakeLine(c.line, bytes, env.params.lineLimit);
            && used <= |bytes|
            && Feed(env, c, bytes) ==
               if event.None? then c.(line := last)
               else Feed(env, OnLine(env, c.(line := ""), event.value), bytes[used..])
    decreases |bytes|
  {
    LineLaw(c.line, bytes, env.params.lineLimit);
    if bytes != [] {
      var (next, event) := LineByte(c.line, bytes[0], env.params.lineLimit);
      if event.None? {
        var (last, used, later) := TakeLine(next, bytes[1..], env.params.lineLimit);
        FeedLine(env, c.(line := next), bytes[1..]);
        assert used <= |bytes[1..]|;
        assert bytes[1..][used..] == bytes[used + 1..];
      }
    }
  }

  predicate IsSettled(max: nat, m: Mode) {
    m.Collect? ==> if m.discarding then m.data == "" else |m.data| <= max
  }

  lemma SettledTwice(max: nat, dot: Dot, last: Dot, data: string, a: string, b: string, discarding: bool)
    requires IsSettled(max, Collect(dot, data, discarding))
    ensures var m := Settled(max, dot, data + a, discarding);
            && IsSettled(max, m)
            && Settled(max, last, m.data + b, m.discarding) == Settled(max, last, data + (a + b), discarding)
  {
    assert (data + a) + b == data + (a + b);
  }

  /** Checking the size once per read decides as checking it once per byte does. */
  lemma {:induction false} FeedData<H>(env: Env<H>, c: Conn<H>, bytes: string)
    requires c.end.None? && c.core.mode.Collect? && IsSettled(env.params.maxMessageSize, c.core.mode)
    ensures var m := c.core.mode;
            var t := TakeData(m.dot, bytes);
            var mode := Settled(env.params.maxMessageSize, t.dot, m.data + t.data, m.discarding);
            var d := c.(core := c.core.(mode := mode));
            && t.used <= |bytes|
            && Feed(env, c, bytes) == if t.done then Feed(env, OnDone(env, d), bytes[t.used..]) else d
    decreases |bytes|
  {
    var m, max := c.core.mode, env.params.maxMessageSize;
    DataLaw(m.dot, bytes);
    if bytes == [] {
      assert m.data + "" == m.data;
    } else {
      var (next, kept, done) := DataByte(m.dot, bytes[0]);
      if !done {
        var d := c.(core := c.core.(mode := Settled(max, next, m.data + kept, m.discarding)));
        var rest := TakeData(next, bytes[1..]);
        SettledTwice(max, next, rest.dot, m.data, kept, rest.data, m.discarding);
        FeedData(env, d, bytes[1..]);
        assert bytes[1..][rest.used..] == bytes[rest.used + 1..];
      }
    }
  }

  // ---- the session ----------------------------------------------------------------------------------

  function Flatten(chunks: seq<string>): string {
    if chunks == [] then "" else chunks[0] + Flatten(chunks[1..])
  }

  lemma {:induction false} FlattenAppends(chunks: seq<string>, read: string)
    ensures Flatten(chunks + [read]) == Flatten(chunks) + read
  {
    if chunks == [] {
      assert [read][1..] == [];
    } else {
      assert (chunks + [read])[1..] == chunks[1..] + [read];
      FlattenAppends(chunks[1..], read);
    }
  }

  class Session<H> {
    const env: Env<H>
    var mode: Mode
    var helo: string
    var mailFrom: Option<string>
    var recipients: seq<string>
    var errors: nat
    var tlsActive: bool
    var handler: H
    ghost var trace: seq<Event>

    constructor (env: Env<H>, handler: H)
      ensures this.env == env && Valid()
      ensures Contents() == Core(Command, "", None, [], 0, false, handler, [])
    {
      this.env := env;
      this.handler := handler;
      mode, helo, mailFrom, recipients, errors, tlsActive := Command, "", None, [], 0, false;
      trace := [];
    }

    ghost function Contents(): Core<H>
      reads this
    {
      Core(mode, helo, mailFrom, recipients, errors, tlsActive, handler, trace)
    }

    ghost predicate Valid()
      reads this
    {
      IsSettled(env.params.maxMessageSize, mode)
    }

    method ResetTransaction()
      modifies this
      ensures Contents() == Reset(old(Contents()))
    {
      mailFrom := None;
      recipients := [];
    }

    method Apply(request: Request) returns (reply: Reply, flow: Flow)
      requires Valid()
      modifies this
      ensures Valid() && Contents() == old(Applied(env, Contents(), request))
      ensures reply == old(ReplyTo(env, Contents(), request)) && flow == old(FlowOf(env, Contents(), request))
    {
      ghost var before := Contents();
      var p := env.params;
      flow := Continue;
      match request {
        case Ehlo(host) =>
          helo := host;
          ResetTransaction();
          reply := Greets(p.tls && !tlsActive);
        case Helo(host) =>
          helo := host;
          ResetTransaction();
          reply := Hello;
        case Mail(from, size) =>
          if mailFrom.Some? {
            reply := NestedMail;
          } else if size != 0 && size > p.maxMessageSize {
            reply := TooBig;
          } else {
            mailFrom := Some(from);
            reply := MailOk;
          }
        case Rcpt(to) =>
          if mailFrom.None? {
            reply := MailFirst;
          } else if |recipients| >= p.maxRecipients {
            reply := TooManyRecipients;
          } else {
            var verdict := env.rcpt(handler, to);
            if verdict == Accept {
              recipients := recipients + [to];
            }
            reply := RcptReply(verdict);
          }
        case Data =>
          if recipients == [] {
            reply := RcptFirst;
          } else {
            reply := GoAhead;
            mode := Collect(LineStart, "", false);
          }
        case Rset =>
          ResetTransaction();
          reply := Ok;
        case Noop =>
          reply := Ok;
        case Quit =>
          reply := Bye;
          flow := Close;
        case Vrfy =>
          reply := CannotVerify;
        case Expn =>
          reply := CannotVerify;
        case StartTls =>
          if tlsActive {
            reply := AlreadyInTls;
          } else if p.tls {
            reply := ReadyForTls;
            flow := Upgrade;
          } else {
            reply := NoStartTls;
          }
        case Auth =>
          reply := NotImplemented;
        case Unimplemented(_) =>
          reply := NotImplemented;
      }
      trace := before.trace + [Answered(request, reply)];
    }

    method ProtocolError(e: SmtpError) returns (reply: Reply, keep: bool)
      requires Valid()
      modifies this
      ensures Valid() && (Contents(), reply, keep) == old(Erred(env, Contents(), e))
    {
      if e == ResponseTooLong {
        reply, keep := LineTooLong, false;
      } else {
        errors := errors + 1;
        keep := errors < env.params.maxErrors;
        reply := if keep then ErrorReply(e) else TooManyErrors;
      }
      trace := trace + [Refused(e, reply)];
    }

    method FinishData() returns (reply: Reply)
      requires Valid() && mode.Collect?
      modifies this
      ensures Valid() && (Contents(), reply) == old(Finished(env, Contents()))
    {
      var data, discarding := mode.data, mode.discarding;
      mode := Command;
      if discarding {
        ResetTransaction();
        reply := TooBig;
        trace := trace + [Oversized(reply)];
        return;
      }
      var raw := "Received: from " + CleanHelo(helo) + " ([" + env.remote + "])\r\n\tby " + env.params.hostname
                 + " with " + (if tlsActive then "ESMTPS" else "ESMTP") + ";\r\n\t" + env.date(handler) + "\r\n";
      var from := if mailFrom.Some? then mailFrom.value else "";
      var mail := InboundMail(env.remote, helo, from, recipients, raw + data);
      mailFrom, recipients := None, [];
      var (after, outcome) := env.deliver(handler, mail);
      handler := after;
      reply := DeliveryReply(outcome);
      trace := trace + [Delivered(mail, data, outcome, reply)];
    }

    /** What one event of the line receiver does to the session. */
    method Handle(event: LineEvent) returns (reply: Reply, end: Option<End>)
      requires Valid()
      modifies this
      ensures Valid() && Conn(Contents(), "", [reply], end) == old(OnLine(env, Conn(Contents(), "", [], None), event))
    {
      var parsed := if event.TooLong? then Bad(ResponseTooLong) else env.parse(event.text);
      match parsed {
        case Good(request) =>
          var flow;
          reply, flow := Apply(request);
          end := EndOfFlow(flow);
        case Bad(e) =>
          var keep;
          reply, keep := ProtocolError(e);
          end := if keep then None else Some(Closed);
      }
    }

    /** Command mode takes its part of a read; no reply means the read is used up. */
    method CommandStep(line: string, read: string, from: nat, ghost out: seq<Reply>)
      returns (last: string, at: nat, reply: Option<Reply>, end: Option<End>)
      requires Valid() && mode == Command && from <= |read|
      modifies this
      ensures Valid() && at <= |read| && (reply.Some? ==> at > from) && (reply.None? ==> end.None?)
      ensures old(Feed(env, Conn(Contents(), line, out, None), read[from..])) ==
              if reply.None? then Conn(Contents(), last, out, None)
              else Feed(env, Conn(Contents(), last, out + [reply.value], end), read[at..])
    {
      ghost var now := Conn(Contents(), line, out, None);
      FeedLine(env, now, read[from..]);
      LineLaw(line, read[from..], env.params.lineLimit);
      var event;
      last, at, event := IngestLine(line, read, from, env.params.lineLimit);
      reply, end := None, None;
      if event.Some? {
        assert read[from..][at - from..] == read[at..];
        OutAppends(env, now.(line := ""), event.value);
        var r;
        r, end := Handle(event.value);
        reply := Some(r);
      }
    }

    /** DATA mode takes its part of a read, checks the size, and finishes the message if it is complete. */
    method DataStep(line: string, read: string, from: nat, ghost out: seq<Reply>)
      returns (at: nat, reply: Option<Reply>)
      requires Valid() && mode.Collect? && from <= |read|
      modifies this
      ensures Valid() && at <= |read| && (reply.Some? ==> at > from)
      ensures old(Feed(env, Conn(Contents(), line, out, None), read[from..])) ==
              if reply.None? then Conn(Contents(), line, out, None)
              else Feed(env, Conn(Contents(), line, out + [reply.value], None), read[at..])
    {
      FeedData(env, Conn(Contents(), line, out, None), read[from..]);
      DataLaw(mode.dot, read[from..]);
      var done;
      var dot, data, discarding := mode.dot, mode.data, mode.discarding;
      dot, at, data, done := IngestData(dot, read, from, data);
      if discarding || |data| > env.params.maxMessageSize {
        discarding := true;
        data := "";
      }
      mode := Collect(dot, data, discarding);
      reply := None;
      if done {
        assert read[from..][at - from..] == read[at..];
        var r := FinishData();
        reply := Some(r);
      }
    }

    /** The drain loop: one read is taken through command and DATA mode until it is used up. */
    method Drain(line: string, read: string) returns (last: string, out: seq<Reply>, end: Option<End>)
      requires Valid()
      modifies this
      ensures Valid()
      ensures Conn(Contents(), last, out, end) == old(Feed(env, Conn(Contents(), line, [], None), read))
    {
      last, out, end := line, [], None;
      var at, reply := 0, None;
      ghost var target := Feed(env, Conn(Contents(), line, [], None), read);
      assert read[0..] == read;
      while true
        invariant Valid() && at <= |read| && end == None
        invariant Feed(env, Conn(Contents(), last, out, None), read[at..]) == target
        decreases |read| - at
      {
        if mode == Command {
          last, at, reply, end := CommandStep(last, read, at, out);
        } else {
          at, reply := DataStep(last, read, at, out);
        }
        if reply.None? {
          return;
        }
        out := out + [reply.value];
        if end.Some? {
          FeedEnded(env, Conn(Contents(), last, out, end), read[at..]);
          return;
        }
      }
    }

    /** `run_protocol`: `chunks` are the reads the socket returns up to the end of the stream. */
    method RunProtocol(chunks: seq<string>) returns (out: seq<Reply>, end: End)
      requires Valid()
      modifies this
      ensures Valid()
      ensures var c := old(Feed(env, Conn(Contents(), "", [], None), Flatten(chunks)));
              && Contents() == c.core && out == c.out
              && end == if c.end == Some(StartedTls) then StartedTls else Closed
    {
      var line, ended := "", None;
      out, end := [], Closed;
      ghost var start := Conn(Contents(), "", [], None);
      for i := 0 to |chunks|
        invariant Valid() && ended == None
        invariant Feed(env, start, Flatten(chunks[..i])) == Conn(Contents(), line, out, None)
      {
        assert chunks[..i + 1] == chunks[..i] + [chunks[i]];
        FlattenAppends(chunks[..i], chunks[i]);
        FeedConcat(env, start, Flatten(chunks[..i]), chunks[i]);
        OutIsAppended(env, Conn(Contents(), line, [], None), out, chunks[i]);
        var replies;
        line, replies, ended := Drain(line, chunks[i]);
        out := out + replies;
        if ended.Some? {
          assert chunks == chunks[..i + 1] + chunks[i + 1..];
          FlattenConcat(chunks[..i + 1], chunks[i + 1..]);
          FeedConcat(env, start, Flatten(chunks[..i + 1]), Flatten(chunks[i + 1..]));
          FeedEnded(env, Conn(Contents(), line, out, ended), Flatten(chunks[i + 1..]));
          return out, ended.value;
        }
      }
      assert chunks[..|chunks|] == chunks;
    }

    /** `serve_connection` after the greeting; `upgraded` are the reads inside TLS if the handshake succeeds. */
    method ServeConnection(plain: seq<string>, handshake: bool, upgraded: seq<string>)
      returns (before: seq<Reply>, after: seq<Reply>)
      requires Valid() && mode == Command
      modifies this
      ensures var c := old(Feed(env, Conn(Contents(), "", [], None), Flatten(plain)));
              && before == c.out
              && if c.end == Some(StartedTls) && handshake then
                   var d := Feed(env, Upgraded(c), Flatten(upgraded));
                   Contents() == d.core && after == d.out
                 else Contents() == c.core && after == []
    {
      var end;
      before, end := RunProtocol(plain);
      after := [];
      if end == StartedTls && handshake {
        helo := "";
        ResetTransaction();
        mode := Command;
        tlsActive := true;
        after, end := RunProtocol(upgraded);
      }
    }
  }

  /** The connection that starts inside TLS: no name, no transaction, a new line receiver. */
  function Upgraded<H>(c: Conn<H>): Conn<H> {
    Conn(Reset(c.core).(helo := "", mode := Command, tls := true), "", [], None)
  }

  lemma {:induction false} FlattenConcat(a: seq<string>, b: seq<string>)
    ensures Flatten(a + b) == Flatten(a) + Flatten(b)
  {
    if a == [] {
      assert a + b == b;
    } else {
      assert (a + b)[1..] == a[1..] + b;
      FlattenConcat(a[1..], b);
    }
  }

  lemma OutAppends<H>(env: Env<H>, c: Conn<H>, event: LineEvent)
    requires c.line == ""
    ensures var d := OnLine(env, c.(out := []), event); OnLine(env, c, event) == d.(out := c.out + d.out)
  {
  }

  lemma OutAppendsByte<H>(env: Env<H>, c: Conn<H>, b: char)
    ensures var d := FeedByte(env, c.(out := []), b); FeedByte(env, c, b) == d.(out := c.out + d.out)
  {
  }

  /** What was sent before does not matter to what comes. */
  lemma {:induction false} OutIsAppended<H>(env: Env<H>, c: Conn<H>, out: seq<Reply>, bytes: string)
    ensures var d := Feed(env, c.(out := []), bytes); Feed(env, c.(out := out), bytes) == d.(out := out + d.out)
    decreases |bytes|
  {
    if bytes == [] {
      assert out + [] == out;
    } else {
      var e := FeedByte(env, c.(out := []), bytes[0]);
      OutAppendsByte(env, c.(out := out), bytes[0]);
      OutIsAppended(env, e, e.out, bytes[1..]);
      OutIsAppended(env, e, out + e.out, bytes[1..]);
    }
  }
}
