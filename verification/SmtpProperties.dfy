/** What holds of every SMTP connection, whatever the client sends and however it is cut into reads. */
module SmtpProperties {
  import opened Text
  import opened SmtpReceivers
  import opened SmtpSession

  // ---- read boundaries ------------------------------------------------------------

  /**
   What the drain loop does with one read: command mode and DATA mode in turn, each taking
   its part of the read at once, with one size check at the end of a part.
   */
  function Drained<H>(env: Env<H>, c: Conn<H>, read: string): Conn<H>
    decreases |read|
  {
    if c.end.Some? then c
    else
      match c.core.mode
      case Command =>
        LineLaw(c.line, read, env.params.lineLimit);
        var (last, used, event) := TakeLine(c.line, read, env.params.lineLimit);
        if event.None? then c.(line := last) else Drained(env, OnLine(env, c.(line := ""), event.value), read[used..])
      case Collect(dot, data, discarding) =>
        DataLaw(dot, read);
        var t := TakeData(dot, read);
        var d := c.(core := c.core.(mode := Settled(env.params.maxMessageSize, t.dot, data + t.data, discarding)));
        if t.done then Drained(env, OnDone(env, d), read[t.used..]) else d
  }

  function DrainedReads<H>(env: Env<H>, c: Conn<H>, chunks: seq<string>): Conn<H>
    decreases |chunks|
  {
    if chunks == [] then c else DrainedReads(env, Drained(env, c, chunks[0]), chunks[1..])
  }

  lemma LineKeepsSettled<H>(env: Env<H>, c: Conn<H>, event: LineEvent)
    requires c.core.mode == Command
    ensures IsSettled(env.params.maxMessageSize, OnLine(env, c, event).core.mode)
  {
  }

  /** One read, drained part by part, is its bytes fed one by one. */
  lemma {:induction false} DrainedIsFed<H>(env: Env<H>, c: Conn<H>, read: string)
    requires IsSettled(env.params.maxMessageSize, c.core.mode)
    ensures Drained(env, c, read) == Feed(env, c, read)
    ensures IsSettled(env.params.maxMessageSize, Feed(env, c, read).core.mode)
    decreases |read|
  {
    if c.end.Some? {
      FeedEnded(env, c, read);
    } else if c.core.mode == Command {
      FeedLine(env, c, read);
      LineLaw(c.line, read, env.params.lineLimit);
      var (last, used, event) := TakeLine(c.line, read, env.params.lineLimit);
      if event.Some? {
        LineKeepsSettled(env, c.(line := ""), event.value);
        DrainedIsFed(env, OnLine(env, c.(line := ""), event.value), read[used..]);
      }
    } else {
      var m := c.core.mode;
      FeedData(env, c, read);
      DataLaw(m.dot, read);
      var t := TakeData(m.dot, read);
      if t.done {
        var d := c.(core := c.core.(mode := Settled(env.params.maxMessageSize, t.dot, m.data + t.data, m.discarding)));
        DrainedIsFed(env, OnDone(env, d), read[t.used..]);
      }
    }
  }

  lemma {:induction false} ReadsAreBytes<H>(env: Env<H>, c: Conn<H>, chunks: seq<string>)
    requires IsSettled(env.params.maxMessageSize, c.core.mode)
    ensures DrainedReads(env, c, chunks) == Feed(env, c, Flatten(chunks))
    decreases |chunks|
  {
    if chunks != [] {
      DrainedIsFed(env, c, chunks[0]);
      FeedConcat(env, c, chunks[0], Flatten(chunks[1..]));
      ReadsAreBytes(env, Feed(env, c, chunks[0]), chunks[1..]);
    }
  }

  /**
   Two ways of cutting one byte stream into reads, each drained read by read, give the
   same replies, deliveries, state and end.
   */
  lemma CutsDoNotMatter<H>(env: Env<H>, c: Conn<H>, one: seq<string>, other: seq<string>)
    requires IsSettled(env.params.maxMessageSize, c.core.mode) && Flatten(one) == Flatten(other)
    ensures DrainedReads(env, c, one) == DrainedReads(env, c, other)
  {
    ReadsAreBytes(env, c, one);
    ReadsAreBytes(env, c, other);
  }

  // ---- STARTTLS -------------------------------------------------------------------------

  /** Plaintext pipelined behind STARTTLS has no effect at all. */
  lemma InjectionIsDropped<H>(env: Env<H>, c: Conn<H>, before: string, injected: string)
    requires Feed(env, c, before).end == Some(StartedTls)
    ensures Feed(env, c, before + injected) == Feed(env, c, before)
  {
    FeedConcat(env, c, before, injected);
    FeedEnded(env, Feed(env, c, before), injected);
  }

  /** Inside TLS the session never asks for another upgrade. */
  lemma {:induction false} NeverUpgradesTwice<H>(env: Env<H>, c: Conn<H>, bytes: string)
    requires c.core.tls && c.end != Some(StartedTls)
    ensures Feed(env, c, bytes).core.tls && Feed(env, c, bytes).end != Some(StartedTls)
    decreases |bytes|
  {
    if bytes != [] {
      NeverUpgradesTwice(env, FeedByte(env, c, bytes[0]), bytes[1..]);
    }
  }

  function WithTrace<H>(c: Conn<H>, trace: seq<Event>): Conn<H> {
    c.(core := c.core.(trace := trace))
  }

  function WithRecord<H>(s: Core<H>, trace: seq<Event>): Core<H> {
    s.(trace := trace)
  }

  lemma TraceAppendsRequest<H>(env: Env<H>, s: Core<H>, trace: seq<Event>, request: Request)
    ensures var blank := WithRecord(s, []);
            && ReplyTo(env, WithRecord(s, trace), request) == ReplyTo(env, blank, request)
            && FlowOf(env, WithRecord(s, trace), request) == FlowOf(env, blank, request)
            && Applied(env, WithRecord(s, trace), request)
               == WithRecord(Applied(env, blank, request), trace + Applied(env, blank, request).trace)
  {
  }

  lemma TraceAppendsEnd<H>(env: Env<H>, s: Core<H>, trace: seq<Event>)
    requires s.mode.Collect?
    ensures var (t, reply) := Finished(env, WithRecord(s, []));
            Finished(env, WithRecord(s, trace)) == (WithRecord(t, trace + t.trace), reply)
  {
    var blank := WithRecord(s, []);
    assert MailOf(env, WithRecord(s, trace), s.mode.data) == MailOf(env, blank, s.mode.data);
    var t := Finished(env, blank).0;
    assert t.trace == [t.trace[0]];
    assert Finished(env, WithRecord(s, trace)).0.trace == trace + [t.trace[0]];
  }

  lemma TraceAppendsLine<H>(env: Env<H>, c: Conn<H>, trace: seq<Event>, event: LineEvent)
    ensures var d := OnLine(env, WithTrace(c, []), event);
            OnLine(env, WithTrace(c, trace), event) == WithTrace(d, trace + d.core.trace)
  {
    if event.Line? && env.parse(event.text).Good? {
      TraceAppendsRequest(env, c.core, trace, env.parse(event.text).request);
    }
  }

  lemma TraceAppendsByte<H>(env: Env<H>, c: Conn<H>, trace: seq<Event>, b: char)
    ensures var d := FeedByte(env, WithTrace(c, []), b);
            FeedByte(env, WithTrace(c, trace), b) == WithTrace(d, trace + d.core.trace)
  {
    assert trace + [] == trace;
    if c.end == None {
      if c.core.mode == Command {
        var (line, event) := LineByte(c.line, b, env.params.lineLimit);
        if event.Some? {
          TraceAppendsLine(env, c.(line := line), trace, event.value);
        }
      } else {
        var m := c.core.mode;
        var (next, kept, done) := DataByte(m.dot, b);
        var settled := Settled(env.params.maxMessageSize, next, m.data + kept, m.discarding);
        TraceAppendsEnd(env, c.core.(mode := settled), trace);
      }
    }
  }

  /** The record of the past is never consulted. */
  lemma {:induction false} TraceIsAppended<H>(env: Env<H>, c: Conn<H>, trace: seq<Event>, bytes: string)
    ensures var d := Feed(env, WithTrace(c, []), bytes);
            Feed(env, WithTrace(c, trace), bytes) == WithTrace(d, trace + d.core.trace)
    decreases |bytes|
  {
    if bytes == [] {
      assert trace + [] == trace;
    } else {
      var e := FeedByte(env, WithTrace(c, []), bytes[0]);
      TraceAppendsByte(env, c, trace, bytes[0]);
      TraceIsAppended(env, e, e.core.trace, bytes[1..]);
      TraceIsAppended(env, e, trace + e.core.trace, bytes[1..]);
      var d := Feed(env, WithTrace(e, []), bytes[1..]);
      assert WithTrace(e, e.core.trace) == e;
      assert Feed(env, WithTrace(c, []), bytes) == Feed(env, e, bytes[1..]);
      assert Feed(env, WithTrace(c, trace), bytes) == Feed(env, WithTrace(e, trace + e.core.trace), bytes[1..]);
      assert trace + (e.core.trace + d.core.trace) == (trace + e.core.trace) + d.core.trace;
    }
  }

  /**
   STARTTLS isolation: two sessions with the same handler state and error count that
   upgrade after arbitrarily different plaintext answer, deliver and end alike inside TLS.
   */
  lemma TlsIsolation<H>(env: Env<H>, c: Conn<H>, d: Conn<H>, bytes: string)
    requires c.core.handler == d.core.handler && c.core.errors == d.core.errors
    ensures var x, y := Feed(env, Upgraded(c), bytes), Feed(env, Upgraded(d), bytes);
            && x.out == y.out && x.end == y.end && x.core.handler == y.core.handler
            && exists after :: x.core.trace == c.core.trace + after && y.core.trace == d.core.trace + after
  {
    var e := Feed(env, WithTrace(Upgraded(c), []), bytes);
    assert WithTrace(Upgraded(c), []) == WithTrace(Upgraded(d), []);
    TraceIsAppended(env, Upgraded(c), c.core.trace, bytes);
    TraceIsAppended(env, Upgraded(d), d.core.trace, bytes);
    assert WithTrace(Upgraded(c), c.core.trace) == Upgraded(c) && WithTrace(Upgraded(d), d.core.trace) == Upgraded(d);
    assert Feed(env, Upgraded(c), bytes).core.trace == c.core.trace + e.core.trace;
  }

  /** One whole line within the limit. */
  predicate IsLine<H>(env: Env<H>, text: string) {
    && text != "" && text[|text| - 1] == '\n' && (forall i :: 0 <= i < |text| - 1 ==> text[i] != '\n')
    && |text| <= env.params.lineLimit
  }

  /** One that the grammar rejects. */
  ghost predicate IsBadLine<H>(env: Env<H>, bad: string) {
    IsLine(env, bad) && env.parse(bad).Bad? && env.parse(bad).error != ResponseTooLong
  }

  lemma {:induction false} TakeWholeLine(line: string, rest: string, limit: nat)
    requires rest != "" && rest[|rest| - 1] == '\n' && (forall i :: 0 <= i < |rest| - 1 ==> rest[i] != '\n')
    requires |line| + |rest| <= limit
    ensures TakeLine(line, rest, limit) == ("", |rest|, Some(SmtpReceivers.Line(line + rest)))
    decreases |rest|
  {
    if |rest| == 1 {
      assert line + rest == line + [rest[0]];
    } else {
      TakeWholeLine(line + [rest[0]], rest[1..], limit);
      assert line + [rest[0]] + rest[1..] == line + rest;
    }
  }

  lemma LineIsRead<H>(env: Env<H>, c: Conn<H>, text: string)
    requires IsLine(env, text) && c.end == None && c.core.mode == Command && c.line == ""
    ensures Feed(env, c, text) == OnLine(env, c, SmtpReceivers.Line(text))
  {
    TakeWholeLine("", text, env.params.lineLimit);
    assert "" + text == text;
    FeedLine(env, c, text);
    assert text[|text|..] == "";
    assert c.(line := "") == c;
  }

  lemma BadLineCounts<H>(env: Env<H>, c: Conn<H>, bad: string)
    requires IsBadLine(env, bad) && c.end == None && c.core.mode == Command && c.line == ""
    ensures Feed(env, c, bad) == OnError(env, c, env.parse(bad).error)
  {
    LineIsRead(env, c, bad);
  }

  function Repeated(s: string, k: nat): string {
    if k == 0 then "" else s + Repeated(s, k - 1)
  }

  lemma {:induction false} BadLinesCount<H>(env: Env<H>, c: Conn<H>, bad: string, k: nat)
    requires IsBadLine(env, bad) && c.end == None && c.core.mode == Command && c.line == ""
    requires c.core.errors + k < env.params.maxErrors
    ensures var d := Feed(env, c, Repeated(bad, k));
            && d.end == None && d.core.mode == Command && d.line == "" && d.core.errors == c.core.errors + k
            && |d.out| == |c.out| + k
    decreases k
  {
    if k > 0 {
      BadLineCounts(env, c, bad);
      FeedConcat(env, c, bad, Repeated(bad, k - 1));
      BadLinesCount(env, Feed(env, c, bad), bad, k - 1);
    }
  }

  function Codes(replies: seq<Reply>): seq<nat> {
    seq(|replies|, i requires 0 <= i < |replies| => Code(replies[i]))
  }

  /** After `k` bad lines the next one is refused as they were, or with 421 if it is one too many. */
  lemma NextBadLine<H>(env: Env<H>, c: Conn<H>, bad: string, k: nat)
    requires IsBadLine(env, bad) && c.end == None && c.core.mode == Command && c.line == "" && c.out == []
    requires c.core.errors + k < env.params.maxErrors
    ensures var out, refusal := Feed(env, c, Repeated(bad, k) + bad).out, ErrorReply(env.parse(bad).error);
            |out| == k + 1 && out[k] == if c.core.errors + k + 1 < env.params.maxErrors then refusal else TooManyErrors
  {
    BadLinesCount(env, c, bad, k);
    FeedConcat(env, c, Repeated(bad, k), bad);
    BadLineCounts(env, Feed(env, c, Repeated(bad, k)), bad);
  }

  /** Enough bad lines to exhaust the larger count but not the smaller one. */
  lemma ErrorsShow<H>(env: Env<H>, c: Conn<H>, d: Conn<H>, bad: string) returns (bytes: string)
    requires IsBadLine(env, bad)
    requires c.end == None && c.core.mode == Command && c.line == "" && c.out == []
    requires d.end == None && d.core.mode == Command && d.line == "" && d.out == []
    requires c.core.errors < d.core.errors < env.params.maxErrors
    ensures Codes(Feed(env, c, bytes).out) != Codes(Feed(env, d, bytes).out)
  {
    var k := env.params.maxErrors - d.core.errors - 1;
    bytes := Repeated(bad, k) + bad;
    NextBadLine(env, c, bad, k);
    NextBadLine(env, d, bad, k);
    assert Codes(Feed(env, c, bytes).out)[k] == Code(ErrorReply(env.parse(bad).error));
    assert Codes(Feed(env, d, bytes).out)[k] == Code(TooManyErrors);
  }

  ghost predicate SameCodes<H>(env: Env<H>, c: Conn<H>, d: Conn<H>) {
    forall bytes :: Codes(Feed(env, Upgraded(c), bytes).out) == Codes(Feed(env, Upgraded(d), bytes).out)
  }

  ghost predicate SameReplies<H>(env: Env<H>, c: Conn<H>, d: Conn<H>) {
    forall bytes :: Feed(env, Upgraded(c), bytes).out == Feed(env, Upgraded(d), bytes).out
  }

  /**
   The one thing learned before TLS that survives it is the number of errors: two
   sessions with the same handler state are alike inside TLS exactly when they made
   equally many errors before (both below the limit, and some line is rejected); the
   codes of the replies are enough to tell.
   */
  lemma ErrorsAreCarriedOver<H>(env: Env<H>, c: Conn<H>, d: Conn<H>, bad: string)
    requires IsBadLine(env, bad) && c.core.handler == d.core.handler
    requires c.core.errors < env.params.maxErrors && d.core.errors < env.params.maxErrors
    ensures SameReplies(env, c, d) <==> c.core.errors == d.core.errors
    ensures SameCodes(env, c, d) <==> c.core.errors == d.core.errors
  {
    if c.core.errors == d.core.errors {
      forall bytes ensures Feed(env, Upgraded(c), bytes).out == Feed(env, Upgraded(d), bytes).out {
        TlsIsolation(env, c, d, bytes);
      }
    } else if c.core.errors < d.core.errors {
      var bytes := ErrorsShow(env, Upgraded(c), Upgraded(d), bad);
    } else {
      var bytes := ErrorsShow(env, Upgraded(d), Upgraded(c), bad);
    }
  }

  // ---- the error budget -----------------------------------------------------------------------

  /** A rejected command other than an over-long line. */
  predicate IsCounted(e: Event) {
    e.Refused? && e.error != ResponseTooLong
  }

  function Counted(trace: seq<Event>): nat
    decreases |trace|
  {
    if trace == [] then 0 else Counted(trace[..|trace| - 1]) + if IsCounted(trace[|trace| - 1]) then 1 else 0
  }

  /** The counted errors since anything else happened. */
  function Streak(trace: seq<Event>): nat
    decreases |trace|
  {
    if trace == [] || !IsCounted(trace[|trace| - 1]) then 0 else Streak(trace[..|trace| - 1]) + 1
  }

  /** An error is answered with 421 exactly when the errors so far, in a row or not, reach the limit. */
  ghost predicate CountDecides(p: Params, trace: seq<Event>) {
    forall i :: 0 <= i < |trace| && trace[i].Refused? ==>
      (trace[i].reply == TooManyErrors <==> IsCounted(trace[i]) && Counted(trace[..i + 1]) >= p.maxErrors)
  }

  predicate IsLimit(e: Event) {
    e.Refused? && e.reply == TooManyErrors
  }

  /** The 421 for errors is the last thing a connection does. */
  ghost predicate CountOk<H>(p: Params, c: Conn<H>) {
    && c.core.errors == Counted(c.core.trace) && CountDecides(p, c.core.trace)
    && forall i :: 0 <= i < |c.core.trace| && (i < |c.core.trace| - 1 || c.end != Some(Closed)) ==>
         !IsLimit(c.core.trace[i])
  }

  lemma CountGrows(p: Params, trace: seq<Event>, e: Event)
    requires CountDecides(p, trace)
    requires e.Refused? ==>
               (e.reply == TooManyErrors <==> IsCounted(e) && Counted(trace) + 1 >= p.maxErrors)
    ensures CountDecides(p, trace + [e])
    ensures Counted(trace + [e]) == Counted(trace) + if IsCounted(e) then 1 else 0
  {
    var longer := trace + [e];
    assert longer[..|trace|] == trace && longer[..|longer|] == longer;
    forall i | 0 <= i < |longer| && longer[i].Refused?
      ensures longer[i].reply == TooManyErrors <==> IsCounted(longer[i]) && Counted(longer[..i + 1]) >= p.maxErrors
    {
      if i < |trace| {
        assert longer[..i + 1] == trace[..i + 1];
      }
    }
  }

  lemma RequestCounts<H>(env: Env<H>, c: Conn<H>, request: Request)
    requires CountOk(env.params, c) && c.end == None
    ensures CountOk(env.params, OnRequest(env, c, request))
  {
    RequestAppends(env, c.core, request);
    CountGrows(env.params, c.core.trace, Answered(request, ReplyTo(env, c.core, request)));
  }

  lemma RequestAppends<H>(env: Env<H>, s: Core<H>, request: Request)
    ensures Applied(env, s, request).errors == s.errors
    ensures Applied(env, s, request).trace == s.trace + [Answered(request, ReplyTo(env, s, request))]
  {
  }

  lemma LineCounts<H>(env: Env<H>, c: Conn<H>, event: LineEvent)
    requires CountOk(env.params, c) && c.end == None
    ensures CountOk(env.params, OnLine(env, c, event))
  {
    var parsed := if event.TooLong? then Bad(ResponseTooLong) else env.parse(event.text);
    match parsed
    case Good(request) => RequestCounts(env, c, request);
    case Bad(e) =>
      CountGrows(env.params, c.core.trace, Refused(e, Erred(env, c.core, e).1));
  }

  lemma DoneCounts<H>(env: Env<H>, c: Conn<H>)
    requires CountOk(env.params, c) && c.end == None && c.core.mode.Collect?
    ensures CountOk(env.params, OnDone(env, c))
  {
    var t := Finished(env, c.core).0;
    CountGrows(env.params, c.core.trace, t.trace[|c.core.trace|]);
  }

  lemma {:induction false} FeedCounts<H>(env: Env<H>, c: Conn<H>, bytes: string)
    requires CountOk(env.params, c)
    ensures CountOk(env.params, Feed(env, c, bytes))
    decreases |bytes|
  {
    if bytes != [] {
      if c.end == None {
        var m := c.core.mode;
        if m == Command {
          var (line, event) := LineByte(c.line, bytes[0], env.params.lineLimit);
          if event.Some? {
            LineCounts(env, c.(line := line), event.value);
          }
        } else {
          var (next, kept, done) := DataByte(m.dot, bytes[0]);
          var mode := Settled(env.params.maxMessageSize, next, m.data + kept, m.discarding);
          if done {
            DoneCounts(env, c.(core := c.core.(mode := mode)));
          }
        }
      }
      FeedCounts(env, FeedByte(env, c, bytes[0]), bytes[1..]);
    }
  }

  /**
   On every connection, TLS included, the budget counts all rejected lines so far except
   over-long ones, and 421 answers one exactly when that total reaches the limit.
   */
  lemma AllErrorsCount<H>(env: Env<H>, handler: H, plain: string, handshake: bool, upgraded: string)
    ensures CountOk(env.params, Served(env, handler, plain, handshake, upgraded))
  {
    FeedCounts(env, Fresh(handler), plain);
    var c := Feed(env, Fresh(handler), plain);
    if c.end == Some(StartedTls) && handshake {
      FeedCounts(env, Upgraded(c), upgraded);
    }
  }

  /** From the first counted error on, nothing but counted errors. */
  ghost predicate InARow(trace: seq<Event>) {
    forall i, j :: 0 <= i < j < |trace| && IsCounted(trace[i]) ==> IsCounted(trace[j])
  }

  lemma {:induction false} StreakIsAllIff(trace: seq<Event>)
    ensures Streak(trace) <= Counted(trace)
    ensures Streak(trace) == Counted(trace) <==> InARow(trace)
    ensures Counted(trace) == 0 <==> forall i :: 0 <= i < |trace| ==> !IsCounted(trace[i])
    decreases |trace|
  {
    if trace != [] {
      var n := |trace| - 1;
      var front := trace[..n];
      StreakIsAllIff(front);
      assert forall i :: 0 <= i < n ==> front[i] == trace[i];
      if InARow(trace) {
        assert InARow(front);
      } else if IsCounted(trace[n]) {
        var i, j :| 0 <= i < j < |trace| && IsCounted(trace[i]) && !IsCounted(trace[j]);
        assert IsCounted(front[i]) && !IsCounted(front[j]);
      }
    }
  }

  lemma CountDecidesFront(p: Params, trace: seq<Event>)
    requires CountDecides(p, trace) && trace != []
    ensures CountDecides(p, trace[..|trace| - 1])
  {
    var front := trace[..|trace| - 1];
    forall i | 0 <= i < |front| && front[i].Refused?
      ensures front[i].reply == TooManyErrors <==> IsCounted(front[i]) && Counted(front[..i + 1]) >= p.maxErrors
    {
      assert front[..i + 1] == trace[..i + 1] && front[i] == trace[i];
    }
  }

  lemma {:induction false} BelowTheLimit(p: Params, trace: seq<Event>)
    requires CountDecides(p, trace) && p.maxErrors >= 1 && forall i :: 0 <= i < |trace| ==> !IsLimit(trace[i])
    ensures Counted(trace) < p.maxErrors
    decreases |trace|
  {
    if trace != [] {
      var n := |trace| - 1;
      assert trace[..n + 1] == trace;
      CountDecidesFront(p, trace);
      BelowTheLimit(p, trace[..n]);
    }
  }

  /**
   The setting is described as a number of consecutive errors. A connection closed with
   421 has made exactly that many errors, and would have been closed under that reading
   too exactly when nothing else came between them.
   */
  lemma ClosesUnderBothIff<H>(env: Env<H>, handler: H, plain: string, handshake: bool, upgraded: string)
    requires env.params.maxErrors >= 1
    requires var trace := Served(env, handler, plain, handshake, upgraded).core.trace;
             trace != [] && IsLimit(trace[|trace| - 1])
    ensures var trace := Served(env, handler, plain, handshake, upgraded).core.trace;
            && Counted(trace) == env.params.maxErrors
            && (Streak(trace) >= env.params.maxErrors <==> InARow(trace))
  {
    AllErrorsCount(env, handler, plain, handshake, upgraded);
    var trace := Served(env, handler, plain, handshake, upgraded).core.trace;
    var n := |trace| - 1;
    assert trace[..n + 1] == trace;
    CountDecidesFront(env.params, trace);
    BelowTheLimit(env.params, trace[..n]);
    StreakIsAllIff(trace);
  }

  /** Between two commands, and no two errors in a row so far. */
  ghost predicate Unhurried<H>(c: Conn<H>) {
    && c.end == None && c.core.mode == Command && c.line == ""
    && Streak(c.core.trace) == 0 && forall i :: 0 <= i <= |c.core.trace| ==> Streak(c.core.trace[..i]) <= 1
  }

  lemma PairCounts<H>(env: Env<H>, c: Conn<H>, bad: string, noop: string)
    requires IsBadLine(env, bad) && IsLine(env, noop) && env.parse(noop) == Good(Noop)
    requires Unhurried(c) && c.core.errors + 1 < env.params.maxErrors
    ensures var d := Feed(env, c, bad + noop); Unhurried(d) && d.core.errors == c.core.errors + 1
  {
    FeedConcat(env, c, bad, noop);
    BadLineCounts(env, c, bad);
    var d := Feed(env, c, bad);
    LineIsRead(env, d, noop);
    StreakGrows(c.core.trace, d.core.trace[|c.core.trace|]);
    StreakGrows(d.core.trace, Answered(Noop, Ok));
  }

  /** A rejected line and a NOOP, over and over. */
  lemma {:induction false} PairsCount<H>(env: Env<H>, c: Conn<H>, bad: string, noop: string, k: nat)
    requires IsBadLine(env, bad) && IsLine(env, noop) && env.parse(noop) == Good(Noop)
    requires Unhurried(c) && c.core.errors + k < env.params.maxErrors
    ensures var d := Feed(env, c, Repeated(bad + noop, k)); Unhurried(d) && d.core.errors == c.core.errors + k
    decreases k
  {
    if k > 0 {
      FeedConcat(env, c, bad + noop, Repeated(bad + noop, k - 1));
      PairCounts(env, c, bad, noop);
      PairsCount(env, Feed(env, c, bad + noop), bad, noop, k - 1);
    }
  }

  lemma StreakGrows(trace: seq<Event>, e: Event)
    requires Streak(trace) == 0 || !IsCounted(e)
    requires forall i :: 0 <= i <= |trace| ==> Streak(trace[..i]) <= 1
    ensures Streak(trace + [e]) == if IsCounted(e) then 1 else 0
    ensures forall i :: 0 <= i <= |trace| + 1 ==> Streak((trace + [e])[..i]) <= 1
  {
    var longer := trace + [e];
    assert longer[..|trace|] == trace && longer[..|longer|] == longer;
    forall i | 0 <= i <= |longer| ensures Streak(longer[..i]) <= 1 {
      if i <= |trace| {
        assert longer[..i] == trace[..i];
      }
    }
  }

  /** Errors that are never two in a row end the connection all the same. */
  lemma SpreadErrorsClose<H>(env: Env<H>, handler: H, bad: string, noop: string) returns (bytes: string)
    requires IsBadLine(env, bad) && IsLine(env, noop) && env.parse(noop) == Good(Noop) && env.params.maxErrors >= 2
    ensures var d := Feed(env, Fresh(handler), bytes);
            && d.end == Some(Closed) && d.out != [] && d.out[|d.out| - 1] == TooManyErrors
            && forall i :: 0 <= i <= |d.core.trace| ==> Streak(d.core.trace[..i]) <= 1
  {
    var c, k := Fresh(handler), env.params.maxErrors - 1;
    bytes := Repeated(bad + noop, k) + bad;
    PairsCount(env, c, bad, noop, k);
    FeedConcat(env, c, Repeated(bad + noop, k), bad);
    var d := Feed(env, c, Repeated(bad + noop, k));
    BadLineCounts(env, d, bad);
    StreakGrows(d.core.trace, Feed(env, d, bad).core.trace[|d.core.trace|]);
  }

  // ---- transactions ---------------------------------------------------------------------------

  /** The envelope as a client can tell it from its own commands and the replies. */
  datatype View = View(helo: string, sender: Option<string>, recipients: seq<string>)

  const BLANK := View("", None, [])

  function Follow(v: View, e: Event): View {
    match e
    case Answered(Ehlo(host), _) => View(host, None, [])
    case Answered(Helo(host), _) => View(host, None, [])
    case Answered(Mail(from, _), reply) => if reply == MailOk then v.(sender := Some(from)) else v
    case Answered(Rcpt(to), reply) => if reply == RcptOk then v.(recipients := v.recipients + [to]) else v
    case Answered(Rset, _) => v.(sender := None, recipients := [])
    case Answered(StartTls, reply) => if reply == ReadyForTls then BLANK else v
    case Answered(_, _) => v
    case Refused(_, _) => v
    case Delivered(_, _, _, _) => v.(sender := None, recipients := [])
    case Oversized(_) => v.(sender := None, recipients := [])
  }

  function ViewOf(trace: seq<Event>): View
    decreases |trace|
  {
    if trace == [] then BLANK else Follow(ViewOf(trace[..|trace| - 1]), trace[|trace| - 1])
  }

  /** A delivery carries the envelope the client built, complete and within the limits. */
  ghost predicate DeliveryOk(p: Params, v: View, e: Event) {
    e.Delivered? ==>
      && v.sender == Some(e.mail.mailFrom) && v.recipients == e.mail.recipients && v.helo == e.mail.helo
      && 0 < |e.mail.recipients| <= p.maxRecipients
      && |e.body| <= p.maxMessageSize && |e.body| <= |e.mail.raw| && e.mail.raw[|e.mail.raw| - |e.body|..] == e.body
      && e.reply == DeliveryReply(e.outcome)
  }

  ghost predicate TraceOk(p: Params, trace: seq<Event>) {
    forall i :: 0 <= i < |trace| ==> DeliveryOk(p, ViewOf(trace[..i]), trace[i])
  }

  ghost predicate CoreOk<H>(p: Params, s: Core<H>) {
    && IsSettled(p.maxMessageSize, s.mode)
    && |s.recipients| <= p.maxRecipients
    && (s.recipients != [] ==> s.mailFrom.Some?)
    && (s.mode.Collect? ==> s.recipients != [])
  }

  ghost predicate ConnOk<H>(p: Params, c: Conn<H>) {
    && TraceOk(p, c.core.trace) && CoreOk(p, c.core)
    && ViewOf(c.core.trace) == (if c.end == Some(StartedTls) then BLANK else Envelope(c.core))
    && (c.end == None ==> c.core.errors == 0 || c.core.errors < p.maxErrors)
  }

  lemma TraceGrows(p: Params, trace: seq<Event>, e: Event)
    requires TraceOk(p, trace) && DeliveryOk(p, ViewOf(trace), e)
    ensures TraceOk(p, trace + [e]) && ViewOf(trace + [e]) == Follow(ViewOf(trace), e)
  {
    var longer := trace + [e];
    assert longer[..|trace|] == trace;
    forall i | 0 <= i < |longer| ensures DeliveryOk(p, ViewOf(longer[..i]), longer[i]) {
      if i < |trace| {
        assert longer[..i] == trace[..i];
      }
    }
  }

  function Envelope<H>(s: Core<H>): View {
    View(s.helo, s.mailFrom, s.recipients)
  }

  lemma RequestFollows<H>(env: Env<H>, s: Core<H>, request: Request)
    ensures Follow(Envelope(s), Answered(request, ReplyTo(env, s, request))) ==
            if FlowOf(env, s, request) == Upgrade then BLANK else Envelope(Applied(env, s, request))
  {
  }

  lemma RequestKeepsCore<H>(env: Env<H>, s: Core<H>, request: Request)
    requires CoreOk(env.params, s) && s.mode == Command
    ensures CoreOk(env.params, Applied(env, s, request))
    ensures Applied(env, s, request).errors == s.errors
    ensures Applied(env, s, request).trace == s.trace + [Answered(request, ReplyTo(env, s, request))]
  {
  }

  lemma RequestKeeps<H>(env: Env<H>, c: Conn<H>, request: Request)
    requires ConnOk(env.params, c) && c.end == None && c.core.mode == Command
    ensures ConnOk(env.params, OnRequest(env, c, request))
  {
    RequestFollows(env, c.core, request);
    RequestKeepsCore(env, c.core, request);
    TraceGrows(env.params, c.core.trace, Answered(request, ReplyTo(env, c.core, request)));
  }

  lemma ErrorKeeps<H>(env: Env<H>, c: Conn<H>, e: SmtpError)
    requires ConnOk(env.params, c) && c.end == None && c.core.mode == Command
    ensures ConnOk(env.params, OnError(env, c, e))
  {
    TraceGrows(env.params, c.core.trace, Refused(e, Erred(env, c.core, e).1));
  }

  lemma DoneKeeps<H>(env: Env<H>, c: Conn<H>)
    requires ConnOk(env.params, c) && c.end == None && c.core.mode.Collect?
    ensures ConnOk(env.params, OnDone(env, c))
  {
    var s := c.core;
    if s.mode.discarding {
      TraceGrows(env.params, s.trace, Oversized(TooBig));
    } else {
      var mail := MailOf(env, s, s.mode.data);
      var outcome := env.deliver(s.handler, mail).1;
      assert mail.raw[|mail.raw| - |s.mode.data|..] == s.mode.data;
      TraceGrows(env.params, s.trace, Delivered(mail, s.mode.data, outcome, DeliveryReply(outcome)));
    }
  }

  lemma ByteKeeps<H>(env: Env<H>, c: Conn<H>, b: char)
    requires ConnOk(env.params, c)
    ensures ConnOk(env.params, FeedByte(env, c, b))
  {
    if c.end == None {
      if c.core.mode == Command {
        var (line, event) := LineByte(c.line, b, env.params.lineLimit);
        if event.Some? {
          var d := c.(line := line);
          var parsed := if event.value.TooLong? then Bad(ResponseTooLong) else env.parse(event.value.text);
          if parsed.Good? {
            RequestKeeps(env, d, parsed.request);
          } else {
            ErrorKeeps(env, d, parsed.error);
          }
        }
      } else {
        var m := c.core.mode;
        var (next, kept, done) := DataByte(m.dot, b);
        var d := c.(core := c.core.(mode := Settled(env.params.maxMessageSize, next, m.data + kept, m.discarding)));
        assert ConnOk(env.params, d);
        if done {
          DoneKeeps(env, d);
        }
      }
    }
  }

  lemma {:induction false} FeedKeeps<H>(env: Env<H>, c: Conn<H>, bytes: string)
    requires ConnOk(env.params, c)
    ensures ConnOk(env.params, Feed(env, c, bytes))
    decreases |bytes|
  {
    if bytes != [] {
      ByteKeeps(env, c, bytes[0]);
      FeedKeeps(env, FeedByte(env, c, bytes[0]), bytes[1..]);
    }
  }

  function Fresh<H>(handler: H): Conn<H> {
    Conn(Core(Command, "", None, [], 0, false, handler, []), "", [], None)
  }

  /** A whole connection: plaintext, and if it asked for TLS and got it, what came inside. */
  function Served<H>(env: Env<H>, handler: H, plain: string, handshake: bool, upgraded: string): Conn<H> {
    var c := Feed(env, Fresh(handler), plain);
    if c.end == Some(StartedTls) && handshake then Feed(env, Upgraded(c), upgraded) else c
  }

  /**
   Transaction integrity: on every connection each delivery carries exactly the sender
   and the accepted recipients since the last reset, none from an earlier
   transaction or from before TLS, and a body within the size limit.
   */
  lemma TransactionIntegrity<H>(env: Env<H>, handler: H, plain: string, handshake: bool, upgraded: string)
    ensures TraceOk(env.params, Served(env, handler, plain, handshake, upgraded).core.trace)
  {
    var c := Feed(env, Fresh(handler), plain);
    FeedKeeps(env, Fresh(handler), plain);
    if c.end == Some(StartedTls) && handshake {
      assert ConnOk(env.params, Upgraded(c)) by {
        UpgradeIsOpen(env, Fresh(handler), plain);
      }
      FeedKeeps(env, Upgraded(c), upgraded);
    }
  }

  /** An upgrade is asked for by a request, so the error budget is not used up. */
  lemma {:induction false} UpgradeIsOpen<H>(env: Env<H>, c: Conn<H>, bytes: string)
    requires c.end != Some(Closed) && (c.core.errors == 0 || c.core.errors < env.params.maxErrors)
    ensures var d := Feed(env, c, bytes);
            d.end != Some(Closed) ==> d.core.errors == 0 || d.core.errors < env.params.maxErrors
    decreases |bytes|
  {
    if bytes != [] {
      var d := FeedByte(env, c, bytes[0]);
      if d.end == Some(Closed) {
        FeedEnded(env, d, bytes[1..]);
      } else {
        UpgradeIsOpen(env, d, bytes[1..]);
      }
    }
  }

  // ---- messages ------------------------------------------------------------------------------------

  /**
   A stuffed body of whole lines, sent after the go-ahead, is delivered as it was,
   exactly when it is within the limit; otherwise nothing of it is.
   */
  lemma MessageArrivesIff<H>(env: Env<H>, c: Conn<H>, body: string)
    requires c.end == None && c.core.mode == Collect(LineStart, "", false) && EndOf(LineStart, body) == LineStart
    ensures var d := Feed(env, c, Stuffed(LineStart, body) + ".\r\n");
            && d.core.mode == Command && |d.core.trace| == |c.core.trace| + 1
            && var last := d.core.trace[|c.core.trace|];
               if |body| <= env.params.maxMessageSize
               then last.Delivered? && last.body == body && last.mail == MailOf(env, c.core, body)
                    && d.core.handler == env.deliver(c.core.handler, last.mail).0
                    && d.out == c.out + [DeliveryReply(last.outcome)]
               else last == Oversized(TooBig) && d.core.handler == c.core.handler && d.out == c.out + [TooBig]
  {
    var sent := Stuffed(LineStart, body) + ".\r\n";
    DotStuffingRoundTrip(body, "");
    assert sent + "" == sent;
    FeedData(env, c, sent);
    assert "" + body == body && sent[|sent|..] == "";
  }
}
