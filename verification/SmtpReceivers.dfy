/**
 The two receivers the SMTP session is built on, which the repository takes from
 a library: a line receiver (section 4.1.1 of RFC 5321) and a receiver of
 dot-stuffed message data (section 4.5.2). Bytes are characters below 256.
 Both take a read as far as it is theirs, keep what is incomplete, and hand out
 only bytes that stay.
 */
module SmtpReceivers {
  import opened Text

  // ---- command lines ------------------------------------------------------------

  datatype LineEvent = Line(text: string) | TooLong

  /** One byte more: a line feed completes the line, and a line that outgrows `limit` is given up. */
  function LineByte(line: string, b: char, limit: nat): (string, Option<LineEvent>) {
    if b == '\n' then ("", Some(Line(line + [b])))
    else if |line| >= limit then ("", Some(TooLong))
    else (line + [b], None)
  }

  /** What a read yields: the unfinished line, how many bytes were used, and the event that stopped it. */
  function TakeLine(line: string, bytes: string, limit: nat): (string, nat, Option<LineEvent>)
    decreases |bytes|
  {
    if bytes == [] then (line, 0, None)
    else
      var (next, event) := LineByte(line, bytes[0], limit);
      if event.Some? then (next, 1, event)
      else var (last, used, later) := TakeLine(next, bytes[1..], limit); (last, used + 1, later)
  }

  /** The streaming law: only a read used up ends without an event, and an event uses a byte. */
  lemma {:induction false} LineLaw(line: string, bytes: string, limit: nat)
    ensures var (last, used, event) := TakeLine(line, bytes, limit);
            && used <= |bytes|
            && (event.None? ==> used == |bytes|) && (event.Some? ==> used >= 1 && last == "")
    decreases |bytes|
  {
    if bytes != [] {
      LineLaw(LineByte(line, bytes[0], limit).0, bytes[1..], limit);
    }
  }

  /** `RequestReceiver::ingest` without the parsing. */
  method IngestLine(line: string, bytes: string, from: nat, limit: nat)
    returns (last: string, at: nat, event: Option<LineEvent>)
    requires from <= |bytes|
    ensures from <= at <= |bytes|
    ensures (last, at - from, event) == TakeLine(line, bytes[from..], limit)
  {
    last, at, event := line, from, None;
    while at < |bytes|
      invariant from <= at <= |bytes|
      invariant var (l, used, e) := TakeLine(last, bytes[at..], limit);
                (l, at - from + used, e) == TakeLine(line, bytes[from..], limit)
    {
      assert bytes[at..][1..] == bytes[at + 1..];
      var (next, e) := LineByte(last, bytes[at], limit);
      last, at := next, at + 1;
      if e.Some? {
        event := e;
        return;
      }
    }
  }

  // ---- message data ------------------------------------------------------------------

  /** Where the receiver is in a line: a dot at the start of a line is held back until it is known to stay out. */
  datatype Dot = LineStart | Dotted | DottedCR | Middle | CR

  /** One byte: the next state, the bytes now known to stay, and whether the data is complete. */
  function DataByte(dot: Dot, b: char): (Dot, string, bool) {
    match dot
    case LineStart =>
      if b == '.' then (Dotted, "", false) else if b == '\r' then (CR, "\r", false) else (Middle, [b], false)
    case Dotted =>
      if b == '\r' then (DottedCR, "", false) else (Middle, [b], false)
    case DottedCR =>
      if b == '\n' then (LineStart, "", true)
      else if b == '\r' then (CR, "\r\r", false)
      else (Middle, "\r" + [b], false)
    case Middle =>
      if b == '\r' then (CR, "\r", false) else (Middle, [b], false)
    case CR =>
      if b == '\n' then (LineStart, "\n", false) else if b == '\r' then (CR, "\r", false) else (Middle, [b], false)
  }

  datatype Taken = Taken(dot: Dot, data: string, used: nat, done: bool)

  function TakeData(dot: Dot, bytes: string): Taken
    decreases |bytes|
  {
    if bytes == [] then Taken(dot, "", 0, false)
    else
      var (next, kept, done) := DataByte(dot, bytes[0]);
      if done then Taken(next, kept, 1, true)
      else var rest := TakeData(next, bytes[1..]); Taken(rest.dot, kept + rest.data, rest.used + 1, rest.done)
  }

  lemma {:induction false} DataLaw(dot: Dot, bytes: string)
    ensures var t := TakeData(dot, bytes);
            t.used <= |bytes| && (!t.done ==> t.used == |bytes|) && (t.done ==> t.used >= 1)
    decreases |bytes|
  {
    if bytes != [] {
      DataLaw(DataByte(dot, bytes[0]).0, bytes[1..]);
    }
  }

  /** `DataReceiver::ingest`: appends to the message what stays. */
  method IngestData(dot: Dot, bytes: string, from: nat, data: string)
    returns (last: Dot, at: nat, grown: string, done: bool)
    requires from <= |bytes|
    ensures from <= at <= |bytes|
    ensures var t := TakeData(dot, bytes[from..]);
            last == t.dot && at == from + t.used && grown == data + t.data && done == t.done
  {
    last, at, grown, done := dot, from, data, false;
    while at < |bytes|
      invariant from <= at <= |bytes| && !done
      invariant var t, rest := TakeData(dot, bytes[from..]), TakeData(last, bytes[at..]);
                && rest.dot == t.dot && at + rest.used == from + t.used
                && grown + rest.data == data + t.data && rest.done == t.done
    {
      assert bytes[at..][1..] == bytes[at + 1..];
      var (next, kept, complete) := DataByte(last, bytes[at]);
      last, at, grown := next, at + 1, grown + kept;
      if complete {
        done := true;
        return;
      }
    }
  }

  // ---- what a client sends -----------------------------------------------------------------

  /** Where in a line a body stands after a character; a dot is never held back here. */
  function Moved(dot: Dot, b: char): Dot {
    if b == '\r' then CR else if b == '\n' && dot == CR then LineStart else Middle
  }

  function EndOf(dot: Dot, body: string): Dot
    decreases |body|
  {
    if body == [] then dot else EndOf(Moved(dot, body[0]), body[1..])
  }

  /** Dot-stuffing: one more dot before a line's leading dot. */
  function Stuffed(dot: Dot, body: string): string
    decreases |body|
  {
    if body == [] then ""
    else StuffedByte(dot, body[0]) + Stuffed(Moved(dot, body[0]), body[1..])
  }

  function StuffedByte(dot: Dot, b: char): string {
    if dot == LineStart && b == '.' then ".." else [b]
  }

  lemma TakeStuffedByte(dot: Dot, b: char, more: string)
    requires dot in [LineStart, Middle, CR]
    ensures var t, rest := TakeData(dot, StuffedByte(dot, b) + more), TakeData(Moved(dot, b), more);
            t == Taken(rest.dot, [b] + rest.data, rest.used + |StuffedByte(dot, b)|, rest.done)
  {
    var s := StuffedByte(dot, b) + more;
    if dot == LineStart && b == '.' {
      assert s[1..] == ['.'] + more && s[1..][1..] == more;
      var second := TakeData(Dotted, s[1..]);
      var rest := TakeData(Middle, more);
      assert second == Taken(rest.dot, ['.'] + rest.data, rest.used + 1, rest.done);
    } else {
      assert s[1..] == more;
    }
  }

  lemma TakeEnd(rest: string)
    ensures TakeData(LineStart, ".\r\n" + rest) == Taken(LineStart, "", 3, true)
  {
    var s := ".\r\n" + rest;
    assert s[1..] == "\r\n" + rest && s[1..][1..] == "\n" + rest;
    assert TakeData(DottedCR, s[1..][1..]) == Taken(LineStart, "", 1, true);
    assert TakeData(Dotted, s[1..]) == Taken(LineStart, "", 2, true);
  }

  lemma Regroup(a: string, b: string, c: string)
    ensures (a + b) + c == a + (b + c)
  {
  }

  lemma {:induction false} TakeStuffed(dot: Dot, body: string, tail: string)
    requires dot in [LineStart, Middle, CR] && EndOf(dot, body) == LineStart
    requires TakeData(LineStart, tail) == Taken(LineStart, "", 3, true)
    ensures TakeData(dot, Stuffed(dot, body) + tail) == Taken(LineStart, body, |Stuffed(dot, body)| + 3, true)
    decreases |body|
  {
    if body == [] {
      assert "" + tail == tail;
    } else {
      var next := Moved(dot, body[0]);
      var more := Stuffed(next, body[1..]) + tail;
      TakeStuffed(next, body[1..], tail);
      TakeStuffedByte(dot, body[0], more);
      Regroup(StuffedByte(dot, body[0]), Stuffed(next, body[1..]), tail);
      assert [body[0]] + body[1..] == body;
    }
  }

  /**
   A stuffed body made of whole lines is received as it was, the final dot ends it,
   and whatever is pipelined behind stays unread.
   */
  lemma DotStuffingRoundTrip(body: string, rest: string)
    requires EndOf(LineStart, body) == LineStart
    ensures var sent := Stuffed(LineStart, body) + ".\r\n";
            var t := TakeData(LineStart, sent + rest);
            t.done && t.data == body && t.used == |sent|
  {
    TakeEnd(rest);
    TakeStuffed(LineStart, body, ".\r\n" + rest);
    Regroup(Stuffed(LineStart, body), ".\r\n", rest);
  }
}
