/**
 Reading one calendar invitation out of iCalendar text
 (crates/owney-ai/src/ics.rs, after RFC 5545), and the printed events it reads back.
 */
module Ics {
  import opened Text
  import Civil

  // ---- characters ----------------------------------------------------------------

  /** Unicode White_Space, as `str::trim` has it. */
  predicate IsWhite(c: char) {
    || '\t' <= c <= '\r' || c == ' ' || c == '\U{85}' || c == '\U{A0}' || c == '\U{1680}'
    || '\U{2000}' <= c <= '\U{200A}' || c == '\U{2028}' || c == '\U{2029}' || c == '\U{202F}'
    || c == '\U{205F}' || c == '\U{3000}'
  }

  predicate IsBreak(c: char) {
    c == '\r' || c == '\n'
  }

  predicate IsFoldChar(c: char) {
    c == ' ' || c == '\t'
  }

  function Upper(c: char): char {
    if 'a' <= c <= 'z' then (c as int - 32) as char else c
  }

  /** `to_ascii_uppercase`. */
  function Uppercase(s: string): (u: string)
    ensures |u| == |s|
  {
    seq(|s|, i requires 0 <= i < |s| => Upper(s[i]))
  }

  function TrimStart(s: string, white: char -> bool): string {
    if s != [] && white(s[0]) then TrimStart(s[1..], white) else s
  }

  function TrimEnd(s: string, white: char -> bool): string {
    if s != [] && white(s[|s| - 1]) then TrimEnd(s[..|s| - 1], white) else s
  }

  function TrimWhere(s: string, white: char -> bool): string {
    TrimEnd(TrimStart(s, white), white)
  }

  function Trim(s: string): string {
    TrimWhere(s, IsWhite)
  }

  // ---- unfolding -----------------------------------------------------------------------

  /** `split(['\r', '\n'])`. */
  function Pieces(s: string): (pieces: seq<string>)
    ensures pieces != []
  {
    if s == [] then [""]
    else
      var rest := Pieces(s[1..]);
      if IsBreak(s[0]) then [""] + rest else [[s[0]] + rest[0]] + rest[1..]
  }

  /** One more raw line: empty ones are dropped, and one that starts with blank space continues the last line. */
  function Joined(lines: seq<string>, raw: string): seq<string> {
    if raw == "" then lines
    else if IsFoldChar(raw[0]) && lines != [] then lines[..|lines| - 1] + [lines[|lines| - 1] + raw[1..]]
    else lines + [raw]
  }

  function JoinAll(lines: seq<string>, pieces: seq<string>): seq<string>
    decreases |pieces|
  {
    if pieces == [] then lines else JoinAll(Joined(lines, pieces[0]), pieces[1..])
  }

  function Unfolded(ics: string): seq<string> {
    JoinAll([], Pieces(ics))
  }

  method Unfold(ics: string) returns (lines: seq<string>)
    ensures lines == Unfolded(ics)
  {
    lines := [];
    var pieces := Pieces(ics);
    for i := 0 to |pieces|
      invariant JoinAll(lines, pieces[i..]) == Unfolded(ics)
    {
      var raw := pieces[i];
      assert pieces[i..][1..] == pieces[i + 1..];
      if raw == "" {
        continue;
      }
      if IsFoldChar(raw[0]) && lines != [] {
        assert lines[|lines| - 1 := lines[|lines| - 1] + raw[1..]] == Joined(lines, raw);
        lines := lines[|lines| - 1 := lines[|lines| - 1] + raw[1..]];
        continue;
      }
      lines := lines + [raw];
    }
  }

  // ---- properties ------------------------------------------------------------------------

  datatype Property = Property(name: string, params: string, value: string)

  /** The first colon outside double quotes. */
  function ColonAt(s: string, inQuotes: bool): (at: Option<nat>)
    ensures at.Some? ==> at.value < |s| && s[at.value] == ':'
  {
    if s == [] then None
    else if s[0] == ':' && !inQuotes then Some(0)
    else
      match ColonAt(s[1..], if s[0] == '"' then !inQuotes else inQuotes)
      case None => None
      case Some(i) => Some(i + 1)
  }

  /** The part before the first semicolon, and after it if there is one. */
  function NameAndParams(head: string): (r: (string, string)) {
    if head == [] then ("", "")
    else if head[0] == ';' then ("", head[1..])
    else var (name, params) := NameAndParams(head[1..]); ([head[0]] + name, params)
  }

  function PropertyOf(line: string): Option<Property> {
    match ColonAt(line, false)
    case None => None
    case Some(colon) =>
      Some(PropertyAt(line, colon))
  }

  /** The parts of a line with its colon at this place. */
  function PropertyAt(line: string, colon: nat): Property
    requires colon < |line|
  {
    var (name, params) := NameAndParams(line[..colon]);
    Property(Uppercase(Trim(name)), params, Trim(line[colon + 1..]))
  }

  method SplitProperty(line: string) returns (r: Option<Property>)
    ensures r == PropertyOf(line)
  {
    var inQuotes := false;
    for i := 0 to |line|
      invariant ColonAt(line, false) ==
                match ColonAt(line[i..], inQuotes) { case None => None case Some(j) => Some(i + j) }
    {
      assert line[i..][1..] == line[i + 1..];
      if line[i] == '"' {
        inQuotes := !inQuotes;
      } else if line[i] == ':' && !inQuotes {
        assert ColonAt(line, false) == Some(i);
        return Some(PropertyAt(line, i));
      }
    }
    r := None;
  }

  function Unescaped(s: string): string {
    if s == [] then ""
    else if s[0] != '\\' then [s[0]] + Unescaped(s[1..])
    else if |s| == 1 then "\\"
    else [if s[1] == 'n' || s[1] == 'N' then '\n' else s[1]] + Unescaped(s[2..])
  }

  lemma Shift(out: string, c: char, rest: string)
    ensures out + ([c] + rest) == (out + [c]) + rest
  {
  }

  method Unescape(value: string) returns (out: string)
    ensures out == Unescaped(value)
  {
    out := "";
    var i := 0;
    while i < |value|
      invariant 0 <= i <= |value| && out + Unescaped(value[i..]) == Unescaped(value)
    {
      ghost var rest := value[i..];
      var c := value[i];
      i := i + 1;
      assert rest[1..] == value[i..];
      if c != '\\' {
        Shift(out, c, Unescaped(value[i..]));
        out := out + [c];
        continue;
      }
      if i == |value| {
        assert |rest| == 1 && value[i..] == "";
        out := out + "\\";
      } else {
        var e := if value[i] == 'n' || value[i] == 'N' then '\n' else value[i];
        i := i + 1;
        assert rest[2..] == value[i..];
        Shift(out, e, Unescaped(value[i..]));
        out := out + [e];
      }
    }
  }

  // ---- times -------------------------------------------------------------------------------

  /** `YYYYMMDDTHHMMSSZ`, or `YYYYMMDD` as midnight. Seconds and the length of the month go unchecked. */
  function UtcEpoch(value: string): Option<int> {
    if |value| != 8 && !(|value| == 16 && value[8] == 'T' && value[15] == 'Z') then None
    else
      var date, time := value[..8], if |value| == 8 then "000000" else value[9..15];
      if !AllDigits(date) || !AllDigits(time) then None
      else
        var year, month, day := Number(date[..4]), Number(date[4..6]), Number(date[6..8]);
        var hour, minute, second := Number(time[..2]), Number(time[2..4]), Number(time[4..6]);
        if !(1 <= month <= 12) || !(1 <= day <= 31) || hour > 23 || minute > 59 then None
        else Some(Civil.DaysFromCivil(year, month, day) * 86_400 + hour * 3_600 + minute * 60 + second)
  }

  // ---- the invitation --------------------------------------------------------------------

  datatype Invite = Invite(
    kind: Option<string>,
    uid: Option<string>,
    summary: Option<string>,
    location: Option<string>,
    organizer: Option<string>,
    start: Option<string>,
    end: Option<string>,
    startAt: Option<int>,
    endAt: Option<int>)

  datatype Progress = Progress(inEvent: bool, sawEvent: bool, stopped: bool, found: Invite)

  const NOTHING := Invite(None, None, None, None, None, None, None, None, None)

  predicate IsEvent(value: string) {
    Uppercase(value) == "VEVENT"
  }

  /** One property outside an event, or inside the first one. */
  function Took(p: Progress, property: Property): Progress {
    var name, value, found := property.name, property.value, p.found;
    if !p.inEvent then
      if name == "BEGIN" && IsEvent(value) then
        if p.sawEvent then p.(stopped := true) else p.(inEvent := true, sawEvent := true)
      else if name == "METHOD" then p.(found := found.(kind := Some(Uppercase(value))))
      else p
    else if name == "END" && IsEvent(value) then p.(inEvent := false)
    else if name == "UID" then p.(found := found.(uid := Some(value)))
    else if name == "SUMMARY" then p.(found := found.(summary := Some(Unescaped(value))))
    else if name == "LOCATION" then p.(found := found.(location := Some(Unescaped(value))))
    else if name == "ORGANIZER" then p.(found := found.(organizer := Some(value)))
    else if name == "DTSTART" then p.(found := found.(start := Some(value), startAt := UtcEpoch(value)))
    else if name == "DTEND" then p.(found := found.(end := Some(value), endAt := UtcEpoch(value)))
    else p
  }

  function Read(p: Progress, line: string): Progress {
    match PropertyOf(line)
    case None => p
    case Some(property) => Took(p, property)
  }

  function ReadAll(p: Progress, lines: seq<string>): Progress
    decreases |lines|
  {
    if lines == [] || p.stopped then p else ReadAll(Read(p, lines[0]), lines[1..])
  }

  function Parsed(ics: string): Option<Invite> {
    var end := ReadAll(Progress(false, false, false, NOTHING), Unfolded(ics));
    if end.sawEvent then Some(end.found) else None
  }

  function EpochOf(value: Option<string>): Option<int> {
    if value.Some? then UtcEpoch(value.value) else None
  }

  /** The JSON object built at the end from what the lines left. */
  function Gathered(kind: Option<string>, uid: Option<string>, summary: Option<string>, location: Option<string>,
                    organizer: Option<string>, start: Option<string>, end: Option<string>): Invite
  {
    Invite(kind, uid, summary, location, organizer, start, end, EpochOf(start), EpochOf(end))
  }

  method ParseInvite(ics: string) returns (r: Option<Invite>)
    ensures r == Parsed(ics)
  {
    var lines := Unfold(ics);
    var inEvent, sawEvent, i := false, false, 0;
    var kind: Option<string> := None;
    var uid, summary, location, organizer, dtstart, dtend := kind, kind, kind, kind, kind, kind;
    while i < |lines|
      invariant 0 <= i <= |lines|
      invariant ReadAll(Progress(inEvent, sawEvent, false,
                                 Gathered(kind, uid, summary, location, organizer, dtstart, dtend)), lines[i..]) ==
                ReadAll(Progress(false, false, false, NOTHING), lines)
    {
      assert lines[i..][1..] == lines[i + 1..];
      var split := SplitProperty(lines[i]);
      i := i + 1;
      if split.None? {
        continue;
      }
      var name, value := split.value.name, split.value.value;
      if !inEvent {
        if name == "BEGIN" && IsEvent(value) {
          if sawEvent {
            break;
          }
          inEvent := true;
          sawEvent := true;
        } else if name == "METHOD" {
          kind := Some(Uppercase(value));
        }
      } else if name == "END" && IsEvent(value) {
        inEvent := false;
      } else if name == "UID" {
        uid := Some(value);
      } else if name == "SUMMARY" {
        var text := Unescape(value);
        summary := Some(text);
      } else if name == "LOCATION" {
        var text := Unescape(value);
        location := Some(text);
      } else if name == "ORGANIZER" {
        organizer := Some(value);
      } else if name == "DTSTART" {
        dtstart := Some(value);
      } else if name == "DTEND" {
        dtend := Some(value);
      }
    }
    if !sawEvent {
      return None;
    }
    r := Some(Gathered(kind, uid, summary, location, organizer, dtstart, dtend));
  }

  // ---- printing: TEXT values -------------------------------------------------------------

  function EscapeChar(c: char): string {
    match c
    case '\\' => "\\\\"
    case ';' => "\\;"
    case ',' => "\\,"
    case '\n' => "\\n"
    case _ => [c]
  }

  /** TEXT escaping, section 3.3.11 of RFC 5545. */
  function Escape(s: string): string {
    if s == [] then "" else EscapeChar(s[0]) + Escape(s[1..])
  }

  predicate NeedsEscape(c: char) {
    c == '\\' || c == ';' || c == ',' || c == '\n'
  }

  lemma EscapeShape(c: char)
    ensures if NeedsEscape(c) then EscapeChar(c) == ['\\', if c == '\n' then 'n' else c] else EscapeChar(c) == [c]
  {
  }

  lemma UnescapeOne(c: char, rest: string)
    ensures Unescaped(EscapeChar(c) + rest) == [c] + Unescaped(rest)
  {
    var s := EscapeChar(c) + rest;
    EscapeShape(c);
    if NeedsEscape(c) {
      assert s[0] == '\\' && s[1] == EscapeChar(c)[1] && s[2..] == rest;
    } else {
      assert s[0] == c && s[1..] == rest;
    }
  }

  lemma {:induction false} UnescapeInverts(s: string)
    ensures Unescaped(Escape(s)) == s
  {
    if s != [] {
      UnescapeInverts(s[1..]);
      UnescapeOne(s[0], Escape(s[1..]));
      assert [s[0]] + s[1..] == s;
    }
  }

  /** White space that stays white space when escaped. */
  predicate IsBareWhite(c: char) {
    IsWhite(c) && c != '\n'
  }

  function Stripped(s: string): string {
    TrimWhere(s, IsBareWhite)
  }

  lemma {:induction false} EscapeAppends(s: string, c: char)
    ensures Escape(s + [c]) == Escape(s) + EscapeChar(c)
  {
    if s == [] {
      assert [c][1..] == [];
    } else {
      EscapeAppends(s[1..], c);
      assert (s + [c])[1..] == s[1..] + [c];
    }
  }

  lemma {:induction false} TrimStartEscape(s: string)
    ensures TrimStart(Escape(s), IsWhite) == Escape(TrimStart(s, IsBareWhite))
  {
    if s != [] && IsBareWhite(s[0]) {
      TrimStartEscape(s[1..]);
      assert Escape(s)[1..] == Escape(s[1..]);
    }
  }

  lemma EscapedEdge(c: char)
    ensures EscapeChar(c) != "" && (IsWhite(EscapeChar(c)[|EscapeChar(c)| - 1]) <==> IsBareWhite(c))
    ensures IsBareWhite(c) ==> EscapeChar(c) == [c]
  {
  }

  lemma TrimEndOne(s: string, c: string, white: char -> bool)
    requires c != "" && (white(c[|c| - 1]) ==> |c| == 1)
    ensures TrimEnd(s + c, white) == if white(c[|c| - 1]) then TrimEnd(s, white) else s + c
  {
    assert (s + c)[|s + c| - 1] == c[|c| - 1];
    if |c| == 1 {
      assert (s + c)[..|s + c| - 1] == s;
    }
  }

  lemma {:induction false} TrimEndEscape(s: string)
    ensures TrimEnd(Escape(s), IsWhite) == Escape(TrimEnd(s, IsBareWhite))
  {
    if s != [] {
      var front, c := s[..|s| - 1], s[|s| - 1];
      assert s == front + [c];
      EscapeAppends(front, c);
      EscapedEdge(c);
      TrimEndOne(Escape(front), EscapeChar(c), IsWhite);
      TrimEndOne(front, [c], IsBareWhite);
      TrimEndEscape(front);
    }
  }

  lemma TrimEscape(s: string)
    ensures Trim(Escape(s)) == Escape(Stripped(s))
  {
    TrimStartEscape(s);
    TrimEndEscape(TrimStart(s, IsBareWhite));
  }

  // ---- printing: folded lines --------------------------------------------------------------

  /** A content line cut at positive positions: the first part, then parts that each begin with blank space. */
  datatype Folded = Folded(first: string, rest: seq<string>)

  predicate NoBreaks(s: string) {
    '\r' !in s && '\n' !in s
  }

  function Continued(rest: seq<string>): string {
    if rest == [] || rest[0] == "" then "" else rest[0][1..] + Continued(rest[1..])
  }

  ghost predicate Folds(f: Folded, line: string) {
    && f.first != ""
    && (forall i :: 0 <= i < |f.rest| ==> f.rest[i] != "" && IsFoldChar(f.rest[i][0]))
    && line == f.first + Continued(f.rest)
  }

  /** Every piece of the text is ended by the same line end. */
  function PrintPieces(pieces: seq<string>, eol: string): string {
    if pieces == [] then "" else pieces[0] + eol + PrintPieces(pieces[1..], eol)
  }

  function PiecesOf(folded: seq<Folded>): seq<string> {
    if folded == [] then [] else [folded[0].first] + folded[0].rest + PiecesOf(folded[1..])
  }

  predicate IsEol(eol: string) {
    eol == "\r\n" || eol == "\n" || eol == "\r"
  }

  lemma {:induction false} PiecesOfPiece(piece: string, c: char, rest: string)
    requires NoBreaks(piece) && IsBreak(c)
    ensures Pieces(piece + [c] + rest) == [piece] + Pieces(rest)
  {
    var s := piece + [c] + rest;
    if piece == [] {
      assert s[1..] == rest;
    } else {
      assert s[1..] == piece[1..] + [c] + rest;
      PiecesOfPiece(piece[1..], c, rest);
      assert [piece[0]] + piece[1..] == piece;
    }
  }

  lemma {:induction false} JoinAllAppends(lines: seq<string>, a: seq<string>, b: seq<string>)
    ensures JoinAll(lines, a + b) == JoinAll(JoinAll(lines, a), b)
    decreases |a|
  {
    if a == [] {
      assert a + b == b;
    } else {
      assert (a + b)[1..] == a[1..] + b;
      JoinAllAppends(Joined(lines, a[0]), a[1..], b);
    }
  }

  /** A line end of two characters only adds an empty piece, which is dropped. */
  lemma {:induction false} PrintedPieces(lines: seq<string>, pieces: seq<string>, eol: string)
    requires IsEol(eol) && forall i :: 0 <= i < |pieces| ==> NoBreaks(pieces[i])
    ensures JoinAll(lines, Pieces(PrintPieces(pieces, eol))) == JoinAll(lines, pieces)
    decreases |pieces|
  {
    if pieces == [] {
      assert [""][1..] == [];
    } else {
      var rest := PrintPieces(pieces[1..], eol);
      var next := Joined(lines, pieces[0]);
      if eol == "\r\n" {
        assert pieces[0] + eol + rest == pieces[0] + ['\r'] + ("" + ['\n'] + rest);
        PiecesOfPiece(pieces[0], '\r', "" + ['\n'] + rest);
        PiecesOfPiece("", '\n', rest);
        assert ([""] + Pieces(rest))[1..] == Pieces(rest);
        assert JoinAll(next, [""] + Pieces(rest)) == JoinAll(next, Pieces(rest));
        assert ([pieces[0]] + ([""] + Pieces(rest)))[1..] == [""] + Pieces(rest);
      } else {
        PiecesOfPiece(pieces[0], eol[0], rest);
        assert eol == [eol[0]];
        assert ([pieces[0]] + Pieces(rest))[1..] == Pieces(rest);
      }
      PrintedPieces(next, pieces[1..], eol);
    }
  }

  lemma {:induction false} JoinContinued(lines: seq<string>, line: string, rest: seq<string>)
    requires forall i :: 0 <= i < |rest| ==> rest[i] != "" && IsFoldChar(rest[i][0])
    ensures JoinAll(lines + [line], rest) == lines + [line + Continued(rest)]
    decreases |rest|
  {
    if rest == [] {
      assert line + "" == line;
    } else {
      assert Joined(lines + [line], rest[0]) == lines + [line + rest[0][1..]];
      JoinContinued(lines, line + rest[0][1..], rest[1..]);
      assert line + rest[0][1..] + Continued(rest[1..]) == line + Continued(rest);
    }
  }

  lemma {:induction false} JoinFolded(before: seq<string>, folded: seq<Folded>, lines: seq<string>)
    requires |folded| == |lines| && forall i :: 0 <= i < |lines| ==>
               Folds(folded[i], lines[i]) && lines[i] != "" && !IsFoldChar(lines[i][0])
    ensures JoinAll(before, PiecesOf(folded)) == before + lines
    decreases |lines|
  {
    if lines == [] {
      assert before + [] == before;
    } else {
      var f := folded[0];
      var tail := PiecesOf(folded[1..]);
      assert Folds(f, lines[0]) && f.first[0] == lines[0][0];
      assert [f.first] + f.rest + tail == [f.first] + (f.rest + tail);
      assert ([f.first] + (f.rest + tail))[1..] == f.rest + tail;
      assert Joined(before, f.first) == before + [f.first];
      JoinAllAppends(before + [f.first], f.rest, tail);
      JoinContinued(before, f.first, f.rest);
      JoinFolded(before + [lines[0]], folded[1..], lines[1..]);
      assert before + [lines[0]] + lines[1..] == before + lines;
    }
  }

  lemma {:induction false} FoldedPiecesHaveNoBreaks(folded: seq<Folded>, i: nat)
    requires forall k :: 0 <= k < |folded| ==> NoBreaks(folded[k].first)
    requires forall k, j :: 0 <= k < |folded| && 0 <= j < |folded[k].rest| ==> NoBreaks(folded[k].rest[j])
    requires i < |PiecesOf(folded)|
    ensures NoBreaks(PiecesOf(folded)[i])
    decreases |folded|
  {
    var head := [folded[0].first] + folded[0].rest;
    if i >= |head| {
      FoldedPiecesHaveNoBreaks(folded[1..], i - |head|);
    }
  }

  lemma {:induction false} PartsHaveNoBreaks(rest: seq<string>)
    requires forall i :: 0 <= i < |rest| ==> rest[i] != "" && IsFoldChar(rest[i][0])
    requires NoBreaks(Continued(rest))
    ensures forall i :: 0 <= i < |rest| ==> NoBreaks(rest[i])
    decreases |rest|
  {
    if rest != [] {
      assert forall c :: c in rest[0][1..] ==> c in Continued(rest);
      assert forall c :: c in Continued(rest[1..]) ==> c in Continued(rest);
      PartsHaveNoBreaks(rest[1..]);
      assert rest[0] == [rest[0][0]] + rest[0][1..];
    }
  }

  lemma CutsHaveNoBreaks(f: Folded, line: string)
    requires Folds(f, line) && NoBreaks(line)
    ensures NoBreaks(f.first) && forall i :: 0 <= i < |f.rest| ==> NoBreaks(f.rest[i])
  {
    assert forall c :: c in f.first ==> c in line;
    assert forall c :: c in Continued(f.rest) ==> c in line;
    PartsHaveNoBreaks(f.rest);
  }

  /** Unfolding undoes any folding at positive positions, with any of the three line ends. */
  lemma UnfoldInvertsFold(folded: seq<Folded>, lines: seq<string>, eol: string)
    requires IsEol(eol) && |folded| == |lines| && forall i :: 0 <= i < |lines| ==> Folds(folded[i], lines[i])
    requires forall i :: 0 <= i < |lines| ==> lines[i] != "" && NoBreaks(lines[i]) && !IsFoldChar(lines[i][0])
    ensures Unfolded(PrintPieces(PiecesOf(folded), eol)) == lines
  {
    forall k | 0 <= k < |folded|
      ensures NoBreaks(folded[k].first) && forall j :: 0 <= j < |folded[k].rest| ==> NoBreaks(folded[k].rest[j])
    {
      CutsHaveNoBreaks(folded[k], lines[k]);
    }
    forall i | 0 <= i < |PiecesOf(folded)| ensures NoBreaks(PiecesOf(folded)[i]) {
      FoldedPiecesHaveNoBreaks(folded, i);
    }
    PrintedPieces([], PiecesOf(folded), eol);
    JoinFolded([], folded, lines);
    assert [] + lines == lines;
  }

  // ---- printing: properties -------------------------------------------------------------------

  datatype Param = Param(key: string, value: string)

  predicate Plain(s: string) {
    forall i :: 0 <= i < |s| ==> 'A' <= s[i] <= 'Z'
  }

  /** A parameter value is printed between double quotes, so it may hold anything but those and line breaks. */
  predicate ParamOk(p: Param) {
    Plain(p.key) && '"' !in p.value && NoBreaks(p.value)
  }

  function PrintParams(params: seq<Param>): string {
    if params == [] then "" else ";" + params[0].key + "=\"" + params[0].value + "\"" + PrintParams(params[1..])
  }

  function PropertyLine(name: string, params: seq<Param>, value: string): string {
    name + PrintParams(params) + ":" + value
  }

  /** No colon outside quotes from here on, and every quote closed. */
  predicate Closed(head: string, inQuotes: bool) {
    if head == [] then !inQuotes
    else (head[0] != ':' || inQuotes) && Closed(head[1..], if head[0] == '"' then !inQuotes else inQuotes)
  }

  lemma {:induction false} ColonAfterHead(head: string, value: string, inQuotes: bool)
    requires Closed(head, inQuotes)
    ensures ColonAt(head + ":" + value, inQuotes) == Some(|head|)
  {
    if head != [] {
      assert (head + ":" + value)[1..] == head[1..] + ":" + value;
      ColonAfterHead(head[1..], value, if head[0] == '"' then !inQuotes else inQuotes);
    }
  }

  lemma {:induction false} ClosedAfter(s: string, rest: string, inQuotes: bool)
    requires '"' !in s && (inQuotes || ':' !in s)
    ensures Closed(s + rest, inQuotes) == Closed(rest, inQuotes)
  {
    if s == [] {
      assert s + rest == rest;
    } else {
      assert (s + rest)[1..] == s[1..] + rest;
      ClosedAfter(s[1..], rest, inQuotes);
    }
  }

  lemma {:induction false} ParamsAreClosed(params: seq<Param>)
    requires forall i :: 0 <= i < |params| ==> ParamOk(params[i])
    ensures Closed(PrintParams(params), false)
    decreases |params|
  {
    if params != [] {
      var p, tail := params[0], PrintParams(params[1..]);
      ParamsAreClosed(params[1..]);
      var quoted := p.value + ("\"" + tail);
      assert PrintParams(params) == (";" + p.key + "=") + ("\"" + quoted);
      assert ParamOk(p);
      ClosedAfter(";" + p.key + "=", "\"" + quoted, false);
      assert ("\"" + quoted)[1..] == quoted;
      ClosedAfter(p.value, "\"" + tail, true);
      assert ("\"" + tail)[1..] == tail;
    }
  }

  lemma {:induction false} NameBeforeParams(name: string, rest: string)
    requires ';' !in name && (rest == "" || rest[0] == ';')
    ensures NameAndParams(name + rest) == (name, if rest == "" then "" else rest[1..])
  {
    if name == [] {
      assert name + rest == rest;
    } else {
      assert (name + rest)[1..] == name[1..] + rest;
      NameBeforeParams(name[1..], rest);
      assert [name[0]] + name[1..] == name;
    }
  }

  lemma PlainNames(name: string)
    requires Plain(name)
    ensures Trim(name) == name && Uppercase(name) == name && ';' !in name && ':' !in name && '"' !in name
  {
  }

  /** A printed property is split as it was put together, quoted colons and semicolons included. */
  lemma PropertyRoundTrip(name: string, params: seq<Param>, value: string)
    requires Plain(name) && forall i :: 0 <= i < |params| ==> ParamOk(params[i])
    ensures PropertyOf(PropertyLine(name, params, value)) ==
            Some(Property(name, if params == [] then "" else PrintParams(params)[1..], Trim(value)))
  {
    var printed := PrintParams(params);
    var head := name + printed;
    PlainNames(name);
    ParamsAreClosed(params);
    ClosedAfter(name, printed, false);
    ColonAfterHead(head, value, false);
    NameBeforeParams(name, printed);
    var line := PropertyLine(name, params, value);
    assert line == head + ":" + value;
    assert line[..|head|] == head && line[|head| + 1..] == value;
  }

  // ---- printing: times --------------------------------------------------------------------------

  function Two(n: nat): string
    requires n < 100
  {
    [DigitChar(n / 10), DigitChar(n % 10)]
  }

  function Four(n: nat): string
    requires n < 10_000
  {
    Two(n / 100) + Two(n % 100)
  }

  lemma TwoReads(n: nat)
    requires n < 100
    ensures AllDigits(Two(n)) && Number(Two(n)) == n
  {
    var s := Two(n);
    assert s[..1] == [s[0]] && s[..1][..0] == [];
    assert Number(s[..1]) == n / 10;
  }

  lemma FourReads(n: nat)
    requires n < 10_000
    ensures AllDigits(Four(n)) && Number(Four(n)) == n
  {
    var s := Four(n);
    var high, low := n / 100, n % 100;
    TwoReads(high);
    assert s[..2] == Two(high);
    assert s[..3][..2] == s[..2] && s[..4] == s && s[..3] == s[..|s| - 1];
    assert Number(s[..3]) == 10 * high + low / 10;
  }

  predicate HasFourDigitYear(epoch: int) {
    0 <= Civil.CivilFromDays(epoch / 86_400).year <= 9999
  }

  function DateStamp(d: Civil.Date): string
    requires Civil.IsDate(d) && 0 <= d.year <= 9999
  {
    Four(d.year) + Two(d.month) + Two(d.day)
  }

  function TimeStamp(second: nat): string
    requires second < 86_400
  {
    Two(second / 3600) + Two(second / 60 % 60) + Two(second % 60)
  }

  function StampAt(d: Civil.Date, second: nat): string
    requires Civil.IsDate(d) && 0 <= d.year <= 9999 && second < 86_400
  {
    DateStamp(d) + "T" + TimeStamp(second) + "Z"
  }

  /** The form with date and UTC time, section 3.3.5 of RFC 5545. */
  function Stamp(epoch: int): string
    requires HasFourDigitYear(epoch)
  {
    Civil.NextDay(epoch / 86_400);
    StampAt(Civil.CivilFromDays(epoch / 86_400), epoch % 86_400)
  }

  lemma DateReads(d: Civil.Date)
    requires Civil.IsDate(d) && 0 <= d.year <= 9999
    ensures var s := DateStamp(d);
            && |s| == 8 && AllDigits(s)
            && Number(s[..4]) == d.year && Number(s[4..6]) == d.month && Number(s[6..8]) == d.day
  {
    var s := DateStamp(d);
    FourReads(d.year);
    TwoReads(d.month);
    TwoReads(d.day);
    assert s[..4] == Four(d.year) && s[4..6] == Two(d.month) && s[6..8] == Two(d.day);
  }

  lemma TimeParts(second: nat)
    requires second < 86_400
    ensures second / 3600 < 24 && second / 60 % 60 < 60 && second % 60 < 60
    ensures second / 3600 * 3600 + second / 60 % 60 * 60 + second % 60 == second
  {
    assert second / 60 / 60 == second / 3600;
  }

  lemma TimeReads(second: nat)
    requires second < 86_400
    ensures var s := TimeStamp(second);
            && |s| == 6 && AllDigits(s) && Number(s[..2]) <= 23 && Number(s[2..4]) <= 59
            && Number(s[..2]) * 3600 + Number(s[2..4]) * 60 + Number(s[4..6]) == second
  {
    TimeParts(second);
    ThreeRead(second / 3600, second / 60 % 60, second % 60);
  }

  lemma ThreeRead(a: nat, b: nat, c: nat)
    requires a < 100 && b < 100 && c < 100
    ensures var s := Two(a) + Two(b) + Two(c);
            |s| == 6 && AllDigits(s) && Number(s[..2]) == a && Number(s[2..4]) == b && Number(s[4..6]) == c
  {
    var s := Two(a) + Two(b) + Two(c);
    TwoReads(a);
    TwoReads(b);
    TwoReads(c);
    assert s[..2] == Two(a) && s[2..4] == Two(b) && s[4..6] == Two(c);
  }

  lemma StampParts(date: string, time: string, days: int, second: int)
    requires |date| == 8 && |time| == 6 && AllDigits(date) && AllDigits(time)
    requires 1 <= Number(date[4..6]) <= 12 && 1 <= Number(date[6..8]) <= 31
    requires Number(time[..2]) <= 23 && Number(time[2..4]) <= 59
    requires Civil.DaysFromCivil(Number(date[..4]), Number(date[4..6]), Number(date[6..8])) == days
    requires Number(time[..2]) * 3_600 + Number(time[2..4]) * 60 + Number(time[4..6]) == second
    ensures UtcEpoch(date + "T" + time + "Z") == Some(days * 86_400 + second)
  {
    var s := date + "T" + time + "Z";
    assert s[..8] == date && s[9..15] == time;
  }

  lemma PartsRead(d: Civil.Date, days: int, second: nat)
    requires Civil.IsDate(d) && 0 <= d.year <= 9999 && Civil.DaysFromCivil(d.year, d.month, d.day) == days
    requires second < 86_400
    ensures UtcEpoch(StampAt(d, second)) == Some(days * 86_400 + second)
  {
    DateReads(d);
    TimeReads(second);
    StampParts(DateStamp(d), TimeStamp(second), days, second);
  }

  lemma DayReads(days: int)
    ensures Civil.IsDate(Civil.CivilFromDays(days)) && Civil.DayNumber(Civil.CivilFromDays(days)) == days
  {
    Civil.NextDay(days);
    Civil.MutualInverses(days, Civil.CivilFromDays(days));
  }

  lemma StampAtReads(epoch: int, d: Civil.Date)
    requires Civil.IsDate(d) && 0 <= d.year <= 9999 && Civil.DayNumber(d) == epoch / 86_400
    ensures UtcEpoch(StampAt(d, epoch % 86_400)) == Some(epoch)
  {
    PartsRead(d, epoch / 86_400, epoch % 86_400);
  }

  /** The fast calendar's stamp of any instant of the years 0 to 9999 reads back as that instant. */
  lemma StampReads(epoch: int)
    requires HasFourDigitYear(epoch)
    ensures UtcEpoch(Stamp(epoch)) == Some(epoch)
  {
    DayReads(epoch / 86_400);
    StampAtReads(epoch, Civil.CivilFromDays(epoch / 86_400));
  }

  // ---- a whole calendar ----------------------------------------------------------------------------

  /** A property as printed; `value` is in its printed form. */
  datatype Printed = Printed(name: string, params: seq<Param>, value: string)

  predicate PrintedOk(q: Printed) {
    q.name != "" && Plain(q.name) && NoBreaks(q.value) && forall i :: 0 <= i < |q.params| ==> ParamOk(q.params[i])
  }

  predicate AllOk(props: seq<Printed>) {
    forall i :: 0 <= i < |props| ==> PrintedOk(props[i])
  }

  function Line(q: Printed): string {
    PropertyLine(q.name, q.params, q.value)
  }

  function Lines(props: seq<Printed>): seq<string> {
    seq(|props|, i requires 0 <= i < |props| => Line(props[i]))
  }

  predicate Marks(q: Printed, name: string) {
    q.name == name && IsEvent(Trim(q.value))
  }

  predicate NoneMarks(props: seq<Printed>, name: string) {
    forall i :: 0 <= i < |props| ==> !Marks(props[i], name)
  }

  const BEGIN_EVENT := Printed("BEGIN", [], "VEVENT")
  const END_EVENT := Printed("END", [], "VEVENT")

  lemma {:induction false} ParamsHaveNoBreaks(params: seq<Param>)
    requires forall i :: 0 <= i < |params| ==> ParamOk(params[i])
    ensures NoBreaks(PrintParams(params))
    decreases |params|
  {
    if params != [] {
      ParamsHaveNoBreaks(params[1..]);
      assert ParamOk(params[0]);
      assert NoBreaks(";" + params[0].key + "=\"" + params[0].value + "\"");
    }
  }

  lemma LineHasNoBreaks(q: Printed)
    requires PrintedOk(q)
    ensures Line(q) != "" && NoBreaks(Line(q)) && !IsFoldChar(Line(q)[0])
  {
    ParamsHaveNoBreaks(q.params);
    assert Line(q)[0] == q.name[0];
  }

  function Kept(q: Printed): Property {
    Property(q.name, if q.params == [] then "" else PrintParams(q.params)[1..], Trim(q.value))
  }

  function TakeAll(p: Progress, props: seq<Printed>): Progress
    decreases |props|
  {
    if props == [] || p.stopped then p else TakeAll(Took(p, Kept(props[0])), props[1..])
  }

  lemma ReadOne(q: Printed)
    requires PrintedOk(q)
    ensures PropertyOf(Line(q)) == Some(Kept(q))
  {
    PropertyRoundTrip(q.name, q.params, q.value);
  }

  lemma {:induction false} ReadPrinted(p: Progress, props: seq<Printed>)
    requires AllOk(props)
    ensures ReadAll(p, Lines(props)) == TakeAll(p, props)
    decreases |props|
  {
    if props != [] && !p.stopped {
      ReadOne(props[0]);
      assert Lines(props)[1..] == Lines(props[1..]);
      ReadPrinted(Took(p, Kept(props[0])), props[1..]);
    }
  }

  /** The last value under a name, as `f` reads it, or what was there before. */
  function LastOf(props: seq<Printed>, name: string, f: string -> string, older: Option<string>): Option<string>
    decreases |props|
  {
    if props == [] then older
    else LastOf(props[1..], name, f, if props[0].name == name then Some(f(Trim(props[0].value))) else older)
  }

  function Same(s: string): string {
    s
  }

  lemma {:induction false} TakeBefore(p: Progress, props: seq<Printed>, rest: seq<Printed>)
    requires !p.inEvent && !p.sawEvent && !p.stopped && NoneMarks(props, "BEGIN")
    ensures TakeAll(p, props + rest) ==
            TakeAll(p.(found := p.found.(kind := LastOf(props, "METHOD", Uppercase, p.found.kind))), rest)
    decreases |props|
  {
    if props == [] {
      assert props + rest == rest;
    } else {
      assert (props + rest)[1..] == props[1..] + rest;
      assert !Marks(props[0], "BEGIN");
      TakeBefore(Took(p, Kept(props[0])), props[1..], rest);
    }
  }

  function Filled(found: Invite, props: seq<Printed>): Invite {
    Gathered(found.kind,
             LastOf(props, "UID", Same, found.uid),
             LastOf(props, "SUMMARY", Unescaped, found.summary),
             LastOf(props, "LOCATION", Unescaped, found.location),
             LastOf(props, "ORGANIZER", Same, found.organizer),
             LastOf(props, "DTSTART", Same, found.start),
             LastOf(props, "DTEND", Same, found.end))
  }

  lemma LastStep(props: seq<Printed>, name: string, f: string -> string, older: Option<string>)
    requires props != []
    ensures LastOf(props, name, f, older) ==
            LastOf(props[1..], name, f, if props[0].name == name then Some(f(Trim(props[0].value))) else older)
  {
  }

  lemma TookFills(p: Progress, props: seq<Printed>)
    requires props != [] && p.inEvent && !p.stopped && !Marks(props[0], "END")
    requires p.found.startAt == EpochOf(p.found.start) && p.found.endAt == EpochOf(p.found.end)
    ensures var next := Took(p, Kept(props[0]));
            && next == p.(found := next.found)
            && next.found.startAt == EpochOf(next.found.start) && next.found.endAt == EpochOf(next.found.end)
            && Filled(next.found, props[1..]) == Filled(p.found, props)
  {
    LastStep(props, "UID", Same, p.found.uid);
    LastStep(props, "SUMMARY", Unescaped, p.found.summary);
    LastStep(props, "LOCATION", Unescaped, p.found.location);
    LastStep(props, "ORGANIZER", Same, p.found.organizer);
    LastStep(props, "DTSTART", Same, p.found.start);
    LastStep(props, "DTEND", Same, p.found.end);
  }

  lemma {:induction false} TakeInside(p: Progress, props: seq<Printed>, rest: seq<Printed>)
    requires p.inEvent && !p.stopped && NoneMarks(props, "END")
    requires p.found.startAt == EpochOf(p.found.start) && p.found.endAt == EpochOf(p.found.end)
    ensures TakeAll(p, props + rest) == TakeAll(p.(found := Filled(p.found, props)), rest)
    decreases |props|
  {
    if props == [] {
      assert props + rest == rest;
      assert Filled(p.found, props) == p.found;
    } else {
      assert (props + rest)[1..] == props[1..] + rest;
      assert !Marks(props[0], "END");
      TookFills(p, props);
      TakeInside(Took(p, Kept(props[0])), props[1..], rest);
    }
  }

  /** After the first event nothing counts but a METHOD, and from a second event on not even that. */
  lemma {:induction false} TakeAfter(p: Progress, props: seq<Printed>)
    requires !p.inEvent && p.sawEvent && !p.stopped
    requires forall i :: 0 <= i < |props| ==> props[i].name != "METHOD"
    ensures TakeAll(p, props).found == p.found && TakeAll(p, props).sawEvent
    decreases |props|
  {
    if props != [] && !Marks(props[0], "BEGIN") {
      TakeAfter(Took(p, Kept(props[0])), props[1..]);
    }
  }

  function CalendarProps(before: seq<Printed>, inside: seq<Printed>, after: seq<Printed>): seq<Printed> {
    before + ([BEGIN_EVENT] + (inside + ([END_EVENT] + after)))
  }

  lemma TakeMark(p: Progress, mark: Printed, rest: seq<Printed>)
    requires !p.stopped && mark in [BEGIN_EVENT, END_EVENT]
    ensures TakeAll(p, [mark] + rest) == TakeAll(Took(p, Property(mark.name, "", "VEVENT")), rest)
    ensures IsEvent("VEVENT")
  {
    PlainNames("VEVENT");
    assert ([mark] + rest)[1..] == rest;
  }

  lemma TakeCalendar(before: seq<Printed>, inside: seq<Printed>, after: seq<Printed>)
    requires NoneMarks(before, "BEGIN") && NoneMarks(inside, "END")
    requires forall i :: 0 <= i < |after| ==> after[i].name != "METHOD"
    ensures var end := TakeAll(Progress(false, false, false, NOTHING), CalendarProps(before, inside, after));
            end.sawEvent && end.found == Filled(NOTHING.(kind := LastOf(before, "METHOD", Uppercase, None)), inside)
  {
    var kind := LastOf(before, "METHOD", Uppercase, None);
    var found := NOTHING.(kind := kind);
    TakeBefore(Progress(false, false, false, NOTHING), before, [BEGIN_EVENT] + (inside + ([END_EVENT] + after)));
    TakeMark(Progress(false, false, false, found), BEGIN_EVENT, inside + ([END_EVENT] + after));
    TakeInside(Progress(true, true, false, found), inside, [END_EVENT] + after);
    TakeMark(Progress(true, true, false, Filled(found, inside)), END_EVENT, after);
    TakeAfter(Progress(false, true, false, Filled(found, inside)), after);
  }

  /** The property is there, and wherever it is there it has this value. */
  ghost predicate Says(props: seq<Printed>, name: string, value: string) {
    && (exists i :: 0 <= i < |props| && props[i].name == name)
    && (forall i :: 0 <= i < |props| && props[i].name == name ==> props[i].value == value)
  }

  lemma {:induction false} LastSaid(props: seq<Printed>, name: string, value: string, f: string -> string,
                                    older: Option<string>)
    requires forall i :: 0 <= i < |props| && props[i].name == name ==> props[i].value == value
    ensures (exists i :: 0 <= i < |props| && props[i].name == name) || older == Some(f(Trim(value))) ==>
              LastOf(props, name, f, older) == Some(f(Trim(value)))
    decreases |props|
  {
    if props != [] {
      var newer := if props[0].name == name then Some(f(Trim(props[0].value))) else older;
      LastSaid(props[1..], name, value, f, newer);
      if i :| 0 < i < |props| && props[i].name == name {
        assert props[1..][i - 1].name == name;
      }
    }
  }

  lemma StampIsTrim(epoch: int)
    requires HasFourDigitYear(epoch)
    ensures Trim(Stamp(epoch)) == Stamp(epoch)
  {
    Civil.NextDay(epoch / 86_400);
    DateReads(Civil.CivilFromDays(epoch / 86_400));
    var date := DateStamp(Civil.CivilFromDays(epoch / 86_400));
    assert IsDigit(date[0]);
    assert Stamp(epoch)[0] == date[0] && Stamp(epoch)[|Stamp(epoch)| - 1] == 'Z';
  }

  /** The values of the printed event. */
  datatype Event = Event(uid: string, summary: string, location: string, start: int, end: int)

  ghost predicate Prints(inside: seq<Printed>, e: Event) {
    && HasFourDigitYear(e.start) && HasFourDigitYear(e.end)
    && Says(inside, "UID", Escape(e.uid))
    && Says(inside, "SUMMARY", Escape(e.summary))
    && Says(inside, "LOCATION", Escape(e.location))
    && Says(inside, "DTSTART", Stamp(e.start))
    && Says(inside, "DTEND", Stamp(e.end))
  }

  ghost predicate FoldsAll(folded: seq<Folded>, lines: seq<string>) {
    |folded| == |lines| && forall i :: 0 <= i < |lines| ==> Folds(folded[i], lines[i])
  }

  /** One event, with anything printable before, inside and after it. */
  predicate IsCalendar(before: seq<Printed>, inside: seq<Printed>, after: seq<Printed>) {
    && AllOk(before) && AllOk(inside) && AllOk(after)
    && NoneMarks(before, "BEGIN") && NoneMarks(inside, "END")
    && forall i :: 0 <= i < |after| ==> after[i].name != "METHOD"
  }

  lemma ReadCalendar(before: seq<Printed>, inside: seq<Printed>, after: seq<Printed>, folded: seq<Folded>, eol: string)
    requires IsCalendar(before, inside, after) && IsEol(eol)
    requires FoldsAll(folded, Lines(CalendarProps(before, inside, after)))
    ensures Parsed(PrintPieces(PiecesOf(folded), eol)) ==
            Some(Filled(NOTHING.(kind := LastOf(before, "METHOD", Uppercase, None)), inside))
  {
    var props := CalendarProps(before, inside, after);
    assert AllOk(props);
    forall i | 0 <= i < |Lines(props)|
      ensures Lines(props)[i] != "" && NoBreaks(Lines(props)[i]) && !IsFoldChar(Lines(props)[i][0])
    {
      LineHasNoBreaks(props[i]);
    }
    UnfoldInvertsFold(folded, Lines(props), eol);
    ReadPrinted(Progress(false, false, false, NOTHING), props);
    TakeCalendar(before, inside, after);
  }

  /** The invitation read from the printed event. */
  function Expected(e: Event, kind: Option<string>, organizer: Option<string>): Invite
    requires HasFourDigitYear(e.start) && HasFourDigitYear(e.end)
  {
    Invite(kind, Some(Escape(Stripped(e.uid))), Some(Stripped(e.summary)), Some(Stripped(e.location)), organizer,
           Some(Stamp(e.start)), Some(Stamp(e.end)), Some(e.start), Some(e.end))
  }

  /**
   Print, then parse: whatever else the calendar holds, in whatever order, and
   however its lines are folded, the first event's times are the printed instants
   and its texts the printed ones without white space at the edges. The uid alone
   stays escaped.
   */
  lemma InviteRoundTrip(before: seq<Printed>, inside: seq<Printed>, after: seq<Printed>,
                        folded: seq<Folded>, eol: string, e: Event)
    requires IsCalendar(before, inside, after) && IsEol(eol) && Prints(inside, e)
    requires FoldsAll(folded, Lines(CalendarProps(before, inside, after)))
    ensures Parsed(PrintPieces(PiecesOf(folded), eol)) ==
            Some(Expected(e, LastOf(before, "METHOD", Uppercase, None), LastOf(inside, "ORGANIZER", Same, None)))
  {
    ReadCalendar(before, inside, after, folded, eol);
    TextFields(inside, e);
    TimeField(inside, "DTSTART", e.start);
    TimeField(inside, "DTEND", e.end);
  }

  lemma TextFields(inside: seq<Printed>, e: Event)
    requires Prints(inside, e)
    ensures LastOf(inside, "UID", Same, None) == Some(Escape(Stripped(e.uid)))
    ensures LastOf(inside, "SUMMARY", Unescaped, None) == Some(Stripped(e.summary))
    ensures LastOf(inside, "LOCATION", Unescaped, None) == Some(Stripped(e.location))
  {
    LastSaid(inside, "UID", Escape(e.uid), Same, None);
    LastSaid(inside, "SUMMARY", Escape(e.summary), Unescaped, None);
    LastSaid(inside, "LOCATION", Escape(e.location), Unescaped, None);
    TextReads(e.uid);
    TextReads(e.summary);
    TextReads(e.location);
  }

  lemma TimeField(inside: seq<Printed>, name: string, epoch: int)
    requires HasFourDigitYear(epoch) && Says(inside, name, Stamp(epoch))
    ensures LastOf(inside, name, Same, None) == Some(Stamp(epoch)) && EpochOf(Some(Stamp(epoch))) == Some(epoch)
  {
    LastSaid(inside, name, Stamp(epoch), Same, None);
    StampIsTrim(epoch);
    StampReads(epoch);
  }

  lemma TextReads(text: string)
    ensures Trim(Escape(text)) == Escape(Stripped(text)) && Unescaped(Trim(Escape(text))) == Stripped(text)
  {
    TrimEscape(text);
    UnescapeInverts(Stripped(text));
  }

  // ---- one event on its own ---------------------------------------------------------------------------

  lemma {:induction false} EscapeHasNoBreaks(s: string)
    requires '\r' !in s
    ensures NoBreaks(Escape(s))
  {
    if s != [] {
      EscapeHasNoBreaks(s[1..]);
      EscapeShape(s[0]);
    }
  }

  lemma StampHasNoBreaks(epoch: int)
    requires HasFourDigitYear(epoch)
    ensures NoBreaks(Stamp(epoch))
  {
    Civil.NextDay(epoch / 86_400);
    DateReads(Civil.CivilFromDays(epoch / 86_400));
    TimeReads(epoch % 86_400);
    DigitsHaveNoBreaks(DateStamp(Civil.CivilFromDays(epoch / 86_400)));
    DigitsHaveNoBreaks(TimeStamp(epoch % 86_400));
  }

  lemma DigitsHaveNoBreaks(s: string)
    requires AllDigits(s)
    ensures NoBreaks(s)
  {
    assert forall i :: 0 <= i < |s| ==> IsDigit(s[i]);
  }

  /** A carriage return cannot be written in a TEXT value. */
  predicate Printable(e: Event) {
    && HasFourDigitYear(e.start) && HasFourDigitYear(e.end)
    && '\r' !in e.uid && '\r' !in e.summary && '\r' !in e.location
  }

  function PropsOf(e: Event): seq<Printed>
    requires Printable(e)
  {
    [ Printed("UID", [], Escape(e.uid)),
      Printed("SUMMARY", [], Escape(e.summary)),
      Printed("LOCATION", [], Escape(e.location)),
      Printed("DTSTART", [], Stamp(e.start)),
      Printed("DTEND", [], Stamp(e.end)) ]
  }

  lemma SaidAt(props: seq<Printed>, i: nat)
    requires i < |props| && forall j :: 0 <= j < |props| && j != i ==> props[j].name != props[i].name
    ensures Says(props, props[i].name, props[i].value)
  {
  }

  lemma PropertyOk(name: string, value: string)
    requires name == "UID" || name == "SUMMARY" || name == "LOCATION" || name == "DTSTART" || name == "DTEND"
    requires NoBreaks(value)
    ensures PrintedOk(Printed(name, [], value)) && !Marks(Printed(name, [], value), "END")
  {
  }

  lemma EventPropsOk(e: Event)
    requires Printable(e)
    ensures AllOk(PropsOf(e)) && NoneMarks(PropsOf(e), "END")
  {
    EscapeHasNoBreaks(e.uid);
    EscapeHasNoBreaks(e.summary);
    EscapeHasNoBreaks(e.location);
    StampHasNoBreaks(e.start);
    StampHasNoBreaks(e.end);
    PropertyOk("UID", Escape(e.uid));
    PropertyOk("SUMMARY", Escape(e.summary));
    PropertyOk("LOCATION", Escape(e.location));
    PropertyOk("DTSTART", Stamp(e.start));
    PropertyOk("DTEND", Stamp(e.end));
  }

  lemma EventPrints(e: Event)
    requires Printable(e)
    ensures Prints(PropsOf(e), e)
  {
    var props := PropsOf(e);
    SaidAt(props, 0);
    SaidAt(props, 1);
    SaidAt(props, 2);
    SaidAt(props, 3);
    SaidAt(props, 4);
  }

  function Straight(lines: seq<string>): seq<Folded> {
    seq(|lines|, i requires 0 <= i < |lines| => Folded(lines[i], []))
  }

  lemma StraightFolds(props: seq<Printed>)
    requires AllOk(props)
    ensures FoldsAll(Straight(Lines(props)), Lines(props))
  {
    forall i | 0 <= i < |props| ensures Folds(Straight(Lines(props))[i], Lines(props)[i]) {
      LineHasNoBreaks(props[i]);
      assert Lines(props)[i] + "" == Lines(props)[i];
    }
  }

  lemma CalendarIsOk(inside: seq<Printed>)
    requires AllOk(inside)
    ensures AllOk(CalendarProps([], inside, []))
  {
  }

  lemma AloneIsRead(inside: seq<Printed>, e: Event)
    requires AllOk(inside) && NoneMarks(inside, "END") && Prints(inside, e)
    ensures var lines := Lines(CalendarProps([], inside, []));
            Parsed(PrintPieces(PiecesOf(Straight(lines)), "\r\n")) ==
            Some(Expected(e, None, LastOf(inside, "ORGANIZER", Same, None)))
  {
    CalendarIsOk(inside);
    StraightFolds(CalendarProps([], inside, []));
    InviteRoundTrip([], inside, [], Straight(Lines(CalendarProps([], inside, []))), "\r\n", e);
  }

  lemma EventIsComplete(e: Event)
    requires Printable(e)
    ensures AllOk(PropsOf(e)) && NoneMarks(PropsOf(e), "END") && Prints(PropsOf(e), e)
    ensures LastOf(PropsOf(e), "ORGANIZER", Same, None) == None
  {
    EventPropsOk(e);
    EventPrints(e);
    LastOfNothing(PropsOf(e), "ORGANIZER", Same, None);
  }

  /** Every event that can be printed at all is read back, here printed alone and without folding. */
  lemma PrintedEventIsRead(e: Event)
    requires Printable(e)
    ensures var lines := Lines(CalendarProps([], PropsOf(e), []));
            Parsed(PrintPieces(PiecesOf(Straight(lines)), "\r\n")) == Some(Expected(e, None, None))
  {
    EventIsComplete(e);
    AloneIsRead(PropsOf(e), e);
  }

  // ---- nested components ----------------------------------------------------------------------------

  /** An event's own properties, with a component of any kind nested between them. */
  function Nested(front: seq<Printed>, kind: string, nested: seq<Printed>, back: seq<Printed>): seq<Printed> {
    front + ([Printed("BEGIN", [], kind)] + (nested + ([Printed("END", [], kind)] + back)))
  }

  /** The properties of an event that the reader keeps, and how it reads their values. */
  predicate IsField(name: string) {
    name in ["UID", "SUMMARY", "LOCATION", "ORGANIZER", "DTSTART", "DTEND"]
  }

  function FieldReader(name: string): string -> string {
    if name == "SUMMARY" || name == "LOCATION" then Unescaped else Same
  }

  function FieldOf(r: Invite, name: string): Option<string>
    requires IsField(name)
  {
    match name
    case "UID" => r.uid
    case "SUMMARY" => r.summary
    case "LOCATION" => r.location
    case "ORGANIZER" => r.organizer
    case "DTSTART" => r.start
    case _ => r.end
  }

  predicate IsLast(props: seq<Printed>, name: string, i: int) {
    0 <= i < |props| && props[i].name == name && forall j :: i < j < |props| ==> props[j].name != name
  }

  lemma {:induction false} LastOfAppends(a: seq<Printed>, b: seq<Printed>, name: string, f: string -> string,
                                         older: Option<string>)
    ensures LastOf(a + b, name, f, older) == LastOf(b, name, f, LastOf(a, name, f, older))
    decreases |a|
  {
    if a == [] {
      assert a + b == b;
    } else {
      assert (a + b)[1..] == a[1..] + b;
      LastOfAppends(a[1..], b, name, f, if a[0].name == name then Some(f(Trim(a[0].value))) else older);
    }
  }

  lemma {:induction false} LastOfIsLast(props: seq<Printed>, name: string, f: string -> string,
                                        older: Option<string>, i: nat)
    requires IsLast(props, name, i)
    ensures LastOf(props, name, f, older) == Some(f(Trim(props[i].value)))
    decreases |props|
  {
    var newer := if props[0].name == name then Some(f(Trim(props[0].value))) else older;
    assert forall j :: 0 <= j < |props| - 1 ==> props[1..][j] == props[j + 1];
    if i == 0 {
      LastOfNothing(props[1..], name, f, newer);
    } else {
      LastOfIsLast(props[1..], name, f, newer, i - 1);
    }
  }

  lemma {:induction false} LastOfNothing(props: seq<Printed>, name: string, f: string -> string, older: Option<string>)
    requires forall i :: 0 <= i < |props| ==> props[i].name != name
    ensures LastOf(props, name, f, older) == older
    decreases |props|
  {
    if props != [] {
      LastOfNothing(props[1..], name, f, older);
    }
  }

  lemma NestedOverrides(front: seq<Printed>, kind: string, nested: seq<Printed>, back: seq<Printed>,
                        name: string, f: string -> string)
    requires name != "BEGIN" && name != "END"
    ensures LastOf(Nested(front, kind, nested, back), name, f, None) ==
            LastOf(back, name, f, LastOf(nested, name, f, LastOf(front, name, f, None)))
  {
    var begin, end := [Printed("BEGIN", [], kind)], [Printed("END", [], kind)];
    var first := LastOf(front, name, f, None);
    LastOfAppends(front, begin + (nested + (end + back)), name, f, None);
    LastOfAppends(begin, nested + (end + back), name, f, first);
    LastOfNothing(begin, name, f, first);
    LastOfAppends(nested, end + back, name, f, first);
    LastOfAppends(end, back, name, f, LastOf(nested, name, f, first));
    LastOfNothing(end, name, f, LastOf(nested, name, f, first));
  }

  lemma FieldIsLast(found: Invite, props: seq<Printed>, name: string)
    requires IsField(name)
    ensures FieldOf(Filled(found, props), name) == LastOf(props, name, FieldReader(name), FieldOf(found, name))
  {
  }

  /** When the event's own value is the last one read: see `OwnIsReadIff`. */
  lemma NestedReads(front: seq<Printed>, nested: seq<Printed>, back: seq<Printed>, name: string, value: string,
                    f: string -> string)
    requires Says(front + back, name, value)
    ensures LastOf(back, name, f, LastOf(nested, name, f, LastOf(front, name, f, None))) == Some(f(Trim(value))) <==>
            || (exists i :: 0 <= i < |back| && back[i].name == name)
            || (forall i :: IsLast(nested, name, i) ==> f(Trim(nested[i].value)) == f(Trim(value)))
  {
    var all := front + back;
    assert forall i :: 0 <= i < |front| ==> all[i] == front[i];
    assert forall i :: 0 <= i < |back| ==> all[|front| + i] == back[i];
    var first := LastOf(front, name, f, None);
    var second := LastOf(nested, name, f, first);
    LastSaid(front, name, value, f, None);
    LastSaid(back, name, value, f, second);
    if !exists i :: 0 <= i < |back| && back[i].name == name {
      var i :| 0 <= i < |all| && all[i].name == name;
      assert i < |front|;
      LastOfNothing(back, name, f, second);
      LastExists(nested, name);
      if k :| IsLast(nested, name, k) {
        LastOfIsLast(nested, name, f, first, k);
        assert forall l :: IsLast(nested, name, l) ==> l == k;
      } else {
        LastOfNothing(nested, name, f, first);
      }
    }
  }

  /** What the reader makes of a field once a component is nested between the event's own properties. */
  lemma NestedField(found: Invite, front: seq<Printed>, kind: string, nested: seq<Printed>, back: seq<Printed>,
                    name: string, value: string)
    requires IsField(name) && FieldOf(found, name) == None && Says(front + back, name, value)
    ensures OwnIsReadIff(FieldOf(Filled(found, Nested(front, kind, nested, back)), name), nested, back, name, value)
  {
    FieldIsLast(found, Nested(front, kind, nested, back), name);
    NestedOverrides(front, kind, nested, back, name, FieldReader(name));
    NestedReads(front, nested, back, name, value, FieldReader(name));
  }

  /**
   The event's own value is read exactly if it also stands behind the nested component, or the
   component has none of that name, or its last one reads the same.
   */
  ghost predicate OwnIsReadIff(field: Option<string>, nested: seq<Printed>, back: seq<Printed>,
                               name: string, value: string)
  {
    var read := FieldReader(name);
    field == Some(read(Trim(value))) <==>
      || (exists i :: 0 <= i < |back| && back[i].name == name)
      || (forall i :: IsLast(nested, name, i) ==> read(Trim(nested[i].value)) == read(Trim(value)))
  }

  /**
   The reader does not look at nested components: a property of one, wherever it stands, takes
   the place of the event's own of that name before it.
   */
  lemma OwnValueIsReadIff(before: seq<Printed>, front: seq<Printed>, kind: string, nested: seq<Printed>,
                          back: seq<Printed>, after: seq<Printed>, folded: seq<Folded>, eol: string,
                          name: string, value: string)
    requires IsCalendar(before, Nested(front, kind, nested, back), after) && IsEol(eol)
    requires FoldsAll(folded, Lines(CalendarProps(before, Nested(front, kind, nested, back), after)))
    requires IsField(name) && Says(front + back, name, value)
    ensures var r := Parsed(PrintPieces(PiecesOf(folded), eol));
            r.Some? && OwnIsReadIff(FieldOf(r.value, name), nested, back, name, value)
  {
    ReadCalendar(before, Nested(front, kind, nested, back), after, folded, eol);
    NestedField(NOTHING.(kind := LastOf(before, "METHOD", Uppercase, None)), front, kind, nested, back, name, value);
  }

  lemma {:induction false} LastExists(props: seq<Printed>, name: string)
    ensures (exists i :: IsLast(props, name, i)) || forall i :: 0 <= i < |props| ==> props[i].name != name
    decreases |props|
  {
    if props != [] {
      var n := |props| - 1;
      if props[n].name == name {
        assert IsLast(props, name, n);
      } else {
        LastExists(props[..n], name);
        if i :| IsLast(props[..n], name, i) {
          assert IsLast(props, name, i);
        }
      }
    }
  }

  // ---- what exactly is kept -------------------------------------------------------------------------

  predicate BareEdges(s: string) {
    s == "" || (!IsBareWhite(s[0]) && !IsBareWhite(s[|s| - 1]))
  }

  lemma {:induction false} TrimEndShortens(s: string, white: char -> bool)
    ensures |TrimEnd(s, white)| <= |s|
    ensures |TrimEnd(s, white)| == |s| <==> s == "" || !white(s[|s| - 1])
    ensures |TrimEnd(s, white)| == |s| ==> TrimEnd(s, white) == s
  {
    if s != [] && white(s[|s| - 1]) {
      TrimEndShortens(s[..|s| - 1], white);
    }
  }

  lemma {:induction false} TrimStartShortens(s: string, white: char -> bool)
    ensures |TrimStart(s, white)| <= |s|
    ensures |TrimStart(s, white)| == |s| <==> s == "" || !white(s[0])
    ensures |TrimStart(s, white)| == |s| ==> TrimStart(s, white) == s
  {
    if s != [] && white(s[0]) {
      TrimStartShortens(s[1..], white);
    }
  }

  predicate IsLiteral(s: string) {
    forall i :: 0 <= i < |s| ==> !NeedsEscape(s[i])
  }

  lemma LiteralCons(s: string)
    requires s != ""
    ensures IsLiteral(s) <==> !NeedsEscape(s[0]) && IsLiteral(s[1..])
  {
    assert forall i :: 0 < i < |s| ==> s[i] == s[1..][i - 1];
    assert forall i :: 0 <= i < |s| - 1 ==> s[1..][i] == s[i + 1];
  }

  lemma {:induction false} EscapeLengthens(s: string)
    ensures |Escape(s)| >= |s|
    ensures Escape(s) == s <==> IsLiteral(s)
  {
    if s != [] {
      EscapeLengthens(s[1..]);
      EscapeShape(s[0]);
      LiteralCons(s);
      assert Escape(s) == EscapeChar(s[0]) + Escape(s[1..]);
      if !NeedsEscape(s[0]) {
        assert s == [s[0]] + s[1..];
        assert Escape(s)[1..] == Escape(s[1..]);
      }
    }
  }

  lemma {:induction false} TrimEndLeaves(s: string, white: char -> bool)
    ensures var t := TrimEnd(s, white); t <= s && (t != "" ==> !white(t[|t| - 1]))
  {
    if s != [] && white(s[|s| - 1]) {
      TrimEndLeaves(s[..|s| - 1], white);
    }
  }

  lemma {:induction false} TrimStartLeaves(s: string, white: char -> bool)
    ensures var t := TrimStart(s, white); t != "" ==> !white(t[0])
  {
    if s != [] && white(s[0]) {
      TrimStartLeaves(s[1..], white);
    }
  }

  lemma TrimmedEdges(s: string)
    ensures BareEdges(Trim(s))
  {
    TrimStartLeaves(s, IsWhite);
    TrimEndLeaves(TrimStart(s, IsWhite), IsWhite);
  }

  lemma StrippedIff(s: string)
    ensures Stripped(s) == s <==> BareEdges(s)
  {
    TrimStartShortens(s, IsBareWhite);
    TrimEndShortens(TrimStart(s, IsBareWhite), IsBareWhite);
  }

  /** A text comes back as it was exactly when no white space other than a newline stands at its edges. */
  lemma TextIsKeptIff(s: string)
    ensures Unescaped(Trim(Escape(s))) == s <==> BareEdges(s)
  {
    TextReads(s);
    StrippedIff(s);
  }

  /** A uid, which is TEXT too but is not unescaped, comes back as it was exactly when it needed no escaping either. */
  lemma UidIsKeptIff(uid: string)
    ensures Trim(Escape(uid)) == uid <==> BareEdges(uid) && IsLiteral(uid)
  {
    TrimmedEdges(Escape(uid));
    StrippedIff(uid);
    if BareEdges(uid) {
      TrimEscape(uid);
      EscapeLengthens(uid);
    }
  }

  lemma CommaInUid()
    ensures Trim(Escape("a,b")) == "a\\,b" != "a,b"
  {
    assert "a,b"[1..] == ",b" && ",b"[1..] == "b" && "b"[1..] == "";
    assert Escape("b") == "b" && Escape(",b") == "\\,b";
    assert Escape("a,b") == "a\\,b";
  }
}
