/**
 JSON values and the pointer evaluation of crates/jmap-core/src/refs.rs.
 Objects are `BTreeMap`s, so iteration follows the order of the keys.
 */
module Json {
  import opened Text

  datatype Json =
    | Null
    | Bool(b: bool)
    | Num(n: int)
    | Str(s: string)
    | Arr(items: seq<Json>)
    | Obj(fields: map<string, Json>)

  const USIZE_MAX: nat := 0xFFFF_FFFF_FFFF_FFFF

  // ---- tokens -----------------------------------------------------------------

  /** `str::replace(['~', digit], to)`, left to right without overlap. */
  function Replace(s: string, digit: char, to: char): string {
    if |s| >= 2 && s[0] == '~' && s[1] == digit then [to] + Replace(s[2..], digit, to)
    else if s != [] then [s[0]] + Replace(s[1..], digit, to)
    else ""
  }

  /** `token.replace("~1", "/").replace("~0", "~")` */
  function Unescape(token: string): string {
    Replace(Replace(token, '1', '/'), '0', '~')
  }

  /** `str::parse::<usize>`: an optional plus sign, at least one digit, no overflow. */
  function ParseUsize(s: string): Option<nat> {
    var digits := if s != [] && s[0] == '+' then s[1..] else s;
    if digits == [] || !AllDigits(digits) then None
    else
      var n := Number(digits);
      if n <= USIZE_MAX then Some(n) else None
  }

  /** One level of flattening: an array contributes its items, anything else itself. */
  function Spread(v: Json): seq<Json> {
    match v
    case Arr(inner) => inner
    case _ => [v]
  }

  // ---- the evaluator, as a specification --------------------------------------

  function Values(fields: map<string, Json>, keys: seq<string>): (r: seq<Json>)
    requires forall k :: k in keys ==> k in fields
    ensures |r| == |keys|
  {
    seq(|keys|, i requires 0 <= i < |keys| => fields[keys[i]])
  }

  function EvalTokens(value: Json, tokens: seq<string>): Option<Json>
    decreases |tokens|, 0
  {
    if tokens == [] then Some(value)
    else
      var token, rest := Unescape(tokens[0]), tokens[1..];
      match value
      case Arr(items) =>
        if token == "*" then Wildcard(items, rest)
        else (
          match ParseUsize(token)
          case None => None
          case Some(i) => if i < |items| then EvalTokens(items[i], rest) else None
        )
      case Obj(fields) =>
        if token == "*" then Wildcard(Values(fields, Sorted(fields.Keys)), rest)
        else if token in fields then EvalTokens(fields[token], rest)
        else None
      case _ => None
  }

  function Wildcard(items: seq<Json>, tokens: seq<string>): Option<Json>
    decreases |tokens|, 2
  {
    match Flattened(items, tokens)
    case None => None
    case Some(all) => Some(Arr(all))
  }

  /** The rest of the path applied to every item, flattened; `None` as soon as one item has none. */
  function Flattened(items: seq<Json>, tokens: seq<string>): Option<seq<Json>>
    decreases |tokens|, 1, |items|
  {
    if items == [] then Some([])
    else
      match (Flattened(items[..|items| - 1], tokens), EvalTokens(items[|items| - 1], tokens))
      case (Some(before), Some(last)) => Some(before + Spread(last))
      case _ => None
  }

  /** `eval_path`: one leading slash is dropped, so `""` and `"/"` both name the key `""`. */
  function EvalPath(value: Json, path: string): Option<Json> {
    EvalTokens(value, Tokens(path))
  }

  function Tokens(path: string): seq<string> {
    Split(if path != [] && path[0] == '/' then path[1..] else path, '/')
  }

  // ---- the evaluator, with the loops of the source ------------------------------

  lemma {:induction false} FailedPrefixFails(items: seq<Json>, n: nat, tokens: seq<string>)
    requires n <= |items| && Flattened(items[..n], tokens).None?
    ensures Flattened(items, tokens).None?
    decreases |items| - n
  {
    if n < |items| {
      assert items[..n + 1][..n] == items[..n];
      FailedPrefixFails(items, n + 1, tokens);
    } else {
      assert items[..n] == items;
    }
  }

  /** `eval_tokens`, with its two flatten loops and their early exits. */
  method EvaluateTokens(value: Json, tokens: seq<string>) returns (r: Option<Json>)
    ensures r == EvalTokens(value, tokens)
    decreases |tokens|, 0
  {
    if tokens == [] {
      return Some(value);
    }
    var token, rest := Unescape(tokens[0]), tokens[1..];
    match value
    case Arr(items) =>
      if token == "*" {
        r := FlattenItems(items, rest);
      } else {
        var index := ParseUsize(token);
        if index.None? || index.value >= |items| {
          return None;
        }
        r := EvaluateTokens(items[index.value], rest);
      }
    case Obj(fields) =>
      if token == "*" {
        r := FlattenItems(Values(fields, Sorted(fields.Keys)), rest);
      } else if token in fields {
        r := EvaluateTokens(fields[token], rest);
      } else {
        r := None;
      }
    case _ =>
      r := None;
  }

  method FlattenItems(items: seq<Json>, tokens: seq<string>) returns (r: Option<Json>)
    ensures r == Wildcard(items, tokens)
    decreases |tokens|, 1
  {
    var flattened: seq<Json> := [];
    for i := 0 to |items|
      invariant Flattened(items[..i], tokens) == Some(flattened)
    {
      assert items[..i + 1][..i] == items[..i];
      var value := EvaluateTokens(items[i], tokens);
      if value.None? {
        FailedPrefixFails(items, i + 1, tokens);
        return None;
      }
      flattened := flattened + Spread(value.value);
    }
    assert items[..|items|] == items;
    r := Some(Arr(flattened));
  }

  // ---- locations and the pointers that print them -------------------------------

  datatype Step = Key(key: string) | Index(index: nat)

  type Location = seq<Step>

  /** The location exists in the value. */
  predicate Addresses(v: Json, loc: Location) {
    loc == [] || (
      match loc[0]
      case Key(k) => v.Obj? && k in v.fields && Addresses(v.fields[k], loc[1..])
      case Index(i) => v.Arr? && i < |v.items| && i <= USIZE_MAX && Addresses(v.items[i], loc[1..])
    )
  }

  function At(v: Json, loc: Location): Json
    requires Addresses(v, loc)
  {
    if loc == [] then v
    else
      match loc[0]
      case Key(k) => At(v.fields[k], loc[1..])
      case Index(i) => At(v.items[i], loc[1..])
  }

  /** RFC 6901 section 3: `~` is written `~0` and `/` is written `~1`. */
  function Escape(s: string): string {
    if s == [] then ""
    else (if s[0] == '~' then "~0" else if s[0] == '/' then "~1" else [s[0]]) + Escape(s[1..])
  }

  function PrintStep(step: Step): string {
    match step
    case Key(k) => Escape(k)
    case Index(i) => Decimal(i)
  }

  function PrintSteps(loc: Location): (tokens: seq<string>)
    ensures |tokens| == |loc|
  {
    if loc == [] then [] else [PrintStep(loc[0])] + PrintSteps(loc[1..])
  }

  /** A slash before every escaped token. */
  function Print(loc: Location): string {
    if loc == [] then "" else "/" + PrintStep(loc[0]) + Print(loc[1..])
  }

  // ---- escaping ---------------------------------------------------------------

  lemma {:induction false} UnescapeEscape(k: string)
    ensures Unescape(Escape(k)) == k
  {
    if k != [] {
      var e := Escape(k[1..]);
      UnescapeEscape(k[1..]);
      if k[0] == '~' {
        assert Escape(k) == ['~', '0'] + e;
        assert Escape(k)[1..] == ['0'] + e && (['0'] + e)[1..] == e;
        assert Replace(Escape(k), '1', '/') == ['~'] + Replace(['0'] + e, '1', '/');
        assert Replace(['0'] + e, '1', '/') == ['0'] + Replace(e, '1', '/');
        var r := ['~'] + (['0'] + Replace(e, '1', '/'));
        assert r[2..] == Replace(e, '1', '/');
      } else if k[0] == '/' {
        assert Escape(k) == ['~', '1'] + e;
        assert Escape(k)[2..] == e;
        var r := ['/'] + Replace(e, '1', '/');
        assert r[1..] == Replace(e, '1', '/');
      } else {
        assert Escape(k)[1..] == e;
        var r := [k[0]] + Replace(e, '1', '/');
        assert r[1..] == Replace(e, '1', '/');
      }
      assert k == [k[0]] + k[1..];
    }
  }

  lemma {:induction false} PlainUnescape(s: string)
    requires '~' !in s
    ensures Unescape(s) == s
  {
    PlainReplace(s, '1', '/');
    PlainReplace(s, '0', '~');
  }

  lemma {:induction false} PlainReplace(s: string, digit: char, to: char)
    requires '~' !in s
    ensures Replace(s, digit, to) == s
  {
    if s != [] {
      assert s[0] in s;
      PlainReplace(s[1..], digit, to);
    }
  }

  lemma {:induction false} EscapeHasNoSlash(k: string)
    ensures '/' !in Escape(k)
  {
    if k != [] {
      EscapeHasNoSlash(k[1..]);
    }
  }

  /** What a printed token is read back as. */
  lemma StepToken(step: Step)
    requires step.Index? ==> step.index <= USIZE_MAX
    ensures '/' !in PrintStep(step)
    ensures step.Key? ==> Unescape(PrintStep(step)) == step.key
    ensures step.Index? ==>
              Unescape(PrintStep(step)) != "*" && ParseUsize(Unescape(PrintStep(step))) == Some(step.index)
  {
    match step
    case Key(k) =>
      UnescapeEscape(k);
      EscapeHasNoSlash(k);
    case Index(i) =>
      var d := Decimal(i);
      assert forall c | c in d :: IsDigit(c);
      PlainUnescape(d);
      DecimalIsNumber(i);
      assert d[0] != '+' && d[0] != '*';
  }

  /** Another token in front of a pointer. */
  lemma TailOfPointer(head: string, tail: string)
    requires tail != [] && tail[0] == '/' && '/' !in head
    ensures Tokens("/" + head + tail) == [head] + Tokens(tail)
  {
    SplitOne(head, '/');
    assert ("/" + head + tail)[1..] == head + ['/'] + tail[1..];
    SplitConcat(head, tail[1..], '/');
  }

  predicate SmallIndices(loc: Location) {
    loc == [] || ((loc[0].Index? ==> loc[0].index <= USIZE_MAX) && SmallIndices(loc[1..]))
  }

  lemma {:induction false} PrintedTokens(loc: Location)
    requires loc != [] && SmallIndices(loc)
    ensures Tokens(Print(loc)) == PrintSteps(loc)
  {
    var head := PrintStep(loc[0]);
    StepToken(loc[0]);
    SplitOne(head, '/');
    if |loc| == 1 {
      assert Print(loc)[1..] == head;
      assert PrintSteps(loc) == [head];
    } else {
      PrintedTokens(loc[1..]);
      TailOfPointer(head, Print(loc[1..]));
    }
  }

  lemma {:induction false} AddressesIndices(v: Json, loc: Location)
    requires Addresses(v, loc)
    ensures SmallIndices(loc)
  {
    if loc != [] {
      match loc[0]
      case Key(k) => AddressesIndices(v.fields[k], loc[1..]);
      case Index(i) => AddressesIndices(v.items[i], loc[1..]);
    }
  }

  predicate StarFree(loc: Location) {
    forall i :: 0 <= i < |loc| ==> loc[i] != Key("*")
  }

  /**
   Whether the pointer of a location is read as that location. A key `*` is read as the
   wildcard, which flattens what it finds in all members into one array: that is the value
   meant only if this is an array and all other members contribute nothing to it.
   */
  ghost predicate Readable(v: Json, loc: Location)
    requires Addresses(v, loc)
    decreases |loc|
  {
    loc == [] || (
      match loc[0]
      case Index(i) => Readable(v.items[i], loc[1..])
      case Key(k) =>
        && Readable(v.fields[k], loc[1..])
        && (k == "*" ==>
              At(v, loc).Arr? && OthersEmpty(v.fields, PrintSteps(loc[1..])))
    )
  }

  lemma FlattenedStep(items: seq<Json>, tokens: seq<string>)
    requires items != []
    ensures var n := |items| - 1;
            var before, last := Flattened(items[..n], tokens), EvalTokens(items[n], tokens);
            && (Flattened(items, tokens).Some? <==> before.Some? && last.Some?)
            && (before.Some? && last.Some? ==>
                  && Flattened(items, tokens).value == before.value + Spread(last.value)
                  && |Flattened(items, tokens).value| == |before.value| + |Spread(last.value)|)
            && (last.Some? ==> (Spread(last.value) == [] <==> last == Some(Arr([]))))
            && forall j :: 0 <= j < n ==> items[..n][j] == items[j]
  {
  }

  lemma {:induction false} FlattenedNothing(items: seq<Json>, tokens: seq<string>)
    ensures Flattened(items, tokens) == Some([]) <==>
            forall j :: 0 <= j < |items| ==> EvalTokens(items[j], tokens) == Some(Arr([]))
    decreases |items|
  {
    if items != [] {
      var n := |items| - 1;
      FlattenedStep(items, tokens);
      FlattenedNothing(items[..n], tokens);
      if Flattened(items[..n], tokens) == Some([]) && EvalTokens(items[n], tokens) == Some(Arr([])) {
        assert [] + Spread(Arr([])) == [];
      }
    }
  }

  /** If flattening succeeds, every item has a value, and it is part of the result. */
  lemma {:induction false} FlattenedHolds(items: seq<Json>, tokens: seq<string>, i: nat)
    requires i < |items| && Flattened(items, tokens).Some?
    ensures EvalTokens(items[i], tokens).Some?
    ensures var all, part := Flattened(items, tokens).value, Spread(EvalTokens(items[i], tokens).value);
            && |part| <= |all|
            && (|part| == |all| ==>
                  && all == part
                  && forall j :: 0 <= j < |items| && j != i ==> EvalTokens(items[j], tokens) == Some(Arr([])))
    decreases |items|
  {
    var n := |items| - 1;
    FlattenedStep(items, tokens);
    if i < n {
      FlattenedHolds(items[..n], tokens, i);
    } else {
      FlattenedNothing(items[..n], tokens);
    }
  }

  lemma {:induction false} FlattenedAlone(items: seq<Json>, tokens: seq<string>, i: nat)
    requires i < |items| && EvalTokens(items[i], tokens).Some?
    requires forall j :: 0 <= j < |items| && j != i ==> EvalTokens(items[j], tokens) == Some(Arr([]))
    ensures Flattened(items, tokens) == Some(Spread(EvalTokens(items[i], tokens).value))
    decreases |items|
  {
    var n, part := |items| - 1, Spread(EvalTokens(items[i], tokens).value);
    FlattenedStep(items, tokens);
    if i < n {
      FlattenedAlone(items[..n], tokens, i);
      assert part + [] == part;
    } else {
      FlattenedNothing(items[..n], tokens);
      assert [] + part == part;
    }
  }

  /** The member `*` among the values a wildcard goes through. */
  lemma StarAmongValues(fields: map<string, Json>) returns (i: nat)
    requires "*" in fields
    ensures var keys := Sorted(fields.Keys);
            && i < |keys| && keys[i] == "*" && Values(fields, keys)[i] == fields["*"]
            && forall j :: 0 <= j < |keys| && j != i ==> keys[j] != "*"
  {
    var keys := Sorted(fields.Keys);
    assert "*" in keys;
    i :| 0 <= i < |keys| && keys[i] == "*";
  }

  lemma StarToken(loc: Location)
    requires loc != [] && loc[0] == Key("*")
    ensures Unescape(PrintSteps(loc)[0]) == "*" && PrintSteps(loc)[1..] == PrintSteps(loc[1..])
  {
    StepToken(Key("*"));
  }

  /** What a `*` key evaluates to, in terms of what the rest gives on the member `*`. */
  lemma StarEvaluates(v: Json, loc: Location)
    requires loc != [] && loc[0] == Key("*") && Addresses(v, loc)
    ensures var tokens := PrintSteps(loc[1..]);
            var r, own := EvalTokens(v, PrintSteps(loc)), EvalTokens(v.fields["*"], tokens);
            && (r.Some? ==>
                  && r.value.Arr? && own.Some? && |Spread(own.value)| <= |r.value.items|
                  && (|Spread(own.value)| == |r.value.items| ==>
                        r == Some(Arr(Spread(own.value))) && OthersEmpty(v.fields, tokens)))
            && (own.Some? && OthersEmpty(v.fields, tokens) ==> r == Some(Arr(Spread(own.value))))
  {
    var tokens, keys := PrintSteps(loc[1..]), Sorted(v.fields.Keys);
    var items := Values(v.fields, keys);
    var i := StarAmongValues(v.fields);
    StarToken(loc);
    assert EvalTokens(v, PrintSteps(loc)) == Wildcard(items, tokens);
    if Flattened(items, tokens).Some? {
      FlattenedHolds(items, tokens, i);
      if forall j :: 0 <= j < |items| && j != i ==> EvalTokens(items[j], tokens) == Some(Arr([])) {
        OthersAmongValues(v.fields, tokens, i);
      }
    }
    if EvalTokens(v.fields["*"], tokens).Some? && OthersEmpty(v.fields, tokens) {
      FlattenedAlone(items, tokens, i);
    }
  }

  ghost predicate OthersEmpty(fields: map<string, Json>, tokens: seq<string>) {
    forall m :: m in fields && m != "*" ==> EvalTokens(fields[m], tokens) == Some(Arr([]))
  }

  lemma OthersAmongValues(fields: map<string, Json>, tokens: seq<string>, i: nat)
    requires i < |Sorted(fields.Keys)| && Sorted(fields.Keys)[i] == "*"
    requires var items := Values(fields, Sorted(fields.Keys));
             forall j :: 0 <= j < |items| && j != i ==> EvalTokens(items[j], tokens) == Some(Arr([]))
    ensures OthersEmpty(fields, tokens)
  {
    var keys := Sorted(fields.Keys);
    forall m | m in fields && m != "*" ensures EvalTokens(fields[m], tokens) == Some(Arr([])) {
      assert m in keys;
      var j :| 0 <= j < |keys| && keys[j] == m;
      assert Values(fields, keys)[j] == fields[m];
    }
  }

  lemma StarFreeTail(loc: Location)
    requires loc != []
    ensures StarFree(loc) <==> loc[0] != Key("*") && StarFree(loc[1..])
  {
    assert forall j :: 0 <= j < |loc| - 1 ==> loc[1..][j] == loc[j + 1];
    assert forall j :: 0 < j < |loc| ==> loc[j] == loc[1..][j - 1];
  }

  /** Beyond a `*` the evaluation can only add to the value meant. */
  lemma {:induction false} StarsOnlyAdd(v: Json, loc: Location)
    requires Addresses(v, loc) && EvalTokens(v, PrintSteps(loc)).Some?
    ensures var r := EvalTokens(v, PrintSteps(loc)).value;
            if StarFree(loc) then r == At(v, loc) else r.Arr? && |Spread(At(v, loc))| <= |r.items|
    decreases |loc|
  {
    if loc != [] {
      StarFreeTail(loc);
      if loc[0] == Key("*") {
        StarEvaluates(v, loc);
        StarsOnlyAdd(v.fields["*"], loc[1..]);
      } else {
        PlainStep(v, loc);
        StarsOnlyAdd(Child(v, loc[0]), loc[1..]);
      }
    }
  }

  function Child(v: Json, step: Step): Json
    requires Addresses(v, [step])
  {
    match step
    case Key(k) => v.fields[k]
    case Index(i) => v.items[i]
  }

  lemma PlainStep(v: Json, loc: Location)
    requires loc != [] && loc[0] != Key("*") && Addresses(v, loc)
    ensures Addresses(v, [loc[0]]) && Addresses(Child(v, loc[0]), loc[1..])
    ensures At(v, loc) == At(Child(v, loc[0]), loc[1..])
    ensures EvalTokens(v, PrintSteps(loc)) == EvalTokens(Child(v, loc[0]), PrintSteps(loc[1..]))
    ensures Readable(v, loc) == Readable(Child(v, loc[0]), loc[1..])
  {
    assert [loc[0]][1..] == [];
    AddressesIndices(v, loc);
    StepToken(loc[0]);
    assert PrintSteps(loc)[1..] == PrintSteps(loc[1..]);
  }

  /** Evaluating a printed location gives its value exactly when the location is readable. */
  lemma {:induction false} TokensReachIff(v: Json, loc: Location)
    requires Addresses(v, loc)
    ensures EvalTokens(v, PrintSteps(loc)) == Some(At(v, loc)) <==> Readable(v, loc)
    decreases |loc|
  {
    if loc != [] {
      if loc[0] == Key("*") {
        TokensReachIff(v.fields["*"], loc[1..]);
        StarReachesIff(v, loc);
      } else {
        PlainStep(v, loc);
        TokensReachIff(Child(v, loc[0]), loc[1..]);
      }
    }
  }

  /** One `*` key: the wildcard's array is the value meant just when the other members add nothing. */
  lemma StarReachesIff(v: Json, loc: Location)
    requires loc != [] && loc[0] == Key("*") && Addresses(v, loc)
    requires EvalTokens(v.fields["*"], PrintSteps(loc[1..])) == Some(At(v, loc)) <==> Readable(v.fields["*"], loc[1..])
    ensures EvalTokens(v, PrintSteps(loc)) == Some(At(v, loc)) <==> Readable(v, loc)
  {
    StarEvaluates(v, loc);
    var own := EvalTokens(v.fields["*"], PrintSteps(loc[1..]));
    if own.Some? {
      StarsOnlyAdd(v.fields["*"], loc[1..]);
    }
  }

  lemma {:induction false} StarFreeReadable(v: Json, loc: Location)
    requires Addresses(v, loc) && StarFree(loc)
    ensures Readable(v, loc)
    decreases |loc|
  {
    if loc != [] {
      assert forall j :: 0 <= j < |loc[1..]| ==> loc[1..][j] == loc[j + 1];
      match loc[0]
      case Key(k) => StarFreeReadable(v.fields[k], loc[1..]);
      case Index(i) => StarFreeReadable(v.items[i], loc[1..]);
    }
  }

  /** Every location without a key `*`, printed as a pointer, evaluates to exactly the value there. */
  lemma PointerComplete(v: Json, loc: Location)
    requires loc != [] && Addresses(v, loc) && StarFree(loc)
    ensures EvalPath(v, Print(loc)) == Some(At(v, loc))
  {
    StarFreeReadable(v, loc);
    PointerCompleteIff(v, loc);
  }

  /** And with such keys anywhere in it, exactly if it is readable. */
  lemma PointerCompleteIff(v: Json, loc: Location)
    requires loc != [] && Addresses(v, loc)
    ensures EvalPath(v, Print(loc)) == Some(At(v, loc)) <==> Readable(v, loc)
  {
    AddressesIndices(v, loc);
    PrintedTokens(loc);
    TokensReachIff(v, loc);
  }

  /** The member `*` itself: its pointer gives it back exactly if it is an array and all others are empty ones. */
  lemma StarMemberIff(fields: map<string, Json>)
    requires "*" in fields
    ensures EvalPath(Obj(fields), "/*") == Some(fields["*"]) <==>
            fields["*"].Arr? && forall m :: m in fields && m != "*" ==> fields[m] == Arr([])
  {
    var loc := [Key("*")];
    assert loc[1..] == [] && Escape("*") == "*";
    assert Print(loc) == "/*";
    PointerCompleteIff(Obj(fields), loc);
  }

  predicate WildcardFree(tokens: seq<string>) {
    forall i :: 0 <= i < |tokens| ==> Unescape(tokens[i]) != "*"
  }

  /** Conversely a path without wildcards never yields anything but the value at a location. */
  lemma {:induction false} PointerSound(v: Json, tokens: seq<string>) returns (loc: Location)
    requires WildcardFree(tokens) && EvalTokens(v, tokens).Some?
    ensures |loc| == |tokens| && Addresses(v, loc) && EvalTokens(v, tokens) == Some(At(v, loc))
    decreases |tokens|
  {
    if tokens == [] {
      loc := [];
    } else {
      var token, rest := Unescape(tokens[0]), tokens[1..];
      match v
      case Arr(items) =>
        var i := ParseUsize(token).value;
        var tail := PointerSound(items[i], rest);
        loc := [Index(i)] + tail;
      case Obj(fields) =>
        var tail := PointerSound(fields[token], rest);
        loc := [Key(token)] + tail;
    }
  }

  // ---- composition --------------------------------------------------------------

  function Then(r: Option<Json>, tokens: seq<string>): Option<Json> {
    match r
    case None => None
    case Some(v) => EvalTokens(v, tokens)
  }

  lemma {:induction false} TokensCompose(v: Json, a: seq<string>, b: seq<string>)
    requires WildcardFree(a)
    ensures EvalTokens(v, a + b) == Then(EvalTokens(v, a), b)
    decreases |a|
  {
    if a == [] {
      assert a + b == b;
    } else {
      assert (a + b)[1..] == a[1..] + b;
      var token := Unescape(a[0]);
      match v
      case Arr(items) =>
        var index := ParseUsize(token);
        if index.Some? && index.value < |items| {
          TokensCompose(items[index.value], a[1..], b);
        }
      case Obj(fields) =>
        if token in fields {
          TokensCompose(fields[token], a[1..], b);
        }
      case _ =>
    }
  }

  /** Evaluating `p` and then `q` is evaluating `p` followed by `q`. */
  lemma PathsCompose(v: Json, p: string, q: string)
    requires p != [] && p[0] == '/' && q != [] && q[0] == '/' && WildcardFree(Tokens(p))
    ensures EvalPath(v, p + q) == Then(EvalPath(v, p), Tokens(q))
  {
    assert (p + q)[1..] == p[1..] + ['/'] + q[1..];
    SplitConcat(p[1..], q[1..], '/');
    TokensCompose(v, Tokens(p), Tokens(q));
  }

  /** A wildcard token applies the rest of the path to each item and flattens one level. */
  lemma {:induction false} WildcardFlattens(items: seq<Json>, tokens: seq<string>, results: seq<Json>)
    requires |results| == |items|
    requires forall i :: 0 <= i < |items| ==> EvalTokens(items[i], tokens) == Some(results[i])
    ensures EvalTokens(Arr(items), ["*"] + tokens) == Some(Arr(Concat(results)))
  {
    PlainUnescape("*");
    FlattenedIs(items, tokens, results);
    assert (["*"] + tokens)[1..] == tokens;
  }

  function Concat(results: seq<Json>): seq<Json> {
    if results == [] then [] else Concat(results[..|results| - 1]) + Spread(results[|results| - 1])
  }

  lemma {:induction false} FlattenedIs(items: seq<Json>, tokens: seq<string>, results: seq<Json>)
    requires |results| == |items|
    requires forall i :: 0 <= i < |items| ==> EvalTokens(items[i], tokens) == Some(results[i])
    ensures Flattened(items, tokens) == Some(Concat(results))
  {
    if items != [] {
      FlattenedIs(items[..|items| - 1], tokens, results[..|items| - 1]);
    }
  }

  // ---- what the pointer syntax cannot say -----------------------------------------

  /** A number under the key `*` comes back wrapped in an array. */
  lemma StarWraps(n: int)
    ensures EvalPath(Obj(map["*" := Num(n)]), "/*") == Some(Arr([Num(n)]))
  {
    var v, loc := Obj(map["*" := Num(n)]), [Key("*")];
    assert loc[1..] == [] && Escape("*") == "*" && Print(loc) == "/*";
    PrintedTokens(loc);
    StarEvaluates(v, loc);
  }

  /** The empty pointer names the member `""`, not the whole document as in section 5 of RFC 6901. */
  lemma EmptyPointerIsEmptyKey(v: Json)
    ensures EvalPath(v, "") == EvalPath(v, "/")
    ensures EvalPath(v, "") == if v.Obj? && "" in v.fields then Some(v.fields[""]) else None
  {
    assert Tokens("") == [""] && Tokens("/") == [""];
    assert EvalTokens(v, [""]) == if v.Obj? && "" in v.fields then EvalTokens(v.fields[""], []) else None;
  }
}
