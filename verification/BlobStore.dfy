/**
 The encrypted, content-addressed blob store of crates/owney-storage/src/blob.rs:
 the file format, `put` and `get`, and any number of writers interleaving the
 steps of `put` with crashes anywhere.

 Hash and AEAD are arbitrary functions under two laws: opening what was sealed
 with the same key, nonce and associated data gives the message back, and
 sealing adds a 16-byte tag.
 */
module BlobStore {
  import opened Text

  newtype Byte = b: int | 0 <= b < 256
  type Bytes = seq<Byte>

  datatype Result<+T> = Ok(value: T) | NotFound | Corrupt | CryptoError | IoError

  datatype Crypto = Crypto(
    hash: Bytes -> Bytes,
    seal: (Bytes, Bytes, Bytes, Bytes) -> Bytes,
    open: (Bytes, Bytes, Bytes, Bytes) -> Option<Bytes>,
    master: Bytes)

  /** Key, nonce, associated data, message. */
  ghost predicate Lawful(c: Crypto) {
    forall key, nonce, aad, msg {:trigger c.seal(key, nonce, aad, msg)} ::
      && c.open(key, nonce, aad, c.seal(key, nonce, aad, msg)) == Some(msg)
      && |c.seal(key, nonce, aad, msg)| == |msg| + 16
  }

  ghost predicate NoCollision(c: Crypto) {
    forall a, b :: c.hash(a) == c.hash(b) ==> a == b
  }

  const MAGIC: Bytes := [0x4D, 0x53, 0x42, 0x31]
  const NONCE_LEN := 24
  const WRAPPED_KEY_LEN := 48
  const HEADER_LEN := 4 + NONCE_LEN + WRAPPED_KEY_LEN + NONCE_LEN

  /** The three random values drawn for a file. */
  datatype Random = Random(blobKey: Bytes, wrapNonce: Bytes, dataNonce: Bytes)

  predicate WellSized(r: Random) {
    |r.blobKey| == 32 && |r.wrapNonce| == NONCE_LEN && |r.dataNonce| == NONCE_LEN
  }

  // ---- the file format -------------------------------------------------------

  /** The bytes `put` writes. */
  function Encode(c: Crypto, plaintext: Bytes, r: Random): Bytes {
    MAGIC + r.wrapNonce + c.seal(c.master, r.wrapNonce, [], r.blobKey) + r.dataNonce
      + c.seal(r.blobKey, r.dataNonce, c.hash(plaintext), plaintext)
  }

  /** What `get` makes of the bytes of the file named `id`. */
  function Decode(c: Crypto, id: Bytes, raw: Bytes): Result<Bytes> {
    if |raw| < HEADER_LEN || raw[..4] != MAGIC then Corrupt
    else
      var wrapEnd := 4 + NONCE_LEN;
      var keyEnd := wrapEnd + WRAPPED_KEY_LEN;
      var wrapNonce, wrappedKey, dataNonce := raw[4..wrapEnd], raw[wrapEnd..keyEnd], raw[keyEnd..HEADER_LEN];
      match c.open(c.master, wrapNonce, [], wrappedKey)
      case None => CryptoError
      case Some(key) =>
        if |key| != 32 then Corrupt
        else
          match c.open(key, dataNonce, id, raw[HEADER_LEN..])
          case None => CryptoError
          case Some(plaintext) => if c.hash(plaintext) == id then Ok(plaintext) else Corrupt
  }

  /** Whatever the random values, `get` undoes `put`. */
  lemma FormatRoundTrip(c: Crypto, plaintext: Bytes, r: Random)
    requires Lawful(c) && WellSized(r)
    ensures Decode(c, c.hash(plaintext), Encode(c, plaintext, r)) == Ok(plaintext)
  {
    var wrapped := c.seal(c.master, r.wrapNonce, [], r.blobKey);
    var sealed := c.seal(r.blobKey, r.dataNonce, c.hash(plaintext), plaintext);
    assert |wrapped| == 48;
    var raw := Encode(c, plaintext, r);
    assert raw == MAGIC + (r.wrapNonce + (wrapped + (r.dataNonce + sealed)));
    assert raw[..4] == MAGIC && raw[4..28] == r.wrapNonce && raw[28..76] == wrapped;
    assert raw[76..100] == r.dataNonce && raw[100..] == sealed;
  }

  /** A file only ever decodes to content that hashes to its name, so it cannot be passed off under another. */
  lemma DecodedHashesToName(c: Crypto, id: Bytes, raw: Bytes)
    requires Decode(c, id, raw).Ok?
    ensures c.hash(Decode(c, id, raw).value) == id
  {
  }

  // ---- put and get, one writer -------------------------------------------------

  /** How the file system answers the three calls of `write_atomically`. */
  datatype Io = Io(mkdirOk: bool, written: nat, renameOk: bool)

  /** Files, temporary files and answer after `put`. */
  function PutOn(c: Crypto, files: map<Bytes, Bytes>, temps: map<(Bytes, nat), Bytes>,
                 plaintext: Bytes, r: Random, nonce: nat, io: Io)
    : (map<Bytes, Bytes>, map<(Bytes, nat), Bytes>, Result<Bytes>)
  {
    var id, file := c.hash(plaintext), Encode(c, plaintext, r);
    if id in files then (files, temps, Ok(id))
    else if !io.mkdirOk then (files, temps, IoError)
    else if io.written < |file| then (files, temps[(id, nonce) := file[..io.written]], IoError)
    else if !io.renameOk then (files, temps[(id, nonce) := file], IoError)
    else (files[id := file], temps - {(id, nonce)}, Ok(id))
  }

  class Store {
    const c: Crypto
    var files: map<Bytes, Bytes>
    var temps: map<(Bytes, nat), Bytes>

    constructor (c: Crypto)
      ensures this.c == c && files == map[] && temps == map[]
    {
      this.c := c;
      files := map[];
      temps := map[];
    }

    /** Every file at a final path decodes under its own name. */
    ghost predicate Valid()
      reads this
    {
      forall id :: id in files ==> Decode(c, id, files[id]).Ok?
    }

    /**
     `put`: an existing file is left alone; otherwise the new file appears complete or not at all.
     An error leaves the final paths as they were.
     */
    method Put(plaintext: Bytes, r: Random, nonce: nat, io: Io) returns (res: Result<Bytes>)
      requires Lawful(c) && WellSized(r) && Valid()
      modifies this
      ensures Valid()
      ensures res.Ok? ==> res.value == c.hash(plaintext) && c.hash(plaintext) in files
      ensures res.Ok? || res.IoError?
      ensures files == old(files) || (res.Ok? && files == old(files)[c.hash(plaintext) := Encode(c, plaintext, r)])
      ensures c.hash(plaintext) in old(files) ==> files == old(files) && temps == old(temps) && res.Ok?
      ensures (files, temps, res) == PutOn(c, old(files), old(temps), plaintext, r, nonce, io)
    {
      var id := c.hash(plaintext);
      if id in files {
        return Ok(id);
      }
      var file := Encode(c, plaintext, r);
      FormatRoundTrip(c, plaintext, r);
      if !io.mkdirOk {
        return IoError;
      }
      temps := temps[(id, nonce) := if io.written < |file| then file[..io.written] else file];
      if io.written < |file| {
        return IoError;
      }
      if !io.renameOk {
        return IoError;
      }
      files := files[id := temps[(id, nonce)]];
      temps := temps - {(id, nonce)};
      assert temps == old(temps) - {(id, nonce)};
      res := Ok(id);
    }

    method Get(id: Bytes) returns (res: Result<Bytes>)
      requires Valid()
      ensures id !in files <==> res == NotFound
      ensures id in files ==> res.Ok? && c.hash(res.value) == id
      ensures id in files ==> res == Decode(c, id, files[id])
    {
      if id !in files {
        return NotFound;
      }
      res := Decode(c, id, files[id]);
    }
  }

  // ---- concurrent writers --------------------------------------------------------

  type WriterId = nat

  /** Where a writer stands in `put`. */
  datatype Stage =
    | Checking
    | Sealed(file: Bytes)
    | Writing(file: Bytes, nonce: nat, written: nat)
    | Done
    | Failed

  datatype Writer = Writer(plaintext: Bytes, stage: Stage)

  datatype Disk = Disk(
    files: map<Bytes, Bytes>,
    temps: map<(Bytes, nat), Bytes>,
    writers: map<WriterId, Writer>)

  datatype Action =
    | Begin(w: WriterId, plaintext: Bytes)
    | Check(w: WriterId, r: Random)
    | CreateTemp(w: WriterId, nonce: nat)
    | Append(w: WriterId, more: nat)
    | Fail(w: WriterId)
    | Commit(w: WriterId)
    | FindExisting(w: WriterId)
    | Kill(w: WriterId)
    | PowerCut(temps: map<(Bytes, nat), Bytes>)

  const BLANK := Disk(map[], map[], map[])

  /** Temporary names are never reused while a file of that name is there. */
  ghost predicate Enabled(c: Crypto, d: Disk, a: Action) {
    match a
    case Begin(w, _) => w !in d.writers
    case Check(w, r) => w in d.writers && d.writers[w].stage.Checking? && WellSized(r)
    case CreateTemp(w, nonce) =>
      w in d.writers && d.writers[w].stage.Sealed? && (c.hash(d.writers[w].plaintext), nonce) !in d.temps
    case Append(w, more) =>
      w in d.writers && d.writers[w].stage.Writing? && d.writers[w].stage.written + more <= |d.writers[w].stage.file|
    case Fail(w) => w in d.writers && !d.writers[w].stage.Done?
    case Commit(w) => Complete(d, w) && TempName(c, d, w) in d.temps
    case FindExisting(w) => Complete(d, w) && c.hash(d.writers[w].plaintext) in d.files
    case Kill(w) => w in d.writers
    case PowerCut(_) => true
  }

  /** All bytes are in the temporary file. */
  predicate Complete(d: Disk, w: WriterId) {
    w in d.writers && d.writers[w].stage.Writing? && d.writers[w].stage.written == |d.writers[w].stage.file|
  }

  function TempName(c: Crypto, d: Disk, w: WriterId): (Bytes, nat)
    requires w in d.writers && d.writers[w].stage.Writing?
  {
    (c.hash(d.writers[w].plaintext), d.writers[w].stage.nonce)
  }

  function At(d: Disk, w: WriterId, stage: Stage): map<WriterId, Writer>
    requires w in d.writers
  {
    d.writers[w := d.writers[w].(stage := stage)]
  }

  /** Opening a temporary file for writing empties whatever had that name. */
  function Created(c: Crypto, d: Disk, w: WriterId, nonce: nat): Disk
    requires w in d.writers && d.writers[w].stage.Sealed?
  {
    d.(temps := d.temps[(c.hash(d.writers[w].plaintext), nonce) := []],
       writers := At(d, w, Writing(d.writers[w].stage.file, nonce, 0)))
  }

  ghost function Next(c: Crypto, d: Disk, a: Action): Disk
    requires Enabled(c, d, a)
  {
    match a
    case Begin(w, plaintext) => d.(writers := d.writers[w := Writer(plaintext, Checking)])
    case Check(w, r) =>
      var plaintext := d.writers[w].plaintext;
      if c.hash(plaintext) in d.files then d.(writers := At(d, w, Done))
      else d.(writers := At(d, w, Sealed(Encode(c, plaintext, r))))
    case CreateTemp(w, nonce) => Created(c, d, w, nonce)
    case Append(w, more) =>
      var s := d.writers[w].stage;
      d.(temps := d.temps[TempName(c, d, w) := s.file[..s.written + more]],
         writers := At(d, w, s.(written := s.written + more)))
    case Fail(w) => d.(writers := At(d, w, Failed))
    case Commit(w) =>
      d.(files := d.files[c.hash(d.writers[w].plaintext) := d.temps[TempName(c, d, w)]],
         temps := d.temps - {TempName(c, d, w)},
         writers := At(d, w, Done))
    case FindExisting(w) => d.(temps := d.temps - {TempName(c, d, w)}, writers := At(d, w, Done))
    case Kill(w) => d.(writers := d.writers - {w})
    case PowerCut(temps) => d.(temps := temps, writers := map[])
  }

  // ---- the invariant ----------------------------------------------------------------

  ghost predicate FilesOk(c: Crypto, d: Disk) {
    forall id :: id in d.files ==> Decode(c, id, d.files[id]).Ok?
  }

  ghost predicate WriterOk(c: Crypto, d: Disk, w: WriterId)
    requires w in d.writers
  {
    var id := c.hash(d.writers[w].plaintext);
    match d.writers[w].stage
    case Sealed(file) => Decode(c, id, file) == Ok(d.writers[w].plaintext)
    case Writing(file, nonce, written) =>
      && Decode(c, id, file) == Ok(d.writers[w].plaintext)
      && written <= |file| && (id, nonce) in d.temps && d.temps[(id, nonce)] == file[..written]
    case Done => id in d.files
    case _ => true
  }

  ghost predicate NamesApart(c: Crypto, d: Disk) {
    forall v, w :: (
      && v in d.writers && w in d.writers && d.writers[v].stage.Writing? && d.writers[w].stage.Writing?
      && TempName(c, d, v) == TempName(c, d, w)) ==> v == w
  }

  ghost predicate Inv(c: Crypto, d: Disk) {
    FilesOk(c, d) && (forall w :: w in d.writers ==> WriterOk(c, d, w)) && NamesApart(c, d)
  }

  /** A step of one writer leaves the others' temporary files and stages alone. */
  lemma OthersOk(c: Crypto, d: Disk, e: Disk, w: WriterId)
    requires Inv(c, d) && FilesOk(c, e)
    requires d.files.Keys <= e.files.Keys && e.writers.Keys == d.writers.Keys && w in d.writers
    requires forall v :: v in d.writers && v != w ==> e.writers[v] == d.writers[v]
    requires forall v :: v in d.writers && v != w && d.writers[v].stage.Writing? ==>
               TempName(c, d, v) in e.temps && e.temps[TempName(c, d, v)] == d.temps[TempName(c, d, v)]
    requires WriterOk(c, e, w)
    requires e.writers[w].stage.Writing? ==>
               forall v :: v in d.writers && v != w && d.writers[v].stage.Writing? ==>
                 TempName(c, d, v) != TempName(c, e, w)
    ensures Inv(c, e)
  {
    forall v | v in e.writers ensures WriterOk(c, e, v) {
      if v != w { assert WriterOk(c, d, v); }
    }
  }

  lemma CheckKeeps(c: Crypto, d: Disk, w: WriterId, r: Random)
    requires Lawful(c) && Inv(c, d) && Enabled(c, d, Check(w, r))
    ensures Inv(c, Next(c, d, Check(w, r)))
  {
    FormatRoundTrip(c, d.writers[w].plaintext, r);
    forall v | v in d.writers ensures WriterOk(c, d, v) { }
    OthersOk(c, d, Next(c, d, Check(w, r)), w);
  }

  lemma CreateKeeps(c: Crypto, d: Disk, w: WriterId, nonce: nat)
    requires Inv(c, d) && Enabled(c, d, CreateTemp(w, nonce))
    ensures Inv(c, Next(c, d, CreateTemp(w, nonce)))
  {
    assert WriterOk(c, d, w);
    forall v | v in d.writers ensures WriterOk(c, d, v) { }
    OthersOk(c, d, Next(c, d, CreateTemp(w, nonce)), w);
  }

  lemma AppendKeeps(c: Crypto, d: Disk, w: WriterId, more: nat)
    requires Inv(c, d) && Enabled(c, d, Append(w, more))
    ensures Inv(c, Next(c, d, Append(w, more)))
  {
    assert WriterOk(c, d, w);
    forall v | v in d.writers ensures WriterOk(c, d, v) { }
    OthersOk(c, d, Next(c, d, Append(w, more)), w);
  }

  lemma CommitKeeps(c: Crypto, d: Disk, a: Action)
    requires Inv(c, d) && Enabled(c, d, a) && (a.Commit? || a.FindExisting?)
    ensures Inv(c, Next(c, d, a))
  {
    var w := a.w;
    assert WriterOk(c, d, w);
    var file := d.writers[w].stage.file;
    assert file[..|file|] == file;
    forall v | v in d.writers ensures WriterOk(c, d, v) { }
    OthersOk(c, d, Next(c, d, a), w);
  }

  lemma FailKeeps(c: Crypto, d: Disk, w: WriterId)
    requires Inv(c, d) && Enabled(c, d, Fail(w))
    ensures Inv(c, Next(c, d, Fail(w)))
  {
    forall v | v in d.writers ensures WriterOk(c, d, v) { }
    OthersOk(c, d, Next(c, d, Fail(w)), w);
  }

  /** A power cut ends every writer and may leave anything in the temporary files. */
  lemma PowerCutKeeps(c: Crypto, d: Disk, a: Action)
    requires Inv(c, d) && Enabled(c, d, a) && a.PowerCut?
    ensures Inv(c, Next(c, d, a))
  {
  }

  /** Writers come and go. */
  lemma RestKeeps(c: Crypto, d: Disk, a: Action)
    requires Inv(c, d) && Enabled(c, d, a) && (a.Begin? || a.Kill?)
    ensures Inv(c, Next(c, d, a))
  {
    var e := Next(c, d, a);
    forall v | v in e.writers ensures WriterOk(c, e, v) {
      if v in d.writers { assert WriterOk(c, d, v); }
    }
  }

  lemma StepKeeps(c: Crypto, d: Disk, a: Action)
    requires Lawful(c) && Inv(c, d) && Enabled(c, d, a)
    ensures Inv(c, Next(c, d, a))
  {
    match a
    case Check(w, r) => CheckKeeps(c, d, w, r);
    case CreateTemp(w, nonce) => CreateKeeps(c, d, w, nonce);
    case Append(w, more) => AppendKeeps(c, d, w, more);
    case Fail(w) => FailKeeps(c, d, w);
    case Commit(_) => CommitKeeps(c, d, a);
    case FindExisting(_) => CommitKeeps(c, d, a);
    case PowerCut(_) => PowerCutKeeps(c, d, a);
    case _ => RestKeeps(c, d, a);
  }

  // ---- whole runs ------------------------------------------------------------------------

  ghost predicate Legal(c: Crypto, d: Disk, actions: seq<Action>)
    decreases |actions|
  {
    actions == [] || (Enabled(c, d, actions[0]) && Legal(c, Next(c, d, actions[0]), actions[1..]))
  }

  ghost function After(c: Crypto, d: Disk, actions: seq<Action>): Disk
    requires Legal(c, d, actions)
    decreases |actions|
  {
    if actions == [] then d else After(c, Next(c, d, actions[0]), actions[1..])
  }

  /** Present blobs stay present and readable, over every interleaving with crashes. */
  lemma {:induction false} RunKeeps(c: Crypto, d: Disk, actions: seq<Action>)
    requires Lawful(c) && Inv(c, d) && Legal(c, d, actions)
    ensures Inv(c, After(c, d, actions))
    ensures d.files.Keys <= After(c, d, actions).files.Keys
    decreases |actions|
  {
    if actions != [] {
      StepKeeps(c, d, actions[0]);
      RunKeeps(c, Next(c, d, actions[0]), actions[1..]);
    }
  }

  /** What `get` returns on a disk. */
  function Read(c: Crypto, d: Disk, id: Bytes): Result<Bytes> {
    if id in d.files then Decode(c, id, d.files[id]) else NotFound
  }

  /** On every reachable disk a read finds nothing or content that hashes to the name, never a corrupt file. */
  lemma ReadsAreSound(c: Crypto, actions: seq<Action>, id: Bytes)
    requires Lawful(c) && Legal(c, BLANK, actions)
    ensures var res := Read(c, After(c, BLANK, actions), id);
            res == NotFound || (res.Ok? && c.hash(res.value) == id)
  {
    RunKeeps(c, BLANK, actions);
    var d := After(c, BLANK, actions);
    if id in d.files {
      DecodedHashesToName(c, id, d.files[id]);
    }
  }

  /** Once a `put` of `p` has returned, every later read of its id returns `p`, whatever else happens. */
  lemma CompletedPutIsDurable(c: Crypto, before: seq<Action>, later: seq<Action>, w: WriterId)
    requires Lawful(c) && NoCollision(c) && Legal(c, BLANK, before)
    requires var d := After(c, BLANK, before);
             w in d.writers && d.writers[w].stage == Done && Legal(c, d, later)
    ensures var d := After(c, BLANK, before);
            Read(c, After(c, d, later), c.hash(d.writers[w].plaintext)) == Ok(d.writers[w].plaintext)
  {
    RunKeeps(c, BLANK, before);
    var d := After(c, BLANK, before);
    assert WriterOk(c, d, w);
    RunKeeps(c, d, later);
    var e, id := After(c, d, later), c.hash(d.writers[w].plaintext);
    DecodedHashesToName(c, id, e.files[id]);
  }

  /**
   Why temporary names must be unique: a second writer of the same blob that opens the finished
   temporary file of the first, which only the missing guard keeps it from, empties it, and the
   first writer's rename publishes an unreadable blob.
   */
  lemma SharedTempNameCorrupts(c: Crypto, d: Disk, w: WriterId, v: WriterId)
    requires Inv(c, d) && Complete(d, w) && v in d.writers && v != w && d.writers[v].stage.Sealed?
    requires c.hash(d.writers[v].plaintext) == c.hash(d.writers[w].plaintext)
    ensures var nonce := d.writers[w].stage.nonce;
            var e := Created(c, d, v, nonce);
            && !Enabled(c, d, CreateTemp(v, nonce))
            && Enabled(c, e, Commit(w))
            && Read(c, Next(c, e, Commit(w)), c.hash(d.writers[w].plaintext)) == Corrupt
  {
    assert WriterOk(c, d, w);
  }

  // ---- one put as a run ----------------------------------------------------------------------

  lemma {:induction false} LegalAppends(c: Crypto, d: Disk, a: seq<Action>, b: seq<Action>)
    requires Legal(c, d, a) && Legal(c, After(c, d, a), b)
    ensures Legal(c, d, a + b) && After(c, d, a + b) == After(c, After(c, d, a), b)
    decreases |a|
  {
    if a == [] {
      assert a + b == b;
    } else {
      assert (a + b)[1..] == a[1..] + b;
      LegalAppends(c, Next(c, d, a[0]), a[1..], b);
    }
  }

  lemma LegalOne(c: Crypto, d: Disk, a: Action)
    requires Enabled(c, d, a)
    ensures Legal(c, d, [a]) && After(c, d, [a]) == Next(c, d, a)
  {
    assert [a][1..] == [];
  }

  /** Writing to a fresh temporary name as far as `written`. */
  lemma WriteIsARun(c: Crypto, d: Disk, w: WriterId, nonce: nat, written: nat) returns (actions: seq<Action>)
    requires Enabled(c, d, CreateTemp(w, nonce)) && written <= |d.writers[w].stage.file|
    ensures Legal(c, d, actions)
    ensures var file, id := d.writers[w].stage.file, c.hash(d.writers[w].plaintext);
            After(c, d, actions) ==
            d.(temps := d.temps[(id, nonce) := file[..written]], writers := At(d, w, Writing(file, nonce, written)))
  {
    var a, b := CreateTemp(w, nonce), Append(w, written);
    LegalOne(c, d, a);
    var e := Next(c, d, a);
    LegalOne(c, e, b);
    LegalAppends(c, d, [a], [b]);
    actions := [a] + [b];
  }

  /** The sequential `put` is a run of the steps: same files, same temporary files, done exactly when it answers Ok. */
  lemma PutIsARun(c: Crypto, d: Disk, w: WriterId, plaintext: Bytes, r: Random, nonce: nat, io: Io)
    returns (actions: seq<Action>)
    requires w !in d.writers && WellSized(r) && (c.hash(plaintext), nonce) !in d.temps
    ensures Legal(c, d, actions)
    ensures var e := After(c, d, actions);
            var (files, temps, res) := PutOn(c, d.files, d.temps, plaintext, r, nonce, io);
            && e.files == files && e.temps == temps
            && w in e.writers && e.writers[w] == Writer(plaintext, if res.Ok? then Done else Failed)
  {
    var begin, check := Begin(w, plaintext), Check(w, r);
    LegalOne(c, d, begin);
    var d1 := Next(c, d, begin);
    LegalOne(c, d1, check);
    var d2 := Next(c, d1, check);
    LegalAppends(c, d, [begin], [check]);
    actions := [begin] + [check];
    if c.hash(plaintext) !in d.files {
      var rest := SealedPutIsARun(c, d2, w, plaintext, r, nonce, io);
      LegalAppends(c, d, actions, rest);
      actions := actions + rest;
    }
  }

  lemma SealedPutIsARun(c: Crypto, d: Disk, w: WriterId, plaintext: Bytes, r: Random, nonce: nat, io: Io)
    returns (actions: seq<Action>)
    requires w in d.writers && d.writers[w] == Writer(plaintext, Sealed(Encode(c, plaintext, r)))
    requires c.hash(plaintext) !in d.files && (c.hash(plaintext), nonce) !in d.temps
    ensures Legal(c, d, actions)
    ensures var e := After(c, d, actions);
            var (files, temps, res) := PutOn(c, d.files, d.temps, plaintext, r, nonce, io);
            && e.files == files && e.temps == temps
            && w in e.writers && e.writers[w] == Writer(plaintext, if res.Ok? then Done else Failed)
  {
    var file := Encode(c, plaintext, r);
    if !io.mkdirOk {
      LegalOne(c, d, Fail(w));
      actions := [Fail(w)];
    } else {
      var whole := io.written >= |file|;
      var write := WriteIsARun(c, d, w, nonce, if whole then |file| else io.written);
      var e := After(c, d, write);
      var last := if whole && io.renameOk then Commit(w) else Fail(w);
      assert file[..|file|] == file;
      LegalOne(c, e, last);
      LegalAppends(c, d, write, [last]);
      actions := write + [last];
    }
  }
}
