/** Content-addressed blobs: what both stores have to do, and the two stores. */
module Blobs {
  import opened Events

  type Bytes = seq<bv8>

  const MAX_U64 := 0xffff_ffff_ffff_ffff
  const HASH_BUFFER := 64 * 1024

  /** A digest text: the SHA-256 of some content, taken as injective, or a text that is no such digest. */
  datatype Digest = Sha256(content: Bytes) | Foreign(text: string)

  datatype BlobRef = BlobRef(algorithm: string, digest: Digest, size: nat, mediaType: string)

  datatype BlobError = NotFound | Conflict(expected: nat, actual: nat) | Invalid | ResourceExhausted | Corrupt | Storage

  datatype Chunk = Chunk(bytes: Bytes, eof: bool)

  predicate MediaTypeOk(mediaType: string) {
    mediaType != "" && forall i :: 0 <= i < |mediaType| ==> 32 <= mediaType[i] as int < 127
  }

  predicate HexText(text: string) {
    |text| == 64 && forall i :: 0 <= i < 64 ==> '0' <= text[i] <= '9' || 'a' <= text[i] <= 'f'
  }

  predicate RefOk(blob: BlobRef) {
    blob.algorithm == "sha256" && (blob.digest.Sha256? || HexText(blob.digest.text)) && MediaTypeOk(blob.mediaType)
  }

  // What a store does, on values.

  datatype Wrote = Wrote(offset: nat, digest: Digest)

  datatype Upload = Upload(mediaType: string, expected: Option<nat>, content: Bytes, last: Option<Wrote>)

  datatype Store = Store(issued: nat, uploads: map<nat, Upload>, stored: map<Digest, Bytes>)

  datatype Op =
    | BeginPut(mediaType: string, expected: Option<nat>)
    | Write(id: nat, offset: nat, bytes: Bytes)
    | FinishPut(id: nat)
    | AbortPut(id: nat)
    | Read(blob: BlobRef, offset: nat, max: nat)

  datatype Answer =
    | Begun(begun: Result<nat, BlobError>)
    | Written(written: Result<nat, BlobError>)
    | Finished(finished: Result<BlobRef, BlobError>)
    | Aborted
    | Got(got: Result<Chunk, BlobError>)

  datatype Outcome = Outcome(store: Store, answer: Answer)

  function Begin(limit: nat, s: Store, mediaType: string, expected: Option<nat>): (r: Outcome) {
    if !MediaTypeOk(mediaType) then Outcome(s, Begun(Err(Invalid)))
    else if expected.Some? && expected.value > limit then Outcome(s, Begun(Err(ResourceExhausted)))
    else if s.issued >= MAX_U64 then Outcome(s, Begun(Err(Storage)))
    else
      var id := s.issued + 1;
      Outcome(s.(issued := id, uploads := s.uploads[id := Upload(mediaType, expected, [], None)]), Begun(Ok(id)))
  }

  /** A write repeats the last one when it carries the same bytes to the same offset. */
  predicate Repeats(u: Upload, offset: nat, bytes: Bytes) {
    u.last == Some(Wrote(offset, Sha256(bytes)))
  }

  predicate Exceeds(limit: nat, u: Upload, size: nat) {
    size > limit || (u.expected.Some? && size > u.expected.value)
  }

  function Extend(limit: nat, s: Store, id: nat, offset: nat, bytes: Bytes): (r: Outcome) {
    if id !in s.uploads then Outcome(s, Written(Err(NotFound)))
    else
      var u := s.uploads[id];
      if offset != |u.content| then
        Outcome(s, Written(if Repeats(u, offset, bytes) then Ok(|u.content|) else Err(Conflict(|u.content|, offset))))
      else if Exceeds(limit, u, offset + |bytes|) then Outcome(s, Written(Err(ResourceExhausted)))
      else
        var grown := u.(content := u.content + bytes, last := Some(Wrote(offset, Sha256(bytes))));
        Outcome(s.(uploads := s.uploads[id := grown]), Written(Ok(offset + |bytes|)))
  }

  function Finish(s: Store, id: nat): (r: Outcome) {
    if id !in s.uploads then Outcome(s, Finished(Err(NotFound)))
    else
      var u, t := s.uploads[id], s.(uploads := s.uploads - {id});
      if u.expected.Some? && u.expected.value != |u.content| then Outcome(t, Finished(Err(Invalid)))
      else
        Outcome(t.(stored := s.stored[Sha256(u.content) := u.content]),
                Finished(Ok(BlobRef("sha256", Sha256(u.content), |u.content|, u.mediaType))))
  }

  /** The reference is stored with its own size. */
  predicate Matches(stored: map<Digest, Bytes>, blob: BlobRef) {
    blob.digest in stored && |stored[blob.digest]| == blob.size && blob.digest == Sha256(stored[blob.digest])
  }

  function Slice(content: Bytes, offset: nat, max: nat): (c: Chunk)
    requires offset <= |content|
  {
    var end := Least(offset + max, |content|);
    Chunk(content[offset..end], end == |content|)
  }

  function Fetch(stored: map<Digest, Bytes>, blob: BlobRef, offset: nat, max: nat): (r: Result<Chunk, BlobError>) {
    if !RefOk(blob) then Err(Invalid)
    else if blob.digest !in stored then Err(NotFound)
    else if !Matches(stored, blob) then Err(Corrupt)
    else if offset > |stored[blob.digest]| then Err(Invalid)
    else Ok(Slice(stored[blob.digest], offset, max))
  }

  /** Not a usable media type: empty, or with a character that does not print. */
  ghost predicate BadMediaType(mediaType: string) {
    mediaType == "" || exists c :: c in mediaType && (c < ' ' || c > '~')
  }

  /** Not a digest in lower-case hexadecimal. */
  ghost predicate BadDigest(digest: Digest) {
    digest.Foreign? && (|digest.text| != 64 || exists c :: c in digest.text && c !in "0123456789abcdef")
  }

  lemma MediaTypeMeans(mediaType: string)
    ensures !MediaTypeOk(mediaType) <==> BadMediaType(mediaType)
  {
    if i :| 0 <= i < |mediaType| && !(32 <= mediaType[i] as int < 127) {
      assert mediaType[i] in mediaType;
    }
  }

  lemma HexMeans(digest: Digest)
    requires digest.Foreign?
    ensures !HexText(digest.text) <==> BadDigest(digest)
  {
    if |digest.text| == 64 {
      if i :| 0 <= i < 64 && !('0' <= digest.text[i] <= '9' || 'a' <= digest.text[i] <= 'f') {
        assert digest.text[i] in digest.text;
      }
    }
  }

  /** When a read is refused as invalid: a malformed reference, or an offset past the end of what is stored. */
  lemma RefusedMeans(stored: map<Digest, Bytes>, blob: BlobRef, offset: nat, max: nat)
    ensures Fetch(stored, blob, offset, max) == Err(Invalid) <==>
              || blob.algorithm != "sha256" || BadDigest(blob.digest) || BadMediaType(blob.mediaType)
              || (Matches(stored, blob) && offset > blob.size)
  {
    MediaTypeMeans(blob.mediaType);
    if blob.digest.Foreign? {
      HexMeans(blob.digest);
    }
  }

  function Step(limit: nat, s: Store, op: Op): (r: Outcome) {
    match op
    case BeginPut(mediaType, expected) => Begin(limit, s, mediaType, expected)
    case Write(id, offset, bytes) => Extend(limit, s, id, offset, bytes)
    case FinishPut(id) => Finish(s, id)
    case AbortPut(id) => Outcome(s.(uploads := s.uploads - {id}), Aborted)
    case Read(blob, offset, max) => Outcome(s, Got(Fetch(s.stored, blob, offset, max)))
  }

  // The memory store.

  datatype MemoryUpload = MemoryUpload(mediaType: string, expected: Option<nat>, bytes: Bytes, previous: Option<(nat, Bytes)>)
  {
    function View(): (u: Upload) {
      Upload(mediaType, expected, bytes, if previous.None? then None else Some(Wrote(previous.value.0, Sha256(previous.value.1))))
    }
  }

  class MemoryStore {
    const limit: nat
    var issued: nat
    var uploads: map<nat, MemoryUpload>
    var blobs: map<Digest, Bytes>

    constructor (limit: nat)
      ensures this.limit == limit && Valid() && View() == Store(0, map[], map[])
    {
      this.limit, issued, uploads, blobs := limit, 0, map[], map[];
    }

    ghost predicate Valid()
      reads this
    {
      forall d :: d in blobs ==> d == Sha256(blobs[d])
    }

    ghost function View(): (s: Store)
      reads this
    {
      Store(issued, map id | id in uploads :: uploads[id].View(), blobs)
    }

    method BeginPut(mediaType: string, expected: Option<nat>) returns (r: Result<nat, BlobError>)
      requires Valid()
      modifies this
      ensures Valid() && Outcome(View(), Begun(r)) == Begin(limit, old(View()), mediaType, expected)
    {
      if !MediaTypeOk(mediaType) {
        return Err(Invalid);
      }
      if expected.Some? && expected.value > limit {
        return Err(ResourceExhausted);
      }
      if issued >= MAX_U64 {
        return Err(Storage);
      }
      issued := issued + 1;
      uploads := uploads[issued := MemoryUpload(mediaType, expected, [], None)];
      return Ok(issued);
    }

    method Write(id: nat, offset: nat, bytes: Bytes) returns (r: Result<nat, BlobError>)
      requires Valid()
      modifies this
      ensures Valid() && Outcome(View(), Written(r)) == Extend(limit, old(View()), id, offset, bytes)
    {
      if id !in uploads {
        return Err(NotFound);
      }
      var upload := uploads[id];
      var current := |upload.bytes|;
      if offset != current {
        if upload.previous == Some((offset, bytes)) {
          return Ok(current);
        }
        return Err(Conflict(current, offset));
      }
      var next := current + |bytes|;
      if next > limit || (upload.expected.Some? && next > upload.expected.value) {
        return Err(ResourceExhausted);
      }
      uploads := uploads[id := upload.(bytes := upload.bytes + bytes, previous := Some((offset, bytes)))];
      return Ok(next);
    }

    method FinishPut(id: nat) returns (r: Result<BlobRef, BlobError>)
      requires Valid()
      modifies this
      ensures Valid() && Outcome(View(), Finished(r)) == Finish(old(View()), id)
    {
      if id !in uploads {
        return Err(NotFound);
      }
      var upload := uploads[id];
      uploads := uploads - {id};
      var size := |upload.bytes|;
      if upload.expected.Some? && upload.expected.value != size {
        return Err(Invalid);
      }
      var digest := Sha256(upload.bytes);
      if digest !in blobs {
        blobs := blobs[digest := upload.bytes];
      }
      return Ok(BlobRef("sha256", digest, size, upload.mediaType));
    }

    method AbortPut(id: nat)
      requires Valid()
      modifies this
      ensures Valid() && Outcome(View(), Aborted) == Step(limit, old(View()), Op.AbortPut(id))
    {
      uploads := uploads - {id};
    }

    method Read(blob: BlobRef, offset: nat, max: nat) returns (r: Result<Chunk, BlobError>)
      requires Valid()
      ensures r == Fetch(View().stored, blob, offset, max)
    {
      if !RefOk(blob) {
        return Err(Invalid);
      }
      if blob.digest !in blobs {
        return Err(NotFound);
      }
      var bytes := blobs[blob.digest];
      if |bytes| != blob.size || Sha256(bytes) != blob.digest {
        return Err(Corrupt);
      }
      if offset > |bytes| {
        return Err(Invalid);
      }
      var end := Least(offset + max, |bytes|);
      return Ok(Chunk(bytes[offset..end], end == |bytes|));
    }
  }

  // The file store.

  datatype PreviousWrite = PreviousWrite(offset: nat, length: nat, digest: Digest)

  datatype FileUpload = FileUpload(file: Bytes, mediaType: string, expected: Option<nat>, size: nat, previous: Option<PreviousWrite>)
  {
    ghost predicate Valid() {
      && size == |file|
      && (previous.Some? ==> previous.value.digest.Sha256? && previous.value.length == |previous.value.digest.content|)
    }

    function View(): (u: Upload) {
      Upload(mediaType, expected, file, if previous.None? then None else Some(Wrote(previous.value.offset, previous.value.digest)))
    }
  }

  function OkUnless<T>(error: Option<BlobError>, value: T): (r: Result<T, BlobError>) {
    if error.Some? then Err(error.value) else Ok(value)
  }

  /** Hashes a file through a fixed buffer. */
  method HashFile(file: Bytes) returns (digest: Digest)
    ensures digest == Sha256(file)
  {
    var hashed, at := [], 0;
    while true
      invariant at <= |file| && hashed == file[..at]
      decreases |file| - at
    {
      var read := Least(HASH_BUFFER, |file| - at);
      if read == 0 {
        break;
      }
      hashed, at := hashed + file[at..at + read], at + read;
    }
    assert file[..|file|] == file;
    digest := Sha256(hashed);
  }

  class FileStore {
    const limit: nat
    var issued: nat
    var uploads: map<nat, FileUpload>
    var objects: map<Digest, Bytes>    // one file each
    var verified: set<BlobRef>

    constructor (limit: nat)
      ensures this.limit == limit && Valid() && View() == Store(0, map[], map[])
    {
      this.limit, issued, uploads, objects, verified := limit, 0, map[], map[], {};
    }

    /** Uploads know their size, files carry their own digest, and the cache holds only matching references. */
    ghost predicate Valid()
      reads this
    {
      && (forall id :: id in uploads ==> uploads[id].Valid())
      && (forall d :: d in objects ==> d == Sha256(objects[d]))
      && (forall blob :: blob in verified ==> Matches(objects, blob))
    }

    ghost function View(): (s: Store)
      reads this
    {
      Store(issued, map id | id in uploads :: uploads[id].View(), objects)
    }

    method BeginPut(mediaType: string, expected: Option<nat>) returns (r: Result<nat, BlobError>)
      requires Valid()
      modifies this
      ensures Valid() && Outcome(View(), Begun(r)) == Begin(limit, old(View()), mediaType, expected)
    {
      if !MediaTypeOk(mediaType) {
        return Err(Invalid);
      }
      if expected.Some? && expected.value > limit {
        return Err(ResourceExhausted);
      }
      if issued >= MAX_U64 {
        return Err(Storage);
      }
      issued := issued + 1;
      uploads := uploads[issued := FileUpload([], mediaType, expected, 0, None)];
      return Ok(issued);
    }

    method Write(id: nat, offset: nat, bytes: Bytes) returns (r: Result<nat, BlobError>)
      requires Valid()
      modifies this
      ensures Valid() && Outcome(View(), Written(r)) == Extend(limit, old(View()), id, offset, bytes)
    {
      if id !in uploads {
        return Err(NotFound);
      }
      var upload := uploads[id];
      var digest := Sha256(bytes);
      if offset != upload.size {
        if upload.previous == Some(PreviousWrite(offset, |bytes|, digest)) {
          return Ok(upload.size);
        }
        return Err(Conflict(upload.size, offset));
      }
      var next := upload.size + |bytes|;
      if next > limit || (upload.expected.Some? && next > upload.expected.value) {
        return Err(ResourceExhausted);
      }
      uploads := uploads[id := upload.(file := upload.file + bytes, size := next,
                                       previous := Some(PreviousWrite(offset, |bytes|, digest)))];
      return Ok(next);
    }

    method FinishPut(id: nat) returns (r: Result<BlobRef, BlobError>)
      requires Valid()
      modifies this
      ensures Valid() && Outcome(View(), Finished(r)) == Finish(old(View()), id)
    {
      if id !in uploads {
        return Err(NotFound);
      }
      var upload := uploads[id];
      uploads := uploads - {id};
      if upload.expected.Some? && upload.expected.value != upload.size {
        return Err(Invalid);
      }
      var digest := HashFile(upload.file);
      var blob := BlobRef("sha256", digest, upload.size, upload.mediaType);
      var error := None;
      if digest in objects {
        error := VerifyFile(blob);
      } else {
        objects := objects[digest := upload.file];
      }
      if error.None? {
        verified := verified + {blob};
      }
      return OkUnless(error, blob);
    }

    /** Trusts a cached reference; otherwise reads the whole file. */
    method VerifyFile(blob: BlobRef) returns (error: Option<BlobError>)
      requires Valid()
      modifies this`verified
      ensures Valid() && old(verified) <= verified
      ensures error == if Matches(objects, blob) then None else if blob.digest !in objects then Some(NotFound) else Some(Corrupt)
    {
      if blob in verified {
        return None;
      }
      if blob.digest !in objects {
        return Some(NotFound);
      }
      var digest := HashFile(objects[blob.digest]);
      if |objects[blob.digest]| != blob.size || digest != blob.digest {
        return Some(Corrupt);
      }
      verified := verified + {blob};
      return None;
    }

    method AbortPut(id: nat)
      requires Valid()
      modifies this
      ensures Valid() && Outcome(View(), Aborted) == Step(limit, old(View()), Op.AbortPut(id))
    {
      uploads := uploads - {id};
    }

    /** Agrees with the memory store except on which error an unknown reference gives past its claimed end. */
    method Read(blob: BlobRef, offset: nat, max: nat) returns (r: Result<Chunk, BlobError>)
      requires Valid()
      modifies this`verified
      ensures Valid() && r == FileFetch(objects, blob, offset, max)
    {
      if !RefOk(blob) {
        return Err(Invalid);
      }
      if offset > blob.size {
        return Err(Invalid);
      }
      var error := VerifyFile(blob);
      if error.Some? {
        return Err(error.value);
      }
      var count := Least(max, blob.size - offset);
      var bytes := objects[blob.digest][offset..offset + count];
      return Ok(Chunk(bytes, offset + |bytes| == blob.size));
    }
  }

  /** The file store's read checks the offset before the content. */
  function FileFetch(stored: map<Digest, Bytes>, blob: BlobRef, offset: nat, max: nat): (r: Result<Chunk, BlobError>) {
    if RefOk(blob) && offset > blob.size then Err(Invalid) else Fetch(stored, blob, offset, max)
  }

  /** A well-formed reference to nothing stored, read past the end it claims. */
  predicate PastUnknown(stored: map<Digest, Bytes>, blob: BlobRef, offset: nat) {
    RefOk(blob) && !Matches(stored, blob) && offset > blob.size
  }

  /** The stores' reads differ exactly there, and then only in the error. */
  lemma ReadsDiffer(stored: map<Digest, Bytes>, blob: BlobRef, offset: nat, max: nat)
    ensures FileFetch(stored, blob, offset, max) == Fetch(stored, blob, offset, max) <==> !PastUnknown(stored, blob, offset)
    ensures FileFetch(stored, blob, offset, max).Ok? <==> Fetch(stored, blob, offset, max).Ok?
  {
  }

  lemma ReadsDifferSomewhere()
    ensures exists blob: BlobRef, offset: nat :: PastUnknown(map[], blob, offset)
  {
    var blob := BlobRef("sha256", Sha256([]), 0, "text/plain");
    assert PastUnknown(map[], blob, 1);
  }

  // Every sequence of operations.

  /** Answers agree, but for a read past the claimed end of an unknown reference. */
  predicate SameAnswer(s: Store, op: Op, memory: Answer, file: Answer) {
    if op.Read? && PastUnknown(s.stored, op.blob, op.offset)
    then memory.Got? && memory.got.Err? && file == Got(Err(Invalid))
    else memory == file
  }

  method PerformMemory(m: MemoryStore, op: Op) returns (a: Answer)
    requires m.Valid()
    modifies m
    ensures m.Valid() && Outcome(m.View(), a) == Step(m.limit, old(m.View()), op)
  {
    match op {
      case BeginPut(mediaType, expected) => var r := m.BeginPut(mediaType, expected); a := Begun(r);
      case Write(id, offset, bytes) => var r := m.Write(id, offset, bytes); a := Written(r);
      case FinishPut(id) => var r := m.FinishPut(id); a := Finished(r);
      case AbortPut(id) => m.AbortPut(id); a := Aborted;
      case Read(blob, offset, max) => var r := m.Read(blob, offset, max); a := Got(r);
    }
  }

  method PerformFile(f: FileStore, op: Op) returns (a: Answer)
    requires f.Valid()
    modifies f
    ensures f.Valid() && f.View() == Step(f.limit, old(f.View()), op).store
    ensures SameAnswer(old(f.View()), op, Step(f.limit, old(f.View()), op).answer, a)
  {
    match op {
      case BeginPut(mediaType, expected) => var r := f.BeginPut(mediaType, expected); a := Begun(r);
      case Write(id, offset, bytes) => var r := f.Write(id, offset, bytes); a := Written(r);
      case FinishPut(id) => var r := f.FinishPut(id); a := Finished(r);
      case AbortPut(id) => f.AbortPut(id); a := Aborted;
      case Read(blob, offset, max) =>
        ReadsDiffer(f.View().stored, blob, offset, max);
        var r := f.Read(blob, offset, max);
        a := Got(r);
    }
  }

  function Run(limit: nat, s: Store, ops: seq<Op>): (r: Store) {
    if ops == [] then s else Step(limit, Run(limit, s, ops[..|ops| - 1]), ops[|ops| - 1]).store
  }

  const EMPTY := Store(0, map[], map[])

  /** The answers so far agree, each judged in the state its operation met. */
  ghost predicate Agreeing(limit: nat, ops: seq<Op>, memory: seq<Answer>, file: seq<Answer>) {
    && |memory| == |file| <= |ops|
    && forall i :: 0 <= i < |memory| ==> SameAnswer(Run(limit, EMPTY, ops[..i]), ops[i], memory[i], file[i])
  }

  lemma AgreeingGrows(limit: nat, ops: seq<Op>, memory: seq<Answer>, file: seq<Answer>, a: Answer, b: Answer)
    requires Agreeing(limit, ops, memory, file) && |memory| < |ops|
    requires SameAnswer(Run(limit, EMPTY, ops[..|memory|]), ops[|memory|], a, b)
    ensures Agreeing(limit, ops, memory + [a], file + [b])
    ensures var i := |memory|;
            Run(limit, EMPTY, ops[..i + 1]) == Step(limit, Run(limit, EMPTY, ops[..i]), ops[i]).store
  {
    assert ops[..|memory| + 1][..|memory|] == ops[..|memory|];
  }

  method PerformBoth(m: MemoryStore, f: FileStore, op: Op) returns (a: Answer, b: Answer)
    requires m.Valid() && f.Valid() && m.limit == f.limit && m.View() == f.View()
    modifies m, f
    ensures m.Valid() && f.Valid() && m.View() == f.View() == Step(m.limit, old(m.View()), op).store
    ensures SameAnswer(old(m.View()), op, a, b)
  {
    a := PerformMemory(m, op);
    b := PerformFile(f, op);
  }

  /** Two stores with one limit, given the same operations from the start, answer alike. */
  method Agree(limit: nat, ops: seq<Op>) returns (memory: seq<Answer>, file: seq<Answer>)
    ensures |memory| == |ops| && Agreeing(limit, ops, memory, file)
  {
    var m := new MemoryStore(limit);
    var f := new FileStore(limit);
    memory, file := [], [];
    ghost var now := EMPTY;
    for i := 0 to |ops|
      invariant m.limit == f.limit == limit && m.Valid() && f.Valid() && m.View() == now && f.View() == now
      invariant |memory| == i && now == Run(limit, EMPTY, ops[..i]) && Agreeing(limit, ops, memory, file)
    {
      var a, b := PerformBoth(m, f, ops[i]);
      AgreeingGrows(limit, ops, memory, file, a, b);
      now := Step(limit, now, ops[i]).store;
      memory, file := memory + [a], file + [b];
    }
  }

  // What the operations guarantee.

  /** Stored content carries its digest; uploads respect both size limits. */
  ghost predicate Sound(limit: nat, s: Store) {
    && (forall d :: d in s.stored ==> d == Sha256(s.stored[d]))
    && (forall id :: id in s.uploads ==> !Exceeds(limit, s.uploads[id], |s.uploads[id].content|))
  }

  lemma StepSound(limit: nat, s: Store, op: Op)
    requires Sound(limit, s)
    ensures Sound(limit, Step(limit, s, op).store)
  {
  }

  lemma {:induction false} RunSound(limit: nat, s: Store, ops: seq<Op>)
    requires Sound(limit, s)
    ensures Sound(limit, Run(limit, s, ops))
  {
    if ops != [] {
      RunSound(limit, s, ops[..|ops| - 1]);
      StepSound(limit, Run(limit, s, ops[..|ops| - 1]), ops[|ops| - 1]);
    }
  }

  /** The bytes an operation adds to an upload: those of an accepted write that repeats none. */
  function Added(limit: nat, s: Store, id: nat, op: Op): (bytes: Bytes) {
    if op.Write? && op.id == id && id in s.uploads && op.offset == |s.uploads[id].content|
       && Step(limit, s, op).answer.written.Ok?
    then op.bytes else []
  }

  function AllAdded(limit: nat, s: Store, id: nat, ops: seq<Op>): (bytes: Bytes) {
    if ops == [] then []
    else
      var before := ops[..|ops| - 1];
      AllAdded(limit, s, id, before) + Added(limit, Run(limit, s, before), id, ops[|ops| - 1])
  }

  predicate Ends(op: Op, id: nat) {
    op == FinishPut(id) || op == AbortPut(id)
  }

  /** Upload identifiers are not issued again. */
  ghost predicate Issued(s: Store) {
    forall id :: id in s.uploads ==> id <= s.issued
  }

  lemma {:induction false} RunIssued(limit: nat, s: Store, ops: seq<Op>)
    requires Issued(s)
    ensures Issued(Run(limit, s, ops)) && s.issued <= Run(limit, s, ops).issued
  {
    if ops != [] {
      RunIssued(limit, s, ops[..|ops| - 1]);
    }
  }

  /** An open upload holds what it held plus the concatenation of the writes accepted since. */
  lemma {:induction false} UploadHolds(limit: nat, s: Store, id: nat, ops: seq<Op>)
    requires Issued(s) && id in s.uploads && forall i :: 0 <= i < |ops| ==> !Ends(ops[i], id)
    ensures var t := Run(limit, s, ops);
            && id in t.uploads && t.uploads[id].content == s.uploads[id].content + AllAdded(limit, s, id, ops)
            && t.uploads[id].mediaType == s.uploads[id].mediaType && t.uploads[id].expected == s.uploads[id].expected
  {
    if ops != [] {
      var before := ops[..|ops| - 1];
      UploadHolds(limit, s, id, before);
      RunIssued(limit, s, before);
      OneAdds(limit, Run(limit, s, before), id, ops[|ops| - 1]);
    }
  }

  lemma OneAdds(limit: nat, s: Store, id: nat, op: Op)
    requires Issued(s) && id in s.uploads && !Ends(op, id)
    ensures var t := Step(limit, s, op).store;
            && id in t.uploads && t.uploads[id].content == s.uploads[id].content + Added(limit, s, id, op)
            && t.uploads[id].mediaType == s.uploads[id].mediaType && t.uploads[id].expected == s.uploads[id].expected
  {
  }

  /** A finished upload: accepted if as long as declared, and then stored under the reference returned. */
  ghost predicate Publishes(limit: nat, mediaType: string, expected: Option<nat>, content: Bytes, r: Outcome) {
    && r.answer.Finished? && |content| <= limit && (expected.Some? ==> |content| <= expected.value)
    && (r.answer.finished.Ok? <==> expected.None? || expected.value == |content|)
    && (r.answer.finished.Ok? ==>
          && r.answer.finished.value == BlobRef("sha256", Sha256(content), |content|, mediaType)
          && Sha256(content) in r.store.stored && r.store.stored[Sha256(content)] == content)
  }

  lemma FinishPublishes(limit: nat, s: Store, id: nat)
    requires Sound(limit, s) && id in s.uploads
    ensures Publishes(limit, s.uploads[id].mediaType, s.uploads[id].expected, s.uploads[id].content, Finish(s, id))
  {
  }

  lemma OpenPublishes(limit: nat, s: Store, id: nat, ops: seq<Op>)
    requires Sound(limit, s) && Issued(s) && id in s.uploads && s.uploads[id].content == []
    requires forall i :: 0 <= i < |ops| ==> !Ends(ops[i], id)
    ensures Publishes(limit, s.uploads[id].mediaType, s.uploads[id].expected, AllAdded(limit, s, id, ops),
                      Finish(Run(limit, s, ops), id))
  {
    var t, content := Run(limit, s, ops), AllAdded(limit, s, id, ops);
    UploadHolds(limit, s, id, ops);
    RunSound(limit, s, ops);
    assert t.uploads[id].content == [] + content == content;
    FinishPublishes(limit, t, id);
  }

  lemma BeginOpens(limit: nat, s: Store, mediaType: string, expected: Option<nat>, id: nat) returns (begun: Store)
    requires Sound(limit, s) && Issued(s) && Begin(limit, s, mediaType, expected).answer == Begun(Ok(id))
    ensures begun == Begin(limit, s, mediaType, expected).store && Sound(limit, begun) && Issued(begun)
    ensures id in begun.uploads && begun.uploads[id] == Upload(mediaType, expected, [], None)
  {
    begun := Begin(limit, s, mediaType, expected).store;
  }

  /**
    From begin to finish: the reference names exactly the accepted writes, in
    order, within both limits, and the content is stored.
  */
  lemma PutStores(limit: nat, s: Store, mediaType: string, expected: Option<nat>, id: nat, ops: seq<Op>)
    requires Sound(limit, s) && Issued(s) && Begin(limit, s, mediaType, expected).answer == Begun(Ok(id))
    requires forall i :: 0 <= i < |ops| ==> !Ends(ops[i], id)
    ensures var begun := Begin(limit, s, mediaType, expected).store;
            Publishes(limit, mediaType, expected, AllAdded(limit, begun, id, ops), Finish(Run(limit, begun, ops), id))
  {
    var begun := BeginOpens(limit, s, mediaType, expected, id);
    OpenPublishes(limit, begun, id, ops);
  }

  /** Once stored, a reference stays readable with the same content. */
  lemma {:induction false} StoredStays(limit: nat, s: Store, blob: BlobRef, ops: seq<Op>)
    requires Sound(limit, s) && Matches(s.stored, blob)
    ensures Matches(Run(limit, s, ops).stored, blob)
    ensures Run(limit, s, ops).stored[blob.digest] == s.stored[blob.digest]
  {
    if ops != [] {
      StoredStays(limit, s, blob, ops[..|ops| - 1]);
    }
  }

  /** Reading chunk after chunk until one is marked as the last; `size` picks each chunk's size. */
  function ReadAll(stored: map<Digest, Bytes>, blob: BlobRef, offset: nat, size: nat -> nat): (r: Bytes)
    requires RefOk(blob) && Matches(stored, blob) && offset <= blob.size && forall at :: size(at) > 0
    decreases blob.size - offset
  {
    var chunk := Fetch(stored, blob, offset, size(offset)).value;
    if chunk.eof then chunk.bytes else chunk.bytes + ReadAll(stored, blob, offset + |chunk.bytes|, size)
  }

  /** Chunked reads of a stored reference return its content exactly. */
  lemma {:induction false} ReadAllReturns(stored: map<Digest, Bytes>, blob: BlobRef, offset: nat, size: nat -> nat)
    requires RefOk(blob) && Matches(stored, blob) && offset <= blob.size && forall at :: size(at) > 0
    ensures ReadAll(stored, blob, offset, size) == stored[blob.digest][offset..]
    decreases blob.size - offset
  {
    var chunk := Fetch(stored, blob, offset, size(offset)).value;
    if !chunk.eof {
      ReadAllReturns(stored, blob, offset + |chunk.bytes|, size);
    }
  }

  /** A published upload reads back, in any chunks and after any further operations, as the writes it accepted. */
  lemma PublishedReadsBack(limit: nat, mediaType: string, expected: Option<nat>, content: Bytes, r: Outcome,
                           later: seq<Op>, size: nat -> nat)
    requires Publishes(limit, mediaType, expected, content, r) && r.answer.finished.Ok? && Sound(limit, r.store)
    requires MediaTypeOk(mediaType) && forall at :: size(at) > 0
    ensures var blob, stored := r.answer.finished.value, Run(limit, r.store, later).stored;
            RefOk(blob) && Matches(stored, blob) && ReadAll(stored, blob, 0, size) == content
  {
    var blob := r.answer.finished.value;
    StoredStays(limit, r.store, blob, later);
    ReadAllReturns(Run(limit, r.store, later).stored, blob, 0, size);
  }
}
