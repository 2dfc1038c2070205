/** The resumable upload of one page, as a state machine over its chunk and completion
    calls (scan/upload_chunked.go).

    `ChunkStep` and `CompleteStep` say what one call does to one page. The theorems
    compare the state they build up with definitions that look only at the calls made:
    `AgreedTotal` and `Accepted`. */
module ChunkProtocol {
  import opened Common
  import opened Receipts

  type Byte = b: int | 0 <= b < 256
  type Bytes = seq<Byte>

  const CHUNK_SIZE := 512 * 1024
  const MAX_PAGE_SIZE := 10 * 1024 * 1024
  const MAX_CHUNKS := MAX_PAGE_SIZE / CHUNK_SIZE

  datatype PageStatus = PagePending | PageUploading | PageUploaded

  datatype Metadata = Metadata(total: nat, received: seq<int>, checksums: map<int, string>)

  datatype PageRow = PageRow(status: PageStatus, tempKey: Option<string>, meta: Metadata)

  const NO_CHUNKS := Metadata(0, [], map[])
  const NEW_PAGE := PageRow(PagePending, None, NO_CHUNKS)

  /** One page: its row, if created yet, and its chunk objects by number. */
  datatype PageState = PageState(row: Option<PageRow>, chunks: map<int, Bytes>)

  const NOTHING_UPLOADED := PageState(None, map[])

  /** One chunk request. `readable`, `stored` and `recorded` say whether the multipart body
      could be read, the object store took the chunk, and the metadata write succeeded. */
  datatype ChunkCall = ChunkCall(index: int, total: int, checksum: string, data: Bytes,
                                 readable: bool, stored: bool, recorded: bool)

  datatype ChunkOutcome =
    | BadHeader | BadTotal | BadIndex | ChunkJobNotFound
    | AlreadyUploaded | ChunkTotalMismatch | AlreadyReceived
    | Unreadable | ChunkTooLarge | PageTooLarge | ChecksumMismatch
    | ChunkStoreFailed | RecordFailed
    | Received(count: nat)

  /** What the world does to one completion call: the key drawn for the composed page, and
      whether storing it, deleting the chunks and marking the page succeed. */
  datatype FinishEnv = FinishEnv(key: string, stored: bool, deleted: bool, marked: bool)

  datatype CompleteOutcome =
    | BadRequest | JobNotFound | PageNotFound
    | AlreadyComposed
    | TotalMismatch | MissingChunks | MissingChunk(gap: int) | MissingStored(lost: int)
    | ComposedTooLarge | NotAnImage | StoreFailed | MarkFailed
    | Composed

  function LowerHex(c: char): char {
    if 'A' <= c <= 'F' then 'a' + (c - 'A') else c
  }

  /** `strings.EqualFold` against a lower-case hexadecimal digest. */
  predicate EqualFold(digest: string, given: string) {
    |digest| == |given| && forall i :: 0 <= i < |digest| ==> LowerHex(digest[i]) == LowerHex(given[i])
  }

  // ---------------------------------------------------------------- one chunk call

  /** Why HandleChunkUpload turns a chunk away that its page's row and the request decide on. */
  function ChunkRefusal(md5: Bytes -> string, row: PageRow, c: ChunkCall): Option<ChunkOutcome> {
    if row.status == PageUploaded then Some(AlreadyUploaded)
    else if row.meta.total != 0 && row.meta.total != c.total then Some(ChunkTotalMismatch)
    else if c.index in row.meta.received then Some(AlreadyReceived)
    else if !c.readable then Some(Unreadable)
    else if |c.data| > CHUNK_SIZE then Some(ChunkTooLarge)
    else if c.index == 0 && c.total * CHUNK_SIZE > MAX_PAGE_SIZE then Some(PageTooLarge)
    else if !EqualFold(md5(c.data), c.checksum) then Some(ChecksumMismatch)
    else if !c.stored then Some(ChunkStoreFailed)
    else None
  }

  /** The row with one receipt more. */
  function WithReceipt(row: PageRow, c: ChunkCall): PageRow
    requires c.total >= 0
  {
    row.(status := PageUploading,
         meta := Metadata(c.total, row.meta.received + [c.index], row.meta.checksums[c.index := c.checksum]))
  }

  /** HandleChunkUpload on one page, once the job has been found. */
  function ChunkStep(md5: Bytes -> string, p: PageState, c: ChunkCall): (PageState, ChunkOutcome)
  {
    if c.total <= 0 || c.total > MAX_CHUNKS then (p, BadTotal)
    else if c.index < 0 || c.index >= c.total then (p, BadIndex)
    else
      var row := if p.row.Some? then p.row.value else NEW_PAGE;
      match ChunkRefusal(md5, row, c)
      case Some(refused) => (p.(row := Some(row)), refused)
      case None =>
        (PageState(Some(if c.recorded then WithReceipt(row, c) else row), p.chunks[c.index := c.data]),
         if c.recorded then Received(|row.meta.received| + 1) else RecordFailed)
  }

  // ---------------------------------------------------------------- completion

  function Concat(parts: seq<Bytes>): Bytes {
    if parts == [] then [] else parts[0] + Concat(parts[1..])
  }

  /** The magic numbers of JPEG, PNG and WebP. */
  predicate IsImage(d: Bytes) {
    |d| >= 12 &&
    ( (d[0] == 0xFF && d[1] == 0xD8 && d[2] == 0xFF)
      || (d[0] == 0x89 && d[1] == 0x50 && d[2] == 0x4E && d[3] == 0x47)
      || (d[0..4] == [0x52, 0x49, 0x46, 0x46] && d[8..12] == [0x57, 0x45, 0x42, 0x50]))
  }

  predicate HasAll(chunks: map<int, Bytes>, n: nat) {
    forall i :: 0 <= i < n ==> i in chunks
  }

  function Parts(chunks: map<int, Bytes>, n: nat): (parts: seq<Bytes>)
    requires HasAll(chunks, n)
    ensures |parts| == n
    ensures forall i :: 0 <= i < n ==> parts[i] == chunks[i]
  {
    seq(n, i requires 0 <= i < n => chunks[i])
  }

  /** The first chunk that is not stored. */
  function FirstMissing(chunks: map<int, Bytes>, n: nat, from: nat): (i: nat)
    requires from <= n && !HasAll(chunks, n) && HasAll(chunks, from)
    ensures from <= i < n && i !in chunks && HasAll(chunks, i)
    decreases n - from
  {
    if from !in chunks then from else FirstMissing(chunks, n, from + 1)
  }

  /** The result of a completion call on one page; `put` is what was stored under the
      composed page's key, if anything. */
  datatype Completion = Completion(page: PageState, outcome: CompleteOutcome, put: Option<Bytes>)

  /** What a page's receipts must satisfy for HandleUploadComplete to accept them. */
  predicate ReceiptsPass(meta: Metadata, total: nat) {
    (meta.total == 0 || meta.total == total) && |meta.received| >= total
  }

  /** HandleUploadComplete on one page whose receipts are distinct and in range. The branches
      that such a page cannot take are proved dead where the code is modelled, in
      `UploadTables.HandleUploadComplete`. */
  function CompleteStep(p: PageState, total: nat, env: FinishEnv): Completion {
    if p.row.None? then Completion(p, PageNotFound, None)
    else
      var row := p.row.value;
      if row.status == PageUploaded && row.tempKey.Some? then Completion(p, AlreadyComposed, None)
      else if row.meta.total != 0 && row.meta.total != total then Completion(p, TotalMismatch, None)
      else if |row.meta.received| < total then Completion(p, MissingChunks, None)
      else if !HasAll(p.chunks, total) then Completion(p, MissingStored(FirstMissing(p.chunks, total, 0)), None)
      else FinishStep(p, Concat(Parts(p.chunks, total)), env)
  }

  /** Stores the composed page, then deletes its chunks, then marks the page uploaded. */
  function FinishStep(p: PageState, composed: Bytes, env: FinishEnv): Completion {
    if !IsImage(composed) then Completion(p, NotAnImage, None)
    else if !env.stored then Completion(p, StoreFailed, None)
    else
      var p := if env.deleted then p.(chunks := map[]) else p;
      if !env.marked then Completion(p, MarkFailed, Some(composed))
      else Completion(p.(row := Some(PageRow(PageUploaded, Some(env.key), NO_CHUNKS))), Composed, Some(composed))
  }

  // ---------------------------------------------------------------- invariant of one page

  /** Receipts are distinct chunk numbers below the recorded total. */
  ghost predicate GoodReceipts(meta: Metadata) {
    Distinct(meta.received) && InRange(meta.received, meta.total) && meta.total <= MAX_CHUNKS
    && (meta.received == [] <==> meta.total == 0)
  }

  ghost predicate SmallChunks(chunks: map<int, Bytes>) {
    forall i :: i in chunks ==> |chunks[i]| <= CHUNK_SIZE
  }

  /** Every received chunk is in the object store. */
  ghost predicate Backed(p: PageState) {
    p.row.Some? ==> forall i :: i in p.row.value.meta.received ==> i in p.chunks
  }

  /** All chunks received, none left in the store: a completion deleted them and then failed
      to mark the page. */
  ghost predicate Stranded(p: PageState) {
    && p.row.Some? && p.row.value.status != PageUploaded
    && 0 < p.row.value.meta.total == |p.row.value.meta.received|
    && p.chunks == map[]
  }

  ghost predicate PageInv(p: PageState) {
    && SmallChunks(p.chunks)
    && (p.row.Some? ==>
          && GoodReceipts(p.row.value.meta)
          && (p.row.value.status == PageUploaded ==> p.row.value.tempKey.Some? && p.row.value.meta == NO_CHUNKS))
    && (Backed(p) || Stranded(p))
  }

  lemma ChunkStepKeepsInv(md5: Bytes -> string, p: PageState, c: ChunkCall)
    requires PageInv(p)
    ensures PageInv(ChunkStep(md5, p, c).0)
    ensures ChunkStep(md5, p, c).1 != PageTooLarge
  {
    if Stranded(p) {
      StrandedAcceptsNothing(md5, p, c);
    }
  }

  /** A stranded page takes no further chunk: every number is already received. */
  lemma StrandedAcceptsNothing(md5: Bytes -> string, p: PageState, c: ChunkCall)
    requires Stranded(p) && GoodReceipts(p.row.value.meta)
    ensures ChunkStep(md5, p, c).0 == p
    ensures ChunkStep(md5, p, c).1 in {BadTotal, BadIndex, ChunkTotalMismatch, AlreadyReceived}
  {
    Pigeonhole(p.row.value.meta.received, p.row.value.meta.total);
  }

  /** Passing receipts are exactly the numbers 0..total-1. */
  lemma PassingReceiptsAreAll(meta: Metadata, total: nat)
    requires GoodReceipts(meta) && ReceiptsPass(meta, total) && total > 0
    ensures meta.total == total == |meta.received|
    ensures forall i :: 0 <= i < total <==> i in meta.received
  {
    Pigeonhole(meta.received, meta.total);
  }

  lemma CompleteStepKeepsInv(p: PageState, total: nat, env: FinishEnv)
    requires PageInv(p) && total > 0
    ensures PageInv(CompleteStep(p, total, env).page)
  {
    if p.row.Some? && ReceiptsPass(p.row.value.meta, total) {
      PassingReceiptsAreAll(p.row.value.meta, total);
    }
  }

  lemma {:induction false} ConcatSize(parts: seq<Bytes>)
    requires forall i :: 0 <= i < |parts| ==> |parts[i]| <= CHUNK_SIZE
    ensures |Concat(parts)| <= |parts| * CHUNK_SIZE
  {
    if parts != [] {
      ConcatSize(parts[1..]);
    }
  }

  lemma {:induction false} ConcatAppend(parts: seq<Bytes>, last: Bytes)
    ensures Concat(parts + [last]) == Concat(parts) + last
  {
    if parts == [] {
      assert parts + [last] == [last];
      assert Concat([last]) == last + Concat([last][1..]);
    } else {
      assert (parts + [last])[1..] == parts[1..] + [last];
      ConcatAppend(parts[1..], last);
    }
  }

  // ---------------------------------------------------------------- histories

  datatype PageOp = Chunk(call: ChunkCall) | Complete(total: nat, env: FinishEnv)

  function Step(md5: Bytes -> string, p: PageState, op: PageOp): PageState {
    match op
    case Chunk(c) => ChunkStep(md5, p, c).0
    case Complete(total, env) => if total == 0 then p else CompleteStep(p, total, env).page
  }

  function Run(md5: Bytes -> string, ops: seq<PageOp>): PageState {
    if ops == [] then NOTHING_UPLOADED
    else Step(md5, Run(md5, ops[..|ops| - 1]), ops[|ops| - 1])
  }

  /** The completion call marked the page, or deleted its chunks and then failed to. */
  ghost predicate Seals(p: PageState, total: nat, env: FinishEnv) {
    var outcome := CompleteStep(p, total, env).outcome;
    outcome == Composed || (outcome == MarkFailed && env.deleted)
  }

  /** Some completion call in the history did so. */
  ghost predicate Sealed(md5: Bytes -> string, ops: seq<PageOp>) {
    ops != [] &&
    var init, last := ops[..|ops| - 1], ops[|ops| - 1];
    Sealed(md5, init) ||
    (last.Complete? && last.total > 0 && Seals(Run(md5, init), last.total, last.env))
  }

  /** A request that nothing but the history can make the handler refuse. */
  ghost predicate WellFormed(md5: Bytes -> string, op: PageOp) {
    op.Chunk? &&
    var c := op.call;
    && 0 <= c.index < c.total <= MAX_CHUNKS
    && c.readable && c.stored && c.recorded
    && |c.data| <= CHUNK_SIZE && EqualFold(md5(c.data), c.checksum)
  }

  /** The total of the first well-formed request; 0 when there is none. */
  ghost function AgreedTotal(md5: Bytes -> string, ops: seq<PageOp>): nat {
    if ops == [] then 0
    else
      var init, last := ops[..|ops| - 1], ops[|ops| - 1];
      var before := AgreedTotal(md5, init);
      if before != 0 then before
      else if WellFormed(md5, last) then last.call.total
      else 0
  }

  /** The data of the first well-formed request for chunk `i` of `total`. */
  ghost function Accepted(md5: Bytes -> string, ops: seq<PageOp>, total: nat, i: int): Option<Bytes> {
    if ops == [] then None
    else
      var init, last := ops[..|ops| - 1], ops[|ops| - 1];
      var before := Accepted(md5, init, total, i);
      if before.Some? then before
      else if WellFormed(md5, last) && last.call.total == total && last.call.index == i then Some(last.call.data)
      else None
  }

  lemma {:induction false} NoneAcceptedBeforeAgreement(md5: Bytes -> string, ops: seq<PageOp>, total: nat, i: int)
    requires AgreedTotal(md5, ops) == 0
    ensures Accepted(md5, ops, total, i) == None
  {
    if ops != [] {
      NoneAcceptedBeforeAgreement(md5, ops[..|ops| - 1], total, i);
    }
  }

  ghost predicate Tracks(md5: Bytes -> string, ops: seq<PageOp>, p: PageState) {
    var total := AgreedTotal(md5, ops);
    if p.row.None? then total == 0
    else
      var meta := p.row.value.meta;
      && p.row.value.status != PageUploaded
      && meta.total == total
      && (forall i :: i in meta.received <==> Accepted(md5, ops, total, i).Some?)
      && (forall i :: i in meta.received ==> i in p.chunks && p.chunks[i] == Accepted(md5, ops, total, i).value)
  }

  /** Every other completion call leaves the page as it was, also one that stored the composed
      page and then could neither delete the chunks nor mark it. */
  lemma UnsealedKeepsPage(p: PageState, total: nat, env: FinishEnv)
    requires !Seals(p, total, env)
    ensures CompleteStep(p, total, env).page == p
  {
  }

  /** After any history of chunk calls and failed completions, in any order and with any
      repeats and rejections, the receipts and the stored chunks are those of the first
      well-formed request for each number of the agreed total. */
  lemma {:induction false} ReceiptsAreFirstAcceptedCalls(md5: Bytes -> string, ops: seq<PageOp>)
    requires !Sealed(md5, ops)
    ensures PageInv(Run(md5, ops))
    ensures Tracks(md5, ops, Run(md5, ops))
  {
    if ops != [] {
      var init, last := ops[..|ops| - 1], ops[|ops| - 1];
      ReceiptsAreFirstAcceptedCalls(md5, init);
      var p := Run(md5, init);
      assert init + [last] == ops;
      if last.Chunk? {
        ChunkStepKeepsInv(md5, p, last.call);
        TracksChunk(md5, init, last, p);
      } else {
        if last.total > 0 { UnsealedKeepsPage(p, last.total, last.env); }
        TracksRejected(md5, init, last, p);
      }
    }
  }

  lemma TracksRejected(md5: Bytes -> string, init: seq<PageOp>, last: PageOp, p: PageState)
    requires Tracks(md5, init, p) && !WellFormed(md5, last)
    ensures Tracks(md5, init + [last], p)
  {
    var ops := init + [last];
    assert ops[..|ops| - 1] == init;
    assert AgreedTotal(md5, ops) == AgreedTotal(md5, init);
    forall i ensures Accepted(md5, ops, AgreedTotal(md5, init), i) == Accepted(md5, init, AgreedTotal(md5, init), i) {
    }
  }

  lemma TracksChunk(md5: Bytes -> string, init: seq<PageOp>, last: PageOp, p: PageState)
    requires last.Chunk? && PageInv(p) && Tracks(md5, init, p)
    ensures Tracks(md5, init + [last], ChunkStep(md5, p, last.call).0)
  {
    var ops := init + [last];
    assert ops[..|ops| - 1] == init;
    var before, after := AgreedTotal(md5, init), AgreedTotal(md5, ops);
    var c, q := last.call, ChunkStep(md5, p, last.call).0;
    if before == 0 {
      forall i
        ensures Accepted(md5, init, before, i) == None && Accepted(md5, init, after, i) == None
      {
        NoneAcceptedBeforeAgreement(md5, init, before, i);
        NoneAcceptedBeforeAgreement(md5, init, after, i);
      }
    }
    forall i
      ensures Accepted(md5, ops, after, i) ==
              if Accepted(md5, init, before, i).Some? then Accepted(md5, init, before, i)
              else if WellFormed(md5, last) && c.total == after && c.index == i then Some(c.data)
              else None
    {
    }
    if q.row.Some? {
      var old_, new_ := if p.row.Some? then p.row.value.meta else NO_CHUNKS, q.row.value.meta;
      assert forall i :: i in old_.received <==> Accepted(md5, init, before, i).Some?;
      if WellFormed(md5, last) && c.total == after && c.index !in old_.received {
        assert new_.received == old_.received + [c.index];
        assert forall i :: i in new_.received <==> i in old_.received || i == c.index;
      } else {
        assert new_ == old_;
        assert forall i :: i in old_.received ==> q.chunks[i] == p.chunks[i];
      }
    }
  }

  // ---------------------------------------------------------------- main results

  ghost predicate EveryChunkAccepted(md5: Bytes -> string, ops: seq<PageOp>, total: nat) {
    && AgreedTotal(md5, ops) == total
    && forall i :: 0 <= i < total ==> Accepted(md5, ops, total, i).Some?
  }

  ghost function AcceptedParts(md5: Bytes -> string, ops: seq<PageOp>, total: nat): (parts: seq<Bytes>)
    requires EveryChunkAccepted(md5, ops, total)
    ensures |parts| == total
    ensures forall i :: 0 <= i < total ==> parts[i] == Accepted(md5, ops, total, i).value
  {
    seq(total, i requires 0 <= i < total => Accepted(md5, ops, total, i).value)
  }

  /** What a completion call does with a page it can compose. */
  lemma ComposesParts(p: PageState, total: nat, env: FinishEnv, parts: seq<Bytes>)
    requires PageInv(p) && p.row.Some? && p.row.value.status != PageUploaded
    requires ReceiptsPass(p.row.value.meta, total) && HasAll(p.chunks, total) && Parts(p.chunks, total) == parts
    ensures |Concat(parts)| <= total * CHUNK_SIZE
    ensures var r := CompleteStep(p, total, env);
            && r.outcome in {NotAnImage, StoreFailed, MarkFailed, Composed}
            && (r.outcome == NotAnImage <==> !IsImage(Concat(parts)))
            && (r.outcome in {MarkFailed, Composed} <==> r.put.Some?)
            && (r.put.Some? ==> r.put.value == Concat(parts))
            && (IsImage(Concat(parts)) && env.stored && env.marked ==> r.outcome == Composed)
  {
    ConcatSize(parts);
  }

  /** The receipt check passes exactly when every chunk 0..total-1 has been accepted; no
      stored chunk is then missing. */
  lemma CompletionIffEveryChunkAccepted(md5: Bytes -> string, ops: seq<PageOp>, total: nat, env: FinishEnv)
    requires total > 0 && !Sealed(md5, ops)
    ensures CompleteStep(Run(md5, ops), total, env).outcome in {NotAnImage, StoreFailed, MarkFailed, Composed}
            <==> EveryChunkAccepted(md5, ops, total)
    ensures !CompleteStep(Run(md5, ops), total, env).outcome.MissingStored?
  {
    ReceiptsAreFirstAcceptedCalls(md5, ops);
    var p := Run(md5, ops);
    if p.row.Some? {
      var meta := p.row.value.meta;
      if ReceiptsPass(meta, total) {
        PassingReceiptsAreAll(meta, total);
        ComposesParts(p, total, env, Parts(p.chunks, total));
      }
      if EveryChunkAccepted(md5, ops, total) {
        assert forall i :: 0 <= i < total ==> i in meta.received;
        Pigeonhole(meta.received, total);
      }
    }
  }

  /** Once every chunk has been accepted, the composed page is the accepted chunks in index
      order, and it cannot exceed the page limit. */
  lemma ComposedPageIsAcceptedChunks(md5: Bytes -> string, ops: seq<PageOp>, total: nat, env: FinishEnv)
    requires total > 0 && !Sealed(md5, ops) && EveryChunkAccepted(md5, ops, total)
    ensures var parts := AcceptedParts(md5, ops, total);
            var r := CompleteStep(Run(md5, ops), total, env);
            && |Concat(parts)| <= MAX_PAGE_SIZE
            && (r.outcome == NotAnImage <==> !IsImage(Concat(parts)))
            && (r.outcome in {MarkFailed, Composed} <==> r.put.Some?)
            && (r.put.Some? ==> r.put.value == Concat(parts))
            && (IsImage(Concat(parts)) && env.stored && env.marked ==> r.outcome == Composed)
  {
    ReceiptsAreFirstAcceptedCalls(md5, ops);
    var p := Run(md5, ops);
    var received := p.row.value.meta.received;
    assert forall i :: 0 <= i < total ==> i in received;
    Pigeonhole(received, total);
    assert Parts(p.chunks, total) == AcceptedParts(md5, ops, total);
    ComposesParts(p, total, env, AcceptedParts(md5, ops, total));
  }

  function ChunkCount(file: Bytes): nat {
    (|file| + CHUNK_SIZE - 1) / CHUNK_SIZE
  }

  /** What a client sends as chunk `i` of a file. */
  function Slice(file: Bytes, i: nat): Bytes
    requires i < ChunkCount(file)
  {
    file[i * CHUNK_SIZE..Min((i + 1) * CHUNK_SIZE, |file|)]
  }

  lemma {:induction false} SlicesJoin(file: Bytes, n: nat)
    requires n <= ChunkCount(file)
    ensures Concat(seq(n, i requires 0 <= i < n => Slice(file, i))) == file[..Min(n * CHUNK_SIZE, |file|)]
  {
    if n > 0 {
      SlicesJoin(file, n - 1);
      var slices := seq(n, i requires 0 <= i < n => Slice(file, i));
      var init := seq(n - 1, i requires 0 <= i < n - 1 => Slice(file, i));
      assert slices == init + [Slice(file, n - 1)];
      ConcatAppend(init, Slice(file, n - 1));
      SliceEnds(file, n);
      PrefixGrows(file, (n - 1) * CHUNK_SIZE, Min(n * CHUNK_SIZE, |file|));
    }
  }

  lemma SliceEnds(file: Bytes, n: nat)
    requires 0 < n <= ChunkCount(file)
    ensures 0 <= (n - 1) * CHUNK_SIZE <= Min(n * CHUNK_SIZE, |file|) <= |file|
    ensures Min((n - 1) * CHUNK_SIZE, |file|) == (n - 1) * CHUNK_SIZE
  {
  }

  lemma PrefixGrows(file: Bytes, a: nat, b: nat)
    requires a <= b <= |file|
    ensures file[..a] + file[a..b] == file[..b]
  {
  }

  /** A file cut into chunks comes back byte for byte, whatever else was sent to the page:
      it is enough that the requests the handler could accept carry the file's own slices. */
  lemma SplitFileComesBack(md5: Bytes -> string, ops: seq<PageOp>, file: Bytes, env: FinishEnv)
    requires !Sealed(md5, ops) && IsImage(file)
    requires EveryChunkAccepted(md5, ops, ChunkCount(file))
    requires forall i :: 0 <= i < |ops| && WellFormed(md5, ops[i]) && ops[i].call.total == ChunkCount(file) ==>
               ops[i].call.data == Slice(file, ops[i].call.index)
    requires env.stored && env.marked
    ensures CompleteStep(Run(md5, ops), ChunkCount(file), env).outcome == Composed
    ensures CompleteStep(Run(md5, ops), ChunkCount(file), env).put == Some(file)
  {
    AcceptedAreSlices(md5, ops, file);
    SlicesAreFile(file);
    ComposedPageIsAcceptedChunks(md5, ops, ChunkCount(file), env);
  }

  function Slices(file: Bytes): seq<Bytes> {
    seq(ChunkCount(file), i requires 0 <= i < ChunkCount(file) => Slice(file, i))
  }

  lemma SlicesAreFile(file: Bytes)
    ensures Concat(Slices(file)) == file
    ensures file != [] ==> ChunkCount(file) > 0
  {
    var n := ChunkCount(file);
    SlicesJoin(file, n);
    assert Slices(file) == seq(n, i requires 0 <= i < n => Slice(file, i));
    assert Min(n * CHUNK_SIZE, |file|) == |file|;
    assert file[..|file|] == file;
  }

  lemma AcceptedAreSlices(md5: Bytes -> string, ops: seq<PageOp>, file: Bytes)
    requires EveryChunkAccepted(md5, ops, ChunkCount(file))
    requires forall i :: 0 <= i < |ops| && WellFormed(md5, ops[i]) && ops[i].call.total == ChunkCount(file) ==>
               ops[i].call.data == Slice(file, ops[i].call.index)
    ensures AcceptedParts(md5, ops, ChunkCount(file)) == Slices(file)
  {
    var n := ChunkCount(file);
    forall i | 0 <= i < n
      ensures Accepted(md5, ops, n, i).value == Slice(file, i)
    {
      AcceptedIsFromHistory(md5, ops, n, i);
    }
  }

  lemma {:induction false} AcceptedIsFromHistory(md5: Bytes -> string, ops: seq<PageOp>, total: nat, i: int)
    requires Accepted(md5, ops, total, i).Some?
    ensures exists k :: 0 <= k < |ops| && WellFormed(md5, ops[k]) && ops[k].call.total == total
              && ops[k].call.index == i && ops[k].call.data == Accepted(md5, ops, total, i).value
  {
    var init, last := ops[..|ops| - 1], ops[|ops| - 1];
    if Accepted(md5, init, total, i).Some? {
      AcceptedIsFromHistory(md5, init, total, i);
      var k :| 0 <= k < |init| && WellFormed(md5, init[k]) && init[k].call.total == total
               && init[k].call.index == i && init[k].call.data == Accepted(md5, init, total, i).value;
      assert ops[k] == init[k];
    }
  }

  ghost predicate Fixed(md5: Bytes -> string, p: PageState) {
    forall op :: Step(md5, p, op) == p
  }

  lemma {:induction false} FixedStays(md5: Bytes -> string, ops: seq<PageOp>, more: seq<PageOp>)
    requires Fixed(md5, Run(md5, ops))
    ensures Run(md5, ops + more) == Run(md5, ops)
  {
    if more == [] {
      assert ops + more == ops;
    } else {
      var init, last := more[..|more| - 1], more[|more| - 1];
      assert (ops + more)[..|ops + more| - 1] == ops + init;
      FixedStays(md5, ops, init);
    }
  }

  /** An uploaded page never changes again. */
  lemma UploadedIsFinal(md5: Bytes -> string, ops: seq<PageOp>, more: seq<PageOp>)
    requires var p := Run(md5, ops); PageInv(p) && p.row.Some? && p.row.value.status == PageUploaded
    ensures Run(md5, ops + more) == Run(md5, ops)
  {
    FixedStays(md5, ops, more);
  }

  /** The chunks are deleted before the page is marked. When marking then fails, the page is
      stranded exactly when the deletion succeeded ... */
  lemma MarkFailureStrands(p: PageState, total: nat, env: FinishEnv)
    requires PageInv(p) && total > 0
    requires CompleteStep(p, total, env).outcome == MarkFailed
    ensures Stranded(CompleteStep(p, total, env).page) <==> env.deleted
    ensures !env.deleted ==> CompleteStep(p, total, env).page == p
  {
    PassingReceiptsAreAll(p.row.value.meta, total);
    assert 0 in p.chunks;
  }

  /** ... and no later call of either kind ever changes or uploads a stranded page. */
  lemma StrandedForever(md5: Bytes -> string, ops: seq<PageOp>, more: seq<PageOp>)
    requires var p := Run(md5, ops); PageInv(p) && Stranded(p)
    ensures Run(md5, ops + more) == Run(md5, ops)
    ensures forall total, env | total > 0 ::
              CompleteStep(Run(md5, ops + more), total, env).outcome in {TotalMismatch, MissingStored(0), MissingChunks}
  {
    var p := Run(md5, ops);
    forall op
      ensures Step(md5, p, op) == p
    {
      if op.Chunk? { StrandedAcceptsNothing(md5, p, op.call); }
    }
    FixedStays(md5, ops, more);
  }

  ghost predicate Uploaded(p: PageState) {
    p.row.Some? && p.row.value.status == PageUploaded
  }

  lemma FixedPages(md5: Bytes -> string, p: PageState, op: PageOp)
    requires PageInv(p) && (Uploaded(p) || Stranded(p))
    ensures Step(md5, p, op) == p
  {
    if op.Chunk? && Stranded(p) { StrandedAcceptsNothing(md5, p, op.call); }
  }

  /** So every history is covered: while it is not sealed, the page holds the first accepted
      chunks; once it is, the page is uploaded or stranded, and stays so. */
  lemma {:induction false} SealedIsUploadedOrStranded(md5: Bytes -> string, ops: seq<PageOp>)
    ensures PageInv(Run(md5, ops))
    ensures Sealed(md5, ops) <==> Uploaded(Run(md5, ops)) || Stranded(Run(md5, ops))
  {
    if ops != [] {
      var init, last := ops[..|ops| - 1], ops[|ops| - 1];
      var p := Run(md5, init);
      SealedIsUploadedOrStranded(md5, init);
      if Sealed(md5, init) {
        FixedPages(md5, p, last);
      } else if Sealed(md5, ops) {
        CompleteStepKeepsInv(p, last.total, last.env);
        if CompleteStep(p, last.total, last.env).outcome == MarkFailed { MarkFailureStrands(p, last.total, last.env); }
      } else {
        ReceiptsAreFirstAcceptedCalls(md5, ops);
        NotStranded(md5, ops);
      }
    }
  }

  /** Receipts that are backed by chunks are not those of a stranded page. */
  lemma NotStranded(md5: Bytes -> string, ops: seq<PageOp>)
    requires PageInv(Run(md5, ops)) && Tracks(md5, ops, Run(md5, ops))
    ensures !Uploaded(Run(md5, ops)) && !Stranded(Run(md5, ops))
  {
    var p := Run(md5, ops);
    if p.row.Some? && p.row.value.meta.received != [] {
      assert p.row.value.meta.received[0] in p.row.value.meta.received;
      assert p.row.value.meta.received[0] in p.chunks;
    }
  }

  // ---------------------------------------------------------------- receipts without chunks

  function RunFrom(md5: Bytes -> string, p: PageState, ops: seq<PageOp>): PageState {
    if ops == [] then p else Step(md5, RunFrom(md5, p, ops[..|ops| - 1]), ops[|ops| - 1])
  }

  /** Chunk i has a receipt and is not stored, on a page that is not uploaded. */
  ghost predicate Hollow(p: PageState, i: int) {
    && p.row.Some? && p.row.value.status != PageUploaded && p.row.value.meta.total > 0
    && i in p.row.value.meta.received && 0 <= i < p.row.value.meta.total && i !in p.chunks
  }

  /** Such a chunk is never asked for again and never comes back, so no sequence of chunk and
      completion calls ever composes the page. */
  lemma {:induction false} HollowForever(md5: Bytes -> string, p: PageState, i: int, ops: seq<PageOp>, total: nat, env: FinishEnv)
    requires Hollow(p, i) && total > 0
    ensures Hollow(RunFrom(md5, p, ops), i)
    ensures CompleteStep(RunFrom(md5, p, ops), total, env).outcome in {TotalMismatch, MissingChunks}
            || CompleteStep(RunFrom(md5, p, ops), total, env).outcome.MissingStored?
  {
    if ops != [] {
      HollowForever(md5, p, i, ops[..|ops| - 1], total, env);
      HollowStep(md5, RunFrom(md5, p, ops[..|ops| - 1]), i, ops[|ops| - 1]);
    }
  }

  /** What becomes of a page that a late write reopens after its completion deleted the chunks:
      the receipts come back, of the chunks at most the late one, so the page never completes
      again unless that chunk was the only one. */
  lemma ReopenedNeverCompletes(md5: Bytes -> string, p: PageState, read: seq<int>, own: int, ops: seq<PageOp>, total: nat, env: FinishEnv)
    requires p.row.Some? && p.row.value.status == PageUploading && p.row.value.meta.received == read + [own]
    requires GoodReceipts(p.row.value.meta) && (forall i :: i in p.chunks ==> i == own) && total > 0
    ensures read != [] ==> !(CompleteStep(RunFrom(md5, p, ops), total, env).outcome in {NotAnImage, StoreFailed, MarkFailed, Composed})
  {
    if read != [] {
      var meta := p.row.value.meta;
      assert meta.received[0] == read[0] && meta.received[|read|] == own;
      HollowForever(md5, p, read[0], ops, total, env);
    }
  }

  lemma HollowStep(md5: Bytes -> string, p: PageState, i: int, op: PageOp)
    requires Hollow(p, i)
    ensures Hollow(Step(md5, p, op), i)
  {
    if op.Chunk? && Step(md5, p, op).row.Some? {
      assert i in p.row.value.meta.received + [op.call.index];
    }
  }

  /** A stranded page is reached by one chunk and one completion that deletes it and cannot mark
      the page. */
  lemma StrandedIsReached(md5: Bytes -> string, data: Bytes)
    requires IsImage(data) && |data| <= CHUNK_SIZE
    ensures var c := ChunkCall(0, 1, md5(data), data, true, true, true);
            var ops := [Chunk(c), Complete(1, FinishEnv("k", true, true, false))];
            WellFormed(md5, ops[0]) && Stranded(Run(md5, ops)) && PageInv(Run(md5, ops))
  {
    var c := ChunkCall(0, 1, md5(data), data, true, true, true);
    var env := FinishEnv("k", true, true, false);
    var ops := [Chunk(c), Complete(1, env)];
    var one := ChunkStep(md5, NOTHING_UPLOADED, c).0;
    assert ops[..1] == [Chunk(c)] && ops[..1][..0] == [];
    assert Run(md5, ops[..1]) == Step(md5, Run(md5, []), Chunk(c)) == one;
    assert EqualFold(md5(data), md5(data));
    assert one.row.Some? && one.row.value.meta.received == [0] && one.chunks[0] == data;
    assert Parts(one.chunks, 1) == [data];
    assert Concat([data]) == data + Concat([data][1..]) == data;
    assert Run(md5, ops) == CompleteStep(one, 1, env).page;
    ChunkStepKeepsInv(md5, NOTHING_UPLOADED, c);
    CompleteStepKeepsInv(one, 1, env);
  }

  // ---------------------------------------------------------------- what the client is told

  /** The completion call at step i composed the page. */
  ghost predicate ComposedAt(md5: Bytes -> string, ops: seq<PageOp>, i: nat)
    requires i < |ops|
  {
    ops[i].Complete? && ops[i].total > 0 && CompleteStep(Run(md5, ops[..i]), ops[i].total, ops[i].env).outcome == Composed
  }

  /** In every history the row of an uploaded page names the key under which the call that composed
      it stored the chunks of before, in order. */
  lemma {:induction false} UploadedNamesItsObject(md5: Bytes -> string, ops: seq<PageOp>)
    requires Uploaded(Run(md5, ops))
    ensures exists i :: 0 <= i < |ops| && ComposedAt(md5, ops, i)
              && Run(md5, ops).row.value.tempKey == Some(ops[i].env.key)
              && HasAll(Run(md5, ops[..i]).chunks, ops[i].total)
              && CompleteStep(Run(md5, ops[..i]), ops[i].total, ops[i].env).put
                 == Some(Concat(Parts(Run(md5, ops[..i]).chunks, ops[i].total)))
  {
    var init, last := ops[..|ops| - 1], ops[|ops| - 1];
    SealedIsUploadedOrStranded(md5, init);
    if Uploaded(Run(md5, init)) {
      UploadedNamesItsObject(md5, init);
      FixedPages(md5, Run(md5, init), last);
      var i :| 0 <= i < |init| && ComposedAt(md5, init, i) && Run(md5, init).row.value.tempKey == Some(init[i].env.key)
               && HasAll(Run(md5, init[..i]).chunks, init[i].total)
               && CompleteStep(Run(md5, init[..i]), init[i].total, init[i].env).put
                  == Some(Concat(Parts(Run(md5, init[..i]).chunks, init[i].total)));
      assert init[..i] == ops[..i] && init[i] == ops[i];
      assert ComposedAt(md5, ops, i);
    } else {
      BecomesUploaded(md5, Run(md5, init), last);
      assert ops[..|ops| - 1] == init;
      assert ComposedAt(md5, ops, |ops| - 1);
    }
  }

  lemma BecomesUploaded(md5: Bytes -> string, p: PageState, op: PageOp)
    requires !Uploaded(p) && Uploaded(Step(md5, p, op))
    ensures op.Complete? && op.total > 0 && CompleteStep(p, op.total, op.env).outcome == Composed
    ensures Step(md5, p, op).row.value.tempKey == Some(op.env.key) && HasAll(p.chunks, op.total)
    ensures CompleteStep(p, op.total, op.env).put == Some(Concat(Parts(p.chunks, op.total)))
  {
  }

  /** What the answer to a chunk request means, in every history of an unsealed page: received is
      answered exactly to an acceptable request for a number not accepted before, with the count
      of the accepted numbers; the two conflicts say what was accepted before. */
  lemma ChunkAnswersMean(md5: Bytes -> string, ops: seq<PageOp>, c: ChunkCall)
    requires !Sealed(md5, ops) && 0 <= c.index < c.total <= MAX_CHUNKS
    ensures var out, agreed := ChunkStep(md5, Run(md5, ops), c).1, AgreedTotal(md5, ops);
            && (out.Received? <==> WellFormed(md5, Chunk(c)) && agreed in {0, c.total} && Accepted(md5, ops, c.total, c.index).None?)
            && (out == AlreadyReceived <==> agreed == c.total && Accepted(md5, ops, c.total, c.index).Some?)
            && (out == ChunkTotalMismatch <==> agreed != 0 && agreed != c.total)
            && out != AlreadyUploaded
  {
    ReceiptsAreFirstAcceptedCalls(md5, ops);
    var p, agreed := Run(md5, ops), AgreedTotal(md5, ops);
    if agreed == 0 {
      NoneAcceptedBeforeAgreement(md5, ops, c.total, c.index);
      assert p.row.Some? ==> p.row.value.meta.received == [];
    }
    if p.row.Some? {
      assert c.index in p.row.value.meta.received <==> Accepted(md5, ops, agreed, c.index).Some?;
    }
  }
}
