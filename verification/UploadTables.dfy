/** The upload handlers themselves: HandleChunkUpload and HandleUploadComplete over the job
    table, the page table and the object store, with their loops, proved against the
    one-page protocol of `ChunkProtocol`. */
module UploadTables {
  import opened Common
  import opened ScanModel
  import opened ChunkProtocol
  import opened Receipts
  import opened ObjectKeys

  datatype JobRow = JobRow(owner: int, status: JobStatus)

  type PageId = (nat, nat)

  /** The chunk objects of one page, by number. */
  function ChunksOf(store: map<string, Bytes>, job: nat, page: nat): map<int, Bytes> {
    map i: int | 0 <= i < MAX_CHUNKS && ChunkKey(job, page, i) in store :: store[ChunkKey(job, page, i)]
  }

  function DeletePrefix(store: map<string, Bytes>, prefix: string): map<string, Bytes> {
    map k | k in store && !(prefix <= k) :: store[k]
  }

  lemma PutChunkView(store: map<string, Bytes>, job: nat, page: nat, i: nat, data: Bytes, job': nat, page': nat)
    requires i < MAX_CHUNKS
    ensures ChunksOf(store[ChunkKey(job, page, i) := data], job', page') ==
            if (job, page) == (job', page') then ChunksOf(store, job, page)[i := data] else ChunksOf(store, job', page')
  {
    forall k: nat
      ensures ChunkKey(job', page', k) == ChunkKey(job, page, i) <==> job == job' && page == page' && k == i
    {
      if ChunkKey(job', page', k) == ChunkKey(job, page, i) {
        ChunkKeyInjective(job', page', k, job, page, i);
      }
    }
  }

  /** Removing one page's chunk prefix empties that page and leaves every other page alone. */
  lemma DeletePrefixView(store: map<string, Bytes>, job: nat, page: nat, job': nat, page': nat)
    ensures ChunksOf(DeletePrefix(store, ChunkPrefix(job, page)), job', page') ==
            if (job, page) == (job', page') then map[] else ChunksOf(store, job', page')
  {
    forall k: nat
      ensures ChunkPrefix(job, page) <= ChunkKey(job', page', k) <==> job == job' && page == page'
    {
      PrefixSelectsOnePage(job, page, job', page', k);
    }
  }

  lemma PutPageView(store: map<string, Bytes>, job: nat, page: nat, name: string, data: Bytes, job': nat, page': nat)
    ensures ChunksOf(store[PageKey(job, page, name) := data], job', page') == ChunksOf(store, job', page')
  {
    forall k: nat
      ensures ChunkKey(job', page', k) != PageKey(job, page, name)
    {
      PageKeyIsNotAChunk(job, page, name, job', page');
      assert ChunkPrefix(job', page') <= ChunkKey(job', page', k);
    }
  }

  /** AllPagesUploaded: the job has a page and none that is not uploaded. */
  predicate AllUploaded(pages: map<PageId, PageRow>, job: nat) {
    && (exists id :: id in pages && id.0 == job)
    && (forall id :: id in pages && id.0 == job ==> pages[id].status == PageUploaded)
  }

  /** What the protocol sees of one page. */
  ghost function ViewOf(pages: map<PageId, PageRow>, store: map<string, Bytes>, job: nat, page: nat): PageState {
    PageState(if (job, page) in pages then Some(pages[(job, page)]) else None, ChunksOf(store, job, page))
  }

  ghost predicate SameElsewhere(pages: map<PageId, PageRow>, store: map<string, Bytes>,
                                pages': map<PageId, PageRow>, store': map<string, Bytes>, id: PageId) {
    forall j: nat, p: nat :: (j, p) != id ==> ViewOf(pages', store', j, p) == ViewOf(pages, store, j, p)
  }

  lemma RowWriteView(pages: map<PageId, PageRow>, store: map<string, Bytes>, id: PageId, row: PageRow)
    ensures SameElsewhere(pages, store, pages[id := row], store, id)
  {
  }

  lemma ChunkWriteView(pages: map<PageId, PageRow>, store: map<string, Bytes>, id: PageId, i: nat, data: Bytes)
    requires i < MAX_CHUNKS
    ensures var store' := store[ChunkKey(id.0, id.1, i) := data];
            && SameElsewhere(pages, store, pages, store', id)
            && ChunksOf(store', id.0, id.1) == ChunksOf(store, id.0, id.1)[i := data]
  {
    var store' := store[ChunkKey(id.0, id.1, i) := data];
    forall j: nat, p: nat
      ensures ChunksOf(store', j, p) == if id == (j, p) then ChunksOf(store, j, p)[i := data] else ChunksOf(store, j, p)
    {
      PutChunkView(store, id.0, id.1, i, data, j, p);
    }
  }

  /** The view after a chunk and its receipt have been written. */
  lemma ChunkWritten(pages: map<PageId, PageRow>, store: map<string, Bytes>, id: PageId, row: PageRow, c: ChunkCall)
    requires 0 <= c.index < MAX_CHUNKS && c.total >= 0
    ensures var pages' := pages[id := row][id := if c.recorded then WithReceipt(row, c) else row];
            var store' := store[ChunkKey(id.0, id.1, c.index) := c.data];
            && SameElsewhere(pages, store, pages', store', id)
            && ViewOf(pages', store', id.0, id.1) ==
               PageState(Some(if c.recorded then WithReceipt(row, c) else row), ChunksOf(store, id.0, id.1)[c.index := c.data])
  {
    ChunkWriteView(pages, store, id, c.index, c.data);
  }

  /** What the two ways to end look like to the protocol. */
  lemma RowRefused(md5: Bytes -> string, pages: map<PageId, PageRow>, store: map<string, Bytes>, id: PageId, row: PageRow, c: ChunkCall,
                   refused: ChunkOutcome)
    requires 0 <= c.index < c.total <= MAX_CHUNKS && ChunkRefusal(md5, row, c) == Some(refused)
    requires row == if id in pages then pages[id] else NEW_PAGE
    ensures SameElsewhere(pages, store, pages[id := row], store, id)
    ensures (ViewOf(pages[id := row], store, id.0, id.1), refused) == ChunkStep(md5, ViewOf(pages, store, id.0, id.1), c)
  {
    RowWriteView(pages, store, id, row);
  }

  lemma RowAccepted(md5: Bytes -> string, pages: map<PageId, PageRow>, store: map<string, Bytes>, id: PageId, row: PageRow, c: ChunkCall)
    requires 0 <= c.index < c.total <= MAX_CHUNKS && ChunkRefusal(md5, row, c).None?
    requires row == if id in pages then pages[id] else NEW_PAGE
    ensures c.index !in row.meta.received && (row.meta.total == 0 || row.meta.total == c.total)
    ensures var pages' := pages[id := row][id := if c.recorded then WithReceipt(row, c) else row];
            var store' := store[ChunkKey(id.0, id.1, c.index) := c.data];
            && SameElsewhere(pages, store, pages', store', id)
            && (ViewOf(pages', store', id.0, id.1), if c.recorded then Received(|row.meta.received| + 1) else RecordFailed) ==
               ChunkStep(md5, ViewOf(pages, store, id.0, id.1), c)
  {
    ChunkWritten(pages, store, id, row, c);
  }

  lemma ComposeWriteView(pages: map<PageId, PageRow>, store: map<string, Bytes>, id: PageId, name: string, data: Bytes)
    ensures SameElsewhere(pages, store, pages, store[PageKey(id.0, id.1, name) := data], id)
    ensures ChunksOf(store[PageKey(id.0, id.1, name) := data], id.0, id.1) == ChunksOf(store, id.0, id.1)
  {
    forall j: nat, p: nat
      ensures ChunksOf(store[PageKey(id.0, id.1, name) := data], j, p) == ChunksOf(store, j, p)
    {
      PutPageView(store, id.0, id.1, name, data, j, p);
    }
  }

  lemma DeleteChunksView(pages: map<PageId, PageRow>, store: map<string, Bytes>, id: PageId)
    ensures var store' := DeletePrefix(store, ChunkPrefix(id.0, id.1));
            SameElsewhere(pages, store, pages, store', id) && ChunksOf(store', id.0, id.1) == map[]
  {
    forall j: nat, p: nat
      ensures ChunksOf(DeletePrefix(store, ChunkPrefix(id.0, id.1)), j, p) ==
              if id == (j, p) then map[] else ChunksOf(store, j, p)
    {
      DeletePrefixView(store, id.0, id.1, j, p);
    }
  }

  ghost predicate ValidTables(pages: map<PageId, PageRow>, store: map<string, Bytes>) {
    forall job: nat, page: nat :: PageInv(ViewOf(pages, store, job, page))
  }

  lemma ValidAfterPageStep(pages: map<PageId, PageRow>, store: map<string, Bytes>,
                           pages': map<PageId, PageRow>, store': map<string, Bytes>, id: PageId)
    requires ValidTables(pages, store) && SameElsewhere(pages, store, pages', store', id)
    requires PageInv(ViewOf(pages', store', id.0, id.1))
    ensures ValidTables(pages', store')
  {
    forall job: nat, page: nat
      ensures PageInv(ViewOf(pages', store', job, page))
    {
      if (job, page) != id {
        assert PageInv(ViewOf(pages, store, job, page));
      }
    }
  }

  lemma ChunkKeepsValid(md5: Bytes -> string, pages: map<PageId, PageRow>, store: map<string, Bytes>,
                        pages': map<PageId, PageRow>, store': map<string, Bytes>, id: PageId, c: ChunkCall)
    requires ValidTables(pages, store) && SameElsewhere(pages, store, pages', store', id)
    requires ViewOf(pages', store', id.0, id.1) == ChunkStep(md5, ViewOf(pages, store, id.0, id.1), c).0
    ensures ValidTables(pages', store')
    ensures ChunkStep(md5, ViewOf(pages, store, id.0, id.1), c).1 != PageTooLarge
  {
    ChunkStepKeepsInv(md5, ViewOf(pages, store, id.0, id.1), c);
    ValidAfterPageStep(pages, store, pages', store', id);
  }

  lemma CompletionKeepsValid(pages: map<PageId, PageRow>, store: map<string, Bytes>,
                             pages': map<PageId, PageRow>, store': map<string, Bytes>, id: PageId, total: nat, env: FinishEnv)
    requires ValidTables(pages, store) && SameElsewhere(pages, store, pages', store', id) && total > 0
    requires ViewOf(pages', store', id.0, id.1) == CompleteStep(ViewOf(pages, store, id.0, id.1), total, env).page
    ensures ValidTables(pages', store')
  {
    CompleteStepKeepsInv(ViewOf(pages, store, id.0, id.1), total, env);
    ValidAfterPageStep(pages, store, pages', store', id);
  }

  lemma FirstMissingIs(chunks: map<int, Bytes>, n: nat, i: nat)
    requires i < n && i !in chunks && HasAll(chunks, i)
    ensures !HasAll(chunks, n) && FirstMissing(chunks, n, 0) == i
  {
    var k := if HasAll(chunks, n) then 0 else FirstMissing(chunks, n, 0);
    assert k < i ==> k in chunks;
  }

  /** A page whose receipts pass fits the page limit. */
  lemma ComposeFacts(p: PageState, total: nat)
    requires PageInv(p) && p.row.Some? && ReceiptsPass(p.row.value.meta, total) && total > 0
    ensures total <= MAX_CHUNKS
    ensures HasAll(p.chunks, total) ==> |Concat(Parts(p.chunks, total))| <= MAX_PAGE_SIZE
  {
    PassingReceiptsAreAll(p.row.value.meta, total);
    if HasAll(p.chunks, total) {
      ConcatSize(Parts(p.chunks, total));
    }
  }

  lemma NothingUploadedYet()
    ensures forall job: nat, page: nat :: ViewOf(map[], map[], job, page) == NOTHING_UPLOADED
    ensures ValidTables(map[], map[])
  {
    forall job: nat, page: nat
      ensures ChunksOf(map[], job, page) == map[]
    {
    }
  }

  // ---------------------------------------------------------------- what an uploaded page names

  /** The row of an uploaded page names an object of that page, and the object is there. */
  ghost predicate Names(row: PageRow, store: map<string, Bytes>, id: PageId) {
    row.tempKey.Some? && row.tempKey.value in store && exists name :: row.tempKey.value == PageKey(id.0, id.1, name)
  }

  ghost predicate UploadedNamed(pages: map<PageId, PageRow>, store: map<string, Bytes>) {
    forall id :: id in pages && pages[id].status == PageUploaded ==> Names(pages[id], store, id)
  }

  /** The page keeps its row, and what this names keeps its bytes. */
  ghost predicate Keeps(pages: map<PageId, PageRow>, store: map<string, Bytes>,
                        pages': map<PageId, PageRow>, store': map<string, Bytes>, id: PageId)
    requires id in pages
  {
    && id in pages' && pages'[id] == pages[id] && pages[id].tempKey.Some? && pages[id].tempKey.value in store
    && pages[id].tempKey.value in store' && store'[pages[id].tempKey.value] == store[pages[id].tempKey.value]
  }

  ghost predicate UploadedKept(pages: map<PageId, PageRow>, store: map<string, Bytes>,
                               pages': map<PageId, PageRow>, store': map<string, Bytes>) {
    forall id :: id in pages && pages[id].status == PageUploaded ==> Keeps(pages, store, pages', store', id)
  }

  /** The page was composed: its row names an object that holds the content. */
  ghost predicate ComposedInto(pages: map<PageId, PageRow>, store: map<string, Bytes>, id: PageId, content: Bytes) {
    && id in pages && pages[id].status == PageUploaded && Names(pages[id], store, id)
    && store[pages[id].tempKey.value] == content
  }

  /** The chunks in index order, if all are there. */
  function InOrder(chunks: map<int, Bytes>, total: nat): Bytes {
    if HasAll(chunks, total) then Concat(Parts(chunks, total)) else []
  }

  /** What one call may do to the object store: write one chunk of its page, or the composed page,
      and then delete the page's chunks. */
  ghost predicate WritesOnly(store: map<string, Bytes>, store': map<string, Bytes>, id: PageId) {
    || store' == store
    || (exists i: nat, data :: ChunkStored(store, store', id, i, data))
    || (exists name, data :: ComposedStore(store, store', id, name, data))
  }

  ghost predicate ChunkStored(store: map<string, Bytes>, store': map<string, Bytes>, id: PageId, i: nat, data: Bytes) {
    store' == store[ChunkKey(id.0, id.1, i) := data]
  }

  ghost predicate ComposedStore(store: map<string, Bytes>, store': map<string, Bytes>, id: PageId, name: string, data: Bytes) {
    var put := store[PageKey(id.0, id.1, name) := data];
    store' == put || store' == DeletePrefix(put, ChunkPrefix(id.0, id.1))
  }

  /** An object that another page's row may name is out of reach of such a call. */
  lemma OthersOutOfReach(store: map<string, Bytes>, store': map<string, Bytes>, id: PageId, j: PageId, name: string)
    requires WritesOnly(store, store', id) && j != id && PageKey(j.0, j.1, name) in store
    ensures PageKey(j.0, j.1, name) in store' && store'[PageKey(j.0, j.1, name)] == store[PageKey(j.0, j.1, name)]
  {
    PageKeyIsNotAChunk(j.0, j.1, name, id.0, id.1);
    if other, data :| ComposedStore(store, store', id, other, data) {
      if PageKey(id.0, id.1, other) == PageKey(j.0, j.1, name) { PageKeyDeterminesPage(id.0, id.1, other, j.0, j.1, name); }
    } else if i: nat, data :| ChunkStored(store, store', id, i, data) {
      assert ChunkPrefix(id.0, id.1) <= ChunkKey(id.0, id.1, i);
    }
  }

  lemma OtherPageKept(pages: map<PageId, PageRow>, store: map<string, Bytes>,
                      pages': map<PageId, PageRow>, store': map<string, Bytes>, id: PageId, j: PageId)
    requires SameElsewhere(pages, store, pages', store', id) && WritesOnly(store, store', id) && j != id
    ensures (j in pages <==> j in pages') && (j in pages ==> pages'[j] == pages[j])
    ensures j in pages && Names(pages[j], store, j) ==> Names(pages[j], store', j) && Keeps(pages, store, pages', store', j)
  {
    assert ViewOf(pages', store', j.0, j.1) == ViewOf(pages, store, j.0, j.1);
    if j in pages && Names(pages[j], store, j) {
      var name :| pages[j].tempKey.value == PageKey(j.0, j.1, name);
      OthersOutOfReach(store, store', id, j, name);
    }
  }

  /** A call that leaves the other pages alone and treats its own page well keeps every uploaded
      page, and what it names. */
  lemma NamedAfterStep(pages: map<PageId, PageRow>, store: map<string, Bytes>,
                       pages': map<PageId, PageRow>, store': map<string, Bytes>, id: PageId)
    requires UploadedNamed(pages, store) && SameElsewhere(pages, store, pages', store', id) && WritesOnly(store, store', id)
    requires id in pages' && pages'[id].status == PageUploaded ==> Names(pages'[id], store', id)
    requires id in pages && pages[id].status == PageUploaded ==> Keeps(pages, store, pages', store', id)
    ensures UploadedNamed(pages', store') && UploadedKept(pages, store, pages', store')
  {
    forall j: PageId
      ensures j in pages' && pages'[j].status == PageUploaded ==> Names(pages'[j], store', j)
      ensures j in pages && pages[j].status == PageUploaded ==> Keeps(pages, store, pages', store', j)
    {
      if j != id { OtherPageKept(pages, store, pages', store', id, j); }
    }
  }

  /** A chunk call does: an uploaded page is left alone, and none becomes uploaded. */
  lemma NamedAfterChunk(md5: Bytes -> string, pages: map<PageId, PageRow>, store: map<string, Bytes>,
                        pages': map<PageId, PageRow>, store': map<string, Bytes>, id: PageId, c: ChunkCall)
    requires UploadedNamed(pages, store) && SameElsewhere(pages, store, pages', store', id) && c.index >= 0
    requires store' == store || store' == store[ChunkKey(id.0, id.1, c.index) := c.data]
    requires ViewOf(pages', store', id.0, id.1) == ChunkStep(md5, ViewOf(pages, store, id.0, id.1), c).0
    ensures UploadedNamed(pages', store') && UploadedKept(pages, store, pages', store')
  {
    UploadedByChunk(md5, ViewOf(pages, store, id.0, id.1), c);
    if id in pages && pages[id].status == PageUploaded {
      var name :| pages[id].tempKey.value == PageKey(id.0, id.1, name);
      PageKeyIsNotAChunk(id.0, id.1, name, id.0, id.1);
      assert ChunkPrefix(id.0, id.1) <= ChunkKey(id.0, id.1, c.index);
    }
    assert store' != store ==> ChunkStored(store, store', id, c.index, c.data);
    NamedAfterStep(pages, store, pages', store', id);
  }

  /** All that a chunk call keeps. */
  lemma ChunkKeepsTables(md5: Bytes -> string, pages: map<PageId, PageRow>, store: map<string, Bytes>,
                         pages': map<PageId, PageRow>, store': map<string, Bytes>, id: PageId, c: ChunkCall, out: ChunkOutcome)
    requires ValidTables(pages, store) && UploadedNamed(pages, store) && SameElsewhere(pages, store, pages', store', id) && c.index >= 0
    requires store' == store || store' == store[ChunkKey(id.0, id.1, c.index) := c.data]
    requires (ViewOf(pages', store', id.0, id.1), out) == ChunkStep(md5, ViewOf(pages, store, id.0, id.1), c)
    ensures ValidTables(pages', store') && UploadedNamed(pages', store') && UploadedKept(pages, store, pages', store')
    ensures out !in {BadHeader, ChunkJobNotFound, PageTooLarge}
  {
    NamedAfterChunk(md5, pages, store, pages', store', id, c);
    ChunkKeepsValid(md5, pages, store, pages', store', id, c);
  }

  /** All that a completion call keeps. */
  lemma CompletionKeepsTables(pages: map<PageId, PageRow>, store: map<string, Bytes>,
                              pages': map<PageId, PageRow>, store': map<string, Bytes>, id: PageId, total: nat, env: FinishEnv, name: string,
                              data: Bytes)
    requires ValidTables(pages, store) && UploadedNamed(pages, store) && SameElsewhere(pages, store, pages', store', id) && total > 0
    requires store' == store || ComposedStore(store, store', id, name, data)
    requires ViewOf(pages', store', id.0, id.1) == CompleteStep(ViewOf(pages, store, id.0, id.1), total, env).page
    requires pages' == pages || ComposedInto(pages', store', id, data)
    requires id in pages && pages[id].status == PageUploaded ==> pages' == pages && store' == store
    ensures ValidTables(pages', store') && UploadedNamed(pages', store') && UploadedKept(pages, store, pages', store')
  {
    CompletionKeepsValid(pages, store, pages', store', id, total, env);
    NamedAfterStep(pages, store, pages', store', id);
  }

  lemma NothingHappened(pages: map<PageId, PageRow>, store: map<string, Bytes>)
    requires UploadedNamed(pages, store)
    ensures UploadedKept(pages, store, pages, store)
  {
  }

  lemma UploadedByChunk(md5: Bytes -> string, p: PageState, c: ChunkCall)
    ensures var q := ChunkStep(md5, p, c).0;
            && (q.row.Some? && q.row.value.status == PageUploaded ==> q.row == p.row)
            && (p.row.Some? && p.row.value.status == PageUploaded ==> q.row == p.row)
  {
  }

  /** The two places where a completion call moves its job to pending; only the first looks
      at the status the job has. */
  predicate WakesJob(out: CompleteOutcome, jobs: map<int, JobRow>, pages: map<PageId, PageRow>, job: int) {
    && job in jobs && job > 0 && AllUploaded(pages, job)
    && (out == Composed || (out == AlreadyComposed && jobs[job].status == Uploading))
  }

  class UploadTables {
    var jobs: map<int, JobRow>
    var pages: map<PageId, PageRow>
    var store: map<string, Bytes>

    constructor (jobs: map<int, JobRow>)
      ensures Valid() && this.jobs == jobs
      ensures forall job: nat, page: nat :: View(job, page) == NOTHING_UPLOADED
    {
      this.jobs := jobs;
      pages, store := map[], map[];
      new;
      NothingUploadedYet();
    }

    ghost function View(job: nat, page: nat): PageState
      reads this
    {
      ViewOf(pages, store, job, page)
    }

    ghost predicate Valid()
      reads this
    {
      ValidTables(pages, store) && UploadedNamed(pages, store)
    }

    predicate Owns(user: int, job: int)
      reads this
    {
      job in jobs && jobs[job].owner == user
    }

    /** `chunkAlreadyReceived`. */
    static method ChunkAlreadyReceived(meta: Metadata, index: int) returns (found: bool)
      ensures found <==> index in meta.received
    {
      var i := 0;
      while i < |meta.received|
        invariant 0 <= i <= |meta.received|
        invariant index !in meta.received[..i]
      {
        if meta.received[i] == index { return true; }
        i := i + 1;
      }
      return false;
    }

    /** `recordChunkReceipt`: adds a receipt once. */
    static method RecordChunkReceipt(meta: Metadata, index: int, checksum: string) returns (r: Metadata)
      ensures index in meta.received ==> r == meta
      ensures index !in meta.received ==>
                r == Metadata(meta.total, meta.received + [index], meta.checksums[index := checksum])
    {
      var found := ChunkAlreadyReceived(meta, index);
      if found { return meta; }
      r := meta.(received := meta.received + [index], checksums := meta.checksums[index := checksum]);
    }

    /** The checks of HandleChunkUpload before it looks at the page. */
    method CheckRequest(user: int, job: int, page: int, c: ChunkCall) returns (refused: Option<ChunkOutcome>)
      ensures refused == (if job <= 0 || page <= 0 || c.checksum == "" then Some(BadHeader)
                          else if c.total <= 0 || c.total > MAX_CHUNKS then Some(BadTotal)
                          else if c.index < 0 || c.index >= c.total then Some(BadIndex)
                          else if !Owns(user, job) then Some(ChunkJobNotFound)
                          else None)
    {
      if job <= 0 || page <= 0 || c.checksum == "" { return Some(BadHeader); }
      if c.total <= 0 || c.total > MAX_CHUNKS { return Some(BadTotal); }
      if c.index < 0 || c.index >= c.total { return Some(BadIndex); }
      if job !in jobs || jobs[job].owner != user { return Some(ChunkJobNotFound); }
      return None;
    }

    method HandleChunkUpload(md5: Bytes -> string, user: int, job: int, page: int, c: ChunkCall)
      returns (out: ChunkOutcome)
      requires Valid()
      modifies this`pages, this`store
      ensures Valid()
      ensures out == BadHeader <==> job <= 0 || page <= 0 || c.checksum == ""
      ensures out == ChunkJobNotFound <==>
                job > 0 && page > 0 && c.checksum != "" && 0 <= c.index < c.total <= MAX_CHUNKS && !Owns(user, job)
      ensures out == BadHeader || out == ChunkJobNotFound ==> pages == old(pages) && store == old(store)
      ensures out != BadHeader && out != ChunkJobNotFound ==>
                && (View(job, page), out) == ChunkStep(md5, old(View(job, page)), c)
                && SameElsewhere(old(pages), old(store), pages, store, (job, page))
      ensures out != PageTooLarge
      ensures UploadedKept(old(pages), old(store), pages, store)
    {
      NothingHappened(pages, store);
      var refused := CheckRequest(user, job, page, c);
      if refused.Some? { return refused.value; }
      out := ReceiveChunk(md5, job, page, c);
    }

    /** HandleChunkUpload from the page lookup on. */
    method ReceiveChunk(md5: Bytes -> string, job: nat, page: nat, c: ChunkCall) returns (out: ChunkOutcome)
      requires Valid() && 0 <= c.index < c.total <= MAX_CHUNKS
      modifies this`pages, this`store
      ensures Valid()
      ensures (View(job, page), out) == ChunkStep(md5, old(View(job, page)), c)
      ensures SameElsewhere(old(pages), old(store), pages, store, (job, page))
      ensures out !in {BadHeader, ChunkJobNotFound, PageTooLarge}
      ensures UploadedKept(old(pages), old(store), pages, store)
    {
      out := WriteChunk(md5, job, page, c);
      ChunkKeepsTables(md5, old(pages), old(store), pages, store, (job, page), c, out);
    }

    /** Its branches and writes; what they keep is ReceiveChunk's contract. */
    method WriteChunk(md5: Bytes -> string, job: nat, page: nat, c: ChunkCall) returns (out: ChunkOutcome)
      requires 0 <= c.index < c.total <= MAX_CHUNKS
      modifies this`pages, this`store
      ensures (View(job, page), out) == ChunkStep(md5, old(View(job, page)), c)
      ensures SameElsewhere(old(pages), old(store), pages, store, (job, page))
      ensures store == old(store) || store == old(store)[ChunkKey(job, page, c.index) := c.data]
    {
      var row := EnsurePage(job, page);
      var refused := RefuseChunk(md5, row, c);
      if refused.Some? {
        RowRefused(md5, old(pages), old(store), (job, page), row, c, refused.value);
        return refused.value;
      }
      RowAccepted(md5, old(pages), old(store), (job, page), row, c);
      out := StoreChunk(job, page, c, row);
    }

    method EnsurePage(job: nat, page: nat) returns (row: PageRow)
      modifies this`pages
      ensures row == if (job, page) in old(pages) then old(pages)[(job, page)] else NEW_PAGE
      ensures pages == old(pages)[(job, page) := row]
    {
      if (job, page) !in pages {
        pages := pages[(job, page) := NEW_PAGE];
      }
      row := pages[(job, page)];
      assert pages[(job, page) := row] == pages;
    }

    /** The checks on the page row and the request, in order. */
    static method RefuseChunk(md5: Bytes -> string, row: PageRow, c: ChunkCall) returns (refused: Option<ChunkOutcome>)
      requires 0 <= c.index < c.total <= MAX_CHUNKS
      ensures refused == ChunkRefusal(md5, row, c)
    {
      if row.status == PageUploaded { return Some(AlreadyUploaded); }
      var meta := row.meta;
      if meta.total == 0 { meta := meta.(total := c.total); }
      if meta.total != c.total { return Some(ChunkTotalMismatch); }
      var seen := ChunkAlreadyReceived(meta, c.index);
      if seen { return Some(AlreadyReceived); }

      if !c.readable { return Some(Unreadable); }
      if |c.data| > CHUNK_SIZE { return Some(ChunkTooLarge); }
      if c.index == 0 && c.total * CHUNK_SIZE > MAX_PAGE_SIZE { return Some(PageTooLarge); }
      if !EqualFold(md5(c.data), c.checksum) { return Some(ChecksumMismatch); }
      if !c.stored { return Some(ChunkStoreFailed); }
      return None;
    }

    /** The chunk object, then its receipt. */
    method StoreChunk(job: nat, page: nat, c: ChunkCall, row: PageRow) returns (out: ChunkOutcome)
      requires (job, page) in pages && pages[(job, page)] == row
      requires 0 <= c.index && 0 < c.total && c.index !in row.meta.received && (row.meta.total == 0 || row.meta.total == c.total)
      modifies this`pages, this`store
      ensures store == old(store)[ChunkKey(job, page, c.index) := c.data]
      ensures pages == old(pages)[(job, page) := if c.recorded then WithReceipt(row, c) else row]
      ensures out == if c.recorded then Received(|row.meta.received| + 1) else RecordFailed
    {
      assert pages[(job, page) := row] == pages;
      store := store[ChunkKey(job, page, c.index) := c.data];
      var meta := RecordChunkReceipt(row.meta.(total := c.total), c.index, c.checksum);
      if !c.recorded { return RecordFailed; }
      pages := pages[(job, page) := row.(status := PageUploading, meta := meta)];
      return Received(|meta.received|);
    }

    /** The receipt loop of HandleUploadComplete: `sort.Ints` on the receipts, then a scan for
        the first position that does not hold its own index. It finds the first chunk that was
        not received. */
    static method FindGap(meta: Metadata) returns (gap: int)
      requires Distinct(meta.received) && |meta.received| >= meta.total
      requires forall i :: 0 <= i < |meta.received| ==> 0 <= meta.received[i]
      ensures gap == -1 ==> forall i :: 0 <= i < meta.total ==> i in meta.received
      ensures gap != -1 ==> 0 <= gap < meta.total && gap !in meta.received
                            && forall i :: 0 <= i < gap ==> i in meta.received
    {
      var a := new int[|meta.received|](i requires 0 <= i < |meta.received| => meta.received[i]);
      assert a[..] == meta.received;
      SortInts(a);
      PermutationKeepsDistinct(meta.received, a[..]);
      SameElements(meta.received, a[..]);
      var i := 0;
      while i < meta.total
        invariant 0 <= i <= meta.total
        invariant forall k :: 0 <= k < i ==> a[..][k] == k
        invariant forall k :: 0 <= k < i ==> k in meta.received
      {
        if a[i] != i {
          NotAtItsIndex(a[..], i);
          return i;
        }
        assert a[..][i] == i;
        i := i + 1;
      }
      return -1;
    }

    /** The receipt checks of HandleUploadComplete, in order. Receipts that are many enough
        have no gap, so the scan never refuses. */
    static method CheckReceipts(recorded: Metadata, total: nat) returns (refused: Option<CompleteOutcome>)
      requires GoodReceipts(recorded) && total > 0
      ensures refused == (if recorded.total != 0 && recorded.total != total then Some(TotalMismatch)
                          else if |recorded.received| < total then Some(MissingChunks)
                          else None)
    {
      var meta := recorded;
      if meta.total == 0 { meta := meta.(total := total); }
      if meta.total != total { return Some(TotalMismatch); }
      if |meta.received| < meta.total { return Some(MissingChunks); }

      PassingReceiptsAreAll(recorded, total);
      var gap := FindGap(meta);
      if gap != -1 { return Some(MissingChunk(gap)); }
      return None;
    }

    /** The composing loop: reads the stored chunks in index order and appends them. */
    method Compose(job: nat, page: nat, total: nat) returns (composed: Bytes, lost: int)
      requires total <= MAX_CHUNKS
      ensures lost == -1 <==> HasAll(ChunksOf(store, job, page), total)
      ensures lost == -1 ==> composed == Concat(Parts(ChunksOf(store, job, page), total))
      ensures lost != -1 ==> lost == FirstMissing(ChunksOf(store, job, page), total, 0)
    {
      ghost var chunks := ChunksOf(store, job, page);
      composed := [];
      var i := 0;
      while i < total
        invariant 0 <= i <= total
        invariant HasAll(chunks, i)
        invariant composed == Concat(Parts(chunks, i))
      {
        if ChunkKey(job, page, i) !in store {
          FirstMissingIs(chunks, total, i);
          return [], i;
        }
        assert Parts(chunks, i + 1) == Parts(chunks, i) + [chunks[i]];
        ConcatAppend(Parts(chunks, i), chunks[i]);
        composed := composed + store[ChunkKey(job, page, i)];
        i := i + 1;
      }
      return composed, -1;
    }

    /** `name` is the random object name with its extension. The reply is the job status sent
        to the client, or None for an error response. */
    method HandleUploadComplete(user: int, job: int, page: int, total: int,
                                name: string, stored: bool, deleted: bool, marked: bool, statusSaved: bool)
      returns (out: CompleteOutcome, reply: Option<JobStatus>)
      requires Valid()
      modifies this
      ensures Valid()
      ensures out == BadRequest <==> job <= 0 || page <= 0 || total <= 0
      ensures out == JobNotFound <==> job > 0 && page > 0 && total > 0 && !Owns(user, job)
      ensures out == BadRequest || out == JobNotFound ==>
                pages == old(pages) && store == old(store) && jobs == old(jobs) && reply == None
      ensures out != BadRequest && out != JobNotFound ==>
                && var r := CompleteStep(old(View(job, page)), total, FinishEnv(PageKey(job, page, name), stored, deleted, marked));
                && r.page == View(job, page) && r.outcome == out
                && (r.put.Some? ==> PageKey(job, page, name) in store && store[PageKey(job, page, name)] == r.put.value)
                && SameElsewhere(old(pages), old(store), pages, store, (job, page))
                && jobs == (if WakesJob(out, old(jobs), pages, job) && statusSaved
                            then old(jobs)[job := old(jobs)[job].(status := Pending)] else old(jobs))
      ensures !out.MissingChunk? && out != ComposedTooLarge
      ensures out == Composed ==>
                && HasAll(old(ChunksOf(store, job, page)), total)
                && ComposedInto(pages, store, (job, page), InOrder(old(ChunksOf(store, job, page)), total))
      ensures out != Composed ==> pages == old(pages)
      ensures UploadedKept(old(pages), old(store), pages, store)
      ensures jobs != old(jobs) ==>
                && (out == Composed || out == AlreadyComposed) && job in jobs && jobs[job].status == Pending
                && (exists id :: id in pages && id.0 == job)
                && forall id :: id in pages && id.0 == job ==> pages[id].status == PageUploaded
      ensures out == Composed && statusSaved && (forall id :: id in pages && id.0 == job ==> pages[id].status == PageUploaded) ==>
                job in jobs && jobs[job].status == Pending
      ensures reply.Some? <==> out == AlreadyComposed
                               || (out == Composed && (AllUploaded(pages, job) ==> statusSaved))
      ensures reply.Some? ==> job in jobs && reply.value == jobs[job].status
    {
      NothingHappened(pages, store);
      reply := None;
      if job <= 0 || page <= 0 || total <= 0 { return BadRequest, None; }
      if job !in jobs || jobs[job].owner != user { return JobNotFound, None; }
      out, reply := CompleteAndWake(job, page, total, name, stored, deleted, marked, statusSaved);
    }

    /** HandleUploadComplete once the job has been found. */
    method CompleteAndWake(job: nat, page: nat, total: nat,
                           name: string, stored: bool, deleted: bool, marked: bool, statusSaved: bool)
      returns (out: CompleteOutcome, reply: Option<JobStatus>)
      requires Valid() && job > 0 && job in jobs && total > 0
      modifies this
      ensures Valid()
      ensures out != BadRequest && out != JobNotFound
      ensures && var r := CompleteStep(old(View(job, page)), total, FinishEnv(PageKey(job, page, name), stored, deleted, marked));
                && r.page == View(job, page) && r.outcome == out
                && (r.put.Some? ==> PageKey(job, page, name) in store && store[PageKey(job, page, name)] == r.put.value)
                && SameElsewhere(old(pages), old(store), pages, store, (job, page))
                && jobs == (if WakesJob(out, old(jobs), pages, job) && statusSaved
                            then old(jobs)[job := old(jobs)[job].(status := Pending)] else old(jobs))
      ensures !out.MissingChunk? && out != ComposedTooLarge
      ensures out == Composed ==>
                && HasAll(old(ChunksOf(store, job, page)), total)
                && ComposedInto(pages, store, (job, page), InOrder(old(ChunksOf(store, job, page)), total))
      ensures out != Composed ==> pages == old(pages)
      ensures UploadedKept(old(pages), old(store), pages, store)
      ensures jobs != old(jobs) ==>
                && (out == Composed || out == AlreadyComposed) && job in jobs && jobs[job].status == Pending
                && (exists id :: id in pages && id.0 == job)
                && forall id :: id in pages && id.0 == job ==> pages[id].status == PageUploaded
      ensures out == Composed && statusSaved && (forall id :: id in pages && id.0 == job ==> pages[id].status == PageUploaded) ==>
                job in jobs && jobs[job].status == Pending
      ensures reply.Some? <==> out == AlreadyComposed
                               || (out == Composed && (AllUploaded(pages, job) ==> statusSaved))
      ensures reply.Some? ==> job in jobs && reply.value == jobs[job].status
    {
      out := CompletePage(job, page, total, name, stored, deleted, marked);
      reply := WakeJob(job, out, statusSaved);
    }

    /** The job update at the end of both successful paths of HandleUploadComplete. */
    method WakeJob(job: int, out: CompleteOutcome, statusSaved: bool) returns (reply: Option<JobStatus>)
      requires job > 0 && job in jobs
      modifies this`jobs
      ensures jobs == (if WakesJob(out, old(jobs), pages, job) && statusSaved
                       then old(jobs)[job := old(jobs)[job].(status := Pending)] else old(jobs))
      ensures reply.Some? <==> out == AlreadyComposed
                               || (out == Composed && (AllUploaded(pages, job) ==> statusSaved))
      ensures reply.Some? ==> reply.value == jobs[job].status
    {
      reply := None;
      if out == AlreadyComposed {
        if AllUploaded(pages, job) && jobs[job].status == Uploading && statusSaved {
          jobs := jobs[job := jobs[job].(status := Pending)];
        }
        reply := Some(jobs[job].status);
      } else if out == Composed {
        if AllUploaded(pages, job) {
          if !statusSaved { return None; }
          jobs := jobs[job := jobs[job].(status := Pending)];
        }
        reply := Some(jobs[job].status);
      }
    }

    /** The composed page is stored, or nothing is; and its page row names it, or stays. */
    ghost predicate WroteComposed(pages': map<PageId, PageRow>, store': map<string, Bytes>, id: PageId, name: string, composed: Bytes,
                                  out: CompleteOutcome)
      reads this
    {
      && (store == store' || ComposedStore(store', store, id, name, composed))
      && if out == Composed then ComposedInto(pages, store, id, composed) else pages == pages'
    }

    /** HandleUploadComplete between the job lookup and the job update. */
    method CompletePage(job: nat, page: nat, total: nat, name: string, stored: bool, deleted: bool, marked: bool)
      returns (out: CompleteOutcome)
      requires total > 0 && Valid()
      modifies this`pages, this`store
      ensures Valid()
      ensures var r := CompleteStep(old(View(job, page)), total, FinishEnv(PageKey(job, page, name), stored, deleted, marked));
              && r.page == View(job, page) && r.outcome == out
              && (r.put.Some? ==> PageKey(job, page, name) in store && store[PageKey(job, page, name)] == r.put.value)
      ensures SameElsewhere(old(pages), old(store), pages, store, (job, page))
      ensures !out.MissingChunk? && out != ComposedTooLarge && out != BadRequest && out != JobNotFound
      ensures out == Composed ==>
                && HasAll(old(ChunksOf(store, job, page)), total)
                && ComposedInto(pages, store, (job, page), InOrder(old(ChunksOf(store, job, page)), total))
      ensures out != Composed ==> pages == old(pages)
      ensures UploadedKept(old(pages), old(store), pages, store)
    {
      ghost var content := InOrder(ChunksOf(store, job, page), total);
      out := FinishPage(job, page, total, name, stored, deleted, marked);
      CompletionKeepsTables(old(pages), old(store), pages, store, (job, page), total,
                            FinishEnv(PageKey(job, page, name), stored, deleted, marked), name, content);
    }

    /** Its branches and writes. */
    method FinishPage(job: nat, page: nat, total: nat, name: string, stored: bool, deleted: bool, marked: bool)
      returns (out: CompleteOutcome)
      requires total > 0 && PageInv(View(job, page))
      modifies this`pages, this`store
      ensures var r := CompleteStep(old(View(job, page)), total, FinishEnv(PageKey(job, page, name), stored, deleted, marked));
              && r.page == View(job, page) && r.outcome == out
              && (r.put.Some? ==> PageKey(job, page, name) in store && store[PageKey(job, page, name)] == r.put.value)
      ensures SameElsewhere(old(pages), old(store), pages, store, (job, page))
      ensures !out.MissingChunk? && out != ComposedTooLarge
      ensures WroteComposed(old(pages), old(store), (job, page), name, InOrder(old(ChunksOf(store, job, page)), total), out)
      ensures out == Composed ==> HasAll(old(ChunksOf(store, job, page)), total)
      ensures (job, page) in old(pages) && old(pages)[(job, page)].status == PageUploaded ==> pages == old(pages) && store == old(store)
      ensures out != BadRequest && out != JobNotFound
    {
      if (job, page) !in pages { return PageNotFound; }
      var row := pages[(job, page)];
      if row.status == PageUploaded && row.tempKey.Some? { return AlreadyComposed; }

      var refused := CheckReceipts(row.meta, total);
      if refused.Some? { return refused.value; }
      out := ComposePage(job, page, total, name, stored, deleted, marked);
    }

    /** HandleUploadComplete from the composing loop on. */
    method ComposePage(job: nat, page: nat, total: nat, name: string, stored: bool, deleted: bool, marked: bool)
      returns (out: CompleteOutcome)
      requires total > 0 && PageInv(View(job, page))
      requires (job, page) in pages && pages[(job, page)].status != PageUploaded && ReceiptsPass(pages[(job, page)].meta, total)
      modifies this`pages, this`store
      ensures var p := old(View(job, page));
              var env := FinishEnv(PageKey(job, page, name), stored, deleted, marked);
              var r := if HasAll(p.chunks, total) then FinishStep(p, Concat(Parts(p.chunks, total)), env)
                       else Completion(p, MissingStored(FirstMissing(p.chunks, total, 0)), None);
              && r.page == View(job, page) && r.outcome == out
              && (r.put.Some? ==> PageKey(job, page, name) in store && store[PageKey(job, page, name)] == r.put.value)
      ensures SameElsewhere(old(pages), old(store), pages, store, (job, page))
      ensures !out.MissingChunk? && out != ComposedTooLarge
      ensures WroteComposed(old(pages), old(store), (job, page), name, InOrder(old(ChunksOf(store, job, page)), total), out)
      ensures out == Composed ==> HasAll(old(ChunksOf(store, job, page)), total)
    {
      ComposeFacts(View(job, page), total);
      var composed, lost := Compose(job, page, total);
      if lost != -1 { return MissingStored(lost); }
      if |composed| > MAX_PAGE_SIZE { return ComposedTooLarge; }
      out := StoreComposed(job, page, name, composed, stored, deleted, marked);
    }

    /** Stores the composed page, then deletes its chunks, then marks the page. */
    method StoreComposed(job: nat, page: nat, name: string, composed: Bytes, stored: bool, deleted: bool, marked: bool)
      returns (out: CompleteOutcome)
      modifies this`pages, this`store
      ensures var r := FinishStep(old(View(job, page)), composed, FinishEnv(PageKey(job, page, name), stored, deleted, marked));
              && r.page == View(job, page) && r.outcome == out
              && (r.put.Some? ==> PageKey(job, page, name) in store && store[PageKey(job, page, name)] == r.put.value)
      ensures SameElsewhere(old(pages), old(store), pages, store, (job, page))
      ensures WroteComposed(old(pages), old(store), (job, page), name, composed, out)
    {
      if !IsImage(composed) { return NotAnImage; }
      if !stored { return StoreFailed; }
      ComposeWriteView(pages, store, (job, page), name, composed);
      store := store[PageKey(job, page, name) := composed];
      if deleted {
        PageKeyIsNotAChunk(job, page, name, job, page);
        DeleteChunksView(pages, store, (job, page));
        store := DeletePrefix(store, ChunkPrefix(job, page));
      }
      if !marked { return MarkFailed; }
      RowWriteView(pages, store, (job, page), PageRow(PageUploaded, Some(PageKey(job, page, name)), NO_CHUNKS));
      pages := pages[(job, page) := PageRow(PageUploaded, Some(PageKey(job, page, name)), NO_CHUNKS)];
      return Composed;
    }
  }
}
