/** The two-tier quiz cache: Valkey in front of Postgres (scan/cache.go), compared with a single
    map whose entries expire. */
module ContentCache {
  import opened Common

  /** Seconds. */
  const CACHE_TTL := 7 * 24 * 60 * 60

  /** What a hit returns, without its creation time. */
  datatype Entry = Entry(quiz: int, count: int, board: string, subject: string, chapter: string, expiresAt: int)

  /** A row of content_cache; an absent label is NULL. */
  datatype Row = Row(quiz: int, count: int, board: Option<string>, subject: Option<string>, chapter: Option<string>,
                     expiresAt: int, hits: nat)

  /** A Valkey value and the instant after which Valkey no longer returns it. */
  datatype Boxed = Boxed(entry: Entry, deadline: int)

  datatype Meta = Meta(quiz: int, count: int, board: string, subject: string, chapter: string)

  datatype Tiers = Tiers(rows: map<string, Row>, valkey: map<string, Boxed>)

  /** `nullIfEmptyStr`. */
  function NullIfEmpty(text: string): Option<string> {
    if text == "" then None else Some(text)
  }

  /** How lookupPostgres reads a nullable label. */
  function Label(column: Option<string>): string {
    if column.Some? then column.value else ""
  }

  function NewEntry(meta: Meta, now: int): Entry {
    Entry(meta.quiz, meta.count, meta.board, meta.subject, meta.chapter, now + CACHE_TTL)
  }

  function ToRow(e: Entry, hits: nat): Row {
    Row(e.quiz, e.count, NullIfEmpty(e.board), NullIfEmpty(e.subject), NullIfEmpty(e.chapter), e.expiresAt, hits)
  }

  function FromRow(row: Row): Entry {
    Entry(row.quiz, row.count, Label(row.board), Label(row.subject), Label(row.chapter), row.expiresAt)
  }

  function Without<V>(table: map<string, V>, key: string): map<string, V> {
    map k | k in table && k != key :: table[k]
  }

  /** Valkey answers with this value and lookupRedis does not find it expired. */
  predicate Visible(valkey: map<string, Boxed>, hash: string, now: int) {
    hash in valkey && now <= valkey[hash].deadline && now <= valkey[hash].entry.expiresAt
  }

  predicate Live(rows: map<string, Row>, hash: string, now: int) {
    hash in rows && rows[hash].expiresAt > now && rows[hash].quiz > 0
  }

  // ---------------------------------------------------------------- one call

  function Stored(t: Tiers, now: int, hash: string, meta: Meta, lag: Option<nat>): Tiers {
    var e := NewEntry(meta, now);
    Tiers(t.rows[hash := ToRow(e, if hash in t.rows then t.rows[hash].hits + 1 else 1)],
          if lag.Some? then t.valkey[hash := Boxed(e, now + lag.value + CACHE_TTL)] else t.valkey)
  }

  predicate Storable(hash: string, meta: Meta) {
    hash != "" && meta.quiz > 0
  }

  function Found(t: Tiers, now: int, hash: string): Option<Entry> {
    if hash == "" then None
    else if Visible(t.valkey, hash, now) then Some(t.valkey[hash].entry)
    else if Live(t.rows, hash, now) then Some(FromRow(t.rows[hash]))
    else None
  }

  /** What a lookup leaves behind: an expired Valkey value is deleted, a Postgres hit is
      counted and, if the write succeeds, copied to Valkey for the time it has left. */
  function AfterLookup(t: Tiers, now: int, hash: string, lag: Option<nat>): Tiers {
    if hash == "" || Visible(t.valkey, hash, now) then t
    else
      var valkey := if hash in t.valkey && now <= t.valkey[hash].deadline then Without(t.valkey, hash) else t.valkey;
      if !Live(t.rows, hash, now) then t.(valkey := valkey)
      else
        var row := t.rows[hash];
        Tiers(t.rows[hash := row.(hits := row.hits + 1)],
              if lag.Some? then valkey[hash := Boxed(FromRow(row), row.expiresAt + lag.value)] else valkey)
  }

  function Unexpired(rows: map<string, Row>, now: int): map<string, Row> {
    map h | h in rows && !(rows[h].expiresAt < now) :: rows[h]
  }

  /** The service: its two stores and its operations. */
  class CacheService {
    var rows: map<string, Row>
    var valkey: map<string, Boxed>

    constructor ()
      ensures State() == Tiers(map[], map[])
    {
      rows, valkey := map[], map[];
    }

    ghost function State(): Tiers
      reads this
    {
      Tiers(rows, valkey)
    }

    /** `rowWritten` and `lag` say which of the two writes succeed, and how long after the
        expiry was computed Valkey starts to count; a failed Valkey write is only logged. */
    method Store(now: int, hash: string, meta: Meta, rowWritten: bool, lag: Option<nat>) returns (ok: bool)
      modifies this
      ensures ok == (Storable(hash, meta) && rowWritten)
      ensures ok ==> hash in rows && Shows(FromRow(rows[hash]), Item(meta, now))
      ensures ok ==> rows[hash].hits == if hash in old(rows) then old(rows)[hash].hits + 1 else 1
      ensures ok && lag.Some? ==> hash in valkey && Shows(valkey[hash].entry, Item(meta, now))
                                  && valkey[hash].deadline == now + lag.value + 604800
      ensures State() == TiersAfter(old(State()), now, Op.Store(hash, meta, rowWritten, lag))
    {
      if hash == "" || meta.quiz <= 0 { return false; }
      var expiresAt := now + CACHE_TTL;
      if !rowWritten { return false; }
      rows := rows[hash := Row(meta.quiz, meta.count, NullIfEmpty(meta.board), NullIfEmpty(meta.subject),
                               NullIfEmpty(meta.chapter), expiresAt, if hash in rows then rows[hash].hits + 1 else 1)];
      var entry := Entry(meta.quiz, meta.count, meta.board, meta.subject, meta.chapter, expiresAt);
      if lag.Some? {
        valkey := valkey[hash := Boxed(entry, now + lag.value + CACHE_TTL)];
      }
      return true;
    }

    method Lookup(now: int, hash: string, lag: Option<nat>) returns (hit: Option<Entry>)
      modifies this
      ensures hit == Found(old(State()), now, hash)
      ensures State() == TiersAfter(old(State()), now, Op.Lookup(hash, lag))
    {
      if hash == "" { return None; }
      hit := LookupRedis(now, hash);
      if hit.Some? { return; }
      hit := LookupPostgres(now, hash, lag);
    }

    method LookupRedis(now: int, hash: string) returns (hit: Option<Entry>)
      modifies this`valkey
      ensures hit == if Visible(old(valkey), hash, now) then Some(old(valkey)[hash].entry) else None
      ensures valkey == if !Visible(old(valkey), hash, now) && hash in old(valkey) && now <= old(valkey)[hash].deadline
                        then Without(old(valkey), hash) else old(valkey)
    {
      if hash !in valkey || now > valkey[hash].deadline { return None; }
      var cached := valkey[hash].entry;
      if now > cached.expiresAt {
        valkey := Without(valkey, hash);
        return None;
      }
      return Some(cached);
    }

    method LookupPostgres(now: int, hash: string, lag: Option<nat>) returns (hit: Option<Entry>)
      modifies this
      ensures hit == if Live(old(rows), hash, now) then Some(FromRow(old(rows)[hash])) else None
      ensures hit == None ==> rows == old(rows) && valkey == old(valkey)
      ensures hit.Some? ==>
                && rows == old(rows)[hash := old(rows)[hash].(hits := old(rows)[hash].hits + 1)]
                && valkey == if lag.Some? then old(valkey)[hash := Boxed(hit.value, hit.value.expiresAt + lag.value)] else old(valkey)
    {
      if hash !in rows || rows[hash].expiresAt <= now { return None; }
      var row := rows[hash];
      if row.quiz <= 0 { return None; }
      var cached := Entry(row.quiz, row.count, Label(row.board), Label(row.subject), Label(row.chapter), row.expiresAt);
      var remaining := row.expiresAt - now;
      if remaining > 0 && lag.Some? {
        valkey := valkey[hash := Boxed(cached, now + remaining + lag.value)];
      }
      rows := rows[hash := row.(hits := row.hits + 1)];
      return Some(cached);
    }

    method Invalidate(hash: string, rowDeleted: bool, valkeyDeleted: bool) returns (ok: bool)
      modifies this
      ensures ok == (hash != "" && rowDeleted && valkeyDeleted)
      ensures State() == TiersAfter(old(State()), 0, Op.Invalidate(hash, rowDeleted, valkeyDeleted))
    {
      if hash == "" { return false; }
      if !rowDeleted { return false; }
      rows := Without(rows, hash);
      if !valkeyDeleted { return false; }
      valkey := Without(valkey, hash);
      return true;
    }

    method PurgeExpired(now: int) returns (removed: nat)
      modifies this`rows
      ensures State() == TiersAfter(old(State()), now, Op.PurgeExpired)
      ensures forall h :: h in rows <==> h in old(rows) && now <= old(rows)[h].expiresAt
      ensures removed == |old(rows)| - |rows|
    {
      var kept := Unexpired(rows, now);
      KeysShrink(kept.Keys, rows.Keys);
      removed := |rows| - |kept|;
      rows := kept;
    }

    /** Only the Postgres tier. */
    method PurgeAll() returns (removed: nat)
      modifies this`rows
      ensures State() == TiersAfter(old(State()), 0, Op.PurgeAll) && removed == |old(rows)|
    {
      removed := |rows|;
      rows := map[];
    }
  }

  lemma {:induction false} KeysShrink(a: set<string>, b: set<string>)
    requires a <= b
    ensures |a| <= |b|
  {
    if a != {} {
      var x :| x in a;
      KeysShrink(a - {x}, b - {x});
    }
  }

  // ---------------------------------------------------------------- the single map

  /** What was stored, and when. */
  datatype Item = Item(meta: Meta, at: int)

  /** A hit is the stored quiz, field by field, until seven days after it was stored. */
  predicate Shows(e: Entry, x: Item) {
    && e.quiz == x.meta.quiz && e.count == x.meta.count
    && e.board == x.meta.board && e.subject == x.meta.subject && e.chapter == x.meta.chapter
    && e.expiresAt == x.at + 604800
  }

  predicate Answers(hit: Option<Entry>, item: Option<Item>) {
    if hit.Some? then item.Some? && Shows(hit.value, item.value) else item.None?
  }

  /** The reference: one map of what was stored, each item for seven days. */
  function OneMapLookup(one: map<string, Item>, now: int, hash: string): Option<Item> {
    if hash in one && now < one[hash].at + 604800 then Some(one[hash]) else None
  }

  /** The tiers show nothing but what the single map holds, and Postgres shows all of it. */
  ghost predicate Refines(t: Tiers, one: map<string, Item>, now: int) {
    && "" !in one
    && (forall h :: Visible(t.valkey, h, now) ==> h in one && Shows(t.valkey[h].entry, one[h]))
    && (forall h :: h in one && now < one[h].at + 604800 ==> h in t.rows && t.rows[h].quiz > 0 && Shows(FromRow(t.rows[h]), one[h]))
    && (forall h :: h in t.rows && now < t.rows[h].expiresAt ==> h in one && Shows(FromRow(t.rows[h]), one[h]))
  }

  /** An empty label is stored as NULL and comes back empty: a row gives back what was stored. */
  lemma RowGivesBackEntry(e: Entry, hits: nat)
    ensures FromRow(ToRow(e, hits)) == e
  {
    assert forall text :: Label(NullIfEmpty(text)) == text;
  }

  /** The one instant at which a lookup and the single map differ: Valkey still shows an entry
      at its expiry instant, Postgres no longer does. */
  predicate AtExpiry(t: Tiers, now: int, hash: string) {
    Visible(t.valkey, hash, now) && now == t.valkey[hash].entry.expiresAt
  }

  lemma LookupAgreesIff(t: Tiers, one: map<string, Item>, now: int, hash: string)
    requires Refines(t, one, now)
    ensures Answers(Found(t, now, hash), OneMapLookup(one, now, hash)) <==> hash == "" || !AtExpiry(t, now, hash)
    ensures AtExpiry(t, now, hash) && hash != "" ==> Answers(Found(t, now, hash), Some(one[hash]))
  {
  }

  // ---------------------------------------------------------------- runs

  datatype Op =
    | Store(hash: string, meta: Meta, rowWritten: bool, lag: Option<nat>)
    | Lookup(hash: string, lag: Option<nat>)
    | Invalidate(hash: string, rowDeleted: bool, valkeyDeleted: bool)
    | PurgeExpired
    | PurgeAll
    | Evict(hash: string)   // Valkey drops a value of its own accord
    | ReadRow(r: nat, hash: string)          // a lookup up to its row,
    | CopyBack(r: nat, lag: Option<nat>)     // and its write to Valkey, some time later
    | Wait(seconds: nat)

  /** `refills` are lookups that have read a row and not yet written it to Valkey. */
  datatype World = World(tiers: Tiers, one: map<string, Item>, now: int, refills: map<nat, (string, Entry)>)

  function TiersAfter(t: Tiers, now: int, op: Op): Tiers {
    match op
    case Store(h, meta, rowWritten, lag) =>
      if Storable(h, meta) && rowWritten then Stored(t, now, h, meta, lag) else t
    case Lookup(h, lag) => AfterLookup(t, now, h, lag)
    case Invalidate(h, rowDeleted, valkeyDeleted) =>
      if h == "" || !rowDeleted then t
      else Tiers(Without(t.rows, h), if valkeyDeleted then Without(t.valkey, h) else t.valkey)
    case PurgeExpired => t.(rows := Unexpired(t.rows, now))
    case PurgeAll => t.(rows := map[])
    case Evict(h) => t.(valkey := Without(t.valkey, h))
    case ReadRow(_, h) => AfterLookup(t, now, h, None)
    case CopyBack(_, _) => t
    case Wait(_) => t
  }

  /** The lookup gets as far as a live row. */
  predicate ReadsRow(t: Tiers, now: int, hash: string) {
    hash != "" && !Visible(t.valkey, hash, now) && Live(t.rows, hash, now)
  }

  /** The write of an entry read earlier, for the time it still has left. */
  function Copied(t: Tiers, now: int, hash: string, e: Entry, lag: Option<nat>): Tiers {
    t.(valkey := if lag.Some? && e.expiresAt > now then t.valkey[hash := Boxed(e, e.expiresAt + lag.value)] else t.valkey)
  }

  /** A store sets, an invalidation removes, PurgeAll empties; nothing else touches the map. */
  function OneMapAfter(one: map<string, Item>, now: int, op: Op): map<string, Item> {
    match op
    case Store(h, meta, rowWritten, _) => if Storable(h, meta) && rowWritten then one[h := Item(meta, now)] else one
    case Invalidate(h, rowDeleted, _) => if h != "" && rowDeleted then Without(one, h) else one
    case PurgeAll => map[]
    case _ => one
  }

  function Apply(w: World, op: Op): World {
    World(if op.CopyBack? && op.r in w.refills then Copied(w.tiers, w.now, w.refills[op.r].0, w.refills[op.r].1, op.lag)
          else TiersAfter(w.tiers, w.now, op),
          OneMapAfter(w.one, w.now, op),
          if op.Wait? then w.now + op.seconds else w.now,
          if op.CopyBack? then w.refills - {op.r}
          else if op.ReadRow? && op.r !in w.refills && ReadsRow(w.tiers, w.now, op.hash)
          then w.refills[op.r := (op.hash, FromRow(w.tiers.rows[op.hash]))]
          else w.refills)
  }

  function Run(start: int, ops: seq<Op>): World {
    if ops == [] then World(Tiers(map[], map[]), map[], start, map[])
    else Apply(Run(start, ops[..|ops| - 1]), ops[|ops| - 1])
  }

  /** An operation that changes only Postgres does not leave something else visible in Valkey. */
  ghost predicate Careful(t: Tiers, now: int, op: Op) {
    match op
    case Store(h, meta, rowWritten, lag) =>
      Storable(h, meta) && rowWritten && lag.None? ==> Visible(t.valkey, h, now) ==> Shows(t.valkey[h].entry, Item(meta, now))
    case Invalidate(h, rowDeleted, valkeyDeleted) => h != "" && rowDeleted && !valkeyDeleted ==> !Visible(t.valkey, h, now)
    case PurgeAll => forall h :: !Visible(t.valkey, h, now)
    case _ => true
  }

  lemma RefinesStore(t: Tiers, one: map<string, Item>, now: int, h: string, meta: Meta, lag: Option<nat>)
    requires Refines(t, one, now) && Storable(h, meta) && Careful(t, now, Store(h, meta, true, lag))
    ensures Refines(Stored(t, now, h, meta, lag), one[h := Item(meta, now)], now)
  {
    RowGivesBackEntry(NewEntry(meta, now), if h in t.rows then t.rows[h].hits + 1 else 1);
  }

  lemma RefinesLookup(t: Tiers, one: map<string, Item>, now: int, h: string, lag: Option<nat>)
    requires Refines(t, one, now)
    ensures Refines(AfterLookup(t, now, h, lag), one, now)
  {
    var u := AfterLookup(t, now, h, lag);
    forall k | Visible(u.valkey, k, now)
      ensures k in one && Shows(u.valkey[k].entry, one[k])
    {
      if k != h { assert Visible(t.valkey, k, now); }
    }
  }

  lemma RefinesStep(t: Tiers, one: map<string, Item>, now: int, op: Op)
    requires Refines(t, one, now) && Careful(t, now, op)
    ensures Refines(TiersAfter(t, now, op), OneMapAfter(one, now, op), now)
  {
    match op
    case Store(h, meta, rowWritten, lag) =>
      if Storable(h, meta) && rowWritten { RefinesStore(t, one, now, h, meta, lag); }
    case Lookup(h, lag) => RefinesLookup(t, one, now, h, lag);
    case ReadRow(_, h) => RefinesLookup(t, one, now, h, None);
    case CopyBack(_, _) =>
    case Invalidate(h, rowDeleted, valkeyDeleted) => RefinesInvalidate(t, one, now, h, rowDeleted, valkeyDeleted);
    case PurgeAll =>
    case PurgeExpired =>
    case Evict(h) => assert forall k :: Visible(Without(t.valkey, h), k, now) ==> Visible(t.valkey, k, now);
    case Wait(_) =>
  }

  lemma RefinesInvalidate(t: Tiers, one: map<string, Item>, now: int, h: string, rowDeleted: bool, valkeyDeleted: bool)
    requires Refines(t, one, now) && Careful(t, now, Invalidate(h, rowDeleted, valkeyDeleted))
    ensures var op := Invalidate(h, rowDeleted, valkeyDeleted);
            Refines(TiersAfter(t, now, op), OneMapAfter(one, now, op), now)
  {
    if h != "" && rowDeleted {
      var valkey := if valkeyDeleted then Without(t.valkey, h) else t.valkey;
      assert forall k :: Visible(valkey, k, now) ==> Visible(t.valkey, k, now) && k != h;
    }
  }

  lemma RefinesLater(t: Tiers, one: map<string, Item>, now: int, later: int)
    requires Refines(t, one, now) && now <= later
    ensures Refines(t, one, later)
  {
    assert forall h :: Visible(t.valkey, h, later) ==> Visible(t.valkey, h, now);
  }

  /** The condition is exact: an operation that is not careful leaves something visible that the
      single map does not hold. */
  lemma RefinesIff(t: Tiers, one: map<string, Item>, now: int, op: Op)
    requires Refines(t, one, now)
    ensures Refines(TiersAfter(t, now, op), OneMapAfter(one, now, op), now) <==> Careful(t, now, op)
  {
    if Careful(t, now, op) {
      RefinesStep(t, one, now, op);
    } else if op.PurgeAll? {
      var h :| Visible(t.valkey, h, now);
      assert Visible(TiersAfter(t, now, op).valkey, h, now) && h !in OneMapAfter(one, now, op);
    } else {
      assert Visible(TiersAfter(t, now, op).valkey, op.hash, now);
    }
  }

  /** Writing back an entry read earlier keeps the refinement exactly when the entry has expired
      meanwhile, in which case nothing is written, or is still the one the single map holds. */
  lemma CopyRefinesIff(t: Tiers, one: map<string, Item>, now: int, hash: string, e: Entry, lag: Option<nat>)
    requires Refines(t, one, now)
    ensures Refines(Copied(t, now, hash, e, lag), one, now) <==>
              lag.None? || e.expiresAt <= now || (hash in one && Shows(e, one[hash]))
  {
    var u := Copied(t, now, hash, e, lag);
    if lag.Some? && e.expiresAt > now {
      assert Visible(u.valkey, hash, now) && u.valkey[hash].entry == e;
      forall k | k != hash
        ensures Visible(u.valkey, k, now) <==> Visible(t.valkey, k, now)
        ensures Visible(t.valkey, k, now) ==> u.valkey[k] == t.valkey[k]
      {
      }
    }
  }

  /** ... the same in a whole world. */
  ghost predicate CarefulIn(w: World, op: Op) {
    if op.CopyBack? && op.r in w.refills then
      var (h, e) := w.refills[op.r];
      op.lag.None? || e.expiresAt <= w.now || (h in w.one && Shows(e, w.one[h]))
    else Careful(w.tiers, w.now, op)
  }

  ghost predicate CarefulRun(start: int, ops: seq<Op>) {
    ops == [] || (CarefulRun(start, ops[..|ops| - 1]) && CarefulIn(Run(start, ops[..|ops| - 1]), ops[|ops| - 1]))
  }

  ghost predicate RefinesIn(w: World) {
    Refines(w.tiers, w.one, w.now)
  }

  /** A step of a world that refines the single map keeps the refinement exactly when it is
      careful. (Waiting always is: the tiers show less and less.) */
  lemma WorldRefinesIff(w: World, op: Op)
    requires RefinesIn(w)
    ensures RefinesIn(Apply(w, op)) <==> CarefulIn(w, op)
  {
    if op.CopyBack? && op.r in w.refills {
      CopyRefinesIff(w.tiers, w.one, w.now, w.refills[op.r].0, w.refills[op.r].1, op.lag);
    } else {
      RefinesIff(w.tiers, w.one, w.now, op);
      if op.Wait? { RefinesLater(w.tiers, w.one, w.now, Apply(w, op).now); }
    }
  }

  lemma {:induction false} RunRefines(start: int, ops: seq<Op>)
    requires CarefulRun(start, ops)
    ensures RefinesIn(Run(start, ops))
  {
    if ops != [] {
      RunRefines(start, ops[..|ops| - 1]);
      WorldRefinesIff(Run(start, ops[..|ops| - 1]), ops[|ops| - 1]);
    }
  }

  /** The lookup r read its row at step i and has not written it back by step n. */
  ghost predicate Refilling(start: int, ops: seq<Op>, i: nat, n: nat, r: nat)
    requires i < n <= |ops|
  {
    && ops[i].ReadRow? && ops[i].r == r && r !in Run(start, ops[..i]).refills
    && forall j :: i < j <= n ==> r in Run(start, ops[..j]).refills
  }

  lemma RunNext(start: int, ops: seq<Op>, n: nat)
    requires 0 < n <= |ops|
    ensures Run(start, ops[..n]) == Apply(Run(start, ops[..n - 1]), ops[n - 1])
  {
    assert ops[..n][..n - 1] == ops[..n - 1];
  }

  /** What it will write is what the single map held when it read. */
  lemma {:induction false} RefillIsAsRead(start: int, ops: seq<Op>, i: nat, n: nat, r: nat)
    requires i < n <= |ops| && Refilling(start, ops, i, n, r) && RefinesIn(Run(start, ops[..i]))
    ensures r in Run(start, ops[..n]).refills
    ensures var read := Run(start, ops[..i]).one;
            && ops[i].hash in read && Run(start, ops[..n]).refills[r].0 == ops[i].hash
            && Shows(Run(start, ops[..n]).refills[r].1, read[ops[i].hash])
  {
    RunNext(start, ops, n);
    assert r in Run(start, ops[..n]).refills;
    if n > i + 1 {
      RefillIsAsRead(start, ops, i, n - 1, r);
    }
  }

  /** Exactly when a delayed refill makes Valkey show something that is not stored any more: the
      entry has not expired, and since the lookup read it, it has been replaced or removed. */
  lemma StaleRefillIff(start: int, ops: seq<Op>, i: nat, r: nat, lag: nat)
    requires i < |ops| && Refilling(start, ops, i, |ops|, r) && RefinesIn(Run(start, ops[..i])) && RefinesIn(Run(start, ops))
    ensures var read, w, h := Run(start, ops[..i]).one, Run(start, ops), ops[i].hash;
            && h in read
            && (!RefinesIn(Apply(w, CopyBack(r, Some(lag)))) <==>
                  w.now < read[h].at + 604800 && !(h in w.one && w.one[h] == read[h]))
  {
    assert ops[..|ops|] == ops;
    RefillIsAsRead(start, ops, i, |ops|, r);
    WorldRefinesIff(Run(start, ops), CopyBack(r, Some(lag)));
  }

  /** An undisturbed lookup that reaches Postgres is its read and its write. */
  lemma LookupIsReadAndCopy(w: World, r: nat, hash: string, lag: Option<nat>)
    requires r !in w.refills
    ensures Apply(Apply(w, ReadRow(r, hash)), CopyBack(r, lag)).tiers == Apply(w, Lookup(hash, lag)).tiers
  {
  }

  /** For any sequence of operations and evictions, a lookup returns what the single expiring
      map holds, at every time but the exact expiry instant. */
  lemma LookupIsOneMap(start: int, ops: seq<Op>, hash: string)
    requires CarefulRun(start, ops)
    ensures var w := Run(start, ops);
            !AtExpiry(w.tiers, w.now, hash) ==> Answers(Found(w.tiers, w.now, hash), OneMapLookup(w.one, w.now, hash))
    ensures var w := Run(start, ops);
            AtExpiry(w.tiers, w.now, hash) && hash != "" ==> hash in w.one && Answers(Found(w.tiers, w.now, hash), Some(w.one[hash]))
  {
    RunRefines(start, ops);
    LookupAgreesIff(Run(start, ops).tiers, Run(start, ops).one, Run(start, ops).now, hash);
  }

  /** Replaces or removes what is stored under the hash. */
  predicate Touches(op: Op, hash: string) {
    match op
    case Store(h, meta, rowWritten, _) => h == hash && Storable(h, meta) && rowWritten
    case Invalidate(h, rowDeleted, _) => h == hash && h != "" && rowDeleted
    case PurgeAll => true
    case _ => false
  }

  /** Operation i stored something under the hash, and none has touched it since. */
  ghost predicate HeldSince(ops: seq<Op>, i: nat, hash: string) {
    && i < |ops| && ops[i].Store? && Touches(ops[i], hash)
    && forall j :: i < j < |ops| ==> !Touches(ops[j], hash)
  }

  /** The single map holds what the last operation to touch the hash stored. */
  lemma {:induction false} HeldInOneMap(start: int, ops: seq<Op>, i: nat, hash: string)
    requires HeldSince(ops, i, hash)
    ensures var one := Run(start, ops).one;
            hash in one && one[hash] == Item(ops[i].meta, Run(start, ops[..i]).now)
    ensures Run(start, ops[..i]).now <= Run(start, ops).now
  {
    var before := ops[..|ops| - 1];
    if i < |before| {
      HeldInOneMap(start, before, i, hash);
      assert before[..i] == ops[..i] && !Touches(ops[|ops| - 1], hash);
    } else {
      assert before == ops[..i];
    }
  }

  lemma {:induction false} OneMapIsHeld(start: int, ops: seq<Op>, hash: string) returns (i: nat)
    requires hash in Run(start, ops).one
    ensures HeldSince(ops, i, hash)
  {
    var before, last := ops[..|ops| - 1], ops[|ops| - 1];
    if last.Store? && Touches(last, hash) {
      i := |ops| - 1;
    } else {
      i := OneMapIsHeld(start, before, hash);
      assert forall j :: i < j < |before| ==> ops[j] == before[j];
    }
  }

  /** A quiz stored at some time is found for seven days as it was stored, unless its hash is
      stored again, invalidated or purged: whatever Valkey evicts, and whichever tier answers. */
  lemma StoredIsFound(start: int, ops: seq<Op>, i: nat, hash: string)
    requires CarefulRun(start, ops) && HeldSince(ops, i, hash)
    ensures var w, t, meta := Run(start, ops), Run(start, ops[..i]).now, ops[i].meta;
            t <= w.now < t + 604800 ==>
              var hit := Found(w.tiers, w.now, hash);
              && hit.Some? && hit.value.quiz == meta.quiz && hit.value.count == meta.count
              && hit.value.board == meta.board && hit.value.subject == meta.subject && hit.value.chapter == meta.chapter
              && hit.value.expiresAt == t + 604800
  {
    HeldInOneMap(start, ops, i, hash);
    LookupIsOneMap(start, ops, hash);
  }

  /** ... and nothing else is ever found. */
  lemma FoundWasStored(start: int, ops: seq<Op>, hash: string) returns (i: nat)
    requires CarefulRun(start, ops) && Found(Run(start, ops).tiers, Run(start, ops).now, hash).Some?
    ensures HeldSince(ops, i, hash)
    ensures var w, t := Run(start, ops), Run(start, ops[..i]).now;
            t <= w.now <= t + 604800 && Shows(Found(w.tiers, w.now, hash).value, Item(ops[i].meta, t))
  {
    LookupIsOneMap(start, ops, hash);
    i := OneMapIsHeld(start, ops, hash);
    HeldInOneMap(start, ops, i, hash);
  }

  // ---------------------------------------------------------------- when one tier is left behind

  /** PurgeAll leaves hits behind exactly when Valkey shows something. */
  lemma PurgeAllLeavesHitsIff(t: Tiers, now: int)
    requires "" !in t.valkey
    ensures (exists h :: Found(TiersAfter(t, now, PurgeAll), now, h).Some?) <==> (exists h :: Visible(t.valkey, h, now))
  {
    if h :| Visible(t.valkey, h, now) {
      assert Found(TiersAfter(t, now, PurgeAll), now, h).Some?;
    }
    if h :| Found(TiersAfter(t, now, PurgeAll), now, h).Some? {
      assert Visible(t.valkey, h, now);
    }
  }

  /** A store whose Valkey write failed is what the next lookup returns, exactly when Valkey
      shows nothing else under that hash. */
  lemma FailedValkeyWriteIsSeenIff(t: Tiers, now: int, hash: string, meta: Meta)
    requires Storable(hash, meta)
    ensures var after := TiersAfter(t, now, Store(hash, meta, true, None));
            Answers(Found(after, now, hash), Some(Item(meta, now))) <==>
              !Visible(t.valkey, hash, now) || Shows(t.valkey[hash].entry, Item(meta, now))
  {
    RowGivesBackEntry(NewEntry(meta, now), if hash in t.rows then t.rows[hash].hits + 1 else 1);
  }

  /** Without an eviction the left-behind entry is served until its own expiry: a concrete run. */
  lemma PurgedQuizStillServed()
    ensures exists ops :: ops != [] && ops[|ops| - 1] == PurgeAll && Found(Run(0, ops).tiers, Run(0, ops).now, "h").Some?
  {
    var meta := Meta(1, 5, "", "", "");
    var ops := [Store("h", meta, true, Some(0)), PurgeAll];
    var first := ops[..1];
    assert first == [Store("h", meta, true, Some(0))] && first[..0] == [] && ops[..|ops| - 1] == first;
    assert Run(0, first[..|first| - 1]) == World(Tiers(map[], map[]), map[], 0, map[]);
    assert Run(0, first) == Apply(Run(0, []), Store("h", meta, true, Some(0)));
    assert Run(0, ops) == Apply(Run(0, first), PurgeAll);
    assert Found(Run(0, ops).tiers, Run(0, ops).now, "h").Some?;
  }

  /** How a removed quiz comes back: its lookup had read the row before the invalidation and
      writes after it. From any state in which Postgres shows the entry and Valkey does not. */
  lemma InvalidatedQuizComesBack(w: World, r: nat, hash: string, lag: nat)
    requires r !in w.refills && ReadsRow(w.tiers, w.now, hash)
    ensures var u := Apply(Apply(Apply(w, ReadRow(r, hash)), Invalidate(hash, true, true)), CopyBack(r, Some(lag)));
            hash !in u.one && Found(u.tiers, u.now, hash) == Some(FromRow(w.tiers.rows[hash]))
    ensures var u := Apply(Apply(Apply(w, ReadRow(r, hash)), Invalidate(hash, true, true)), CopyBack(r, Some(lag)));
            RefinesIn(w) ==> hash in w.one && Answers(Found(u.tiers, u.now, hash), Some(w.one[hash]))
  {
    var read := Apply(w, ReadRow(r, hash));
    assert read.refills[r] == (hash, FromRow(w.tiers.rows[hash]));
    var gone := Apply(read, Invalidate(hash, true, true));
    var u := Apply(gone, CopyBack(r, Some(lag)));
    assert u.tiers.valkey[hash].entry == FromRow(w.tiers.rows[hash]);
  }
}
