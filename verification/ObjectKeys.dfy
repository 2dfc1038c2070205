/** Object-store keys of the resumable upload, as the strings the handlers format.

    Deleting "everything under a page's chunk prefix" is a string operation, so the
    statement that it touches that page and no other is proved on the strings. */
module ObjectKeys {

  function Digit(d: nat): char
    requires d < 10
  {
    '0' + d as char
  }

  /** Decimal text of a non-negative number, as `%d` prints it. */
  function Itoa(n: nat): (s: string)
    ensures |s| > 0
    ensures forall i :: 0 <= i < |s| ==> '0' <= s[i] <= '9'
  {
    if n < 10 then [Digit(n)] else Itoa(n / 10) + [Digit(n % 10)]
  }

  /** The number a decimal text denotes; the left inverse of `Itoa`. */
  function Value(s: string): int {
    if s == "" then 0 else 10 * Value(s[..|s| - 1]) + (s[|s| - 1] as int - '0' as int)
  }

  lemma {:induction false} ValueOfItoa(n: nat)
    ensures Value(Itoa(n)) == n
  {
    if n >= 10 {
      ValueOfItoa(n / 10);
      var s := Itoa(n);
      assert s[..|s| - 1] == Itoa(n / 10);
    } else {
      assert Value([Digit(n)][..0]) == 0;
    }
  }

  lemma ItoaInjective(m: nat, n: nat)
    requires Itoa(m) == Itoa(n)
    ensures m == n
  {
    ValueOfItoa(m);
    ValueOfItoa(n);
  }

  function ChunkPrefix(job: nat, page: nat): string {
    "temp/chunks/" + (Itoa(job) + "/" + (Itoa(page) + "/"))
  }

  function ChunkKey(job: nat, page: nat, index: nat): string {
    ChunkPrefix(job, page) + (Itoa(index) + ".part")
  }

  /** Key of a composed page; `name` is the random name and the extension. */
  function PageKey(job: nat, page: nat, name: string): string {
    "temp/" + (Itoa(job) + "/" + (Itoa(page) + "/" + name))
  }

  ghost predicate NoSlash(s: string) {
    forall i :: 0 <= i < |s| ==> s[i] != '/'
  }

  /** A slash-free first segment is determined by the text, and by any prefix that
      reaches past its slash. */
  lemma SegmentsAgree(a: string, x: string, b: string, y: string)
    requires NoSlash(a) && NoSlash(b)
    requires a + "/" + x <= b + "/" + y
    ensures a == b && x <= y
  {
    var s, t := a + "/" + x, b + "/" + y;
    assert forall i :: 0 <= i < |s| ==> s[i] == t[i];
    assert s[|a|] == '/';
    assert t[|b|] == '/';
    assert forall i :: 0 <= i < |b| ==> t[i] == b[i];
    assert forall i :: 0 <= i < |a| ==> s[i] == a[i];
    assert |a| == |b|;
    assert a == s[..|a|] == t[..|b|] == b;
    assert x == s[|a| + 1..] && y == t[|b| + 1..];
    assert forall i :: 0 <= i < |x| ==> x[i] == s[|a| + 1 + i];
  }

  lemma DropCommon(p: string, s: string, t: string)
    requires p + s <= p + t
    ensures s <= t
  {
    assert s == (p + s)[|p|..] && t == (p + t)[|p|..];
    assert forall i :: 0 <= i < |s| ==> s[i] == (p + s)[|p| + i];
  }

  lemma PrefixDeterminesPage(job: nat, page: nat, job': nat, page': nat, rest: string)
    requires ChunkPrefix(job, page) <= ChunkPrefix(job', page') + rest
    ensures job == job' && page == page'
  {
    var tail := Itoa(page) + "/";
    var tail' := Itoa(page') + "/" + rest;
    assert ChunkPrefix(job', page') + rest == "temp/chunks/" + (Itoa(job') + "/" + tail');
    DropCommon("temp/chunks/", Itoa(job) + "/" + tail, Itoa(job') + "/" + tail');
    SegmentsAgree(Itoa(job), tail, Itoa(job'), tail');
    assert tail == Itoa(page) + "/" + "";
    SegmentsAgree(Itoa(page), "", Itoa(page'), rest);
    ItoaInjective(job, job');
    ItoaInjective(page, page');
  }

  /** Deleting a page's chunk prefix reaches exactly that page's chunks: page 1 of job 1
      does not swallow page 11, nor job 1 job 11. */
  lemma PrefixSelectsOnePage(job: nat, page: nat, job': nat, page': nat, index: nat)
    ensures ChunkPrefix(job, page) <= ChunkKey(job', page', index) <==> job == job' && page == page'
  {
    if ChunkPrefix(job, page) <= ChunkKey(job', page', index) {
      PrefixDeterminesPage(job, page, job', page', Itoa(index) + ".part");
    }
  }

  lemma ChunkKeyInjective(job: nat, page: nat, index: nat, job': nat, page': nat, index': nat)
    requires ChunkKey(job, page, index) == ChunkKey(job', page', index')
    ensures job == job' && page == page' && index == index'
  {
    PrefixSelectsOnePage(job, page, job', page', index');
    assert ChunkPrefix(job, page) <= ChunkKey(job, page, index);
    var s, t := Itoa(index) + ".part", Itoa(index') + ".part";
    DropCommon(ChunkPrefix(job, page), s, t);
    DropCommon(ChunkPrefix(job, page), t, s);
    assert s == t;
    assert Itoa(index) == s[..|s| - 5] && Itoa(index') == t[..|t| - 5];
    ItoaInjective(index, index');
  }

  /** A composed page is never stored under any page's chunk prefix. */
  lemma PageKeyIsNotAChunk(job: nat, page: nat, name: string, job': nat, page': nat)
    ensures !(ChunkPrefix(job', page') <= PageKey(job, page, name))
  {
    var p, k := ChunkPrefix(job', page'), PageKey(job, page, name);
    assert p[5] == 'c';
    assert k[5] == Itoa(job)[0];
  }

  /** Composed pages of different pages never share an object key. */
  lemma PageKeyDeterminesPage(job: nat, page: nat, name: string, job': nat, page': nat, name': string)
    requires PageKey(job, page, name) == PageKey(job', page', name')
    ensures job == job' && page == page'
  {
    var tail, tail' := Itoa(page) + "/" + name, Itoa(page') + "/" + name';
    assert PageKey(job, page, name) == "temp/" + (Itoa(job) + "/" + tail);
    assert PageKey(job', page', name') == "temp/" + (Itoa(job') + "/" + tail');
    DropCommon("temp/", Itoa(job) + "/" + tail, Itoa(job') + "/" + tail');
    SegmentsAgree(Itoa(job), tail, Itoa(job'), tail');
    SegmentsAgree(Itoa(page), name, Itoa(page'), name');
    ItoaInjective(job, job');
    ItoaInjective(page, page');
  }
}
