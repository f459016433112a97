/** The question-answering store (`QASystem`): bill chunks kept in a vector
    collection under stable ids with sanitised metadata, bill-level metadata
    kept in a dictionary, and the prompt built from the closest chunks of one
    bill. The embedding model, the nearest-neighbour index and the completion
    model are parameters: a distance from the question to a document, a
    rendering of distances, and a completion function. */
module QaSystem {
  import opened Wrappers
  import opened PyStr
  import opened PyValue

  // ---------------------------------------------------------------------
  // Chunk ids
  // ---------------------------------------------------------------------

  const ChunkInfix: string := "_chunk_"

  /** The id of the `i`-th chunk of a bill. */
  function ChunkId(billId: string, i: nat): string {
    billId + ChunkInfix + NatToString(i)
  }

  /** The ids of the first `n` chunks of a bill, in chunk order. */
  function ChunkIds(billId: string, n: nat): seq<string> {
    seq(n, i requires 0 <= i < n => ChunkId(billId, i))
  }

  /** `id` is the bill `b`, the infix, then a non-empty run of digits. */
  predicate IsChunkIdOf(id: string, b: string) {
    |b| + |ChunkInfix| < |id|
    && id[..|b| + |ChunkInfix|] == b + ChunkInfix
    && AllDigits(id[|b| + |ChunkInfix|..])
  }

  lemma ChunkIdShape(b: string, i: nat)
    ensures IsChunkIdOf(ChunkId(b, i), b)
  {
    var id := ChunkId(b, i);
    assert id[..|b| + 7] == b + ChunkInfix;
    assert id[|b| + 7..] == NatToString(i);
  }

  /** In a chunk id of `b` the infix ends at index `|b| + 6` and every later
      character is a digit. */
  lemma InfixEnd(id: string, b: string)
    requires IsChunkIdOf(id, b)
    ensures id[|b| + 6] == '_'
    ensures forall q :: |b| + 7 <= q < |id| ==> IsDigit(id[q])
  {
    assert id[|b| + 6] == (b + ChunkInfix)[|b| + 6];
    forall q | |b| + 7 <= q < |id| ensures IsDigit(id[q]) {
      assert id[|b| + 7..][q - |b| - 7] == id[q];
    }
  }

  /** A chunk id names exactly one bill: a longer bill name would put its
      infix's last `_` among the shorter one's digits. */
  lemma OneBillPerId(id: string, b1: string, b2: string)
    requires IsChunkIdOf(id, b1) && IsChunkIdOf(id, b2)
    ensures b1 == b2
  {
    InfixEnd(id, b1);
    InfixEnd(id, b2);
    assert |b1| == |b2|;
    assert b1 == (b1 + ChunkInfix)[..|b1|] == id[..|b1|];
    assert b2 == (b2 + ChunkInfix)[..|b2|] == id[..|b2|];
  }

  /** Chunk ids are equal only for the same bill and the same chunk index, so
      the ids of one call are pairwise distinct and never collide with another
      bill's. */
  lemma ChunkIdInjective(b1: string, i1: nat, b2: string, i2: nat)
    requires ChunkId(b1, i1) == ChunkId(b2, i2)
    ensures b1 == b2 && i1 == i2
  {
    var id := ChunkId(b1, i1);
    ChunkIdShape(b1, i1);
    ChunkIdShape(b2, i2);
    OneBillPerId(id, b1, b2);
    assert NatToString(i1) == id[|b1| + 7..] == NatToString(i2);
    NatToStringInjective(i1, i2);
  }

  lemma ChunkIdsDistinct(b: string, n: nat)
    ensures |ChunkIds(b, n)| == n
    ensures forall i, j :: 0 <= i < j < n ==> ChunkIds(b, n)[i] != ChunkIds(b, n)[j]
  {
    forall i, j | 0 <= i < j < n
      ensures ChunkIds(b, n)[i] != ChunkIds(b, n)[j]
    {
      if ChunkId(b, i) == ChunkId(b, j) {
        ChunkIdInjective(b, i, b, j);
      }
    }
  }

  // ---------------------------------------------------------------------
  // Metadata sanitisation
  // ---------------------------------------------------------------------

  /** What one metadata value is stored as: scalars as they are, a list as the
      `", "`-joined `str` of its items, a dictionary as its `str`, with the
      empty list and the empty dictionary spelled out. */
  function Sanitize(v: Value): (r: Value)
    ensures IsScalar(r)
    ensures IsScalar(v) ==> r == v
    ensures !IsScalar(v) ==> r.Str?
  {
    if IsScalar(v) then v
    else if v.List? && v.items != [] then Str(Join(", ", StrItems(v.items)))
    else if v.Dict? && v.entries != [] then Str(StrOf(v))
    else if v.List? then Str("")
    else if v.Dict? then Str("{}")
    else Str(StrOf(v))
  }

  /** The special cases for the empty list and the empty dictionary give what
      the general rules would: every list is stored as the joined `str` of its
      items and every dictionary as its `str`. */
  lemma SanitizeUniform(v: Value)
    ensures v.List? ==> Sanitize(v) == Str(Join(", ", StrItems(v.items)))
    ensures v.Dict? ==> Sanitize(v) == Str(StrOf(v))
  {
    if v.List? && v.items == [] {
      assert StrItems(v.items) == [];
    }
  }

  /** The dictionary the sanitising loop has built after the given items:
      each step assigns the sanitised value to its key. */
  function SanitizedItems(items: Entries): Entries {
    if items == [] then []
    else
      var last := items[|items| - 1];
      Put(SanitizedItems(items[..|items| - 1]), last.0, Sanitize(last.1))
  }

  /** The metadata attached to every chunk of one call: the sanitised items,
      then `bill_id` set to the bill. */
  function StoredMetadata(billId: string, metadata: Entries): (r: Entries)
    ensures Get(r, "bill_id") == Some(Str(billId))
  {
    Put(SanitizedItems(metadata), "bill_id", Str(billId))
  }

  /** Each item with its value sanitised, keys and order untouched. */
  function SanitizedValues(items: Entries): Entries {
    seq(|items|, i requires 0 <= i < |items| => (items[i].0, Sanitize(items[i].1)))
  }

  lemma {:induction false} KeysOfSanitizedValues(items: Entries)
    ensures Keys(SanitizedValues(items)) == Keys(items)
  {
    if items != [] {
      KeysOfSanitizedValues(items[1..]);
      assert SanitizedValues(items)[1..] == SanitizedValues(items[1..]);
    }
  }

  lemma {:induction false} GetOfSanitizedValues(items: Entries, k: string)
    ensures Get(SanitizedValues(items), k) ==
      if Get(items, k).Some? then Some(Sanitize(Get(items, k).value)) else None
  {
    if items != [] {
      GetOfSanitizedValues(items[1..], k);
      assert SanitizedValues(items)[1..] == SanitizedValues(items[1..]);
    }
  }

  /** Dropping the last item of a dictionary leaves a dictionary without the
      last item's key. */
  lemma UniqueKeysSnoc(items: Entries)
    requires items != [] && UniqueKeys(items)
    ensures UniqueKeys(items[..|items| - 1])
    ensures items[|items| - 1].0 !in Keys(items[..|items| - 1])
  {
    var pre := items[..|items| - 1];
    forall i, j | 0 <= i < j < |pre| ensures pre[i].0 != pre[j].0 {
      assert pre[i] == items[i] && pre[j] == items[j];
    }
    KeysIndex(pre);
    forall i | 0 <= i < |pre| ensures Keys(pre)[i] != items[|items| - 1].0 {
      assert pre[i] == items[i];
    }
  }

  /** Over a real dictionary (no key twice) the loop keeps every key, in
      order, and replaces each value by its sanitised form. */
  lemma {:induction false} SanitizedLoopIsMap(items: Entries)
    requires UniqueKeys(items)
    ensures SanitizedItems(items) == SanitizedValues(items)
  {
    if items != [] {
      var pre, last := items[..|items| - 1], items[|items| - 1];
      UniqueKeysSnoc(items);
      SanitizedLoopIsMap(pre);
      KeysOfSanitizedValues(pre);
      PutNew(SanitizedValues(pre), last.0, Sanitize(last.1));
      SanitizedValuesSnoc(items);
    }
  }

  lemma SanitizedValuesSnoc(items: Entries)
    requires items != []
    ensures SanitizedValues(items) ==
      SanitizedValues(items[..|items| - 1]) + [(items[|items| - 1].0, Sanitize(items[|items| - 1].1))]
  {
  }

  lemma {:induction false} SanitizedAllScalar(items: Entries)
    ensures AllScalar(SanitizedItems(items))
  {
    if items != [] {
      var last := items[|items| - 1];
      SanitizedAllScalar(items[..|items| - 1]);
      PutScalar(SanitizedItems(items[..|items| - 1]), last.0, Sanitize(last.1));
    }
  }

  /** The stored metadata holds only scalars, has `bill_id` set to the bill,
      keeps every key of the input in order (appending `bill_id` when the
      input lacks it) and holds the sanitised value of every other key. */
  lemma StoredMetadataShape(billId: string, metadata: Entries, k: string)
    requires UniqueKeys(metadata)
    ensures AllScalar(StoredMetadata(billId, metadata))
    ensures Keys(StoredMetadata(billId, metadata)) ==
      if "bill_id" in Keys(metadata) then Keys(metadata) else Keys(metadata) + ["bill_id"]
    ensures k != "bill_id" ==> (Get(StoredMetadata(billId, metadata), k) ==
      if Get(metadata, k).Some? then Some(Sanitize(Get(metadata, k).value)) else None)
  {
    SanitizedAllScalar(metadata);
    PutScalar(SanitizedItems(metadata), "bill_id", Str(billId));
    SanitizedLoopIsMap(metadata);
    KeysOfSanitizedValues(metadata);
    PutKeys(SanitizedItems(metadata), "bill_id", Str(billId));
    GetOfSanitizedValues(metadata, k);
    if k != "bill_id" {
      PutOther(SanitizedItems(metadata), "bill_id", Str(billId), k);
    }
  }

  /** The sanitising loop of `store_bill_chunks`. */
  method SanitizeMetadata(billId: string, metadata: Entries) returns (r: Entries)
    ensures r == StoredMetadata(billId, metadata)
    ensures AllScalar(r)
  {
    r := [];
    for i := 0 to |metadata|
      invariant r == SanitizedItems(metadata[..i])
    {
      var (key, value) := metadata[i];
      assert metadata[..i + 1][..i] == metadata[..i];
      r := Put(r, key, Sanitize(value));
    }
    assert metadata[..|metadata|] == metadata;
    SanitizedAllScalar(metadata);
    PutScalar(r, "bill_id", Str(billId));
    r := Put(r, "bill_id", Str(billId));
  }

  // ---------------------------------------------------------------------
  // The collection
  // ---------------------------------------------------------------------

  /** One stored chunk: its id, its text and its metadata. */
  datatype Entry = Entry(id: string, document: string, metadata: Entries)

  /** The entries one `store_bill_chunks` call submits, in chunk order. */
  function ChunkEntries(billId: string, chunks: seq<string>, md: Entries): seq<Entry> {
    seq(|chunks|, i requires 0 <= i < |chunks| => Entry(ChunkId(billId, i), chunks[i], md))
  }

  function Ids(c: seq<Entry>): seq<string> {
    seq(|c|, i requires 0 <= i < |c| => c[i].id)
  }

  /** The submitted entries the collection keeps: those whose id it does not
      hold yet (an `add` of an existing id is ignored). */
  function Added(c: seq<Entry>, es: seq<Entry>): seq<Entry> {
    if es == [] then []
    else (if es[0].id in Ids(c) then [] else [es[0]]) + Added(c, es[1..])
  }

  predicate DistinctIds(c: seq<Entry>) {
    forall i, j :: 0 <= i < j < |c| ==> c[i].id != c[j].id
  }

  /** The `bill_id` tag of an entry. */
  function BillOf(e: Entry): Option<Value> {
    Get(e.metadata, "bill_id")
  }

  /** An entry as `store_bill_chunks` leaves it: tagged with a bill, its id a
      chunk id of that bill, its metadata all scalars. */
  predicate WellStored(e: Entry) {
    BillOf(e).Some? && BillOf(e).value.Str?
    && IsChunkIdOf(e.id, BillOf(e).value.s) && AllScalar(e.metadata)
  }

  /** The invariant of the collection. */
  predicate Stored(c: seq<Entry>) {
    DistinctIds(c) && forall i :: 0 <= i < |c| ==> WellStored(c[i])
  }

  /** The entries of one call are well stored with pairwise distinct ids. */
  lemma ChunkEntriesStored(billId: string, chunks: seq<string>, metadata: Entries)
    ensures var es := ChunkEntries(billId, chunks, StoredMetadata(billId, metadata));
      Stored(es) && forall i :: 0 <= i < |es| ==> BillOf(es[i]) == Some(Str(billId))
  {
    var md := StoredMetadata(billId, metadata);
    var es := ChunkEntries(billId, chunks, md);
    SanitizedAllScalar(metadata);
    PutScalar(SanitizedItems(metadata), "bill_id", Str(billId));
    forall i | 0 <= i < |es| ensures WellStored(es[i]) {
      ChunkIdShape(billId, i);
    }
    forall i, j | 0 <= i < j < |es| ensures es[i].id != es[j].id {
      if es[i].id == es[j].id {
        ChunkIdInjective(billId, i, billId, j);
      }
    }
  }

  lemma {:induction false} AddedFrom(c: seq<Entry>, es: seq<Entry>)
    ensures forall x :: x in Added(c, es) ==> x in es && x.id !in Ids(c)
  {
    if es != [] {
      AddedFrom(c, es[1..]);
    }
  }

  lemma {:induction false} AddedDistinct(c: seq<Entry>, es: seq<Entry>)
    requires DistinctIds(es)
    ensures DistinctIds(Added(c, es))
  {
    if es != [] {
      assert DistinctIds(es[1..]) by {
        forall i, j | 0 <= i < j < |es| - 1 ensures es[1..][i].id != es[1..][j].id {
          assert es[1..][i] == es[i + 1] && es[1..][j] == es[j + 1];
        }
      }
      AddedDistinct(c, es[1..]);
      AddedFrom(c, es[1..]);
      forall x | x in es[1..] ensures x.id != es[0].id {
        var j :| 0 <= j < |es[1..]| && es[1..][j] == x;
        assert es[j + 1] == x;
      }
    }
  }

  /** Appending entries that are well stored, distinct, and new to the
      collection keeps its invariant. */
  lemma AppendStored(c: seq<Entry>, a: seq<Entry>)
    requires Stored(c) && Stored(a)
    requires forall x :: x in a ==> x.id !in Ids(c)
    ensures Stored(c + a)
  {
    var r := c + a;
    forall i, j | 0 <= i < j < |r| ensures r[i].id != r[j].id {
      if i < |c| <= j {
        assert r[j] == a[j - |c|];
        assert Ids(c)[i] == r[i].id;
      }
    }
    forall i | 0 <= i < |r| ensures WellStored(r[i]) {
      if i >= |c| {
        assert r[i] == a[i - |c|];
      }
    }
  }

  /** `store_bill_chunks` keeps the collection's invariant. */
  lemma StorePreserves(c: seq<Entry>, billId: string, chunks: seq<string>, metadata: Entries)
    requires Stored(c)
    ensures Stored(c + Added(c, ChunkEntries(billId, chunks, StoredMetadata(billId, metadata))))
  {
    var es := ChunkEntries(billId, chunks, StoredMetadata(billId, metadata));
    var a := Added(c, es);
    ChunkEntriesStored(billId, chunks, metadata);
    AddedFrom(c, es);
    AddedDistinct(c, es);
    forall i | 0 <= i < |a| ensures WellStored(a[i]) {
      assert a[i] in a;
    }
    AppendStored(c, a);
  }

  /** The entries of one bill, in collection order (the `where` filter). */
  function OfBill(c: seq<Entry>, billId: string): (r: seq<Entry>)
    ensures forall x :: x in r ==> x in c && BillOf(x) == Some(Str(billId))
  {
    if c == [] then []
    else (if BillOf(c[0]) == Some(Str(billId)) then [c[0]] else []) + OfBill(c[1..], billId)
  }

  lemma {:induction false} OfBillAppend(a: seq<Entry>, b: seq<Entry>, billId: string)
    ensures OfBill(a + b, billId) == OfBill(a, billId) + OfBill(b, billId)
  {
    if a != [] {
      OfBillAppend(a[1..], b, billId);
      assert (a + b)[1..] == a[1..] + b;
    } else {
      assert a + b == b;
    }
  }

  lemma {:induction false} OfBillAll(es: seq<Entry>, billId: string)
    requires forall i :: 0 <= i < |es| ==> BillOf(es[i]) == Some(Str(billId))
    ensures OfBill(es, billId) == es
  {
    if es != [] {
      OfBillAll(es[1..], billId);
    }
  }

  lemma {:induction false} OfBillNone(c: seq<Entry>, billId: string)
    requires forall i :: 0 <= i < |c| ==> BillOf(c[i]) != Some(Str(billId))
    ensures OfBill(c, billId) == []
  {
    if c != [] {
      OfBillNone(c[1..], billId);
    }
  }

  lemma {:induction false} AddedAll(c: seq<Entry>, es: seq<Entry>)
    requires forall i :: 0 <= i < |es| ==> es[i].id !in Ids(c)
    ensures Added(c, es) == es
  {
    if es != [] {
      AddedAll(c, es[1..]);
    }
  }

  /** Storing a bill the collection does not hold yet: every chunk is kept,
      and the bill's entries are then exactly its chunks, in chunk order, under
      ids `0..n-1`, each with the same metadata. */
  lemma FirstStore(c: seq<Entry>, billId: string, chunks: seq<string>, metadata: Entries)
    requires Stored(c)
    requires forall i :: 0 <= i < |c| ==> BillOf(c[i]) != Some(Str(billId))
    ensures var es := ChunkEntries(billId, chunks, StoredMetadata(billId, metadata));
      && Added(c, es) == es
      && OfBill(c + es, billId) == es
  {
    var es := ChunkEntries(billId, chunks, StoredMetadata(billId, metadata));
    ChunkEntriesStored(billId, chunks, metadata);
    forall i | 0 <= i < |es| ensures es[i].id !in Ids(c) {
      ChunkIdShape(billId, i);
      if es[i].id in Ids(c) {
        var j :| 0 <= j < |c| && Ids(c)[j] == es[i].id;
        assert WellStored(c[j]);
        OneBillPerId(es[i].id, BillOf(c[j]).value.s, billId);
      }
    }
    AddedAll(c, es);
    OfBillAppend(c, es, billId);
    OfBillNone(c, billId);
    OfBillAll(es, billId);
  }

  // ---------------------------------------------------------------------
  // Similarity query and result shaping
  // ---------------------------------------------------------------------

  /** Inserts `e` before the first entry at least as far from the question;
      entries at equal distance keep their collection order. */
  function Insert(e: Entry, s: seq<Entry>, question: string, distance: (string, string) -> real): (r: seq<Entry>)
    ensures |r| == |s| + 1
  {
    if s == [] || distance(question, e.document) <= distance(question, s[0].document) then [e] + s
    else [s[0]] + Insert(e, s[1..], question, distance)
  }

  /** The entries ordered by their distance from the question, nearest first. */
  function Ranked(es: seq<Entry>, question: string, distance: (string, string) -> real): (r: seq<Entry>)
    ensures |r| == |es|
  {
    if es == [] then [] else Insert(es[0], Ranked(es[1..], question, distance), question, distance)
  }

  predicate NearestFirst(s: seq<Entry>, question: string, distance: (string, string) -> real) {
    forall i, j :: 0 <= i < j < |s| ==> distance(question, s[i].document) <= distance(question, s[j].document)
  }

  lemma ConsNearestFirst(x: Entry, r: seq<Entry>, question: string, distance: (string, string) -> real)
    requires NearestFirst(r, question, distance)
    requires forall y :: y in r ==> distance(question, x.document) <= distance(question, y.document)
    ensures NearestFirst([x] + r, question, distance)
  {
    var s := [x] + r;
    forall i, j | 0 <= i < j < |s|
      ensures distance(question, s[i].document) <= distance(question, s[j].document)
    {
      assert s[j] == r[j - 1];
      if i > 0 {
        assert s[i] == r[i - 1];
      } else {
        assert s[j] in r;
      }
    }
  }

  lemma {:induction false} InsertSorted(e: Entry, s: seq<Entry>, question: string, distance: (string, string) -> real)
    requires NearestFirst(s, question, distance)
    ensures multiset(Insert(e, s, question, distance)) == multiset(s) + multiset{e}
    ensures NearestFirst(Insert(e, s, question, distance), question, distance)
  {
    if s == [] || distance(question, e.document) <= distance(question, s[0].document) {
      if s != [] {
        HeadNearest(s, question, distance);
      }
      ConsNearestFirst(e, s, question, distance);
    } else {
      var t := s[1..];
      assert s == [s[0]] + t;
      HeadNearest(s, question, distance);
      InsertSorted(e, t, question, distance);
      var r := Insert(e, t, question, distance);
      forall y | y in r ensures distance(question, s[0].document) <= distance(question, y.document) {
        assert y in multiset(r);
      }
      ConsNearestFirst(s[0], r, question, distance);
    }
  }

  /** The first entry of a ranking is nearest, and the rest is a ranking. */
  lemma HeadNearest(s: seq<Entry>, question: string, distance: (string, string) -> real)
    requires s != [] && NearestFirst(s, question, distance)
    ensures forall y :: y in s ==> distance(question, s[0].document) <= distance(question, y.document)
    ensures NearestFirst(s[1..], question, distance)
  {
    forall y | y in s ensures distance(question, s[0].document) <= distance(question, y.document) {
      var j :| 0 <= j < |s| && s[j] == y;
      assert j == 0 || distance(question, s[0].document) <= distance(question, s[j].document);
    }
    var t := s[1..];
    forall i, j | 0 <= i < j < |t|
      ensures distance(question, t[i].document) <= distance(question, t[j].document)
    {
      assert t[i] == s[i + 1] && t[j] == s[j + 1];
    }
  }

  /** Ranking reorders the entries, nearest first, and keeps each of them. */
  lemma {:induction false} RankedSorted(es: seq<Entry>, question: string, distance: (string, string) -> real)
    ensures multiset(Ranked(es, question, distance)) == multiset(es)
    ensures NearestFirst(Ranked(es, question, distance), question, distance)
  {
    if es != [] {
      RankedSorted(es[1..], question, distance);
      InsertSorted(es[0], Ranked(es[1..], question, distance), question, distance);
      assert es == [es[0]] + es[1..];
    }
  }

  function Min(a: int, b: int): int {
    if a < b then a else b
  }

  /** The `k` entries of the bill nearest to the question, nearest first. */
  function Nearest(c: seq<Entry>, billId: string, k: nat, question: string, distance: (string, string) -> real): (r: seq<Entry>)
    ensures |r| == Min(k, |OfBill(c, billId)|)
  {
    var all := Ranked(OfBill(c, billId), question, distance);
    all[..Min(k, |all|)]
  }

  /** The query returns entries of the bill only, nearest first. */
  lemma NearestOfBill(c: seq<Entry>, billId: string, k: nat, question: string, distance: (string, string) -> real)
    ensures var r := Nearest(c, billId, k, question, distance);
      && (forall x :: x in r ==> x in c && BillOf(x) == Some(Str(billId)))
      && NearestFirst(r, question, distance)
  {
    var m := OfBill(c, billId);
    var all := Ranked(m, question, distance);
    RankedSorted(m, question, distance);
    var r := Nearest(c, billId, k, question, distance);
    forall x | x in r ensures x in m {
      assert x in all;
      assert x in multiset(m);
    }
  }

  /** Every entry of the bill the query leaves out is at least as far from the
      question as every entry it returns. */
  lemma NearestAreClosest(c: seq<Entry>, billId: string, k: nat, question: string, distance: (string, string) -> real)
    ensures var m := OfBill(c, billId);
      var r := Nearest(c, billId, k, question, distance);
      forall x, y :: x in r && y in multiset(m) - multiset(r) ==>
        distance(question, x.document) <= distance(question, y.document)
  {
    var m := OfBill(c, billId);
    var all := Ranked(m, question, distance);
    RankedSorted(m, question, distance);
    var n := Min(k, |all|);
    var r := all[..n];
    assert all == r + all[n..];
    assert multiset(all) == multiset(r) + multiset(all[n..]);
    forall x, y | x in r && y in multiset(m) - multiset(r)
      ensures distance(question, x.document) <= distance(question, y.document)
    {
      assert y in all[n..];
      PrefixBeforeSuffix(all, n, x, y, question, distance);
    }
  }

  lemma PrefixBeforeSuffix(all: seq<Entry>, n: nat, x: Entry, y: Entry, question: string, distance: (string, string) -> real)
    requires NearestFirst(all, question, distance) && n <= |all|
    requires x in all[..n] && y in all[n..]
    ensures distance(question, x.document) <= distance(question, y.document)
  {
    var i :| 0 <= i < n && all[..n][i] == x;
    var j :| 0 <= j < |all| - n && all[n..][j] == y;
    assert all[i] == x && all[n + j] == y;
  }

  /** One item of `get_relevant_context`'s result. */
  datatype ContextItem = ContextItem(text: string, section: Value, relevanceScore: real)

  /** The zip of the query's documents, metadatas and distances into result
      items, the section defaulting to `'Unknown'`. */
  function ZipResults(docs: seq<string>, metas: seq<Entries>, dists: seq<real>): (r: seq<ContextItem>)
    ensures |r| == Min(|docs|, Min(|metas|, |dists|))
    ensures forall i :: 0 <= i < |r| ==>
      r[i] == ContextItem(docs[i], GetOr(metas[i], "section", Str("Unknown")), dists[i])
  {
    if docs == [] || metas == [] || dists == [] then []
    else
      [ContextItem(docs[0], GetOr(metas[0], "section", Str("Unknown")), dists[0])]
      + ZipResults(docs[1..], metas[1..], dists[1..])
  }

  /** What the query reports for the selected entries: their documents,
      metadatas and distances. */
  function Documents(es: seq<Entry>): seq<string> {
    seq(|es|, i requires 0 <= i < |es| => es[i].document)
  }

  function Metadatas(es: seq<Entry>): seq<Entries> {
    seq(|es|, i requires 0 <= i < |es| => es[i].metadata)
  }

  function Distances(es: seq<Entry>, question: string, distance: (string, string) -> real): seq<real> {
    seq(|es|, i requires 0 <= i < |es| => distance(question, es[i].document))
  }

  /** `get_relevant_context` over a collection. */
  function RelevantContext(c: seq<Entry>, question: string, billId: string, k: nat,
                           distance: (string, string) -> real): (r: seq<ContextItem>)
    ensures |r| == Min(k, |OfBill(c, billId)|)
    ensures var top := Nearest(c, billId, k, question, distance);
      forall i :: 0 <= i < |r| ==>
        && r[i].text == top[i].document
        && r[i].section == GetOr(top[i].metadata, "section", Str("Unknown"))
        && r[i].relevanceScore == distance(question, top[i].document)
  {
    var top := Nearest(c, billId, k, question, distance);
    ZipResults(Documents(top), Metadatas(top), Distances(top, question, distance))
  }

  /** After a bill's first store every entry of that bill carries the
      metadata of that store. */
  lemma FirstStoreMetadata(c: seq<Entry>, billId: string, chunks: seq<string>, metadata: Entries, x: Entry)
    requires Stored(c)
    requires forall i :: 0 <= i < |c| ==> BillOf(c[i]) != Some(Str(billId))
    requires x in c + ChunkEntries(billId, chunks, StoredMetadata(billId, metadata))
    requires BillOf(x) == Some(Str(billId))
    ensures x.metadata == StoredMetadata(billId, metadata)
  {
  }

  /** A bill stored without a `section` key: every context item of that bill
      reports the section `'Unknown'`. */
  lemma SectionsUnknown(c: seq<Entry>, billId: string, chunks: seq<string>, metadata: Entries,
                        question: string, k: nat, distance: (string, string) -> real)
    requires Stored(c)
    requires forall i :: 0 <= i < |c| ==> BillOf(c[i]) != Some(Str(billId))
    requires UniqueKeys(metadata) && "section" !in Keys(metadata)
    ensures var c' := c + Added(c, ChunkEntries(billId, chunks, StoredMetadata(billId, metadata)));
      forall item :: item in RelevantContext(c', question, billId, k, distance) ==>
        item.section == Str("Unknown")
  {
    var md := StoredMetadata(billId, metadata);
    FirstStore(c, billId, chunks, metadata);
    var c' := c + ChunkEntries(billId, chunks, md);
    StoredMetadataShape(billId, metadata, "section");
    NearestOfBill(c', billId, k, question, distance);
    var top := Nearest(c', billId, k, question, distance);
    var r := RelevantContext(c', question, billId, k, distance);
    forall item | item in r ensures item.section == Str("Unknown") {
      var i :| 0 <= i < |r| && r[i] == item;
      assert top[i] in top;
      FirstStoreMetadata(c, billId, chunks, metadata, top[i]);
    }
  }

  // ---------------------------------------------------------------------
  // Prompt composition
  // ---------------------------------------------------------------------

  const ContextCap: nat := 5

  /** The context items the prompt uses: the first five. */
  function Capped(context: seq<ContextItem>): seq<ContextItem> {
    if |context| > ContextCap then context[..ContextCap] else context
  }

  /** One rendered context block. The rendering of a distance is a parameter. */
  function Block(item: ContextItem, showScore: real -> string): string {
    "Section: " + StrOf(item.section) + "\nContent: " + item.text
      + "\nRelevance Score: " + showScore(item.relevanceScore)
  }

  function Blocks(context: seq<ContextItem>, showScore: real -> string): seq<string> {
    seq(|context|, i requires 0 <= i < |context| => Block(context[i], showScore))
  }

  /** The context section of the prompt: the blocks of the used items, in
      order, separated by a blank line. */
  function ContextString(context: seq<ContextItem>, showScore: real -> string): string {
    Join("\n\n", Blocks(Capped(context), showScore))
  }

  /** The prompt uses the first `min(5, n)` items, in order: a context of at
      most five items is used whole, and items after the fifth never change
      the context string. */
  lemma ContextUsesFirstFive(context: seq<ContextItem>, more: seq<ContextItem>, showScore: real -> string)
    ensures |Capped(context)| == Min(ContextCap, |context|)
    ensures Capped(context) == context[..|Capped(context)|]
    ensures |context| >= ContextCap ==>
      ContextString(context + more, showScore) == ContextString(context, showScore)
  {
    if |context| >= ContextCap {
      assert Capped(context + more) == context[..ContextCap] by {
        if more == [] {
          assert context + more == context;
        } else {
          assert (context + more)[..ContextCap] == context[..ContextCap];
        }
      }
      assert Capped(context) == context[..ContextCap];
    }
  }

  /** The bill fields the prompt shows. */
  datatype PromptFields = PromptFields(title: Value, congress: Value, sponsor: Value, billType: Value)

  const NotAvailable: Value := Str("N/A")

  /** The prompt fields from stored bill metadata, `'N/A'` for each missing key. */
  function FieldsOf(md: Entries): (f: PromptFields)
    ensures Get(md, "title").Some? ==> f.title == Get(md, "title").value
    ensures Get(md, "congress").Some? ==> f.congress == Get(md, "congress").value
    ensures Get(md, "sponsor").Some? ==> f.sponsor == Get(md, "sponsor").value
    ensures Get(md, "bill_type").Some? ==> f.billType == Get(md, "bill_type").value
    ensures "title" !in Keys(md) ==> f.title == NotAvailable
    ensures "congress" !in Keys(md) ==> f.congress == NotAvailable
    ensures "sponsor" !in Keys(md) ==> f.sponsor == NotAvailable
    ensures "bill_type" !in Keys(md) ==> f.billType == NotAvailable
  {
    PromptFields(GetOr(md, "title", NotAvailable), GetOr(md, "congress", NotAvailable),
                 GetOr(md, "sponsor", NotAvailable), GetOr(md, "bill_type", NotAvailable))
  }

  /** The prompt fields of a bill: its stored metadata, or none at all. */
  function PromptMetadata(billMetadatas: map<string, Entries>, billId: string): PromptFields {
    FieldsOf(if billId in billMetadatas then billMetadatas[billId] else [])
  }

  /** A bill without stored metadata shows `'N/A'` in all four fields. */
  lemma UnknownBillFields(billMetadatas: map<string, Entries>, billId: string)
    requires billId !in billMetadatas
    ensures PromptMetadata(billMetadatas, billId) ==
      PromptFields(NotAvailable, NotAvailable, NotAvailable, NotAvailable)
  {
  }

  /** Storing one bill's metadata changes the prompt fields of that bill only. */
  lemma StoreMetadataFields(billMetadatas: map<string, Entries>, billId: string, md: Entries, other: string)
    ensures PromptMetadata(billMetadatas[billId := md], billId) == FieldsOf(md)
    ensures other != billId ==>
      PromptMetadata(billMetadatas[billId := md], other) == PromptMetadata(billMetadatas, other)
  {
  }

  /** What the completion model is asked: the question, the context string and
      the bill fields, which `PromptText` words. */
  datatype QaPrompt = QaPrompt(question: string, contextStr: string, fields: PromptFields)

  /** The prompt text. The template's lines carry the eight-space indentation
      of the source's literal. */
  function PromptText(p: QaPrompt): string {
    PromptHead(p.fields, p.contextStr) + p.question + PromptTail
  }

  /** The template up to the question: the bill fields and the context. */
  function PromptHead(f: PromptFields, contextStr: string): string {
    PromptIntro + StrOf(f.title)
    + PromptCongress + StrOf(f.congress)
    + PromptSponsor + StrOf(f.sponsor)
    + PromptType + StrOf(f.billType)
    + PromptSections + contextStr
    + PromptQuestion
  }

  // The fixed lines of the template, each ending where a field is inserted.
  const PromptIntro: string :=
    "\n        You are an expert congressional bill analyst. Answer the user's question about the bill using the provided context.\n\n"
    + "        Bill Information:\n"
    + "        - Title: "
  const PromptCongress: string := "\n        - Congress: "
  const PromptSponsor: string := "\n        - Sponsor: "
  const PromptType: string := "\n        - Type: "
  const PromptSections: string := "\n\n        Relevant Bill Sections:\n        "
  const PromptQuestion: string := "\n\n        User Question: "

  /** The template after the question: the instructions. */
  const PromptTail: string :=
    "\n\n"
    + "        Instructions:\n"
    + "        1. Answer based primarily on the provided bill text\n"
    + "        2. If information is not in the bill, clearly state this\n"
    + "        3. Reference specific sections when possible\n"
    + "        4. Explain implications and potential impacts\n"
    + "        5. Use clear, accessible language\n"
    + "        6. If the question involves comparison to current law, note that as context\n\n"
    + "        Answer:\n"
    + "        "

  /** The prompt keeps the question: for the same bill fields and context,
      two prompts read alike only when they ask the same question. */
  lemma PromptTextQuestion(p: QaPrompt, p': QaPrompt)
    requires p.fields == p'.fields && p.contextStr == p'.contextStr
    ensures PromptText(p) == PromptText(p') <==> p.question == p'.question
  {
    var h := PromptHead(p.fields, p.contextStr);
    if PromptText(p) == PromptText(p') {
      var t := PromptText(p);
      assert |p.question| == |p'.question|;
      assert p.question == t[|h|..|h| + |p.question|];
      assert p'.question == PromptText(p')[|h|..|h| + |p'.question|];
    }
  }

  /** `generate_contextualized_response`: the completion of the prompt built
      from the first five context items. */
  function ContextualizedResponse(question: string, context: seq<ContextItem>, f: PromptFields,
                                  showScore: real -> string, complete: string -> string): string {
    complete(PromptText(QaPrompt(question, ContextString(context, showScore), f)))
  }

  // ---------------------------------------------------------------------
  // The store
  // ---------------------------------------------------------------------

  class QASystem {
    /** The vector collection, in insertion order. */
    var collection: seq<Entry>
    /** Bill-level metadata by bill id. */
    var billMetadatas: map<string, Entries>

    predicate Valid()
      reads this
    {
      Stored(collection)
    }

    constructor()
      ensures Valid()
      ensures collection == [] && billMetadatas == map[]
    {
      collection := [];
      billMetadatas := map[];
    }

    /** Stores the chunks of a bill under ids `<bill>_chunk_<i>`, each with the
        sanitised metadata tagged with the bill. */
    method StoreBillChunks(billId: string, chunks: seq<string>, metadata: Entries)
      requires Valid()
      modifies this
      ensures Valid()
      ensures collection ==
        old(collection) + Added(old(collection), ChunkEntries(billId, chunks, StoredMetadata(billId, metadata)))
      ensures billMetadatas == old(billMetadatas)
    {
      var md := SanitizeMetadata(billId, metadata);
      var ids := ChunkIds(billId, |chunks|);
      var es := seq(|chunks|, i requires 0 <= i < |chunks| => Entry(ids[i], chunks[i], md));
      assert es == ChunkEntries(billId, chunks, md);
      StorePreserves(collection, billId, chunks, metadata);
      collection := collection + Added(collection, es);
    }

    /** Records the metadata of one bill, replacing what it had. */
    method StoreBillMetadata(billId: string, metadata: Entries)
      modifies this
      ensures billMetadatas == old(billMetadatas)[billId := metadata]
      ensures collection == old(collection)
    {
      billMetadatas := billMetadatas[billId := metadata];
    }

    /** `query_bill`: the completion of the prompt built from the `k` nearest
        chunks of the bill and its stored fields. */
    method QueryBill(question: string, billId: string, k: nat, distance: (string, string) -> real,
                     showScore: real -> string, complete: string -> string) returns (answer: string)
      ensures answer == ContextualizedResponse(question, RelevantContext(collection, question, billId, k, distance),
                                               PromptMetadata(billMetadatas, billId), showScore, complete)
    {
      var context := RelevantContext(collection, question, billId, k, distance);
      var bill := if billId in billMetadatas then billMetadatas[billId] else [];
      var fields := FieldsOf(bill);
      answer := ContextualizedResponse(question, context, fields, showScore, complete);
    }
  }
}
