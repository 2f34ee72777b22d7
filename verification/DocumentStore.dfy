/** One partition of the document store every workflow shares: documents with entity tags,
    and atomic batches of conditional writes. A replacement names the tag it read (If-Match,
    section 13.1.1 of RFC 9110) and a creation asks that the document be absent (If-None-Match: *,
    section 13.1.2 of RFC 9110). */
module DocumentStore {
  import opened Traces

  datatype Stamped<D> = Stamped(body: D, etag: nat)

  datatype Write<D> = Create(body: D) | Replace(body: D, ifMatch: nat)

  type Writes<K(==), D> = map<K, Write<D>>

  datatype Partition<K(==), D> = Partition(docs: map<K, Stamped<D>>, clock: nat)

  /** Every tag in use was issued before. */
  ghost predicate Tagged<K, D>(p: Partition<K, D>) {
    forall k :: k in p.docs ==> p.docs[k].etag < p.clock
  }

  predicate Admits<K(!new), D>(p: Partition<K, D>, writes: Writes<K, D>) {
    forall k :: k in writes ==>
      match writes[k]
      case Create(_) => k !in p.docs
      case Replace(_, etag) => k in p.docs && p.docs[k].etag == etag
  }

  /** All the writes, or none of them. */
  function Batch<K(!new), D>(p: Partition<K, D>, writes: Writes<K, D>): Partition<K, D> {
    if Admits(p, writes) then
      Partition(p.docs + (map k | k in writes :: Stamped(writes[k].body, p.clock)), p.clock + 1)
    else p
  }

  /** How a partition may have changed since it was read: nothing is deleted, and a document
      is either untouched or carries a tag that did not exist then. */
  ghost predicate Later<K(!new), D>(p: Partition<K, D>, q: Partition<K, D>) {
    && p.clock <= q.clock
    && forall k :: k in p.docs ==> k in q.docs && (q.docs[k] == p.docs[k] || p.clock <= q.docs[k].etag)
  }

  lemma BatchKeepsTags<K(!new), D>(p: Partition<K, D>, writes: Writes<K, D>)
    requires Tagged(p)
    ensures Tagged(Batch(p, writes)) && Later(p, Batch(p, writes))
  {
  }

  /** What an admitted batch leaves behind: its own bodies under the new tag, and the rest. */
  lemma BatchContents<K(!new), D>(p: Partition<K, D>, writes: Writes<K, D>)
    requires Admits(p, writes)
    ensures var q := Batch(p, writes);
      && q.clock == p.clock + 1
      && (forall k :: k in q.docs <==> k in p.docs || k in writes)
      && (forall k :: k in writes ==> q.docs[k] == Stamped(writes[k].body, p.clock))
      && (forall k :: k in p.docs && k !in writes ==> q.docs[k] == p.docs[k])
  {
  }

  /** A tag names the contents: after any number of batches by anyone, a document that still
      carries the tag it was read with still has the body it was read with. */
  lemma {:induction false} TagNamesContents<K(!new), D(!new)>(p: Partition<K, D>, batches: seq<Writes<K, D>>, k: K)
    requires Tagged(p) && k in p.docs
    ensures var q := Run(Batch<K, D>, p, batches);
      && Tagged(q) && k in q.docs
      && (q.docs[k].etag == p.docs[k].etag ==> q.docs[k].body == p.docs[k].body)
  {
    forall t: Partition<K, D>, w: Writes<K, D> | Tagged(t) ensures Tagged(Batch(t, w)) && Later(t, Batch(t, w)) {
      BatchKeepsTags(t, w);
    }
    var inv: Partition<K, D> -> bool := t => Tagged(t);
    var rel: (Partition<K, D>, Partition<K, D>) -> bool := (t, u) => Later(t, u);
    RunRelates(Batch<K, D>, inv, rel, p, batches);
  }

  /** Of two writers that read the same tag, at most one replaces the document, whatever
      happens in between. */
  lemma {:induction false} FirstReplacementWins<K(!new), D(!new)>(
      p: Partition<K, D>, k: K, first: Writes<K, D>, between: seq<Writes<K, D>>, second: Writes<K, D>)
    requires Tagged(p) && k in p.docs
    requires k in first && first[k].Replace? && first[k].ifMatch == p.docs[k].etag
    requires k in second && second[k].Replace? && second[k].ifMatch == p.docs[k].etag
    requires Admits(p, first)
    ensures !Admits(Run(Batch<K, D>, Batch(p, first), between), second)
  {
    var p1 := Batch(p, first);
    BatchKeepsTags(p, first);
    assert p1.docs[k].etag == p.clock;
    forall t: Partition<K, D>, w: Writes<K, D> | Tagged(t) ensures Tagged(Batch(t, w)) && Later(t, Batch(t, w)) {
      BatchKeepsTags(t, w);
    }
    var inv: Partition<K, D> -> bool := t => Tagged(t);
    var rel: (Partition<K, D>, Partition<K, D>) -> bool := (t, u) => Later(t, u);
    RunRelates(Batch<K, D>, inv, rel, p1, between);
  }
}
