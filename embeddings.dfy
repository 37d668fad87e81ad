/**
 * `AIMatchingService._get_embedding` (`apps/ml/services.py`): a get-or-compute cache of text
 * embeddings in the `embedding_cache` table, keyed by the SHA-256 digest of the text.
 *
 * The digest is the function `hash`, fixed when the store is made and known only to produce 64
 * characters. The embeddings endpoint is the oracle `embed`: its n-th call returns a vector, or
 * None when it raises. Whether the table accepts the insert that follows the n-th call is the
 * oracle `accepts`.
 */
module Embeddings {
  import opened Optional
  import opened Text
  import opened OrderModels

  /** `text[:1000]`: how much of the text a new entry stores. */
  const StoredTextLength: nat := 1000

  /** `.filter(text_hash=h).first()` on the cache table. */
  function FirstWithHash(entries: seq<EmbeddingEntry>, h: string): (r: Option<EmbeddingEntry>)
    ensures r.None? <==> forall e :: e in entries ==> e.textHash != h
    ensures r.Some? ==> r.value in entries && r.value.textHash == h
  {
    if entries == [] then None
    else if entries[0].textHash == h then Some(entries[0])
    else FirstWithHash(entries[1..], h)
  }

  /** What one lookup returns, and the table and call count it leaves. */
  datatype LookupResult = LookupResult(vector: Option<seq<real>>, entries: seq<EmbeddingEntry>, calls: nat)

  /** The cache table and the number of calls made to the embeddings endpoint. */
  class EmbeddingStore {
    const hash: string -> string
    const embed: nat -> Option<seq<real>>
    const accepts: nat -> bool
    var entries: seq<EmbeddingEntry>
    var calls: nat

    ghost predicate Valid()
      reads this
    {
      EmbeddingsConstrained(entries) && forall s :: |hash(s)| == 64
    }

    constructor(hash: string -> string, embed: nat -> Option<seq<real>>, accepts: nat -> bool)
      requires forall s :: |hash(s)| == 64
      ensures this.hash == hash && this.embed == embed && this.accepts == accepts
      ensures entries == [] && calls == 0 && Valid()
    {
      this.hash := hash;
      this.embed := embed;
      this.accepts := accepts;
      entries := [];
      calls := 0;
    }

    /** The text is not blank and no entry holds its digest: asking for it calls the endpoint. */
    predicate Misses(text: string)
      reads this
    {
      Strip(text) != "" && FirstWithHash(entries, hash(text)).None?
    }

    /**
     * `_get_embedding(text)` on a state of the table and the endpoint: the vector returned and
     * the entries and number of calls afterwards.
     */
    function Lookup(entries: seq<EmbeddingEntry>, calls: nat, text: string): LookupResult {
      if Strip(text) == "" then LookupResult(None, entries, calls)
      else match FirstWithHash(entries, hash(text))
        case Some(e) => LookupResult(Some(e.vector), entries, calls)
        case None =>
          if embed(calls).Some? && accepts(calls) then
            LookupResult(embed(calls), entries + [EmbeddingEntry(Take(text, StoredTextLength), hash(text), embed(calls).value)], calls + 1)
          else LookupResult(None, entries, calls + 1)
    }

    /** What `_get_embedding(text)` returns in the current state. */
    function Outcome(text: string): Option<seq<real>>
      reads this
    {
      Lookup(entries, calls, text).vector
    }

    /**
     * `_get_embedding`: blank text gives None with no lookup; a cached digest gives the stored
     * vector with no call; otherwise one call, and when it succeeds and the insert is accepted,
     * one new entry of the first 1000 characters, the digest of the whole text and the vector.
     * Any failure gives None and no entry. An embedding once returned is served from the cache.
     */
    method GetEmbedding(text: string) returns (v: Option<seq<real>>)
      requires Valid()
      modifies this`entries, this`calls
      ensures Valid()
      ensures v == old(Outcome(text))
      ensures calls == old(calls) + (if old(Misses(text)) then 1 else 0)
      ensures entries ==
        if old(Misses(text)) && embed(old(calls)).Some? && accepts(old(calls)) then
          old(entries) + [EmbeddingEntry(Take(text, StoredTextLength), hash(text), embed(old(calls)).value)]
        else old(entries)
      ensures v.Some? ==> !Misses(text) && Outcome(text) == v
      ensures LookupResult(v, entries, calls) == Lookup(old(entries), old(calls), text)
    {
      if Strip(text) == "" {
        return None;
      }
      var textHash := hash(text);
      var cached := FirstWithHash(entries, textHash);
      if cached.Some? {
        return Some(cached.value.vector);
      }
      var n := calls;
      var response := embed(n);
      calls := n + 1;
      if response.None? || !accepts(n) {
        return None;
      }
      var e := EmbeddingEntry(Take(text, StoredTextLength), textHash, response.value);
      assert |textHash| == 64;
      StoreKeepsConstraints(entries, e);
      HitAfterStore(entries, e);
      entries := entries + [e];
      v := response;
    }
  }

  /** A lookup that returned a vector is repeated from the cache: same vector, no call, no new entry. */
  lemma LookupServedFromCache(store: EmbeddingStore, entries: seq<EmbeddingEntry>, calls: nat, text: string)
    ensures var r := store.Lookup(entries, calls, text);
      r.vector.Some? ==> store.Lookup(r.entries, r.calls, text) == r
  {
    var r := store.Lookup(entries, calls, text);
    if r.vector.Some? && FirstWithHash(entries, store.hash(text)).None? {
      var e := EmbeddingEntry(Take(text, StoredTextLength), store.hash(text), store.embed(calls).value);
      HitAfterStore(entries, e);
    }
  }

  /** A new entry whose digest is absent keeps the digests unique. */
  lemma StoreKeepsConstraints(entries: seq<EmbeddingEntry>, e: EmbeddingEntry)
    requires EmbeddingsConstrained(entries) && |e.textHash| <= 64
    requires FirstWithHash(entries, e.textHash).None?
    ensures EmbeddingsConstrained(entries + [e])
  {
    var es := entries + [e];
    forall i, j | 0 <= i < j < |es| ensures es[i].textHash != es[j].textHash {
      if j == |entries| {
        assert es[i] in entries;
      }
    }
  }

  /** After storing an entry under an absent digest, the lookup of that digest finds it. */
  lemma {:induction false} HitAfterStore(entries: seq<EmbeddingEntry>, e: EmbeddingEntry)
    requires FirstWithHash(entries, e.textHash).None?
    ensures FirstWithHash(entries + [e], e.textHash) == Some(e)
  {
    if entries != [] {
      assert (entries + [e])[1..] == entries[1..] + [e];
      HitAfterStore(entries[1..], e);
    }
  }
}
