/** The authenticator's bounded cache of directory verdicts. Calls to the directory overlap freely: a lookup
    and the `Remember` that follows it are separate steps, and any number of other steps may lie between.
    SHA-256 is taken to be injective, so a credential is its own cache key. */
module AuthCache {
  import opened Basics

  /** `None` for a key the directory does not accept. */
  type Verdict = Option<string>

  /** An empty user id counts as none. */
  predicate Accepts(verdict: Verdict) {
    verdict.Some? && verdict.value != ""
  }

  datatype Entry = Entry(key: string, verdict: Verdict, expiresAt: int)

  /** A directory call that was answered: when it was started, and what it said. */
  datatype Answer = Answer(credential: string, verdict: Verdict, started: int)

  ghost predicate DistinctKeys(cache: seq<Entry>) {
    forall i, j :: 0 <= i < j < |cache| ==> cache[i].key != cache[j].key
  }

  /** The index of the key's entry, or the length. */
  function Find(cache: seq<Entry>, key: string): (i: nat)
    ensures i <= |cache| && (i < |cache| ==> cache[i].key == key)
    ensures forall j :: 0 <= j < i ==> cache[j].key != key
  {
    FindBy(cache, key, (e: Entry) => e.key)
  }

  /** `cache.delete(key)`, given where the key is. */
  function Without(cache: seq<Entry>, i: nat): seq<Entry> {
    if i < |cache| then cache[..i] + cache[i + 1..] else cache
  }

  /** The newest entries that leave room for one more. */
  function Evicted(cache: seq<Entry>, maxEntries: nat): seq<Entry>
    requires 1 <= maxEntries
  {
    if |cache| < maxEntries then cache else cache[|cache| - (maxEntries - 1)..]
  }

  lemma WithoutDistinct(cache: seq<Entry>, i: nat)
    requires DistinctKeys(cache) && i < |cache|
    ensures DistinctKeys(Without(cache, i))
  {
    var rest := Without(cache, i);
    forall j, k | 0 <= j < k < |rest|
      ensures rest[j].key != rest[k].key
    {
      assert rest[j] == cache[if j < i then j else j + 1];
      assert rest[k] == cache[if k < i then k else k + 1];
    }
  }

  lemma WithoutMembers(cache: seq<Entry>, i: nat, e: Entry)
    requires DistinctKeys(cache) && i < |cache|
    ensures e in Without(cache, i) <==> e in cache && e.key != cache[i].key
  {
    if e in cache && e.key != cache[i].key {
      var j :| 0 <= j < |cache| && cache[j] == e;
      assert if j < i then cache[..i][j] == e else cache[i + 1..][j - (i + 1)] == e;
    }
  }

  /** Deleting a key takes away its entry and no other. */
  lemma WithoutKeeps(cache: seq<Entry>, key: string)
    requires DistinctKeys(cache)
    ensures DistinctKeys(Without(cache, Find(cache, key)))
    ensures forall e :: e in Without(cache, Find(cache, key)) <==> e in cache && e.key != key
  {
    var i := Find(cache, key);
    if i < |cache| {
      WithoutDistinct(cache, i);
      forall e ensures e in Without(cache, i) <==> e in cache && e.key != key {
        WithoutMembers(cache, i, e);
      }
    }
  }

  lemma EvictedStep(cache: seq<Entry>, maxEntries: nat)
    requires 1 <= maxEntries <= |cache|
    ensures Evicted(cache[1..], maxEntries) == Evicted(cache, maxEntries)
  {
  }

  /** A stored entry is the new one or an old one, and no key occurs twice. */
  lemma StoredKeeps(cache: seq<Entry>, e: Entry)
    requires DistinctKeys(cache)
    ensures DistinctKeys(Stored(cache, e)) && |Stored(cache, e)| <= |cache| + 1
    ensures forall x :: x in Stored(cache, e) ==> x == e || x in cache
    ensures e in Stored(cache, e) && forall x :: x in cache && x.key != e.key ==> x in Stored(cache, e)
  {
    var i := Find(cache, e.key);
    if i < |cache| {
      assert cache[i := e][i] == e;
    }
    forall x | x in cache && x.key != e.key ensures x in Stored(cache, e) {
      var k :| 0 <= k < |cache| && cache[k] == x;
      assert Stored(cache, e)[k] == x;
    }
  }

  /** `cache.set(key, entry)`: a key keeps its place in the order. */
  function Stored(cache: seq<Entry>, e: Entry): seq<Entry> {
    var i := Find(cache, e.key);
    if i < |cache| then cache[i := e] else cache + [e]
  }

  class Authenticator {
    const cacheTtlMs: int
    const negativeCacheTtlMs: int
    const maxEntries: nat
    /** In insertion order, as a JavaScript Map. */
    var cache: seq<Entry>
    ghost var answers: set<Answer>

    function Ttl(verdict: Verdict): int {
      if Accepts(verdict) then cacheTtlMs else negativeCacheTtlMs
    }

    ghost predicate Vouched(e: Entry)
      reads this
    {
      Answer(e.key, e.verdict, e.expiresAt - Ttl(e.verdict)) in answers
    }

    ghost predicate Valid()
      reads this
    {
      && 1 <= maxEntries && |cache| <= maxEntries && DistinctKeys(cache)
      && forall e :: e in cache ==> Vouched(e)
    }

    constructor (cacheTtlMs: int, negativeCacheTtlMs: int, maxEntries: nat)
      requires 1 <= maxEntries
      ensures Valid() && cache == [] && answers == {}
      ensures this.cacheTtlMs == cacheTtlMs && this.negativeCacheTtlMs == negativeCacheTtlMs && this.maxEntries == maxEntries
    {
      this.cacheTtlMs, this.negativeCacheTtlMs, this.maxEntries := cacheTtlMs, negativeCacheTtlMs, maxEntries;
      cache, answers := [], {};
    }

    /** The part of `authenticate` before the await. A verdict it returns was given by the directory for this
        very credential, on a call started less than its time to live ago. */
    method Lookup(credential: string, now: int) returns (verdict: Option<Verdict>)
      requires Valid()
      modifies this`cache
      ensures Valid()
      ensures verdict.Some? ==> exists started :: Answer(credential, verdict.value, started) in answers
                                  && now < started + (if Accepts(verdict.value) then cacheTtlMs else negativeCacheTtlMs)
      ensures verdict.None? ==> forall e :: e in cache ==> e.key != credential
      ensures var i := Find(old(cache), credential);
              if i < |old(cache)| && old(cache)[i].expiresAt > now then verdict == Some(old(cache)[i].verdict) && cache == old(cache)
              else verdict == None && cache == Without(old(cache), i)
    {
      var i := Find(cache, credential);
      if i < |cache| && cache[i].expiresAt > now {
        var e := cache[i];
        assert Vouched(e) && Answer(credential, e.verdict, e.expiresAt - Ttl(e.verdict)) in answers;
        return Some(cache[i].verdict);
      }
      WithoutKeeps(cache, credential);
      if i < |cache| {
        cache := cache[..i] + cache[i + 1..];
      }
      verdict := None;
    }

    /** The part after the await: evict the oldest entries, then store the verdict under the time the call started. */
    method Remember(credential: string, verdict: Verdict, started: int)
      requires Valid()
      modifies this
      ensures Valid() && answers == old(answers) + {Answer(credential, verdict, started)}
      ensures Entry(credential, verdict, started + (if Accepts(verdict) then cacheTtlMs else negativeCacheTtlMs)) in cache
      ensures forall e :: e in cache && e.key != credential ==> e in old(cache)
      ensures forall e :: e in old(cache)[|old(cache)| - Min(|old(cache)|, maxEntries - 1)..] && e.key != credential ==> e in cache
      ensures cache == Stored(Evicted(old(cache), maxEntries), Entry(credential, verdict, started + Ttl(verdict)))
    {
      answers := answers + {Answer(credential, verdict, started)};
      Evict();
      var e := Entry(credential, verdict, started + Ttl(verdict));
      StoredKeeps(cache, e);
      cache := Stored(cache, e);
      assert Vouched(e);
    }

    /** `while (cache.size >= maxEntries) cache.delete(oldest)` */
    method Evict()
      requires 1 <= maxEntries && |cache| <= maxEntries && DistinctKeys(cache)
      modifies this`cache
      ensures cache == Evicted(old(cache), maxEntries) && |cache| < maxEntries && DistinctKeys(cache)
      ensures |cache| == Min(|old(cache)|, maxEntries - 1) && cache == old(cache)[|old(cache)| - |cache|..]
      ensures forall e :: e in cache ==> e in old(cache)
    {
      while |cache| >= maxEntries
        invariant |cache| <= maxEntries && DistinctKeys(cache)
        invariant forall e :: e in cache ==> e in old(cache)
        invariant Evicted(cache, maxEntries) == Evicted(old(cache), maxEntries)
        decreases |cache|
      {
        EvictedStep(cache, maxEntries);
        cache := cache[1..];
      }
    }
  }
}
