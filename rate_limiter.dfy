/** `RateLimiter`: per sender, the timestamps of the admitted messages in the last minute; a
    message is admitted while fewer than `limit` remain. Time is the monotonic clock reading
    passed in as `now`. */
module RateLimiting {

  const Window: real := 60.0

  predicate Sorted(b: seq<real>) {
    forall i, j :: 0 <= i < j < |b| ==> b[i] <= b[j]
  }

  /** The front eviction: timestamps are dropped from the front while the first one is older
      than `cutoff`. */
  function Evicted(b: seq<real>, cutoff: real): (r: seq<real>)
    ensures |r| <= |b| && r == b[|b| - |r|..]
    ensures r == [] || r[0] >= cutoff
    ensures forall i :: 0 <= i < |b| - |r| ==> b[i] < cutoff
  {
    if b != [] && b[0] < cutoff then Evicted(b[1..], cutoff) else b
  }

  /** In a sorted bucket, nothing older than the cutoff survives the eviction. */
  lemma {:induction false} EvictedAllRecent(b: seq<real>, cutoff: real)
    requires Sorted(b)
    ensures forall i :: 0 <= i < |Evicted(b, cutoff)| ==> Evicted(b, cutoff)[i] >= cutoff
  {
    var r := Evicted(b, cutoff);
    var k := |b| - |r|;
    forall i | 0 <= i < |r| ensures r[i] >= cutoff {
      assert r[0] == b[k] && r[i] == b[k + i];
      assert b[k] <= b[k + i];
    }
  }

  /** The decision of `is_allowed` for one bucket, after eviction: admitted while fewer than
      `limit` timestamps are left, and only then is `now` appended. */
  function Admit(b: seq<real>, now: real, limit: int): (bool, seq<real>)
  {
    var e := Evicted(b, now - Window);
    if |e| >= limit then (false, e) else (true, e + [now])
  }

  /** How many timestamps of `b` are not older than `cutoff`, wherever they sit. */
  function CountRecent(b: seq<real>, cutoff: real): nat
  {
    if b == [] then 0 else (if b[0] >= cutoff then 1 else 0) + CountRecent(b[1..], cutoff)
  }

  lemma {:induction false} CountAllRecent(b: seq<real>, cutoff: real)
    requires forall i :: 0 <= i < |b| ==> b[i] >= cutoff
    ensures CountRecent(b, cutoff) == |b|
  {
    if b != [] {
      assert forall i :: 0 <= i < |b[1..]| ==> b[1..][i] == b[i + 1];
      CountAllRecent(b[1..], cutoff);
    }
  }

  /** In a sorted bucket the front eviction keeps exactly the timestamps of the last window. */
  lemma {:induction false} EvictedKeepsRecent(b: seq<real>, cutoff: real)
    requires Sorted(b)
    ensures |Evicted(b, cutoff)| == CountRecent(b, cutoff)
    decreases |b|
  {
    if b != [] {
      if b[0] < cutoff {
        assert Sorted(b[1..]) by {
          forall i, j | 0 <= i < j < |b[1..]| ensures b[1..][i] <= b[1..][j] {
            assert b[1..][i] == b[i + 1] && b[1..][j] == b[j + 1];
          }
        }
        EvictedKeepsRecent(b[1..], cutoff);
      } else {
        assert forall i :: 0 <= i < |b| ==> b[0] <= b[i];
        CountAllRecent(b, cutoff);
      }
    }
  }

  /** A message is admitted exactly when fewer than `limit` of the sender's timestamps fall in
      the last `Window` seconds, and an admitted one is recorded as the newest. */
  lemma AdmitMeansFewerRecent(b: seq<real>, now: real, limit: int)
    requires Sorted(b)
    ensures Admit(b, now, limit).0 <==> CountRecent(b, now - Window) < limit
    ensures Admit(b, now, limit).0 ==> Admit(b, now, limit).1 == Evicted(b, now - Window) + [now]
    ensures !Admit(b, now, limit).0 ==> Admit(b, now, limit).1 == Evicted(b, now - Window)
  {
    EvictedKeepsRecent(b, now - Window);
  }

  /** A suffix of a sorted bucket whose entries are at most `now` is one too. */
  lemma SuffixSortedBelow(b: seq<real>, k: nat, now: real)
    requires k <= |b| && Sorted(b) && forall i :: 0 <= i < |b| ==> b[i] <= now
    ensures Sorted(b[k..]) && forall i :: 0 <= i < |b[k..]| ==> b[k..][i] <= now
  {
    forall i | 0 <= i < |b[k..]| ensures b[k..][i] == b[k + i] {
    }
  }

  /** Appending a timestamp not older than any entry keeps the bucket sorted. */
  lemma AppendNewest(e: seq<real>, now: real)
    requires Sorted(e) && forall i :: 0 <= i < |e| ==> e[i] <= now
    ensures Sorted(e + [now])
  {
    var t := e + [now];
    forall i, j | 0 <= i < j < |t| ensures t[i] <= t[j] {
      if j < |e| {
        assert t[i] == e[i] && t[j] == e[j];
      } else {
        assert t[i] == e[i] && t[j] == now;
      }
    }
  }

  /** With a monotonic clock the bucket stays sorted, and it never holds more than `limit`
      timestamps. */
  lemma AdmitKeepsInvariant(b: seq<real>, now: real, limit: int)
    requires Sorted(b) && forall i :: 0 <= i < |b| ==> b[i] <= now
    requires |b| <= (if limit > 0 then limit else 0)
    ensures Sorted(Admit(b, now, limit).1)
    ensures |Admit(b, now, limit).1| <= (if limit > 0 then limit else 0)
    ensures forall i :: 0 <= i < |Admit(b, now, limit).1| ==> now - Window <= Admit(b, now, limit).1[i] <= now
  {
    var e := Evicted(b, now - Window);
    EvictedAllRecent(b, now - Window);
    SuffixSortedBelow(b, |b| - |e|, now);
    AppendNewest(e, now);
  }

  /** A sender's bucket; the `defaultdict` gives an empty one to a sender not seen yet. */
  function BucketOf(buckets: map<string, seq<real>>, sender: string): seq<real> {
    if sender in buckets then buckets[sender] else []
  }

  /** The eviction loop of `is_allowed`. */
  method EvictOld(bucket: seq<real>, cutoff: real) returns (r: seq<real>)
    ensures r == Evicted(bucket, cutoff)
  {
    r := bucket;
    while r != [] && r[0] < cutoff
      invariant Evicted(r, cutoff) == Evicted(bucket, cutoff)
      decreases |r|
    {
      r := r[1..];
    }
  }

  class RateLimiter {
    const limit: int
    /** Stored, never consulted. */
    const burst: int
    var buckets: map<string, seq<real>>

    ghost predicate Valid()
      reads this
    {
      forall s :: s in buckets ==> Sorted(buckets[s]) && |buckets[s]| <= (if limit > 0 then limit else 0)
    }

    /** Every stored timestamp is at most `now`: the clock has not gone back. */
    ghost predicate NotAfter(now: real)
      reads this
    {
      forall s, i :: s in buckets && 0 <= i < |buckets[s]| ==> buckets[s][i] <= now
    }

    function Bucket(sender: string): seq<real>
      reads this
    {
      BucketOf(buckets, sender)
    }

    constructor (limit: int, burst: int)
      ensures Valid() && this.limit == limit && this.burst == burst && buckets == map[]
    {
      this.limit := limit;
      this.burst := burst;
      buckets := map[];
    }

    /** `is_allowed`. The `defaultdict` creates the sender's bucket even when it refuses. */
    method IsAllowed(sender: string, now: real) returns (ok: bool)
      requires Valid() && NotAfter(now)
      modifies this
      ensures Valid() && NotAfter(now)
      ensures sender in buckets && (ok, buckets[sender]) == Admit(old(Bucket(sender)), now, limit)
      ensures buckets == old(buckets)[sender := Admit(old(Bucket(sender)), now, limit).1]
    {
      var bucket := Bucket(sender);
      AdmitKeepsInvariant(bucket, now, limit);
      bucket := EvictOld(bucket, now - Window);
      if |bucket| >= limit {
        buckets := buckets[sender := bucket];
        return false;
      }
      buckets := buckets[sender := bucket + [now]];
      return true;
    }

    /** `reset`: the sender's bucket is removed, and only that one. */
    method Reset(sender: string)
      requires Valid()
      modifies this
      ensures Valid() && buckets == old(buckets) - {sender}
    {
      buckets := buckets - {sender};
    }
  }
}
