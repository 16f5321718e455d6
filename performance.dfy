/** The general-purpose helpers of the utilities module: the in-memory TTL
    cache, request batching, fetching with retries, and the visible-range test. */
module Performance {
  import opened Common

  // ---------------------------------------------------------------------
  // CacheManager

  /** The default `maxAge`: five minutes, in milliseconds. */
  const DefaultMaxAge: int := 300000

  /** One map entry; `value` is `None` where JavaScript stored `null`. */
  datatype Entry<V> = Entry(value: Option<V>, timestamp: int)

  predicate Expired<V>(e: Entry<V>, maxAge: int, now: int) {
    now - e.timestamp > maxAge
  }

  /** What `get(key)` returns. */
  function Lookup<V>(cache: map<string, Entry<V>>, maxAge: int, key: string, now: int): (v: Option<V>)
    ensures v.Some? <==> key in cache && !Expired(cache[key], maxAge, now) && cache[key].value.Some?
    ensures v.Some? ==> v == cache[key].value
  {
    if key !in cache || Expired(cache[key], maxAge, now) then None else cache[key].value
  }

  /** The map after `get(key)`: an expired entry for `key` is deleted, nothing else moves. */
  function AfterLookup<V>(cache: map<string, Entry<V>>, maxAge: int, key: string, now: int): (c: map<string, Entry<V>>)
    ensures forall k :: k in c <==> k in cache && (k != key || !Expired(cache[k], maxAge, now))
    ensures forall k :: k in c ==> c[k] == cache[k]
  {
    if key in cache && Expired(cache[key], maxAge, now) then cache - {key} else cache
  }

  class CacheManager<V> {
    var cache: map<string, Entry<V>>
    const maxAge: int

    constructor(maxAge: int := DefaultMaxAge)
      ensures cache == map[] && this.maxAge == maxAge
    {
      this.maxAge := maxAge;
      cache := map[];
    }

    /** `set`: the entry for `key` is replaced, stamped with `now`. */
    method Set(key: string, value: Option<V>, now: int)
      modifies this
      ensures cache == old(cache)[key := Entry(value, now)]
    {
      cache := cache[key := Entry(value, now)];
    }

    /** `get`: a hit returns the value, an expired entry is evicted. */
    method Get(key: string, now: int) returns (v: Option<V>)
      modifies this
      ensures v == Lookup(old(cache), maxAge, key, now)
      ensures cache == AfterLookup(old(cache), maxAge, key, now)
    {
      if key !in cache {
        return None;
      }
      var item := cache[key];
      if now - item.timestamp > maxAge {
        cache := cache - {key};
        return None;
      }
      return item.value;
    }

    method Clear()
      modifies this
      ensures cache == map[]
    {
      cache := map[];
    }

    /** `has(key)` is `get(key) !== null`, eviction included. */
    method Has(key: string, now: int) returns (b: bool)
      modifies this
      ensures b <==> Lookup(old(cache), maxAge, key, now).Some?
      ensures cache == AfterLookup(old(cache), maxAge, key, now)
    {
      var v := Get(key, now);
      b := v.Some?;
    }
  }

  /** A fresh `set` is read back while its age is at most `maxAge`,
      boundary included, and every other key reads as before. */
  lemma SetThenLookup<V>(cache: map<string, Entry<V>>, maxAge: int, key: string, other: string, v: V, written: int, now: int)
    ensures Lookup(cache[key := Entry(Some(v), written)], maxAge, key, now)
         == if now - written <= maxAge then Some(v) else None
    ensures other != key ==> Lookup(cache[key := Entry(Some(v), written)], maxAge, other, now) == Lookup(cache, maxAge, other, now)
  {
  }

  /** A stored `null` makes `has` false even while fresh. */
  lemma StoredNullIsAbsent<V>(cache: map<string, Entry<V>>, maxAge: int, key: string, written: int, now: int)
    ensures Lookup(cache[key := Entry(None, written)], maxAge, key, now) == None
  {
  }

  /** Reading twice at the same moment gives the same answer, and the
      eviction of the first read is not repeated by the second. */
  lemma LookupStable<V>(cache: map<string, Entry<V>>, maxAge: int, key: string, now: int)
    ensures var c := AfterLookup(cache, maxAge, key, now);
      Lookup(c, maxAge, key, now) == Lookup(cache, maxAge, key, now)
      && AfterLookup(c, maxAge, key, now) == c
  {
  }

  // ---------------------------------------------------------------------
  // batchRequests

  /** `Promise.all` over already-settled promises: all values in order, or a rejection. */
  function All<T>(ps: seq<Settled<T>>): (r: Result<seq<T>, ()>)
    ensures r.Success? <==> forall i :: 0 <= i < |ps| ==> ps[i].Fulfilled?
    ensures r.Success? ==> |r.value| == |ps| && forall i :: 0 <= i < |ps| ==> r.value[i] == ps[i].value
  {
    if ps == [] then Success([])
    else
      var rest := All(ps[1..]);
      assert forall i :: 1 <= i < |ps| ==> ps[i] == ps[1..][i - 1];
      if ps[0].Rejected? then Failure(())
      else if rest.Failure? then Failure(())
      else Success([ps[0].value] + rest.value)
  }

  /** A list of fulfilled promises resolves to their values. */
  lemma AllOf<T>(ps: seq<Settled<T>>, vs: seq<T>)
    requires |vs| == |ps| && forall i :: 0 <= i < |ps| ==> ps[i] == Fulfilled(vs[i])
    ensures All(ps) == Success(vs)
  {
    assert All(ps).Success?;
    assert All(ps).value == vs;
  }

  lemma AllAppend<T>(a: seq<Settled<T>>, b: seq<Settled<T>>)
    requires All(a).Success? && All(b).Success?
    ensures All(a + b) == Success(All(a).value + All(b).value)
  {
    var va := All(a).value;
    var vb := All(b).value;
    forall i | 0 <= i < |a + b|
      ensures (a + b)[i] == Fulfilled((va + vb)[i])
    {
      if i < |a| {
        assert (a + b)[i] == a[i] && (va + vb)[i] == va[i];
      } else {
        assert (a + b)[i] == b[i - |a|] && (va + vb)[i] == vb[i - |a|];
      }
    }
    AllOf(a + b, va + vb);
  }

  /** The consecutive slices `batchRequests` awaits: `size` requests each, the last one possibly shorter. */
  function Chunks<T>(s: seq<T>, size: nat): seq<seq<T>>
    requires size >= 1
    decreases |s|
  {
    if |s| <= size then (if s == [] then [] else [s])
    else [s[..size]] + Chunks(s[size..], size)
  }

  function Flatten<T>(ss: seq<seq<T>>): seq<T> {
    if ss == [] then [] else ss[0] + Flatten(ss[1..])
  }

  lemma {:induction false} ChunksFlatten<T>(s: seq<T>, size: nat)
    requires size >= 1
    ensures Flatten(Chunks(s, size)) == s
    decreases |s|
  {
    if |s| > size {
      ChunksFlatten(s[size..], size);
      assert Chunks(s, size)[1..] == Chunks(s[size..], size);
      assert s[..size] + s[size..] == s;
    }
  }

  lemma {:induction false} ChunksSizes<T>(s: seq<T>, size: nat)
    requires size >= 1
    ensures forall i :: 0 <= i < |Chunks(s, size)| ==> 1 <= |Chunks(s, size)[i]| <= size
    ensures forall i :: 0 <= i < |Chunks(s, size)| - 1 ==> |Chunks(s, size)[i]| == size
    decreases |s|
  {
    if |s| > size {
      ChunksSizes(s[size..], size);
      assert forall i :: 1 <= i < |Chunks(s, size)| ==> Chunks(s, size)[i] == Chunks(s[size..], size)[i - 1];
    }
  }

  lemma {:induction false} ChunksCount<T>(s: seq<T>, size: nat)
    requires size >= 1
    ensures (|Chunks(s, size)| - 1) * size < |s| <= |Chunks(s, size)| * size
    decreases |s|
  {
    if |s| > size {
      ChunksCount(s[size..], size);
      var c := |Chunks(s[size..], size)|;
      assert |Chunks(s, size)| == c + 1;
      assert (c + 1) * size == c * size + size;
      assert c * size == (c - 1) * size + size;
    }
  }

  /** The slices cover the requests in order, every slice but the last is
      full, and there are ⌈n / size⌉ of them: the least count whose full
      slices would hold all n requests. */
  lemma ChunksShape<T>(s: seq<T>, size: nat)
    requires size >= 1
    ensures Flatten(Chunks(s, size)) == s
    ensures forall i :: 0 <= i < |Chunks(s, size)| ==> 1 <= |Chunks(s, size)[i]| <= size
    ensures forall i :: 0 <= i < |Chunks(s, size)| - 1 ==> |Chunks(s, size)[i]| == size
    ensures (|Chunks(s, size)| - 1) * size < |s| <= |Chunks(s, size)| * size
  {
    ChunksFlatten(s, size);
    ChunksSizes(s, size);
    ChunksCount(s, size);
  }

  function Min(a: int, b: int): int {
    if a <= b then a else b
  }

  /** One turn of the batching loop takes the first slice off what is left. */
  lemma ChunksStep<T>(s: seq<T>, i: nat, size: nat)
    requires size >= 1 && i < |s|
    ensures Chunks(s[i..], size) == [s[i..Min(i + size, |s|)]] + Chunks(s[Min(i + size, |s|)..], size)
  {
    var rest := s[i..];
    var end := Min(i + size, |s|);
    if |rest| > size {
      assert rest[..size] == s[i..end] && rest[size..] == s[end..];
    } else {
      assert rest == s[i..end] && s[end..] == [];
    }
  }

  lemma RejectedBatch<T>(requests: seq<Settled<T>>, i: nat, end: nat)
    requires i <= end <= |requests| && All(requests[i..end]).Failure?
    ensures All(requests) == Failure(())
  {
    var k :| 0 <= k < end - i && requests[i..end][k].Rejected?;
    assert requests[i + k] == requests[i..end][k];
  }

  lemma AcceptedBatch<T>(requests: seq<Settled<T>>, i: nat, end: nat)
    requires i <= end <= |requests| && All(requests[..i]).Success? && All(requests[i..end]).Success?
    ensures All(requests[..end]) == Success(All(requests[..i]).value + All(requests[i..end]).value)
  {
    AllAppend(requests[..i], requests[i..end]);
    assert requests[..i] + requests[i..end] == requests[..end];
  }

  /** `batchRequests(requests, maxConcurrent)`: the requests are awaited
      `maxConcurrent` at a time and their values concatenated; the first
      rejected batch rejects the whole call. `batches` records the slices
      awaited. A `maxConcurrent` below 1 never advances the loop, so the
      source requires at least 1. */
  method BatchRequests<T>(requests: seq<Settled<T>>, maxConcurrent: nat) returns (r: Result<seq<T>, ()>, ghost batches: seq<seq<Settled<T>>>)
    requires maxConcurrent >= 1
    ensures r == All(requests)
    ensures batches <= Chunks(requests, maxConcurrent)
    ensures r.Success? ==> batches == Chunks(requests, maxConcurrent)
  {
    var results: seq<T> := [];
    batches := [];
    var i := 0;
    while i < |requests|
      invariant 0 <= i
      invariant All(requests[..Min(i, |requests|)]) == Success(results)
      invariant batches + Chunks(requests[Min(i, |requests|)..], maxConcurrent) == Chunks(requests, maxConcurrent)
      decreases |requests| - i
    {
      assert Min(i, |requests|) == i;
      var end := Min(i + maxConcurrent, |requests|);
      var batch := requests[i..end];
      ChunksStep(requests, i, maxConcurrent);
      batches := batches + [batch];
      var batchResults := All(batch);
      if batchResults.Failure? {
        RejectedBatch(requests, i, end);
        return Failure(()), batches;
      }
      AcceptedBatch(requests, i, end);
      results := results + batchResults.value;
      i := i + maxConcurrent;
      assert Min(i, |requests|) == end;
    }
    assert requests[..|requests|] == requests;
    r := Success(results);
  }

  // ---------------------------------------------------------------------
  // fetchWithTimeout

  datatype Response = Response(ok: bool, status: int)

  /** What one attempt produced: a response, or an exception (network
      failure or the abort of the per-attempt timer). */
  datatype Attempt = Answered(response: Response) | Failed(error: string)

  /** How the call ends; `Undefined` when the loop never runs. */
  datatype FetchResult = Returned(response: Response) | Threw(error: string) | Undefined

  /** `options.timeout || 8000`. */
  function EffectiveTimeout(timeout: Option<int>): (t: int)
    ensures t != 0
    ensures timeout.Some? && timeout.value != 0 ==> t == timeout.value
    ensures timeout.None? || timeout.value == 0 ==> t == 8000
  {
    if timeout.Some? && timeout.value != 0 then timeout.value else 8000
  }

  function Pow2(n: nat): nat {
    if n == 0 then 1 else 2 * Pow2(n - 1)
  }

  predicate Succeeded(a: Attempt) {
    a.Answered? && a.response.ok
  }

  /** The outcome of the attempts from `attempt` on; `outcome(j)` is what attempt j produced. */
  function FetchFrom(outcome: int -> Attempt, attempt: int, retries: int): FetchResult
    decreases retries - attempt
  {
    if attempt > retries then Undefined
    else match outcome(attempt)
      case Failed(e) => if attempt == retries then Threw(e) else FetchFrom(outcome, attempt + 1, retries)
      case Answered(resp) => if !resp.ok && attempt < retries then FetchFrom(outcome, attempt + 1, retries) else Returned(resp)
  }

  /** The retry loop. `delays` lists the back-off waits, in order. */
  method FetchWithTimeout(outcome: int -> Attempt, retries: int) returns (r: FetchResult, delays: seq<int>)
    ensures r == FetchFrom(outcome, 1, retries)
    ensures forall k :: 0 <= k < |delays| ==> delays[k] == Pow2(k + 1) * 1000
    ensures r.Returned? ==> outcome(|delays| + 1) == Answered(r.response)
    ensures r.Threw? ==> |delays| + 1 == retries
    ensures r.Undefined? ==> delays == []
  {
    delays := [];
    var attempt := 1;
    while attempt <= retries
      invariant attempt == 1 || 1 <= attempt <= retries
      invariant |delays| == attempt - 1
      invariant FetchFrom(outcome, 1, retries) == FetchFrom(outcome, attempt, retries)
      invariant forall k :: 0 <= k < |delays| ==> delays[k] == Pow2(k + 1) * 1000
      decreases retries - attempt
    {
      var a := outcome(attempt);
      if a.Answered? {
        if !a.response.ok && attempt < retries {
          delays := delays + [Pow2(attempt) * 1000];
        } else {
          return Returned(a.response), delays;
        }
      } else {
        if attempt == retries {
          return Threw(a.error), delays;
        }
        delays := delays + [Pow2(attempt) * 1000];
      }
      attempt := attempt + 1;
    }
    r := Undefined;
  }

  /** A returned response is the first successful one among attempts
      `attempt..retries`, or else whatever the last attempt answered. */
  lemma {:induction false} FetchReturns(outcome: int -> Attempt, attempt: int, retries: int, resp: Response)
    ensures FetchFrom(outcome, attempt, retries) == Returned(resp)
      <==> exists j :: attempt <= j <= retries && outcome(j) == Answered(resp) && (resp.ok || j == retries)
                       && forall i :: attempt <= i < j ==> !Succeeded(outcome(i))
    decreases retries - attempt
  {
    if attempt <= retries {
      FetchReturns(outcome, attempt + 1, retries, resp);
      var a := outcome(attempt);
      if a == Answered(resp) && (resp.ok || attempt == retries) {
        assert attempt <= attempt <= retries && outcome(attempt) == Answered(resp);
      } else if Succeeded(a) {
      } else if a.Failed? && attempt == retries {
      } else {
        if exists j :: attempt < j <= retries && outcome(j) == Answered(resp) && (resp.ok || j == retries)
                       && forall i :: attempt + 1 <= i < j ==> !Succeeded(outcome(i)) {
          var j :| attempt < j <= retries && outcome(j) == Answered(resp) && (resp.ok || j == retries)
                   && forall i :: attempt + 1 <= i < j ==> !Succeeded(outcome(i));
          assert forall i :: attempt <= i < j ==> !Succeeded(outcome(i));
        }
      }
    }
  }

  /** The call throws exactly when no earlier attempt succeeded and the last one threw. */
  lemma {:induction false} FetchThrows(outcome: int -> Attempt, attempt: int, retries: int, e: string)
    ensures FetchFrom(outcome, attempt, retries) == Threw(e)
      <==> attempt <= retries && outcome(retries) == Failed(e) && forall i :: attempt <= i < retries ==> !Succeeded(outcome(i))
    decreases retries - attempt
  {
    if attempt <= retries {
      FetchThrows(outcome, attempt + 1, retries, e);
    }
  }

  /** With at least one attempt allowed the call never resolves to `undefined`. */
  lemma {:induction false} FetchDefined(outcome: int -> Attempt, attempt: int, retries: int)
    ensures FetchFrom(outcome, attempt, retries).Undefined? <==> attempt > retries
    decreases retries - attempt
  {
    if attempt < retries {
      FetchDefined(outcome, attempt + 1, retries);
    }
  }

  // ---------------------------------------------------------------------
  // optimizeListItem

  /** The `visibleRange` argument: an object with `start` and `end`, or a
      bare number such as the default `5`, whose `start` and `end` are undefined. */
  datatype VisibleRange = Window(start: int, end: int) | Number(n: int)

  const DefaultVisibleRange: VisibleRange := Number(5)

  /** `index >= visibleRange.start && index <= visibleRange.end`; a
      comparison with `undefined` is false. */
  function OptimizeListItem(index: int, visibleRange: VisibleRange): (visible: bool)
    ensures visible <==> visibleRange.Window? && visibleRange.start <= index <= visibleRange.end
  {
    match visibleRange
    case Window(start, end) => index >= start && index <= end
    case Number(_) => false
  }

  /** Called with its default range, `optimizeListItem` hides every item. */
  lemma DefaultRangeShowsNothing(index: int)
    ensures !OptimizeListItem(index, DefaultVisibleRange)
  {
  }
}
