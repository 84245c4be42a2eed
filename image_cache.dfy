/**
 * `ImageCache` (PokemonApp/Core/Photos/ImageCache.swift): a two-tier image
 * cache (memory, then disk) in front of the network, with a table of
 * in-flight downloads so that a URL already being fetched is not fetched
 * again.
 *
 * The environment is an oracle: what the network delivers for a URL,
 * whether bytes decode to an image, the disk file name of a URL (the
 * source derives it from a per-process hash) and whether disk writes
 * succeed. An in-flight entry is represented by the outcome its task
 * settles with. Every network request is appended to a log.
 */
module ImageCache {
  import opened Base
  import opened Errors
  import opened Entities
  import opened ApiClient

  /** The world the cache talks to. */
  datatype Environment = Environment(
    network: Url -> Transfer,
    decode: Bytes -> Option<Image>,
    diskKey: Url -> string,
    diskWritable: bool)

  /** Where a lookup found its answer. */
  datatype Tier = Memory | Disk | Shared | Network

  /** The cache's state: memory tier, disk files, in-flight tasks, and the network requests made. */
  datatype CacheState = CacheState(
    mem: map<Url, Image>,
    disk: map<string, Bytes>,
    inflight: map<Url, Result<Image, Error>>,
    fetches: seq<Url>)

  /** What `image(for:)` returned, where it came from, and the state it left. */
  datatype Lookup = Lookup(result: Result<Image, Error>, tier: Tier, state: CacheState)

  /** The disk tier holds decodable bytes for `url`. */
  predicate DiskHit(env: Environment, s: CacheState, url: Url)
  {
    env.diskKey(url) in s.disk && env.decode(s.disk[env.diskKey(url)]).Some?
  }

  /**
   * The detached download task: the session's own error is thrown as it
   * is; a non-HTTP response, a status outside 200..<300 or bytes that do
   * not decode throw `APIError.decoding`.
   */
  function Download(env: Environment, url: Url): (r: Result<(Image, Bytes), Error>)
    ensures r.Ok? <==> (env.network(url).Delivered? && env.network(url).response.Http?
      && IsSuccessStatus(env.network(url).response.status) && env.decode(env.network(url).data).Some?)
    ensures r.Ok? ==> r.value == (env.decode(env.network(url).data).value, env.network(url).data)
    ensures env.network(url).Threw? ==> r == Err(env.network(url).error)
    ensures env.network(url).Delivered? && r.Err? ==> r == Err(Api(ApiDecoding))
  {
    match env.network(url)
    case Threw(e) => Err(e)
    case Delivered(data, response) =>
      if response.Http? && IsSuccessStatus(response.status) && env.decode(data).Some? then
        Ok((env.decode(data).value, data))
      else Err(Api(ApiDecoding))
  }

  /**
   * `image(for:)`: memory; else disk, promoted to memory; else the running
   * task for the URL, awaited; else a new download, written to disk
   * (best-effort) and promoted to memory on success. The in-flight entry
   * the download registers is removed when it settles.
   */
  function LookupStep(env: Environment, s: CacheState, url: Url): (r: Lookup)
    ensures r.state.inflight == s.inflight
    ensures (r.tier == Memory) <==> url in s.mem
    ensures r.tier == Memory ==> r == Lookup(Ok(s.mem[url]), Memory, s)
    ensures r.result.Err? ==> r.state.mem == s.mem
    ensures r.result.Ok? && r.tier != Shared ==>
      url in r.state.mem && r.state.mem[url] == r.result.value
    ensures r.state.mem == s.mem || (r.result.Ok? && r.state.mem == s.mem[url := r.result.value])
    ensures r.tier == Network <==> r.state.fetches != s.fetches
    ensures r.tier == Network ==> r.state.fetches == s.fetches + [url]
    ensures r.tier != Network ==> r.state.disk == s.disk
  {
    if url in s.mem then Lookup(Ok(s.mem[url]), Memory, s)
    else if DiskHit(env, s, url) then
      var img := env.decode(s.disk[env.diskKey(url)]).value;
      Lookup(Ok(img), Disk, s.(mem := s.mem[url := img]))
    else if url in s.inflight then Lookup(s.inflight[url], Shared, s)
    else
      var fetched := s.(fetches := s.fetches + [url]);
      match Download(env, url)
      case Err(e) => Lookup(Err(e), Network, fetched)
      case Ok((img, data)) =>
        var disk := if env.diskWritable then s.disk[env.diskKey(url) := data] else s.disk;
        Lookup(Ok(img), Network, fetched.(mem := s.mem[url := img], disk := disk))
  }

  /** A memory hit returns the stored image and changes nothing: no disk, no network. */
  lemma MemoryHit(env: Environment, s: CacheState, url: Url)
    requires url in s.mem
    ensures LookupStep(env, s, url) == Lookup(Ok(s.mem[url]), Memory, s)
  {
  }

  /** On a memory miss, decodable disk bytes are returned and promoted, with no network request. */
  lemma DiskHitPromotes(env: Environment, s: CacheState, url: Url)
    requires url !in s.mem && DiskHit(env, s, url)
    ensures var r := LookupStep(env, s, url);
      var img := env.decode(s.disk[env.diskKey(url)]).value;
      r.result == Ok(img) && r.tier == Disk && r.state == s.(mem := s.mem[url := img])
  {
  }

  /** A URL already in flight is awaited: its task's outcome, no new request, nothing stored. */
  lemma InflightShared(env: Environment, s: CacheState, url: Url)
    requires url !in s.mem && !DiskHit(env, s, url) && url in s.inflight
    ensures LookupStep(env, s, url) == Lookup(s.inflight[url], Shared, s)
  {
  }

  /**
   * A full miss requests the URL once. A 2xx response that decodes is
   * written to disk when writable and promoted to memory; anything else
   * leaves memory and disk as they were.
   */
  lemma FullMiss(env: Environment, s: CacheState, url: Url)
    requires url !in s.mem && !DiskHit(env, s, url) && url !in s.inflight
    ensures var r := LookupStep(env, s, url);
      && r.tier == Network && r.state.fetches == s.fetches + [url]
      && (Download(env, url).Ok? ==>
            r.result == Ok(Download(env, url).value.0)
            && r.state.mem == s.mem[url := Download(env, url).value.0]
            && (env.diskWritable ==> r.state.disk == s.disk[env.diskKey(url) := Download(env, url).value.1])
            && (!env.diskWritable ==> r.state.disk == s.disk))
      && (Download(env, url).Err? ==>
            r.result == Err(Download(env, url).error) && r.state.mem == s.mem && r.state.disk == s.disk)
  {
  }

  /** A response that is not HTTP, not 2xx, or not an image fails as `APIError.decoding` and caches nothing. */
  lemma BadResponseFailsAsDecoding(env: Environment, s: CacheState, url: Url)
    requires url !in s.mem && !DiskHit(env, s, url) && url !in s.inflight
    requires env.network(url).Delivered?
    requires var t := env.network(url);
      !t.response.Http? || !IsSuccessStatus(t.response.status) || env.decode(t.data).None?
    ensures var r := LookupStep(env, s, url);
      r.result == Err(Api(ApiDecoding)) && r.state.mem == s.mem && r.state.disk == s.disk
  {
  }

  /** A lookup that stored its answer is answered from memory next time, with no request. */
  lemma RepeatHitsMemory(env: Environment, s: CacheState, url: Url)
    requires LookupStep(env, s, url).result.Ok? && LookupStep(env, s, url).tier != Shared
    ensures var first := LookupStep(env, s, url);
      LookupStep(env, first.state, url) == Lookup(first.result, Memory, first.state)
  {
  }

  /** `seed(image:for:)`: the image is stored in memory for the URL. */
  function SeedStep(s: CacheState, url: Url, img: Image): (r: CacheState)
    ensures url in r.mem && r.mem[url] == img
    ensures r.disk == s.disk && r.inflight == s.inflight && r.fetches == s.fetches
  {
    s.(mem := s.mem[url := img])
  }

  /** After seeding, a lookup of that URL returns the seeded image from memory. */
  lemma SeedThenLookup(env: Environment, s: CacheState, url: Url, img: Image)
    ensures LookupStep(env, SeedStep(s, url, img), url) == Lookup(Ok(img), Memory, SeedStep(s, url, img))
  {
  }

  /** A URL a lookup would answer without the network. */
  predicate Warm(s: CacheState, url: Url)
  {
    url in s.mem || (url in s.inflight && s.inflight[url].Ok?)
  }

  /** The outcome of one lookup, without its image. */
  function OutcomeOf(r: Result<Image, Error>): (o: Outcome<Error>)
    ensures o.Fail? <==> r.Err?
    ensures o.Fail? ==> o.error == r.error
  {
    if r.Err? then Fail(r.error) else Pass
  }

  /** The error kept by `waitForAll`: an earlier failure wins over a later one. */
  function FirstFailure(earlier: Outcome<Error>, later: Outcome<Error>): (o: Outcome<Error>)
    ensures o.Pass? <==> earlier.Pass? && later.Pass?
    ensures earlier.Fail? ==> o == earlier
  {
    if earlier.Fail? then earlier else later
  }

  /**
   * `preheat(_:)`: a child task per URL, then `waitForAll`, which lets
   * every child finish and rethrows the first error. Taken one URL at a
   * time in order, every URL is looked up, whatever the earlier ones did,
   * and the outcome is the failure of the first URL whose lookup failed.
   */
  function PreheatStep(env: Environment, s: CacheState, urls: seq<Url>): (r: (Outcome<Error>, CacheState))
    ensures r.1.inflight == s.inflight
    ensures forall u :: u in s.mem ==> u in r.1.mem
    ensures s.fetches <= r.1.fetches
    decreases |urls|
  {
    if urls == [] then (Pass, s)
    else
      var first := LookupStep(env, s, urls[0]);
      var rest := PreheatStep(env, first.state, urls[1..]);
      (FirstFailure(OutcomeOf(first.result), rest.0), rest.1)
  }

  /** A lookup never makes a warm URL cold. */
  lemma LookupKeepsWarm(env: Environment, s: CacheState, url: Url, u: Url)
    requires Warm(s, u)
    ensures Warm(LookupStep(env, s, url).state, u)
  {
  }

  /**
   * A URL was looked up from state `s` and left `t`: it is warm, it was
   * requested from the network after `s`, or it shared an in-flight task
   * that had failed.
   */
  predicate Visited(s: CacheState, t: CacheState, u: Url)
    requires s.fetches <= t.fetches
  {
    Warm(t, u) || u in t.fetches[|s.fetches|..] || (u in s.inflight && s.inflight[u].Err?)
  }

  /**
   * Preheat requests every URL, whether or not it throws: afterwards each
   * URL it was given is warm, was fetched from the network, or awaited an
   * in-flight task that had failed.
   */
  lemma {:induction false} PreheatVisitsAll(env: Environment, s: CacheState, urls: seq<Url>, u: Url)
    requires u in urls
    ensures Visited(s, PreheatStep(env, s, urls).1, u)
    decreases |urls|
  {
    var first := LookupStep(env, s, urls[0]);
    var t := PreheatStep(env, first.state, urls[1..]).1;
    assert first.state.fetches <= t.fetches;
    if u == urls[0] {
      if Warm(first.state, u) {
        PreheatKeepsWarm(env, first.state, urls[1..], u);
      } else if first.tier == Network {
        assert first.state.fetches[|s.fetches|] == u;
        assert t.fetches[|s.fetches|] == u;
      }
    } else {
      assert u in urls[1..];
      PreheatVisitsAll(env, first.state, urls[1..], u);
      if Warm(t, u) {
      } else if u in t.fetches[|first.state.fetches|..] {
        var k :| |first.state.fetches| <= k < |t.fetches| && t.fetches[k] == u;
        assert t.fetches[|s.fetches|..][k - |s.fetches|] == u;
      }
    }
  }

  /**
   * After a preheat that did not throw, every URL it was given is warm, so
   * looking any of them up makes no network request.
   */
  lemma {:induction false} PreheatWarms(env: Environment, s: CacheState, urls: seq<Url>, u: Url)
    requires PreheatStep(env, s, urls).0.Pass?
    requires u in urls
    ensures Warm(PreheatStep(env, s, urls).1, u)
    ensures LookupStep(env, PreheatStep(env, s, urls).1, u).tier != Network
    decreases |urls|
  {
    var first := LookupStep(env, s, urls[0]);
    if u == urls[0] {
      assert Warm(first.state, u);
      PreheatKeepsWarm(env, first.state, urls[1..], u);
    } else {
      assert u in urls[1..];
      PreheatWarms(env, first.state, urls[1..], u);
    }
  }

  /** A preheat never makes a warm URL cold. */
  lemma {:induction false} PreheatKeepsWarm(env: Environment, s: CacheState, urls: seq<Url>, u: Url)
    requires Warm(s, u)
    ensures Warm(PreheatStep(env, s, urls).1, u)
    decreases |urls|
  {
    if urls != [] {
      var first := LookupStep(env, s, urls[0]);
      LookupKeepsWarm(env, s, urls[0], u);
      PreheatKeepsWarm(env, first.state, urls[1..], u);
    }
  }

  /** The outcome of looking up `urls[k]` after the lookups of `urls[..k]`, in order. */
  function OutcomeAt(env: Environment, s: CacheState, urls: seq<Url>, k: nat): Result<Image, Error>
    requires k < |urls|
    decreases k
  {
    var first := LookupStep(env, s, urls[0]);
    if k == 0 then first.result else OutcomeAt(env, first.state, urls[1..], k - 1)
  }

  /** The first index from `k` on whose lookup failed, searched in order. */
  function FirstFailedFrom(env: Environment, s: CacheState, urls: seq<Url>, k: nat): (r: Option<nat>)
    requires k <= |urls|
    ensures r.Some? ==> k <= r.value < |urls| && OutcomeAt(env, s, urls, r.value).Err?
    ensures r.Some? ==> forall j :: k <= j < r.value ==> OutcomeAt(env, s, urls, j).Ok?
    ensures r.None? ==> forall j :: k <= j < |urls| ==> OutcomeAt(env, s, urls, j).Ok?
    decreases |urls| - k
  {
    if k == |urls| then None
    else if OutcomeAt(env, s, urls, k).Err? then Some(k)
    else FirstFailedFrom(env, s, urls, k + 1)
  }

  /** Searching past the first URL is searching the rest from the state its lookup left. */
  lemma {:induction false} FirstFailedShift(env: Environment, s: CacheState, urls: seq<Url>, k: nat)
    requires k < |urls|
    ensures var next := LookupStep(env, s, urls[0]).state;
      FirstFailedFrom(env, s, urls, k + 1)
      == match FirstFailedFrom(env, next, urls[1..], k)
         case None => None
         case Some(i) => Some(i + 1)
    decreases |urls| - k
  {
    var next := LookupStep(env, s, urls[0]).state;
    if k + 1 < |urls| {
      assert OutcomeAt(env, s, urls, k + 1) == OutcomeAt(env, next, urls[1..], k);
      if OutcomeAt(env, s, urls, k + 1).Ok? {
        FirstFailedShift(env, s, urls, k + 1);
      }
    }
  }

  /**
   * A preheat throws exactly when some lookup failed, and then it throws
   * the error of the first URL, in order, whose lookup failed; otherwise
   * it returns normally.
   */
  lemma {:induction false} PreheatThrowsFirstFailure(env: Environment, s: CacheState, urls: seq<Url>)
    ensures PreheatStep(env, s, urls).0
         == match FirstFailedFrom(env, s, urls, 0)
            case None => Pass
            case Some(k) => Fail(OutcomeAt(env, s, urls, k).error)
    decreases |urls|
  {
    if urls != [] {
      var first := LookupStep(env, s, urls[0]);
      assert OutcomeAt(env, s, urls, 0) == first.result;
      if first.result.Ok? {
        PreheatThrowsFirstFailure(env, first.state, urls[1..]);
        FirstFailedShift(env, s, urls, 0);
        var later := FirstFailedFrom(env, first.state, urls[1..], 0);
        if later.Some? {
          assert OutcomeAt(env, s, urls, later.value + 1) == OutcomeAt(env, first.state, urls[1..], later.value);
        }
      }
    }
  }

  /**
   * A failure does not stop the URLs after it: when the first URL's
   * request throws and the second is on disk, the second is still promoted
   * to memory, and the first URL's error is thrown.
   */
  lemma FailureThenDiskHit(env: Environment, s: CacheState, u1: Url, u2: Url)
    requires u1 != u2
    requires u1 !in s.mem && !DiskHit(env, s, u1) && u1 !in s.inflight && env.network(u1).Threw?
    requires u2 !in s.mem && DiskHit(env, s, u2)
    ensures var r := PreheatStep(env, s, [u1, u2]);
      && r.0 == Fail(env.network(u1).error)
      && r.1.mem == s.mem[u2 := env.decode(s.disk[env.diskKey(u2)]).value]
      && r.1.fetches == s.fetches + [u1]
  {
    var first := LookupStep(env, s, u1);
    assert first.state == s.(fetches := s.fetches + [u1]);
    assert [u1, u2][1..] == [u2];
    var second := LookupStep(env, first.state, u2);
    assert second.state.mem == s.mem[u2 := env.decode(s.disk[env.diskKey(u2)]).value];
    assert [u2][1..] == [];
    assert PreheatStep(env, first.state, [u2]).1 == second.state;
  }

  /** The actor, with the maps the source mutates in place. */
  class ImageCache {
    var mem: map<Url, Image>
    var disk: map<string, Bytes>
    var inflight: map<Url, Result<Image, Error>>
    /** The network requests made so far. */
    ghost var fetches: seq<Url>
    const env: Environment

    ghost function State(): CacheState
      reads this
    {
      CacheState(mem, disk, inflight, fetches)
    }

    constructor(env: Environment, disk: map<string, Bytes>)
      ensures this.env == env && State() == CacheState(map[], disk, map[], [])
    {
      this.env := env;
      this.mem := map[];
      this.disk := disk;
      this.inflight := map[];
      this.fetches := [];
    }

    method ImageFor(url: Url) returns (r: Result<Image, Error>)
      modifies this
      ensures r == LookupStep(env, old(State()), url).result
      ensures State() == LookupStep(env, old(State()), url).state
    {
      if url in mem {
        return Ok(mem[url]);
      }
      var key := env.diskKey(url);
      if key in disk {
        var cached := env.decode(disk[key]);
        if cached.Some? {
          mem := mem[url := cached.value];
          return Ok(cached.value);
        }
      }
      if url in inflight {
        return inflight[url];
      }
      // the detached task
      fetches := fetches + [url];
      var transfer := env.network(url);
      var task: Result<Image, Error>;
      if transfer.Threw? {
        task := Err(transfer.error);
      } else if transfer.response.Http? && IsSuccessStatus(transfer.response.status)
             && env.decode(transfer.data).Some? {
        if env.diskWritable {
          disk := disk[key := transfer.data];
        }
        task := Ok(env.decode(transfer.data).value);
      } else {
        task := Err(Api(ApiDecoding));
      }
      ghost var before := inflight;
      inflight := inflight[url := task];
      if task.Ok? {
        mem := mem[url := task.value];
      }
      // `defer { inflight[url] = nil }`
      inflight := inflight - {url};
      assert inflight == before;
      return task;
    }

    /** `preheat(_:)`: every URL is looked up in order; the first error is kept and returned once all have run. */
    method Preheat(urls: seq<Url>) returns (r: Outcome<Error>)
      modifies this
      ensures (r, State()) == PreheatStep(env, old(State()), urls)
    {
      r := Pass;
      var i := 0;
      while i < |urls|
        invariant 0 <= i <= |urls|
        invariant var rest := PreheatStep(env, State(), urls[i..]);
          (FirstFailure(r, rest.0), rest.1) == PreheatStep(env, old(State()), urls)
      {
        assert urls[i..][1..] == urls[i + 1..];
        var one := ImageFor(urls[i]);
        r := FirstFailure(r, OutcomeOf(one));
        i := i + 1;
      }
    }

    method Seed(img: Image, url: Url)
      modifies this
      ensures State() == SeedStep(old(State()), url, img)
    {
      mem := mem[url := img];
    }
  }
}
