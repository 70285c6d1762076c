/** The cache of the live channel list: one shared read at a time, a lifetime of 30 seconds, and
    a generation number that fences reads started before an invalidation.

    Each fetch is numbered in order of its start. The server's content is a version counter: a
    fetch sees the version current at some moment between its start and its reply. */
module ChannelCache {
  import opened Wrappers

  const CACHE_TTL_MS := 30000

  type Fetch = nat
  type Version = nat

  datatype Stage = Pending | Replied | Failed
  /** One connection that reads the list. `generation` is the one it captured; when it replied is
      for the statements only. */
  datatype Read = Read(generation: nat, seen: Option<Version>, stage: Stage, closed: bool, repliedAt: Option<nat>)
  datatype Cached = Cached(data: Version, expiresAt: nat, source: Fetch)

  /** The service's three fields, and the reads, server and clock around them. */
  datatype Cache = Cache(
    cachedResult: Option<Cached>,
    inFlightFetch: Option<Fetch>,
    cacheGeneration: nat,
    fetches: seq<Read>,
    version: Version,
    now: nat,
    fence: Version)        // the server's version at the last invalidation

  const EMPTY := Cache(None, None, 0, [], 0, 0, 0)

  datatype Event =
    | Calls                    // fetchLiveChannels
    | Looks(f: Fetch)          // the server answers the list command
    | Replies(f: Fetch)        // the `then` callback runs
    | Breaks(f: Fetch)         // the connection fails
    | Closes(f: Fetch)         // the `finally` callback runs
    | Invalidates
    | Edits                    // the server's channels change
    | Ticks(ms: nat)

  /** What a call gets: the cached list, or the promise of a read. */
  datatype Answer = Served(data: Version) | Joined(f: Fetch)

  predicate Hit(c: Cache) {
    c.cachedResult.Some? && c.cachedResult.value.expiresAt > c.now
  }

  function AnswerOf(c: Cache): Answer {
    if Hit(c) then Served(c.cachedResult.value.data)
    else Joined(if c.inFlightFetch.Some? then c.inFlightFetch.value else |c.fetches|)
  }

  function Call(c: Cache): Cache {
    if Hit(c) || c.inFlightFetch.Some? then c
    else c.(fetches := c.fetches + [Read(c.cacheGeneration, None, Pending, false, None)], inFlightFetch := Some(|c.fetches|))
  }

  function Reply(c: Cache, f: Fetch): Cache
    requires f < |c.fetches| && c.fetches[f].seen.Some?
  {
    var c' := c.(fetches := c.fetches[f := c.fetches[f].(stage := Replied, repliedAt := Some(c.now))]);
    if c.fetches[f].generation != c.cacheGeneration then c'
    else c'.(cachedResult := Some(Cached(c.fetches[f].seen.value, c.now + CACHE_TTL_MS, f)))
  }

  function Close(c: Cache, f: Fetch): Cache
    requires f < |c.fetches|
  {
    c.(fetches := c.fetches[f := c.fetches[f].(closed := true)],
       inFlightFetch := if c.inFlightFetch == Some(f) then None else c.inFlightFetch)
  }

  function Invalidate(c: Cache): Cache {
    c.(cacheGeneration := c.cacheGeneration + 1, cachedResult := None, inFlightFetch := None, fence := c.version)
  }

  predicate Enabled(c: Cache, e: Event) {
    match e
    case Looks(f) => f < |c.fetches| && c.fetches[f].stage == Pending && c.fetches[f].seen == None
    case Replies(f) => f < |c.fetches| && c.fetches[f].stage == Pending && c.fetches[f].seen.Some?
    case Breaks(f) => f < |c.fetches| && c.fetches[f].stage == Pending
    case Closes(f) => f < |c.fetches| && c.fetches[f].stage != Pending && !c.fetches[f].closed
    case _ => true
  }

  function Step(c: Cache, e: Event): Cache {
    if !Enabled(c, e) then c
    else match e
      case Calls => Call(c)
      case Looks(f) => c.(fetches := c.fetches[f := c.fetches[f].(seen := Some(c.version))])
      case Replies(f) => Reply(c, f)
      case Breaks(f) => c.(fetches := c.fetches[f := c.fetches[f].(stage := Failed)])
      case Closes(f) => Close(c, f)
      case Invalidates => Invalidate(c)
      case Edits => c.(version := c.version + 1)
      case Ticks(ms) => c.(now := c.now + ms)
  }

  function Run(c: Cache, events: seq<Event>): Cache {
    if events == [] then c else Step(Run(c, events[..|events| - 1]), events[|events| - 1])
  }

  // ------------------------------------------------------------ what every step keeps

  predicate ReadInv(c: Cache, f: Fetch)
    requires f < |c.fetches|
  {
    var r := c.fetches[f];
    && r.generation <= c.cacheGeneration
    && (r.seen.Some? ==> r.seen.value <= c.version)
    && (r.stage == Replied ==> r.seen.Some?)
    && (r.closed ==> r.stage != Pending)
    // a read of the current generation began after the last invalidation
    && (r.generation == c.cacheGeneration && r.seen.Some? ==> c.fence <= r.seen.value)
    // its reply is cached as long as it is fresh
    && (r.repliedAt.Some? <==> r.stage == Replied)
    && (r.repliedAt.Some? ==> r.repliedAt.value <= c.now)
    && (r.generation == c.cacheGeneration && r.repliedAt.Some? ==>
          c.cachedResult.Some? && r.repliedAt.value + CACHE_TTL_MS <= c.cachedResult.value.expiresAt)
    // and it is the one everybody shares until it is closed
    && (r.generation == c.cacheGeneration && !r.closed ==> c.inFlightFetch == Some(f))
  }

  predicate Inv(c: Cache) {
    && c.fence <= c.version
    && (forall f :: 0 <= f < |c.fetches| ==> ReadInv(c, f))
    && (c.inFlightFetch.Some? ==>
          && c.inFlightFetch.value < |c.fetches|
          && c.fetches[c.inFlightFetch.value].generation == c.cacheGeneration
          && !c.fetches[c.inFlightFetch.value].closed)
    && (c.cachedResult.Some? ==> CachedInv(c, c.cachedResult.value))
  }

  /** What is cached is what a successful read of this generation saw. */
  predicate CachedInv(c: Cache, cached: Cached) {
    && cached.source < |c.fetches|
    && var r := c.fetches[cached.source];
      && r.generation == c.cacheGeneration && r.seen == Some(cached.data) && r.stage == Replied
      && r.repliedAt.Some? && cached.expiresAt == r.repliedAt.value + CACHE_TTL_MS
  }

  lemma StepInv(c: Cache, e: Event)
    requires Inv(c)
    ensures Inv(Step(c, e))
  {
    if e.Replies? {
      ReplyInv(c, e.f);
    } else {
      var c' := Step(c, e);
      forall f | 0 <= f < |c'.fetches| ensures ReadInv(c', f) {
        assert f < |c.fetches| ==> ReadInv(c, f);
      }
    }
  }

  lemma ReplyInv(c: Cache, f: Fetch)
    requires Inv(c)
    ensures Inv(Step(c, Replies(f)))
  {
    var c' := Step(c, Replies(f));
    forall g | 0 <= g < |c'.fetches| ensures ReadInv(c', g) {
      assert ReadInv(c, g);
    }
  }

  lemma {:induction false} RunInv(c: Cache, events: seq<Event>)
    requires Inv(c)
    ensures Inv(Run(c, events))
  {
    if events != [] {
      RunInv(c, events[..|events| - 1]);
      StepInv(Run(c, events[..|events| - 1]), events[|events| - 1]);
    }
  }

  ghost predicate Reachable(c: Cache) {
    exists events :: c == Run(EMPTY, events)
  }

  lemma ReachableInv(c: Cache)
    requires Reachable(c)
    ensures Inv(c)
  {
    var events :| c == Run(EMPTY, events);
    RunInv(EMPTY, events);
  }

  // ------------------------------------------------------------ the promises

  /** Fencing: a call never returns channels read before the last invalidation that preceded
      it, in whatever order reads reply, fail or close afterwards. */
  lemma NeverStale(c: Cache, later: seq<Event>)
    requires Reachable(c)
    ensures AnswerOf(c).Served? ==> AnswerOf(c).data >= c.fence
    ensures AnswerOf(c).Joined? ==>
              var fetches := Run(Step(c, Calls), later).fetches;
              AnswerOf(c).f < |fetches| && (fetches[AnswerOf(c).f].seen.Some? ==> fetches[AnswerOf(c).f].seen.value >= c.fence)
  {
    ReachableInv(c);
    if Hit(c) {
      assert ReadInv(c, c.cachedResult.value.source);
    } else {
      StepInv(c, Calls);
      assert ReadInv(Step(c, Calls), AnswerOf(c).f);
      SeenLate(Step(c, Calls), later, AnswerOf(c).f);
    }
  }

  /** A read sees what it saw, or something no older than now. */
  lemma {:induction false} SeenLate(c: Cache, later: seq<Event>, f: Fetch)
    requires f < |c.fetches|
    ensures var c' := Run(c, later);
      && f < |c'.fetches| && c.version <= c'.version
      && (c.fetches[f].seen.Some? ==> c'.fetches[f].seen == c.fetches[f].seen)
      && (c'.fetches[f].seen.Some? ==> c'.fetches[f].seen == c.fetches[f].seen || c'.fetches[f].seen.value >= c.version)
  {
    if later != [] {
      SeenLate(c, later[..|later| - 1], f);
    }
  }

  /** So an edit is visible to every call made after the invalidation that follows it. */
  lemma OwnEditsVisible(c: Cache, between: seq<Event>, later: seq<Event>)
    requires Reachable(c)
    ensures var edited := Step(c, Edits);
      var returned := Step(Run(edited, between), Invalidates);
      && (AnswerOf(returned).Served? ==> AnswerOf(returned).data >= edited.version)
      && (AnswerOf(returned).Joined? ==>
            var fetches := Run(Step(returned, Calls), later).fetches;
            AnswerOf(returned).f < |fetches|
            && (fetches[AnswerOf(returned).f].seen.Some? ==> fetches[AnswerOf(returned).f].seen.value >= edited.version))
  {
    var events :| c == Run(EMPTY, events);
    var edited := Step(c, Edits);
    RunAppend(EMPTY, events, [Edits]);
    RunAppend(EMPTY, events + [Edits], between);
    RunAppend(EMPTY, events + [Edits] + between, [Invalidates]);
    VersionGrows(edited, between);
    NeverStale(Step(Run(edited, between), Invalidates), later);
  }

  lemma {:induction false} VersionGrows(c: Cache, events: seq<Event>)
    ensures c.version <= Run(c, events).version
  {
    if events != [] {
      VersionGrows(c, events[..|events| - 1]);
    }
  }

  lemma {:induction false} RunAppend(c: Cache, a: seq<Event>, b: seq<Event>)
    ensures Run(c, a + b) == Run(Run(c, a), b)
  {
    if b == [] {
      assert a + b == a;
    } else {
      assert (a + b)[..|a + b| - 1] == a + b[..|b| - 1];
      RunAppend(c, a, b[..|b| - 1]);
    }
  }

  /** At most one read of the current generation is under way. */
  lemma OneRead(c: Cache, f: Fetch, g: Fetch)
    requires Reachable(c) && f < |c.fetches| && g < |c.fetches|
    requires c.fetches[f].stage == Pending && c.fetches[f].generation == c.cacheGeneration
    requires c.fetches[g].stage == Pending && c.fetches[g].generation == c.cacheGeneration
    ensures f == g
  {
    ReachableInv(c);
    assert ReadInv(c, f) && ReadInv(c, g);
  }

  /** Failures are never cached: what is served is what a read saw that succeeded. */
  lemma OnlySuccessIsServed(c: Cache)
    requires Reachable(c) && AnswerOf(c).Served?
    ensures var source := c.cachedResult.value.source;
      source < |c.fetches| && c.fetches[source].stage == Replied && c.fetches[source].seen == Some(AnswerOf(c).data)
  {
    ReachableInv(c);
  }

  /** Read `f` replied less than 30 seconds ago, and nothing was invalidated since it began. */
  predicate FreshReply(c: Cache, f: Fetch) {
    && f < |c.fetches| && c.fetches[f].generation == c.cacheGeneration
    && c.fetches[f].repliedAt.Some? && c.fetches[f].repliedAt.value <= c.now < c.fetches[f].repliedAt.value + CACHE_TTL_MS
  }

  /** A call is served from the cache exactly while some reply is fresh, with the list of one
      that is: no snapshot is served 30 seconds after its reply, or after an invalidation. */
  lemma ServedFor30s(c: Cache)
    requires Reachable(c)
    ensures AnswerOf(c).Served? <==> exists f :: FreshReply(c, f)
    ensures AnswerOf(c).Served? ==>
              FreshReply(c, c.cachedResult.value.source) && c.fetches[c.cachedResult.value.source].seen == Some(AnswerOf(c).data)
  {
    ReachableInv(c);
    if AnswerOf(c).Served? {
      assert ReadInv(c, c.cachedResult.value.source);
      assert FreshReply(c, c.cachedResult.value.source);
    }
    if f :| FreshReply(c, f) {
      assert ReadInv(c, f);
    }
  }

  // ------------------------------------------------------------ the service

  /** The service itself. `log` is what happens around its fields. */
  class TeamSpeakChannelsService {
    var cachedResult: Option<Cached>
    var inFlightFetch: Option<Fetch>
    var cacheGeneration: nat
    ghost var log: Cache

    ghost predicate Valid()
      reads this
    {
      && log.cachedResult == cachedResult && log.inFlightFetch == inFlightFetch
      && log.cacheGeneration == cacheGeneration && Inv(log)
    }

    constructor ()
      ensures Valid() && log == EMPTY
    {
      cachedResult, inFlightFetch, cacheGeneration, log := None, None, 0, EMPTY;
    }

    /** `next` is the number of the read to be started, if one is. */
    method FetchLiveChannels(now: nat, next: Fetch) returns (answer: Answer)
      requires Valid() && now == log.now && next == |log.fetches|
      modifies this
      ensures Valid() && answer == AnswerOf(old(log)) && log == Step(old(log), Calls)
    {
      StepInv(log, Calls);
      if cachedResult.Some? && cachedResult.value.expiresAt > now {
        answer := Served(cachedResult.value.data);
      } else {
        if inFlightFetch.None? {
          inFlightFetch := Some(next);
        }
        answer := Joined(inFlightFetch.value);
      }
      log := Step(log, Calls);
    }

    /** The `then` callback: `generation` is what the read captured when it started. */
    method OnReply(f: Fetch, generation: nat, result: Version, now: nat)
      requires Valid() && Enabled(log, Replies(f)) && now == log.now
      requires generation == log.fetches[f].generation && Some(result) == log.fetches[f].seen
      modifies this
      ensures Valid() && log == Step(old(log), Replies(f))
    {
      StepInv(log, Replies(f));
      if generation == cacheGeneration {
        cachedResult := Some(Cached(result, now + CACHE_TTL_MS, f));
      }
      log := Step(log, Replies(f));
    }

    /** The `finally` callback. */
    method OnSettled(f: Fetch)
      requires Valid() && Enabled(log, Closes(f))
      modifies this
      ensures Valid() && log == Step(old(log), Closes(f))
    {
      StepInv(log, Closes(f));
      if inFlightFetch == Some(f) {
        inFlightFetch := None;
      }
      log := Step(log, Closes(f));
    }

    method InvalidateCache()
      requires Valid()
      modifies this
      ensures Valid() && log == Step(old(log), Invalidates)
    {
      StepInv(log, Invalidates);
      cacheGeneration := cacheGeneration + 1;
      cachedResult := None;
      inFlightFetch := None;
      log := Step(log, Invalidates);
    }

    /** Anything else that happens leaves the service's fields alone. */
    ghost method Elsewhere(e: Event)
      requires Valid() && (e.Looks? || e.Breaks? || e.Edits? || e.Ticks?)
      modifies this`log
      ensures Valid() && log == Step(old(log), e)
    {
      StepInv(log, e);
      log := Step(log, e);
    }
  }
}
