/** What the middleware does to a whole stream of requests. */
module RateLimitTraffic {
  import opened Foundations
  import opened RateLimit

  datatype Tier = Auth | Global

  datatype Config = Config(auth: Limits, global: Limits, authPathPrefixes: seq<string>, exemptPaths: set<string>)

  datatype Hit = Hit(path: string, ip: string, now: real)

  /** The limiter a path is counted by, if any. */
  function TierOf(config: Config, path: string): Option<Tier> {
    if path in config.exemptPaths then None
    else if exists prefix | prefix in config.authPathPrefixes :: prefix <= path then Some(Auth)
    else Some(Global)
  }

  function LimitsOf(config: Config, tier: Tier): Limits {
    if tier == Auth then config.auth else config.global
  }

  function KeyOf(tier: Tier, ip: string): string {
    (if tier == Auth then "auth:" else "global:") + ip
  }

  /** The calls that a stream of requests makes on one tier's limiter. */
  function TierCalls(config: Config, hits: seq<Hit>, tier: Tier): seq<Call> {
    if hits == [] then []
    else
      var hit := hits[|hits| - 1];
      TierCalls(config, hits[..|hits| - 1], tier)
        + (if TierOf(config, hit.path) == Some(tier) then [Call(KeyOf(tier, hit.ip), hit.now)] else [])
  }

  /** The answer to a request after a stream of others. */
  function Verdict(config: Config, hits: seq<Hit>, hit: Hit): Answer {
    match TierOf(config, hit.path)
    case None => Answer(true, 0.0)
    case Some(tier) =>
      AnswerTo(TierCalls(config, hits, tier), Call(KeyOf(tier, hit.ip), hit.now), LimitsOf(config, tier))
  }

  predicate Answers(response: Response, answer: Answer) {
    && (response == Forwarded <==> answer.allowed)
    && (response.TooManyRequests? ==>
          answer.retryAfter < response.retryAfterHeader as real <= answer.retryAfter + 1.0)
  }

  lemma OneMoreHit(config: Config, hits: seq<Hit>, hit: Hit, tier: Tier)
    ensures TierCalls(config, hits + [hit], tier) == TierCalls(config, hits, tier) +
      (if TierOf(config, hit.path) == Some(tier) then [Call(KeyOf(tier, hit.ip), hit.now)] else [])
  {
    assert (hits + [hit])[..|hits|] == hits;
  }

  lemma OneMoreCall(h: seq<Call>, call: Call, limits: Limits)
    ensures After(h + [call], limits) ==
      After(h, limits)[call.key := CheckWindow(WindowOf(After(h, limits), call.key), call.now, limits).0]
  {
    assert (h + [call])[..|h|] == h;
  }

  /** The tables of both limiters after one more request. */
  lemma TablesFollow(config: Config, hits: seq<Hit>, hit: Hit, tier: Tier)
    ensures var limits, before := LimitsOf(config, tier), TierCalls(config, hits, tier);
      After(TierCalls(config, hits + [hit], tier), limits) ==
        if TierOf(config, hit.path) == Some(tier)
        then After(before, limits)[KeyOf(tier, hit.ip) :=
               CheckWindow(WindowOf(After(before, limits), KeyOf(tier, hit.ip)), hit.now, limits).0]
        else After(before, limits)
  {
    hide After, CheckWindow, KeyOf, TierOf;
    OneMoreHit(config, hits, hit, tier);
    OneMoreCall(TierCalls(config, hits, tier), Call(KeyOf(tier, hit.ip), hit.now), LimitsOf(config, tier));
    assert TierCalls(config, hits, tier) + [] == TierCalls(config, hits, tier);
  }

  /** Every request of a stream, through one middleware over two fresh limiters, gets its verdict. */
  method Serve(config: Config, hits: seq<Hit>) returns (responses: seq<Response>)
    requires Accepted(config.auth) && Accepted(config.global)
    ensures |responses| == |hits|
    ensures forall i | 0 <= i < |hits| :: Answers(responses[i], Verdict(config, hits[..i], hits[i]))
  {
    hide After, CheckWindow, TierCalls;
    var auth := new InMemoryRateLimiter(config.auth);
    var global := new InMemoryRateLimiter(config.global);
    var middleware := new RateLimitMiddleware(global, auth, config.authPathPrefixes, config.exemptPaths);
    responses := [];
    NoTablesYet(config);
    for n := 0 to |hits|
      invariant |responses| == n
      invariant forall i | 0 <= i < n :: Answers(responses[i], Verdict(config, hits[..i], hits[i]))
      invariant auth.windows == After(TierCalls(config, hits[..n], Auth), config.auth)
      invariant global.windows == After(TierCalls(config, hits[..n], Global), config.global)
    {
      var hit := hits[n];
      assert hits[..n + 1] == hits[..n] + [hit];
      TablesFollow(config, hits[..n], hit, Auth);
      TablesFollow(config, hits[..n], hit, Global);
      var response := middleware.Dispatch(hit.path, hit.ip, hit.now);
      responses := responses + [response];
    }
  }

  lemma NoTablesYet(config: Config)
    ensures After(TierCalls(config, [], Auth), config.auth) == map[]
    ensures After(TierCalls(config, [], Global), config.global) == map[]
  {
  }

  // ---------------------------------------------------------------------------
  // What a stream can get through

  /** The requests of one tier and address. */
  predicate Mine(config: Config, hit: Hit, tier: Tier, ip: string) {
    TierOf(config, hit.path) == Some(tier) && hit.ip == ip
  }

  function MyTimes(config: Config, hits: seq<Hit>, tier: Tier, ip: string): seq<real> {
    if hits == [] then []
    else
      var hit := hits[|hits| - 1];
      MyTimes(config, hits[..|hits| - 1], tier, ip) + (if Mine(config, hit, tier, ip) then [hit.now] else [])
  }

  /** When the middleware let a request of that tier and address through. */
  function ForwardedTimes(config: Config, hits: seq<Hit>, tier: Tier, ip: string): seq<real> {
    if hits == [] then []
    else
      var front, hit := hits[..|hits| - 1], hits[|hits| - 1];
      ForwardedTimes(config, front, tier, ip)
        + (if Mine(config, hit, tier, ip) && Verdict(config, front, hit).allowed then [hit.now] else [])
  }

  lemma KeysNameAddresses(tier: Tier, ip: string, other: string)
    ensures KeyOf(tier, ip) == KeyOf(tier, other) <==> ip == other
  {
    var prefix := if tier == Auth then "auth:" else "global:";
    assert KeyOf(tier, ip)[|prefix|..] == ip && KeyOf(tier, other)[|prefix|..] == other;
  }

  /** Calls under a key of one tier are exactly the requests of that tier and address. */
  lemma {:induction false} CallsAreMine(config: Config, hits: seq<Hit>, tier: Tier, ip: string)
    ensures Times(TierCalls(config, hits, tier), KeyOf(tier, ip)) == MyTimes(config, hits, tier, ip)
    ensures AllowedTimes(TierCalls(config, hits, tier), KeyOf(tier, ip), LimitsOf(config, tier)) ==
      ForwardedTimes(config, hits, tier, ip)
  {
    if hits != [] {
      var front, hit := hits[..|hits| - 1], hits[|hits| - 1];
      CallsAreMine(config, front, tier, ip);
      KeysNameAddresses(tier, ip, hit.ip);
      var before := TierCalls(config, front, tier);
      if TierOf(config, hit.path) == Some(tier) {
        var call := Call(KeyOf(tier, hit.ip), hit.now);
        assert (before + [call])[..|before|] == before;
      } else {
        assert before + [] == before;
      }
    }
  }

  predicate InOrder(hits: seq<Hit>) {
    forall i, j | 0 <= i < j < |hits| :: hits[i].now <= hits[j].now
  }

  lemma {:induction false} MyTimesInOrder(config: Config, hits: seq<Hit>, tier: Tier, ip: string)
    requires InOrder(hits)
    ensures Ordered(MyTimes(config, hits, tier, ip))
    ensures forall t | t in MyTimes(config, hits, tier, ip) :: hits != [] && t <= hits[|hits| - 1].now
  {
    if hits != [] {
      var front, last := hits[..|hits| - 1], hits[|hits| - 1];
      MyTimesInOrder(config, front, tier, ip);
      var times := MyTimes(config, front, tier, ip);
      assert forall t | t in times :: t <= last.now by {
        if front != [] {
          assert front[|front| - 1].now <= last.now;
        }
      }
      assert forall i | 0 <= i < |times| :: times[i] in times;
    }
  }

  /** Through the middleware, over any stream in time order, one address gets at most
      max * (ceil(L / window) + 1) - 1 requests of one tier forwarded in any interval of length L. */
  lemma ForwardedInAnyInterval(config: Config, hits: seq<Hit>, tier: Tier, ip: string, a: real, length: real)
    requires Accepted(LimitsOf(config, tier)) && InOrder(hits) && length > 0.0
    ensures var limits := LimitsOf(config, tier);
      Count(ForwardedTimes(config, hits, tier, ip), Within(a, a + length))
        <= limits.maxRequests * (Ceil(length / limits.windowSeconds) + 1) - 1
  {
    hide Count, Within, Ceil, Ordered;
    CallsAreMine(config, hits, tier, ip);
    MyTimesInOrder(config, hits, tier, ip);
    AllowedInAnyInterval(TierCalls(config, hits, tier), KeyOf(tier, ip), a, length, LimitsOf(config, tier));
  }

  /** A request is refused exactly when it is not exempt and its tier and address have had the maximum
      forwarded since their live window opened. */
  lemma RefusedExactly(config: Config, hits: seq<Hit>, hit: Hit)
    requires Accepted(config.auth) && Accepted(config.global)
    ensures !Verdict(config, hits, hit).allowed <==>
      exists tier | TierOf(config, hit.path) == Some(tier) ::
        var limits, log := LimitsOf(config, tier), ForwardedTimes(config, hits, tier, hit.ip);
        && log != []
        && hit.now < log[Opener(log, limits.windowSeconds)] + limits.windowSeconds
        && |log| - Opener(log, limits.windowSeconds) >= limits.maxRequests
  {
    match TierOf(config, hit.path)
    case None =>
    case Some(tier) =>
      var calls, call, limits := TierCalls(config, hits, tier), Call(KeyOf(tier, hit.ip), hit.now), LimitsOf(config, tier);
      CallsAreMine(config, hits, tier, hit.ip);
      AllowedTimesAreTheLog(calls, call.key, limits);
      AnswersDependOnOwnCallsOnly(calls, calls, call, limits);
      hide Opener, LogAfter, AnswerTo, TierCalls, ForwardedTimes, AllowedTimes;
  }

  /** Requests of other addresses and tiers never matter. */
  lemma OthersNeverMatter(config: Config, hits: seq<Hit>, other: seq<Hit>, hit: Hit, tier: Tier)
    requires Accepted(config.auth) && Accepted(config.global) && TierOf(config, hit.path) == Some(tier)
    requires MyTimes(config, hits, tier, hit.ip) == MyTimes(config, other, tier, hit.ip)
    ensures Verdict(config, hits, hit) == Verdict(config, other, hit)
  {
    CallsAreMine(config, hits, tier, hit.ip);
    CallsAreMine(config, other, tier, hit.ip);
    AnswersDependOnOwnCallsOnly(TierCalls(config, hits, tier), TierCalls(config, other, tier),
                                Call(KeyOf(tier, hit.ip), hit.now), LimitsOf(config, tier));
  }

  /** Which limiter counts a path: none for an exempt one, the strict one exactly for a listed prefix. */
  lemma TierExactly(config: Config, path: string)
    ensures TierOf(config, path) == None <==> path in config.exemptPaths
    ensures TierOf(config, path) == Some(Auth) <==>
      && path !in config.exemptPaths
      && exists prefix | prefix in config.authPathPrefixes :: |prefix| <= |path| && path[..|prefix|] == prefix
  {
    forall prefix | prefix in config.authPathPrefixes
      ensures prefix <= path <==> |prefix| <= |path| && path[..|prefix|] == prefix
    {
    }
  }

  /** With one request a minute, the second within the minute is refused and told when to come back. */
  lemma SecondRequestIsRefused(path: string, ip: string)
    ensures var config := Config(Limits(1, 60.0), Limits(1, 60.0), ["/auth/"], {"/health/live"});
      var first, second := Hit("/x", ip, 0.0), Hit("/x", ip, 0.0);
      Verdict(config, [], first).allowed && Verdict(config, [first], second) == Answer(false, 60.0)
  {
    var config := Config(Limits(1, 60.0), Limits(1, 60.0), ["/auth/"], {"/health/live"});
    var first := Hit("/x", ip, 0.0);
    assert |"/x"| == 2 && |"/auth/"| == 6 && |"/health/live"| == 12;
    assert TierOf(config, "/x") == Some(Global);
    OneMoreHit(config, [], first, Global);
    assert [] + [first] == [first];
    var call := Call(KeyOf(Global, ip), 0.0);
    assert TierCalls(config, [first], Global) == [call];
    OneMoreCall([], call, config.global);
    assert [] + [call] == [call];
    assert After([call], config.global) == map[call.key := Window(0.0, 1)];
  }
}
