/**
 * The `GET` handler of the recommendations route: seed validation, query
 * building, the request with the user's or the app's token, the two retries
 * (the app token after a 401 with a user token; then, when the latest status
 * is not 200 and the seed is not already `pop`, seed `pop`), track flattening,
 * and the YouTube fallback.
 *
 * The catalog is an oracle from request to reply, and the app-token provider
 * a single outcome (the handler asks it at most once).
 */
module Recommendations {
  import opened Wrappers
  import opened Text
  import opened Seeds
  import opened MoodTargets
  import opened QueryParams
  import opened Tracks
  import opened Fallback

  const RecommendationsBase: string := "https://api.spotify.com/v1/recommendations?"
  const DefaultMood: string := "blij"
  const ResultLimit: string := "8"

  datatype TokenKind = UserToken | AppToken

  /** One catalog request: the bearer token (and which kind it is) and the query. */
  datatype Request = Request(kind: TokenKind, token: string, query: seq<Param>)

  /** The URL a request fetches. */
  function Url(r: Request): string
  {
    RecommendationsBase + Serialize(r.query)
  }

  /** The fetched URL is the endpoint followed by a query that parses back to the request's pairs. */
  lemma UrlDecodes(r: Request)
    ensures RecommendationsBase <= Url(r)
    ensures DecodeQuery(Url(r)[|RecommendationsBase|..]) == r.query
  {
    assert Url(r)[|RecommendationsBase|..] == Serialize(r.query);
    SerializeDecodes(r.query);
  }

  /**
   * The first URL starts with the validated seed and the limit, unescaped: every
   * allowed seed is made of characters the form encoding keeps.
   */
  lemma FirstUrlPrefix(seed: string, t: Targets, kind: TokenKind, token: string)
    requires seed in AllowedSeeds
    ensures RecommendationsBase + ("seed_genres" + "=" + seed + "&" + "limit" + "=" + ResultLimit)
            <= Url(Request(kind, token, InitialQuery(seed, t)))
  {
    SeedKept(seed);
    UrlPrefixOfKeptSeed(seed, t, kind, token);
  }

  /** An allowed seed needs no escaping. */
  lemma SeedKept(seed: string)
    requires seed in AllowedSeeds
    ensures FormEncode(seed) == seed
  {
    AllPlain(seed);
    EscapeUnreserved(seed, true);
  }

  lemma UrlPrefixOfKeptSeed(seed: string, t: Targets, kind: TokenKind, token: string)
    requires FormEncode(seed) == seed
    ensures RecommendationsBase + ("seed_genres" + "=" + seed + "&" + "limit" + "=" + ResultLimit)
            <= Url(Request(kind, token, InitialQuery(seed, t)))
  {
    var r := Request(kind, token, InitialQuery(seed, t));
    assert r.query[0] == ("seed_genres", seed) && r.query[1] == ("limit", ResultLimit);
    assert FormEncode(r.query[0].0) == r.query[0].0 && FormEncode(r.query[1].0) == r.query[1].0
        && FormEncode(r.query[1].1) == r.query[1].1 by {
      FixedNamesKept();
    }
    UrlStartsWith(r);
  }

  /** A URL whose first two pairs need no escaping shows those two pairs, as written, after the endpoint. */
  lemma UrlStartsWith(r: Request)
    requires |r.query| >= 2
    requires FormEncode(r.query[0].0) == r.query[0].0 && FormEncode(r.query[0].1) == r.query[0].1
    requires FormEncode(r.query[1].0) == r.query[1].0 && FormEncode(r.query[1].1) == r.query[1].1
    ensures RecommendationsBase + (r.query[0].0 + "=" + r.query[0].1 + "&" + r.query[1].0 + "=" + r.query[1].1)
            <= Url(r)
  {
    SerializeStartsWith(r.query);
    PrefixAfter(RecommendationsBase, r.query[0].0 + "=" + r.query[0].1 + "&" + r.query[1].0 + "=" + r.query[1].1,
                Serialize(r.query));
  }

  /** The two fixed names and the limit need no escaping. */
  lemma FixedNamesKept()
    ensures FormEncode("seed_genres") == "seed_genres"
    ensures FormEncode("limit") == "limit"
    ensures FormEncode(ResultLimit) == ResultLimit
  {
    NameKept("seed_genres");
    NameKept("limit");
    NameKept(ResultLimit);
  }

  lemma NameKept(name: string)
    requires name == "seed_genres" || name == "limit" || name == ResultLimit
    ensures FormEncode(name) == name
  {
    assert forall i :: 0 <= i < |name| ==> FormUnreserved(name[i]);
    EscapeUnreserved(name, true);
  }

  lemma PrefixAfter(base: string, a: string, b: string)
    requires a <= b
    ensures base + a <= base + b
  {
    assert (base + b)[..|base + a|] == base + b[..|a|];
  }

  /**
   * The catalog's answer: `fetch` rejected, or a status with the body's track
   * list (None when the body is not JSON or has no `tracks` array).
   */
  datatype Reply = NetworkError | Http(status: int, body: Option<seq<RawTrack>>)

  /** What the handler answers. */
  datatype HandlerResult =
    | Rejected  // the app-token call before the try block failed: the handler itself rejects
    | Recommended(mood: string, source: string, tracks: seq<Track>)
    | YoutubeFallback(payload: FallbackPayload)

  /** `searchParams.get('mood')?.toLowerCase() || 'blij'`. */
  function MoodOf(moodParam: Option<string>): (m: string)
    ensures m != ""
    ensures moodParam.Some? && moodParam.value != "" ==> m == ToLower(moodParam.value)
    ensures moodParam.None? || moodParam.value == "" ==> m == DefaultMood
  {
    if moodParam.Some? && ToLower(moodParam.value) != "" then ToLower(moodParam.value) else DefaultMood
  }

  /** A JavaScript string is truthy when it is not empty. */
  predicate Truthy(s: Option<string>)
  {
    s.Some? && s.value != ""
  }

  /** `res.ok`. */
  predicate IsOk(status: int)
  {
    200 <= status <= 299
  }

  function SourceTag(userAccessToken: Option<string>): string
  {
    if Truthy(userAccessToken) then "spotify-user" else "spotify-app"
  }

  /** The query of the first request: the seed, the limit, then the mood's defined targets. */
  function InitialQuery(seed: string, t: Targets): seq<Param>
  {
    [("seed_genres", seed), ("limit", ResultLimit)] + TargetParams(t)
  }

  /** The query of the `pop` retry. */
  function PopQuery(q: seq<Param>): seq<Param>
  {
    SetEntry(q, "seed_genres", DefaultSeed)
  }

  /** The app-token retry is due: a 401 while a (non-empty) user token was used. */
  predicate AppRetryDue(userAccessToken: Option<string>, r: Reply)
  {
    r.Http? && r.status == 401 && Truthy(userAccessToken)
  }

  /** The `pop` retry is due: any status but 200 while the seed is not yet `pop`. */
  predicate PopRetryDue(seed: string, r: Reply)
  {
    r.Http? && r.status != 200 && seed != DefaultSeed
  }

  // ---------------------------------------------------------------------------
  // The query

  lemma NamesAppend(a: seq<Param>, b: seq<Param>)
    ensures Names(a + b) == Names(a) + Names(b)
  {
  }

  lemma NamesOfOptional(name: string, v: Option<Hundredths>)
    ensures Names(OptionalParam(name, v)) == if v.Some? then [name] else []
  {
  }

  /** The names of the target parameters are the names of the defined fields, in field order. */
  lemma TargetNames(t: Targets)
    ensures Names(TargetParams(t)) ==
      (if t.targetValence.Some? then ["target_valence"] else [])
      + (if t.targetEnergy.Some? then ["target_energy"] else [])
      + (if t.minValence.Some? then ["min_valence"] else [])
      + (if t.maxValence.Some? then ["max_valence"] else [])
      + (if t.minEnergy.Some? then ["min_energy"] else [])
      + (if t.maxEnergy.Some? then ["max_energy"] else [])
      + (if t.minDanceability.Some? then ["min_danceability"] else [])
  {
    var o1, o2, o3, o4, o5, o6, o7 :=
      OptionalParam("target_valence", t.targetValence),
      OptionalParam("target_energy", t.targetEnergy),
      OptionalParam("min_valence", t.minValence),
      OptionalParam("max_valence", t.maxValence),
      OptionalParam("min_energy", t.minEnergy),
      OptionalParam("max_energy", t.maxEnergy),
      OptionalParam("min_danceability", t.minDanceability);
    NamesAppend(o1, o2);
    NamesAppend(o1 + o2, o3);
    NamesAppend(o1 + o2 + o3, o4);
    NamesAppend(o1 + o2 + o3 + o4, o5);
    NamesAppend(o1 + o2 + o3 + o4 + o5, o6);
    NamesAppend(o1 + o2 + o3 + o4 + o5 + o6, o7);
    NamesOfOptional("target_valence", t.targetValence);
    NamesOfOptional("target_energy", t.targetEnergy);
    NamesOfOptional("min_valence", t.minValence);
    NamesOfOptional("max_valence", t.maxValence);
    NamesOfOptional("min_energy", t.minEnergy);
    NamesOfOptional("max_energy", t.maxEnergy);
    NamesOfOptional("min_danceability", t.minDanceability);
  }

  lemma LookupOfOptional(name: string, v: Option<Hundredths>, key: string)
    ensures Lookup(OptionalParam(name, v), key) == if key == name && v.Some? then Some(Render(v.value)) else None
  {
  }

  /** `get` on the target parameters yields the rendered field of that name, and nothing for any other name. */
  lemma TargetLookup(t: Targets, name: string)
    ensures Lookup(TargetParams(t), name) ==
      if FieldValue(t, name).Some? then Some(Render(FieldValue(t, name).value)) else None
  {
    var o1, o2, o3, o4, o5, o6, o7 :=
      OptionalParam("target_valence", t.targetValence),
      OptionalParam("target_energy", t.targetEnergy),
      OptionalParam("min_valence", t.minValence),
      OptionalParam("max_valence", t.maxValence),
      OptionalParam("min_energy", t.minEnergy),
      OptionalParam("max_energy", t.maxEnergy),
      OptionalParam("min_danceability", t.minDanceability);
    LookupAppend(o1, o2, name);
    LookupAppend(o1 + o2, o3, name);
    LookupAppend(o1 + o2 + o3, o4, name);
    LookupAppend(o1 + o2 + o3 + o4, o5, name);
    LookupAppend(o1 + o2 + o3 + o4 + o5, o6, name);
    LookupAppend(o1 + o2 + o3 + o4 + o5 + o6, o7, name);
    LookupOfOptional("target_valence", t.targetValence, name);
    LookupOfOptional("target_energy", t.targetEnergy, name);
    LookupOfOptional("min_valence", t.minValence, name);
    LookupOfOptional("max_valence", t.maxValence, name);
    LookupOfOptional("min_energy", t.minEnergy, name);
    LookupOfOptional("max_energy", t.maxEnergy, name);
    LookupOfOptional("min_danceability", t.minDanceability, name);
    TargetNames(t);
  }

  /**
   * The first query holds `seed_genres` and `limit=8`, and beyond them exactly
   * the defined fields of the mood's entry, each under its snake_case name;
   * an unknown mood adds nothing.
   */
  lemma QueryShape(seed: string, t: Targets)
    ensures Lookup(InitialQuery(seed, t), "seed_genres") == Some(seed)
    ensures Lookup(InitialQuery(seed, t), "limit") == Some("8")
    ensures forall name :: name != "seed_genres" && name != "limit" ==>
      Lookup(InitialQuery(seed, t), name) ==
        if FieldValue(t, name).Some? then Some(Render(FieldValue(t, name).value)) else None
    ensures Names(InitialQuery(seed, t)) == ["seed_genres", "limit"] + Names(TargetParams(t))
    ensures t == NoTargets ==> InitialQuery(seed, t) == [("seed_genres", seed), ("limit", "8")]
  {
    var base: seq<Param> := [("seed_genres", seed), ("limit", ResultLimit)];
    forall name | name != "seed_genres" && name != "limit"
      ensures Lookup(InitialQuery(seed, t), name) ==
        if FieldValue(t, name).Some? then Some(Render(FieldValue(t, name).value)) else None
    {
      LookupAppend(base, TargetParams(t), name);
      TargetLookup(t, name);
    }
    TargetNames(t);
    InitialNames(seed, t);
  }

  lemma InitialNames(seed: string, t: Targets)
    ensures Names(InitialQuery(seed, t)) == ["seed_genres", "limit"] + Names(TargetParams(t))
  {
    NamesAppend([("seed_genres", seed), ("limit", ResultLimit)], TargetParams(t));
  }

  /** The first query names `seed_genres` first and never again. */
  lemma SeedNamedOnlyFirst(seed: string, t: Targets)
    ensures Names(InitialQuery(seed, t))[0] == "seed_genres"
    ensures "seed_genres" !in Names(InitialQuery(seed, t)[1..])
  {
    var rest: seq<Param> := [("limit", ResultLimit)] + TargetParams(t);
    assert InitialQuery(seed, t)[1..] == rest;
    assert FieldValue(t, "seed_genres") == None;
    TargetLookup(t, "seed_genres");
    assert Names([("limit", ResultLimit)]) == ["limit"];
    LookupAppend([("limit", ResultLimit)], TargetParams(t), "seed_genres");
    assert Lookup(rest, "seed_genres") == None;
  }

  /** On the first query, `set('seed_genres', 'pop')` swaps the leading pair only. */
  lemma PopQueryOfInitial(seed: string, t: Targets)
    ensures PopQuery(InitialQuery(seed, t)) == [("seed_genres", "pop")] + InitialQuery(seed, t)[1..]
  {
    var q := InitialQuery(seed, t);
    SeedNamedOnlyFirst(seed, t);
    assert q == [q[0]] + q[1..];
    assert Rewrite(q, "seed_genres", "pop") == [("seed_genres", "pop")] + Without(q[1..], "seed_genres");
  }

  /**
   * The `pop` retry changes only `seed_genres`, in place: the limit and every
   * target parameter keep their positions and values.
   */
  lemma PopRetryChangesOnlySeed(seed: string, t: Targets)
    ensures |PopQuery(InitialQuery(seed, t))| == |InitialQuery(seed, t)|
    ensures PopQuery(InitialQuery(seed, t))[0] == ("seed_genres", "pop")
    ensures PopQuery(InitialQuery(seed, t))[1..] == InitialQuery(seed, t)[1..]
    ensures forall name :: name != "seed_genres" ==>
      Lookup(PopQuery(InitialQuery(seed, t)), name) == Lookup(InitialQuery(seed, t), name)
    ensures seed != "pop" ==> PopQuery(InitialQuery(seed, t)) != InitialQuery(seed, t)
  {
    var q := InitialQuery(seed, t);
    PopQueryOfInitial(seed, t);
    forall name | name != "seed_genres"
      ensures Lookup(PopQuery(q), name) == Lookup(q, name)
    {
      SetThenLookup(q, "seed_genres", "pop", name);
    }
    if seed != "pop" {
      assert PopQuery(q)[0] != q[0];
    }
  }

  // ---------------------------------------------------------------------------
  // The handler

  /** Every pair's name is in `allowed`. */
  ghost predicate NamesWithin(e: seq<Param>, allowed: set<string>)
  {
    forall i :: 0 <= i < |e| ==> e[i].0 in allowed
  }

  /** One `if (typeof v === 'number') params.set(name, String(v))` step, on a name not yet present. */
  method SetIfDefined(params: SearchParams, name: string, v: Option<Hundredths>, ghost allowed: set<string>)
    requires NamesWithin(params.entries, allowed) && name !in allowed
    modifies params
    ensures params.entries == old(params.entries) + OptionalParam(name, v)
    ensures NamesWithin(params.entries, allowed + {name})
  {
    if v.Some? {
      assert name !in Names(params.entries);
      params.Set(name, Render(v.value));
    }
  }

  /** The first query, pair group by pair group, in the order the handler adds them. */
  lemma InitialQueryUnfolded(seed: string, t: Targets)
    ensures InitialQuery(seed, t) ==
      [("seed_genres", seed), ("limit", ResultLimit)]
      + OptionalParam("target_valence", t.targetValence)
      + OptionalParam("target_energy", t.targetEnergy)
      + OptionalParam("min_valence", t.minValence)
      + OptionalParam("max_valence", t.maxValence)
      + OptionalParam("min_energy", t.minEnergy)
      + OptionalParam("max_energy", t.maxEnergy)
      + OptionalParam("min_danceability", t.minDanceability)
  {
    var base: seq<Param> := [("seed_genres", seed), ("limit", ResultLimit)];
    var o1, o2, o3, o4, o5, o6, o7 :=
      OptionalParam("target_valence", t.targetValence),
      OptionalParam("target_energy", t.targetEnergy),
      OptionalParam("min_valence", t.minValence),
      OptionalParam("max_valence", t.maxValence),
      OptionalParam("min_energy", t.minEnergy),
      OptionalParam("max_energy", t.maxEnergy),
      OptionalParam("min_danceability", t.minDanceability);
    calc {
      base + (o1 + o2 + o3 + o4 + o5 + o6 + o7);
      == { SeqAssoc(base, o1 + o2 + o3 + o4 + o5 + o6, o7); }
      base + (o1 + o2 + o3 + o4 + o5 + o6) + o7;
      == { SeqAssoc(base, o1 + o2 + o3 + o4 + o5, o6); }
      base + (o1 + o2 + o3 + o4 + o5) + o6 + o7;
      == { SeqAssoc(base, o1 + o2 + o3 + o4, o5); }
      base + (o1 + o2 + o3 + o4) + o5 + o6 + o7;
      == { SeqAssoc(base, o1 + o2 + o3, o4); }
      base + (o1 + o2 + o3) + o4 + o5 + o6 + o7;
      == { SeqAssoc(base, o1 + o2, o3); }
      base + (o1 + o2) + o3 + o4 + o5 + o6 + o7;
      == { SeqAssoc(base, o1, o2); }
      base + o1 + o2 + o3 + o4 + o5 + o6 + o7;
    }
  }

  lemma SeqAssoc(a: seq<Param>, b: seq<Param>, c: seq<Param>)
    ensures a + (b + c) == a + b + c
  {
  }

  /** The query object of the first request: the record, then one `set` per defined target. */
  method BuildQuery(seedGenre: string, targets: Targets) returns (q: seq<Param>)
    ensures q == InitialQuery(seedGenre, targets)
  {
    var params := new SearchParams([("seed_genres", seedGenre), ("limit", ResultLimit)]);
    ghost var seen: set<string> := {"seed_genres", "limit"};
    SetIfDefined(params, "target_valence", targets.targetValence, seen);
    seen := seen + {"target_valence"};
    SetIfDefined(params, "target_energy", targets.targetEnergy, seen);
    seen := seen + {"target_energy"};
    SetIfDefined(params, "min_valence", targets.minValence, seen);
    seen := seen + {"min_valence"};
    SetIfDefined(params, "max_valence", targets.maxValence, seen);
    seen := seen + {"max_valence"};
    SetIfDefined(params, "min_energy", targets.minEnergy, seen);
    seen := seen + {"min_energy"};
    SetIfDefined(params, "max_energy", targets.maxEnergy, seen);
    seen := seen + {"max_energy"};
    SetIfDefined(params, "min_danceability", targets.minDanceability, seen);
    q := params.entries;
    InitialQueryUnfolded(seedGenre, targets);
  }

  // ---------------------------------------------------------------------------
  // The request chain

  /**
   * What the request chain leaves behind: the requests in the order they were
   * issued, the calls to the app-token provider made inside the try block, and
   * the reply the rest of the handler inspects (None when something threw).
   */
  datatype Exchange = Exchange(trace: seq<Request>, tokenCalls: nat, answer: Option<Reply>)

  /** The `pop` retry after the reply `r` to the last request of `trace`, when due. */
  function PopStep(seed: string, trace: seq<Request>, tokenCalls: nat, r: Reply, catalog: Request -> Reply): Exchange
    requires |trace| >= 1
  {
    if PopRetryDue(seed, r) then
      var last := trace[|trace| - 1];
      var retry := Request(last.kind, last.token, PopQuery(last.query));
      var r2 := catalog(retry);
      Exchange(trace + [retry], tokenCalls, if r2.NetworkError? then None else Some(r2))
    else Exchange(trace, tokenCalls, Some(r))
  }

  /** The chain from the first request: the app-token retry after a 401, then the `pop` retry. */
  function Attempts(seed: string, first: Request, userAccessToken: Option<string>, appToken: Option<string>,
                    catalog: Request -> Reply): Exchange
  {
    var r0 := catalog(first);
    if r0.NetworkError? then Exchange([first], 0, None)
    else if AppRetryDue(userAccessToken, r0) then
      if appToken.None? then Exchange([first], 1, None)
      else
        var second := Request(AppToken, appToken.value, first.query);
        var r1 := catalog(second);
        if r1.NetworkError? then Exchange([first, second], 1, None)
        else PopStep(seed, [first, second], 1, r1, catalog)
    else PopStep(seed, [first], 0, r0, catalog)
  }

  /** After the chain: the flattened tracks when the reply is ok and every record flattens, else the fallback. */
  function Respond(mood: string, chosenSeed: string, userAccessToken: Option<string>, answer: Option<Reply>)
    : HandlerResult
  {
    if answer.Some? && answer.value.Http? && IsOk(answer.value.status) && answer.value.body.Some?
       && NormalizeAll(answer.value.body.value).Some?
    then Recommended(mood, SourceTag(userAccessToken), NormalizeAll(answer.value.body.value).value)
    else YoutubeFallback(FallbackFor(mood, chosenSeed))
  }

  /** The first request: the user token when there is one, else the app token. */
  function FirstRequest(userAccessToken: Option<string>, appToken: Option<string>, q: seq<Param>): Request
    requires userAccessToken.Some? || appToken.Some?
  {
    if userAccessToken.Some? then Request(UserToken, userAccessToken.value, q)
    else Request(AppToken, appToken.value, q)
  }

  /** The handler once the mood and the validated seed are known. */
  function Serve(mood: string, chosenSeed: string, userAccessToken: Option<string>, appToken: Option<string>,
                 catalog: Request -> Reply): (HandlerResult, seq<Request>, nat)
  {
    if userAccessToken.None? && appToken.None? then (Rejected, [], 1)
    else
      Answer(mood, chosenSeed, userAccessToken, if userAccessToken.None? then 1 else 0,
             Attempts(FirstSeed(chosenSeed),
                      FirstRequest(userAccessToken, appToken, InitialQuery(FirstSeed(chosenSeed), TargetsFor(mood))),
                      userAccessToken, appToken, catalog))
  }

  /** The result, the requests and the provider calls once the chain has run. */
  function Answer(mood: string, chosenSeed: string, userAccessToken: Option<string>, callsBefore: nat, ex: Exchange)
    : (HandlerResult, seq<Request>, nat)
  {
    (Respond(mood, chosenSeed, userAccessToken, ex.answer), ex.trace, callsBefore + ex.tokenCalls)
  }

  /** The three parts of `Serve` once some token is available. */
  lemma ServeUnfolded(mood: string, chosenSeed: string, userAccessToken: Option<string>, appToken: Option<string>,
                      catalog: Request -> Reply)
    requires userAccessToken.Some? || appToken.Some?
    ensures var seed := FirstSeed(chosenSeed);
      var ex := Attempts(seed, FirstRequest(userAccessToken, appToken, InitialQuery(seed, TargetsFor(mood))),
                         userAccessToken, appToken, catalog);
      Serve(mood, chosenSeed, userAccessToken, appToken, catalog)
        == (Respond(mood, chosenSeed, userAccessToken, ex.answer), ex.trace,
            (if userAccessToken.None? then 1 else 0) + ex.tokenCalls)
  {
  }

  // ---------------------------------------------------------------------------
  // Properties of the chain

  /**
   * At most three requests, the first one first; the provider is asked inside
   * the chain exactly when the app-token retry is due; a 200 first answer ends
   * the chain.
   */
  lemma AttemptsShape(seed: string, first: Request, userAccessToken: Option<string>, appToken: Option<string>,
                      catalog: Request -> Reply)
    ensures var ex := Attempts(seed, first, userAccessToken, appToken, catalog);
      && 1 <= |ex.trace| <= 3 && ex.trace[0] == first
      && (ex.tokenCalls == 1 <==> AppRetryDue(userAccessToken, catalog(first)))
      && ex.tokenCalls <= 1
      && (catalog(first).Http? && catalog(first).status == 200 ==> ex.trace == [first] && ex.answer == Some(catalog(first)))
      && (catalog(first).NetworkError? ==> ex.trace == [first] && ex.answer == None)
      && (AppRetryDue(userAccessToken, catalog(first)) && appToken.None? ==> ex.trace == [first] && ex.answer == None)
  {
  }

  /**
   * The app-token retry happens exactly when it is due and the provider
   * succeeds; it reuses the first query with the app token.
   */
  lemma AppRetryExactlyWhenDue(seed: string, t: Targets, first: Request, userAccessToken: Option<string>,
                               appToken: Option<string>, catalog: Request -> Reply)
    requires first.query == InitialQuery(seed, t)
    ensures var ex := Attempts(seed, first, userAccessToken, appToken, catalog);
      && ((AppRetryDue(userAccessToken, catalog(first)) && appToken.Some?) <==>
          (|ex.trace| >= 2 && ex.trace[1].query == first.query))
      && (|ex.trace| >= 2 && ex.trace[1].query == first.query ==>
            appToken.Some? && ex.trace[1] == Request(AppToken, appToken.value, first.query)
            && Url(ex.trace[1]) == Url(first))
    ensures var ex := Attempts(seed, first, userAccessToken, appToken, catalog);
      forall i :: 2 <= i < |ex.trace| ==> ex.trace[i].query != first.query
  {
    PopRetryChangesOnlySeed(seed, t);
    NoRepeatAfterRetry(seed, t, first, userAccessToken, appToken, catalog);
  }

  /** A third request is the `pop` retry, whose query differs from the first. */
  lemma NoRepeatAfterRetry(seed: string, t: Targets, first: Request, userAccessToken: Option<string>,
                           appToken: Option<string>, catalog: Request -> Reply)
    requires first.query == InitialQuery(seed, t)
    ensures var ex := Attempts(seed, first, userAccessToken, appToken, catalog);
      forall i :: 2 <= i < |ex.trace| ==> ex.trace[i].query != first.query
  {
    PopRetryChangesOnlySeed(seed, t);
  }

  /**
   * Any request after the first that does not repeat the first query is the
   * `pop` retry: the last one, due after the request before it, with that
   * request's token and the first query with `seed_genres=pop`.
   */
  lemma OtherRequestIsPopRetry(seed: string, t: Targets, first: Request, userAccessToken: Option<string>,
                               appToken: Option<string>, catalog: Request -> Reply)
    requires first.query == InitialQuery(seed, t)
    ensures var ex := Attempts(seed, first, userAccessToken, appToken, catalog);
      forall i :: 1 <= i < |ex.trace| && ex.trace[i].query != first.query ==>
        && i == |ex.trace| - 1
        && ex.trace[i] == Request(ex.trace[i - 1].kind, ex.trace[i - 1].token, PopQuery(first.query))
        && PopRetryDue(seed, catalog(ex.trace[i - 1]))
  {
    var r0 := catalog(first);
    if r0.Http? && AppRetryDue(userAccessToken, r0) && appToken.Some? {
      var second := Request(AppToken, appToken.value, first.query);
      assert Attempts(seed, first, userAccessToken, appToken, catalog).trace[..2] == [first, second];
    }
  }

  /**
   * The `pop` retry is never skipped when due: if the last request still
   * carries the first query and its reply calls for the retry, the chain was
   * cut by the provider failing on the 401 path.
   */
  lemma PopRetryNotSkipped(seed: string, t: Targets, first: Request, userAccessToken: Option<string>,
                           appToken: Option<string>, catalog: Request -> Reply)
    requires first.query == InitialQuery(seed, t)
    ensures var ex := Attempts(seed, first, userAccessToken, appToken, catalog);
      ex.trace[|ex.trace| - 1].query == first.query && PopRetryDue(seed, catalog(ex.trace[|ex.trace| - 1])) ==>
        ex.trace == [first] && AppRetryDue(userAccessToken, catalog(first)) && appToken.None?
  {
    PopRetryChangesOnlySeed(seed, t);
    var r0 := catalog(first);
    if r0.Http? && AppRetryDue(userAccessToken, r0) && appToken.Some? {
      var second := Request(AppToken, appToken.value, first.query);
      var r1 := catalog(second);
      if r1.Http? {
        assert Attempts(seed, first, userAccessToken, appToken, catalog) == PopStep(seed, [first, second], 1, r1, catalog);
      }
    } else if r0.Http? && !AppRetryDue(userAccessToken, r0) {
      assert Attempts(seed, first, userAccessToken, appToken, catalog) == PopStep(seed, [first], 0, r0, catalog);
    }
  }

  /** The chain's answer, when there is one, is the reply to its last request. */
  lemma AnswerIsLastReply(seed: string, first: Request, userAccessToken: Option<string>, appToken: Option<string>,
                          catalog: Request -> Reply)
    ensures var ex := Attempts(seed, first, userAccessToken, appToken, catalog);
      && (ex.answer.Some? ==> ex.answer.value == catalog(ex.trace[|ex.trace| - 1]) && ex.answer.value.Http?)
      && (ex.answer.None? ==> catalog(ex.trace[|ex.trace| - 1]).NetworkError? ||
                              (ex.trace == [first] && AppRetryDue(userAccessToken, catalog(first)) && appToken.None?))
  {
  }

  /**
   * The handler rejects exactly when there is neither a user token nor an app
   * token; otherwise the first request carries the seed (the validated one, or
   * `pop`) and the mood's targets, with the user token when there is one, and
   * the provider is asked once at most.
   */
  lemma ServeFirstRequest(mood: string, chosenSeed: string, userAccessToken: Option<string>,
                          appToken: Option<string>, catalog: Request -> Reply)
    ensures var (result, trace, tokenCalls) := Serve(mood, chosenSeed, userAccessToken, appToken, catalog);
      && (result.Rejected? <==> userAccessToken.None? && appToken.None?)
      && (result.Rejected? ==> trace == [] && tokenCalls == 1)
      && (!result.Rejected? ==>
            && 1 <= |trace| <= 3 && tokenCalls <= 1
            && trace[0].query == InitialQuery(FirstSeed(chosenSeed), TargetsFor(mood))
            && (userAccessToken.Some? ==> trace[0].kind == UserToken && trace[0].token == userAccessToken.value)
            && (userAccessToken.None? ==> trace[0].kind == AppToken && trace[0].token == appToken.value))
  {
    if !(userAccessToken.None? && appToken.None?) {
      var seed := FirstSeed(chosenSeed);
      var first := FirstRequest(userAccessToken, appToken, InitialQuery(seed, TargetsFor(mood)));
      ServeUnfolded(mood, chosenSeed, userAccessToken, appToken, catalog);
      AttemptsShape(seed, first, userAccessToken, appToken, catalog);
    }
  }

  /**
   * The tracks come back exactly when the reply inspected is ok and carries a
   * track list whose every record flattens; otherwise the fallback.
   */
  lemma RespondOutcome(mood: string, chosenSeed: string, userAccessToken: Option<string>, answer: Option<Reply>,
                       last: Reply)
    requires answer.Some? ==> answer.value == last
    requires answer.None? ==> !(last.Http? && IsOk(last.status))
    ensures Respond(mood, chosenSeed, userAccessToken, answer) ==
      if last.Http? && IsOk(last.status) && last.body.Some? && NormalizeAll(last.body.value).Some? then
        Recommended(mood, SourceTag(userAccessToken), NormalizeAll(last.body.value).value)
      else YoutubeFallback(FallbackFor(mood, chosenSeed))
  {
  }

  /**
   * Once a token is available, the handler recommends exactly when the last
   * reply is ok with a track list whose every record flattens, and then returns
   * those records under the mood and the token's source tag; every other outcome
   * is the fallback keyed on the mood and the validated seed.
   */
  lemma ServeOutcome(mood: string, chosenSeed: string, userAccessToken: Option<string>, appToken: Option<string>,
                     catalog: Request -> Reply)
    requires userAccessToken.Some? || appToken.Some?
    ensures AnsweredByLastReply(Serve(mood, chosenSeed, userAccessToken, appToken, catalog),
                                mood, chosenSeed, userAccessToken, catalog)
  {
    AnswerOutcome(mood, chosenSeed, FirstSeed(chosenSeed),
                  FirstRequest(userAccessToken, appToken, InitialQuery(FirstSeed(chosenSeed), TargetsFor(mood))),
                  userAccessToken, appToken, catalog, if userAccessToken.None? then 1 else 0);
  }

  /** `ServeOutcome` for any first request. */
  lemma AnswerOutcome(mood: string, chosenSeed: string, seed: string, first: Request, userAccessToken: Option<string>,
                      appToken: Option<string>, catalog: Request -> Reply, callsBefore: nat)
    ensures AnsweredByLastReply(Answer(mood, chosenSeed, userAccessToken, callsBefore,
                                       Attempts(seed, first, userAccessToken, appToken, catalog)),
                                mood, chosenSeed, userAccessToken, catalog)
  {
    ChainOutcome(mood, chosenSeed, seed, first, userAccessToken, appToken, catalog);
    LastReplyDecides(Answer(mood, chosenSeed, userAccessToken, callsBefore,
                            Attempts(seed, first, userAccessToken, appToken, catalog)),
                     mood, chosenSeed, userAccessToken, catalog);
  }

  /**
   * The handler's result is decided by the last reply of its chain: the
   * flattened tracks when that reply is ok and every record flattens, the
   * fallback otherwise.
   */
  predicate AnsweredByLastReply(out: (HandlerResult, seq<Request>, nat), mood: string, chosenSeed: string,
                                userAccessToken: Option<string>, catalog: Request -> Reply)
  {
    && |out.1| >= 1
    && var last := catalog(out.1[|out.1| - 1]);
       out.0 ==
         if last.Http? && IsOk(last.status) && last.body.Some? && NormalizeAll(last.body.value).Some? then
           Recommended(mood, SourceTag(userAccessToken), NormalizeAll(last.body.value).value)
         else YoutubeFallback(FallbackFor(mood, chosenSeed))
  }

  /** The handler's answer after the chain is the one its last reply alone would give. */
  lemma ChainOutcome(mood: string, chosenSeed: string, seed: string, first: Request, userAccessToken: Option<string>,
                     appToken: Option<string>, catalog: Request -> Reply)
    ensures |Attempts(seed, first, userAccessToken, appToken, catalog).trace| >= 1
    ensures var ex := Attempts(seed, first, userAccessToken, appToken, catalog);
      Respond(mood, chosenSeed, userAccessToken, ex.answer)
        == Respond(mood, chosenSeed, userAccessToken, Some(catalog(ex.trace[|ex.trace| - 1])))
  {
    var ex := Attempts(seed, first, userAccessToken, appToken, catalog);
    AttemptsShape(seed, first, userAccessToken, appToken, catalog);
    AnswerIsLastReply(seed, first, userAccessToken, appToken, catalog);
    var last := catalog(ex.trace[|ex.trace| - 1]);
    RespondOutcome(mood, chosenSeed, userAccessToken, ex.answer, last);
    RespondOutcome(mood, chosenSeed, userAccessToken, Some(last), last);
  }

  /** A result that is its last reply's own answer is the one `AnsweredByLastReply` describes. */
  lemma LastReplyDecides(out: (HandlerResult, seq<Request>, nat), mood: string, chosenSeed: string,
                         userAccessToken: Option<string>, catalog: Request -> Reply)
    requires |out.1| >= 1
    requires out.0 == Respond(mood, chosenSeed, userAccessToken, Some(catalog(out.1[|out.1| - 1])))
    ensures AnsweredByLastReply(out, mood, chosenSeed, userAccessToken, catalog)
  {
    var last := catalog(out.1[|out.1| - 1]);
    RespondOutcome(mood, chosenSeed, userAccessToken, Some(last), last);
  }

  // ---------------------------------------------------------------------------
  // The handler

  /**
   * The request chain: `fetch` with the first request, the app-token retry
   * after a 401 with a user token, then the `pop` retry when the latest status
   * is not 200 and the seed is not already `pop`; a rejected `fetch` or a
   * failing provider cuts it short.
   */
  method FetchChain(seed: string, first: Request, userAccessToken: Option<string>, appToken: Option<string>,
                    catalog: Request -> Reply)
    returns (trace: seq<Request>, tokenCalls: nat, answer: Option<Reply>)
    ensures Exchange(trace, tokenCalls, answer) == Attempts(seed, first, userAccessToken, appToken, catalog)
  {
    var request := first;
    var res := catalog(request);
    trace := [request];
    tokenCalls := 0;
    if res.NetworkError? {
      return trace, tokenCalls, None;
    }
    if res.status == 401 && Truthy(userAccessToken) {
      tokenCalls := tokenCalls + 1;
      if appToken.None? {
        return trace, tokenCalls, None;
      }
      request := Request(AppToken, appToken.value, first.query);
      res := catalog(request);
      trace := trace + [request];
      if res.NetworkError? {
        return trace, tokenCalls, None;
      }
    }
    if res.status != 200 && seed != DefaultSeed {
      var fallbackParams := new SearchParams(first.query);
      fallbackParams.Set("seed_genres", DefaultSeed);
      request := Request(request.kind, request.token, fallbackParams.entries);
      res := catalog(request);
      trace := trace + [request];
      if res.NetworkError? {
        return trace, tokenCalls, None;
      }
    }
    answer := Some(res);
  }

  /**
   * The handler. `userAccessToken` is what the session yields (`token.accessToken`
   * when it is a string), `appToken` the outcome of the app-token provider (None:
   * it rejects), `catalog` the catalog's reply to each request. Besides the answer
   * it returns the catalog requests in the order they were issued and the number
   * of calls to the app-token provider.
   */
  method Get(moodParam: Option<string>, seedParam: Option<string>, userAccessToken: Option<string>,
             appToken: Option<string>, catalog: Request -> Reply)
    returns (result: HandlerResult, trace: seq<Request>, tokenCalls: nat)
    ensures (result, trace, tokenCalls)
      == Serve(MoodOf(moodParam), ChosenSeed(seedParam), userAccessToken, appToken, catalog)
  {
    var mood := MoodOf(moodParam);
    var chosenSeed := ChosenSeed(seedParam);
    var seedGenre := FirstSeed(chosenSeed);

    // `userAccessToken ?? (await getAppAccessToken())`, before the try block
    var accessToken: string;
    var kind: TokenKind;
    tokenCalls := 0;
    if userAccessToken.Some? {
      accessToken, kind := userAccessToken.value, UserToken;
    } else {
      tokenCalls := 1;
      if appToken.None? {
        return Rejected, [], tokenCalls;
      }
      accessToken, kind := appToken.value, AppToken;
    }

    var q := BuildQuery(seedGenre, TargetsFor(mood));
    var first := Request(kind, accessToken, q);
    assert first == FirstRequest(userAccessToken, appToken, InitialQuery(seedGenre, TargetsFor(mood)));
    var calls: nat;
    var answer: Option<Reply>;
    trace, calls, answer := FetchChain(seedGenre, first, userAccessToken, appToken, catalog);
    tokenCalls := tokenCalls + calls;
    result := Conclude(mood, chosenSeed, userAccessToken, answer);
    ServeUnfolded(mood, chosenSeed, userAccessToken, appToken, catalog);
    assert trace == Serve(mood, chosenSeed, userAccessToken, appToken, catalog).1;
    assert result == Serve(mood, chosenSeed, userAccessToken, appToken, catalog).0;
    assert tokenCalls == Serve(mood, chosenSeed, userAccessToken, appToken, catalog).2;
  }

  /** After the try block's requests: the tracks, or the catch block's fallback. */
  method Conclude(mood: string, chosenSeed: string, userAccessToken: Option<string>, answer: Option<Reply>)
    returns (result: HandlerResult)
    ensures result == Respond(mood, chosenSeed, userAccessToken, answer)
  {
    if answer.None? || !answer.value.Http? || !IsOk(answer.value.status) || answer.value.body.None? {
      result := FallbackResult(mood, chosenSeed);
      return;
    }
    var tracks := NormalizeAll(answer.value.body.value);
    if tracks.None? {
      result := FallbackResult(mood, chosenSeed);
      return;
    }
    result := Recommended(mood, SourceTag(userAccessToken), tracks.value);
  }

  /** The catch block: `buildYoutubeFallback(mood, chosenSeed)`. */
  method FallbackResult(mood: string, chosenSeed: string) returns (r: HandlerResult)
    ensures r == YoutubeFallback(FallbackFor(mood, chosenSeed))
  {
    var payload := BuildYoutubeFallback(mood, chosenSeed);
    r := YoutubeFallback(payload);
  }
}
