/**
 * `buildYoutubeFallback`: the payload returned whenever the catalog path fails,
 * a single YouTube search link keyed on the seed, or else the mood, followed by
 * the mood's audio-feature targets as `name=value` tokens.
 */
module Fallback {
  import opened Wrappers
  import opened Text
  import opened MoodTargets
  import opened Tracks

  datatype Recommendation = Recommendation(title: string, youtube: string)

  datatype FallbackPayload = FallbackPayload(
    mood: string,
    source: string,
    tracks: seq<Track>,
    recommendations: seq<Recommendation>)

  const FallbackSource: string := "youtube-fallback"
  const YoutubeSearchBase: string := "https://www.youtube.com/results?search_query="

  /** `seed || mood`. */
  function SearchHead(mood: string, seed: string): string
  {
    if seed != "" then seed else mood
  }

  /** `name=value` for each pair, in order. */
  function Tokens(ps: seq<(string, string)>): (ts: seq<string>)
    ensures |ts| == |ps|
    ensures forall i :: 0 <= i < |ps| ==> ts[i] == ps[i].0 + "=" + ps[i].1
  {
    seq(|ps|, i requires 0 <= i < |ps| => ps[i].0 + "=" + ps[i].1)
  }

  lemma TokensAppend(a: seq<(string, string)>, b: seq<(string, string)>)
    ensures Tokens(a + b) == Tokens(a) + Tokens(b)
  {
  }

  lemma TokensOfOptional(name: string, v: Option<Hundredths>)
    ensures Tokens(OptionalParam(name, v)) == if v.Some? then [name + "=" + Render(v.value)] else []
  {
  }

  /** The tokens of the defined targets, in the fixed field order. */
  function TargetTokens(t: Targets): seq<string>
  {
    Tokens(TargetParams(t))
  }

  /** The search text before encoding: the head, then the tokens, separated by single spaces. */
  function SearchText(mood: string, seed: string): string
  {
    Join([SearchHead(mood, seed)] + TargetTokens(TargetsFor(mood)), " ")
  }

  function Title(mood: string, seed: string): string
  {
    "Zoekresultaten voor \"" + SearchHead(mood, seed) + "\" op YouTube"
  }

  /** The fallback payload for a mood and a validated seed ("" when there is none). */
  function FallbackFor(mood: string, seed: string): FallbackPayload
  {
    FallbackPayload(mood, FallbackSource, [],
      [Recommendation(Title(mood, seed), YoutubeSearchBase + EncodeUriComponent(SearchText(mood, seed)))])
  }

  /** The target tokens, field group by field group, in the order the builder pushes them. */
  lemma TargetTokensUnfolded(t: Targets)
    ensures TargetTokens(t) ==
      []
      + Tokens(OptionalParam("target_valence", t.targetValence))
      + Tokens(OptionalParam("target_energy", t.targetEnergy))
      + Tokens(OptionalParam("min_valence", t.minValence))
      + Tokens(OptionalParam("max_valence", t.maxValence))
      + Tokens(OptionalParam("min_energy", t.minEnergy))
      + Tokens(OptionalParam("max_energy", t.maxEnergy))
      + Tokens(OptionalParam("min_danceability", t.minDanceability))
  {
    var o1, o2, o3, o4, o5, o6, o7 :=
      OptionalParam("target_valence", t.targetValence),
      OptionalParam("target_energy", t.targetEnergy),
      OptionalParam("min_valence", t.minValence),
      OptionalParam("max_valence", t.maxValence),
      OptionalParam("min_energy", t.minEnergy),
      OptionalParam("max_energy", t.maxEnergy),
      OptionalParam("min_danceability", t.minDanceability);
    TokensAppend(o1, o2);
    TokensAppend(o1 + o2, o3);
    TokensAppend(o1 + o2 + o3, o4);
    TokensAppend(o1 + o2 + o3 + o4, o5);
    TokensAppend(o1 + o2 + o3 + o4 + o5, o6);
    TokensAppend(o1 + o2 + o3 + o4 + o5 + o6, o7);
    assert [] + Tokens(o1) == Tokens(o1);
  }

  /** One `if (typeof v === 'number') paramTokens.push(...)` step. */
  method PushIfDefined(tokens: seq<string>, name: string, v: Option<Hundredths>) returns (r: seq<string>)
    ensures r == tokens + Tokens(OptionalParam(name, v))
  {
    TokensOfOptional(name, v);
    r := tokens;
    if v.Some? {
      r := r + [name + "=" + Render(v.value)];
    }
  }

  /** The handler's payload builder: the tokens are pushed field by field, then joined and encoded. */
  method BuildYoutubeFallback(mood: string, seed: string) returns (p: FallbackPayload)
    ensures p == FallbackFor(mood, seed)
  {
    var targets := TargetsFor(mood);
    var paramTokens: seq<string> := [];
    paramTokens := PushIfDefined(paramTokens, "target_valence", targets.targetValence);
    paramTokens := PushIfDefined(paramTokens, "target_energy", targets.targetEnergy);
    paramTokens := PushIfDefined(paramTokens, "min_valence", targets.minValence);
    paramTokens := PushIfDefined(paramTokens, "max_valence", targets.maxValence);
    paramTokens := PushIfDefined(paramTokens, "min_energy", targets.minEnergy);
    paramTokens := PushIfDefined(paramTokens, "max_energy", targets.maxEnergy);
    paramTokens := PushIfDefined(paramTokens, "min_danceability", targets.minDanceability);
    TargetTokensUnfolded(targets);
    assert paramTokens == TargetTokens(targets);
    var head := if seed != "" then seed else mood;
    var searchTokens := [head] + paramTokens;
    var query := EncodeUriComponent(Join(searchTokens, " "));
    p := FallbackPayload(mood, FallbackSource, [],
      [Recommendation("Zoekresultaten voor \"" + head + "\" op YouTube", YoutubeSearchBase + query)]);
  }

  /**
   * The fallback payload has no tracks, the fallback source tag and exactly one
   * recommendation, titled after the seed or, without a seed, the mood.
   */
  lemma FallbackShape(mood: string, seed: string)
    ensures var p := FallbackFor(mood, seed);
      && p.mood == mood && p.source == "youtube-fallback" && p.tracks == []
      && |p.recommendations| == 1
      && p.recommendations[0].title == "Zoekresultaten voor \"" + SearchHead(mood, seed) + "\" op YouTube"
      && YoutubeSearchBase <= p.recommendations[0].youtube
    ensures SearchHead(mood, seed) == (if seed == "" then mood else seed)
  {
  }

  /**
   * The link's query decodes to the search text, which starts with the seed or
   * the mood.
   */
  lemma FallbackQueryDecodes(mood: string, seed: string)
    ensures var link := FallbackFor(mood, seed).recommendations[0].youtube;
      && |YoutubeSearchBase| <= |link|
      && Unescape(link[|YoutubeSearchBase|..], false) == SearchText(mood, seed)
    ensures SearchHead(mood, seed) <= SearchText(mood, seed)
  {
    var link := FallbackFor(mood, seed).recommendations[0].youtube;
    assert link[|YoutubeSearchBase|..] == EncodeUriComponent(SearchText(mood, seed));
    UnescapeEscape(SearchText(mood, seed), false);
    JoinStartsWithHead([SearchHead(mood, seed)] + TargetTokens(TargetsFor(mood)), " ");
  }

  predicate SpaceFree(p: (string, string))
  {
    ' ' !in p.0 && ' ' !in p.1
  }

  lemma RenderHasNoSpace(h: Hundredths)
    ensures ' ' !in Render(h)
  {
    RenderUnreserved(h);
  }

  lemma OptionalSpaceFree(name: string, v: Option<Hundredths>)
    requires ' ' !in name
    ensures forall p :: p in OptionalParam(name, v) ==> SpaceFree(p)
  {
    if v.Some? {
      RenderHasNoSpace(v.value);
    }
  }

  /** No target token contains a space. */
  lemma TokensHaveNoSpace(t: Targets)
    ensures forall i :: 0 <= i < |TargetTokens(t)| ==> ' ' !in TargetTokens(t)[i]
  {
    var ps := TargetParams(t);
    OptionalSpaceFree("target_valence", t.targetValence);
    OptionalSpaceFree("target_energy", t.targetEnergy);
    OptionalSpaceFree("min_valence", t.minValence);
    OptionalSpaceFree("max_valence", t.maxValence);
    OptionalSpaceFree("min_energy", t.minEnergy);
    OptionalSpaceFree("max_energy", t.maxEnergy);
    OptionalSpaceFree("min_danceability", t.minDanceability);
    assert forall p :: p in ps ==> SpaceFree(p);
    forall i | 0 <= i < |ps|
      ensures ' ' !in TargetTokens(t)[i]
    {
      assert ps[i] in ps;
      assert TargetTokens(t)[i] == ps[i].0 + "=" + ps[i].1;
    }
  }

  /**
   * With a head free of spaces, splitting the decoded search text on single
   * spaces gives back the head followed by the target tokens, in field order.
   */
  lemma FallbackTokensSeparated(mood: string, seed: string)
    requires ' ' !in SearchHead(mood, seed)
    ensures Split(SearchText(mood, seed), ' ') == [SearchHead(mood, seed)] + TargetTokens(TargetsFor(mood))
  {
    var parts := [SearchHead(mood, seed)] + TargetTokens(TargetsFor(mood));
    TokensHaveNoSpace(TargetsFor(mood));
    assert forall i :: 0 <= i < |parts| ==> ' ' !in parts[i];
    SplitJoin(parts, ' ');
  }
}
