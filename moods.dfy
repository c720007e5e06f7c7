/**
 * The seed-genre allow-set and its validation (`allowedSeeds`, and the seed
 * handling at the top of the recommendations handler).
 */
module Seeds {
  import opened Wrappers
  import opened Text

  /**
   * The catalog's available genre seeds, as the handler lists them. The set is
   * kept as the union of its rows so that membership facts stay cheap to prove.
   */
  const AllowedSeeds: set<string> :=
    SeedRow01
    + SeedRow02
    + SeedRow03
    + SeedRow04
    + SeedRow05
    + SeedRow06
    + SeedRow07
    + SeedRow08
    + SeedRow09
    + SeedRow10
    + SeedRow11
    + SeedRow12
    + SeedRow13
    + SeedRow14
    + SeedRow15
    + SeedRow16
    + SeedRow17

  const SeedRow01: set<string> := {"acoustic", "afrobeat", "alt-rock", "alternative", "ambient", "anime", "black-metal"}
  const SeedRow02: set<string> := {"bluegrass", "blues", "bossanova", "brazil", "breakbeat", "british", "cantopop"}
  const SeedRow03: set<string> := {"chicago-house", "children", "chill", "classical", "club", "comedy", "country"}
  const SeedRow04: set<string> := {"dance", "dancehall", "death-metal", "deep-house", "detroit-techno", "disco", "disney"}
  const SeedRow05: set<string> := {"drum-and-bass", "dub", "dubstep", "edm", "electro", "electronic", "emo", "folk"}
  const SeedRow06: set<string> := {"forro", "french", "funk", "garage", "german", "gospel", "goth", "grindcore", "groove"}
  const SeedRow07: set<string> := {"grunge", "guitar", "happy", "hard-rock", "hardcore", "hardstyle", "heavy-metal"}
  const SeedRow08: set<string> := {"hip-hop", "holidays", "honky-tonk", "house", "idm", "indian", "indie-pop", "industrial"}
  const SeedRow09: set<string> := {"iranian", "j-dance", "j-idol", "j-pop", "j-rock", "jazz", "k-pop", "kids", "latin"}
  const SeedRow10: set<string> := {"latino", "malay", "mandopop", "metal", "metalcore", "minimal-techno", "movies"}
  const SeedRow11: set<string> := {"mpb", "new-release", "opera", "pagode", "party", "philippines-opm", "piano", "pop"}
  const SeedRow12: set<string> := {"pop-film", "post-dubstep", "power-pop", "progressive-house", "psych-rock", "punk"}
  const SeedRow13: set<string> := {"punk-rock", "r-n-b", "rainy-day", "reggae", "reggaeton", "road-trip", "rock"}
  const SeedRow14: set<string> := {"rock-n-roll", "rockabilly", "romance", "sad", "salsa", "samba", "sertanejo"}
  const SeedRow15: set<string> := {"show-tunes", "singer-songwriter", "ska", "sleep", "songwriter", "soul", "soundtracks"}
  const SeedRow16: set<string> := {"spanish", "study", "summer", "swedish", "synth-pop", "tango", "techno", "trance"}
  const SeedRow17: set<string> := {"trip-hop", "turkish", "work-out", "world-music"}

  // One small lemma per row: the solver handles a row at a time cheaply.
  lemma RowHasNoEmpty01() ensures "" !in SeedRow01 {}
  lemma RowHasNoEmpty02() ensures "" !in SeedRow02 {}
  lemma RowHasNoEmpty03() ensures "" !in SeedRow03 {}
  lemma RowHasNoEmpty04() ensures "" !in SeedRow04 {}
  lemma RowHasNoEmpty05() ensures "" !in SeedRow05 {}
  lemma RowHasNoEmpty06() ensures "" !in SeedRow06 {}
  lemma RowHasNoEmpty07() ensures "" !in SeedRow07 {}
  lemma RowHasNoEmpty08() ensures "" !in SeedRow08 {}
  lemma RowHasNoEmpty09() ensures "" !in SeedRow09 {}
  lemma RowHasNoEmpty10() ensures "" !in SeedRow10 {}
  lemma RowHasNoEmpty11() ensures "" !in SeedRow11 {}
  lemma RowHasNoEmpty12() ensures "" !in SeedRow12 {}
  lemma RowHasNoEmpty13() ensures "" !in SeedRow13 {}
  lemma RowHasNoEmpty14() ensures "" !in SeedRow14 {}
  lemma RowHasNoEmpty15() ensures "" !in SeedRow15 {}
  lemma RowHasNoEmpty16() ensures "" !in SeedRow16 {}
  lemma RowHasNoEmpty17() ensures "" !in SeedRow17 {}

  /** A genre name of lower-case ASCII letters and '-'. */
  predicate Plain(s: string)
  {
    forall i :: 0 <= i < |s| ==> IsLowerAscii(s[i]) || s[i] == '-'
  }

  lemma RowIsPlain01() ensures forall s :: s in SeedRow01 ==> Plain(s) {}
  lemma RowIsPlain02() ensures forall s :: s in SeedRow02 ==> Plain(s) {}
  lemma RowIsPlain03() ensures forall s :: s in SeedRow03 ==> Plain(s) {}
  lemma RowIsPlain04() ensures forall s :: s in SeedRow04 ==> Plain(s) {}
  lemma RowIsPlain05() ensures forall s :: s in SeedRow05 ==> Plain(s) {}
  lemma RowIsPlain06() ensures forall s :: s in SeedRow06 ==> Plain(s) {}
  lemma RowIsPlain07() ensures forall s :: s in SeedRow07 ==> Plain(s) {}
  lemma RowIsPlain08() ensures forall s :: s in SeedRow08 ==> Plain(s) {}
  lemma RowIsPlain09() ensures forall s :: s in SeedRow09 ==> Plain(s) {}
  lemma RowIsPlain10() ensures forall s :: s in SeedRow10 ==> Plain(s) {}
  lemma RowIsPlain11() ensures forall s :: s in SeedRow11 ==> Plain(s) {}
  lemma RowIsPlain12() ensures forall s :: s in SeedRow12 ==> Plain(s) {}
  lemma RowIsPlain13() ensures forall s :: s in SeedRow13 ==> Plain(s) {}
  lemma RowIsPlain14() ensures forall s :: s in SeedRow14 ==> Plain(s) {}
  lemma RowIsPlain15() ensures forall s :: s in SeedRow15 ==> Plain(s) {}
  lemma RowIsPlain16() ensures forall s :: s in SeedRow16 ==> Plain(s) {}
  lemma RowIsPlain17() ensures forall s :: s in SeedRow17 ==> Plain(s) {}

  /** Every seed is written in lower-case letters and '-' only. */
  lemma AllPlain(seed: string)
    requires seed in AllowedSeeds
    ensures Plain(seed)
  {
    RowIsPlain01(); RowIsPlain02(); RowIsPlain03(); RowIsPlain04(); RowIsPlain05(); RowIsPlain06();
    RowIsPlain07(); RowIsPlain08(); RowIsPlain09(); RowIsPlain10(); RowIsPlain11(); RowIsPlain12();
    RowIsPlain13(); RowIsPlain14(); RowIsPlain15(); RowIsPlain16(); RowIsPlain17();
  }

  /** The empty string is not a seed. */
  lemma EmptyNotAllowed()
    ensures "" !in AllowedSeeds
  {
    RowHasNoEmpty01(); RowHasNoEmpty02(); RowHasNoEmpty03(); RowHasNoEmpty04(); RowHasNoEmpty05(); RowHasNoEmpty06();
    RowHasNoEmpty07(); RowHasNoEmpty08(); RowHasNoEmpty09(); RowHasNoEmpty10(); RowHasNoEmpty11(); RowHasNoEmpty12();
    RowHasNoEmpty13(); RowHasNoEmpty14(); RowHasNoEmpty15(); RowHasNoEmpty16(); RowHasNoEmpty17();
  }

  /** The safe default seed. */
  const DefaultSeed: string := "pop"

  /**
   * `chosenSeed`: the lower-cased `seed` query parameter when it is an allowed
   * seed, and the empty string otherwise (absent, empty or unknown).
   */
  function ChosenSeed(seedParam: Option<string>): (r: string)
    ensures r == "" || r in AllowedSeeds
    ensures r != "" <==> seedParam.Some? && ToLower(seedParam.value) in AllowedSeeds
    ensures r != "" ==> r == ToLower(seedParam.value)
  {
    var lowered := if seedParam.Some? then ToLower(seedParam.value) else "";
    EmptyNotAllowed();
    if lowered in AllowedSeeds then lowered else ""
  }

  /** The seed of the first request: the chosen seed, or `pop` when there is none. */
  function FirstSeed(chosen: string): string
  {
    if chosen != "" then chosen else DefaultSeed
  }

  /** The first request's seed is the validated seed when there is one, else `pop`; always an allowed seed. */
  lemma FirstSeedAllowed(seedParam: Option<string>)
    ensures FirstSeed(ChosenSeed(seedParam)) in AllowedSeeds
    ensures FirstSeed(ChosenSeed(seedParam)) ==
      if seedParam.Some? && ToLower(seedParam.value) in AllowedSeeds then ToLower(seedParam.value) else DefaultSeed
  {
  }

  /** Validation ignores the case of the caller's seed: any casing of an allowed seed selects it. */
  lemma SeedCaseInsensitive(seed: string, caller: string)
    requires seed in AllowedSeeds
    requires ToLower(caller) == ToLower(seed)
    ensures ChosenSeed(Some(caller)) == seed
    ensures ChosenSeed(Some(ToUpper(seed))) == seed
  {
    AllPlain(seed);
    LowerOfLowercase(seed);
  }
}

/**
 * The mood table `moodAudioTargets`: for each mood the audio-feature targets
 * and bounds that become query parameters and fallback search tokens.
 */
module MoodTargets {
  import opened Wrappers
  import opened Text

  /**
   * A feature value in [0, 1], held in hundredths: every value in the table
   * has at most two decimals.
   */
  type Hundredths = h: int | 0 <= h <= 100

  function Digit(d: int): char
    requires 0 <= d <= 9
  {
    "0123456789"[d]
  }

  function DigitValue(c: char): int
    requires IsDigitAscii(c)
  {
    c as int - '0' as int
  }

  /** `String(n)` for the number `h / 100`: the shortest decimal, without trailing zeros. */
  function Render(h: Hundredths): string
  {
    if h == 0 then "0"
    else if h == 100 then "1"
    else "0." + [Digit(h / 10)] + (if h % 10 == 0 then "" else [Digit(h % 10)])
  }

  /** Reads back a rendered value; anything that is not the canonical rendering is refused. */
  function Parse(s: string): Option<Hundredths>
  {
    if s == "0" then Some(0)
    else if s == "1" then Some(100)
    else if |s| == 3 && s[0] == '0' && s[1] == '.' && IsDigitAscii(s[2]) && s[2] != '0' then
      Some(DigitValue(s[2]) * 10)
    else if |s| == 4 && s[0] == '0' && s[1] == '.' && IsDigitAscii(s[2]) && IsDigitAscii(s[3]) && s[3] != '0' then
      Some(DigitValue(s[2]) * 10 + DigitValue(s[3]))
    else None
  }

  /** Rendering is faithful: the value can be read back from its text. */
  lemma ParseRender(h: Hundredths)
    ensures Parse(Render(h)) == Some(h)
  {
    var s := Render(h);
    if 0 < h < 100 {
      assert DigitValue(Digit(h / 10)) == h / 10;
      assert DigitValue(Digit(h % 10)) == h % 10;
      if h % 10 == 0 {
        assert |s| == 3 && s[2] == Digit(h / 10);
      } else {
        assert |s| == 4 && s[2] == Digit(h / 10) && s[3] == Digit(h % 10);
      }
    }
  }

  /** Every text Parse accepts is the rendering of the value it yields. */
  lemma RenderParse(s: string, h: Hundredths)
    requires Parse(s) == Some(h)
    ensures Render(h) == s
  {
    if s != "0" && s != "1" {
      assert Digit(DigitValue(s[2])) == s[2];
      if |s| == 4 {
        assert Digit(DigitValue(s[3])) == s[3];
        assert h / 10 == DigitValue(s[2]) && h % 10 == DigitValue(s[3]);
        assert Render(h) == "0." + [s[2]] + [s[3]];
      } else {
        assert h / 10 == DigitValue(s[2]) && h % 10 == 0;
        assert Render(h) == "0." + [s[2]];
      }
    }
  }

  /** A rendered value contains neither a space nor anything the encodings would escape. */
  lemma RenderUnreserved(h: Hundredths)
    ensures forall i :: 0 <= i < |Render(h)| ==> FormUnreserved(Render(h)[i]) && UriUnreserved(Render(h)[i])
  {
  }

  /** The seven optional audio-feature fields of a table entry. */
  datatype Targets = Targets(
    targetValence: Option<Hundredths>,
    targetEnergy: Option<Hundredths>,
    minValence: Option<Hundredths>,
    maxValence: Option<Hundredths>,
    minEnergy: Option<Hundredths>,
    maxEnergy: Option<Hundredths>,
    minDanceability: Option<Hundredths>)

  /** The empty entry `{}` used for a mood the table does not know. */
  const NoTargets: Targets := Targets(None, None, None, None, None, None, None)

  const MoodTable: map<string, Targets> := map[
    "blij" := Targets(Some(90), Some(80), None, None, None, None, Some(70)),
    "energiek" := Targets(Some(75), Some(90), None, None, None, None, Some(70)),
    "relaxed" := Targets(Some(60), Some(35), None, None, None, Some(45), Some(30)),
    "verdrietig" := Targets(Some(20), Some(20), None, None, None, None, None),
    "romantisch" := Targets(Some(65), Some(50), None, None, None, None, Some(40)),
    "boos" := Targets(Some(30), Some(85), None, None, None, None, Some(50)),
    "neutraal" := Targets(Some(50), Some(50), None, None, None, None, None),
    "dromerig" := Targets(Some(60), Some(40), None, None, None, None, Some(35)),
    "gestrest" := Targets(Some(40), Some(25), None, None, None, None, Some(20))
  ]

  /** The moods the table knows. */
  const Moods: set<string> := {
    "blij", "energiek", "relaxed", "verdrietig", "romantisch", "boos", "neutraal", "dromerig", "gestrest"
  }

  /** `moodAudioTargets[mood] || {}`. */
  function TargetsFor(mood: string): (t: Targets)
    ensures mood in Moods <==> t != NoTargets
    ensures mood in Moods ==> t.targetValence.Some? && t.targetEnergy.Some?
  {
    if mood in MoodTable then MoodTable[mood] else NoTargets
  }

  /** A bound pair is consistent when both present: min does not exceed max. */
  predicate Ordered(lo: Option<Hundredths>, hi: Option<Hundredths>)
  {
    lo.Some? && hi.Some? ==> lo.value <= hi.value
  }

  /** A target lies within the bounds that are present. */
  predicate Within(x: Option<Hundredths>, lo: Option<Hundredths>, hi: Option<Hundredths>)
  {
    x.Some? ==> (lo.Some? ==> lo.value <= x.value) && (hi.Some? ==> x.value <= hi.value)
  }

  predicate Consistent(t: Targets)
  {
    && Ordered(t.minValence, t.maxValence)
    && Ordered(t.minEnergy, t.maxEnergy)
    && Within(t.targetValence, t.minValence, t.maxValence)
    && Within(t.targetEnergy, t.minEnergy, t.maxEnergy)
  }

  /** Every entry of the table, and the empty entry, has ordered bounds and targets within them. */
  lemma TableConsistent(mood: string)
    ensures Consistent(TargetsFor(mood))
  {
  }

  /** `[(name, String(v))]` when the field is a number, nothing otherwise. */
  function OptionalParam(name: string, v: Option<Hundredths>): seq<(string, string)>
  {
    if v.Some? then [(name, Render(v.value))] else []
  }

  /**
   * The defined fields of an entry as (snake_case name, rendered value) pairs,
   * in the field order target_valence, target_energy, min_valence, max_valence,
   * min_energy, max_energy, min_danceability; the query and the fallback both use it.
   */
  function TargetParams(t: Targets): seq<(string, string)>
  {
    OptionalParam("target_valence", t.targetValence)
    + OptionalParam("target_energy", t.targetEnergy)
    + OptionalParam("min_valence", t.minValence)
    + OptionalParam("max_valence", t.maxValence)
    + OptionalParam("min_energy", t.minEnergy)
    + OptionalParam("max_energy", t.maxEnergy)
    + OptionalParam("min_danceability", t.minDanceability)
  }

  /** The field a query-parameter name stands for, None for any other name. */
  function FieldValue(t: Targets, name: string): Option<Hundredths>
  {
    if name == "target_valence" then t.targetValence
    else if name == "target_energy" then t.targetEnergy
    else if name == "min_valence" then t.minValence
    else if name == "max_valence" then t.maxValence
    else if name == "min_energy" then t.minEnergy
    else if name == "max_energy" then t.maxEnergy
    else if name == "min_danceability" then t.minDanceability
    else None
  }
}
