# Moodify recommendations: a Dafny model

Moodify suggests music for a mood. This project models two parts of it:

- The `GET` handler of the recommendations route, `app/api/spotify/recommendations/route.ts`. It takes a mood such as `blij`, `relaxed` or `gestrest`, and optionally a seed genre.
  - It validates the genre against the catalog's fixed list of seed genres.
  - It looks up the mood's audio-feature targets (valence, energy, danceability).
  - It builds the `URLSearchParams` query and asks the Spotify catalog for eight recommendations. It uses the signed-in user's token if there is one, and the app token otherwise.
  - It retries once with the app token after a 401 when a user token was used. Then, when the latest status is not 200 and the seed is not already `pop`, it retries once with seed `pop`.
  - On success it flattens the returned tracks. On any failure inside its `try` block it answers with a YouTube search link (`buildYoutubeFallback`).
- The home page's start-up rule, `app/page.tsx`. It derives the interface language and the preselected market from the browser's locale tag.

## Modules

| module | file | what it holds |
|---|---|---|
| `Wrappers`, `Text` | `text.dfy` | `Option`; ASCII `toLowerCase`/`toUpperCase`; `join`; one-character `split`; `encodeURIComponent` and the form encoding of `URLSearchParams`, with their decoders |
| `Seeds` | `moods.dfy` | `allowedSeeds` and the seed validation |
| `MoodTargets` | `moods.dfy` | `moodAudioTargets`, each value in hundredths. `String(v)` of those values is `Render`. |
| `QueryParams` | `query.dfy` | `URLSearchParams`: the class `SearchParams`, whose `Set` updates its pairs in place, specified by `SetEntry`; `toString` as `Serialize`, with the form-urlencoded parser `DecodeQuery` as its inverse |
| `Tracks` | `tracks.dfy` | the catalog's raw track records and the `map` that flattens them |
| `Fallback` | `fallback.dfy` | `buildYoutubeFallback` as an imperative method, and its specification `FallbackFor` |
| `Recommendations` | `recommendations.dfy` | `GET` as the method `Get`; the request chain as the method `FetchChain`; their specifications `Serve` and `Attempts` |
| `Locale` | `locale.dfy` | the language and market derivation |

The catalog is an oracle `catalog: Request -> Reply`.
- A `Request` records the bearer token, which kind of token it is, and the query pairs. `Url` renders them into the URL that is fetched.
- A `Reply` is a rejected `fetch` (`NetworkError`) or an HTTP status with the body's track list. The track list is None when the body is not JSON or has no `tracks` array.

The app-token provider is one outcome, `appToken: Option<string>`, where None means it rejects. `Get` calls it at most once (proved), so one outcome suffices. `Get` also returns the list of requests it issued and the number of provider calls, so the retry chain can be stated.

## Behaviour worth knowing

- The handler sends no market, offset or seed-track parameter, and it has no mood-to-genre default.
- The `pop` retry fires on any status other than 200, not only on a seed rejection. A 204 from a non-`pop` seed is therefore retried, and so is a 401 that the app-token retry did not cure.
- The final check is `res.ok`, so 200 to 299 counts as success.
- After a 401 with a user token, the handler always asks for an app token and retries. It never reports an authentication failure.
  - If that second provider call fails, it does so inside the `try` block, so the answer is the fallback.
  - The first provider call (made when there is no user token) is outside the `try` block. If it fails, the handler itself rejects (`Rejected`) and returns no fallback.
- A user token that is the empty string is a string, so it is used as the bearer token. But it is falsy, so it never triggers the 401 retry, and the `source` tag becomes `spotify-app`.
- The source tags are `spotify-user`, `spotify-app` and `youtube-fallback`.

## Model

| member | source | states |
|---|---|---|
| Seeds.EmptyNotAllowed | app/api/spotify/recommendations/route.ts:6-24 | The empty string is not one of the allowed seed genres, so "no seed" can never be mistaken for a seed. |
| Seeds.ChosenSeed | app/api/spotify/recommendations/route.ts:81-82 | The chosen seed is either "" or an allowed genre. It is non-empty exactly when the parameter is present and its lower-case form is allowed, and then it equals that lower-case form. |
| Seeds.FirstSeedAllowed | app/api/spotify/recommendations/route.ts:85 | The seed of the first request is the lower-cased `seed` parameter when that is an allowed genre, and `pop` otherwise; so it is always an allowed genre. |
| Seeds.AllPlain | app/api/spotify/recommendations/route.ts:6-24 | Every allowed genre is written in lower-case ASCII letters and '-' only. |
| Seeds.SeedCaseInsensitive | app/api/spotify/recommendations/route.ts:81-82 | Any casing of an allowed (lower-case) genre selects that genre. |
| MoodTargets.TargetsFor | app/api/spotify/recommendations/route.ts:27-48 | A mood has targets exactly when it is one of the nine table moods. Every table mood sets a target valence and a target energy; any other mood gives the empty entry. |
| MoodTargets.TableConsistent | app/api/spotify/recommendations/route.ts:39-47 | In every entry each min bound is at most its max bound, and each target lies within the bounds present. |
| MoodTargets.ParseRender | app/api/spotify/recommendations/route.ts:110-116 | `String(v)` of a table value reads back as the same value. |
| MoodTargets.RenderParse | app/api/spotify/recommendations/route.ts:110-116 | Any text that reads as a value is exactly that value's `String(v)`, so the rendering is canonical. |
| MoodTargets.RenderUnreserved | app/api/spotify/recommendations/route.ts:63 | A rendered value contains only characters that neither encoding escapes. |
| Text.ToLower | app/api/spotify/recommendations/route.ts:80-81 | Lower-casing keeps the length and leaves no upper-case ASCII letter. Every other character is kept, and each letter moves by 32. |
| Text.ToUpper | app/page.tsx:36-41 | The upper-case counterpart of `ToLower`. |
| Text.JoinSnoc | app/api/spotify/recommendations/route.ts:151 | Appending a part appends the separator and the part to the joined text. |
| Text.JoinLength | app/api/spotify/recommendations/route.ts:62-63 | The joined length is the parts' total length plus one separator between each pair of parts. |
| Text.JoinSplit | app/page.tsx:36 | Splitting on a character and joining back on it returns the original string. |
| Text.SplitJoin | app/page.tsx:36 | Joining parts that do not contain the separator, then splitting, returns the parts. |
| Text.SplitAtFirst | app/page.tsx:36 | The first separator after a separator-free prefix cuts exactly there. |
| Text.SeveralPartsIffSeparator | app/page.tsx:36 | A second part exists exactly when the separator occurs. |
| Text.UnescapeEscape | app/api/spotify/recommendations/route.ts:63 | Decoding the percent-encoding (either variant) of a string gives back the string. |
| Text.FormEncodeAvoids | app/api/spotify/recommendations/route.ts:123 | The form encoding never emits an `&` or `=` of its own, nor any other escaped ASCII character that is not `%`, `+` or a hex digit. |
| Text.EscapeUnreserved | app/api/spotify/recommendations/route.ts:63 | A string of unreserved characters is its own encoding. |
| QueryParams.SearchParams.constructor | app/api/spotify/recommendations/route.ts:94-97 | A new query object holds exactly the given pairs, in order. |
| QueryParams.SearchParams.Set | app/api/spotify/recommendations/route.ts:110-116 | `set` updates the pairs in place as `SetEntry` does. |
| QueryParams.SetThenLookup | app/api/spotify/recommendations/route.ts:135 | After `set(name, v)`, `get(name)` is `v` and every other name reads as before. |
| QueryParams.SetReplacesInPlace | app/api/spotify/recommendations/route.ts:135 | With distinct names, `set` of a present name changes only that pair's value, in its position. |
| QueryParams.SetAppends | app/api/spotify/recommendations/route.ts:110-116 | `set` of an absent name appends the pair and keeps the names distinct. |
| QueryParams.LookupAppend | app/api/spotify/recommendations/route.ts:94-116 | `get` on a concatenation answers from the first part that holds the name. |
| QueryParams.Without | app/api/spotify/recommendations/route.ts:135 | Removing a name leaves no pair with that name, and removing an absent name changes nothing. |
| QueryParams.SerializeDecodes | app/api/spotify/recommendations/route.ts:123-136 | `toString` loses nothing: the form-urlencoded parser reads the serialised query back as the same pairs, in the same order. |
| QueryParams.SerializeStartsWith | app/api/spotify/recommendations/route.ts:123 | When the first two pairs need no escaping, the serialised query starts with them as written, `name=value&name=value`. |
| Tracks.Normalize | app/api/spotify/recommendations/route.ts:150-155 | The flat record's title and URL are the track's. Its artist is the names joined with ", ". Album, image and preview are "" exactly when missing (or empty), and otherwise taken from the track. |
| Tracks.NormalizeAll | app/api/spotify/recommendations/route.ts:149-156 | Flattening succeeds exactly when every record has its artists and its external URLs. It then keeps the length and flattens element by element. |
| Tracks.TwoArtists | app/api/spotify/recommendations/route.ts:151 | Two artists read "Ann, Bob". |
| Tracks.ArtistAppended | app/api/spotify/recommendations/route.ts:151 | An extra artist adds ", " and its name (or "" when it has none) at the end. |
| Fallback.PushIfDefined | app/api/spotify/recommendations/route.ts:54-60 | One push step appends `name=value` exactly when the field is defined. |
| Fallback.BuildYoutubeFallback | app/api/spotify/recommendations/route.ts:50-76 | The imperative builder yields the payload `FallbackFor` specifies. |
| Fallback.FallbackShape | app/api/spotify/recommendations/route.ts:62-75 | The payload keeps the mood, carries the `youtube-fallback` tag and no tracks, and holds one recommendation. Its title names the seed, or the mood when there is no seed, and its link starts with the YouTube search URL. |
| Fallback.FallbackQueryDecodes | app/api/spotify/recommendations/route.ts:62-72 | The link's query decodes to the search text, which starts with the seed or the mood. |
| Fallback.TokensHaveNoSpace | app/api/spotify/recommendations/route.ts:54-60 | No `name=value` token contains a space. |
| Fallback.FallbackTokensSeparated | app/api/spotify/recommendations/route.ts:54-63 | When the seed or mood has no space, splitting the search text on spaces gives it back, followed by the target tokens in field order. |
| Recommendations.UrlDecodes | app/api/spotify/recommendations/route.ts:123-136 | Every fetched URL is the recommendations endpoint followed by a query that parses back to exactly the request's pairs. |
| Recommendations.FirstUrlPrefix | app/api/spotify/recommendations/route.ts:85-123 | For an allowed seed, the first URL starts with the endpoint, then `seed_genres=` and the seed unescaped, then `&limit=8`. |
| Recommendations.MoodOf | app/api/spotify/recommendations/route.ts:80 | The mood is never empty. It is the lower-cased parameter when that is non-empty, and `blij` otherwise. |
| Recommendations.TargetLookup | app/api/spotify/recommendations/route.ts:110-116 | `get` on the target parameters yields the rendered field of that name, and nothing for any other name. |
| Recommendations.QueryShape | app/api/spotify/recommendations/route.ts:94-116 | The first query has `seed_genres` and `limit=8` in front. Its names are exactly those two followed by the names of the mood's defined fields, so no name repeats. Each field is read back as its rendered value under its snake_case name. An unknown mood adds nothing. |
| Recommendations.SeedNamedOnlyFirst | app/api/spotify/recommendations/route.ts:94-116 | `seed_genres` is the first pair's name and occurs in no other pair. |
| Recommendations.PopQueryOfInitial | app/api/spotify/recommendations/route.ts:134-135 | On the first query, `set('seed_genres', 'pop')` replaces the leading pair only. |
| Recommendations.PopRetryChangesOnlySeed | app/api/spotify/recommendations/route.ts:133-138 | The `pop` query has the same length, `seed_genres=pop` first, and every later pair unchanged. Every other name reads as before, and the query differs exactly when the seed was not `pop`. |
| Recommendations.SetIfDefined | app/api/spotify/recommendations/route.ts:110-116 | One `set` step on a name not yet present appends the pair exactly when the field is a number. |
| Recommendations.BuildQuery | app/api/spotify/recommendations/route.ts:94-116 | The imperative construction yields `InitialQuery`. |
| Recommendations.AttemptsShape | app/api/spotify/recommendations/route.ts:124-139 | At most three requests, the first one first. The provider is asked inside the chain exactly when the app-token retry is due, at most once. A 200 or a rejected first `fetch` ends the chain after one request. So does a failing provider after a 401 to a user token: then there is no reply to inspect, and the handler falls back. |
| Recommendations.AppRetryExactlyWhenDue | app/api/spotify/recommendations/route.ts:126-130 | The app-token retry happens when a user token was used and a 401 came back, and the provider succeeds; it happens in no other case. It reuses the first query and URL with the app token, and no later request repeats the first query, so there is at most one app-token retry. |
| Recommendations.OtherRequestIsPopRetry | app/api/spotify/recommendations/route.ts:132-139 | Any later request with a different query is the last one and is the `pop` retry. It was due after the request before it, carries that request's token, and uses the first query with `seed_genres=pop`. |
| Recommendations.PopRetryNotSkipped | app/api/spotify/recommendations/route.ts:127-139 | If the last request still carries the first query and its reply calls for the `pop` retry, the only reason is that the provider failed on the 401 path. |
| Recommendations.AnswerIsLastReply | app/api/spotify/recommendations/route.ts:124-141 | The reply the handler inspects is the reply to its last request. When there is none, that `fetch` was rejected or the provider failed after a 401. |
| Recommendations.ServeFirstRequest | app/api/spotify/recommendations/route.ts:85-91 | The handler rejects exactly when there is neither a user token nor an app token. Otherwise the first request carries the first query, with the user token when there is one; there are 1 to 3 requests and at most one provider call. |
| Recommendations.ChainOutcome | app/api/spotify/recommendations/route.ts:124-165 | Whatever path the request chain takes, the handler gives what its last reply alone would give: the chain ends with at least one request, and a chain cut short by a rejected `fetch` or a failing provider falls back just as a failing last reply does. |
| Recommendations.ServeOutcome | app/api/spotify/recommendations/route.ts:141-166 | Once a token is available, the handler recommends exactly when the last reply is ok with tracks that all flatten. It then returns them with the mood and the token's source tag. Every other outcome is the fallback for the mood and the validated seed. The predicate `AnsweredByLastReply` spells this out. |
| Recommendations.FetchChain | app/api/spotify/recommendations/route.ts:118-139 | The imperative request chain issues exactly the requests `Attempts` specifies and returns its answer and provider count. |
| Recommendations.Conclude | app/api/spotify/recommendations/route.ts:141-162 | The imperative ending yields `Respond`. |
| Recommendations.FallbackResult | app/api/spotify/recommendations/route.ts:163-166 | The catch block answers with `FallbackFor(mood, chosenSeed)`. |
| Recommendations.Get | app/api/spotify/recommendations/route.ts:78-167 | The handler's answer, request list and provider count are `Serve` of the normalised mood and the validated seed; the lemmas above state what `Serve` guarantees. |
| Locale.LangCode | app/page.tsx:30 | The code is the first two characters, or the whole tag when it is shorter, and it is a prefix of the tag. |
| Locale.Language | app/page.tsx:24-33 | The language is always translated. It is the code when `translations` has it, and `en` otherwise. |
| Locale.CountryCode | app/page.tsx:36 | There is a country part exactly when the tag contains '-'. The part has no '-'. |
| Locale.CountryIsSecondSegment | app/page.tsx:36 | The country part is the upper-cased second '-'-separated segment, in a two-part tag and in a tag with more parts alike. |
| Locale.ScriptSubtagTaken | app/page.tsx:36 | In `zh-Hant-TW` the script subtag is taken: the country part is `HANT`. |
| Locale.Market | app/page.tsx:36-47 | The market is the country part when it is non-empty and a market; otherwise the upper-cased language code when that is a market; otherwise `US`. So it is always a market key or `US`. |
| Locale.Detect | app/page.tsx:29-48 | The settings always pair a translated language with a market key or `US`. |
| Locale.NoCountryPart | app/page.tsx:36-46 | A tag without '-' skips the country step. |
| Locale.RegionWins | app/page.tsx:36-38 | In `lang-region`, an upper-cased region that names a market wins over the language code. |
| Locale.RegionUnknown | app/page.tsx:40-46 | A region that names no market hands over to the language code, then to `US`. |
| Locale.DutchLocale | app/page.tsx:29-48 | `nl-NL` gives Dutch and the NL market. |
| Locale.EnglishLocale | app/page.tsx:40-46 | `en`, with `EN` not a market, gives English and `US`. |
| Locale.UntranslatedLanguage | app/page.tsx:29-38 | `fr-BE` gives English (French is not translated) and the BE market. |

## Left out

- Network calls, the app-token POST, `getToken` and `process.env` are abstract: the catalog is an oracle, the provider one outcome, the session's `accessToken` a parameter.
- Logging (`console.error`), `res.text()` and the `NextResponse` envelope are not modelled. `Rejected` stands for the rejected promise of the handler.
- Numbers are hundredths in 0..100. They cover every table value, but not JavaScript's general `String(number)`.
- Unicode: case mapping covers ASCII letters only.
  - Both encoders pass non-ASCII characters through unchanged instead of emitting their UTF-8 bytes as `%XX`.
  - `slice(0, 2)` counts characters, not UTF-16 code units.
- `countries` in the page is not part of this model. Its keys are an abstract set, and every listed country is assumed to have a truthy name.
- A `null` element in `data.tracks` or in a track's `artists` is not expressible: `RawTrack` and `RawArtist` are records. In the source such an element throws and leads to the fallback, as a track without `artists` does in the model.
- A track record whose `name` or `external_urls.spotify` field is missing is not modelled. The title is a string, and the URL is present whenever `external_urls` is.
- `DecodeQuery` is the form-urlencoded parser of the URL standard as a receiver applies it. The handler never parses a query; the parser exists only to state that `toString` loses nothing.
- Determinism is built in, since every definition is a function. A second call with the same inputs is not stated separately.
- The page's rendering, the mood grid, the footer, the terms and privacy pages, the auth route and the second recommendations route are out of scope.
