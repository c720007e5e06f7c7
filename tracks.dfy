/**
 * The catalog's track records and their flattening (`data.tracks.map(...)` in
 * the recommendations handler).
 */
module Tracks {
  import opened Wrappers
  import opened Text

  datatype RawArtist = RawArtist(name: Option<string>)
  datatype RawImage = RawImage(url: Option<string>)
  datatype RawAlbum = RawAlbum(name: Option<string>, images: Option<seq<RawImage>>)

  /**
   * A track as the catalog returns it. `artists` and `spotifyUrl` are None when
   * the record lacks the `artists` array or the `external_urls` object; reading
   * through them then throws.
   */
  datatype RawTrack = RawTrack(
    name: string,
    artists: Option<seq<RawArtist>>,
    spotifyUrl: Option<string>,
    album: Option<RawAlbum>,
    previewUrl: Option<string>)

  /** The flat record the handler returns. */
  datatype Track = Track(title: string, artist: string, url: string, album: string, image: string, previewUrl: string)

  /** The record can be flattened without throwing. */
  predicate Normalizable(t: RawTrack)
  {
    t.artists.Some? && t.spotifyUrl.Some?
  }

  function OrEmpty(o: Option<string>): (r: string)
    ensures o.Some? ==> r == o.value
    ensures o.None? ==> r == ""
  {
    if o.Some? then o.value else ""
  }

  /** `a.name` for each artist; `join` renders a missing name as the empty string. */
  function ArtistNames(artists: seq<RawArtist>): (ns: seq<string>)
    ensures |ns| == |artists|
    ensures forall i :: 0 <= i < |artists| ==> ns[i] == OrEmpty(artists[i].name)
  {
    seq(|artists|, i requires 0 <= i < |artists| => OrEmpty(artists[i].name))
  }

  /** `track.album?.name ?? ''`. */
  function AlbumName(album: Option<RawAlbum>): string
  {
    if album.Some? then OrEmpty(album.value.name) else ""
  }

  /** `track.album?.images?.[0]?.url ?? ''`. */
  function CoverUrl(album: Option<RawAlbum>): string
  {
    if album.Some? && album.value.images.Some? && |album.value.images.value| > 0 then
      OrEmpty(album.value.images.value[0].url)
    else ""
  }

  /** The flat record of one catalog track. */
  function Normalize(t: RawTrack): (r: Track)
    requires Normalizable(t)
    ensures r.title == t.name && r.url == t.spotifyUrl.value
    ensures r.artist == Join(ArtistNames(t.artists.value), ", ")
    ensures r.album == "" <==> t.album.None? || t.album.value.name.None? || t.album.value.name == Some("")
    ensures r.album != "" ==> t.album.Some? && t.album.value.name == Some(r.album)
    ensures r.image == "" <==>
              || t.album.None? || t.album.value.images.None? || |t.album.value.images.value| == 0
              || t.album.value.images.value[0].url.None? || t.album.value.images.value[0].url == Some("")
    ensures r.image != "" ==>
              && t.album.Some? && t.album.value.images.Some? && |t.album.value.images.value| > 0
              && t.album.value.images.value[0].url == Some(r.image)
    ensures r.previewUrl == "" <==> t.previewUrl.None? || t.previewUrl == Some("")
    ensures r.previewUrl != "" ==> t.previewUrl == Some(r.previewUrl)
  {
    Track(t.name, Join(ArtistNames(t.artists.value), ", "), t.spotifyUrl.value,
          AlbumName(t.album), CoverUrl(t.album), OrEmpty(t.previewUrl))
  }

  /**
   * `data.tracks.map(...)`: every record flattened, in order; None when some
   * record throws, which the handler turns into the fallback.
   */
  function NormalizeAll(raws: seq<RawTrack>): (r: Option<seq<Track>>)
    ensures r.Some? <==> forall i :: 0 <= i < |raws| ==> Normalizable(raws[i])
    ensures r.Some? ==> |r.value| == |raws|
    ensures r.Some? ==> forall i :: 0 <= i < |raws| ==> r.value[i] == Normalize(raws[i])
  {
    if |raws| == 0 then Some([])
    else if !Normalizable(raws[0]) then None
    else
      var rest := NormalizeAll(raws[1..]);
      if rest.None? then None else Some([Normalize(raws[0])] + rest.value)
  }

  /** Two artists are shown as "Ann, Bob". */
  lemma TwoArtists()
    ensures Join(ArtistNames([RawArtist(Some("Ann")), RawArtist(Some("Bob"))]), ", ") == "Ann, Bob"
  {
  }

  /** An extra artist adds ", " and its name at the end of the artist string. */
  lemma ArtistAppended(artists: seq<RawArtist>, extra: RawArtist)
    requires |artists| >= 1
    ensures Join(ArtistNames(artists + [extra]), ", ") == Join(ArtistNames(artists), ", ") + ", " + OrEmpty(extra.name)
  {
    assert ArtistNames(artists + [extra]) == ArtistNames(artists) + [OrEmpty(extra.name)];
    JoinSnoc(ArtistNames(artists), OrEmpty(extra.name), ", ");
  }
}
