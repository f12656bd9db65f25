/**
 * `createSong` in the second song controller: the admin gate, the required
 * fields, and how the form's loosely typed fields are coerced before the song
 * is stored. Uploads, currency conversion and `parseFloat` are parameters;
 * the work the controller starts is recorded as a list of steps, so that a
 * rejected request can be seen to start none.
 */
module Songs {
  import opened Wrappers
  import Js

  /** `basePrice` as the form sends it. */
  datatype BasePrice = BasePrice(amount: string, currency: string)

  /** The stored `basePrice`: the parsed amount and the currency. */
  datatype StoredPrice = StoredPrice(amount: real, currency: string)

  /** One entry of `convertedPrices`. */
  datatype ConvertedPrice = ConvertedPrice(currency: string, amount: real)

  /** The request body of `createSong`. */
  datatype SongInput = SongInput(
    title: Js.Value,
    artist: Js.Value,
    genre: Js.Value,
    duration: Js.Value,
    basePrice: Option<BasePrice>,
    accessType: string,
    releaseDate: string,
    albumOnly: Js.Value,
    album: string)

  /** The document handed to the song service. */
  datatype SongData = SongData(
    title: Js.Value,
    artist: Js.Value,
    genre: Js.Value,
    duration: Js.Value,
    basePrice: Option<StoredPrice>,     // None is `null`
    accessType: string,
    releaseDate: string,
    albumOnly: bool,
    album: string,
    convertedPrices: seq<ConvertedPrice>,
    audioUrl: string,
    coverImage: string)

  datatype SongError = Unauthorized | MissingRequiredFields

  /** The asynchronous work the controller starts, in order. */
  datatype Step = UploadAudio | CoverImage | ConvertCurrencies | CreateSong

  /** A string genre is split on "," and trimmed; any other value passes through. */
  function CoerceGenre(genre: Js.Value): (r: Js.Value)
    // text becomes a non-empty list of trimmed, comma-free names
    ensures genre.Str? ==>
      r.Arr? && |r.items| >= 1 && forall i :: 0 <= i < |r.items| ==> Js.Trimmed(r.items[i]) && ',' !in r.items[i]
    ensures !genre.Str? ==> r == genre
    // the result is never text, and its truthiness is unchanged except that "" becomes [""]
    ensures !r.Str?
    ensures genre != Js.Str("") ==> Js.Truthy(r) == Js.Truthy(genre)
  {
    if genre.Str? then Js.Arr(Js.SplitTrim(genre.s)) else genre
  }

  /** A string albumOnly is true only when it is exactly "true"; anything else by truthiness. */
  function CoerceAlbumOnly(albumOnly: Js.Value): (r: bool)
    // never sets the flag for a falsy value, and keeps a boolean as it is
    ensures r ==> Js.Truthy(albumOnly)
    ensures albumOnly.Bool? ==> r == albumOnly.b
    // of all strings, only "true" sets the flag
    ensures albumOnly.Str? ==> (r <==> albumOnly.s == "true")
    ensures !albumOnly.Str? ==> (r <==> Js.Truthy(albumOnly))
  {
    if albumOnly.Str? then albumOnly.s == "true" else Js.Truthy(albumOnly)
  }

  /** The coercions are stable: a coerced value coerces to itself. */
  lemma CoercionsSettle(genre: Js.Value, albumOnly: Js.Value)
    ensures CoerceGenre(CoerceGenre(genre)) == CoerceGenre(genre)
    ensures CoerceAlbumOnly(Js.Bool(CoerceAlbumOnly(albumOnly))) == CoerceAlbumOnly(albumOnly)
  {
  }

  /** The text "false" is truthy, and the coercion reads it as false; "TRUE" is false too. */
  lemma StringFlagsAreNotTruthiness()
    ensures Js.Truthy(Js.Str("false")) && !CoerceAlbumOnly(Js.Str("false"))
    ensures !CoerceAlbumOnly(Js.Str("TRUE")) && CoerceAlbumOnly(Js.Str("true"))
  {
  }

  /** A genre list sent as comma-separated text comes back as the list, when its names need no trimming. */
  lemma GenreTextRoundTrip(genres: seq<string>)
    requires |genres| >= 1
    requires forall i :: 0 <= i < |genres| ==> ',' !in genres[i]
    requires forall i :: 0 <= i < |genres| ==> Js.Trimmed(genres[i])
    ensures CoerceGenre(Js.Str(Js.Join(genres, ','))) == Js.Arr(genres)
  {
    Js.SplitTrimJoin(genres);
  }

  /**
   * `createSong`: the admin check, the required fields, then uploads,
   * conversion (only with a base price) and the insert. `parseAmount` is
   * `parseFloat`, `convert` is `convertCurrencies`, and the two URLs are what
   * the uploads return.
   */
  function CreateSongRequest(isAdmin: bool, input: SongInput, parseAmount: string -> real,
                             convert: (string, string) -> seq<ConvertedPrice>,
                             audioUrl: string, coverImageUrl: string)
    : (r: (Result<SongData, SongError>, seq<Step>))
    // a rejected request starts no work
    ensures r.0.Err? <==> r.1 == []
    ensures !isAdmin ==> r.0 == Err(Unauthorized)
    ensures isAdmin ==>
      (r.0 == Err(MissingRequiredFields) <==>
         !Js.Truthy(input.title) || !Js.Truthy(input.artist) || !Js.Truthy(input.duration))
    ensures r.0.Ok? ==> isAdmin && Js.Truthy(input.title) && Js.Truthy(input.artist) && Js.Truthy(input.duration)
    // conversion runs exactly when there is a base price
    ensures r.0.Ok? ==> (ConvertCurrencies in r.1 <==> input.basePrice.Some?)
    ensures r.0.Ok? ==> r.0.value.genre == CoerceGenre(input.genre)
    ensures r.0.Ok? ==> r.0.value.albumOnly == CoerceAlbumOnly(input.albumOnly)
    ensures r.0.Ok? && input.basePrice.None? ==> r.0.value.basePrice.None? && r.0.value.convertedPrices == []
    ensures r.0.Ok? && input.basePrice.Some? ==>
      r.0.value.basePrice == Some(StoredPrice(parseAmount(input.basePrice.value.amount), input.basePrice.value.currency))
      && r.0.value.convertedPrices == convert(input.basePrice.value.currency, input.basePrice.value.amount)
    ensures r.0.Ok? ==>
      (r.0.value.title, r.0.value.artist, r.0.value.duration, r.0.value.album) == (input.title, input.artist, input.duration, input.album)
    ensures r.0.Ok? ==> r.0.value.audioUrl == audioUrl && r.0.value.coverImage == coverImageUrl
  {
    if !isAdmin then (Err(Unauthorized), [])
    else if !Js.Truthy(input.title) || !Js.Truthy(input.artist) || !Js.Truthy(input.duration) then
      (Err(MissingRequiredFields), [])
    else
      var converted := match input.basePrice
        case None => []
        case Some(p) => convert(p.currency, p.amount);
      var stored := match input.basePrice
        case None => None
        case Some(p) => Some(StoredPrice(parseAmount(p.amount), p.currency));
      var steps := [UploadAudio, CoverImage] + (if input.basePrice.Some? then [ConvertCurrencies] else []) + [CreateSong];
      (Ok(SongData(input.title, input.artist, CoerceGenre(input.genre), input.duration, stored, input.accessType,
                   input.releaseDate, CoerceAlbumOnly(input.albumOnly), input.album, converted, audioUrl, coverImageUrl)),
       steps)
  }

  /** The admin gate comes first: a non-admin request is refused whatever its body. */
  lemma AdminGateFirst(input1: SongInput, input2: SongInput, parseAmount: string -> real,
                       convert: (string, string) -> seq<ConvertedPrice>, audio: string, cover: string)
    ensures CreateSongRequest(false, input1, parseAmount, convert, audio, cover)
         == CreateSongRequest(false, input2, parseAmount, convert, audio, cover)
  {
  }
}
