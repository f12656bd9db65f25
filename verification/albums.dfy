/**
 * The album catalogue service: the price rule and genre parsing of `create`,
 * the pagination arithmetic of `getAll` and `getByArtist`, the id-or-slug
 * classification of identifiers, and `deleteById` and `update` on a known or
 * unknown id. Uploads are parameters (the URL, "" for no file); the
 * repository's sorted queries are not part of this model.
 */
module Albums {
  import opened Wrappers
  import Js
  import Store

  /** A stored album. */
  datatype Album = Album(
    title: string,
    artistId: string,
    slug: string,
    accessType: string,
    price: int,
    genre: seq<string>,
    coverImage: string,
    songs: seq<string>)

  /** The request body of `create`; `price` is None when absent or null. */
  datatype AlbumInput = AlbumInput(
    title: string,
    artistId: string,
    slug: string,
    accessType: string,
    price: Option<int>,
    genre: Js.Value,
    songs: seq<string>)

  datatype AlbumError = BadRequest | NotFound | DuplicateId

  const PurchaseOnly := "purchase-only"

  /** `!price || price <= 0`: no usable price. */
  predicate MissingPrice(price: Option<int>) {
    price.None? || price.value <= 0
  }

  /** An array is kept, a string is split on "," and trimmed, anything else is empty. */
  function ProcessGenre(genre: Js.Value): (r: seq<string>)
    ensures genre.Arr? ==> r == genre.items
    // text always yields at least one name, none holding a comma or surrounding space
    ensures genre.Str? ==> |r| >= 1 && forall i :: 0 <= i < |r| ==> Js.Trimmed(r[i]) && ',' !in r[i]
    ensures !genre.Arr? && !genre.Str? ==> r == []
  {
    match genre
    case Arr(items) => items
    case Str(s) => Js.SplitTrim(s)
    case _ => []
  }

  /** A genre list survives being sent as comma-separated text, when its names need no trimming. */
  lemma GenreTextRoundTrip(genres: seq<string>)
    requires |genres| >= 1
    requires forall i :: 0 <= i < |genres| ==> ',' !in genres[i]
    requires forall i :: 0 <= i < |genres| ==> Js.Trimmed(genres[i])
    ensures ProcessGenre(Js.Str(Js.Join(genres, ','))) == genres
  {
    Js.SplitTrimJoin(genres);
  }

  /** `create`: the price rule, then the insert under `newId`. */
  function Create(albums: map<string, Album>, input: AlbumInput, coverImageUrl: string, newId: string)
    : (r: Result<map<string, Album>, AlbumError>)
    // a purchase-only album needs a positive price
    ensures input.accessType == PurchaseOnly && MissingPrice(input.price) ==> r == Err(BadRequest)
    ensures !(input.accessType == PurchaseOnly && MissingPrice(input.price)) && newId in albums ==> r == Err(DuplicateId)
    ensures r.Ok? ==> r.value.Keys == albums.Keys + {newId} && newId !in albums
    ensures r.Ok? ==> forall id :: id in albums ==> r.value[id] == albums[id]
    // the stored price is positive for purchase-only albums and 0 for every other access type
    ensures r.Ok? && input.accessType == PurchaseOnly ==> r.value[newId].price == input.price.value > 0
    ensures r.Ok? && input.accessType != PurchaseOnly ==> r.value[newId].price == 0
    ensures r.Ok? ==> r.value[newId].genre == ProcessGenre(input.genre) && r.value[newId].coverImage == coverImageUrl
  {
    if input.accessType == PurchaseOnly && MissingPrice(input.price) then Err(BadRequest)
    else if newId in albums then Err(DuplicateId)
    else
      var price := if input.accessType == PurchaseOnly then input.price.value else 0;
      Ok(albums[newId := Album(input.title, input.artistId, input.slug, input.accessType, price,
                               ProcessGenre(input.genre), coverImageUrl, input.songs)])
  }

  // ---------------------------------------------------------------------
  // Pagination
  // ---------------------------------------------------------------------

  /** What a paged listing reports: how many to skip, and the page count (None for Infinity or NaN). */
  datatype PageInfo = PageInfo(skip: int, totalPages: Option<int>)

  /** `skip = (page - 1) * limit` and `totalPages = Math.ceil(total / limit)`. */
  function Paginate(page: int, limit: int, total: nat): (r: PageInfo)
    ensures r.skip == (page - 1) * limit
    ensures r.totalPages.None? <==> limit == 0
    // for a positive limit, the page count is the least that covers every album
    ensures limit > 0 ==> r.totalPages.value >= 0 && r.totalPages.value * limit >= total
    ensures limit > 0 && r.totalPages.value > 0 ==> (r.totalPages.value - 1) * limit < total
  {
    if limit > 0 then
      var tp := (total + limit - 1) / limit;
      CeilDiv(total, limit);
      PageInfo((page - 1) * limit, Some(tp))
    else if limit < 0 then PageInfo((page - 1) * limit, Some(-(total / -limit)))
    else PageInfo((page - 1) * limit, None)
  }

  /** `(total + limit - 1) / limit` is the ceiling of `total / limit`. */
  lemma CeilDiv(total: nat, limit: int)
    requires limit > 0
    ensures var tp := (total + limit - 1) / limit;
            tp >= 0 && tp * limit >= total && (tp > 0 ==> (tp - 1) * limit < total)
  {
    var n := total + limit - 1;
    var tp := n / limit;
    var rem := n % limit;
    assert n == tp * limit + rem && 0 <= rem < limit;
    assert tp * limit >= total;
    if tp > 0 {
      assert (tp - 1) * limit == tp * limit - limit;
    }
  }

  /** Pages 1..totalPages start inside the list; every later page starts past its end. */
  lemma PagesCoverTotal(page: int, limit: int, total: nat)
    requires limit > 0 && page >= 1
    ensures var info := Paginate(page, limit, total);
            (page <= info.totalPages.value ==> info.skip < total)
            && (page > info.totalPages.value ==> info.skip >= total)
  {
    var info := Paginate(page, limit, total);
    var tp := info.totalPages.value;
    if page <= tp {
      MulMono(page - 1, tp - 1, limit);
    } else {
      MulMono(tp, page - 1, limit);
    }
  }

  /** Multiplying by a positive number keeps order. */
  lemma MulMono(a: int, b: int, k: int)
    requires a <= b && k > 0
    ensures a * k <= b * k
  {
    assert b * k - a * k == (b - a) * k;
  }

  /** `getAll`: page and limit default to 1 and 10 when absent. */
  function GetAll(page: Option<int>, limit: Option<int>, total: nat): (r: PageInfo)
    ensures page.None? ==> r.skip == 0
    ensures limit.None? ==> r.totalPages.Some? && r.totalPages.value * 10 >= total
    ensures limit.None? && r.totalPages.value > 0 ==> (r.totalPages.value - 1) * 10 < total
    ensures page.Some? && limit.Some? ==> r == Paginate(page.value, limit.value, total)
  {
    Paginate(page.GetOr(1), limit.GetOr(10), total)
  }

  // ---------------------------------------------------------------------
  // Identifiers
  // ---------------------------------------------------------------------

  /** How an identifier is looked up. */
  datatype Lookup = ById(id: string) | BySlug(slug: string)

  /** `/^[a-f\d]{24}$/i.test(identifier) ? { _id } : { slug }`. */
  function Classify(identifier: string): (r: Lookup)
    ensures r.ById? <==> Js.IsObjectIdText(identifier)
    // the identifier itself is the key either way
    ensures r == ById(identifier) || r == BySlug(identifier)
    // any other length, or any character outside 0-9, a-f and A-F, means a slug
    ensures |identifier| != 24 ==> r.BySlug?
    ensures (exists k :: 0 <= k < |identifier| && !Js.IsHexDigit(identifier[k])) ==> r.BySlug?
  {
    if Js.IsObjectIdText(identifier) then ById(identifier) else BySlug(identifier)
  }

  /** The test ignores case and rejects anything but 24 hexadecimal digits. */
  lemma ClassifyExamples()
    ensures Classify("507f1f77bcf86cd799439011").ById?
    ensures Classify("507F1F77BCF86CD799439011").ById?
    ensures Classify("507f1f77bcf86cd79943901g").BySlug?
    ensures Classify("dark-side").BySlug?
  {
    HexText("507f1f77bcf86cd799439011");
    HexText("507F1F77BCF86CD799439011");
    assert !Js.IsHexDigit("507f1f77bcf86cd79943901g"[23]);
  }

  /** Checks a literal character by character. */
  lemma HexText(s: string)
    requires forall k :: 0 <= k < |s| ==> s[k] in "0123456789abcdefABCDEF"
    ensures forall k :: 0 <= k < |s| ==> Js.IsHexDigit(s[k])
  {
  }

  /** An artist as the catalogue reads it. */
  datatype Artist = Artist(name: string, slug: string)

  /** The filter `{ slug }`. */
  function SlugFilter(artists: map<string, Artist>, slug: string): string -> bool {
    id => id in artists && artists[id].slug == slug
  }

  /** Resolve `getByArtist`'s artist identifier over the artists in their natural order. */
  function ResolveArtist(artists: map<string, Artist>, order: seq<string>, identifier: string)
    : (r: Result<string, AlbumError>)
    ensures r.Ok? ==> r.value in artists
    ensures Js.IsObjectIdText(identifier) ==> (r.Ok? <==> identifier in artists) && (r.Ok? ==> r.value == identifier)
    ensures !Js.IsObjectIdText(identifier) ==>
      (r.Ok? <==> exists j :: 0 <= j < |order| && SlugFilter(artists, identifier)(order[j]))
    ensures !Js.IsObjectIdText(identifier) && r.Ok? ==> artists[r.value].slug == identifier
    ensures r.Err? ==> r.error == NotFound
  {
    match Classify(identifier)
    case ById(id) => if id in artists then Ok(id) else Err(NotFound)
    case BySlug(slug) =>
      match Store.FirstWhere(order, SlugFilter(artists, slug))
      case None => Err(NotFound)
      case Some(i) => Ok(order[i])
  }

  /** A slug that looks like an object id can never be found by slug. */
  lemma ObjectIdLookingSlugUnreachable(artists: map<string, Artist>, order: seq<string>, id: string, slug: string)
    requires id in artists && artists[id].slug == slug && Js.IsObjectIdText(slug) && slug !in artists
    ensures ResolveArtist(artists, order, slug) == Err(NotFound)
  {
  }

  /** `getByArtist`: the artist's id and the page arithmetic; `total` is the artist's album count. */
  function GetByArtist(artists: map<string, Artist>, order: seq<string>, identifier: string, page: int, limit: int,
                       total: nat): (r: Result<(string, PageInfo), AlbumError>)
    ensures ResolveArtist(artists, order, identifier).Err? ==> r == Err(NotFound)
    ensures ResolveArtist(artists, order, identifier).Ok? ==>
      r.Ok? && r.value.0 == ResolveArtist(artists, order, identifier).value && r.value.1.skip == (page - 1) * limit
  {
    match ResolveArtist(artists, order, identifier)
    case Err(e) => Err(e)
    case Ok(id) => Ok((id, Paginate(page, limit, total)))
  }

  // ---------------------------------------------------------------------
  // deleteById / update
  // ---------------------------------------------------------------------

  /**
   * `deleteById`: unset `album` on the album's songs, then delete it.
   * `songAlbum` maps each song to its album id ("" for none).
   */
  function DeleteById(albums: map<string, Album>, songAlbum: map<string, string>, id: string)
    : (r: Result<(map<string, Album>, map<string, string>), AlbumError>)
    ensures id !in albums ==> r == Err(NotFound)
    ensures id in albums ==> r.Ok? && r.value.0 == albums - {id} && r.value.1.Keys == songAlbum.Keys
    // the deleted album's songs lose their album; every other song keeps its own
    ensures id in albums ==> forall s :: s in songAlbum && s in albums[id].songs ==> r.value.1[s] == ""
    ensures id in albums ==> forall s :: s in songAlbum && s !in albums[id].songs ==> r.value.1[s] == songAlbum[s]
  {
    if id !in albums then Err(NotFound)
    else
      var listed := albums[id].songs;
      Ok((albums - {id}, map s | s in songAlbum :: if s in listed then "" else songAlbum[s]))
  }

  /**
   * After a delete the id is gone for good: deleting or updating it again is
   * NotFound. A song the album did not list, though, keeps the deleted id.
   */
  lemma DeleteLeavesDanglingSongs(albums: map<string, Album>, songAlbum: map<string, string>, id: string,
                                  s: string, patch: AlbumPatch, coverImageUrl: string)
    requires id in albums && id != ""
    requires s in songAlbum
    ensures var (albums', songAlbum') := DeleteById(albums, songAlbum, id).value;
            && Update(albums', id, patch, coverImageUrl) == Err(NotFound)
            && DeleteById(albums', songAlbum', id) == Err(NotFound)
            && (s in albums[id].songs ==> songAlbum'[s] != id)
            && (s !in albums[id].songs && songAlbum[s] == id ==> songAlbum'[s] == id)
  {
  }

  /** A genre in an update: absent, an array, or comma-separated text. */
  datatype GenrePatch = NoGenre | GenreList(items: seq<string>) | GenreText(text: string)

  /**
   * The album fields an update body may carry; None leaves the field alone.
   * `Object.assign` copies every one of them, the artist, slug, song list
   * and cover included.
   */
  datatype AlbumPatch = AlbumPatch(
    title: Option<string>,
    artistId: Option<string>,
    slug: Option<string>,
    accessType: Option<string>,
    price: Option<int>,
    genre: GenrePatch,
    coverImage: Option<string>,
    songs: Option<seq<string>>)

  /** A body that carries no field. */
  const EmptyPatch := AlbumPatch(None, None, None, None, None, NoGenre, None, None)

  /** `Object.assign(album, data)`, the cover upload, then the string-genre split. */
  function Apply(a: Album, patch: AlbumPatch, coverImageUrl: string): (r: Album)
    ensures r.title == patch.title.GetOr(a.title)
    ensures r.artistId == patch.artistId.GetOr(a.artistId)
    ensures r.slug == patch.slug.GetOr(a.slug)
    ensures r.accessType == patch.accessType.GetOr(a.accessType)
    ensures r.price == patch.price.GetOr(a.price)
    ensures r.songs == patch.songs.GetOr(a.songs)
    ensures patch.genre.NoGenre? ==> r.genre == a.genre
    ensures patch.genre.GenreList? ==> r.genre == patch.genre.items
    // a text genre is stored as trimmed, comma-free names
    ensures patch.genre.GenreText? ==>
      |r.genre| >= 1 && forall i :: 0 <= i < |r.genre| ==> Js.Trimmed(r.genre[i]) && ',' !in r.genre[i]
    // an uploaded cover wins over one named in the body
    ensures coverImageUrl != "" ==> r.coverImage == coverImageUrl
    ensures coverImageUrl == "" ==> r.coverImage == patch.coverImage.GetOr(a.coverImage)
  {
    var genre := match patch.genre
      case NoGenre => a.genre
      case GenreList(items) => items
      case GenreText(text) => Js.SplitTrim(text);
    Album(patch.title.GetOr(a.title), patch.artistId.GetOr(a.artistId), patch.slug.GetOr(a.slug),
          patch.accessType.GetOr(a.accessType), patch.price.GetOr(a.price), genre,
          Js.Or(coverImageUrl, patch.coverImage.GetOr(a.coverImage)), patch.songs.GetOr(a.songs))
  }

  /** An empty body with no upload leaves the album as it was. */
  lemma ApplyEmptyPatch(a: Album)
    ensures Apply(a, EmptyPatch, "") == a
  {
  }

  /** Sending the same update twice stores what the first one stored. */
  lemma ApplyTwice(a: Album, patch: AlbumPatch, coverImageUrl: string)
    ensures Apply(Apply(a, patch, coverImageUrl), patch, coverImageUrl) == Apply(a, patch, coverImageUrl)
  {
  }

  /** `update`: an unknown id is NotFound and changes nothing. */
  function Update(albums: map<string, Album>, id: string, patch: AlbumPatch, coverImageUrl: string)
    : (r: Result<(Album, map<string, Album>), AlbumError>)
    ensures id !in albums ==> r == Err(NotFound)
    ensures id in albums ==> r.Ok? && r.value.0 == Apply(albums[id], patch, coverImageUrl) && r.value.1 == albums[id := r.value.0]
  {
    if id !in albums then Err(NotFound)
    else var a := Apply(albums[id], patch, coverImageUrl); Ok((a, albums[id := a]))
  }

  /**
   * The price rule is checked on create only: an update can make a free album
   * purchase-only at price 0, which create would have refused.
   */
  lemma UpdateSkipsPriceRule(albums: map<string, Album>, id: string)
    requires id in albums && albums[id].price == 0
    ensures var r := Update(albums, id, EmptyPatch.(accessType := Some(PurchaseOnly)), "");
            r.Ok? && r.value.0.accessType == PurchaseOnly && r.value.0.price == 0
    ensures var a := albums[id];
            Create(albums - {id}, AlbumInput(a.title, a.artistId, a.slug, PurchaseOnly, Some(0), Js.Arr(a.genre), a.songs),
                   a.coverImage, id) == Err(BadRequest)
  {
  }
}
