/**
 * `PokemonRepositoryImpl` (PokemonApp/Data/Repositories/PokemonRepositoryImpl.swift):
 * a page of summaries from the list endpoint, and one detail from the
 * per-name URL. The API client is an oracle: `get` answers a list request
 * with the decoded DTO or an error, `getRaw` answers a URL with the body
 * bytes or an error. The typed decoder and the JSON parser are oracles on
 * bytes, and `isUrl` stands for `URL(string:)` succeeding.
 */
module Repository {
  import opened Base
  import opened Text
  import opened Errors
  import opened Entities
  import Endpoint
  import ListMapper
  import DetailMapper

  /** The fixed prefix of a detail URL. */
  const DetailBase: string := "https://pokeapi.co/api/v2/pokemon/"

  /** The detail URL for a name or id: the lowercased name appended to the base. */
  function DetailUrl(nameOrId: string): (r: Url)
    ensures HasPrefix(r, DetailBase) && r[|DetailBase|..] == Lowercase(nameOrId)
  {
    DetailBase + Lowercase(nameOrId)
  }

  /** The URL `page` requests. */
  function PageUrl(limit: int, offset: int): Url
  {
    Endpoint.Url(Endpoint.PokemonList(limit, offset))
  }

  /**
   * `page(limit:offset:)`: the list endpoint's response mapped to
   * summaries; the client's error is thrown unchanged.
   */
  function Page(limit: int, offset: int, get: Url -> Result<ListDto, Error>): (r: Result<seq<Summary>, Error>)
    ensures get(PageUrl(limit, offset)).Err? ==> r == Err(get(PageUrl(limit, offset)).error)
    ensures get(PageUrl(limit, offset)).Ok? ==>
      r.Ok? && |r.value| == |get(PageUrl(limit, offset)).value.results|
  {
    match get(PageUrl(limit, offset))
    case Err(e) => Err(e)
    case Ok(dto) => Ok(ListMapper.ToDomain(dto))
  }

  /**
   * `detail(nameOrID:)`: fetch the raw body, decode the typed DTO (its
   * failure is thrown as a `DecodingError`), then map DTO and body. The
   * source force-unwraps the URL, so the URL must parse.
   */
  function Detail(
    nameOrId: string,
    getRaw: Url -> Result<Bytes, Error>,
    decode: Bytes -> Result<DetailDto, DecodingFailure>,
    parse: Bytes -> Result<Json, Error>,
    isUrl: string -> bool): (r: Result<Entities.Detail, Error>)
    requires isUrl(DetailUrl(nameOrId))
    ensures getRaw(DetailUrl(nameOrId)).Err? ==> r == Err(getRaw(DetailUrl(nameOrId)).error)
    ensures getRaw(DetailUrl(nameOrId)).Ok? && decode(getRaw(DetailUrl(nameOrId)).value).Err? ==>
      r == Err(DecodingError(decode(getRaw(DetailUrl(nameOrId)).value).error))
  {
    match getRaw(DetailUrl(nameOrId))
    case Err(e) => Err(e)
    case Ok(data) =>
      match decode(data)
      case Err(f) => Err(DecodingError(f))
      case Ok(dto) => DetailMapper.DetailOf(dto, parse(data), isUrl)
  }

  /**
   * `page` reads nothing but the client's answer for the endpoint URL of
   * its own (limit, offset), and on success returns that answer mapped.
   */
  lemma PageReadsItsEndpoint(limit: int, offset: int, get1: Url -> Result<ListDto, Error>, get2: Url -> Result<ListDto, Error>)
    requires get1(PageUrl(limit, offset)) == get2(PageUrl(limit, offset))
    ensures Page(limit, offset, get1) == Page(limit, offset, get2)
    ensures get1(PageUrl(limit, offset)).Ok? ==>
      Page(limit, offset, get1) == Ok(ListMapper.ToDomain(get1(PageUrl(limit, offset)).value))
  {
  }

  /** The page URL for (20, 40), as the list tests expect it. */
  lemma PageUrlExample()
    ensures PageUrl(20, 40) == "https://pokeapi.co/api/v2/pokemon?limit=20&offset=40"
  {
    Endpoint.ListUrlExample();
  }

  /** "Ivysaur" is fetched from ".../pokemon/ivysaur". */
  lemma DetailUrlExample()
    ensures DetailUrl("Ivysaur") == "https://pokeapi.co/api/v2/pokemon/ivysaur"
  {
    assert Lowercase("Ivysaur") == "ivysaur";
  }

  /** Names differing only in letter case share a URL, so the displayed (capitalized) name fetches the same detail. */
  lemma DetailUrlCaseInsensitive(a: string, b: string)
    requires Lowercase(a) == Lowercase(b)
    ensures DetailUrl(a) == DetailUrl(b)
    ensures DetailUrl(Capitalize(a)) == DetailUrl(a)
  {
    LowercaseOfCapitalize(a);
  }

  /**
   * `detail` reads nothing but the body served at its own URL, and on
   * success returns the mapper's result on the DTO and the same bytes.
   */
  lemma DetailReadsItsUrl(
    nameOrId: string,
    getRaw1: Url -> Result<Bytes, Error>,
    getRaw2: Url -> Result<Bytes, Error>,
    decode: Bytes -> Result<DetailDto, DecodingFailure>,
    parse: Bytes -> Result<Json, Error>,
    isUrl: string -> bool)
    requires isUrl(DetailUrl(nameOrId))
    requires getRaw1(DetailUrl(nameOrId)) == getRaw2(DetailUrl(nameOrId))
    ensures Detail(nameOrId, getRaw1, decode, parse, isUrl) == Detail(nameOrId, getRaw2, decode, parse, isUrl)
    ensures var body := getRaw1(DetailUrl(nameOrId));
      body.Ok? && decode(body.value).Ok? ==>
        Detail(nameOrId, getRaw1, decode, parse, isUrl)
          == DetailMapper.DetailOf(decode(body.value).value, parse(body.value), isUrl)
  {
  }
}
