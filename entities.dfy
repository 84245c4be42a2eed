/**
 * The value types of the app: the domain entities
 * (PokemonApp/Domain/Entities), the transfer objects decoded from the
 * catalog API (PokemonApp/Data/DTOs) and the loosely typed JSON tree that
 * `JSONSerialization` produces.
 */
module Entities {
  import opened Base

  /** A URL, compared by its absolute string. */
  type Url = string

  /** Raw bytes (`Data`). */
  type Bytes = seq<bv8>

  /**
   * A decoded bitmap (`UIImage`). Only identity matters to the core;
   * `Placeholder` is the empty `UIImage()` used to preallocate slots.
   */
  datatype Image = Placeholder | Bitmap(pixels: Bytes)

  /** `PokemonSummary`. */
  datatype Summary = Summary(id: int, name: string, detailURL: Url)

  /** `PokemonDetail.Stat`. */
  datatype Stat = Stat(name: string, value: int)

  /** `PokemonDetail`. */
  datatype Detail = Detail(id: int, name: string, stats: seq<Stat>, spriteURLs: seq<Url>)

  /** `PokemonListDTO.Item`. */
  datatype ListItemDto = ListItemDto(name: string, url: Url)

  /** `PokemonListDTO`. */
  datatype ListDto = ListDto(count: int, next: Option<Url>, previous: Option<Url>, results: seq<ListItemDto>)

  /** `PokemonDetailDTO.StatEntry`, with `stat.name` flattened. */
  datatype StatEntryDto = StatEntryDto(baseStat: int, statName: string)

  /** `PokemonDetailDTO.Sprites.Other.OfficialArtwork`. */
  datatype ArtworkDto = ArtworkDto(frontDefault: Option<string>)

  /** `PokemonDetailDTO.Sprites.Other`. */
  datatype OtherSpritesDto = OtherSpritesDto(officialArtwork: Option<ArtworkDto>)

  /** `PokemonDetailDTO.Sprites`. */
  datatype SpritesDto = SpritesDto(
    frontDefault: Option<string>,
    frontShiny: Option<string>,
    backDefault: Option<string>,
    backShiny: Option<string>,
    other: Option<OtherSpritesDto>)

  /** `PokemonDetailDTO`. */
  datatype DetailDto = DetailDto(id: int, name: string, stats: seq<StatEntryDto>, sprites: SpritesDto)

  /**
   * The tree `JSONSerialization.jsonObject` returns. An object lists its
   * members in the dictionary's iteration order, which Foundation does not
   * specify.
   */
  datatype Json =
    | JNull
    | JBool(b: bool)
    | JNumber(n: int)
    | JString(s: string)
    | JArray(items: seq<Json>)
    | JObject(members: seq<Member>)

  datatype Member = Member(key: string, value: Json)
}
