/** The response shapes the service produces: the list item built by
    `getPokemonList` and `PokemonDto` with its nested DTOs. JSON field names
    map to camelCase (`is_hidden` is `isHidden`, `type` is `typeRef`). */
module Dtos {
  import opened Wrappers

  /** `{ id, name, image }`; an `id` of `None` is the `NaN` that `Number`
      gives when the chosen URL segment is not a number. */
  datatype ListItem = ListItem(id: Option<nat>, name: string, image: string)

  datatype NamedApiResource = NamedApiResource(name: string, url: string)

  /** Either image may be `null` (`None`). */
  datatype Sprites = Sprites(frontDefault: Option<string>, backDefault: Option<string>)

  datatype Ability = Ability(isHidden: bool, slot: int, ability: NamedApiResource)

  datatype VersionGroupDetail = VersionGroupDetail(
    levelLearnedAt: int,
    moveLearnMethod: NamedApiResource,
    versionGroup: NamedApiResource)

  datatype Move = Move(move: NamedApiResource, versionGroupDetails: seq<VersionGroupDetail>)

  datatype Stat = Stat(baseStat: int, effort: int, stat: NamedApiResource)

  datatype PokemonType = PokemonType(slot: int, typeRef: NamedApiResource)

  /** `PokemonDto`. Its `image` is declared a string but receives
      `sprites.front_default`, which may be `null`. */
  datatype Pokemon = Pokemon(
    id: int,
    name: string,
    image: Option<string>,
    sprites: Sprites,
    abilities: seq<Ability>,
    moves: seq<Move>,
    stats: seq<Stat>,
    types: seq<PokemonType>)
}
