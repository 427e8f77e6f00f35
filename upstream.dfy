/** The upstream payloads the service reads, as typed values. The service
    itself reads them as untyped JSON; here every field it reads has its
    type, and `unread` holds the attributes of the same JSON object that the
    service never looks at (for a sprites object, `front_shiny` and the like;
    for a Pokémon, `height`, `weight` and so on), keyed by JSON name with the
    value abstracted to its JSON text. */
module Upstream {
  import opened Wrappers

  type Unread = map<string, string>

  /** A `{name, url}` reference to another upstream resource. */
  datatype NamedApiResource = NamedApiResource(name: string, url: string, unread: Unread)
  {
    function Stripped(): NamedApiResource { this.(unread := map[]) }
  }

  datatype Sprites = Sprites(frontDefault: Option<string>, backDefault: Option<string>, unread: Unread)
  {
    function Stripped(): Sprites { this.(unread := map[]) }
  }

  datatype Ability = Ability(isHidden: bool, slot: int, ability: NamedApiResource, unread: Unread)
  {
    function Stripped(): Ability { Ability(isHidden, slot, ability.Stripped(), map[]) }
  }

  datatype VersionGroupDetail = VersionGroupDetail(
    levelLearnedAt: int,
    moveLearnMethod: NamedApiResource,
    versionGroup: NamedApiResource,
    unread: Unread)
  {
    function Stripped(): VersionGroupDetail {
      VersionGroupDetail(levelLearnedAt, moveLearnMethod.Stripped(), versionGroup.Stripped(), map[])
    }
  }

  datatype Move = Move(move: NamedApiResource, versionGroupDetails: seq<VersionGroupDetail>, unread: Unread)
  {
    function Stripped(): Move {
      Move(move.Stripped(),
           seq(|versionGroupDetails|, j requires 0 <= j < |versionGroupDetails| => versionGroupDetails[j].Stripped()),
           map[])
    }
  }

  datatype Stat = Stat(baseStat: int, effort: int, stat: NamedApiResource, unread: Unread)
  {
    function Stripped(): Stat { Stat(baseStat, effort, stat.Stripped(), map[]) }
  }

  /** One entry of `types`; `typeRef` is the JSON field `type`. */
  datatype PokemonType = PokemonType(slot: int, typeRef: NamedApiResource, unread: Unread)
  {
    function Stripped(): PokemonType { PokemonType(slot, typeRef.Stripped(), map[]) }
  }

  /** The detail payload `GET {API_URL}/{id}` answers with. */
  datatype Pokemon = Pokemon(
    id: int,
    name: string,
    sprites: Sprites,
    abilities: seq<Ability>,
    moves: seq<Move>,
    stats: seq<Stat>,
    types: seq<PokemonType>,
    unread: Unread)
  {
    /** The same payload with every attribute the service does not read removed. */
    function Stripped(): Pokemon {
      Pokemon(id, name, sprites.Stripped(),
              seq(|abilities|, i requires 0 <= i < |abilities| => abilities[i].Stripped()),
              seq(|moves|, i requires 0 <= i < |moves| => moves[i].Stripped()),
              seq(|stats|, i requires 0 <= i < |stats| => stats[i].Stripped()),
              seq(|types|, i requires 0 <= i < |types| => types[i].Stripped()),
              map[])
    }
  }
}
