/** `PokemonService` without its HTTP calls: the ID taken from a resource
    URL, the list projection of `getPokemonList` and the detail projection of
    `getPokemonById`. The upstream response `data` and the configured
    `IMAGE_URL` are parameters. */
module PokemonService {
  import opened Wrappers
  import opened Segments
  import opened Decimal
  import Upstream
  import Dtos

  // ---------------------------------------------------------------------
  // extractIdFromUrl
  // ---------------------------------------------------------------------

  /** `Number(segment)` restricted to digit strings: the value when every
      character is a digit ("" included, which `Number` reads as 0), and
      `None` (NaN) otherwise. */
  function NumberOfSegment(seg: string): (r: Option<nat>)
    ensures r.Some? <==> IsDigits(seg)
  {
    if IsDigits(seg) then Some(ParseDecimal(seg)) else None
  }

  /** On the printed forms of natural numbers, the conversion is the inverse
      of printing, in both directions. */
  lemma NumberOfSegmentCanonical(seg: string, n: nat)
    requires IsCanonical(seg)
    ensures NumberOfSegment(seg) == Some(n) <==> ToDecimal(n) == seg
  {
    ToDecimalParse(seg);
    ParseToDecimal(n);
  }

  /** `extractIdFromUrl`: split on '/', keeping empty segments, and convert
      the second-to-last segment. A URL with no '/' has one segment, so the
      index is -1 and `Number(undefined)` is NaN. */
  function ExtractId(url: string): (r: Option<nat>)
    ensures '/' !in url ==> r == None
  {
    var segments := Split(url, '/');
    if |segments| < 2 then None else NumberOfSegment(segments[|segments| - 2])
  }

  /** The segment chosen is the one between the last two slashes, whatever
      comes before them and whatever (possibly nothing) follows. */
  lemma ExtractIdPenultimate(a: string, w: string, b: string)
    requires '/' !in w && '/' !in b
    ensures ExtractId(a + "/" + w + "/" + b) == NumberOfSegment(w)
  {
    assert a + "/" + w + "/" + b == a + ['/'] + (w + ['/'] + b);
    SplitAppend(a, '/', w + ['/'] + b);
    SplitCons(w, '/', b);
    SplitWithoutSep(b, '/');
  }

  /** With exactly one '/', the segment before it is the one converted. */
  lemma ExtractIdSingleSlash(w: string, b: string)
    requires '/' !in w && '/' !in b
    ensures ExtractId(w + "/" + b) == NumberOfSegment(w)
  {
    SplitCons(w, '/', b);
    SplitWithoutSep(b, '/');
  }

  /** A resource URL ending in "/{n}/" yields `n`, for any prefix. */
  lemma ExtractIdRoundTrip(p: string, n: nat)
    ensures ExtractId(p + "/" + ToDecimal(n) + "/") == Some(n)
  {
    ExtractIdPenultimate(p, ToDecimal(n), "");
    assert p + "/" + ToDecimal(n) + "/" + "" == p + "/" + ToDecimal(n) + "/";
    ParseToDecimal(n);
  }

  /** Without the trailing slash the segment before the ID is chosen. */
  lemma ExtractIdWithoutTrailingSlash()
    ensures ExtractId("https://pokeapi.co/api/v2/pokemon/1") == None
  {
    ExtractIdPenultimate("https://pokeapi.co/api/v2", "pokemon", "1");
    assert "https://pokeapi.co/api/v2" + "/" + "pokemon" + "/" + "1"
        == "https://pokeapi.co/api/v2/pokemon/1";
    assert !IsDigit('p');
  }

  /** An empty second-to-last segment converts to 0, as `Number("")` does. */
  lemma ExtractIdEmptySegment(p: string)
    ensures ExtractId(p + "//") == Some(0)
  {
    ExtractIdPenultimate(p, "", "");
    assert p + "/" + "" + "/" + "" == p + "//";
  }

  // ---------------------------------------------------------------------
  // getPokemonList: results.map(pokemon => ({ id, name, image }))
  // ---------------------------------------------------------------------

  /** The text a template literal gives for the ID: its decimal digits, or
      "NaN". */
  function IdText(id: Option<nat>): string {
    match id
    case Some(n) => ToDecimal(n)
    case None => "NaN"
  }

  /** `${imageUrl}/${id}.png` */
  function ListImage(imageUrl: string, id: Option<nat>): string {
    imageUrl + "/" + IdText(id) + ".png"
  }

  function ToListItem(imageUrl: string, pokemon: Upstream.NamedApiResource): Dtos.ListItem {
    var id := ExtractId(pokemon.url);
    Dtos.ListItem(id, pokemon.name, ListImage(imageUrl, id))
  }

  /** The list projection: one item per upstream entry, in order, each built
      from its own entry only. */
  function ProjectList(imageUrl: string, results: seq<Upstream.NamedApiResource>): (items: seq<Dtos.ListItem>)
    ensures |items| == |results|
    ensures forall i :: 0 <= i < |results| ==>
      items[i].name == results[i].name &&
      items[i].id == ExtractId(results[i].url) &&
      items[i].image == imageUrl + "/" + IdText(items[i].id) + ".png"
  {
    seq(|results|, i requires 0 <= i < |results| => ToListItem(imageUrl, results[i]))
  }

  /** Concatenated pages project to concatenated lists: no item depends on
      a neighbour. */
  lemma ProjectListAppend(imageUrl: string, a: seq<Upstream.NamedApiResource>, b: seq<Upstream.NamedApiResource>)
    ensures ProjectList(imageUrl, a + b) == ProjectList(imageUrl, a) + ProjectList(imageUrl, b)
  {
  }

  /** The image URL determines the ID it was built from, NaN included. */
  lemma ListImageInjective(imageUrl: string, x: Option<nat>, y: Option<nat>)
    requires ListImage(imageUrl, x) == ListImage(imageUrl, y)
    ensures x == y
  {
    var s, t := ListImage(imageUrl, x), ListImage(imageUrl, y);
    var k := |imageUrl| + 1;
    assert IdText(x) == s[k..|s| - 4];
    assert IdText(y) == t[k..|t| - 4];
    if x.Some? && y.Some? {
      ToDecimalInjective(x.value, y.value);
    }
  }

  /** An entry whose URL ends in "/{n}/" becomes `{ id: n, name, image: imageUrl/n.png }`. */
  lemma ProjectListResourceUrl(imageUrl: string, name: string, prefix: string, n: nat, unread: Upstream.Unread)
    ensures ProjectList(imageUrl, [Upstream.NamedApiResource(name, prefix + "/" + ToDecimal(n) + "/", unread)])
         == [Dtos.ListItem(Some(n), name, imageUrl + "/" + ToDecimal(n) + ".png")]
  {
    ExtractIdRoundTrip(prefix, n);
  }

  lemma ProjectListBulbasaur()
    ensures ProjectList("https://img", [Upstream.NamedApiResource("bulbasaur", "https://x/api/v2/pokemon/1/", map[])])
         == [Dtos.ListItem(Some(1), "bulbasaur", "https://img/1.png")]
  {
    ProjectListResourceUrl("https://img", "bulbasaur", "https://x/api/v2/pokemon", 1, map[]);
    assert "https://x/api/v2/pokemon" + "/" + ToDecimal(1) + "/" == "https://x/api/v2/pokemon/1/";
    assert "https://img" + "/" + ToDecimal(1) + ".png" == "https://img/1.png";
  }

  // ---------------------------------------------------------------------
  // getPokemonById: field-by-field construction of PokemonDto
  // ---------------------------------------------------------------------

  /** A nested reference keeps its `name` and `url` and nothing else. */
  function ProjectResource(r: Upstream.NamedApiResource): Dtos.NamedApiResource {
    Dtos.NamedApiResource(r.name, r.url)
  }

  function ProjectAbility(a: Upstream.Ability): Dtos.Ability {
    Dtos.Ability(a.isHidden, a.slot, ProjectResource(a.ability))
  }

  function ProjectVersionGroupDetail(d: Upstream.VersionGroupDetail): Dtos.VersionGroupDetail {
    Dtos.VersionGroupDetail(d.levelLearnedAt, ProjectResource(d.moveLearnMethod), ProjectResource(d.versionGroup))
  }

  function ProjectMove(m: Upstream.Move): Dtos.Move {
    Dtos.Move(
      ProjectResource(m.move),
      seq(|m.versionGroupDetails|, j requires 0 <= j < |m.versionGroupDetails| =>
        ProjectVersionGroupDetail(m.versionGroupDetails[j])))
  }

  function ProjectStat(s: Upstream.Stat): Dtos.Stat {
    Dtos.Stat(s.baseStat, s.effort, ProjectResource(s.stat))
  }

  function ProjectType(t: Upstream.PokemonType): Dtos.PokemonType {
    Dtos.PokemonType(t.slot, ProjectResource(t.typeRef))
  }

  /** `d` carries exactly the `name` and `url` of `u`. */
  predicate SameResource(d: Dtos.NamedApiResource, u: Upstream.NamedApiResource) {
    d.name == u.name && d.url == u.url
  }

  /** The DTO built by `getPokemonById` from the upstream `data`. */
  function ProjectDetail(data: Upstream.Pokemon): (dto: Dtos.Pokemon)
    ensures dto.id == data.id && dto.name == data.name
    ensures dto.image == data.sprites.frontDefault
    ensures dto.sprites.frontDefault == data.sprites.frontDefault
    ensures dto.sprites.backDefault == data.sprites.backDefault
    ensures |dto.abilities| == |data.abilities|
    ensures forall i :: 0 <= i < |data.abilities| ==>
      dto.abilities[i].isHidden == data.abilities[i].isHidden &&
      dto.abilities[i].slot == data.abilities[i].slot &&
      SameResource(dto.abilities[i].ability, data.abilities[i].ability)
    ensures |dto.moves| == |data.moves|
    ensures forall i :: 0 <= i < |data.moves| ==>
      SameResource(dto.moves[i].move, data.moves[i].move) &&
      |dto.moves[i].versionGroupDetails| == |data.moves[i].versionGroupDetails|
    ensures forall i, j :: 0 <= i < |data.moves| && 0 <= j < |data.moves[i].versionGroupDetails| ==>
      dto.moves[i].versionGroupDetails[j].levelLearnedAt == data.moves[i].versionGroupDetails[j].levelLearnedAt &&
      SameResource(dto.moves[i].versionGroupDetails[j].moveLearnMethod, data.moves[i].versionGroupDetails[j].moveLearnMethod) &&
      SameResource(dto.moves[i].versionGroupDetails[j].versionGroup, data.moves[i].versionGroupDetails[j].versionGroup)
    ensures |dto.stats| == |data.stats|
    ensures forall i :: 0 <= i < |data.stats| ==>
      dto.stats[i].baseStat == data.stats[i].baseStat &&
      dto.stats[i].effort == data.stats[i].effort &&
      SameResource(dto.stats[i].stat, data.stats[i].stat)
    ensures |dto.types| == |data.types|
    ensures forall i :: 0 <= i < |data.types| ==>
      dto.types[i].slot == data.types[i].slot &&
      SameResource(dto.types[i].typeRef, data.types[i].typeRef)
  {
    Dtos.Pokemon(
      data.id,
      data.name,
      data.sprites.frontDefault,
      Dtos.Sprites(data.sprites.frontDefault, data.sprites.backDefault),
      seq(|data.abilities|, i requires 0 <= i < |data.abilities| => ProjectAbility(data.abilities[i])),
      seq(|data.moves|, i requires 0 <= i < |data.moves| => ProjectMove(data.moves[i])),
      seq(|data.stats|, i requires 0 <= i < |data.stats| => ProjectStat(data.stats[i])),
      seq(|data.types|, i requires 0 <= i < |data.types| => ProjectType(data.types[i])))
  }

  // The inverse direction: a DTO read back as an upstream payload that has
  // nothing beyond what the DTO holds.

  function EmbedResource(r: Dtos.NamedApiResource): Upstream.NamedApiResource {
    Upstream.NamedApiResource(r.name, r.url, map[])
  }

  function EmbedMove(m: Dtos.Move): Upstream.Move {
    var ds := m.versionGroupDetails;
    Upstream.Move(
      EmbedResource(m.move),
      seq(|ds|, j requires 0 <= j < |ds| =>
        Upstream.VersionGroupDetail(
          ds[j].levelLearnedAt, EmbedResource(ds[j].moveLearnMethod), EmbedResource(ds[j].versionGroup), map[])),
      map[])
  }

  function EmbedDetail(dto: Dtos.Pokemon): Upstream.Pokemon {
    Upstream.Pokemon(
      dto.id,
      dto.name,
      Upstream.Sprites(dto.sprites.frontDefault, dto.sprites.backDefault, map[]),
      seq(|dto.abilities|, i requires 0 <= i < |dto.abilities| =>
        Upstream.Ability(dto.abilities[i].isHidden, dto.abilities[i].slot, EmbedResource(dto.abilities[i].ability), map[])),
      seq(|dto.moves|, i requires 0 <= i < |dto.moves| => EmbedMove(dto.moves[i])),
      seq(|dto.stats|, i requires 0 <= i < |dto.stats| =>
        Upstream.Stat(dto.stats[i].baseStat, dto.stats[i].effort, EmbedResource(dto.stats[i].stat), map[])),
      seq(|dto.types|, i requires 0 <= i < |dto.types| =>
        Upstream.PokemonType(dto.types[i].slot, EmbedResource(dto.types[i].typeRef), map[])),
      map[])
  }

  /** Every DTO whose `image` is its front sprite, which is all DTOs the
      service builds, is the projection of some payload. */
  lemma ProjectEmbedDetail(dto: Dtos.Pokemon)
    requires dto.image == dto.sprites.frontDefault
    ensures ProjectDetail(EmbedDetail(dto)) == dto
  {
    var p := ProjectDetail(EmbedDetail(dto));
    forall i | 0 <= i < |dto.moves| ensures p.moves[i] == dto.moves[i] {
      assert p.moves[i].versionGroupDetails == dto.moves[i].versionGroupDetails;
    }
  }

  /** Projecting loses exactly the attributes the service does not read. */
  lemma EmbedProjectDetail(data: Upstream.Pokemon)
    ensures EmbedDetail(ProjectDetail(data)) == data.Stripped()
  {
    var e := EmbedDetail(ProjectDetail(data));
    forall i | 0 <= i < |data.moves| ensures e.moves[i] == data.moves[i].Stripped() {
      assert e.moves[i].versionGroupDetails == data.moves[i].Stripped().versionGroupDetails;
    }
  }

  /** Two payloads give the same DTO exactly when they agree on every
      attribute the service reads. */
  lemma ProjectDetailKernel(a: Upstream.Pokemon, b: Upstream.Pokemon)
    ensures ProjectDetail(a) == ProjectDetail(b) <==> a.Stripped() == b.Stripped()
  {
    EmbedProjectDetail(a);
    EmbedProjectDetail(b);
    ProjectEmbedDetail(ProjectDetail(a));
    ProjectEmbedDetail(ProjectDetail(b));
  }

  lemma ProjectDetailScenario(unread: Upstream.Unread)
    ensures
      var data := Upstream.Pokemon(
        25, "pikachu",
        Upstream.Sprites(Some("a.png"), None, unread),
        [Upstream.Ability(false, 1, Upstream.NamedApiResource("static", "u", unread), unread)],
        [], [], [], unread);
      var dto := ProjectDetail(data);
      dto.image == Some("a.png") && dto.sprites.backDefault == None &&
      dto.abilities == [Dtos.Ability(false, 1, Dtos.NamedApiResource("static", "u"))]
  {
  }
}
