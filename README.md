# Pokédex facade: the data-shaping core of `PokemonService`

This project models the part of `PokemonService` that does real work: the ID it reads from an upstream resource URL, the list view it builds for `GET /pokemon`, and the `PokemonDto` it builds for `GET /pokemon/{id}`. The HTTP calls are not modelled. The upstream response `data` and the configured `IMAGE_URL` are passed in as parameters. Everything is a pure function over datatypes. The service builds each DTO by assigning fields to a fresh local object that nothing else can see before it is returned, so a value models it exactly.

- `wrappers.dfy`: `Option`. `None` stands for the `NaN` that `Number` produces.
- `segments.dfy`: `String.prototype.split` on one character, which keeps empty segments, and its inverse `Join`.
- `decimal.dfy`: digit strings and the natural numbers they denote. This covers `Number(s)` for all-digit `s` and `String(n)` for a natural `n`.
- `upstream.dfy`: the upstream payloads as typed values. Each object has an `unread` map holding the attributes the service never reads.
- `dtos.dfy`: the list item and `PokemonDto` with its nested DTOs.
- `pokemon_service.dfy`: `ExtractId`, `ProjectList`, `ProjectDetail`, and the lemmas about them.

The model follows the code as written:

- `extractIdFromUrl` takes `segments[length - 2]` of the full split, empty segments included. It does not take the second-to-last non-empty segment. A URL without a trailing `/` therefore selects the word before the ID.
- No error is raised. A URL with no `/`, or a chosen segment that is not a number, gives `NaN`. The model returns `None`, and the list item's image then ends in `/NaN.png`.
- Malformed payloads are not validated. The model takes the payload as well-typed.

## Model

| member | source | states |
|---|---|---|
| `Segments.Split` | src/modules/pokemon/pokemon.service.ts:146 | `url.split('/')`: there is at least one segment; no segment contains the separator; joining the segments gives back the input; there is exactly one segment iff the separator does not occur |
| `Segments.SplitJoin` | src/modules/pokemon/pokemon.service.ts:146 | splitting undoes joining for separator-free parts, so split and join are inverse |
| `Segments.SplitAppend` | src/modules/pokemon/pokemon.service.ts:146 | splitting at one separator splits the two sides independently and concatenates the results |
| `Segments.SplitCons` | src/modules/pokemon/pokemon.service.ts:146 | a separator-free leading run becomes the first segment, and the remainder is split on its own |
| `Decimal.ToDecimal` | src/modules/pokemon/pokemon.service.ts:41 | the text `${id}` gives a natural ID: one or more digits, no leading zero unless the ID is 0, and no '/' |
| `Decimal.ParseToDecimal` | src/modules/pokemon/pokemon.service.ts:147 | `Number` of the printed form of `n` is `n` |
| `Decimal.ToDecimalParse` | src/modules/pokemon/pokemon.service.ts:147 | printing the value of a canonical digit string gives back the same string |
| `Decimal.ToDecimalInjective` | src/modules/pokemon/pokemon.service.ts:41 | different IDs print differently |
| `PokemonService.NumberOfSegment` | src/modules/pokemon/pokemon.service.ts:147 | `Number(segment)` is a number exactly when every character is a digit ("" included); otherwise it is NaN |
| `PokemonService.NumberOfSegmentCanonical` | src/modules/pokemon/pokemon.service.ts:147 | on a canonical digit string, `Number` gives `n` exactly when the string is the printed form of `n` |
| `PokemonService.ExtractId` | src/modules/pokemon/pokemon.service.ts:145-148 | a URL without '/' yields no ID (NaN), not an error |
| `PokemonService.ExtractIdPenultimate` | src/modules/pokemon/pokemon.service.ts:146-147 | for a URL with two or more '/', the segment used is the one between the last two, whatever precedes it and whatever, possibly nothing, follows it (the one-slash case is `ExtractIdSingleSlash`) |
| `PokemonService.ExtractIdSingleSlash` | src/modules/pokemon/pokemon.service.ts:146-147 | a URL with exactly one '/' converts the segment before it (for example `"12/x"` yields 12 and `"pokemon/1"` yields NaN) |
| `PokemonService.ExtractIdRoundTrip` | src/modules/pokemon/pokemon.service.ts:145-147 | for every prefix `p` and natural `n`, the URL `p + "/" + n + "/"` yields `n` |
| `PokemonService.ExtractIdWithoutTrailingSlash` | src/modules/pokemon/pokemon.service.ts:146-147 | `.../pokemon/1` with no trailing slash selects "pokemon" and yields NaN |
| `PokemonService.ExtractIdEmptySegment` | src/modules/pokemon/pokemon.service.ts:147 | a URL ending in "//" yields 0, as `Number("")` does |
| `PokemonService.ProjectList` | src/modules/pokemon/pokemon.service.ts:38-42 | one item per upstream entry, in order; the item's `name` is the entry's name verbatim; its `id` is the ID extracted from the entry's URL; its `image` is `imageUrl + "/" + id + ".png"` with that same ID |
| `PokemonService.ProjectListAppend` | src/modules/pokemon/pokemon.service.ts:38-42 | the projection of concatenated entry lists is the concatenation of their projections, so each item depends on its own entry alone |
| `PokemonService.ListImageInjective` | src/modules/pokemon/pokemon.service.ts:41 | the image URL determines the ID it was built from, NaN included |
| `PokemonService.ProjectListResourceUrl` | src/modules/pokemon/pokemon.service.ts:38-42 | an entry whose URL ends in "/n/" becomes `{ id: n, name, image: imageUrl/n.png }` |
| `PokemonService.ProjectListBulbasaur` | src/modules/pokemon/pokemon.service.ts:38-42 | `bulbasaur` at `https://x/api/v2/pokemon/1/` with image base `https://img` maps to `{1, "bulbasaur", "https://img/1.png"}` |
| `PokemonService.ProjectDetail` | src/modules/pokemon/pokemon.service.ts:56-137 | `id` and `name` are copied; `image` is `sprites.front_default`; both sprites pass through unchanged, `null` included; `abilities`, `moves`, each move's `version_group_details`, `stats` and `types` keep their length and order; scalar fields are copied; every nested reference keeps its `name` and `url` |
| `PokemonService.ProjectEmbedDetail` | src/modules/pokemon/pokemon.service.ts:56-137 | every DTO whose `image` equals its front sprite is the projection of the payload that holds only the DTO's fields |
| `PokemonService.EmbedProjectDetail` | src/modules/pokemon/pokemon.service.ts:66-135 | the projection loses exactly the attributes the service never reads, at every nesting level |
| `PokemonService.ProjectDetailKernel` | src/modules/pokemon/pokemon.service.ts:56-137 | two payloads give the same DTO iff they agree on every attribute the service reads |
| `PokemonService.ProjectDetailScenario` | src/modules/pokemon/pokemon.service.ts:57-77 | a payload with front sprite "a.png", a null back sprite and one ability `{false, 1, {static, u}}` gives `image == "a.png"`, a null back sprite and that same ability |

## Left out

- HTTP and RxJS (`httpService.get`, `firstValueFrom`, lines 33-35 and 50-52): this is network I/O. The response `data` is a parameter: `results` for the list, the payload for the detail.
- Loading `API_URL` and `IMAGE_URL` from configuration (lines 23-24): `imageUrl` is a parameter, and `apiUrl` is used only by the HTTP calls.
- `PokemonService.NumberOfSegment`: `Number` also accepts surrounding whitespace, signs, fractions, exponents, `"Infinity"`, and the hex (`0x`), binary (`0b`) and octal (`0o`) prefixes. These are floating-point parsing and become `None` here.
- `PokemonService.NumberOfSegment`: a digit string whose value is above 2^53 (about 16 digits or more) is rounded to the nearest double in JavaScript, and one whose value is above about 1.8·10^308 becomes `Infinity`. The model returns the exact natural number in both cases.
- `Decimal.ToDecimal`: JavaScript prints numbers of 10^21 and above in exponent form. Here every natural number is printed in full.
- The routing controller, the Nest modules and the DTO declaration files contain no logic. The DTO files give the shapes of the datatypes. The ability, stat, type, version-group-detail and named-resource DTO files are not part of this model; their shapes are taken from the assignments in the service.
- Missing or wrongly shaped payload fields: the service does not check for them (a missing field gives a JavaScript `TypeError` or `undefined`). The payload is modelled as well-typed, and no error cases are invented.
- The detail projection is a function of its payload, so the same payload always gives the same DTO; no separate lemma states this.
