# Ordem Paranormal character data model, in Dafny

This project models the rule logic of a character-sheet game system for
"Ordem Paranormal: Sobrevivendo ao Horror":

- **The character record and its schema** (`OPCharacterData`). It holds five
  attributes, three resource pools, a fixed catalogue of 28 skills and the
  progression details (class, origin, NEX, stage). Each schema field declares
  a default and its bounds. Here a field descriptor is a value, and the bounds
  are predicates over the record (`fields.dfy`, `data_models.dfy`).
- **The derived-stat engine** (`OPCharacterData.prepareDerivedData`). It
  turns NEX into a level. It recomputes the three pool maximums from a
  four-class table and then the per-turn effort limit, the ritual difficulty
  and the passive defence. The record is a Dafny class. The recomputation is
  a method that `modifies this` and is specified by pure functions
  (`PreparedStatus`, `LimitePE`). The class table is also stated a second
  way, as a one-level-at-a-time progression (`EntryMaxima`, `LevelGain`,
  `MaximaAfter`), and the two forms are proved equal.
- **The item record and its schema** (`OPItemData`): slots, grid footprint
  and weight.
- **The attribute-roll formula** (`actor_sheet.dfy`). A positive attribute
  gives `<n>d20kh` and anything else gives `2d20kl`. What a formula string
  asks for is defined by a parser for the dice notation these formulas use
  (`dice_notation.dfy`). The lemmas prove that each formula parses back to
  the intended roll, and that no roll asks for zero dice.
- **The reactive horror state** (`actor_sheet.dfy`). After each render, the
  sheet's root element gets at most one of `state-insane` (sanity at most
  25%) and `state-shaken` (at most 50%). The element is a class whose
  `classList` is a set of strings.

The percentage `(value / max) * 100` is computed in exact integer
arithmetic by cross-multiplication. A zero maximum follows the host's
number semantics: it divides to +Infinity, -Infinity or NaN, and NaN
compares false. So that case is modelled and not excluded.

Points of the code's behaviour worth noting, all of which the model keeps:

- The class switch has no default branch. An unknown class keeps the stored
  maximums; it is not an error and is not ruled out.
- The keep-lowest formula is used for every attribute value that is not
  positive, and also for a key that names no attribute. This is not limited
  to a value of exactly 0.
- A skill's governing attribute is an editable text field whose default is
  the catalogued attribute. It is not fixed.
- `nex`, `estagio` and the pool fields are not declared integral.
- The schema only declares bounds; it does not itself report errors.
- There is no skill roll.

## Model

| member | source | states |
|---|---|---|
| `DataModels.AttributeValue` | src/module/sheets/actor-sheet.ts:89 | looking up an attribute by key succeeds exactly for the five attribute keys, and each key returns its own field (forca, agilidade, intelecto, vigor, presenca in schema order) |
| `DataModels.SkillCatalogueShape` | src/module/data-models.ts:50-68 | the skill catalogue has 28 entries with pairwise distinct names, each bound to one of the five attribute keys |
| `DataModels.CharacterSchemaBounds` | src/module/data-models.ts:24-80 | attributes admit exactly v >= 0, NEX exactly 0..99, stage exactly v >= 1, class exactly the four choices; attributes and skill bonuses are integral; every default lies within its own field's bounds |
| `DataModels.SkillFieldFor` | src/module/data-models.ts:19-22 | a skill entry has an integral, unbounded bonus defaulting to 0 and an unrestricted text field defaulting to the given attribute key; both defaults are admitted |
| `DataModels.DefaultStatus` | src/module/data-models.ts:35-48 | the pools default to PV 20/20, PE 2/2 and sanity 12/12, within their (unbounded) fields |
| `DataModels.DefaultAtributos` | src/module/data-models.ts:26-32 | the default attributes are valid and every key reads 1 |
| `DataModels.DefaultPericias` | src/module/data-models.ts:19-68 | the default skill mapping has exactly the catalogued names; each catalogued skill defaults to bonus 0 and to its own catalogued attribute (furtividade to agilidade, medicina to intelecto, fortitude to vigor, ...), which is always one of the five keys |
| `DataModels.DefaultDetalhes` | src/module/data-models.ts:71-79 | the default details are valid: class combatente, origin empty, NEX 5, stage 1 |
| `DataModels.Nivel` | src/module/data-models.ts:93 | the level is at least 1; it is 1 below 10% NEX, and from 5% on it is the number of whole 5% steps of NEX |
| `DataModels.ClassMaxima` | src/module/data-models.ts:97-122 | the class switch assigns maximums exactly when the class is one of the four choices |
| `DataModels.PreparedStatus` | src/module/data-models.ts:96-122 | all current pool values are kept; an unknown class leaves the pools unchanged; a known class gets the class table's maximums |
| `DataModels.LimitePE` | src/module/data-models.ts:125 | the per-turn effort limit is at least 1; it is 1 for a survivor and equals the level otherwise |
| `DataModels.PreparedStatusIdempotent` | src/module/data-models.ts:96-122 | recomputing the pools twice gives the same pools as once |
| `DataModels.PreparedMaximaRetroactive` | src/module/data-models.ts:96-122 | for a known class, the new maximums do not depend on the maximums stored before |
| `DataModels.MaximaAfterClosedForm` | src/module/data-models.ts:98-120 | gaining a class's per-level increment k times gives the entry row plus k times the increment |
| `DataModels.ClassMaximaIsProgression` | src/module/data-models.ts:98-120 | for a known class and a stage of at least 1, the table's maximums are the entry row plus one level gain per step beyond the first: NEX levels for three classes, stages for the survivor |
| `DataModels.MaximaGrowWithProgress` | src/module/data-models.ts:98-120 | with non-negative attributes, more NEX and a later stage never lower any maximum |
| `DataModels.MaximaFloor` | src/module/data-models.ts:98-120 | with valid attributes and stage, every known class gives at least 8 PV, 2 PE and 8 sanity |
| `DataModels.FirstLevelMaxima` | src/module/data-models.ts:98-120 | below 10% NEX a non-survivor gets the entry row (combatente 20+vigor, 2+presenca, 12), and so does a survivor at stage 1 whatever the NEX |
| `DataModels.ProgressionDriver` | src/module/data-models.ts:97-121 | survivor maximums do not depend on NEX; the other classes' maximums do not depend on the stage |
| `DataModels.OccultistAtTenPercent` | src/module/data-models.ts:110-114 | an occultist at 10% NEX with vigor 3 has 20 PV |
| `DataModels.OPCharacterData.constructor` | src/module/data-models.ts:24-80 | a record built from the schema defaults and then prepared is valid and prepared, with PV 20/21, PE 2/3, sanity 12/12, effort limit 1, ritual difficulty 12, defence 11 |
| `DataModels.OPCharacterData.PrepareDerivedData` | src/module/data-models.ts:87-132 | attributes, skills and details are unchanged; the pools become `PreparedStatus` of the old pools; effort limit, ritual difficulty (10 + limit + presenca) and defence (10 + agilidade) are recomputed; a record that was already prepared is left unchanged |
| `DataModels.ItemSchemaBounds` | src/module/data-models.ts:142-160 | slots admit exactly 1..4, width and height exactly 1..2, weight exactly v >= 0; slots are integral; every default lies within its own bounds |
| `DataModels.DefaultItem` | src/module/data-models.ts:145-159 | the default item is valid: 1 slot, 1 by 1, weight 1 |
| `DiceNotation.Decimal` | src/module/sheets/actor-sheet.ts:92 | a number is written as a non-empty string of decimal digits with no leading zero |
| `DiceNotation.DecimalValue` | src/module/sheets/actor-sheet.ts:92 | the digits written for a number denote that number |
| `DiceNotation.ParseFormatted` | src/module/sheets/actor-sheet.ts:92 | `<n>d<faces>` followed by a keep modifier parses back to exactly that roll |
| `ActorSheet.AttributeFormula` | src/module/sheets/actor-sheet.ts:92 | a positive value gives its decimal digits followed by `d20kh`; any other value gives `2d20kl` |
| `ActorSheet.RollAttributeFormula` | src/module/sheets/actor-sheet.ts:88-92 | a key that names no attribute gives `2d20kl`; a key that names one gives that attribute's formula; the formula ends in `kh` exactly when the key names an attribute with a positive value |
| `ActorSheet.AttributeFormulaMeaning` | src/module/sheets/actor-sheet.ts:92 | a positive attribute's formula parses as that many d20 keeping the highest one; any other value's formula is `2d20kl`, two d20 keeping the lowest one |
| `ActorSheet.FormulaNeverZeroDice` | src/module/sheets/actor-sheet.ts:88-92 | for every key, the formula parses, asks for at least one d20 and keeps one; it keeps the highest exactly when the key names an attribute whose value is positive |
| `ActorSheet.AttributeThreeFormula` | src/module/sheets/actor-sheet.ts:92 | an attribute of 3 gives `3d20kh` |
| `ActorSheet.PercentAtMost` | src/module/sheets/actor-sheet.ts:66-74 | for a non-zero maximum, the result is exactly whether (value / max) * 100 is at most the limit in real arithmetic |
| `ActorSheet.PercentCrossMultiplied` | src/module/sheets/actor-sheet.ts:66-74 | for a positive maximum the percentage comparison equals value*100 <= limit*max; for a negative maximum it equals value*100 >= limit*max |
| `ActorSheet.HorrorStateOf` | src/module/sheets/actor-sheet.ts:66-76 | with a positive maximum: insane exactly when value*100 <= 25*max; shaken exactly when 25*max < value*100 <= 50*max; neither above 50%. With a negative maximum (possible when an unknown class keeps a stale one): insane exactly when value*100 >= 25*max, shaken exactly when 50*max <= value*100 < 25*max. With a zero maximum: insane exactly for a negative value, never shaken |
| `ActorSheet.HorrorWorsensAsSanityFalls` | src/module/sheets/actor-sheet.ts:72-75 | for a fixed positive maximum, a lower sanity value never gives a less severe state |
| `ActorSheet.RenderedClasses` | src/module/sheets/actor-sheet.ts:69-76 | afterwards at most one state class is present; insane is present exactly for the insane state and shaken exactly for the shaken state; every other class is untouched |
| `ActorSheet.RenderIdempotent` | src/module/sheets/actor-sheet.ts:69-76 | rendering twice with the same sanity leaves the same classes as rendering once |
| `ActorSheet.SheetElement.RenderHorrorState` | src/module/sheets/actor-sheet.ts:65-76 | the element's classes become `RenderedClasses` of the old classes and of the state of the character's sanity value and maximum |

## Left out

- Host library field behaviour: coercing, cleaning and reporting errors for
  the number and text fields is library code that is not visible here. The
  schema is modelled only as declared defaults and bounds.
- Fractional numbers: `nex`, `estagio`, the pool fields, `largura`, `altura`
  and `peso` are not declared integral. Everything is modelled as `int`, and
  fractional values are not modelled.
- DataModels.OPCharacterData.PrepareDerivedData: does not model
  double-precision limits. Attribute sums beyond 2^53 would lose precision in
  the source.
- ActorSheet.HorrorStateOf: computes the sanity percentage exactly and does not model
  rounding in the double-precision division and multiplication.
- DiceNotation.Decimal: writes every number in plain digits. String
  interpolation switches to exponent notation at 10^21 and above.
- Evaluating a roll (`new Roll(...).evaluate()`), posting it to chat
  (`toMessage`, `ChatMessage.getSpeaker`) and the roll's flavour label: these
  are asynchronous host calls. Only the formula and what it asks for are
  modelled.
- Context preparation for the templates, drag-and-drop binding and item
  drops on the actor sheet: these are UI wiring with no rule logic.
- Hook registration, the global configuration namespace, sheet registration
  and console logging in `src/main.ts`, and the item sheet's template
  options: these are lifecycle plumbing.
- Clamping a pool's current value to its maximum: the source does not clamp,
  so neither does the model.
- A skill roll with a bonus: the sheet wires only the attribute roll.
