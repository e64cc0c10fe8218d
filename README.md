# HeroDB skill parser and query services: a Dafny model

HeroDB turns a game's hero records into human-readable skill texts. A hero
record's identifiers are first resolved against the master table (the
unified hero data). Then every hero's special skill, passive skills and
costume bonuses are parsed into records. Each record carries a language
template id, the parameters filled from the skill data, and the English and
Japanese texts. A small web API serves and searches the unified data and the
language table. A command-line tool extracts the matching property blocks
into a file.

This project models the core of that pipeline as Dafny values, functions and
methods, and proves what each step promises:

- **Data.** JSON values are Python dicts as ordered association lists, with
  insertion-order keys, first-occurrence lookup and in-place assignment.
  There are numbers with Python's int/float promotion, and truthiness.
  Every exception that would escape to the top level is an explicit `Crash`
  outcome.
- **Engine helpers (`hero_parser.py`).**
  - Flattening of nested data.
  - Resolution of identifiers against the master table, each master record
    expanded at most once.
  - The value resolver with its rule tables and keyword heuristic, and the
    level-scaling law.
  - Keyword collection and the best-template matcher with its depth
    weights and tie-breaking.
  - Placeholder extraction, value formatting and template filling.
  - Tooltip lookup.
  - The direct-effect parser.
- **The parsers package.** Clear buffs, status effects, properties
  (including rotating and charged specials), familiars and their simple
  effects, passive skills, and chain strikes.
- **The orchestrator (`hero_main.py`).** `phase_two_parse_skills` with its
  warning collection, chain-strike delegation, section order and dropping
  of empty sections. The shared `parsers` dict is a class whose methods
  update it in place.
- **The API and the tool.** The recursive block search, the collection loop
  over all heroes, the query, hero-list, hero-detail and language
  super-search endpoints, and the extraction tool's output name and
  contents.

The resolver, the placeholder loops, flattening, the block search and the
phase-two loop are imperative in the source. They are `method`s with loops,
each proved equal to a specification function. The properties the source
promises are then proved about those functions.

Two behaviours of the code are reproduced as written:

- **Status-effect failure branch.** When neither a language override nor
  the matcher gives a status effect a template, the failure branch names
  variables that do not exist in that function
  (`parsers/parse_status_effects.py:32-33`). The model raises `NameError`
  there, and that aborts the whole run (`Status.UnmatchedEffectCrashes`).
  The property and familiar parsers have no such problem and build a
  failure record.
- **Self-increment in the value resolver.** For a heuristic key without
  `PerMil`, `found_key.replace("PerMil", "IncrementPerLevelPerMil")` is the
  key itself. The key is therefore its own increment, and the value becomes
  `base * max_level` (`Values.SelfIncrement`, `Values.HeuristicSelfScaled`).

## Model

| member | source | states |
|---|---|---|
| Flatten.FlattenJson | packages/parser_engine/hero_parser.py:10-23 | the dict built equals `Flat(y)`: every scalar leaf written under its path key, a later equal key overwriting an earlier one |
| Flatten.Walk | packages/parser_engine/hero_parser.py:13-21 | walking a value writes exactly its leaves, under the given name prefix, into the output dict |
| Flatten.WalkFields | packages/parser_engine/hero_parser.py:14-15 | a dict's values are walked in key order under `name + key + "_"` |
| Flatten.WalkItems | packages/parser_engine/hero_parser.py:16-20 | a list's items are walked in order under `name + str(i) + "_"` |
| Flatten.Leaves | packages/parser_engine/hero_parser.py:13-21 | only scalars (no dict, no list) are stored as values |
| Flatten.PutAllConcat | packages/parser_engine/hero_parser.py:21 | writing two runs of leaves is writing the first and then the second |
| Flatten.LeavesArePaths | packages/parser_engine/hero_parser.py:13-21 | each leaf key is the prefix followed by the leaf's path segments, each ended by `_`, with the final `_` cut off |
| Flatten.RootKeyIsJoin | packages/parser_engine/hero_parser.py:21 | from the root, a leaf key is `"_".join(path)` |
| Flatten.EmptyContainersGiveNothing | packages/parser_engine/hero_parser.py:14-20 | a dict whose values are all empty dicts or lists flattens to nothing |
| Flatten.PutAllDistinct | packages/parser_engine/hero_parser.py:21 | leaves with distinct new keys are appended in traversal order |
| Flatten.FlatIsLeaves | packages/parser_engine/hero_parser.py:10-23 | when no two leaves share a key, the flattened dict is exactly the leaves in traversal order |
| Resolve.DetailsKeyIsNoIdKey | packages/parser_engine/hero_parser.py:89-94 | a `<key>_details` key never ends in `id`, so an inserted detail is never taken for an identifier |
| Resolve.ExpandShrinks | packages/parser_engine/hero_parser.py:90-91 | expanding a master id not yet processed strictly shrinks the set of unexpanded ids, so the walk ends even on cyclic master data |
| Resolve.ExpandedChain | packages/parser_engine/hero_parser.py:90-93 | two consecutive walks together expanded the union of their ids, each once |
| Resolve.ResolveValue | packages/parser_engine/hero_parser.py:83-109 | outcome and processed ids are those of `Resolved`; every id it expands is a master id not processed before, each expanded once; a dict stays a dict keeping its keys and string ids, and a scalar is returned unchanged |
| Resolve.ResolveFields | packages/parser_engine/hero_parser.py:87-98 | outcome and processed ids are those of `ResolvedFrom`, where each unexpanded identifier gets `<key>_details` holding its resolved master record (`Resolve.DetailsResolved`); old keys and string ids stay; with nothing to expand or walk the dict is unchanged |
| Resolve.DetailsResolved | packages/parser_engine/hero_parser.py:89-94 | an identifier key whose text id is a master id not yet processed gets `<key>_details` set to that master record, itself resolved |
| Resolve.ResolveItems | packages/parser_engine/hero_parser.py:99-109 | outcome and processed ids are those of `ResolvedItemsFrom`: the list keeps its length, and each element is resolved as `ResolvedItem` says: a string becomes its record, a dict is updated with it |
| Resolve.ResolveElement | packages/parser_engine/hero_parser.py:100-107 | outcome and processed ids are those of `ResolvedItem`: a string id becomes its resolved record (`Resolve.StringItemResolved`), a dict with a master `id` becomes the dict updated with the resolved record, master values winning (`Resolve.DictItemUpdated`) |
| Resolve.StringItemResolved | packages/parser_engine/hero_parser.py:101-106 | a string element naming an unprocessed master id becomes that master record, resolved |
| Resolve.DictItemUpdated | packages/parser_engine/hero_parser.py:101-107 | a dict element with an unprocessed master `id` becomes `item.update(resolved)`: a key holds the master record's value when it has one, else the item's own |
| Resolve.ResolveField | packages/parser_engine/hero_parser.py:88-98 | one key of the field loop: outcome and new state are those of `FieldWalk`; a key that is neither a container nor an unexpanded identifier changes nothing |
| Resolve.PutKeeps | packages/parser_engine/hero_parser.py:94 | writing a `_details` sibling or a walked container value keeps the dict's keys and identifier values |
| Resolve.GetFullHeroData | packages/parser_engine/hero_parser.py:77-81 | the result is `Resolved(base)` with no id processed yet; each master record is expanded at most once in the whole call, and the result keeps the base record's shape |
| Values.ParseIntOfText | packages/parser_engine/hero_parser.py:129 | `int(str(n)) == n` for every integer |
| Values.FixedValue | packages/parser_engine/hero_parser.py:127-132 | no text gives no value; integer text gives that int, other float text that float, and any other text is kept as text |
| Values.EndingWith | packages/parser_engine/hero_parser.py:135 | the rule's matching keys are exactly the flattened keys ending with the rule key |
| Values.ApplyRule | packages/parser_engine/hero_parser.py:126-141 | a `fixed` rule gives its fixed value tagged `Fixed Rule`; otherwise a value comes only from exactly one flattened key ending with the rule key and holding a number, divided by 10 for a per-mil key and else `int()`-truncated, tagged `Exception Rule: <key>`; such a key always gives its value |
| Values.Fragments | packages/parser_engine/hero_parser.py:147 | `re.findall('[A-Z][^A-Z]*')`: each fragment starts with its only upper-case letter |
| Values.FragmentsRebuild | packages/parser_engine/hero_parser.py:147 | the fragments joined back are the text from its first capital letter on |
| Values.AllCapsKeywords | packages/parser_engine/hero_parser.py:147 | an all-capitals placeholder such as `DAMAGE` splits into its single lowered letters |
| Values.RemoveIgnored | packages/parser_engine/hero_parser.py:144-146 | exactly the entries whose key mentions no ignored keyword remain |
| Values.RemoveIgnoredKeys | packages/parser_engine/hero_parser.py:144-146 | the deletion loop leaves the dict `RemoveIgnored` describes |
| Values.CandidatesUpTo | packages/parser_engine/hero_parser.py:148-157 | every candidate is a numeric entry of the flattened block, sharing a keyword with the placeholder and carrying its score |
| Values.CandidatesInOrder | packages/parser_engine/hero_parser.py:148-157 | the candidates are exactly the numeric flattened entries sharing a keyword with the placeholder, one per entry, in entry order |
| Values.CollectCandidates | packages/parser_engine/hero_parser.py:148-157 | the candidate loop builds the candidates `CandidatesUpTo` describes |
| Values.BestCand | packages/parser_engine/hero_parser.py:158-159 | the chosen candidate is one no other beats (higher score, then shorter key), and the first such |
| Values.SelfIncrement | packages/parser_engine/hero_parser.py:165-171 | a key without `PerMil` that is present is its own increment key |
| Values.Scale | packages/parser_engine/hero_parser.py:174-178 | succeeds exactly for a numeric level; a modifier or per-mil key gives a float, any other an int (whose value `Values.ScaleTruncates` states) |
| Values.ScaleTruncates | packages/parser_engine/hero_parser.py:174-178 | a plain key scales to `int()` of `base + inc * (L - 1)`, truncated toward zero |
| Values.ScaleLaw | packages/parser_engine/hero_parser.py:174-177 | a modifier is `((base - 1000) + inc * (L - 1)) / 10`, a per-mil key `(base + inc * (L - 1)) / 10` |
| Values.ScaleSelf | packages/parser_engine/hero_parser.py:172-178 | a plain integer key that is its own increment scales to `base * L` |
| Values.Heuristic | packages/parser_engine/hero_parser.py:142-178 | a value is found only in a dict, tagged with the best candidate's key; without a value there is no tag |
| Values.HeuristicChosen | packages/parser_engine/hero_parser.py:158-178 | with candidates, the value is the scaled value of the best candidate, tagged with its key |
| Values.HeuristicSelfScaled | packages/parser_engine/hero_parser.py:165-178 | a best candidate that is a plain integer key without `PerMil` yields that value times the maximum level |
| Values.FindValue | packages/parser_engine/hero_parser.py:122-178 | a rule for the upper-cased placeholder, hero-specific before common, decides alone; otherwise the heuristic does |
| Values.RuleSuppressesHeuristic | packages/parser_engine/hero_parser.py:124-141 | with a rule, the level, the modifier flag and the ignore list change nothing |
| Values.SpecificRuleFirst | packages/parser_engine/hero_parser.py:124-125 | a hero-specific rule wins over a common one |
| Values.FindAndCalculateValue | packages/parser_engine/hero_parser.py:122-178 | the method computes `FindValue` |
| Values.AttackColumn | packages/parser_engine/hero_parser.py:115-119 | the attack column is `Max level: Attack` or a costume-bonus column up to the given one that has a value (which one: `Values.AttackColumnHighest`) |
| Values.AttackColumnHighest | packages/parser_engine/hero_parser.py:115-119 | the chosen column is the highest costume-bonus column with a value, else `Max level: Attack` |
| Values.HeroFinalStats | packages/parser_engine/hero_parser.py:112-120 | an unknown or empty hero gives attack 0 and name `N/A`; otherwise the attack is the integer cell of the chosen column (0 when the row lacks it), raising exactly when that cell is no integer, and the name is the `Name` cell, else `N/A` |
| Values.GetHeroFinalStats | packages/parser_engine/hero_parser.py:112-120 | the column search loop computes `HeroFinalStats` |
| Matcher.Collect | packages/parser_engine/hero_parser.py:180-195 | every collected keyword has a depth between the starting depth and one past the maximum depth |
| Matcher.CollectFields | packages/parser_engine/hero_parser.py:184-191 | the same depth bounds for the keywords of a dict's entries |
| Matcher.CollectItems | packages/parser_engine/hero_parser.py:192-194 | the same depth bounds for the keywords of a list's items |
| Matcher.ParentOnlyName | packages/parser_engine/hero_parser.py:207-208 | adding the parent dict contributes only the keyword `parent` at depth 1: a dict value is not searched |
| Matcher.MinDepths | packages/parser_engine/hero_parser.py:209-211 | the seen keywords are exactly the collected ones, each at its least depth |
| Matcher.WeightHalves | packages/parser_engine/hero_parser.py:216 | one level deeper halves a keyword's weight `100 / 2 ** depth` |
| Matcher.Score | packages/parser_engine/hero_parser.py:213-222 | a key scores at least the weights of its distinct segments that are seen keywords |
| Matcher.SharedSegmentScores | packages/parser_engine/hero_parser.py:214-216 | a key with a seen keyword as a segment scores above zero |
| Matcher.Matches | packages/parser_engine/hero_parser.py:213-223 | the potential matches are the keys with a positive score, each with that score |
| Matcher.MatchesComplete | packages/parser_engine/hero_parser.py:223 | every key of the subset with a positive score is a potential match |
| Matcher.StatusEffectId | packages/parser_engine/hero_parser.py:198-206 | the constructed status id starts with `specials.v2.statuseffect.`; it raises exactly when `buff` cannot be a dict key |
| Matcher.Pick | packages/parser_engine/hero_parser.py:227-231 | the chosen key has the highest score, the shortest among equals, and is the first such key in subset order, as the stable sort leaves it; there is none exactly when no key scores above zero |
| Matcher.PositivesFirst | packages/parser_engine/hero_parser.py:223-231 | the best positive match is a key before which no key scores higher, or scores the same and is no longer: the first element after the stable sort |
| Matcher.FindBest | packages/parser_engine/hero_parser.py:197-231 | a constructed status id in the subset wins at once; otherwise the best-scored key, or the `Could not find lang_id` warning; a log entry is added only for a chosen familiar; the exact error conditions |
| Matcher.SharedKeywordFinds | packages/parser_engine/hero_parser.py:213-231 | when one key shares a segment with a seen keyword, some key is chosen |
| Records.Match | packages/parser_engine/hero_parser.py:228-230 | the matcher with the shared log: same choice, log entries appended, nothing else changed |
| Records.Warnings | packages/parser_engine/parsers/parse_status_effects.py:28-29 | at most one warning, present exactly when no key was chosen, starting with the parser's prefix |
| Records.LangIdFor | packages/parser_engine/parsers/parse_status_effects.py:26-29 | a language override wins without warning; otherwise the matcher's key, which is in the subset; at most one warning, only with no key; only the log changes |
| Tables.RuleFor | packages/parser_engine/hero_parser.py:124-125 | the hero-specific rule for the placeholder when there is one, else the common one |
| Tables.LangOverride | packages/parser_engine/parsers/parse_properties.py:54 | the hero-specific override when non-empty, else the common one when non-empty, else none; only a text id is found; an unhashable id raises TypeError |
| Tables.KeysWithPrefix | packages/parser_engine/parsers/parse_status_effects.py:19 | the subset is exactly the table's keys with the prefix, and a subsequence of the table's keys, so in table order |
| Tables.Filter | packages/parser_engine/parsers/parse_passive_skills.py:26 | exactly the keys of the list that start with the prefix, as a subsequence of the list |
| Json.ScaledLaw | packages/parser_engine/parsers/parse_chain_strike.py:35 | `base + inc * (level - 1)` has that real value |
| Json.RoundHalfEven | packages/parser_engine/hero_parser.py:260-263 | Python's `round`: an integer within a half of the value, even on a tie |
| Json.RoundUnique | packages/parser_engine/hero_parser.py:260-263 | that integer is the only one within a half of the value that is even on a tie |
| Params.DamageOf | packages/parser_engine/parsers/parse_status_effects.py:47 | `floor(value / 100 * max_attack)`: the largest integer not above the exact product; TypeError for a non-number |
| Params.TurnsOr1 | packages/parser_engine/parsers/parse_status_effects.py:48 | `turns or 1` is never zero and keeps non-zero turns |
| Params.Converted | packages/parser_engine/parsers/parse_status_effects.py:44-49 | a missing value stores nothing; a `DAMAGE` value from a per-mil key becomes `floor(v / 100 * max_attack)`, times `turns or 1` when the template says `over {TURNS} turns`, and raises for a non-number; other values are stored as found |
| Params.FillStep | packages/parser_engine/parsers/parse_status_effects.py:41-49 | a key already set is kept; otherwise the placeholder holds exactly its converted resolver value, none leaving it unset; no other key changes and none but the placeholder is added |
| Params.FillOne | packages/parser_engine/parsers/parse_status_effects.py:43-49 | one pass of the placeholder loop computes `FillStep` |
| Params.FillParams | packages/parser_engine/parsers/parse_status_effects.py:41-49 | the seed values survive, and the only new keys are placeholders |
| Params.FilledValue | packages/parser_engine/parsers/parse_status_effects.py:41-49 | every placeholder the seed does not set holds exactly its converted resolver value, none leaving it unset |
| Params.PerTurnDamage | packages/parser_engine/parsers/parse_status_effects.py:45-49 | an unset `DAMAGE` from a per-mil key holds the attack-based damage, times `turns or 1` for an `over {TURNS} turns` template |
| Params.UnsetMeansNotFound | packages/parser_engine/parsers/parse_status_effects.py:43-44 | a placeholder the seed does not set is left unset exactly when the resolver found no value for it |
| Params.FillFromCrash | packages/parser_engine/parsers/parse_status_effects.py:43 | an error in one placeholder's resolution ends the loop with that error |
| Params.ComputeParams | packages/parser_engine/parsers/parse_status_effects.py:41-49 | the placeholder loop computes `FillParams` |
| Describe.ScanSound | packages/parser_engine/hero_parser.py:56 | every name `re.findall(r'\{(\w+)\}')` returns is written as `{name}` in the text |
| Describe.ScanFinds | packages/parser_engine/hero_parser.py:56 | every `{name}` of word characters in the text is scanned |
| Describe.Placeholders | packages/parser_engine/hero_parser.py:56 | the placeholder set holds each name once |
| Describe.PlaceholdersExact | packages/parser_engine/hero_parser.py:56 | a name is a placeholder exactly when `{name}` appears in the text |
| Describe.FormatValue | packages/parser_engine/hero_parser.py:34-38 | an integral float becomes the equal int, another float its one-decimal text, every other value is kept |
| Describe.FormatIdempotent | packages/parser_engine/hero_parser.py:34-38 | formatting a formatted value changes nothing |
| Describe.FormatDropsPointZero | packages/parser_engine/hero_parser.py:35-36 | the printed form of an integral float is the formatted one followed by `.0` |
| Describe.FormatAllGet | packages/parser_engine/hero_parser.py:66 | formatting the parameters keeps their keys and formats each value |
| Describe.Description | packages/parser_engine/hero_parser.py:25-32 | a missing template gives `NO_TEMPLATE_FOR_<id>` in both languages with the parameters filled in; otherwise both template texts with the parameters filled in |
| Describe.NoTemplateFilled | packages/parser_engine/hero_parser.py:27-31 | a missing template `x{A}` with `A = 1` gives `NO_TEMPLATE_FOR_x1`: the default text is filled too |
| Describe.FillUnused | packages/parser_engine/hero_parser.py:29-31 | a text holding no parameter's token is left as it is |
| Describe.NoParamsKeepText | packages/parser_engine/hero_parser.py:27-32 | with no parameters the template texts come back unchanged |
| Describe.ReplaceBetween | packages/parser_engine/hero_parser.py:30 | a token between brace-free texts is replaced by the value |
| Describe.FillSingle | packages/parser_engine/hero_parser.py:29-31 | a one-token template has the value's `str` in the token's place |
| Describe.BulletsPlain | packages/parser_engine/hero_parser.py:71 | a text without line breaks or brackets is unchanged by the bullet substitution |
| Describe.BulletsNoMarker | packages/parser_engine/hero_parser.py:71 | no `[*]` marker survives the substitution |
| Describe.TooltipText | packages/parser_engine/hero_parser.py:71-72 | a tooltip text holds no `[*]` and neither starts nor ends with whitespace |
| Describe.ExtraLangId | packages/parser_engine/hero_parser.py:47-52 | the first key naming the skill, `.extra` and a category; none exactly when no key does |
| Describe.Picked | packages/parser_engine/hero_parser.py:57-58 | exactly the placeholders the main record has are copied, with the main record's values |
| Describe.PickedAll | packages/parser_engine/hero_parser.py:57-58 | every placeholder the main record has is copied with its value |
| Describe.PickParams | packages/parser_engine/hero_parser.py:57-58 | the copy loop computes `Picked` |
| Describe.ExtraFor | packages/parser_engine/hero_parser.py:41-74 | nothing without a skill or categories; otherwise the tooltip of the first candidate key when the table has it, else nothing; parameters shared with the main record keep the main record's values |
| Describe.ExtraResolved | packages/parser_engine/hero_parser.py:59-65 | a tooltip placeholder the main record lacks holds what the value resolver finds for it on the search context with its `maxLevel`, default 8 |
| Describe.ExtraFilled | packages/parser_engine/hero_parser.py:53-73 | the tooltip of a chosen template takes the main record's values for the placeholders it shares |
| Describe.FindExtraDescription | packages/parser_engine/hero_parser.py:41-74 | the search and copy loops compute `ExtraFor` |
| Describe.FillExtra | packages/parser_engine/hero_parser.py:53-67 | the copy loop and the placeholder loop compute `ExtraFilled` |
| Direct.OptPart | packages/parser_engine/hero_parser.py:244-245 | an optional id part is nothing when falsy, and fails exactly when it is truthy but not text |
| Direct.DirectParts | packages/parser_engine/hero_parser.py:242-245 | the parts start with `specials.v2.directeffect`; they exist exactly when the type is text and the target and side are falsy or text |
| Direct.ManaSuffix | packages/parser_engine/hero_parser.py:247-250 | `.increment` exactly for a positive power, `.decrement` exactly for a negative one, nothing for zero; TypeError for a non-number |
| Direct.DirectParams | packages/parser_engine/hero_parser.py:258-263 | positive base or increment: the total over the unit, rounded half to even; only negative ones: the absolute rounded hundredth; no parameter exactly when both are zero |
| Direct.DirectValues | packages/parser_engine/hero_parser.py:253-263 | the parameters are `DirectParams` of the level-scaled total; they exist exactly when the scaling succeeds |
| Direct.DirectLangId | packages/parser_engine/hero_parser.py:246-251 | the template id is the parts joined by `.`, then for `AddMana` the sign suffix, then `.fixedpower` when that flag is truthy; TypeError exactly when `AddMana` has a non-number power |
| Direct.DirectRecord | packages/parser_engine/hero_parser.py:253-265 | the record carries the built template id and the `DirectValues` parameters, its texts are the description of those; it fails exactly when the level scaling does |
| Direct.DirectEffect | packages/parser_engine/hero_parser.py:238-265 | the no-type record for a falsy effect or a falsy `effectType`; a truthy effect that is not a dict raises AttributeError on `.get`, a crash; for a dict with a truthy `effectType`, the error record exactly when `DirectParts` finds no text parts; a filled record is `DirectRecord` with the id `DirectLangId` builds from `DirectParts` |
| Direct.DirectIdOfType | packages/parser_engine/hero_parser.py:243-246 | a plain type alone gives `specials.v2.directeffect.<lowered type>` |
| Direct.DirectIdOfParts | packages/parser_engine/hero_parser.py:242-251 | a text type, target and side give `specials.v2.directeffect.<type>.<target>.<side>`, lowered, with `.fixedpower` when flagged |
| Direct.DirectEffectOf | packages/parser_engine/hero_parser.py:240-265 | an effect whose parts are text gives the record with its built id |
| Direct.DirectTypeNotText | packages/parser_engine/hero_parser.py:242-252 | a type that is not text gives the `direct_effect_error` record |
| ClearBuffs.NameSide | packages/parser_engine/parsers/parse_clear_buffs.py:18-20 | a debuff name gives `allies`, another buff name `enemies`, any other name nothing |
| ClearBuffs.ClearSide | packages/parser_engine/parsers/parse_clear_buffs.py:18-25 | a side the buff name decides wins; otherwise the first non-empty of `buffToRemoveSideAffected`, `sideAffected` and the direct effect's `sideAffected`, lowered, else `enemies`; lowering a non-text value raises. The source's last `allies` fallback for a debuff name cannot be reached, since the name rule already decides it |
| ClearBuffs.Resolved | packages/parser_engine/parsers/parse_clear_buffs.py:29-34 | the built id if the table has it, else the id with `.latest`, else none |
| ClearBuffs.ClearBuffsOf | packages/parser_engine/parsers/parse_clear_buffs.py:5-55 | nothing without `buffToRemove`; a lowering error in `ClearLangId`, the id `specials.v2.clearbuffs.<buff>.<target>.<side>`, gives no record and the error warning; an id the table lacks, also with `.latest`, gives the failure record whose text is the one not-found warning for that id; otherwise the described record with the resolved template's texts, empty params, no nested effects and no warning |
| ClearBuffs.NameDecidesSide | packages/parser_engine/parsers/parse_clear_buffs.py:19-27 | a buff name fixes the side in the template id whatever the side fields say |
| ClearBuffs.BuffNotText | packages/parser_engine/parsers/parse_clear_buffs.py:53-55 | a `buffToRemove` that is not text gives no record and exactly the error warning |
| Status.PositiveTurns | packages/parser_engine/parsers/parse_status_effects.py:37 | `turns > 0` is decided for numbers and raises TypeError otherwise |
| Status.TurnsSeed | packages/parser_engine/parsers/parse_status_effects.py:37 | `TURNS` is set exactly for a lasting effect, to its turns |
| Status.StatusEffects | packages/parser_engine/parsers/parse_status_effects.py:14-72 | nothing for a falsy list; every record is a well-formed status record; only the debug log changes |
| Status.StatusIds | packages/parser_engine/parsers/parse_status_effects.py:21-70 | the records' ids are exactly the truthy `id`s of the list's items, in list order |
| Status.StatusFold | packages/parser_engine/parsers/parse_status_effects.py:21-70 | the loop keeps those two properties over every prefix of the list, and its records' ids are the truthy `id`s among the first n items, in order |
| Status.StatusOne | packages/parser_engine/parsers/parse_status_effects.py:22-70 | nothing without a truthy id; at most one record, with the effect's id |
| Status.StatusBuilt | packages/parser_engine/parsers/parse_status_effects.py:36-70 | one record with the effect's id and template, the `StatusParams` values, nested the `StatusNested` records, the matcher's warnings followed by the nested ones, and the description of the formatted params; a tooltip only for an extra description key |
| Status.StatusNested | packages/parser_engine/parsers/parse_status_effects.py:53-56 | nothing without `statusEffectsToAdd`; otherwise status records, only the log changing |
| Status.StatusParams | packages/parser_engine/parsers/parse_status_effects.py:36-49 | a lasting effect keeps its turns as `TURNS`; every key is `TURNS` or a placeholder of the template |
| Status.StatusDamage | packages/parser_engine/parsers/parse_status_effects.py:41-49 | a `DAMAGE` placeholder from a per-mil key holds the attack-based damage, times the turns for an `over {TURNS} turns` template |
| Status.StatusExtra | packages/parser_engine/parsers/parse_status_effects.py:58-66 | a tooltip only for an extra description key; it fails exactly when the lowering or the tooltip does |
| Status.UnmatchedEffectCrashes | packages/parser_engine/parsers/parse_status_effects.py:30-33 | an effect that neither an override nor the matcher resolves raises NameError |
| Status.EffectTurns | packages/parser_engine/parsers/parse_status_effects.py:37 | a parsed lasting effect's record has its turns as `TURNS` |
| Properties.HeadingOf | packages/parser_engine/parsers/parse_properties.py:39-40 | the table's heading for the position, else `Level <i+1>:` / `レベル <i+1>:` |
| Properties.ContainerSpeed | packages/parser_engine/parsers/parse_properties.py:28-29 | the mana-speed id exactly when it is text and the property type is the container type of that kind; an unhashable kind raises TypeError |
| Properties.FailText | packages/parser_engine/parsers/parse_properties.py:62 | the failure text starts with `FAIL_LANG_ID: ` |
| Properties.Props | packages/parser_engine/parsers/parse_properties.py:16-92 | nothing for a falsy list; every record is a property record; only `main_max_level` and the log may change |
| Properties.PropsIds | packages/parser_engine/parsers/parse_properties.py:23-90 | one record per dict item of the list: the records' ids are those items' `id`s, in list order |
| Properties.PropsSetsMaxLevel | packages/parser_engine/parsers/parse_properties.py:19-20 | after a run over properties none of which is a container, `main_max_level` holds the special's max level |
| Properties.NoSubsetFails | packages/parser_engine/parsers/parse_properties.py:54-64 | with no container kind, no override and an empty template subset, a property becomes the failure record naming its type and id |
| Properties.PropsFold | packages/parser_engine/parsers/parse_properties.py:23-90 | the loop keeps those properties over every prefix of the list, and its records' ids are the `id`s of the dict items among the first n, in order |
| Properties.PropOne | packages/parser_engine/parsers/parse_properties.py:24-90 | one property record per dict; a failure record names the type and id; warnings carry the `[parse_properties]: ` prefix |
| Properties.PropContainer | packages/parser_engine/parsers/parse_properties.py:29-52 | a container record with the container template of the mana-speed kind, whose headings are one per non-empty sub-special dict, in order |
| Properties.ContainerFold | packages/parser_engine/parsers/parse_properties.py:37-50 | every part is a heading, direct, property or status record; the headings are exactly one per non-empty dict, in order |
| Properties.ContainerPart | packages/parser_engine/parsers/parse_properties.py:38-50 | a sub-special gives its heading, then its direct effect, then its properties' records, then its status effects' records, with no other heading |
| Properties.PartDirect | packages/parser_engine/parsers/parse_properties.py:42-43 | a sub-special's direct-effect record when it has `directEffect`, else nothing; never a heading |
| Properties.PartProps | packages/parser_engine/parsers/parse_properties.py:44-47 | a sub-special's property records when it has `properties`, else nothing; never a heading |
| Properties.SubStatus | packages/parser_engine/parsers/parse_properties.py:48-50 | nothing without `statusEffects`; otherwise status records |
| Properties.SubDirect | packages/parser_engine/parsers/parse_properties.py:42-43 | a sub-special's direct effect is one part |
| Properties.PropBuilt | packages/parser_engine/parsers/parse_properties.py:66-90 | one described record with the property's id and template; its params are the values the resolver finds on the search context; nested the `PropNested` records with their warnings after the matcher's; the description of the formatted params; a tooltip only for an extra description key |
| Properties.PropNested | packages/parser_engine/parsers/parse_properties.py:74-77 | nothing without `statusEffects`; otherwise status records |
| Properties.PropExtra | packages/parser_engine/parsers/parse_properties.py:79-86 | a tooltip only for a text type that is an extra description key |
| Properties.UnmatchedPropertyFails | packages/parser_engine/parsers/parse_properties.py:54-64 | a property no override or matcher resolves becomes the failure record, with the matcher's warning |
| Properties.EmptyContainer | packages/parser_engine/parsers/parse_properties.py:35-51 | a container without `specialIds` has its template texts and no parts |
| Familiars.FirstPresent | packages/parser_engine/parsers/parse_familiars.py:36-38 | the first of the deterministic ids the table has; none exactly when it has none |
| Familiars.WithId | packages/parser_engine/parsers/parse_familiars.py:41 | the keys containing the id; TypeError exactly when the id is not text and there is a key to test |
| Familiars.FallbackCandidates | packages/parser_engine/parsers/parse_familiars.py:40-43 | the familiar templates containing the id when some do, else all familiar templates; TypeError exactly when there are templates and the id is not text |
| Familiars.FamiliarLangId | packages/parser_engine/parsers/parse_familiars.py:26-44 | a deterministic id the table has is taken first, without warning; otherwise the matcher's choice among `FallbackCandidates`, with its warning; only the log changes |
| Familiars.PerMilPercent | packages/parser_engine/parsers/parse_familiars.py:56-57 | `(base + inc * (L - 1)) / 10.0` |
| Familiars.FirstAttackAt | packages/parser_engine/parsers/parse_familiars.py:59-65 | the position of the first `Damage` effect with `attackPercentPerMil` |
| Familiars.FirstAttack | packages/parser_engine/parsers/parse_familiars.py:59-65 | `FAMILIARATTACK` comes from the first attack effect only |
| Familiars.FamiliarSeed | packages/parser_engine/parsers/parse_familiars.py:56-65 | `FAMILIARHEALTHPERCENT` is the health percentage; `FAMILIARATTACK` is the first attack effect's value, absent for falsy `effects`; there is no other key |
| Familiars.FamiliarParams | packages/parser_engine/parsers/parse_familiars.py:54-68 | the resolver never overrides the seeded health and attack values |
| Familiars.FamiliarNested | packages/parser_engine/parsers/parse_familiars.py:81-98 | only `AddStatusEffects` effects contribute, as status records |
| Familiars.FamiliarOne | packages/parser_engine/parsers/parse_familiars.py:22-105 | nothing without a truthy id; a record with the familiar's id; a failure record comes with the not-found warning last |
| Familiars.FamiliarSummon | packages/parser_engine/parsers/parse_familiars.py:54-105 | the summon record has the template and the `FamiliarParams` values, nested the `FamiliarEffects` records only when there are some, their warnings and state, and the description of the formatted params |
| Familiars.FamiliarExtra | packages/parser_engine/parsers/parse_familiars.py:71-73 | a tooltip only for an extra description key |
| Familiars.FamiliarEffects | packages/parser_engine/parsers/parse_familiars.py:80-98 | nothing for falsy `effects`; otherwise status records |
| Familiars.FamiliarsOf | packages/parser_engine/parsers/parse_familiars.py:17-107 | nothing for a falsy list; a list that parses holds only dicts, since `.get` on anything else raises |
| Familiars.FamiliarsIds | packages/parser_engine/parsers/parse_familiars.py:22-105 | the records' ids are exactly the truthy `id`s of the list's familiars, in list order |
| Familiars.FamiliarsFold | packages/parser_engine/parsers/parse_familiars.py:22-105 | the loop succeeds only over dicts, only the log changes, and its records' ids are the truthy `id`s among the first n items, in order |
| Familiars.EffectParams | packages/parser_engine/parsers/parse_familiars.py:132-138 | `FAMILIAREFFECTFREQUENCY` is the familiar's `turnsBetweenNonDamageEffects + 1` when both are present |
| Familiars.SimpleEffect | packages/parser_engine/parsers/parse_familiars.py:110-149 | no record without an id; otherwise a failure record with its text, or a described record without nested effects and without warning |
| Familiars.EffectCandidates | packages/parser_engine/parsers/parse_familiars.py:120-123 | effect templates containing the type when there are any, else all effect templates |
| Familiars.SimpleBuilt | packages/parser_engine/parsers/parse_familiars.py:132-148 | the record has the effect's id, template and parameters; a tooltip only for an extra description key |
| Familiars.KeysContaining | packages/parser_engine/parsers/parse_familiars.py:122 | exactly the keys containing the text |
| Passives.Keywords | packages/parser_engine/parsers/parse_passive_skills.py:29 | the keyword set holds each keyword once |
| Passives.SegmentMatches | packages/parser_engine/parsers/parse_passive_skills.py:30 | zero exactly when no keyword is a dot-segment of the key |
| Passives.TitleScores | packages/parser_engine/parsers/parse_passive_skills.py:30 | one score per candidate, in order |
| Passives.TitleId | packages/parser_engine/parsers/parse_passive_skills.py:25-31 | none exactly without title keys for the type; otherwise a candidate with the highest keyword count, the shortest among equals, and the first such in candidate order, as Python's stable `sorted` gives |
| Passives.Sharing | packages/parser_engine/parsers/parse_passive_skills.py:42 | exactly the candidates with a keyword as a segment |
| Passives.DescId | packages/parser_engine/parsers/parse_passive_skills.py:33-44 | the title's own description key when the table has it; otherwise none exactly without description keys for the type, and else `ShortestSharing` of those keys |
| Passives.ShortestSharing | packages/parser_engine/parsers/parse_passive_skills.py:41-43 | a candidate, sharing a keyword exactly when some candidate does; then the shortest sharing candidate, otherwise the shortest of all, in both cases the first of that length in candidate order, as `min` keeps the first |
| Strings.Shortest | packages/parser_engine/parsers/parse_passive_skills.py:42-43 | an element no longer than any other, and the first of that length |
| Strings.Keep | packages/parser_engine/parsers/parse_passive_skills.py:41 | exactly the elements that pass the test |
| Strings.KeepShortest | packages/parser_engine/parsers/parse_passive_skills.py:42 | the shortest kept element comes, in the whole list, before every other kept element of its length |
| Passives.PassiveParams | packages/parser_engine/parsers/parse_passive_skills.py:47-55 | every parameter is a placeholder of the title or the description |
| Passives.PassiveValues | packages/parser_engine/parsers/parse_passive_skills.py:47-55 | each placeholder holds the converted value the resolver finds for it on the search context |
| Passives.PassiveOne | packages/parser_engine/parsers/parse_passive_skills.py:21-69 | nothing without id and type; the failure record with its one warning exactly when no title or description id is found; otherwise one passive record with the `PassiveParams` values and the title and description texts of them |
| Passives.PassiveFound | packages/parser_engine/parsers/parse_passive_skills.py:24-69 | for a skill with id and type, one record with its id: the failure record with its one warning exactly when no title or description id is found, otherwise the passive record with the `PassiveParams` values and the title and description texts of them |
| Passives.PassivesOf | packages/parser_engine/parsers/parse_passive_skills.py:13-71 | nothing for a falsy list; the context is unchanged; no more warnings than records |
| Passives.PassivesIds | packages/parser_engine/parsers/parse_passive_skills.py:19-69 | the records' ids are exactly the `id`s of the dict items that have a truthy id and a non-empty lowered type, in list order |
| Passives.PassivesFold | packages/parser_engine/parsers/parse_passive_skills.py:19-69 | over the first n items, no more warnings than records and no more records than items, the ids being those of the skills that give a record, in order |
| Passives.ReplaceFirstAt | packages/parser_engine/parsers/parse_passive_skills.py:35 | `replace(pat, rep, 1)` replaces the first occurrence |
| Passives.StemFirstMatch | packages/parser_engine/parsers/parse_passive_skills.py:35 | in a passive title key the first `.title.` is the stem's |
| Passives.IdealOfTitle | packages/parser_engine/parsers/parse_passive_skills.py:35 | a title key's ideal description is the description key with the same type and suffix |
| Chain.Modifiers | packages/parser_engine/parsers/parse_chain_strike.py:48-52 | `onehit` for one extra hit, `with_chance` for a chance key, the strong-against modifier and `allowmaintargetinrandomtargets`, each when its condition holds, in that order; a truthy non-text element raises AttributeError |
| Chain.StrongModifier | packages/parser_engine/parsers/parse_chain_strike.py:51 | `strong_against_<lowered element>` exactly for a truthy element |
| Chain.ChainLangId | packages/parser_engine/parsers/parse_chain_strike.py:54-65 | the full key when there are modifiers and the table has it, else the bare key if present; always a table template |
| Chain.ChainValue | packages/parser_engine/parsers/parse_chain_strike.py:71-79 | a value is numeric; for another placeholder a numeric level suffices |
| Chain.ChanceValue | packages/parser_engine/parsers/parse_chain_strike.py:72-79 | `CHANCE` is the per-mil chance divided by 10 |
| Chain.DamageValue | packages/parser_engine/parsers/parse_chain_strike.py:74-79 | `DAMAGE` is the level-scaled per-mil damage divided by 10 |
| Chain.OtherValue | packages/parser_engine/parsers/parse_chain_strike.py:71-80 | any other placeholder is zero |
| Chain.AssignStep | packages/parser_engine/parsers/parse_chain_strike.py:80 | the placeholder holds its value and every other key keeps its own |
| Chain.ChainParamsSet | packages/parser_engine/parsers/parse_chain_strike.py:68-80 | `ChainParams` sets exactly the placeholders, each to its value |
| Chain.ComputeChainParams | packages/parser_engine/parsers/parse_chain_strike.py:70-80 | the loop computes `ChainParams` |
| Chain.InitialHealthMeaning | packages/parser_engine/parsers/parse_chain_strike.py:33-36 | `HEALTH` is `(base + inc * (L - 1)) / 10` |
| Chain.InitialRecord | packages/parser_engine/parsers/parse_chain_strike.py:31-38 | the `<id>_initial` record with the template and `HEALTH` as its only parameter |
| Chain.InitialOf | packages/parser_engine/parsers/parse_chain_strike.py:27-43 | a chosen template gives the initial record without warning; a failed one ends with the could-not-determine warning |
| Chain.InitialHit | packages/parser_engine/parsers/parse_chain_strike.py:24-43 | nothing without `powerMultiplierPerMil`; otherwise the matcher's choice for `{"propertyType": chainEffectType}` among the initial templates gives `InitialOf`'s `<id>_initial` record and warnings, all with the parser prefix |
| Chain.ChainHit | packages/parser_engine/parsers/parse_chain_strike.py:46-91 | the `<id>_chain` record with the built template and its parameters, or the failure record with its one warning; every warning carries the chain-strike prefix |
| Chain.ChainStrike | packages/parser_engine/parsers/parse_chain_strike.py:12-93 | two records with an initial hit and one without, the `_initial` one first and the `_chain` one last; only the log changes |
| Chain.ContextReads | packages/parser_engine/parsers/parse_chain_strike.py:21 | the search context reads the property for every key but `maxLevel` |
| Chain.MostSpecificWins | packages/parser_engine/parsers/parse_chain_strike.py:55-58 | with modifiers and the full key in the table, the chain hit uses the full key |
| Chain.OneHitFirst | packages/parser_engine/parsers/parse_chain_strike.py:49 | one extra hit puts `onehit` first |
| Phase.CollectUpTo | packages/parser_engine/hero_main.py:67-71 | only the warning list and set change; the set gains the new warnings; the list only grows |
| Phase.CollectAppends | packages/parser_engine/hero_main.py:67-71 | the list grows by the unseen new warnings, each once, in first-occurrence order |
| Phase.CollectKeepsValid | packages/parser_engine/hero_main.py:67-71 | the list stays duplicate-free and the set equal to its elements |
| Phase.CollectRecords | packages/parser_engine/hero_main.py:69-71 | after collecting, every new warning is in the list |
| Phase.ResetLogs | packages/parser_engine/hero_main.py:64-65 | the lists, set and log are emptied, which is a valid state |
| Phase.KeepTruthy | packages/parser_engine/hero_main.py:126 | exactly the truthy sections remain |
| Phase.KeepTruthyInOrder | packages/parser_engine/hero_main.py:126 | the remaining sections keep their order |
| Phase.Standard | packages/parser_engine/hero_main.py:89-96 | the standard properties are exactly the dicts that are not chain strikes |
| Phase.Delegate | packages/parser_engine/hero_main.py:89-96 | on success every property is a dict, the standard ones are kept in order, chain records exist exactly when a chain strike does, and the warning state stays valid |
| Phase.DelegateChain | packages/parser_engine/hero_main.py:91-94 | a chain strike's records come before those of the rest, with its warnings collected |
| Phase.DelegatePlain | packages/parser_engine/hero_main.py:95-96 | a standard property is kept before the rest |
| Phase.DelegateChainCrash | packages/parser_engine/hero_main.py:92 | an error in the chain-strike parser ends the loop |
| Phase.SpecialSections | packages/parser_engine/hero_main.py:80-112 | the sections come in one of the two parse orders, the chain order exactly when a chain strike is present; the mana-speed id is stored; the warning state stays valid |
| Phase.SectionsFromDelegate | packages/parser_engine/hero_main.py:80-112 | the special's sections are `SpecialParsers` applied to the chain records, the standard properties and the state that the `Delegate` loop returns |
| Phase.SpecialParsers | packages/parser_engine/hero_main.py:99-112 | the order follows from whether chain records exist; the mana-speed id is unchanged; the warning state stays valid |
| Phase.ParsedSections | packages/parser_engine/hero_main.py:99-112 | the sections are `Arrange` of the chain records, the direct-effect record and the clear-buffs record with the records of `Props` on the standard properties, `StatusEffects` and `FamiliarsOf`; each parser runs on the state the one before left, its warnings collected, and the final state is the familiars' with theirs collected |
| Phase.Arrange | packages/parser_engine/hero_main.py:93-112 | with chain records, `properties` holding the chain records then the standard ones, then `directEffect` and `clear_buffs`; without, `directEffect`, `clear_buffs`, then `properties` holding the standard ones; `statusEffects` and then `familiars` always last |
| Phase.AllPassives | packages/parser_engine/hero_main.py:115-120 | the hero's passives followed by the costume's when the costume detail is a truthy dict; like Python's `+`, texts are joined and numbers added, and TypeError exactly for other pairs |
| Phase.PassiveSection | packages/parser_engine/hero_main.py:121-123 | the one `passiveSkills` section; only the warning state changes |
| Phase.HeroStep | packages/parser_engine/hero_main.py:73-127 | the record keeps the hero's data, keeps only truthy sections in a parse order, and keeps the warning state valid; with a truthy `specialId_details` the special context is that detail and the mana-speed id is the hero's `manaSpeedId`, otherwise the context is null and the id unchanged |
| Phase.HeroBuilt | packages/parser_engine/hero_main.py:76-127 | the same for the hero after its stats: its data is the shallow copy of the input, only truthy sections in a parse order, a valid warning state, and the special context and mana-speed id as above |
| Phase.HeroSections | packages/parser_engine/hero_main.py:80-126 | the kept sections are in one of the parse orders; the warning state stays valid; the mana-speed id is the hero's `manaSpeedId` after a truthy `specialId_details` and unchanged otherwise |
| Phase.SpecialPart | packages/parser_engine/hero_main.py:80-112 | no sections and no state change for a falsy `specialId_details`; otherwise no sections or one of the two parse orders, with the hero's mana-speed id stored; the warning state stays valid |
| Phase.PassivePart | packages/parser_engine/hero_main.py:121-123 | no sections and no state change for falsy passives; otherwise at most the `passiveSkills` section; the mana-speed id is left alone and the warning state stays valid |
| Phase.HeroesFrom | packages/parser_engine/hero_main.py:73-127 | one output record per remaining hero, each keeping its hero's data |
| Phase.HeroesFromStep | packages/parser_engine/hero_main.py:73-127 | a hero that goes through is followed by the rest of the loop |
| Phase.HeroesFromCrash | packages/parser_engine/hero_main.py:73-127 | a hero that raises ends the loop |
| Phase.PhaseTwo | packages/parser_engine/hero_main.py:60-130 | one record per hero, in order, with that hero's data, and a valid warning state |
| Phase.KeptInOrder | packages/parser_engine/hero_main.py:126 | dropping falsy sections of two groups keeps the groups' order |
| Phase.SectionsInOrder | packages/parser_engine/hero_main.py:126 | dropping falsy sections keeps a parse order, passives last |
| Phase.ExtraLangIds | packages/parser_engine/hero_main.py:162 | exactly the table keys containing `.extra` |
| Phase.Context.constructor | packages/parser_engine/hero_main.py:154-163 | the new context has empty warning lists and log, no cached level, mana-speed id or subset, and `extra_lang_ids` taken from the language table |
| Phase.Context.Reset | packages/parser_engine/hero_main.py:64-65 | the context after the reset is `ResetLogs` of the old one |
| Phase.Context.CollectWarnings | packages/parser_engine/hero_main.py:67-71 | the context after collecting is `Collected` of the old one |
| Phase.Context.Store | packages/parser_engine/hero_main.py:99-112 | after a parser call through the shared dict, the context holds exactly the state the parser left |
| Phase.DelegateProperties | packages/parser_engine/hero_main.py:89-96 | the loop's outcome and new context are those of `Delegate` |
| Phase.ParseSpecial | packages/parser_engine/hero_main.py:80-112 | outcome and new context are those of `SpecialSections` |
| Phase.RunSpecialParsers | packages/parser_engine/hero_main.py:99-112 | outcome and new context are those of `SpecialParsers` |
| Phase.ParseHero | packages/parser_engine/hero_main.py:73-127 | outcome and new context are those of `HeroStep` |
| Phase.BuildHero | packages/parser_engine/hero_main.py:76-127 | outcome and new context are those of `HeroBuilt`, the hero after its stats |
| Phase.ParseSections | packages/parser_engine/hero_main.py:80-126 | outcome and new context are those of `HeroSections`, the special part run by `ParseSpecialPart` and the passive part by `ParsePassivePart` |
| Phase.ParseSpecialPart | packages/parser_engine/hero_main.py:80-112 | outcome and new context are those of `SpecialPart` |
| Phase.ParsePassivePart | packages/parser_engine/hero_main.py:115-123 | outcome and new context are those of `PassivePart` |
| Phase.PhaseTwoParseSkills | packages/parser_engine/hero_main.py:60-130 | outcome and new context are those of `PhaseTwo` |
| Query.FoundIff | packages/api_server/main.py:57-65 | the search finds exactly the matching dicts at any depth, the argument included; the tool's copy in `extract_learning_data.py` (lines 26-43) is the same function |
| Query.NestedMatchFound | packages/api_server/main.py:58-62 | a matching dict comes first and matches inside it are found too |
| Query.FindNestedProperties | packages/api_server/main.py:57-65 | the results list comes back with the found dicts appended in search order |
| Query.SearchValues | packages/api_server/main.py:61-62 | the dict-values loop appends what each value yields |
| Query.SearchItems | packages/api_server/main.py:63-65 | the list-items loop appends what each item yields |
| Query.TaggedIn | packages/api_server/main.py:92-93 | a tagged pair is the hero's id with one of its blocks |
| Query.GatherIff | packages/api_server/main.py:87-93 | the collected pairs are exactly what the heroes so far yield |
| Query.GatherCrash | packages/api_server/main.py:87-89 | the loop raises exactly when a hero value so far is not a dict |
| Query.GatherCrashAt | packages/api_server/main.py:89 | the error raised is the first non-dict's missing `get` |
| Query.GatherStep | packages/api_server/main.py:87-93 | a dict-valued hero appends its tagged blocks |
| Query.GatherSnoc | packages/api_server/main.py:87-93 | the output is ordered by hero |
| Query.BlocksIff | packages/api_server/main.py:86-93 | the pairs are exactly the matching dicts inside the heroes' special details, each with its hero's id |
| Query.BlocksCrash | packages/api_server/main.py:87-89 | the collection raises exactly when some hero value is not a dict |
| Query.AppendTagged | packages/api_server/main.py:92-93 | the blocks are appended with the hero's id |
| Query.SearchHero | packages/api_server/main.py:88-90 | only truthy special details are searched |
| Query.CollectBlocks | packages/api_server/main.py:86-93 | the loop computes `Blocks`; the tool's loop in `extract_learning_data.py` (lines 69-85) is the same |
| Query.Records | packages/api_server/main.py:93 | one `{"hero_id", "property_block"}` record per pair, in order |
| Query.QueryHeroData | packages/api_server/main.py:85-96 | raises exactly when a hero is not a dict; 404 with the exact detail exactly when nothing matched; otherwise a body with `query`, `count` and `results` |
| Query.OutputName | packages/tool/extract_learning_data.py:93 | the file name ends with `_data.json` after the keyword |
| Query.OutputNameSame | packages/tool/extract_learning_data.py:93 | two keywords share a file exactly when they agree up to case |
| Query.ExtractLearningData | packages/tool/extract_learning_data.py:69-94 | nothing written exactly when nothing matched; otherwise the file name and the records |
| Query.Keywords | packages/api_server/main.py:110 | no keyword is empty |
| Query.Cleaned | packages/api_server/main.py:110 | each part stripped and lowered |
| Query.NonBlankIff | packages/api_server/main.py:110 | a keyword is exactly a non-blank cleaned part |
| Query.Narrow | packages/api_server/main.py:111 | exactly the keys whose text holds every keyword, in order |
| Query.NarrowNoKeywords | packages/api_server/main.py:110-111 | with no keywords nothing is dropped |
| Query.NarrowBy | packages/api_server/main.py:109-111 | a missing or empty parameter drops nothing |
| Query.Candidates | packages/api_server/main.py:107-119 | exactly the table's keys that pass all three filters, in table order |
| Query.Entries | packages/api_server/main.py:124 | each key with its table entry, in order |
| Query.SuperSearch | packages/api_server/main.py:107-125 | 404 with the exact detail exactly when nothing passes; otherwise the passing entries in table order |
| Query.SuperSearchIff | packages/api_server/main.py:107-124 | a key is in the result exactly when it is in the table and passes every parameter |
| Query.StrLeTotal | packages/api_server/main.py:75 | any two ids are ordered one way or the other |
| Query.StrLeTrans | packages/api_server/main.py:75 | the order is transitive |
| Query.SortIds | packages/api_server/main.py:75 | `sorted` gives an ordered permutation |
| Query.GetAllHeroIds | packages/api_server/main.py:73-75 | the hero ids, ordered, each once per entry |
| Query.GetHeroData | packages/api_server/main.py:77-82 | 404 with the exact detail exactly when the hero's record is missing or falsy; otherwise the id and the record |
| Query.UnknownHeroNotFound | packages/api_server/main.py:79-81 | an unknown id is a 404 |
| Query.KnownHeroServed | packages/api_server/main.py:79-82 | a listed hero with a non-empty record is served that record |

## Left out

- File loading and writing: the source reads CSV and JSON files and writes CSV, JSON and log files. The model takes the loaded tables as parameters. The output writers, `main`'s reporting and the tool's file write are not modelled; the tool's result is returned instead.
- `hero_data_loader`, `phase_one_integrate_data`, `_format_final_description`, `write_final_csv`, `write_debug_csv`, `write_debug_json` and `analyze_unresolved_placeholders` are not part of this model. Their bodies are elided in `hero_main.py`, or their file is not in the core.
- Console output and progress printing.
- The HTTP layer: FastAPI routing, the startup loader and `read_root`. An `HTTPException(404, detail)` is the `NotFound(detail)` reply.
- `packages/editing_gui/app.js` is not part of this model.
- `json.dumps` of `params`: records keep the parameters as a dict, not as its JSON text.
- Floating point: numbers are exact reals. Float rounding errors are not modelled. `str()` of a non-integral float is given one decimal, while Python prints the shortest text that reads back as the same value.
- Case mapping: `lower()` and `upper()` act only on ASCII letters, while Python case-maps all of Unicode.
- Set iteration order: placeholder sets and keyword sets are iterated in first-occurrence order. Python's order is an implementation detail; it can only change the order of keys in `params`.
- Object identity: `_resolve_recursive` also records `id(current_data)` and returns early for an id already recorded. The model assumes that no object id recurs during one resolution and tracks only the master ids processed. CPython can reuse the id of a copy that has been freed, which would make the source skip a tree; such a skipped walk is not modelled.
- Exceptions: each exception that reaches the top level is a `Crash` whose reason is a short informal text. Only the clear-buffs handler prints its exception's text, and that text is modelled.
- Pandas: a hero-stats row is a dict of cells, `NaN` being a missing value. `int()` of a float cell is truncation.
- Matcher.FindBest: a familiar debug-log entry keeps the familiar's id and the chosen key. The copy of the instance and the five top candidates with formatted scores are not modelled.
- Phase.PhaseTwo: the `parsers` dict's parser entries are fixed to the source's parsers. A caller that puts other functions there is not modelled.
- Query.Keywords: its contract states only that no keyword is empty. That the keywords are the stripped, lowered parts is stated by `Query.Cleaned` and `Query.NonBlankIff`.
- Query.SuperSearch: the response's `query` echo of the three parameters and its `count` are not modelled; the result is the `results` dict alone, whose length the count would be.
- Language table keys: a table is a sequence of key and entry pairs, and lookups take the first pair for a key. A loaded dict holds each key once, so a table with a repeated key stands for no dict the source can hold.
- Word characters: `\w` in the placeholder pattern is taken as ASCII letters, digits and `_` (`Strings.IsWordChar`), while Python's `re` also matches every other Unicode letter and digit.
- Number parsing: `int()` and `float()` of text accept surrounding whitespace, a sign and ASCII digits, and for `float()` one decimal point (`Values.ParseInt`, `Values.ParseFloat`). Text with `_` digit separators, exponents, `inf`, `nan` or non-ASCII digits, which Python also accepts, gives no number in the model.
- Override rules: a rule is a record of the `calc`, `value` and `key` columns, and a rule present in the table counts as set (`Tables.RuleFor`). The source's `if not rule` would also pass over a rule that is an empty dict; rules loaded from the rule table always carry their columns, so that case is not modelled.
- Master records: the master table maps each id to a dict (`Resolve.Master`). A master entry that is not a dict, which would make `dict.update` raise TypeError in the list branch, is not modelled.
- Parser loops: the per-item loops of `parse_properties`, `parse_status_effects`, `parse_familiars`, `parse_passive_skills` and `parse_chain_strike` are recursive functions over values (`Properties.PropsFold`, `Properties.ContainerFold`, `Status.StatusFold`, `Familiars.FamiliarsFold`, `Passives.PassivesOf`, `Chain.InitialHit`, `Chain.ChainHit`). Each returns the list of records and the warnings it appends, and the shared `parsers` dict as a `State` value passed along. The in-place `append`/`extend` on the result lists and the writes into the one shared `parsers` dict are therefore not captured as updates in place; only their order and final contents are. The phase-two orchestrator, which owns that dict, is a class with methods that update it in place.
