# MHWildsMissionEditor core, modelled in Dafny

This project models the data core of MHWildsMissionEditor, a browser editor for
Monster Hunter Wilds custom quest files, and proves properties of that model.
It covers five parts of the program:

- **Quest file records and option tables.** `quest.ts` declares the JSON
  records of a quest file. In `quest_types.dfy` they become datatypes. The file
  also models the enum-derived lists (`QUEST_TYPE_VALUES`,
  `BOSS_RUSH_POP_TYPE_VALUES`), the `LANGUAGE_NAMES` table and the level,
  difficulty and stage option lists.
- **Defaults for a new quest or monster** (`default_quest.dfy`). This covers
  the monster template, the per-stage spawn defaults, `createMonster`, and the
  default quest and reward data.
- **The theme store** (`theme.dfy`). It is a class whose fields are the mode
  ref and the browser state it drives: the stored preference, the
  `theme-mode` attribute of the document element, and the OS dark-scheme flag.
- **The start-up locale choice** (`i18n.dfy`).
- **The item-catalog transform of `generate_items.py`** (`generate_items.dfy`).
  It builds the message table from CSV rows and flattens the item-data chunks.
  It then parses `[N]LABEL` item ids, looks up enum ids, builds the
  fourteen-language name maps and sorts the result by fixed id. The script's
  loops are methods, each proved equal to a function that states what the loop
  builds.

`decimal.dfy` holds the exact decimal rendering and reading of integers. This
is what Python's `str`/`int` do for integers of up to 4300 digits (CPython's
default conversion limit). JavaScript's `'★' + n` and
`Number(key)` agree with it for integers of magnitude up to 2^53 (see
"Left out"). `wrappers.dfy` holds `Option` and `Result`.

Model conventions:

- **JSON names.** A JSON key becomes a Dafny field with its leading underscore
  dropped. A `'_X='` shadow key becomes `XShadow: Option<Opaque>`. A field
  typed `unknown` becomes `Opaque` (JSON `null` or some other JSON value).
  The key `label` is spelt `Label`, because `label` is a Dafny keyword.
- **Copies.** Records are values. `createMonster`'s deep copy through
  `JSON.parse(JSON.stringify(...))` is therefore the template value with one
  field changed, and no copy can alias the template.
- **Stage ids.** `STAGE_ID` comes from `src/constants/stages`, which is not
  part of this model. Its five members are distinct constants with no numbers.
  A key of the `STAGE_DEFAULTS` record is either one of them or some other
  number.
- **Stored theme mode.** A stored value other than light/dark/system is not
  normalised: `src/stores/theme.ts:8` only casts it, so any non-empty stored
  text becomes the mode. `Theme.InvalidStoredModeKept` states what then
  happens. Such a mode is written to the attribute as it is, and `nextTheme`
  moves from it to "light". The restart round trip
  (`Theme.RestartAfterSetTheme`) is stated for the three valid modes.
- **The script's language table.** `lang_map` is the constant
  `ItemCatalog.LangColumns`. The entry functions take it as a parameter
  (`langMap`), and the transform passes the constant.

## Model

| member | source | states |
|---|---|---|
| Decimal.NatToDecimal | tools/generate_items.py:116 | `str(n)` of a natural number is a non-empty digit string; it starts with '0' only for 0 and has one digit exactly below 10 |
| Decimal.NatDecimalRoundTrip | tools/generate_items.py:85 | `int` of the digits `str(n)` writes gives back `n` |
| Decimal.NatToDecimalInjective | tools/generate_items.py:116 | distinct language codes give distinct `str(code)` keys |
| Decimal.IntToDecimal | src/constants/defaultQuest.ts:62 | the string form of an integer starts with '-' exactly when the integer is negative |
| Decimal.ParseInt | src/types/quest.ts:106 | reading a key yields a negative number only from text that starts with '-' |
| Decimal.IntDecimalRoundTrip | src/types/quest.ts:105-107 | `Number(String(n)) == n` for every integer, so a rendered enum value passes the numeric-key filter and maps back to itself |
| Decimal.IntToDecimalInjective | src/constants/defaultQuest.ts:62 | distinct integers render differently |
| QuestTypes.QuestTypeObjectKeys | src/types/quest.ts:105 | `Object.keys(QuestType)` has two keys per member |
| QuestTypes.QuestTypeObjectKeysLayout | src/types/quest.ts:105 | the first six keys render the values and the last six are the member names, both in declaration order |
| QuestTypes.NumericKeyValues | src/types/quest.ts:106-107 | the filter/map yields no more values than keys |
| QuestTypes.NumericKeyValuesSound | src/types/quest.ts:106-107 | every value produced is `Number(key)` of some key |
| QuestTypes.NumericKeyValuesComplete | src/types/quest.ts:106-107 | the value of every numeric key is produced |
| QuestTypes.NumericKeyValuesAppend | src/types/quest.ts:106-107 | filtering a concatenation concatenates the filtered parts |
| QuestTypes.NumericKeysOfRenderAll | src/types/quest.ts:105-107 | rendered integers all pass the filter and map back to themselves, in order |
| QuestTypes.NumericKeysOfRendered | src/types/quest.ts:105-107 | the filter/map over an enum object's keys (rendered values, then names that are not numeric) yields exactly the values, in order |
| QuestTypes.NumericKeysOfNames | src/types/quest.ts:106 | keys that are all non-numeric names contribute no value |
| QuestTypes.QuestTypeNamesNotNumeric | src/types/quest.ts:96-103 | no `QuestType` member name converts to a number |
| QuestTypes.QuestTypeValuesAreEnumValues | src/types/quest.ts:96-107 | `QUEST_TYPE_VALUES` is the list of the enum's declared values |
| QuestTypes.QuestTypeEnumValues | src/types/quest.ts:96-103 | the declared values, in order, are 0, 1, 2, 5, 6, 7 |
| QuestTypes.QuestTypeValues | src/types/quest.ts:105-107 | `QUEST_TYPE_VALUES` holds no more values than `Object.keys(QuestType)` has keys; its exact value is stated by QuestTypeValuesExact |
| QuestTypes.QuestTypeValuesExact | src/types/quest.ts:105-107 | `QUEST_TYPE_VALUES` is exactly `[0, 1, 2, 5, 6, 7]`, which is ascending, holds every quest type's value and holds no name |
| QuestTypes.QuestTypeValuesCoverEnum | src/types/quest.ts:96-107 | every quest type's value is in `QUEST_TYPE_VALUES` |
| QuestTypes.QuestTypeIndex | src/types/quest.ts:96-103 | every quest type has a position among the declared members |
| QuestTypes.BossRushPopTypeValuesExact | src/types/quest.ts:139-149 | `BOSS_RUSH_POP_TYPE_VALUES` is `[0, 2, 4]` and holds every pop type's value |
| QuestTypes.LanguageCodeValuesDistinct | src/types/quest.ts:206-221 | the fourteen language codes strictly ascend in declaration order, so they are distinct |
| QuestTypes.LanguageNamesCoverCodes | src/types/quest.ts:224-239 | every language code has a display name |
| QuestTypes.LanguageNamesOnlyCodes | src/types/quest.ts:224-239 | for every key of `LANGUAGE_NAMES` there is a language code whose value it is |
| QuestTypes.LanguageNamesExact | src/types/quest.ts:206-239 | `LANGUAGE_NAMES` is keyed by exactly the language codes |
| QuestTypes.StarLabel | src/types/quest.ts:360-370 | a star label is '★' followed by the level's decimal form |
| QuestTypes.StarLabelInjective | src/types/quest.ts:360-382 | different levels have different star labels |
| QuestTypes.QuestLevelOptionsShape | src/types/quest.ts:360-370 | nine level options with values 1..9 ascending, each labelled with the star label of its value |
| QuestTypes.MonsterDifficultyOptionsShape | src/types/quest.ts:372-382 | nine difficulty options: "None", then ★1..★8, each labelled by its own value |
| QuestTypes.OfferedStarLabels | src/types/quest.ts:372-382 | the difficulty selector offers a level's star label exactly when the level is 1..8 |
| QuestTypes.StageOptionIndex | src/types/quest.ts:384-390 | every stage has an option whose value is that stage |
| QuestTypes.StageOptionsDistinct | src/types/quest.ts:384-390 | five stage options with pairwise distinct names and distinct stages |
| QuestTypes.StageOptionLabel | src/types/quest.ts:384-390 | a stage's option label ends with "(" + its name + ")" |
| QuestTypes.StageOptionLabels | src/types/quest.ts:384-390 | each of the five option labels ends with "(" + name + ")" |
| DefaultQuest.LookupStageDefaults | src/constants/defaultQuest.ts:27-53 | indexing `STAGE_DEFAULTS` finds an entry exactly when the key is one of the five stages |
| DefaultQuest.StageDefaultsTotal | src/constants/defaultQuest.ts:27-53 | every stage has a defaults entry |
| DefaultQuest.StageDefaultsShape | src/constants/defaultQuest.ts:27-53 | the Arena entry repeats the monster template's spawn position and route, and the four field stages map to "(0,0,0)" and route None with the zero GUID |
| DefaultQuest.LookupStageDefaultsTotal | src/constants/defaultQuest.ts:27-53 | a non-stage key finds nothing, and a stage key finds that stage's entry |
| DefaultQuest.CreateMonster | src/constants/defaultQuest.ts:60-67 | the new monster's rank name is '★' + level, its rank value is the template's, and every other part equals the template |
| DefaultQuest.CreateMonsterKeepsTemplate | src/constants/defaultQuest.ts:4-23 | a created monster keeps the template's rank GUID, Arena spawn position and route, and area numbers |
| DefaultQuest.CreateMonsterRankReadsBack | src/constants/defaultQuest.ts:62 | the rank name is '★' followed by text that reads back as the level |
| DefaultQuest.CreateMonsterInjective | src/constants/defaultQuest.ts:60-67 | two created monsters are equal exactly when their levels are |
| DefaultQuest.CreateMonsterMatchesLevelOptions | src/constants/defaultQuest.ts:62 | a monster created at any level option has that option's label as its rank name |
| DefaultQuest.CreateMonsterRankOffered | src/constants/defaultQuest.ts:62 | the rank name is among the difficulty options exactly for levels 1..8, so a level-9 monster's ★9 is not offered |
| DefaultQuest.DefaultQuestHeadline | src/constants/defaultQuest.ts:151-190 | the default quest is level 1 with a 50-minute limit on field st401 |
| DefaultQuest.DefaultQuestStageReferences | src/constants/defaultQuest.ts:84-233 | all six stage references of the default quest are ("st401", 1181994624) |
| DefaultQuest.DefaultQuestStartsEmpty | src/constants/defaultQuest.ts:88-270 | the default quest has no monsters, boss-rush params, sub-bosses or message assets; its shadow keys are null; the reward data is ids 0 and no items |
| Theme.InitialMode | src/stores/theme.ts:8 | the initial mode is the stored text when it is present and non-empty, and "system" otherwise |
| Theme.EffectiveAppearance | src/stores/theme.ts:11-20 | the applied attribute is never "system": "system" resolves to "dark" iff the OS prefers dark, and any other mode is applied unchanged |
| Theme.IndexOf | src/stores/theme.ts:43 | `indexOf` gives the first position of the mode, or -1 exactly when the mode is absent |
| Theme.NextMode | src/stores/theme.ts:41-46 | the next mode is always one of light/dark/system |
| Theme.NextModeCycle | src/stores/theme.ts:41-46 | light goes to dark, dark to system, system to light, and a mode outside the cycle goes to light; three steps return to the start |
| Theme.InvalidStoredModeKept | src/stores/theme.ts:8 | a non-empty stored value that is no mode becomes the mode and is applied as it is, and `nextTheme` moves from it to light |
| Theme.ThemeStore.constructor | src/stores/theme.ts:6-26 | the store starts in the initial mode, then the immediate watcher applies it and writes it back to storage |
| Theme.ThemeStore.ApplyTheme | src/stores/theme.ts:11-20 | the attribute becomes the mode resolved against the OS flag |
| Theme.ThemeStore.OnModeChange | src/stores/theme.ts:23-26 | the watcher applies the new mode and stores it under "theme-mode" |
| Theme.ThemeStore.SetTheme | src/stores/theme.ts:37-39 | the mode becomes the new one and is stored and applied; the store stays consistent, and re-setting the same mode changes nothing |
| Theme.ThemeStore.NextTheme | src/stores/theme.ts:41-46 | the mode moves to the next mode of the cycle, which is stored and applied |
| Theme.ThemeStore.OnSystemPreferenceChange | src/stores/theme.ts:29-34 | an OS scheme change re-applies only in "system" mode; the mode and storage are untouched |
| Theme.RestartAfterSetTheme | src/stores/theme.ts:8-39 | after `setTheme(m)`, a store re-created from the same storage starts in `m` |
| Theme.ToggleOsPreference | src/stores/theme.ts:29-34 | flipping the OS scheme changes the attribute exactly when the mode is "system", and the attribute is never "system" |
| Theme.CycleThreeTimes | src/stores/theme.ts:41-46 | three `nextTheme` calls on a fresh store return to a valid starting mode, and end in "system" from an invalid one |
| Locale.LowerChar | src/i18n.ts:8 | an ASCII capital becomes its small letter (32 code points on), and every other character is unchanged |
| Locale.ToLower | src/i18n.ts:8 | lower-casing keeps the length and lowers each letter A-Z alone |
| Locale.DefaultLocale | src/i18n.ts:7-12 | the chosen locale is always one of the shipped bundles |
| Locale.LowerStartsWith | src/i18n.ts:8-10 | the lower-cased tag starts with a two-letter prefix exactly when the tag starts with it in any case |
| Locale.DefaultLocaleChoice | src/i18n.ts:7-12 | "zh" iff the tag starts with zh in any case; "ja" iff it does not and starts with ja; "en" otherwise |
| Locale.DefaultLocaleExamples | src/i18n.ts:7-12 | "ZH-CN" gives zh, "en-zh" gives en and "ja-JP" gives ja |
| Locale.FallbackIsBundle | src/i18n.ts:16-25 | the fallback locale "en" is one of the bundles |
| Decimal.DigitsValue | tools/generate_items.py:85 | `int` of a digit string is 0 exactly when every digit is '0' (leading zeros are read) |
| ItemCatalog.ItemDefMap | tools/generate_items.py:23 | the id map is the enum file's `app.ItemDef.ID` map when present, else empty; every id in it comes from that map |
| ItemCatalog.MessageTableOf | tools/generate_items.py:32-37 | every row in the table is filed under its own guid; a failure is the KeyError for "guid" |
| ItemCatalog.MessageTableErrorPersists | tools/generate_items.py:35-37 | once a row without a guid column has failed the CSV loop, the whole load fails with that error |
| ItemCatalog.BuildMessageTable | tools/generate_items.py:32-37 | the CSV loop builds the guid table, or fails with KeyError |
| ItemCatalog.MessageTableFails | tools/generate_items.py:35-36 | the CSV load fails exactly when some row has no "guid" column |
| ItemCatalog.MessageTableKeys | tools/generate_items.py:35-37 | when every row has a guid, the table's keys are exactly the rows' guids |
| ItemCatalog.MessageTableLastRowWins | tools/generate_items.py:35-37 | a guid maps to the last row that carries it |
| ItemCatalog.CollectRawItems | tools/generate_items.py:57-64 | the chunk loop collects the concatenation of the chunks' `_Values`, and nothing when the file is not a list |
| ItemCatalog.ChunkListValues | tools/generate_items.py:60-64 | an entry is collected exactly when some chunk lists it in its `_Values` |
| ItemCatalog.RawItems | tools/generate_items.py:57-64 | a file that is not a list yields no entries; a list yields exactly the entries its chunks list |
| ItemCatalog.ParseItemId | tools/generate_items.py:83-90 | a successful match starts with "[" and has a non-empty one-line label |
| ItemCatalog.DigitRun | tools/generate_items.py:70 | `\d+` takes the maximal run of digits |
| ItemCatalog.LineOf | tools/generate_items.py:70 | `.+` takes the longest prefix free of line breaks |
| ItemCatalog.ParseItemIdSound | tools/generate_items.py:83-86 | a parsed id is "[" + digits + "]" + a whole non-empty line; its fixed id is the digits' value and its label is that line |
| ItemCatalog.ParseItemIdComplete | tools/generate_items.py:83-86 | every string of that shape parses, to its digits' value and its label |
| ItemCatalog.ParseItemIdRoundTrip | tools/generate_items.py:68-86 | "[" + str(n) + "]" + label parses back to (n, label) for a one-line label |
| ItemCatalog.CellText | tools/generate_items.py:113-115 | a name cell is never empty: it is the CSV text, or "---" when the text is missing, None or ""; a present non-empty text is kept as it is |
| ItemCatalog.NameText | tools/generate_items.py:109-119 | a name is never empty; it is "---" when no row has the guid, and for a found row it is that row's cell text (so "---" for a missing, None or empty cell) |
| ItemCatalog.NameMapOf | tools/generate_items.py:108-119 | the name map has at most one key per language of the table |
| ItemCatalog.RowFor | tools/generate_items.py:109 | `msg_data.get(raw_name_guid)` finds a row exactly when the entry's `_RawName` is a key of the table, and then it is that key's row |
| ItemCatalog.ItemIdFor | tools/generate_items.py:94-105 | the id is the enum map's entry for the label when there is one; a non-zero id always comes from the map |
| ItemCatalog.ParseEntry | tools/generate_items.py:72-105 | a kept entry has a non-empty `_ItemId`, and its fixed id and label are what that `_ItemId` parses to |
| ItemCatalog.BuildNameMap | tools/generate_items.py:108-119 | both name loops build the name map of the row |
| ItemCatalog.NameMapKeys | tools/generate_items.py:112-119 | the name map's keys are exactly `str(code)` for each language code |
| ItemCatalog.NameMapValues | tools/generate_items.py:112-116 | with distinct codes, each `str(code)` maps to its own column's text |
| ItemCatalog.LangColumnsMatchLanguageCodes | tools/generate_items.py:40-55 | the script's fourteen codes are the editor's `LanguageCode` values, in order, so they are distinct |
| ItemCatalog.NameMapShape | tools/generate_items.py:108-119 | every name map has the fourteen code keys, each mapping to its CSV cell or "---" |
| ItemCatalog.ParseEntryMeaning | tools/generate_items.py:72-123 | an entry is skipped iff its `_ItemId` is missing, empty or unparsable; a kept one takes fixed id and label from `_ItemId`, id from the enum map (0 if absent), and for each of the fourteen languages the text of that language's column in the CSV row its `_RawName` files under, or "---" |
| ItemCatalog.EntryNamesFromCsv | tools/generate_items.py:107-119 | a kept entry's names are those of the last CSV row whose guid is the entry's `_RawName`, and all "---" when no row has that guid |
| ItemCatalog.Outcomes | tools/generate_items.py:72-123 | the loop visits every entry once, in order: the i-th outcome is the i-th entry's record or its skip |
| ItemCatalog.Kept | tools/generate_items.py:121-123 | no more records than outcomes |
| ItemCatalog.KeptMembership | tools/generate_items.py:121-123 | a record is kept exactly when some outcome is that record |
| ItemCatalog.ParseAll | tools/generate_items.py:72-123 | the entry loop never produces more records than entries |
| ItemCatalog.ParseAllPrefix | tools/generate_items.py:72-123 | one more entry appends its record, if it yields one, and nothing else |
| ItemCatalog.ParseEntries | tools/generate_items.py:72-123 | the entry loop builds the records of the kept entries, in order |
| ItemCatalog.ParseAllMembership | tools/generate_items.py:72-123 | a record is produced exactly when some entry yields it |
| ItemCatalog.InsertByFixedId | tools/generate_items.py:131 | inserting a record adds exactly that record |
| ItemCatalog.SortByFixedId | tools/generate_items.py:131 | sorting permutes the records |
| ItemCatalog.InsertSorted | tools/generate_items.py:131 | inserting into a sorted list keeps it sorted |
| ItemCatalog.SortSorted | tools/generate_items.py:131 | the sorted records are non-decreasing by fixed id |
| ItemCatalog.SortStable | tools/generate_items.py:131 | for each fixed id, the records with that id keep their relative order |
| ItemCatalog.SortIsStableSort | tools/generate_items.py:131 | the sort is a permutation, non-decreasing by fixed id, and keeps the order of records with equal fixed ids |
| ItemCatalog.GeneratedItems | tools/generate_items.py:7-131 | the transform fails exactly when some CSV row has no "guid" column, with the KeyError; otherwise it yields no more records than entries |
| ItemCatalog.GenerateItems | tools/generate_items.py:7-131 | the transform returns the sorted records, or the CSV error |
| ItemCatalog.ParsedRecordOrigin | tools/generate_items.py:72-123 | a parsed record has the fourteen name keys and is the record of some entry, with that entry's CSV names |
| ItemCatalog.SortedRecordsOrigin | tools/generate_items.py:121-131 | every sorted record is the record of some entry, with the fourteen name keys filled from that entry's CSV row |
| ItemCatalog.GeneratedItemsOrder | tools/generate_items.py:121-131 | the output is a stable, non-decreasing permutation of the kept records; each output record has the fourteen name keys and is the record of some entry, named from that entry's CSV row |

## Left out

- Vue and Pinia mechanics are not modelled. These are the reactive ref, `watch` scheduling (modelled as a synchronous call on each change) and `defineStore`'s singleton.
- Browser APIs are not modelled as such. `localStorage`, `matchMedia`, `setAttribute` and `navigator.language` are store fields or parameters. `ThemeStore.osDark` changes only through `OnSystemPreferenceChange`, which models the `change` listener.
- Theme.ThemeStore.SetTheme: requires one of the three modes, as the `ThemeMode` parameter type does. A caller that bypasses the type is not modelled.
- `createI18n`, the three message bundles' contents and `main.ts` (application wiring) are not part of this model. Only `getDefaultLocale` and the fallback locale are.
- Locale.ToLower: lowers ASCII letters only. JavaScript's full Unicode case mapping is not modelled; language tags are ASCII.
- DefaultQuest.CreateMonster: takes an integer level and renders it exactly. JavaScript prints a number above 2^53 in magnitude as the shortest digits that read back to the same double (so not always its exact digits), and from 1e21 on in exponent form ("★1e+21"); neither is modelled. Non-integral, NaN or infinite numbers (rendered "1.5", "NaN", "Infinity") are not modelled either.
- Decimal.IntToDecimal: is exact decimal rendering for every integer. It matches JavaScript's `String(n)` only for magnitudes up to 2^53, because of the rounding and the exponent form above. The enum values it is used for are small.
- Decimal.ParseInt: reads only an optional "-" and ASCII digits. `Number()`'s other accepted forms do not arise for enum keys: whitespace, "+", hex, exponents and "Infinity".
- Mutation of the exported constants by callers is out of scope. `JSON.parse`/`JSON.stringify` are modelled only through their effect, a fresh equal copy.
- The numeric values of `STAGE_ID` are not modelled, and neither is the record's behaviour for a key that coincides with one of them.
- `RewardItem.probability` is a `real`, not a binary floating-point number.
- The file reading, JSON and CSV decoding, `print` warnings and the output write of `generate_items.py` are not modelled. The transform takes decoded values and returns the list it would write. A name map is a Dafny `map`, so the key order `json.dump` writes (the `lang_map` insertion order) is not modelled.
- ItemCatalog.ParseItemId: `\d` matches ASCII digits only. Python's `\d` and `int` also accept other Unicode decimal digits. A digit run longer than 4300 digits parses here, where the script's `int()` raises `ValueError` (see Decimal.DigitsValue).
- ItemCatalog.CollectRawItems: assumes every chunk is an object and `_Values` is a list or absent. The `TypeError`/`AttributeError` a malformed chunk or a null `_Values` raises is not modelled; a null `_Values` reads as absent.
- ItemCatalog.ParseEntry: assumes `_ItemId` is a string or absent. A non-string `_ItemId` (a `TypeError` in `re.match`) and a JSON `null` in the enum map (read as 0 by the script) are not modelled. A non-object entry or a null `cData` (an `AttributeError` at `entry.get` or `cdata.get`) is not modelled either; a null `cData` reads as absent, so such an entry is skipped instead of stopping the script. The model also takes `_RawName` to be a string or absent: a list or object `_RawName` makes `msg_data.get` raise `TypeError` (unhashable key), and a number or boolean finds no row, so all fourteen names are "---"; neither is modelled.
- ItemCatalog.ItemDefMap: takes the enum file's "app.ItemDef.ID" value to be an object whose values are integers. A non-object value (a list, a string or `null`) makes `item_def_map.get` raise `AttributeError`, and a string or fractional id is copied to the output unchanged; neither is modelled, since `Item.id` is an integer here.
- Decimal.DigitsValue: reads digit strings of any length. CPython 3.11 and later raise `ValueError` in `int()` for more than 4300 digits, so an `_ItemId` such as "[" + 4301 digits + "]X" stops the script, while ItemCatalog.ParseItemId, ParseItemIdComplete and ParseEntryMeaning give a record for it. That limit is not modelled.
- A CSV row with more cells than columns (`DictReader`'s `None` rest key) is not modelled. Short rows are modelled: missing cells are `None`.
- ItemCatalog.SortByFixedId: gives Python's sort by its result (stable, ordered, a permutation) as an insertion sort. It is not Timsort, and the in-place update of the list is a reassignment.
- No standalone `createDefaultQuest` function exists in the code. A new quest starts from `DEFAULT_QUEST_DATA` and `DEFAULT_REWARD_DATA`, which are modelled as constants.
