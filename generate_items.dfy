/**
 * The item-catalog transform of tools/generate_items.py, with file reading,
 * JSON and CSV decoding, warnings and the output write stripped off: the
 * inputs arrive as decoded values and the result is the list of item records
 * that the script writes.
 *
 * The script's loops are methods here, each proved equal to a function that
 * says what the loop builds; the properties of the transform are lemmas about
 * those functions.
 */
module ItemCatalog {
  import opened Wrappers
  import Decimal
  import QuestTypes

  // ---- Message CSV ----

  /** One row of the message CSV as `csv.DictReader` gives it: a cell per column, `None` for a cell the row is too short for. */
  type CsvRow = map<string, Option<string>>

  const GuidColumn: string := "guid"

  /** The error `row["guid"]` raises on a CSV without a "guid" column. */
  const GuidKeyError: string := "KeyError: 'guid'"

  /** `msg_data`: each row under its guid cell (which is `None` for a short row). */
  type MessageTable = map<Option<string>, CsvRow>

  /** `msg_data[row["guid"]] = row` for every row in order; stops at the first row without a "guid" column. */
  function MessageTableOf(rows: seq<CsvRow>): (r: Result<MessageTable, string>)
    ensures r.Ok? ==> forall g :: g in r.value ==> GuidColumn in r.value[g] && r.value[g][GuidColumn] == g
    ensures r.Err? ==> r.error == GuidKeyError
    decreases |rows|
  {
    if rows == [] then Ok(map[])
    else
      match MessageTableOf(rows[..|rows| - 1])
      case Err(e) => Err(e)
      case Ok(t) =>
        var last := rows[|rows| - 1];
        if GuidColumn in last then Ok(t[last[GuidColumn] := last]) else Err(GuidKeyError)
  }

  /** Once a prefix of the rows fails, the whole table fails the same way. */
  lemma {:induction false} MessageTableErrorPersists(rows: seq<CsvRow>, n: nat, e: string)
    requires n <= |rows| && MessageTableOf(rows[..n]) == Err(e)
    ensures MessageTableOf(rows) == Err(e)
    decreases |rows|
  {
    if n < |rows| {
      var front := rows[..|rows| - 1];
      assert front[..n] == rows[..n];
      MessageTableErrorPersists(front, n, e);
    } else {
      assert rows[..n] == rows;
    }
  }

  /** The CSV loop of the script. */
  method BuildMessageTable(rows: seq<CsvRow>) returns (r: Result<MessageTable, string>)
    ensures r == MessageTableOf(rows)
  {
    var table: MessageTable := map[];
    var i := 0;
    while i < |rows|
      invariant 0 <= i <= |rows|
      invariant MessageTableOf(rows[..i]) == Ok(table)
    {
      var row := rows[i];
      assert rows[..i + 1][..i] == rows[..i];
      if GuidColumn !in row {
        MessageTableErrorPersists(rows, i + 1, GuidKeyError);
        return Err(GuidKeyError);
      }
      var guid := row[GuidColumn];
      table := table[guid := row];
      i := i + 1;
    }
    assert rows[..i] == rows;
    r := Ok(table);
  }

  /** The table fails iff some row has no "guid" column. */
  lemma {:induction false} MessageTableFails(rows: seq<CsvRow>)
    ensures MessageTableOf(rows).Err? <==> exists j :: 0 <= j < |rows| && GuidColumn !in rows[j]
    decreases |rows|
  {
    if rows != [] {
      var front := rows[..|rows| - 1];
      MessageTableFails(front);
      assert forall j :: 0 <= j < |front| ==> front[j] == rows[j];
    }
  }

  /** Every row has a "guid" column. */
  predicate AllHaveGuid(rows: seq<CsvRow>) {
    forall k :: 0 <= k < |rows| ==> GuidColumn in rows[k]
  }

  /** When every row has a guid column the table builds, and its keys are exactly the rows' guids. */
  lemma {:induction false} MessageTableKeys(rows: seq<CsvRow>)
    requires AllHaveGuid(rows)
    ensures MessageTableOf(rows).Ok?
    ensures forall j :: 0 <= j < |rows| ==> rows[j][GuidColumn] in MessageTableOf(rows).value
    ensures forall g :: g in MessageTableOf(rows).value ==> exists j :: 0 <= j < |rows| && rows[j][GuidColumn] == g
    decreases |rows|
  {
    if rows != [] {
      var front := rows[..|rows| - 1];
      assert forall j :: 0 <= j < |front| ==> front[j] == rows[j];
      MessageTableKeys(front);
    }
  }

  /** Whether no later row has the same guid as row `j`. */
  predicate LastOfItsGuid(rows: seq<CsvRow>, j: nat)
    requires j < |rows| && AllHaveGuid(rows)
  {
    forall k :: j < k < |rows| ==> rows[k][GuidColumn] != rows[j][GuidColumn]
  }

  /** A guid maps to the last row that carries it: a later row with the same guid overwrites an earlier one. */
  lemma {:induction false} MessageTableLastRowWins(rows: seq<CsvRow>)
    requires AllHaveGuid(rows)
    ensures MessageTableOf(rows).Ok?
    ensures forall j :: 0 <= j < |rows| && LastOfItsGuid(rows, j) ==>
      rows[j][GuidColumn] in MessageTableOf(rows).value && MessageTableOf(rows).value[rows[j][GuidColumn]] == rows[j]
    decreases |rows|
  {
    if rows != [] {
      var front := rows[..|rows| - 1];
      assert forall j :: 0 <= j < |front| ==> front[j] == rows[j];
      MessageTableLastRowWins(front);
      forall j | 0 <= j < |rows| - 1 && LastOfItsGuid(rows, j)
        ensures LastOfItsGuid(front, j)
      {
      }
    }
  }

  // ---- Item data JSON ----

  /** The `cData` object of an item entry: its `_ItemId` and `_RawName` members, each missing or null (`None`) or a string. */
  datatype CData = CData(itemId: Option<string>, rawName: Option<string>)

  /** An element of `_Values`: its "app.user_data.ItemData.cData" member, if present. */
  datatype RawEntry = RawEntry(cData: Option<CData>)

  /** The "app.user_data.ItemData" object of a chunk: its `_Values` list, if present. */
  datatype ItemDataBlock = ItemDataBlock(values: Option<seq<RawEntry>>)

  /** A top-level chunk: its "app.user_data.ItemData" member, if present. */
  datatype Chunk = Chunk(itemData: Option<ItemDataBlock>)

  /** The decoded item data file: a list of chunks, or some other JSON value. */
  datatype ItemDataFile = NotAList | ChunkList(chunks: seq<Chunk>)

  /** The entries one chunk contributes: its `_Values`, or none. */
  function ChunkValues(c: Chunk): seq<RawEntry> {
    match c.itemData
    case None => []
    case Some(block) => if block.values.Some? then block.values.value else []
  }

  /** The in-order concatenation of the chunks' entries: an entry is in it iff some chunk lists it. */
  function ChunkListValues(chunks: seq<Chunk>): (r: seq<RawEntry>)
    ensures forall e :: e in r <==> exists i :: 0 <= i < |chunks| && e in ChunkValues(chunks[i])
    decreases |chunks|
  {
    if chunks == [] then []
    else
      var front := chunks[..|chunks| - 1];
      assert forall i :: 0 <= i < |front| ==> front[i] == chunks[i];
      ChunkListValues(front) + ChunkValues(chunks[|chunks| - 1])
  }

  /** `raw_items`: empty unless the file is a list; then an entry is collected iff some chunk lists it. */
  function RawItems(file: ItemDataFile): (r: seq<RawEntry>)
    ensures file.NotAList? ==> r == []
    ensures file.ChunkList? ==> forall e :: e in r <==> exists i :: 0 <= i < |file.chunks| && e in ChunkValues(file.chunks[i])
  {
    match file
    case NotAList => []
    case ChunkList(chunks) => ChunkListValues(chunks)
  }

  /** The chunk loop of the script. */
  method CollectRawItems(file: ItemDataFile) returns (raw: seq<RawEntry>)
    ensures raw == RawItems(file)
  {
    raw := [];
    if file.ChunkList? {
      var chunks := file.chunks;
      var i := 0;
      while i < |chunks|
        invariant 0 <= i <= |chunks|
        invariant raw == ChunkListValues(chunks[..i])
      {
        assert chunks[..i + 1][..i] == chunks[..i];
        var chunk := chunks[i];
        if chunk.itemData.Some? {
          var vals := if chunk.itemData.value.values.Some? then chunk.itemData.value.values.value else [];
          raw := raw + vals;
        }
        i := i + 1;
      }
      assert chunks[..i] == chunks;
    }
  }

  // ---- Item id parsing ----

  /** The length of the run of ASCII digits of `s` that starts at `from`. */
  function DigitRun(s: string, from: nat): (k: nat)
    requires from <= |s|
    ensures from + k <= |s|
    ensures forall i :: from <= i < from + k ==> Decimal.IsDigit(s[i])
    ensures from + k == |s| || !Decimal.IsDigit(s[from + k])
    decreases |s| - from
  {
    if from < |s| && Decimal.IsDigit(s[from]) then 1 + DigitRun(s, from + 1) else 0
  }

  /** The longest prefix of `s` without a line break: what `.+` can match. */
  function LineOf(s: string): (line: string)
    ensures |line| <= |s| && line == s[..|line|]
    ensures '\n' !in line
    ensures |line| == |s| || s[|line|] == '\n'
  {
    if s == [] || s[0] == '\n' then [] else [s[0]] + LineOf(s[1..])
  }

  /**
   * `re.match(r"\[(\d+)\](.+)", s)`: a "[", a run of digits, a "]" and a
   * non-empty rest of the line, at the start of `s`; the result is the run's
   * value (`fixedId`) and the rest of the line (the label).
   */
  function ParseItemId(s: string): (r: Option<(nat, string)>)
    ensures r.Some? ==> |s| >= 4 && s[0] == '[' && r.value.1 != [] && '\n' !in r.value.1
  {
    if |s| == 0 || s[0] != '[' then None
    else
      var k := DigitRun(s, 1);
      if k == 0 || 1 + k >= |s| || s[1 + k] != ']' then None
      else
        var itemLabel := LineOf(s[2 + k..]);
        if itemLabel == [] then None else Some((Decimal.DigitsValue(s[1..1 + k]), itemLabel))
  }

  /** `s` is "[" + `digits` + "]" + `itemLabel` + `tail`, where `itemLabel` is a whole non-empty line and `tail` starts a new one. */
  ghost predicate ItemIdShape(s: string, digits: string, itemLabel: string, tail: string) {
    && digits != [] && Decimal.AllDigits(digits)
    && itemLabel != [] && '\n' !in itemLabel
    && (tail == [] || tail[0] == '\n')
    && s == "[" + digits + "]" + itemLabel + tail
  }

  /** A parsed id has the shape the pattern describes, and its number is the value of its digits. */
  lemma ParseItemIdSound(s: string)
    ensures ParseItemId(s).Some? ==>
      exists digits, tail :: ItemIdShape(s, digits, ParseItemId(s).value.1, tail)
        && Decimal.DigitsValue(digits) == ParseItemId(s).value.0
  {
    if ParseItemId(s).Some? {
      var k := DigitRun(s, 1);
      var digits := s[1..1 + k];
      var itemLabel := LineOf(s[2 + k..]);
      var tail := s[2 + k + |itemLabel|..];
      assert s == "[" + digits + "]" + itemLabel + tail;
      assert ItemIdShape(s, digits, itemLabel, tail);
    }
  }

  /** Every string of the pattern's shape parses, to the value of its digits and its label. */
  lemma ParseItemIdComplete(s: string, digits: string, itemLabel: string, tail: string)
    requires ItemIdShape(s, digits, itemLabel, tail)
    ensures ParseItemId(s) == Some((Decimal.DigitsValue(digits), itemLabel))
  {
    var k := |digits|;
    assert |s| == 2 + k + |itemLabel| + |tail| && s[0] == '[';
    assert s[1..1 + k] == digits;
    forall i | 1 <= i < 1 + k ensures Decimal.IsDigit(s[i]) {
      assert s[i] == digits[i - 1];
    }
    assert s[1 + k] == ']';
    DigitRunIs(s, 1, k);
    assert s[2 + k..] == itemLabel + tail;
    LineOfIs(itemLabel, tail);
    assert LineOf(s[2 + k..]) == itemLabel;
  }

  lemma {:induction false} DigitRunIs(s: string, from: nat, k: nat)
    requires from + k <= |s|
    requires forall i :: from <= i < from + k ==> Decimal.IsDigit(s[i])
    requires from + k == |s| || !Decimal.IsDigit(s[from + k])
    ensures DigitRun(s, from) == k
    decreases k
  {
    if k > 0 {
      DigitRunIs(s, from + 1, k - 1);
    }
  }

  lemma {:induction false} LineOfIs(line: string, tail: string)
    requires '\n' !in line && (tail == [] || tail[0] == '\n')
    ensures LineOf(line + tail) == line
    decreases |line|
  {
    if line != [] {
      assert (line + tail)[1..] == line[1..] + tail;
      LineOfIs(line[1..], tail);
    }
  }

  /** The script's own example shape: a rendered fixed id and a one-line label read back unchanged. */
  lemma ParseItemIdRoundTrip(fixedId: nat, itemLabel: string)
    requires itemLabel != [] && '\n' !in itemLabel
    ensures ParseItemId("[" + Decimal.NatToDecimal(fixedId) + "]" + itemLabel) == Some((fixedId, itemLabel))
  {
    var s := "[" + Decimal.NatToDecimal(fixedId) + "]" + itemLabel;
    assert s == "[" + Decimal.NatToDecimal(fixedId) + "]" + itemLabel + [];
    ParseItemIdComplete(s, Decimal.NatToDecimal(fixedId), itemLabel, []);
    Decimal.NatDecimalRoundTrip(fixedId);
  }

  // ---- Localised names ----

  /** `lang_map`: each game language code with the CSV column holding that language's text. */
  const LangColumns: seq<(nat, string)> := [
    (0, "Japanese"),
    (1, "English"),
    (2, "French"),
    (3, "Italian"),
    (4, "German"),
    (5, "Spanish"),
    (6, "Russian"),
    (7, "Polish"),
    (10, "PortugueseBr"),
    (11, "Korean"),
    (12, "TraditionalChinese"),
    (13, "SimplifiedChinese"),
    (21, "Arabic"),
    (32, "LatinAmericanSpanish")]

  /** The text written for a missing or empty name. */
  const Placeholder: string := "---"

  /** `msg_row.get(column, "---")`, with "" and `None` also turned into "---". */
  function CellText(row: CsvRow, column: string): (text: string)
    ensures text != ""
    ensures text == Placeholder || (column in row && row[column] == Some(text))
    ensures column in row && row[column].Some? && row[column].value != "" ==> text == row[column].value
  {
    if column in row && row[column].Some? && row[column].value != "" then row[column].value else Placeholder
  }

  /** The name of one language: the row's cell, or "---" when the guid found no row. */
  function NameText(row: Option<CsvRow>, column: string): (text: string)
    ensures text != ""
    ensures row.None? ==> text == Placeholder
    ensures row.Some? && column in row.value && row.value[column].Some? && row.value[column].value != "" ==>
      text == row.value[column].value
    ensures row.Some? ==> text == CellText(row.value, column)
  {
    match row
    case None => Placeholder
    case Some(r) => CellText(r, column)
  }

  /** `name_dict` after the languages of `cols`, in order: `str(code)` maps to the language's name; at most one entry per language. */
  function NameMapOf(row: Option<CsvRow>, cols: seq<(nat, string)>): (names: map<string, string>)
    ensures |names| <= |cols|
    decreases |cols|
  {
    if cols == [] then map[]
    else
      var (code, column) := cols[|cols| - 1];
      NameMapOf(row, cols[..|cols| - 1])[Decimal.NatToDecimal(code) := NameText(row, column)]
  }

  /** The name loops of the script over `langMap` (`lang_map`): one per branch of `if msg_row`. */
  method BuildNameMap(row: Option<CsvRow>, langMap: seq<(nat, string)>) returns (names: map<string, string>)
    ensures names == NameMapOf(row, langMap)
  {
    names := map[];
    if row.Some? {
      var msgRow := row.value;
      for i := 0 to |langMap|
        invariant names == NameMapOf(row, langMap[..i])
      {
        NameMapOfPrefix(row, langMap, i);
        var (code, colName) := langMap[i];
        var val := if colName in msgRow then msgRow[colName] else Some(Placeholder);
        var text := if val.None? || val.value == "" then Placeholder else val.value;
        names := names[Decimal.NatToDecimal(code) := text];
      }
    } else {
      for i := 0 to |langMap|
        invariant names == NameMapOf(row, langMap[..i])
      {
        NameMapOfPrefix(row, langMap, i);
        names := names[Decimal.NatToDecimal(langMap[i].0) := Placeholder];
      }
    }
    assert langMap[..|langMap|] == langMap;
  }

  /** One more language sets its code's key to its name. */
  lemma NameMapOfPrefix(row: Option<CsvRow>, langMap: seq<(nat, string)>, i: nat)
    requires i < |langMap|
    ensures NameMapOf(row, langMap[..i + 1]) ==
      NameMapOf(row, langMap[..i])[Decimal.NatToDecimal(langMap[i].0) := NameText(row, langMap[i].1)]
  {
    assert langMap[..i + 1][..i] == langMap[..i];
  }

  /** The name map's keys are exactly `str(code)` for the codes of `cols`. */
  lemma {:induction false} NameMapKeys(row: Option<CsvRow>, cols: seq<(nat, string)>)
    ensures forall i :: 0 <= i < |cols| ==> Decimal.NatToDecimal(cols[i].0) in NameMapOf(row, cols)
    ensures forall key :: key in NameMapOf(row, cols) ==> exists i :: 0 <= i < |cols| && Decimal.NatToDecimal(cols[i].0) == key
    decreases |cols|
  {
    if cols != [] {
      var front := cols[..|cols| - 1];
      var last := cols[|cols| - 1];
      NameMapKeys(row, front);
      var before := NameMapOf(row, front);
      var m := NameMapOf(row, cols);
      assert m == before[Decimal.NatToDecimal(last.0) := NameText(row, last.1)];
      forall i | 0 <= i < |cols| ensures Decimal.NatToDecimal(cols[i].0) in m {
        if i < |front| {
          assert front[i] == cols[i];
        }
      }
      forall key | key in m ensures exists i :: 0 <= i < |cols| && Decimal.NatToDecimal(cols[i].0) == key {
        if key in before {
          var i :| 0 <= i < |front| && Decimal.NatToDecimal(front[i].0) == key;
          assert front[i] == cols[i];
        } else {
          assert Decimal.NatToDecimal(cols[|cols| - 1].0) == key;
        }
      }
    }
  }

  /** The codes of `cols` are distinct. */
  predicate DistinctCodes(cols: seq<(nat, string)>) {
    forall i, j :: 0 <= i < j < |cols| ==> cols[i].0 != cols[j].0
  }

  /** With distinct codes no language overwrites another: `str(code)` maps to that language's name. */
  lemma {:induction false} NameMapValues(row: Option<CsvRow>, cols: seq<(nat, string)>)
    requires DistinctCodes(cols)
    ensures forall i :: 0 <= i < |cols| ==>
      Decimal.NatToDecimal(cols[i].0) in NameMapOf(row, cols)
      && NameMapOf(row, cols)[Decimal.NatToDecimal(cols[i].0)] == NameText(row, cols[i].1)
    decreases |cols|
  {
    if cols != [] {
      var n := |cols| - 1;
      var front := cols[..n];
      assert forall i :: 0 <= i < n ==> front[i] == cols[i];
      NameMapValues(row, front);
      forall i | 0 <= i < n
        ensures Decimal.NatToDecimal(cols[i].0) != Decimal.NatToDecimal(cols[n].0)
      {
        Decimal.NatToDecimalInjective(cols[i].0, cols[n].0);
      }
    }
  }

  /** The language codes of the script are those of the editor's `LanguageCode`, so they are distinct. */
  lemma LangColumnsMatchLanguageCodes()
    ensures |LangColumns| == |QuestTypes.LanguageCodeMembers|
    ensures forall i :: 0 <= i < |LangColumns| ==> LangColumns[i].0 == QuestTypes.LanguageCodeMembers[i].Value()
    ensures DistinctCodes(LangColumns)
  {
  }

  /** The keys of every name map: one per language code. */
  ghost function LangKeys(): set<string> {
    set i | 0 <= i < |LangColumns| :: Decimal.NatToDecimal(LangColumns[i].0)
  }

  /**
   * Every name map has one key per language code, and each key maps to the
   * CSV cell of its column, or "---" when the cell is missing or empty or no
   * row has the guid.
   */
  lemma NameMapShape(row: Option<CsvRow>)
    ensures NameMapOf(row, LangColumns).Keys == LangKeys()
    ensures forall i :: 0 <= i < |LangColumns| ==>
      Decimal.NatToDecimal(LangColumns[i].0) in NameMapOf(row, LangColumns)
      && NameMapOf(row, LangColumns)[Decimal.NatToDecimal(LangColumns[i].0)] == NameText(row, LangColumns[i].1)
  {
    LangColumnsMatchLanguageCodes();
    NameMapKeys(row, LangColumns);
    NameMapValues(row, LangColumns);
  }

  // ---- Parsed items ----

  /** An output record: `id` from the enum map, `fixedId` and `Label` from `_ItemId`, `name` per language. */
  datatype Item = Item(id: int, fixedId: nat, Label: string, name: map<string, string>)

  /** The `_ItemId` of an entry, or `None` when the entry or its `cData` lacks one. */
  function ItemIdOf(e: RawEntry): Option<string> {
    if e.cData.Some? then e.cData.value.itemId else None
  }

  function RawNameOf(e: RawEntry): Option<string> {
    if e.cData.Some? then e.cData.value.rawName else None
  }

  /** `item_def_map.get(label)`, or 0 when the label has no id: a non-zero id always comes from the map. */
  function ItemIdFor(idMap: map<string, int>, itemLabel: string): (id: int)
    ensures itemLabel in idMap ==> id == idMap[itemLabel]
    ensures id != 0 ==> itemLabel in idMap && idMap[itemLabel] == id
  {
    if itemLabel in idMap then idMap[itemLabel] else 0
  }

  /** `msg_data.get(raw_name_guid)`: the CSV row filed under the entry's `_RawName`, if any. */
  function RowFor(e: RawEntry, table: MessageTable): (row: Option<CsvRow>)
    ensures row.Some? <==> RawNameOf(e) in table
    ensures row.Some? ==> row.value == table[RawNameOf(e)]
  {
    if RawNameOf(e) in table then Some(table[RawNameOf(e)]) else None
  }

  /** Each language's name in `names` is the text of that language's column of `row`, or "---". */
  ghost predicate NamesFromRow(names: map<string, string>, row: Option<CsvRow>) {
    forall i :: 0 <= i < |LangColumns| ==>
      Decimal.NatToDecimal(LangColumns[i].0) in names
      && names[Decimal.NatToDecimal(LangColumns[i].0)] == NameText(row, LangColumns[i].1)
  }

  /** The record one entry yields, or `None` when the script skips it; a record's fixed id and label are those its `_ItemId` parses to. */
  function ParseEntry(e: RawEntry, idMap: map<string, int>, table: MessageTable, langMap: seq<(nat, string)>): (r: Option<Item>)
    ensures r.Some? ==>
      ItemIdOf(e).Some? && ItemIdOf(e).value != "" && ParseItemId(ItemIdOf(e).value) == Some((r.value.fixedId, r.value.Label))
  {
    var itemId := ItemIdOf(e);
    if itemId.None? || itemId.value == "" then None
    else
      match ParseItemId(itemId.value)
      case None => None
      case Some((fixedId, itemLabel)) =>
        Some(Item(ItemIdFor(idMap, itemLabel), fixedId, itemLabel, NameMapOf(RowFor(e, table), langMap)))
  }

  /**
   * An entry is skipped iff its `_ItemId` is missing or empty or does not
   * match the pattern; a kept entry's record takes its fixed id and label
   * from `_ItemId`, its id from the enum map (0 when absent), and for each
   * of the fourteen languages the name in the CSV row its `_RawName` files
   * under (or "---").
   */
  lemma ParseEntryMeaning(e: RawEntry, idMap: map<string, int>, table: MessageTable)
    ensures ParseEntry(e, idMap, table, LangColumns).None? <==>
      ItemIdOf(e).None? || ItemIdOf(e).value == "" || ParseItemId(ItemIdOf(e).value).None?
    ensures ParseEntry(e, idMap, table, LangColumns).Some? ==>
      var item := ParseEntry(e, idMap, table, LangColumns).value;
      && ParseItemId(ItemIdOf(e).value) == Some((item.fixedId, item.Label))
      && item.id == (if item.Label in idMap then idMap[item.Label] else 0)
      && item.name.Keys == LangKeys()
      && NamesFromRow(item.name, RowFor(e, table))
  {
    NameMapShape(RowFor(e, table));
  }

  /**
   * End to end from the CSV: a kept entry's names are those of the last CSV
   * row whose guid is the entry's `_RawName`, and all "---" when no row has
   * that guid.
   */
  lemma EntryNamesFromCsv(rows: seq<CsvRow>, e: RawEntry, idMap: map<string, int>)
    requires AllHaveGuid(rows)
    ensures MessageTableOf(rows).Ok?
    ensures ParseEntry(e, idMap, MessageTableOf(rows).value, LangColumns).Some? ==>
      var names := ParseEntry(e, idMap, MessageTableOf(rows).value, LangColumns).value.name;
      && (forall j :: 0 <= j < |rows| && LastOfItsGuid(rows, j) && rows[j][GuidColumn] == RawNameOf(e) ==>
            NamesFromRow(names, Some(rows[j])))
      && ((forall j :: 0 <= j < |rows| ==> rows[j][GuidColumn] != RawNameOf(e)) ==> NamesFromRow(names, None))
  {
    MessageTableKeys(rows);
    MessageTableLastRowWins(rows);
    var table := MessageTableOf(rows).value;
    ParseEntryMeaning(e, idMap, table);
  }

  /** The outcome of each entry, in entry order. */
  function Outcomes(raw: seq<RawEntry>, idMap: map<string, int>, table: MessageTable, langMap: seq<(nat, string)>)
    : (rs: seq<Option<Item>>)
    ensures |rs| == |raw|
    ensures forall i :: 0 <= i < |raw| ==> rs[i] == ParseEntry(raw[i], idMap, table, langMap)
  {
    seq(|raw|, i requires 0 <= i < |raw| => ParseEntry(raw[i], idMap, table, langMap))
  }

  /** The records among `rs`, in order. */
  function Kept(rs: seq<Option<Item>>): (items: seq<Item>)
    ensures |items| <= |rs|
    decreases |rs|
  {
    if rs == [] then []
    else Kept(rs[..|rs| - 1]) + (match rs[|rs| - 1] case None => [] case Some(item) => [item])
  }

  /** A record is kept iff some outcome is that record. */
  lemma KeptMembership(rs: seq<Option<Item>>, item: Item)
    ensures item in Kept(rs) <==> exists i :: 0 <= i < |rs| && rs[i] == Some(item)
  {
    if item in Kept(rs) {
      KeptSound(rs, item);
    }
    if exists i :: 0 <= i < |rs| && rs[i] == Some(item) {
      var i :| 0 <= i < |rs| && rs[i] == Some(item);
      KeptComplete(rs, i);
    }
  }

  lemma {:induction false} KeptSound(rs: seq<Option<Item>>, item: Item)
    requires item in Kept(rs)
    ensures exists i :: 0 <= i < |rs| && rs[i] == Some(item)
    decreases |rs|
  {
    var front := rs[..|rs| - 1];
    if item in Kept(front) {
      KeptSound(front, item);
      var i :| 0 <= i < |front| && front[i] == Some(item);
      assert rs[i] == front[i];
    } else {
      assert rs[|rs| - 1] == Some(item);
    }
  }

  lemma {:induction false} KeptComplete(rs: seq<Option<Item>>, i: nat)
    requires i < |rs| && rs[i].Some?
    ensures rs[i].value in Kept(rs)
    decreases |rs|
  {
    var front := rs[..|rs| - 1];
    if i < |front| {
      assert front[i] == rs[i];
      KeptComplete(front, i);
    }
  }

  /** `parsed_items`: the records of the kept entries, in entry order. */
  function ParseAll(raw: seq<RawEntry>, idMap: map<string, int>, table: MessageTable, langMap: seq<(nat, string)>)
    : (items: seq<Item>)
    ensures |items| <= |raw|
  {
    Kept(Outcomes(raw, idMap, table, langMap))
  }

  /** One more entry adds its record, if it yields one, at the end. */
  lemma ParseAllPrefix(raw: seq<RawEntry>, i: nat, idMap: map<string, int>, table: MessageTable, langMap: seq<(nat, string)>)
    requires i < |raw|
    ensures ParseAll(raw[..i + 1], idMap, table, langMap) ==
      ParseAll(raw[..i], idMap, table, langMap) + (match ParseEntry(raw[i], idMap, table, langMap) case None => [] case Some(item) => [item])
  {
    var rs := Outcomes(raw[..i + 1], idMap, table, langMap);
    assert rs[..i] == Outcomes(raw[..i], idMap, table, langMap);
    assert rs[i] == ParseEntry(raw[i], idMap, table, langMap);
  }

  /** The entry loop of the script. */
  method ParseEntries(raw: seq<RawEntry>, idMap: map<string, int>, table: MessageTable, langMap: seq<(nat, string)>)
    returns (parsed: seq<Item>)
    ensures parsed == ParseAll(raw, idMap, table, langMap)
  {
    parsed := [];
    for i := 0 to |raw|
      invariant parsed == ParseAll(raw[..i], idMap, table, langMap)
    {
      ParseAllPrefix(raw, i, idMap, table, langMap);
      var entry := raw[i];
      var cdata := if entry.cData.Some? then entry.cData.value else CData(None, None);
      var rawItemIdStr := cdata.itemId;
      var rawNameGuid := cdata.rawName;
      if rawItemIdStr.None? || rawItemIdStr.value == "" {
        continue;
      }
      var m := ParseItemId(rawItemIdStr.value);
      if m.None? {
        continue;
      }
      var (fixedId, itemLabel) := m.value;
      var itemId := if itemLabel in idMap then idMap[itemLabel] else 0;
      var msgRow := if rawNameGuid in table then Some(table[rawNameGuid]) else None;
      var nameDict := BuildNameMap(msgRow, langMap);
      parsed := parsed + [Item(itemId, fixedId, itemLabel, nameDict)];
    }
    assert raw[..|raw|] == raw;
  }

  /** A record is produced iff some entry yields it. */
  lemma ParseAllMembership(
    raw: seq<RawEntry>, idMap: map<string, int>, table: MessageTable, langMap: seq<(nat, string)>, item: Item)
    ensures item in ParseAll(raw, idMap, table, langMap) <==>
      exists i :: 0 <= i < |raw| && ParseEntry(raw[i], idMap, table, langMap) == Some(item)
  {
    var rs := Outcomes(raw, idMap, table, langMap);
    KeptMembership(rs, item);
    if exists i :: 0 <= i < |raw| && ParseEntry(raw[i], idMap, table, langMap) == Some(item) {
      var i :| 0 <= i < |raw| && ParseEntry(raw[i], idMap, table, langMap) == Some(item);
      assert rs[i] == Some(item);
    }
  }

  // ---- Sorting ----

  /** Non-decreasing by `fixedId`. */
  predicate SortedByFixedId(s: seq<Item>) {
    forall i, j :: 0 <= i < j < |s| ==> s[i].fixedId <= s[j].fixedId
  }

  /** The records of `s` with fixed id `k`, in order. */
  function WithFixedId(s: seq<Item>, k: nat): seq<Item> {
    if s == [] then []
    else (if s[0].fixedId == k then [s[0]] else []) + WithFixedId(s[1..], k)
  }

  /** Puts `x` before the first record whose fixed id is not smaller. */
  function InsertByFixedId(x: Item, s: seq<Item>): (r: seq<Item>)
    ensures multiset(r) == multiset(s) + multiset{x}
    ensures |r| == |s| + 1
  {
    if s == [] || x.fixedId <= s[0].fixedId then [x] + s
    else
      assert s == [s[0]] + s[1..];
      [s[0]] + InsertByFixedId(x, s[1..])
  }

  /**
   * `parsed_items.sort(key=lambda x: x["fixedId"])`: Python's stable sort,
   * given by its result (an insertion sort from the back, each record placed
   * before the records not smaller than it, which came after it).
   */
  function SortByFixedId(s: seq<Item>): (r: seq<Item>)
    ensures multiset(r) == multiset(s)
    ensures |r| == |s|
  {
    if s == [] then []
    else
      assert s == [s[0]] + s[1..];
      InsertByFixedId(s[0], SortByFixedId(s[1..]))
  }

  lemma {:induction false} InsertSorted(x: Item, s: seq<Item>)
    requires SortedByFixedId(s)
    ensures SortedByFixedId(InsertByFixedId(x, s))
    decreases |s|
  {
    if s != [] && x.fixedId > s[0].fixedId {
      var rest := InsertByFixedId(x, s[1..]);
      InsertSorted(x, s[1..]);
      forall j | 0 <= j < |rest| ensures s[0].fixedId <= rest[j].fixedId {
        assert rest[j] in multiset(rest);
        assert rest[j] == x || rest[j] in multiset(s[1..]);
        if rest[j] != x {
          var k :| 0 <= k < |s[1..]| && s[1..][k] == rest[j];
          assert s[k + 1] == rest[j];
        }
      }
    }
  }

  /** The sorted list is non-decreasing by fixed id. */
  lemma {:induction false} SortSorted(s: seq<Item>)
    ensures SortedByFixedId(SortByFixedId(s))
    decreases |s|
  {
    if s != [] {
      SortSorted(s[1..]);
      InsertSorted(s[0], SortByFixedId(s[1..]));
    }
  }

  lemma {:induction false} WithFixedIdInsert(x: Item, s: seq<Item>, k: nat)
    ensures WithFixedId(InsertByFixedId(x, s), k) == (if x.fixedId == k then [x] else []) + WithFixedId(s, k)
    decreases |s|
  {
    if s == [] || x.fixedId <= s[0].fixedId {
      assert ([x] + s)[1..] == s;
    } else {
      WithFixedIdInsert(x, s[1..], k);
      assert ([s[0]] + InsertByFixedId(x, s[1..]))[1..] == InsertByFixedId(x, s[1..]);
    }
  }

  /**
   * The sort is stable: for every fixed id, the records with that id keep
   * their relative order.
   */
  lemma {:induction false} SortStable(s: seq<Item>, k: nat)
    ensures WithFixedId(SortByFixedId(s), k) == WithFixedId(s, k)
    decreases |s|
  {
    if s != [] {
      SortStable(s[1..], k);
      WithFixedIdInsert(s[0], SortByFixedId(s[1..]), k);
    }
  }

  // ---- The whole transform ----

  /** The enum table holding the item ids. */
  const ItemDefKey: string := "app.ItemDef.ID"

  /** `enums_data.get("app.ItemDef.ID", {})`: every id it gives comes from the "app.ItemDef.ID" table. */
  function ItemDefMap(enums: map<string, map<string, int>>): (m: map<string, int>)
    ensures ItemDefKey in enums ==> m == enums[ItemDefKey]
    ensures forall key :: key in m ==> ItemDefKey in enums && key in enums[ItemDefKey] && enums[ItemDefKey][key] == m[key]
  {
    if ItemDefKey in enums then enums[ItemDefKey] else map[]
  }

  /** What the script writes, or the error that stops it. */
  function GeneratedItems(enums: map<string, map<string, int>>, itemData: ItemDataFile, csvRows: seq<CsvRow>)
    : (r: Result<seq<Item>, string>)
    ensures r.Err? <==> exists j :: 0 <= j < |csvRows| && GuidColumn !in csvRows[j]
    ensures r.Err? ==> r.error == GuidKeyError
    ensures r.Ok? ==> |r.value| <= |RawItems(itemData)|
  {
    MessageTableFails(csvRows);
    match MessageTableOf(csvRows)
    case Err(e) => Err(e)
    case Ok(table) => Ok(SortByFixedId(ParseAll(RawItems(itemData), ItemDefMap(enums), table, LangColumns)))
  }

  /** `generate_items_json` without its file input and output. */
  method GenerateItems(enums: map<string, map<string, int>>, itemData: ItemDataFile, csvRows: seq<CsvRow>)
    returns (r: Result<seq<Item>, string>)
    ensures r == GeneratedItems(enums, itemData, csvRows)
  {
    var itemDefMap := if ItemDefKey in enums then enums[ItemDefKey] else map[];
    var msgData := BuildMessageTable(csvRows);
    if msgData.Err? {
      return Err(msgData.error);
    }
    var rawItems := CollectRawItems(itemData);
    var parsedItems := ParseEntries(rawItems, itemDefMap, msgData.value, LangColumns);
    parsedItems := SortByFixedId(parsedItems);
    r := Ok(parsedItems);
  }

  /**
   * The output is the kept records sorted by fixed id, stably: a permutation
   * of them, non-decreasing, with equal fixed ids in entry order; and every
   * output record has the fourteen name keys.
   */
  lemma GeneratedItemsOrder(enums: map<string, map<string, int>>, itemData: ItemDataFile, csvRows: seq<CsvRow>)
    requires GeneratedItems(enums, itemData, csvRows).Ok?
    ensures var parsed := ParseAll(RawItems(itemData), ItemDefMap(enums), MessageTableOf(csvRows).value, LangColumns);
      var out := GeneratedItems(enums, itemData, csvRows).value;
      && multiset(out) == multiset(parsed)
      && SortedByFixedId(out)
      && (forall k: nat :: WithFixedId(out, k) == WithFixedId(parsed, k))
      && (forall i :: 0 <= i < |out| ==> out[i].name.Keys == LangKeys())
      && (forall i :: 0 <= i < |out| ==>
            RecordOfSomeEntry(out[i], RawItems(itemData), ItemDefMap(enums), MessageTableOf(csvRows).value))
  {
    var raw := RawItems(itemData);
    var idMap := ItemDefMap(enums);
    var table := MessageTableOf(csvRows).value;
    var parsed := ParseAll(raw, idMap, table, LangColumns);
    assert GeneratedItems(enums, itemData, csvRows).value == SortByFixedId(parsed);
    SortIsStableSort(parsed);
    SortedRecordsOrigin(raw, idMap, table);
  }

  /** The sort is a stable sort: a permutation, non-decreasing, with equal fixed ids in their original order. */
  lemma SortIsStableSort(s: seq<Item>)
    ensures multiset(SortByFixedId(s)) == multiset(s)
    ensures SortedByFixedId(SortByFixedId(s))
    ensures forall k: nat :: WithFixedId(SortByFixedId(s), k) == WithFixedId(s, k)
  {
    SortSorted(s);
    forall k: nat ensures WithFixedId(SortByFixedId(s), k) == WithFixedId(s, k) {
      SortStable(s, k);
    }
  }

  /** Every sorted record comes from an entry, with the fourteen name keys filled from that entry's CSV row. */
  lemma SortedRecordsOrigin(raw: seq<RawEntry>, idMap: map<string, int>, table: MessageTable)
    ensures var out := SortByFixedId(ParseAll(raw, idMap, table, LangColumns));
      && (forall i :: 0 <= i < |out| ==> out[i].name.Keys == LangKeys())
      && (forall i :: 0 <= i < |out| ==> RecordOfSomeEntry(out[i], raw, idMap, table))
  {
    var parsed := ParseAll(raw, idMap, table, LangColumns);
    var out := SortByFixedId(parsed);
    forall i | 0 <= i < |out|
      ensures out[i].name.Keys == LangKeys()
      ensures RecordOfSomeEntry(out[i], raw, idMap, table)
    {
      assert out[i] in multiset(parsed);
      ParsedRecordOrigin(raw, idMap, table, out[i]);
    }
  }

  /** `item` is the record of some entry of `raw`, with its names taken from that entry's CSV row. */
  ghost predicate RecordOfSomeEntry(item: Item, raw: seq<RawEntry>, idMap: map<string, int>, table: MessageTable) {
    exists j :: 0 <= j < |raw| && ParseEntry(raw[j], idMap, table, LangColumns) == Some(item)
      && NamesFromRow(item.name, RowFor(raw[j], table))
  }

  /** A parsed record comes from an entry, and its names from that entry's CSV row. */
  lemma ParsedRecordOrigin(raw: seq<RawEntry>, idMap: map<string, int>, table: MessageTable, item: Item)
    requires item in ParseAll(raw, idMap, table, LangColumns)
    ensures item.name.Keys == LangKeys()
    ensures RecordOfSomeEntry(item, raw, idMap, table)
  {
    ParseAllMembership(raw, idMap, table, LangColumns, item);
    var j :| 0 <= j < |raw| && ParseEntry(raw[j], idMap, table, LangColumns) == Some(item);
    ParseEntryMeaning(raw[j], idMap, table);
  }
}
