/**
 * The record shapes of a quest definition and the small constant tables the
 * editor offers (src/types/quest.ts).
 *
 * Every record is a value: a datatype field is named after its JSON key with
 * the leading underscore dropped (`_AreaNo` is `AreaNo`); keys without an
 * underscore keep their spelling (`Name`, `gaugeSpritNum`, `questId`). A
 * shadow key whose name ends in `=` (`'_BossRushParams='`) is the field
 * `...Shadow`, absent (`None`) or present. A field typed `unknown` holds an
 * `Opaque` value, which the model never looks into. A JSON number is an `int`,
 * except the reward probability, which is a `real` never reasoned about.
 */
module QuestTypes {
  import opened Wrappers
  import Decimal

  /** A payload of a type the editor does not know: JSON `null` or some other JSON text, kept verbatim. */
  datatype Opaque = Null | Blob(json: string)

  // ---- Common types ----

  /** `NameValue<number>`: `_Name` is an optional annotation, `_Value` is authoritative. */
  datatype NameValue = NameValue(Name: Option<string>, Value: int)

  datatype NameValueAlt = NameValueAlt(Name: string, Value: string)

  datatype ResourceId = ResourceId(ID: string, Resource: Option<string>)

  datatype FieldId = FieldId(Name: string, Value: int)

  datatype RouteId = RouteId(Name: string, Value: string)

  datatype OptionTag = OptionTag(Value: int)

  // ---- Monster types ----

  datatype AdvancedSettings = AdvancedSettings(IsDeepSleepCreate: bool)

  /** One monster placement of a quest (`MainTargetData`). */
  datatype MainTargetData = MainTargetData(
    AdvancedSettings: AdvancedSettings,
    AreaNo: int,
    DifficultyAdjustRange: int,
    DifficultyRankId: NameValueAlt,
    EmID: int,
    EventTargetID: string,
    FixedSize: int,
    GroupID: int,
    InitPos: string,
    IsUseRandomSize: bool,
    LayoutKeepID: int,
    LegendaryID: string,
    OptionTag: OptionTag,
    RandomSizeTblId: NameValueAlt,
    RoleID: string,
    RouteID: RouteId,
    SetAreaNo: int,
    StoryTargetID: int)

  datatype ConditionalMoveData = ConditionalMoveData(
    DestArray: seq<Opaque>,
    IsUse: bool,
    RevertOnCompleted: bool,
    StartAfterFirstCondition: bool)

  datatype TargetInfo = TargetInfo(
    ConditionalMoveData: ConditionalMoveData,
    EmTargetID: int,
    LegendaryID: string,
    RoleID: string,
    ShowTargetGuide: bool,
    TargetIDValue: int,
    TargetValue: int)

  datatype ClearCondition = ClearCondition(TargetInfoArray: seq<TargetInfo>, TargetType: int)

  datatype SubBossInfo = SubBossInfo(
    ConditionalMoveData: ConditionalMoveData,
    EmID: int,
    EmTargetID: int,
    LegendaryID: string,
    RoleID: string)

  // ---- Quest types ----

  /** The numeric enum `QuestType`. */
  datatype QuestType = Hunting | Kill | Capture | Arena | BossRush | Special {
    function Value(): int {
      match this
      case Hunting => 0
      case Kill => 1
      case Capture => 2
      case Arena => 5
      case BossRush => 6
      case Special => 7
    }

    function Name(): string {
      match this
      case Hunting => "HUNTING"
      case Kill => "KILL"
      case Capture => "CAPTURE"
      case Arena => "ARENA"
      case BossRush => "BOSSRUSH"
      case Special => "SPECIAL"
    }
  }

  /** The members of `QuestType` in declaration order. */
  const QuestTypeMembers: seq<QuestType> := [Hunting, Kill, Capture, Arena, BossRush, Special]

  /**
   * `Object.keys(QuestType)`. A numeric TypeScript enum object maps each
   * value back to its name and each name to its value; JavaScript lists the
   * integer-like keys first, in ascending numeric order, then the other keys
   * in insertion order. The declared values already ascend
   * (QuestTypeValuesExact), so the integer-like keys are the values rendered
   * in declaration order.
   */
  function QuestTypeObjectKeys(): (keys: seq<string>)
    ensures |keys| == 2 * |QuestTypeMembers|
  {
    RenderAll(EnumValues(QuestTypeMembers)) + EnumNames(QuestTypeMembers)
  }

  /** The first half of the keys renders each value, the second half names each member, both in declaration order. */
  lemma QuestTypeObjectKeysLayout()
    ensures forall i :: 0 <= i < |QuestTypeMembers| ==>
      QuestTypeObjectKeys()[i] == Decimal.IntToDecimal(QuestTypeMembers[i].Value()) &&
      QuestTypeObjectKeys()[|QuestTypeMembers| + i] == QuestTypeMembers[i].Name()
  {
  }

  function EnumValues(qs: seq<QuestType>): (vs: seq<int>)
    ensures |vs| == |qs|
    ensures forall i :: 0 <= i < |qs| ==> vs[i] == qs[i].Value()
  {
    if qs == [] then [] else [qs[0].Value()] + EnumValues(qs[1..])
  }

  function EnumNames(qs: seq<QuestType>): (ns: seq<string>)
    ensures |ns| == |qs|
    ensures forall i :: 0 <= i < |qs| ==> ns[i] == qs[i].Name()
  {
    if qs == [] then [] else [qs[0].Name()] + EnumNames(qs[1..])
  }

  function RenderAll(vs: seq<int>): (ks: seq<string>)
    ensures |ks| == |vs|
    ensures forall i :: 0 <= i < |vs| ==> ks[i] == Decimal.IntToDecimal(vs[i])
  {
    if vs == [] then [] else [Decimal.IntToDecimal(vs[0])] + RenderAll(vs[1..])
  }

  /**
   * `!isNaN(Number(key))` for the keys of an enum object: a key converts to
   * a number exactly when it is a digit string with an optional leading '-',
   * since the member names are upper-case words.
   */
  predicate IsNumericKey(key: string) {
    Decimal.ParseInt(key).Some?
  }

  /** `.filter((key) => !isNaN(Number(key))).map((key) => Number(key))`. */
  function NumericKeyValues(keys: seq<string>): (vs: seq<int>)
    ensures |vs| <= |keys|
  {
    if keys == [] then []
    else if IsNumericKey(keys[0]) then [Decimal.ParseInt(keys[0]).value] + NumericKeyValues(keys[1..])
    else NumericKeyValues(keys[1..])
  }

  /** Every value the filter produces is the value of one of the keys. */
  lemma {:induction false} NumericKeyValuesSound(keys: seq<string>)
    ensures forall i :: 0 <= i < |NumericKeyValues(keys)| ==>
      exists j :: 0 <= j < |keys| && Decimal.ParseInt(keys[j]) == Some(NumericKeyValues(keys)[i])
    decreases |keys|
  {
    if keys == [] {
      assert NumericKeyValues(keys) == [];
    } else {
      var tail := keys[1..];
      NumericKeyValuesSound(tail);
      var vs := NumericKeyValues(keys);
      var ts := NumericKeyValues(tail);
      var d := if IsNumericKey(keys[0]) then 1 else 0;
      assert vs[d..] == ts;
      forall i | 0 <= i < |vs|
        ensures exists j :: 0 <= j < |keys| && Decimal.ParseInt(keys[j]) == Some(vs[i])
      {
        if i < d {
          assert Decimal.ParseInt(keys[0]) == Some(vs[i]);
        } else {
          assert vs[i] == ts[i - d];
          var j :| 0 <= j < |tail| && Decimal.ParseInt(tail[j]) == Some(ts[i - d]);
          assert keys[j + 1] == tail[j];
        }
      }
    }
  }

  /** The filter keeps the value of every numeric key. */
  lemma {:induction false} NumericKeyValuesComplete(keys: seq<string>)
    ensures forall j :: 0 <= j < |keys| && IsNumericKey(keys[j]) ==> Decimal.ParseInt(keys[j]).value in NumericKeyValues(keys)
    decreases |keys|
  {
    if keys != [] {
      var tail := keys[1..];
      NumericKeyValuesComplete(tail);
      forall j | 0 <= j < |keys| && IsNumericKey(keys[j])
        ensures Decimal.ParseInt(keys[j]).value in NumericKeyValues(keys)
      {
        if j > 0 {
          assert keys[j] == tail[j - 1];
        }
      }
    }
  }

  /** `QUEST_TYPE_VALUES`. */
  function QuestTypeValues(): (vs: seq<int>)
    ensures |vs| <= |QuestTypeObjectKeys()|
  {
    NumericKeyValues(QuestTypeObjectKeys())
  }

  /** The rendered values of an enum come back unchanged through the filter/map pipeline. */
  lemma NumericKeysOfRendered(vs: seq<int>, names: seq<string>)
    requires forall i :: 0 <= i < |names| ==> !IsNumericKey(names[i])
    ensures NumericKeyValues(RenderAll(vs) + names) == vs
  {
    NumericKeyValuesAppend(RenderAll(vs), names);
    NumericKeysOfRenderAll(vs);
    NumericKeysOfNames(names);
  }

  /** The filter distributes over concatenation. */
  lemma {:induction false} NumericKeyValuesAppend(a: seq<string>, b: seq<string>)
    ensures NumericKeyValues(a + b) == NumericKeyValues(a) + NumericKeyValues(b)
    decreases |a|
  {
    if a == [] {
      assert a + b == b;
    } else {
      assert (a + b)[1..] == a[1..] + b;
      NumericKeyValuesAppend(a[1..], b);
    }
  }

  lemma {:induction false} NumericKeysOfRenderAll(vs: seq<int>)
    ensures NumericKeyValues(RenderAll(vs)) == vs
    decreases |vs|
  {
    if vs != [] {
      var ks := RenderAll(vs);
      Decimal.IntDecimalRoundTrip(vs[0]);
      assert ks[1..] == RenderAll(vs[1..]);
      NumericKeysOfRenderAll(vs[1..]);
    }
  }

  lemma {:induction false} NumericKeysOfNames(names: seq<string>)
    requires forall i :: 0 <= i < |names| ==> !IsNumericKey(names[i])
    ensures NumericKeyValues(names) == []
    decreases |names|
  {
    if names != [] {
      NumericKeysOfNames(names[1..]);
    }
  }

  lemma QuestTypeNamesNotNumeric(q: QuestType)
    ensures !IsNumericKey(q.Name())
  {
    var n := q.Name();
    assert !Decimal.IsDigit(n[0]) && n[0] != '-';
  }

  lemma QuestTypeValuesAreEnumValues()
    ensures QuestTypeValues() == EnumValues(QuestTypeMembers)
  {
    var names := EnumNames(QuestTypeMembers);
    forall i | 0 <= i < |names| ensures !IsNumericKey(names[i]) {
      QuestTypeNamesNotNumeric(QuestTypeMembers[i]);
    }
    NumericKeysOfRendered(EnumValues(QuestTypeMembers), names);
  }

  /**
   * `QUEST_TYPE_VALUES` is exactly `[0, 1, 2, 5, 6, 7]`: every value of the
   * enum, in declaration (and so ascending) order, and none of its names.
   */
  lemma QuestTypeValuesExact()
    ensures QuestTypeValues() == [0, 1, 2, 5, 6, 7]
    ensures forall q: QuestType :: q.Value() in QuestTypeValues()
  {
    QuestTypeValuesAreEnumValues();
    QuestTypeEnumValues();
    QuestTypeValuesCoverEnum();
  }

  lemma QuestTypeValuesCoverEnum()
    ensures forall q: QuestType :: q.Value() in QuestTypeValues()
  {
    QuestTypeValuesAreEnumValues();
    var vs := EnumValues(QuestTypeMembers);
    forall q: QuestType ensures q.Value() in vs {
      var i := QuestTypeIndex(q);
      assert vs[i] == q.Value();
    }
  }

  /** The position of a member in `QuestTypeMembers`. */
  function QuestTypeIndex(q: QuestType): (i: nat)
    ensures i < |QuestTypeMembers| && QuestTypeMembers[i] == q
  {
    match q
    case Hunting => 0
    case Kill => 1
    case Capture => 2
    case Arena => 3
    case BossRush => 4
    case Special => 5
  }

  lemma QuestTypeEnumValues()
    ensures EnumValues(QuestTypeMembers) == [0, 1, 2, 5, 6, 7]
  {
    var vs := EnumValues(QuestTypeMembers);
    assert forall i :: 0 <= i < 6 ==> vs[i] == QuestTypeMembers[i].Value();
  }

  datatype ArenaData = ArenaData(
    IsUserCamp: bool,
    MissionID: Opaque,
    SelectDatas: Opaque,
    SelectNpcDatas: Opaque,
    TimeRankA: Opaque,
    TimeRankB: Opaque,
    TimeRankS: Opaque)

  datatype BossRushParams = BossRushParams(PopType: int, ConditionValue_1: int, ConditionValue_2: int)

  datatype OrderCondition = OrderCondition(
    MaxPlayerNum: int,
    OrderHR: int,
    OrderMR: int,
    PremiseMission: NameValue)

  /** A message reference that is either automatic or names one (`_MsgID`) or several (`_MsgIDs`) messages. */
  datatype QuestMsgAuto = QuestMsgAuto(IsAuto: bool, MsgID: Option<string>, MsgIDs: Option<seq<string>>)

  /** The numeric enum `BossRushPopType`. */
  datatype BossRushPopType = Beginning | RemainHp | HuntNumOrTime {
    function Value(): int {
      match this
      case Beginning => 0
      case RemainHp => 2
      case HuntNumOrTime => 4
    }
  }

  /** `BOSS_RUSH_POP_TYPE_VALUES`. */
  const BossRushPopTypeValues: seq<int> := [Beginning.Value(), RemainHp.Value(), HuntNumOrTime.Value()]

  /** The pop-type list is `[0, 2, 4]` and holds the value of every `BossRushPopType`. */
  lemma BossRushPopTypeValuesExact()
    ensures BossRushPopTypeValues == [0, 2, 4]
    ensures forall p: BossRushPopType :: p.Value() in BossRushPopTypeValues
  {
  }

  datatype QuestMsg = QuestMsg(
    ClearConditionMsg: QuestMsgAuto,
    ClientNameMsg: string,
    DetailMsg: string,
    FailConditionMsg: QuestMsgAuto,
    FailConditionMsg_Other: string,
    OrderConditionMsg: QuestMsgAuto,
    OrderConditionMsg_Other: string,
    OrderConditionMsg_StProgress: string,
    TitleMsg: string)

  /** The flat parameter block of a quest (`DataList`). */
  datatype DataList = DataList(
    AddPoint: int,
    ArenaFenceCloseTime: int,
    ArenaFenceInitWaitTime: int,
    ArenaFenceReuseableTime: int,
    ArenaFenceStatus: string,
    ArenaPillarStatus: string,
    BattleBGM: int,
    BossRushParams: seq<BossRushParams>,
    BossRushParamsShadow: Option<Opaque>,
    ClearBGM: int,
    ClearCondition: ClearCondition,
    EnableGuestNpc: bool,
    ExOverrideID: int,
    HRPoint: int,
    IconType: NameValue,
    Index: int,
    IsOverrideArenaFenceParam: bool,
    IsOverrideArenaPillarParam: bool,
    IsSettingSupply: bool,
    MissionId: NameValue,
    OrderCondition: OrderCondition,
    PartnerNpc: NameValue,
    QuestAttribute: int,
    QuestLife: int,
    QuestLv: int,
    QuestMsg: QuestMsg,
    QuestType: int,
    RemMoney: int,
    Stage: NameValue,
    SubBossInfoArray: seq<SubBossInfo>,
    SubBossInfoArrayShadow: Option<Opaque>,
    SupplyID: NameValue,
    TimeLimit: int,
    Version: int)

  datatype MessageData = MessageData(Name: string, Text: string)

  /** The game's numeric enum `LanguageCode`. */
  datatype LanguageCode =
    | Japanese | English | French | Italian | German | Spanish | Russian | Polish
    | PortugueseBR | Korean | TraditionalChinese | SimplifiedChinese | Arabic | LatinAmericanSpanish
  {
    function Value(): int {
      match this
      case Japanese => 0
      case English => 1
      case French => 2
      case Italian => 3
      case German => 4
      case Spanish => 5
      case Russian => 6
      case Polish => 7
      case PortugueseBR => 10
      case Korean => 11
      case TraditionalChinese => 12
      case SimplifiedChinese => 13
      case Arabic => 21
      case LatinAmericanSpanish => 32
    }
  }

  /** The members of `LanguageCode` in declaration order. */
  const LanguageCodeMembers: seq<LanguageCode> := [
    Japanese, English, French, Italian, German, Spanish, Russian, Polish,
    PortugueseBR, Korean, TraditionalChinese, SimplifiedChinese, Arabic, LatinAmericanSpanish]

  /** The position of a language code in `LanguageCodeMembers`. */
  function LanguageCodeIndex(l: LanguageCode): (i: nat)
    ensures i < |LanguageCodeMembers| && LanguageCodeMembers[i] == l
  {
    match l
    case Japanese => 0
    case English => 1
    case French => 2
    case Italian => 3
    case German => 4
    case Spanish => 5
    case Russian => 6
    case Polish => 7
    case PortugueseBR => 8
    case Korean => 9
    case TraditionalChinese => 10
    case SimplifiedChinese => 11
    case Arabic => 12
    case LatinAmericanSpanish => 13
  }

  /** `LANGUAGE_NAMES`: the display name of each language, keyed by its numeric code. */
  const LanguageNames: map<int, string> := map[
    0 := "日本語",
    1 := "English",
    2 := "Français",
    3 := "Italiano",
    4 := "Deutsch",
    5 := "Español",
    6 := "Русский",
    7 := "Polski",
    10 := "Português (BR)",
    11 := "한국어",
    12 := "繁體中文",
    13 := "简体中文",
    21 := "العربية",
    32 := "Español (LA)"]

  /** The fourteen codes are distinct, so the table has one entry per language. */
  lemma LanguageCodeValuesDistinct()
    ensures forall i, j :: 0 <= i < j < |LanguageCodeMembers| ==>
      LanguageCodeMembers[i].Value() < LanguageCodeMembers[j].Value()
  {
  }

  /**
   * `LANGUAGE_NAMES` names exactly the fourteen language codes: a number has
   * a display name iff it is the value of a `LanguageCode` (fourteen distinct
   * values, by LanguageCodeValuesDistinct).
   */
  lemma LanguageNamesExact()
    ensures forall l: LanguageCode :: l.Value() in LanguageNames
    ensures forall v :: v in LanguageNames ==> exists l: LanguageCode :: l.Value() == v
  {
    LanguageNamesCoverCodes();
    LanguageNamesOnlyCodes();
  }

  lemma LanguageNamesCoverCodes()
    ensures forall l: LanguageCode :: l.Value() in LanguageNames
  {
    forall l: LanguageCode ensures l.Value() in LanguageNames {
      assert l.Value() in {0, 1, 2, 3, 4, 5, 6, 7, 10, 11, 12, 13, 21, 32};
    }
  }

  lemma LanguageNamesOnlyCodes()
    ensures forall v :: v in LanguageNames ==> exists l: LanguageCode :: l.Value() == v
  {
    forall v | v in LanguageNames ensures exists l: LanguageCode :: l.Value() == v {
      assert v in {0, 1, 2, 3, 4, 5, 6, 7, 10, 11, 12, 13, 21, 32};
      var l := LanguageCodeMembers[LanguageNameIndex(v)];
      assert l.Value() == v;
    }
  }

  /** The position in `LanguageCodeMembers` of the language a table key belongs to. */
  function LanguageNameIndex(v: int): (i: nat)
    ensures i < |LanguageCodeMembers|
  {
    if 0 <= v <= 7 then v
    else if 10 <= v <= 13 then v - 2
    else if v == 21 then 12
    else 13
  }

  datatype MessageAsset = MessageAsset(Language: int, MessageData: seq<MessageData>)

  datatype ZakoLayoutTag = ZakoLayoutTag(FieldID: FieldId, IsIntentionallyBlank: Option<bool>, Value: int)

  /** The spawn block of a quest (`BossZakoData`). */
  datatype BossZakoData = BossZakoData(
    AnimalLayoutID: ResourceId,
    FieldID: FieldId,
    MainTargetDataList: seq<MainTargetData>,
    SubBossLayoutID: ResourceId,
    ZakoLayoutID: ResourceId,
    ZakoLayoutTag: ZakoLayoutTag)

  datatype EnvironmentData = EnvironmentData(
    EnvTimeRate: int,
    EnvType: NameValue,
    ForcastDatas: seq<Opaque>,
    IsFixEnv: bool,
    IsTransitionEnv: bool,
    StageType: NameValue,
    StopTiming_EnvType: NameValue)

  datatype LGuideMsgData = LGuideMsgData(
    IsSubOrder: bool,
    SetMsgID: string,
    gaugeSpritNum: int,
    isCanSkip: bool,
    isGauge: bool)

  datatype MoonData = MoonData(
    IsSetMoon: bool,
    MoonOptionsVariationIndex: int,
    MoonSetting: NameValue,
    MoonTextureVariationIndex: int)

  datatype EmSetAnimalTag = EmSetAnimalTag(FieldID: FieldId, Value: int)

  datatype EmSetData = EmSetData(EmSet_AnimalTag: EmSetAnimalTag, EmSet_BossZako: Opaque, Stage: NameValue)

  datatype StreamQuestData = StreamQuestData(
    EmSetData: EmSetData,
    IsFixWorldTime: bool,
    IsFixWorldTimeQuest: bool,
    IsSetWorldTime: bool,
    IsSetWorldTimeQuest: bool,
    IsStopTimeTiming: bool,
    IsStopTimeTimingQuest: bool,
    MissionTypeSerial: NameValue,
    SetEnvironmentDataList: seq<EnvironmentData>,
    SetLGuideMsgData: LGuideMsgData,
    SetMoonData: MoonData,
    StopTimeTimingHour: int,
    StopTimeTimingHourQuest: int,
    StopTimeTimingMinute: int,
    StopTimeTimingMinuteQuest: int,
    WorldTimeHour: int,
    WorldTimeHourQuest: int,
    WorldTimeMinute: int,
    WorldTimeMinuteQuest: int)

  /** The root quest record (`QuestData`). */
  datatype QuestData = QuestData(
    ArenaDataList: ArenaData,
    BossZakoDataList: BossZakoData,
    DataList: DataList,
    IsRecommended: bool,
    MessageAssetList: seq<MessageAsset>,
    StreamQuestData: StreamQuestData)

  // ---- Reward types ----

  datatype RewardItem = RewardItem(itemId: int, itemName: string, minCount: int, maxCount: int, probability: real)

  datatype QuestRewardData = QuestRewardData(questId: int, rewardId: int, rewardItems: seq<RewardItem>)

  // ---- Enemy catalog entries ----

  datatype EnemyName = EnemyName(cn: string, en: string, jp: string)

  datatype Enemy = Enemy(id: int, fixedId: int, Label: string, name: EnemyName)

  // ---- Option tables ----

  /** The star rank label of a quest level, `'★' + level`. */
  function StarLabel(level: int): (s: string)
    ensures |s| >= 2 && s[0] == '★' && s[1..] == Decimal.IntToDecimal(level)
  {
    "★" + Decimal.IntToDecimal(level)
  }

  /** Distinct levels have distinct star labels. */
  lemma StarLabelInjective(a: int, b: int)
    ensures StarLabel(a) == StarLabel(b) ==> a == b
  {
    if StarLabel(a) == StarLabel(b) {
      assert StarLabel(a)[1..] == StarLabel(b)[1..];
      Decimal.IntToDecimalInjective(a, b);
    }
  }

  datatype LevelOption = LevelOption(Label: string, value: int)

  /** `QUEST_LEVEL_OPTIONS`. */
  const QuestLevelOptions: seq<LevelOption> := [
    LevelOption("★1", 1),
    LevelOption("★2", 2),
    LevelOption("★3", 3),
    LevelOption("★4", 4),
    LevelOption("★5", 5),
    LevelOption("★6", 6),
    LevelOption("★7", 7),
    LevelOption("★8", 8),
    LevelOption("★9", 9)]

  /** Nine quest levels 1..9 in ascending order, each labelled with its star label. */
  lemma QuestLevelOptionsShape()
    ensures |QuestLevelOptions| == 9
    ensures forall i :: 0 <= i < 9 ==> QuestLevelOptions[i].value == i + 1
    ensures forall i :: 0 <= i < 9 ==> QuestLevelOptions[i].Label == StarLabel(QuestLevelOptions[i].value)
  {
  }

  datatype DifficultyOption = DifficultyOption(Label: string, value: string)

  /** `MONSTER_DIFFICULTY_OPTIONS`. */
  const MonsterDifficultyOptions: seq<DifficultyOption> := [
    DifficultyOption("None", "None"),
    DifficultyOption("★1", "★1"),
    DifficultyOption("★2", "★2"),
    DifficultyOption("★3", "★3"),
    DifficultyOption("★4", "★4"),
    DifficultyOption("★5", "★5"),
    DifficultyOption("★6", "★6"),
    DifficultyOption("★7", "★7"),
    DifficultyOption("★8", "★8")]

  /**
   * The monster difficulty options are "None" followed by ★1..★8, each
   * labelled with its own value; a rank value is offered iff it is "None"
   * or the star label of a level 1..8.
   */
  lemma MonsterDifficultyOptionsShape()
    ensures |MonsterDifficultyOptions| == 9
    ensures MonsterDifficultyOptions[0].value == "None"
    ensures forall i :: 1 <= i < 9 ==> MonsterDifficultyOptions[i].value == StarLabel(i)
    ensures forall i :: 0 <= i < 9 ==> MonsterDifficultyOptions[i].Label == MonsterDifficultyOptions[i].value
  {
  }

  /** Whether a rank name is one of the values the monster difficulty selector offers. */
  predicate IsOfferedDifficulty(rank: string) {
    exists i :: 0 <= i < |MonsterDifficultyOptions| && MonsterDifficultyOptions[i].value == rank
  }

  /** The star label of a level is offered by the difficulty selector iff the level is 1..8. */
  lemma OfferedStarLabels(level: int)
    ensures IsOfferedDifficulty(StarLabel(level)) <==> 1 <= level <= 8
  {
    MonsterDifficultyOptionsShape();
    if 1 <= level <= 8 {
      assert MonsterDifficultyOptions[level].value == StarLabel(level);
    } else if IsOfferedDifficulty(StarLabel(level)) {
      var i :| 0 <= i < |MonsterDifficultyOptions| && MonsterDifficultyOptions[i].value == StarLabel(level);
      assert i != 0 by {
        assert StarLabel(level)[0] == '★';
      }
      StarLabelInjective(i, level);
      assert false;
    }
  }

  /**
   * The five stages of `STAGE_ID` (src/constants/stages, which is not part of
   * this model): five distinct constants whose numbers are not modelled.
   */
  datatype StageId = St401Arena | St001WindwardPlains | St101ScarletForest | St201OilwellBasin | St301CliffsideCaverns

  datatype StageOption = StageOption(Label: string, value: StageId, name: string)

  /** `STAGE_OPTIONS`. */
  const StageOptions: seq<StageOption> := [
    StageOption("Arena (st401)", St401Arena, "st401"),
    StageOption("Windward Plains (st001)", St001WindwardPlains, "st001"),
    StageOption("Scarlet Forest (st101)", St101ScarletForest, "st101"),
    StageOption("Oilwell Basin (st201)", St201OilwellBasin, "st201"),
    StageOption("Cliffside Caverns (st301)", St301CliffsideCaverns, "st301")]

  predicate EndsWith(s: string, suffix: string) {
    |suffix| <= |s| && s[|s| - |suffix|..] == suffix
  }

  /** The position of a stage in `StageOptions`. */
  function StageOptionIndex(st: StageId): (i: nat)
    ensures i < |StageOptions| && StageOptions[i].value == st
  {
    match st
    case St401Arena => 0
    case St001WindwardPlains => 1
    case St101ScarletForest => 2
    case St201OilwellBasin => 3
    case St301CliffsideCaverns => 4
  }

  /** Five stage options, one per stage, with distinct names. */
  lemma StageOptionsDistinct()
    ensures |StageOptions| == 5
    ensures forall i, j :: 0 <= i < j < 5 ==> StageOptions[i].name != StageOptions[j].name
    ensures forall i, j :: 0 <= i < j < 5 ==> StageOptions[i].value != StageOptions[j].value
  {
    assert forall i :: 0 <= i < 5 ==> StageOptions[i].name[2] == "40123"[i];
  }

  lemma EndsWithByChars(s: string, suffix: string)
    requires |suffix| <= |s|
    requires forall k :: 0 <= k < |suffix| ==> s[|s| - |suffix| + k] == suffix[k]
    ensures EndsWith(s, suffix)
  {
    assert s[|s| - |suffix|..] == suffix;
  }

  /** The option of a stage has a label ending with the stage name in parentheses. */
  lemma StageOptionLabel(st: StageId)
    ensures EndsWith(StageOptions[StageOptionIndex(st)].Label, "(" + StageOptions[StageOptionIndex(st)].name + ")")
  {
    var o := StageOptions[StageOptionIndex(st)];
    EndsWithByChars(o.Label, "(" + o.name + ")");
  }

  /** Each stage option's label ends with its stage name in parentheses. */
  lemma StageOptionLabels()
    ensures forall i :: 0 <= i < 5 ==> EndsWith(StageOptions[i].Label, "(" + StageOptions[i].name + ")")
  {
    StageOptionLabel(St401Arena);
    StageOptionLabel(St001WindwardPlains);
    StageOptionLabel(St101ScarletForest);
    StageOptionLabel(St201OilwellBasin);
    StageOptionLabel(St301CliffsideCaverns);
  }
}
