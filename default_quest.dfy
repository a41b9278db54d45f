/**
 * The canonical default records the editor seeds new data from
 * (src/constants/defaultQuest.ts): the monster template, the per-stage
 * spawn defaults, the monster factory, the default quest and the default
 * reward record.
 *
 * The source copies the monster template through a JSON round trip; the
 * template holds only strings, integers and booleans, which that round trip
 * keeps, so the copy is modelled as the template value itself. Datatype values
 * cannot share mutable parts, so a created monster never aliases the template
 * or another created monster.
 */
module DefaultQuest {
  import opened Wrappers
  import opened QuestTypes
  import Decimal

  /** The all-zero GUID the format uses as "no reference". */
  const ZeroGuid: string := "00000000-0000-0000-0000-000000000000"

  /** The numeric stage code of st401 (the arena). */
  const St401Code: int := 1181994624

  /** `DEFAULT_MONSTER_DATA`: an arena monster with an empty rank name. */
  const DefaultMonsterData: MainTargetData := MainTargetData(
    AdvancedSettings := AdvancedSettings(IsDeepSleepCreate := false),
    AreaNo := 255,
    DifficultyAdjustRange := 0,
    DifficultyRankId := NameValueAlt(Name := "", Value := ZeroGuid),
    EmID := 0,
    EventTargetID := "INVALID",
    FixedSize := 100,
    GroupID := 0,
    InitPos := "(-326,-28,176)",
    IsUseRandomSize := false,
    LayoutKeepID := -1,
    LegendaryID := "NORMAL",
    OptionTag := OptionTag(Value := 0),
    RandomSizeTblId := NameValueAlt(Name := "", Value := "f8f74ab0-0002-0000-00000002003e203e"),
    RoleID := "NORMAL",
    RouteID := RouteId(Name := "斗技场", Value := "7ae19f9f-f315-4f16-cc4fc595f9f7c483"),
    SetAreaNo := 255,
    StoryTargetID := 0)

  /** The spawn position and route a stage gives a new monster. */
  datatype StageDefault = StageDefault(initPos: string, routeId: RouteId)

  /** The default of the four open-field stages: the origin and no route. */
  const FieldStageDefault: StageDefault := StageDefault("(0,0,0)", RouteId(Name := "None", Value := ZeroGuid))

  /** `STAGE_DEFAULTS`, keyed by stage. */
  const StageDefaults: map<StageId, StageDefault> := map[
    St401Arena := StageDefault("(-326,-28,176)", RouteId(Name := "斗技场", Value := "7ae19f9f-f315-4f16-cc4fc595f9f7c483")),
    St001WindwardPlains := FieldStageDefault,
    St101ScarletForest := FieldStageDefault,
    St201OilwellBasin := FieldStageDefault,
    St301CliffsideCaverns := FieldStageDefault]

  /**
   * A number used to index the `Record<number, ...>` `STAGE_DEFAULTS`: one of
   * the five `STAGE_ID` constants, or any other number.
   */
  datatype RecordKey = StageKey(stage: StageId) | OtherNumber(n: int)

  /** `STAGE_DEFAULTS[key]`: an entry, or `undefined` (`None`) when the key is not a stage. */
  function LookupStageDefaults(key: RecordKey): (r: Option<StageDefault>)
    ensures r.Some? <==> key.StageKey?
  {
    match key
    case StageKey(s) => StageDefaultsTotal(s); Some(StageDefaults[s])
    case OtherNumber(_) => None
  }

  /** Every stage has an entry. */
  lemma StageDefaultsTotal(s: StageId)
    ensures s in StageDefaults
  {
    match s
    case St401Arena =>
    case St001WindwardPlains =>
    case St101ScarletForest =>
    case St201OilwellBasin =>
    case St301CliffsideCaverns =>
  }

  /**
   * The table has an entry for every stage and nothing else; the arena's
   * entry is the monster template's position and route, and the other four
   * stages give the origin and the "None" route with the zero GUID.
   */
  lemma StageDefaultsShape()
    ensures forall s: StageId :: s in StageDefaults
    ensures StageDefaults[St401Arena].initPos == DefaultMonsterData.InitPos
    ensures StageDefaults[St401Arena].routeId == DefaultMonsterData.RouteID
    ensures forall s: StageId :: s != St401Arena ==>
      StageDefaults[s].initPos == "(0,0,0)" && StageDefaults[s].routeId == RouteId("None", ZeroGuid)
  {
    forall s: StageId ensures s in StageDefaults {
      StageDefaultsTotal(s);
    }
  }

  /** Looking up any number that is not a stage yields no entry; a stage's entry is its table entry. */
  lemma LookupStageDefaultsTotal(key: RecordKey)
    ensures key.OtherNumber? ==> LookupStageDefaults(key) == None
    ensures key.StageKey? ==> key.stage in StageDefaults && LookupStageDefaults(key) == Some(StageDefaults[key.stage])
  {
    if key.StageKey? {
      StageDefaultsTotal(key.stage);
    }
  }

  /**
   * `createMonster(questLevel)`: a copy of the template whose rank name is
   * `'★' + questLevel`; the level is not range-checked. Every other field is
   * the template's.
   */
  function CreateMonster(questLevel: int): (m: MainTargetData)
    ensures m.DifficultyRankId.Name == StarLabel(questLevel)
    ensures m.DifficultyRankId.Value == DefaultMonsterData.DifficultyRankId.Value
    ensures m.(DifficultyRankId := DefaultMonsterData.DifficultyRankId) == DefaultMonsterData
  {
    DefaultMonsterData.(DifficultyRankId := DefaultMonsterData.DifficultyRankId.(Name := StarLabel(questLevel)))
  }

  /** The template fields a created monster keeps: the zero rank GUID, the arena position and route, area 255. */
  lemma CreateMonsterKeepsTemplate(questLevel: int)
    ensures CreateMonster(questLevel).DifficultyRankId.Value == ZeroGuid
    ensures CreateMonster(questLevel).InitPos == "(-326,-28,176)"
    ensures CreateMonster(questLevel).RouteID == StageDefaults[St401Arena].routeId
    ensures CreateMonster(questLevel).AreaNo == 255 && CreateMonster(questLevel).SetAreaNo == 255
  {
  }

  /**
   * The rank name of a created monster is "★" followed by the level's
   * decimal text, which reads back as the level; so two levels never give the
   * same monster.
   */
  lemma {:induction false} CreateMonsterRankReadsBack(questLevel: int)
    ensures CreateMonster(questLevel).DifficultyRankId.Name[0] == '★'
    ensures Decimal.ParseInt(CreateMonster(questLevel).DifficultyRankId.Name[1..]) == Some(questLevel)
  {
    Decimal.IntDecimalRoundTrip(questLevel);
  }

  lemma CreateMonsterInjective(a: int, b: int)
    ensures CreateMonster(a) == CreateMonster(b) <==> a == b
  {
    if CreateMonster(a) == CreateMonster(b) {
      StarLabelInjective(a, b);
    }
  }

  /** For every level the level selector offers, the monster's rank name is that option's label. */
  lemma CreateMonsterMatchesLevelOptions()
    ensures forall i :: 0 <= i < |QuestLevelOptions| ==>
      CreateMonster(QuestLevelOptions[i].value).DifficultyRankId.Name == QuestLevelOptions[i].Label
  {
    QuestLevelOptionsShape();
  }

  /**
   * The monster difficulty selector offers the rank of a created monster iff
   * the level is 1..8: a level-9 quest (which the level selector offers)
   * produces the rank "★9", which the difficulty selector does not list.
   */
  lemma CreateMonsterRankOffered(questLevel: int)
    ensures IsOfferedDifficulty(CreateMonster(questLevel).DifficultyRankId.Name) <==> 1 <= questLevel <= 8
  {
    OfferedStarLabels(questLevel);
  }

  /** `DEFAULT_QUEST_DATA`. */
  const DefaultQuestData: QuestData := QuestData(
    ArenaDataList := ArenaData(
      IsUserCamp := false,
      MissionID := Null,
      SelectDatas := Null,
      SelectNpcDatas := Null,
      TimeRankA := Null,
      TimeRankB := Null,
      TimeRankS := Null),
    BossZakoDataList := BossZakoData(
      AnimalLayoutID := ResourceId(ID := ZeroGuid, Resource := None),
      FieldID := FieldId(Name := "st401", Value := St401Code),
      MainTargetDataList := [],
      SubBossLayoutID := ResourceId(
        ID := "c8ed5a65-8c96-48cb-3a15eb556208668e",
        Resource := Some("assets:/GameDesign/Stage/st401/Layout/Loaded/Enemy/SubBoss/st401_SubBoss_Ms006025_00.pog.json")),
      ZakoLayoutID := ResourceId(ID := ZeroGuid, Resource := None),
      ZakoLayoutTag := ZakoLayoutTag(
        FieldID := FieldId(Name := "st401", Value := St401Code),
        IsIntentionallyBlank := Some(false),
        Value := 4)),
    DataList := DataList(
      AddPoint := 198,
      ArenaFenceCloseTime := 60,
      ArenaFenceInitWaitTime := 60,
      ArenaFenceReuseableTime := 120,
      ArenaFenceStatus := "OPEN",
      ArenaPillarStatus := "USE",
      BattleBGM := 0,
      BossRushParams := [],
      BossRushParamsShadow := Some(Null),
      ClearBGM := 0,
      ClearCondition := ClearCondition(TargetInfoArray := [], TargetType := 1),
      EnableGuestNpc := false,
      ExOverrideID := 0,
      HRPoint := 0,
      IconType := NameValue(Some("app.QuestDef.QUEST_ICON_TYPE_Fixed"), 1927315328),
      Index := 0,
      IsOverrideArenaFenceParam := false,
      IsOverrideArenaPillarParam := false,
      IsSettingSupply := false,
      MissionId := NameValue(Some("New Quest"), 0),
      OrderCondition := OrderCondition(
        MaxPlayerNum := 4,
        OrderHR := 21,
        OrderMR := 0,
        PremiseMission := NameValue(Some("前置任务ID"), -282127296)),
      PartnerNpc := NameValue(Some("無効値"), 4),
      QuestAttribute := 0,
      QuestLife := 2,
      QuestLv := 1,
      QuestMsg := QuestMsg(
        ClearConditionMsg := QuestMsgAuto(IsAuto := true, MsgID := Some(ZeroGuid), MsgIDs := None),
        ClientNameMsg := "9707f537-aadd-4e0e-983a-8ec7c72fc1fb",
        DetailMsg := "b15f3acb-b6ca-4e18-968b-2a5161f9679f",
        FailConditionMsg := QuestMsgAuto(IsAuto := true, MsgID := None, MsgIDs := Some([ZeroGuid, ZeroGuid])),
        FailConditionMsg_Other := "1e801eb7-04d4-4ebe-9423-62e633c1b3ee",
        OrderConditionMsg := QuestMsgAuto(IsAuto := true, MsgID := None, MsgIDs := Some([ZeroGuid, ZeroGuid])),
        OrderConditionMsg_Other := "acbf575d-58a2-46a4-bd33-af9eb4d105be",
        OrderConditionMsg_StProgress := "7d277c75-8e3e-4073-9351-072604943ce6",
        TitleMsg := "ad16cdce-1ad5-4ba9-8ac2-4cee6dd52021"),
      QuestType := 0,
      RemMoney := 0,
      Stage := NameValue(Some("st401"), St401Code),
      SubBossInfoArray := [],
      SubBossInfoArrayShadow := Some(Null),
      SupplyID := NameValue(Some("無効値"), 1966686080),
      TimeLimit := 50,
      Version := 1),
    IsRecommended := false,
    MessageAssetList := [],
    StreamQuestData := StreamQuestData(
      EmSetData := EmSetData(
        EmSet_AnimalTag := EmSetAnimalTag(FieldID := FieldId(Name := "st401", Value := St401Code), Value := 1),
        EmSet_BossZako := Null,
        Stage := NameValue(Some("st401"), St401Code)),
      IsFixWorldTime := false,
      IsFixWorldTimeQuest := false,
      IsSetWorldTime := false,
      IsSetWorldTimeQuest := true,
      IsStopTimeTiming := false,
      IsStopTimeTimingQuest := false,
      MissionTypeSerial := NameValue(Some("活动任务类型"), 1025928384),
      SetEnvironmentDataList := [
        EnvironmentData(
          EnvTimeRate := 0,
          EnvType := NameValue(Some("荒廃期"), 1961958400),
          ForcastDatas := [],
          IsFixEnv := false,
          IsTransitionEnv := false,
          StageType := NameValue(Some("st401"), St401Code),
          StopTiming_EnvType := NameValue(Some("無効値"), 2110947200))],
      SetLGuideMsgData := LGuideMsgData(
        IsSubOrder := false,
        SetMsgID := ZeroGuid,
        gaugeSpritNum := 0,
        isCanSkip := false,
        isGauge := false),
      SetMoonData := MoonData(
        IsSetMoon := false,
        MoonOptionsVariationIndex := 0,
        MoonSetting := NameValue(Some("無効値"), -770399616),
        MoonTextureVariationIndex := 0),
      StopTimeTimingHour := 0,
      StopTimeTimingHourQuest := 0,
      StopTimeTimingMinute := 0,
      StopTimeTimingMinuteQuest := 0,
      WorldTimeHour := 0,
      WorldTimeHourQuest := 21,
      WorldTimeMinute := 0,
      WorldTimeMinuteQuest := 0))

  /** `DEFAULT_REWARD_DATA`. */
  const DefaultRewardData: QuestRewardData := QuestRewardData(questId := 0, rewardId := 0, rewardItems := [])

  /** A stage reference of a quest: the stage name it shows and the stage code it carries. */
  datatype StageReference = StageReference(name: Option<string>, code: int)

  /** The environment entries' stage references, in order. */
  function EnvironmentStageReferences(envs: seq<EnvironmentData>): (refs: seq<StageReference>)
    ensures |refs| == |envs|
    ensures forall i :: 0 <= i < |envs| ==> refs[i] == StageReference(envs[i].StageType.Name, envs[i].StageType.Value)
  {
    if envs == [] then []
    else [StageReference(envs[0].StageType.Name, envs[0].StageType.Value)] + EnvironmentStageReferences(envs[1..])
  }

  /** Every field of a quest that names the quest's stage. */
  function StageReferences(q: QuestData): (refs: seq<StageReference>)
    ensures |refs| == 5 + |q.StreamQuestData.SetEnvironmentDataList|
  {
    [ StageReference(Some(q.BossZakoDataList.FieldID.Name), q.BossZakoDataList.FieldID.Value),
      StageReference(Some(q.BossZakoDataList.ZakoLayoutTag.FieldID.Name), q.BossZakoDataList.ZakoLayoutTag.FieldID.Value),
      StageReference(q.DataList.Stage.Name, q.DataList.Stage.Value),
      StageReference(Some(q.StreamQuestData.EmSetData.EmSet_AnimalTag.FieldID.Name),
                     q.StreamQuestData.EmSetData.EmSet_AnimalTag.FieldID.Value),
      StageReference(q.StreamQuestData.EmSetData.Stage.Name, q.StreamQuestData.EmSetData.Stage.Value) ]
    + EnvironmentStageReferences(q.StreamQuestData.SetEnvironmentDataList)
  }

  /** The default quest is a level-1 arena quest with a 50-minute limit. */
  lemma DefaultQuestHeadline()
    ensures DefaultQuestData.DataList.QuestLv == 1
    ensures DefaultQuestData.DataList.TimeLimit == 50
    ensures DefaultQuestData.BossZakoDataList.FieldID.Name == "st401"
  {
  }

  /** All six stage references of the default quest name st401 and carry its code. */
  lemma DefaultQuestStageReferences()
    ensures |StageReferences(DefaultQuestData)| == 6
    ensures forall i :: 0 <= i < |StageReferences(DefaultQuestData)| ==>
      StageReferences(DefaultQuestData)[i] == StageReference(Some("st401"), St401Code)
  {
  }

  /**
   * The default quest has no monsters, boss-rush parameters, sub-bosses or
   * message assets; both shadow keys are present and null; and the default
   * reward record has ids 0 and no items.
   */
  lemma DefaultQuestStartsEmpty()
    ensures DefaultQuestData.BossZakoDataList.MainTargetDataList == []
    ensures DefaultQuestData.DataList.BossRushParams == [] && DefaultQuestData.DataList.BossRushParamsShadow == Some(Null)
    ensures DefaultQuestData.DataList.SubBossInfoArray == [] && DefaultQuestData.DataList.SubBossInfoArrayShadow == Some(Null)
    ensures DefaultQuestData.MessageAssetList == []
    ensures DefaultRewardData.questId == 0 && DefaultRewardData.rewardId == 0 && DefaultRewardData.rewardItems == []
  {
  }
}
