/**
 * The achievement table and its initialiser (shared/achievements.ts).
 * The engine never evaluates achievements: its `achievements` field stays empty.
 */
module Achievements {
  import opened Wrappers

  /** A table row: an achievement without its unlock state. */
  datatype AchievementDef = AchievementDef(id: string, name: string, description: string, icon: string, target: nat)

  /** An achievement with its unlock state; `unlockedAt` is a timestamp once unlocked. */
  datatype Achievement = Achievement(
    id: string, name: string, description: string, icon: string, target: nat,
    unlocked: bool, unlockedAt: Option<int>, progress: nat)

  const ACHIEVEMENTS: seq<AchievementDef> := [
    AchievementDef("first_patient", "初诊", "完成第一位患者的治疗", "🏥", 1),
    AchievementDef("perfect_10", "完美医者", "完成10次完美治疗（满意度100%）", "⭐", 10),
    AchievementDef("combo_5", "连击高手", "达成5连击", "🔥", 5),
    AchievementDef("combo_10", "连击大师", "达成10连击", "💥", 10),
    AchievementDef("speed_demon", "神速", "在30秒内完成一次治疗", "⚡", 1),
    AchievementDef("rich_doctor", "富甲一方", "累计获得10000金币", "💰", 10000),
    AchievementDef("reputation_master", "名医", "声望达到1000", "🏆", 1000),
    AchievementDef("level_5", "小有名气", "达到5级", "📈", 5),
    AchievementDef("level_10", "医馆名家", "达到10级", "👑", 10),
    AchievementDef("serve_100", "百人医者", "治疗100位患者", "🎯", 100),
    AchievementDef("diagnosis_master", "望诊专家", "在诊断台获得50次满分", "👁️", 50),
    AchievementDef("pharmacy_master", "配药大师", "在药房完成100次配药", "🧪", 100),
    AchievementDef("acupuncture_master", "针灸圣手", "在针灸室获得50次满分", "💉", 50),
    AchievementDef("no_fail_day", "完美一天", "一天内没有失败的订单", "✨", 1),
    AchievementDef("upgrade_all", "顶级诊所", "将所有设备升级到最高级", "🏛️", 1)
  ]

  /** `{...ach, unlocked: false, progress: 0}`: a row in its locked, untouched state. */
  function Fresh(d: AchievementDef): Achievement {
    Achievement(d.id, d.name, d.description, d.icon, d.target, false, None, 0)
  }

  /** `defs.map(Fresh)`: one locked, zero-progress entry per row, in row order, metadata copied. */
  function InitializeFrom(defs: seq<AchievementDef>): (r: seq<Achievement>)
    ensures |r| == |defs|
    ensures forall i :: 0 <= i < |defs| ==>
      && r[i].id == defs[i].id && r[i].name == defs[i].name && r[i].description == defs[i].description
      && r[i].icon == defs[i].icon && r[i].target == defs[i].target
      && !r[i].unlocked && r[i].unlockedAt == None && r[i].progress == 0
  {
    seq(|defs|, i requires 0 <= i < |defs| => Fresh(defs[i]))
  }

  /** initializeAchievements(). */
  function InitializeAchievements(): (r: seq<Achievement>)
    ensures |r| == |ACHIEVEMENTS| == 15
    ensures forall i :: 0 <= i < |r| ==> r[i].id == ACHIEVEMENTS[i].id && r[i].target == ACHIEVEMENTS[i].target
    ensures forall a :: a in r ==> !a.unlocked && a.unlockedAt == None && a.progress == 0
  {
    InitializeFrom(ACHIEVEMENTS)
  }

  /** The ids of the table's rows, in row order. */
  function TableIds(): (ids: seq<string>)
    ensures |ids| == |ACHIEVEMENTS| && forall i :: 0 <= i < |ACHIEVEMENTS| ==> ids[i] == ACHIEVEMENTS[i].id
  {
    ["first_patient", "perfect_10", "combo_5", "combo_10", "speed_demon", "rich_doctor",
     "reputation_master", "level_5", "level_10", "serve_100", "diagnosis_master",
     "pharmacy_master", "acupuncture_master", "no_fail_day", "upgrade_all"]
  }

  /** The table: fifteen rows with pairwise distinct ids and positive targets. */
  lemma AchievementTable()
    ensures |ACHIEVEMENTS| == 15
    ensures forall i :: 0 <= i < |ACHIEVEMENTS| ==> ACHIEVEMENTS[i].target > 0
    ensures forall i, j :: 0 <= i < j < |ACHIEVEMENTS| ==> ACHIEVEMENTS[i].id != ACHIEVEMENTS[j].id
  {
    forall i, j | 0 <= i < j < |ACHIEVEMENTS| ensures ACHIEVEMENTS[i].id != ACHIEVEMENTS[j].id {
      TableIdsDistinct(TableIds(), i, j);
    }
  }

  lemma TableIdsDistinct(ids: seq<string>, i: nat, j: nat)
    requires ids == ["first_patient", "perfect_10", "combo_5", "combo_10", "speed_demon", "rich_doctor",
                     "reputation_master", "level_5", "level_10", "serve_100", "diagnosis_master",
                     "pharmacy_master", "acupuncture_master", "no_fail_day", "upgrade_all"]
    requires i < j < |ids|
    ensures ids[i] != ids[j]
  {
  }
}
