/**
 * The content and configuration tables of the clinic (shared/gameData.ts):
 * the diagnosis catalogue, the name, herb and acupoint pools, and GAME_CONFIG.
 *
 * Patience is measured throughout the model in HALF-POINTS: the source's
 * patience starts at 100 and only ever moves in steps of 0.5, so the value
 * `h` stands for a patience of h / 2, exactly.
 */
module GameData {
  import opened Wrappers
  import opened Lists

  datatype Prescription = Prescription(herbs: seq<string>, acupuncturePoints: Option<seq<string>>)

  datatype Diagnosis = Diagnosis(id: string, name: string, symptoms: seq<string>, prescription: Prescription)

  /** An acupoint; `x` and `y` are its position on the body chart, in percent. */
  datatype Acupoint = Acupoint(id: string, name: string, x: int, y: int)

  const DIAGNOSES: seq<Diagnosis> := [
    Diagnosis("D001", "视网膜过载症", ["全息短视频刷太多", "眼神涣散", "降维打击感"],
              Prescription(["睛明穴药膏", "黑屏凝视法"], Some(["睛明穴"]))),
    Diagnosis("D002", "幻肢焦虑", ["离开手机即灵魂剥离", "手掌滑动动作", "WiFi信号依赖"],
              Prescription(["断网茶", "磁石手串"], Some(["劳宫穴"]))),
    Diagnosis("D003", "数据淤血", ["脑机接口过热", "思维卡顿", "传输速度慢"],
              Prescription(["归脾汤", "液氮冷凝剂"], Some(["百会穴"]))),
    Diagnosis("D004", "量子脱发", ["发际线叠加态", "观测时后移", "薛定谔困扰"],
              Prescription(["生姜擦剂", "量子纠缠剂"], Some(["百会穴", "风池穴"]))),
    Diagnosis("D005", "带宽虚火", ["语速极快", "信息量低", "5G症候群"],
              Prescription(["菊花茶", "闭口禅丸"], Some(["内关穴"]))),
    Diagnosis("D006", "算法心悸", ["大数据杀熟", "心率异常", "推荐算法同步"],
              Prescription(["乱序浏览方", "心率重置剂"], Some(["内关穴", "神门穴"]))),
    Diagnosis("D007", "云端湿气", ["记忆混乱", "头重如裹", "云盘同步错误"],
              Prescription(["艾灸包", "手写日记本"], Some(["足三里穴"]))),
    Diagnosis("D008", "防火墙惊悸", ["陌生来电恐惧", "DDoS幻觉", "应激反应"],
              Prescription(["安神补脑液", "TCP连接方"], Some(["神门穴"]))),
    Diagnosis("D009", "二进制干眼", ["眼泪枯竭", "机械快门声", "矩阵视觉"],
              Prescription(["蒸汽眼罩", "枸杞菊花茶"], Some(["睛明穴", "太阳穴"]))),
    Diagnosis("D010", "表情包面瘫", ["现实面瘫", "网络疯狂", "肌肉萎缩"],
              Prescription(["面部训练方", "纯文字疗法"], Some(["太阳穴", "颊车穴"])))
  ]

  const PATIENT_NAMES: seq<string> := [
    "赛博小王", "数据李姐", "算法张哥", "云端小刘",
    "量子陈总", "区块链老赵", "元宇宙小周", "代码小吴",
    "像素小郑", "网络小孙", "虚拟小钱", "全息小朱"
  ]

  const HERBS: seq<string> := [
    "量子枸杞", "纳米当归", "区块链人参", "云端灵芝",
    "5G黄芪", "赛博甘草", "全息何首乌", "神经网络川芎",
    "加密白芍", "算法茯苓", "数据流党参", "像素决明子",
    "代码生姜", "防火墙柴胡", "带宽菊花"
  ]

  const ACUPOINTS: seq<Acupoint> := [
    Acupoint("P001", "百会穴", 50, 10),
    Acupoint("P002", "睛明穴", 45, 20),
    Acupoint("P003", "太阳穴", 40, 22),
    Acupoint("P004", "风池穴", 48, 18),
    Acupoint("P005", "劳宫穴", 30, 60),
    Acupoint("P006", "内关穴", 35, 55),
    Acupoint("P007", "足三里穴", 48, 75),
    Acupoint("P008", "三阴交穴", 50, 85),
    Acupoint("P009", "涌泉穴", 50, 95),
    Acupoint("P010", "神门穴", 32, 58)
  ]

  // GAME_CONFIG
  const INITIAL_COINS: int := 500
  const INITIAL_REPUTATION: int := 0
  /** PATIENCE_DECAY_RATE, 0.5 per tick, in half-points. */
  const PATIENCE_DECAY_RATE: nat := 1
  const MAX_PATIENTS_PER_LEVEL: seq<nat> := [1, 1, 2, 2, 3, 3, 4, 4, 5, 5]
  /** Milliseconds between two spawn ticks, per level. */
  const PATIENT_SPAWN_INTERVAL: seq<nat> := [30000, 25000, 20000, 18000, 15000, 12000, 10000, 8000, 6000, 5000]
  /** Seconds per level; declared but read by no station (the diagnosis station uses a fixed 15). */
  const DIAGNOSIS_TIME_LIMIT: seq<nat> := [15, 15, 12, 12, 10, 10, 8, 8, 6, 6]
  const PERFECT_SCORE_BONUS: int := 100
  const GOOD_SCORE_BONUS: int := 50
  const FAIL_PENALTY: int := -50

  /** The patience of a freshly generated patient (100), in half-points. */
  const FULL_PATIENCE: nat := 200

  /** True iff the diagnosis lists a defined, non-empty set of acupuncture points. */
  predicate NeedsAcupuncture(d: Diagnosis) {
    d.prescription.acupuncturePoints.Some? && |d.prescription.acupuncturePoints.value| > 0
  }

  /** `ds.map(d => d.id)`. */
  function DiagnosisIds(ds: seq<Diagnosis>): (ids: seq<string>)
    ensures |ids| == |ds|
    ensures forall i :: 0 <= i < |ds| ==> ids[i] == ds[i].id
  {
    seq(|ds|, i requires 0 <= i < |ds| => ds[i].id)
  }

  /** The names of the acupoints of the chart, in chart order. */
  function AcupointNames(ps: seq<Acupoint>): (names: seq<string>)
    ensures |names| == |ps|
    ensures forall i :: 0 <= i < |ps| ==> names[i] == ps[i].name
  {
    seq(|ps|, i requires 0 <= i < |ps| => ps[i].name)
  }

  /** The identifiers of all catalogue entries, in catalogue order. */
  function CatalogueIds(): (ids: seq<string>)
    ensures ids == ["D001", "D002", "D003", "D004", "D005", "D006", "D007", "D008", "D009", "D010"]
  {
    DiagnosisIds(DIAGNOSES)
  }

  /** The ids of the chart's acupoints, in chart order. */
  function AcupointIds(ps: seq<Acupoint>): (ids: seq<string>)
    ensures |ids| == |ps|
    ensures forall i :: 0 <= i < |ps| ==> ids[i] == ps[i].id
  {
    seq(|ps|, i requires 0 <= i < |ps| => ps[i].id)
  }

  /** The ids of the chart, in chart order. */
  function ChartIds(): (ids: seq<string>)
    ensures ids == ["P001", "P002", "P003", "P004", "P005", "P006", "P007", "P008", "P009", "P010"]
  {
    AcupointIds(ACUPOINTS)
  }

  /** The point names of the chart, in chart order. */
  function ChartNames(): (names: seq<string>)
    ensures names == ["百会穴", "睛明穴", "太阳穴", "风池穴", "劳宫穴", "内关穴", "足三里穴", "三阴交穴", "涌泉穴", "神门穴"]
  {
    AcupointNames(ACUPOINTS)
  }

  /** The points a diagnosis prescribes; an absent list reads as empty (`acupuncturePoints || []`). */
  function PrescribedPoints(d: Diagnosis): (points: seq<string>)
    ensures d.prescription.acupuncturePoints.Some? ==> points == d.prescription.acupuncturePoints.value
    ensures d.prescription.acupuncturePoints.None? ==> points == []
    ensures |points| > 0 <==> NeedsAcupuncture(d)
  {
    d.prescription.acupuncturePoints.GetOr([])
  }

  /** The prescribed point lists of the catalogue. */
  function CatalogueLists(): (lists: seq<seq<string>>)
    ensures |lists| == |DIAGNOSES| && forall i :: 0 <= i < |DIAGNOSES| ==> lists[i] == PrescribedPoints(DIAGNOSES[i])
  {
    [["睛明穴"], ["劳宫穴"], ["百会穴"], ["百会穴", "风池穴"], ["内关穴"],
     ["内关穴", "神门穴"], ["足三里穴"], ["神门穴"], ["睛明穴", "太阳穴"], ["太阳穴", "颊车穴"]]
  }

  /** The first character of each (non-empty) name. */
  function Initials(names: seq<string>): (cs: seq<char>)
    requires forall i :: 0 <= i < |names| ==> |names[i]| > 0
    ensures |cs| == |names| && forall i :: 0 <= i < |names| ==> cs[i] == names[i][0]
  {
    if names == [] then [] else [names[0][0]] + Initials(names[1..])
  }

  /** The catalogue: ten entries with three symptoms, two herbs and a non-empty point list each. */
  lemma CatalogueShape()
    ensures |DIAGNOSES| == 10
    ensures forall i :: 0 <= i < |DIAGNOSES| ==>
      |DIAGNOSES[i].symptoms| == 3 && |DIAGNOSES[i].prescription.herbs| == 2 && NeedsAcupuncture(DIAGNOSES[i])
  {
  }

  /** The ten identifiers <c>001 .. <c>010 are pairwise distinct. */
  lemma IdsDistinct(ids: seq<string>, c: char)
    requires ids == [[c, '0', '0', '1'], [c, '0', '0', '2'], [c, '0', '0', '3'], [c, '0', '0', '4'], [c, '0', '0', '5'],
                     [c, '0', '0', '6'], [c, '0', '0', '7'], [c, '0', '0', '8'], [c, '0', '0', '9'], [c, '0', '1', '0']]
    ensures Distinct(ids)
  {
    forall i, j | 0 <= i < j < |ids| ensures ids[i] != ids[j] {
      assert ids[i][2] != ids[j][2] || ids[i][3] != ids[j][3];
    }
  }

  /** The catalogue identifiers D001..D010 are pairwise distinct. */
  lemma CatalogueIdsDistinct()
    ensures Distinct(CatalogueIds())
  {
    IdsDistinct(CatalogueIds(), 'D');
  }

  /** With the shipped catalogue every diagnosis needs acupuncture. */
  lemma EveryDiagnosisNeedsAcupuncture(d: Diagnosis)
    requires d in DIAGNOSES
    ensures NeedsAcupuncture(d)
  {
    CatalogueShape();
  }

  /** The per-level tables: ten entries each; caps non-decreasing in 1..5; intervals strictly decreasing and positive. */
  lemma LevelTables()
    ensures |MAX_PATIENTS_PER_LEVEL| == 10 && |PATIENT_SPAWN_INTERVAL| == 10
    ensures forall i :: 0 <= i < 10 ==> 1 <= MAX_PATIENTS_PER_LEVEL[i] <= 5 && PATIENT_SPAWN_INTERVAL[i] > 0
    ensures forall i, j :: 0 <= i < j < 10 ==> MAX_PATIENTS_PER_LEVEL[i] <= MAX_PATIENTS_PER_LEVEL[j]
    ensures forall i, j :: 0 <= i < j < 10 ==> PATIENT_SPAWN_INTERVAL[i] > PATIENT_SPAWN_INTERVAL[j]
  {
  }

  /** Reward tiers are ordered, and a fresh patient outlasts exactly 200 decay ticks. */
  lemma ConfigConstants()
    ensures FAIL_PENALTY < 0 < GOOD_SCORE_BONUS < PERFECT_SCORE_BONUS
    ensures INITIAL_COINS == 500 && INITIAL_REPUTATION == 0
    ensures FULL_PATIENCE / PATIENCE_DECAY_RATE == 200
  {
  }

  /** The literal chart names: pairwise distinct (by their first characters), 颊车穴 not among them. */
  lemma ChartNamesLiteral(names: seq<string>)
    requires names == ["百会穴", "睛明穴", "太阳穴", "风池穴", "劳宫穴", "内关穴", "足三里穴", "三阴交穴", "涌泉穴", "神门穴"]
    ensures Distinct(names) && "颊车穴" !in names
  {
    var initials := Initials(names);
    assert initials == "百睛太风劳内足三涌神";
    forall i, j | 0 <= i < j < |names| ensures names[i] != names[j] {
      assert initials[i] != initials[j];
    }
    assert '颊' !in initials;
  }

  /** The literal prescription lists name only chart points, or 颊车穴. */
  lemma PointListsLiteral(lists: seq<seq<string>>, names: seq<string>)
    requires lists == [["睛明穴"], ["劳宫穴"], ["百会穴"], ["百会穴", "风池穴"], ["内关穴"],
                       ["内关穴", "神门穴"], ["足三里穴"], ["神门穴"], ["睛明穴", "太阳穴"], ["太阳穴", "颊车穴"]]
    requires names == ["百会穴", "睛明穴", "太阳穴", "风池穴", "劳宫穴", "内关穴", "足三里穴", "三阴交穴", "涌泉穴", "神门穴"]
    ensures forall i, k :: 0 <= i < |lists| && 0 <= k < |lists[i]| ==> lists[i][k] == "颊车穴" || lists[i][k] in names
  {
  }

  /** The chart's ids P001..P010 and its point names are pairwise distinct. */
  lemma AcupointsDistinct()
    ensures |ACUPOINTS| == 10
    ensures Distinct(ChartIds())
    ensures Distinct(ChartNames())
  {
    IdsDistinct(ChartIds(), 'P');
    ChartNamesLiteral(ChartNames());
  }

  /** Every point a prescription names is on the chart, except 颊车穴 (D010), which is not. */
  lemma PrescribedPointsOnChart()
    ensures "颊车穴" !in ChartNames()
    ensures forall i, k :: 0 <= i < |DIAGNOSES| && 0 <= k < |PrescribedPoints(DIAGNOSES[i])| ==>
      PrescribedPoints(DIAGNOSES[i])[k] == "颊车穴" || PrescribedPoints(DIAGNOSES[i])[k] in ChartNames()
  {
    ChartNamesLiteral(ChartNames());
    PointListsLiteral(CatalogueLists(), ChartNames());
  }
}
