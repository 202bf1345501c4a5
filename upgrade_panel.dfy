/**
 * The clinic upgrade panel (client/src/components/UpgradePanel.tsx): the cost
 * tables, how each upgrade card derives its current level, maximum level and
 * price from the engine's counters, and the guard in front of upgradeClinic.
 */
module UpgradePanel {
  import opened GameContext

  const DIAGNOSIS_SPEED_COSTS: seq<nat> := [0, 500, 1000, 2000, 4000]
  const PHARMACY_SLOTS_COSTS: seq<nat> := [0, 300, 600, 1200, 2400, 4800]
  const PATIENCE_BOOST_COSTS: seq<nat> := [0, 400, 800, 1600, 3200, 6400]
  const COIN_MULTIPLIER_COSTS: seq<nat> := [0, 1000, 2000, 4000, 8000]

  /** The four cards of the panel; the panel never sends an unrecognised type. */
  type PanelKind = k: UpgradeType | !k.Unrecognised? witness DiagnosisSpeed

  function CostRow(kind: PanelKind): seq<nat> {
    match kind
    case DiagnosisSpeed => DIAGNOSIS_SPEED_COSTS
    case PharmacySlots => PHARMACY_SLOTS_COSTS
    case PatienceBoost => PATIENCE_BOOST_COSTS
    case CoinMultiplier => COIN_MULTIPLIER_COSTS
  }

  /** The card's level: the speed and slot counters as they are, the boost in tens, the multiplier in 0.2 steps. */
  function CurrentLevel(u: Upgrades, kind: PanelKind): (level: nat)
    ensures kind == DiagnosisSpeed ==> level == u.diagnosisSpeed
    ensures kind == PharmacySlots ==> level == u.pharmacySlots
    ensures kind == PatienceBoost ==> 10 * level <= u.patienceBoost < 10 * level + 10
    ensures kind == CoinMultiplier ==> level == u.coinSteps
  {
    match kind
    case DiagnosisSpeed => u.diagnosisSpeed
    case PharmacySlots => u.pharmacySlots
    case PatienceBoost => u.patienceBoost / 10
    case CoinMultiplier => u.coinSteps
  }

  /** The card's maximum level: the length of its cost row, except for the boost, whose row has one entry more. */
  function MaxLevel(kind: PanelKind): (m: nat)
    ensures kind != PatienceBoost ==> m == |CostRow(kind)|
    ensures kind == PatienceBoost ==> m + 1 == |CostRow(kind)|
  {
    if kind == PharmacySlots then 6 else 5
  }

  /** The index into the card's cost row; the slot counter starts at 2, so its index can be negative. */
  function CostIndex(u: Upgrades, kind: PanelKind): (i: int)
    ensures kind == PharmacySlots ==> i == u.pharmacySlots - 2
    ensures kind != PharmacySlots ==> i == CurrentLevel(u, kind)
    ensures UpgradesWithin(u) && !IsMaxLevel(u, kind) ==> 0 <= i < |CostRow(kind)|
  {
    if kind == PharmacySlots then u.pharmacySlots - 2 else CurrentLevel(u, kind)
  }

  /** `row[i] || 0`: the entry when the index is in range, and 0 otherwise. */
  function Lookup(row: seq<nat>, i: int): (c: nat)
    ensures 0 <= i < |row| ==> c == row[i]
    ensures !(0 <= i < |row|) ==> c == 0
    ensures c == 0 || c in row
  {
    if 0 <= i < |row| then row[i] else 0
  }

  /** The card's price: the row entry at the card's index, or 0 past the row; below the maximum level it is always a row entry. */
  function Cost(u: Upgrades, kind: PanelKind): (c: nat)
    ensures 0 <= CostIndex(u, kind) < |CostRow(kind)| ==> c == CostRow(kind)[CostIndex(u, kind)]
    ensures !(0 <= CostIndex(u, kind) < |CostRow(kind)|) ==> c == 0
    ensures UpgradesWithin(u) && !IsMaxLevel(u, kind) ==> c in CostRow(kind)
  {
    Lookup(CostRow(kind), CostIndex(u, kind))
  }

  predicate IsMaxLevel(u: Upgrades, kind: PanelKind) {
    CurrentLevel(u, kind) >= MaxLevel(kind)
  }

  predicate CanAfford(s: GameState, kind: PanelKind) {
    s.coins >= Cost(s.upgrades, kind)
  }

  /**
   * handleUpgrade: the purchase goes through to upgradeClinic, at the card's
   * price, only when the player can afford it and the card is below its
   * maximum; otherwise the game state is untouched.
   */
  function HandleUpgrade(s: GameState, kind: PanelKind): (r: GameState)
    ensures CanAfford(s, kind) && !IsMaxLevel(s.upgrades, kind) ==> r == Upgraded(s, kind, Cost(s.upgrades, kind))
    ensures !CanAfford(s, kind) || IsMaxLevel(s.upgrades, kind) ==> r == s
    ensures r != s ==> s.coins >= Cost(s.upgrades, kind) && CurrentLevel(s.upgrades, kind) < MaxLevel(kind)
  {
    if s.coins >= Cost(s.upgrades, kind) && CurrentLevel(s.upgrades, kind) < MaxLevel(kind)
    then Upgraded(s, kind, Cost(s.upgrades, kind))
    else s
  }

  /** From the starting counters the first speed upgrade costs 500 and the other three cost nothing. */
  lemma FirstPurchasePrices()
    ensures Cost(INITIAL_UPGRADES, DiagnosisSpeed) == 500
    ensures Cost(INITIAL_UPGRADES, PharmacySlots) == 0
    ensures Cost(INITIAL_UPGRADES, PatienceBoost) == 0
    ensures Cost(INITIAL_UPGRADES, CoinMultiplier) == 0
  {
  }

  /**
   * A purchase the panel lets through always raises the card's level by one
   * and takes exactly the displayed price: coins are never spent without effect.
   */
  lemma AllowedPurchaseRaisesLevel(s: GameState, kind: PanelKind)
    requires CanAfford(s, kind) && !IsMaxLevel(s.upgrades, kind)
    ensures HandleUpgrade(s, kind).coins == s.coins - Cost(s.upgrades, kind)
    ensures CurrentLevel(HandleUpgrade(s, kind).upgrades, kind) == CurrentLevel(s.upgrades, kind) + 1
  {
    var u := s.upgrades;
    if kind == PatienceBoost {
      assert (u.patienceBoost + 10) / 10 == u.patienceBoost / 10 + 1;
    }
  }

  /** The panel keeps every card within its maximum level. */
  lemma HandleUpgradeKeepsLevelWithinMax(s: GameState, kind: PanelKind, other: PanelKind)
    requires CurrentLevel(s.upgrades, other) <= MaxLevel(other)
    ensures CurrentLevel(HandleUpgrade(s, kind).upgrades, other) <= MaxLevel(other)
  {
    var u := s.upgrades;
    if kind == PatienceBoost && other == PatienceBoost && HandleUpgrade(s, kind) != s {
      assert (u.patienceBoost + 10) / 10 == u.patienceBoost / 10 + 1;
    }
  }

  /** Each cost row is non-decreasing. */
  lemma CostRowsNonDecreasing(kind: PanelKind, i: nat, j: nat)
    requires i <= j < |CostRow(kind)|
    ensures CostRow(kind)[i] <= CostRow(kind)[j]
  {
  }

  /**
   * Within the engine's bounds the price of an allowed purchase comes from the
   * first entries of the row only: the last slot and boost prices (2400, 4800
   * and 6400) are never charged.
   */
  lemma ChargedPricesAtMost(u: Upgrades, kind: PanelKind)
    requires UpgradesWithin(u) && !IsMaxLevel(u, kind)
    ensures kind == PharmacySlots ==> Cost(u, kind) <= 1200
    ensures kind == PatienceBoost ==> Cost(u, kind) <= 3200
    ensures kind == DiagnosisSpeed ==> 500 <= Cost(u, kind) <= 4000
    ensures kind == CoinMultiplier ==> Cost(u, kind) <= 8000
  {
  }
}
