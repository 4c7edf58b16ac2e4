/** The commission structure panel (src/components/CommissionLevels.tsx): which tier a volume
    falls in, the base and total rates of a tier, and editing a tier with the change kept only
    once the store has accepted it. */
module CommissionLevels {
  import opened Wrappers
  import opened SalesTypes
  import opened Database

  /** The `find` test: the volume lies within the tier's inclusive bounds. */
  predicate InTier(level: CommissionLevel, currentVolume: real) {
    currentVolume >= level.minAmount && currentVolume <= level.maxAmount
  }

  /** `getCurrentLevel`: the first tier, in list order, whose bounds contain the volume. */
  function GetCurrentLevel(levels: seq<CommissionLevel>, currentVolume: real): (r: Option<CommissionLevel>)
    ensures r.None? <==> forall i :: 0 <= i < |levels| ==> !InTier(levels[i], currentVolume)
    ensures r.Some? ==> exists i :: 0 <= i < |levels| && levels[i] == r.value && InTier(levels[i], currentVolume)
                                    && forall j :: 0 <= j < i ==> !InTier(levels[j], currentVolume)
  {
    if |levels| == 0 then None
    else if InTier(levels[0], currentVolume) then Some(levels[0])
    else
      var r := GetCurrentLevel(levels[1..], currentVolume);
      assert forall i :: 0 < i < |levels| ==> levels[i] == levels[1..][i - 1];
      r
  }

  /** `getBaseCommission(minAmount)`: 6 from 50000 up, 5 from 20000 up, 4 below. */
  function GetBaseCommission(minAmount: real): (r: real)
    ensures r == 4.0 || r == 5.0 || r == 6.0
  {
    if minAmount >= 50000.0 then 6.0
    else if minAmount >= 20000.0 then 5.0
    else 4.0
  }

  /** The base rate never falls as the tier's lower bound rises, and which rate applies is
      decided by the two thresholds. */
  lemma BaseCommissionSteps(a: real, b: real)
    requires a <= b
    ensures GetBaseCommission(a) <= GetBaseCommission(b)
    ensures GetBaseCommission(a) == 6.0 <==> a >= 50000.0
    ensures GetBaseCommission(a) == 4.0 <==> a < 20000.0
  {
  }

  /** `getTotalCommission(level)`: the tier's base rate plus its additional percentage. */
  function GetTotalCommission(level: CommissionLevel): real {
    GetBaseCommission(level.minAmount) + level.additionalCommission
  }

  /** For any tier the total rate is its additional percentage plus 4 to 6: exactly 6 more from
      a lower bound of 50000, and exactly 4 more below 20000. */
  lemma TotalCommissionBounds(level: CommissionLevel)
    ensures var a := level.additionalCommission;
            && 4.0 + a <= GetTotalCommission(level) <= 6.0 + a
            && (GetTotalCommission(level) == 6.0 + a <==> level.minAmount >= 50000.0)
            && (GetTotalCommission(level) == 4.0 + a <==> level.minAmount < 20000.0)
  {
    BaseCommissionSteps(level.minAmount, level.minAmount);
  }

  /** A tier with a higher lower bound and no smaller additional percentage never has a lower
      total rate. */
  lemma TotalCommissionMonotone(lower: CommissionLevel, higher: CommissionLevel)
    requires lower.minAmount <= higher.minAmount
    requires lower.additionalCommission <= higher.additionalCommission
    ensures GetTotalCommission(lower) <= GetTotalCommission(higher)
  {
    BaseCommissionSteps(lower.minAmount, higher.minAmount);
  }

  /** Every default tier starts above 50000, so its base rate is 6 and its total is 6 plus its
      additional percentage: 7, 8, 9, 9.5, 10, 11, 11.5 and 12, rising along the table. */
  lemma DefaultTotals(i: int, j: int)
    requires 0 <= i < j < |DefaultCommissionLevels|
    ensures GetBaseCommission(DefaultCommissionLevels[i].minAmount) == 6.0
    ensures GetTotalCommission(DefaultCommissionLevels[i]) == 6.0 + DefaultCommissionLevels[i].additionalCommission
    ensures GetTotalCommission(DefaultCommissionLevels[i]) < GetTotalCommission(DefaultCommissionLevels[j])
  {
    DefaultLevelsShape();
  }

  /** Any whole-dollar volume from 162500 to 999999999 lies in exactly one default tier, which
      the lookup returns. */
  lemma DefaultTierUnique(v: int)
    requires 162500 <= v <= 999999999
    ensures exists i :: 0 <= i < |DefaultCommissionLevels| && InTier(DefaultCommissionLevels[i], v as real)
    ensures forall i, j ::
              (0 <= i < |DefaultCommissionLevels| && 0 <= j < |DefaultCommissionLevels|
               && InTier(DefaultCommissionLevels[i], v as real) && InTier(DefaultCommissionLevels[j], v as real)) ==> i == j
    ensures GetCurrentLevel(DefaultCommissionLevels, v as real).Some?
  {
    var d := DefaultCommissionLevels;
    var x := v as real;
    if v <= 243749 { assert InTier(d[0], x); }
    else if v <= 324999 { assert InTier(d[1], x); }
    else if v <= 406249 { assert InTier(d[2], x); }
    else if v <= 487499 { assert InTier(d[3], x); }
    else if v <= 584999 { assert InTier(d[4], x); }
    else if v <= 682499 { assert InTier(d[5], x); }
    else if v <= 893749 { assert InTier(d[6], x); }
    else { assert InTier(d[7], x); }
  }

  /** Volumes below 162500 or above 999999999 are in no default tier. */
  lemma DefaultOutsideRange(v: real)
    requires v < 162500.0 || v > 999999999.0
    ensures GetCurrentLevel(DefaultCommissionLevels, v) == None
  {
  }

  /** A tier table in ascending order: each tier within its bounds, each ending below where
      the next begins. */
  predicate Ascending(levels: seq<CommissionLevel>) {
    && (forall k :: 0 <= k < |levels| ==> levels[k].minAmount <= levels[k].maxAmount)
    && (forall k :: 0 < k < |levels| ==> levels[k - 1].maxAmount < levels[k].minAmount)
  }

  /** Along an ascending table both bounds rise. */
  lemma {:induction false} AscendingBounds(levels: seq<CommissionLevel>, a: int, b: int)
    requires Ascending(levels) && 0 <= a <= b < |levels|
    ensures levels[a].maxAmount <= levels[b].maxAmount && levels[a].minAmount <= levels[b].minAmount
    decreases b - a
  {
    if a < b {
      AscendingBounds(levels, a + 1, b);
      assert levels[a].maxAmount < levels[a + 1].minAmount;
    }
  }

  /** In an ascending table, a volume strictly between one tier's upper bound and the next
      tier's lower bound lies in no tier. */
  lemma AscendingGap(levels: seq<CommissionLevel>, i: int, v: real)
    requires Ascending(levels)
    requires 0 <= i < |levels| - 1
    requires levels[i].maxAmount < v < levels[i + 1].minAmount
    ensures GetCurrentLevel(levels, v) == None
  {
    forall k | 0 <= k < |levels| ensures !InTier(levels[k], v) {
      if k <= i {
        AscendingBounds(levels, k, i);
      } else {
        AscendingBounds(levels, i + 1, k);
      }
    }
  }

  /** In an ascending table no volume lies in two tiers, so the first match is the only one. */
  lemma AscendingUnique(levels: seq<CommissionLevel>, v: real, i: int, j: int)
    requires Ascending(levels)
    requires 0 <= i < j < |levels| && InTier(levels[i], v)
    ensures !InTier(levels[j], v)
  {
    AscendingBounds(levels, i + 1, j);
  }

  lemma DefaultAscending()
    ensures Ascending(DefaultCommissionLevels)
  {
    DefaultLevelsShape();
  }

  /** Between one default tier's upper bound and the next tier's lower bound lies a gap of
      fractional volumes that no tier contains: 243749.50, for instance, has no level. */
  lemma DefaultTierGaps(i: int, v: real)
    requires 0 <= i < |DefaultCommissionLevels| - 1
    requires DefaultCommissionLevels[i].maxAmount < v < DefaultCommissionLevels[i + 1].minAmount
    ensures GetCurrentLevel(DefaultCommissionLevels, v) == None
  {
    DefaultAscending();
    AscendingGap(DefaultCommissionLevels, i, v);
  }

  lemma HalfDollarGap()
    ensures GetCurrentLevel(DefaultCommissionLevels, 243749.5) == None
  {
    DefaultTierGaps(0, 243749.5);
  }

  /** The `map` in `handleSave`: tiers whose level is the edited one become the edited tier. */
  function ReplaceLevel(levels: seq<CommissionLevel>, editForm: CommissionLevel): (r: seq<CommissionLevel>)
    ensures |r| == |levels|
  {
    if |levels| == 0 then []
    else [if levels[0].level == editForm.level then editForm else levels[0]] + ReplaceLevel(levels[1..], editForm)
  }

  /** Same length and order; a tier with the edited level is replaced by the edited tier, every
      other tier is kept. */
  lemma {:induction false} ReplaceLevelAt(levels: seq<CommissionLevel>, editForm: CommissionLevel, i: int)
    requires 0 <= i < |levels|
    ensures ReplaceLevel(levels, editForm)[i] == if levels[i].level == editForm.level then editForm else levels[i]
    decreases |levels|
  {
    if i > 0 {
      ReplaceLevelAt(levels[1..], editForm, i - 1);
    }
  }

  /** Saving the same edit twice is saving it once. */
  lemma {:induction false} ReplaceLevelIdempotent(levels: seq<CommissionLevel>, editForm: CommissionLevel)
    ensures ReplaceLevel(ReplaceLevel(levels, editForm), editForm) == ReplaceLevel(levels, editForm)
    decreases |levels|
  {
    if |levels| > 0 {
      ReplaceLevelIdempotent(levels[1..], editForm);
      assert ReplaceLevel(levels, editForm)[1..] == ReplaceLevel(levels[1..], editForm);
    }
  }

  /** An edit whose level matches no tier leaves the list as it was. */
  lemma {:induction false} ReplaceAbsentLevel(levels: seq<CommissionLevel>, editForm: CommissionLevel)
    requires forall i :: 0 <= i < |levels| ==> levels[i].level != editForm.level
    ensures ReplaceLevel(levels, editForm) == levels
    decreases |levels|
  {
    if |levels| > 0 {
      ReplaceAbsentLevel(levels[1..], editForm);
      assert levels == [levels[0]] + levels[1..];
    }
  }

  /** The panel's state for one project: the tier being edited, the tiers shown, and the
      edit form. */
  class CommissionLevelsPanel {
    var editingLevel: Option<int>
    var commissionLevels: seq<CommissionLevel>
    var editForm: Option<CommissionLevel>
    const projectId: int

    constructor(projectId: int)
      ensures this.projectId == projectId
      ensures editingLevel == None && commissionLevels == [] && editForm == None
    {
      this.projectId := projectId;
      editingLevel := None;
      commissionLevels := [];
      editForm := None;
    }

    /** The effect that copies the project's tiers into the panel once the project is loaded. */
    method SyncFromProject(db: SalesDatabase)
      modifies this
      ensures match FindIndex(db.projects, projectId)
              case None => commissionLevels == old(commissionLevels)
              case Some(i) => commissionLevels == db.projects[i].commissionLevels
      ensures editingLevel == old(editingLevel) && editForm == old(editForm)
    {
      var project := FindIndex(db.projects, projectId);
      if project.Some? {
        commissionLevels := db.projects[project.value].commissionLevels;
      }
    }

    /** `handleEdit(level)`: start editing that tier, with a copy of it in the form. */
    method HandleEdit(level: CommissionLevel)
      modifies this
      ensures editingLevel == Some(level.level) && editForm == Some(level)
      ensures commissionLevels == old(commissionLevels)
    {
      editingLevel := Some(level.level);
      editForm := Some(level);
    }

    /** The cancel button: stop editing, keep the tiers. */
    method CancelEdit()
      modifies this
      ensures editingLevel == None && editForm == None
      ensures commissionLevels == old(commissionLevels)
    {
      editingLevel := None;
      editForm := None;
    }

    /** `handleSave`: without a form nothing happens; otherwise the updated list is sent to the
        store, and the panel takes it and leaves edit mode only when the store accepts it. */
    method HandleSave(db: SalesDatabase, monthName: string, now: string) returns (saved: bool)
      requires db.Valid()
      modifies this, db
      ensures db.Valid()
      ensures old(editForm).None? ==>
                && !saved
                && db.State() == old(db.State())
                && editingLevel == old(editingLevel) && commissionLevels == old(commissionLevels)
                && editForm == old(editForm)
      ensures old(editForm).Some? ==>
                var updatedLevels := ReplaceLevel(old(commissionLevels), old(editForm).value);
                var u := AfterUpdateLevels(old(db.State()), projectId, updatedLevels, monthName, now);
                && db.State() == u.tables
                && saved == u.outcome.Success?
                && (saved ==> commissionLevels == updatedLevels && editingLevel == None && editForm == None)
                && (!saved ==> commissionLevels == old(commissionLevels) && editingLevel == old(editingLevel)
                               && editForm == old(editForm))
    {
      saved := false;
      if editForm.None? {
        return;
      }
      var updatedLevels := ReplaceLevel(commissionLevels, editForm.value);
      var outcome := db.UpdateCommissionLevels(projectId, updatedLevels, monthName, now);
      if outcome.Success? {
        commissionLevels := updatedLevels;
        editingLevel := None;
        editForm := None;
        saved := true;
      }
    }
  }
}
