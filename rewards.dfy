/** The reward tables of game.js: the closed set of reward identities, the
    player-editable ("UI") weight table, the "applied" table that level
    generation reads, the commit from one to the other on restart, the pick
    list and the cumulative weighted draw. */
module Rewards {
  import opened Util

  /** POWER_TYPES: the seven real rewards and the explicit "no reward"
      identity (`'none'` in the source). */
  datatype PowerId = Expand | Multi | Pierce | Laser | Life | Slow | Sticky | NoDrop

  /** POWER_TYPES in declaration order. */
  const PowerTypes: seq<PowerId> := [Expand, Multi, Pierce, Laser, Life, Slow, Sticky, NoDrop]

  /** `POWER_TYPES.filter(p => p.id !== 'none')`. */
  const RealPowers: seq<PowerId> := [Expand, Multi, Pierce, Laser, Life, Slow, Sticky]

  type Weights = map<PowerId, int>
  type Flags = map<PowerId, bool>

  /** `table[id] || 0`: a missing entry reads as weight 0. */
  function Chance(t: Weights, id: PowerId): int {
    if id in t then t[id] else 0
  }

  /** `!!flags[id]`: a missing entry reads as disabled. */
  predicate Enabled(f: Flags, id: PowerId) {
    id in f && f[id]
  }

  lemma PowerTypesComplete(id: PowerId)
    ensures id in PowerTypes
    ensures id != NoDrop ==> id in RealPowers
    ensures PowerTypes == RealPowers + [NoDrop]
  {
  }

  /** Sum of the weights of `ids` in table `t`. */
  function TableSum(ids: seq<PowerId>, t: Weights): int {
    if ids == [] then 0 else Chance(t, ids[0]) + TableSum(ids[1..], t)
  }

  lemma {:induction false} TableSumAppend(a: seq<PowerId>, b: seq<PowerId>, t: Weights)
    ensures TableSum(a + b, t) == TableSum(a, t) + TableSum(b, t)
  {
    if a == [] {
      assert a + b == b;
    } else {
      assert (a + b)[1..] == a[1..] + b;
      TableSumAppend(a[1..], b, t);
    }
  }

  lemma {:induction false} TableSumNonNeg(ids: seq<PowerId>, t: Weights)
    requires forall id :: id in t ==> t[id] >= 0
    ensures TableSum(ids, t) >= 0
  {
    if ids != [] {
      TableSumNonNeg(ids[1..], t);
    }
  }

  /** A nonempty list of positive weights has a positive total, so a
      pick from it never comes back empty. */
  lemma {:induction false} PositiveListSum(list: seq<PowerId>, t: Weights)
    requires forall k :: 0 <= k < |list| ==> Chance(t, list[k]) > 0
    ensures TableSum(list, t) >= |list|
  {
    if list != [] {
      assert forall k :: 0 <= k < |list[1..]| ==> Chance(t, list[1..][k]) > 0 by {
        forall k | 0 <= k < |list[1..]| ensures Chance(t, list[1..][k]) > 0 {
          assert list[1..][k] == list[k + 1];
        }
      }
      PositiveListSum(list[1..], t);
    }
  }

  /** Every entry present and every weight non-negative. */
  predicate NonNegTable(t: Weights) {
    forall id :: id in t ==> t[id] >= 0
  }

  /** The flags every identity starts with: all enabled. */
  function AllEnabled(): (f: Flags)
    ensures forall id :: Enabled(f, id)
  {
    PowerTypesCompleteAll();
    map id | id in PowerTypes :: true
  }

  /** `applyDefaultChances`: each real reward gets floor(100 / (7 + 1)) and
      "no reward" the remainder. */
  function DefaultChances(): (t: Weights)
    ensures forall id :: id in t
    ensures forall id :: id != NoDrop ==> t[id] == 12
    ensures t[NoDrop] == 16
  {
    PowerTypesCompleteAll();
    var base := 100 / (|RealPowers| + 1);
    map id | id in PowerTypes :: if id == NoDrop then 100 - base * |RealPowers| else base
  }

  /** The default table totals exactly 100. */
  lemma DefaultChancesTotal()
    ensures TableSum(PowerTypes, DefaultChances()) == 100
  {
    DefaultShapeTotal(DefaultChances());
  }

  /** Any table shaped like the default one (12 for each real reward, 16
      for "no reward") totals 100 over the listed identities. */
  lemma DefaultShapeTotal(t: Weights)
    requires forall id :: id in t
    requires forall id :: id != NoDrop ==> t[id] == 12
    requires t[NoDrop] == 16
    ensures TableSum(PowerTypes, t) == 100
  {
    PowerTypesComplete(NoDrop);
    TableSumAppend(RealPowers, [NoDrop], t);
    assert forall k :: 0 <= k < |RealPowers| ==> Chance(t, RealPowers[k]) == 12;
    TableSumUniform(RealPowers, t, 12);
    assert TableSum([NoDrop], t) == t[NoDrop] + TableSum([], t);
  }

  lemma {:induction false} TableSumUniform(ids: seq<PowerId>, t: Weights, v: int)
    requires forall k :: 0 <= k < |ids| ==> Chance(t, ids[k]) == v
    ensures TableSum(ids, t) == v * |ids|
  {
    if ids != [] {
      TableSumUniform(ids[1..], t, v);
    }
  }

  /** `sumRealEnabledChancesUI` as a specification: the weights of the
      enabled identities of `ids`, skipping "no reward". */
  function RealEnabledSum(ids: seq<PowerId>, en: Flags, ch: Weights): int {
    if ids == [] then 0
    else (if ids[0] != NoDrop && Enabled(en, ids[0]) then Chance(ch, ids[0]) else 0)
         + RealEnabledSum(ids[1..], en, ch)
  }

  /** The applied flag a successful commit writes for `id`: a copy of the
      UI flag, with "no reward" always enabled. */
  function CommittedFlag(en: Flags, id: PowerId): bool {
    id == NoDrop || Enabled(en, id)
  }

  /** The applied weight a successful commit writes for `id`: an enabled
      real reward copies its UI weight, a disabled one gets 0, and "no
      reward" gets the remainder up to 100. */
  function CommittedChance(en: Flags, ch: Weights, id: PowerId): int {
    if id == NoDrop then 100 - RealEnabledSum(PowerTypes, en, ch)
    else if Enabled(en, id) then Chance(ch, id) else 0
  }

  /** The whole applied flag table a successful commit writes. */
  function CommitEnabled(en: Flags): (f: Flags)
    ensures forall id :: id in f && f[id] == CommittedFlag(en, id)
  {
    PowerTypesCompleteAll();
    map id | id in PowerTypes :: CommittedFlag(en, id)
  }

  /** The whole applied weight table a successful commit writes. */
  function CommitChances(en: Flags, ch: Weights): (t: Weights)
    ensures forall id :: id in t && t[id] == CommittedChance(en, ch, id)
  {
    PowerTypesCompleteAll();
    map id | id in PowerTypes :: CommittedChance(en, ch, id)
  }

  /** Two full tables that agree on every listed identity are equal. */
  lemma AgreeOnPowerTypes<V>(a: map<PowerId, V>, b: map<PowerId, V>)
    requires forall id :: id in a && id in b
    requires forall id :: id in PowerTypes ==> a[id] == b[id]
    ensures a == b
  {
    PowerTypesCompleteAll();
  }

  lemma PowerTypesCompleteAll()
    ensures forall id: PowerId :: id in PowerTypes
  {
    forall id: PowerId ensures id in PowerTypes {
      PowerTypesComplete(id);
    }
  }

  lemma {:induction false} CommitSumOverReal(ids: seq<PowerId>, en: Flags, ch: Weights)
    requires NoDrop !in ids
    ensures TableSum(ids, CommitChances(en, ch)) == RealEnabledSum(ids, en, ch)
  {
    if ids != [] {
      CommitSumOverReal(ids[1..], en, ch);
    }
  }

  /** Weight commit: whatever the UI table holds, the committed weights
      total exactly 100, "no reward" takes 100 minus the enabled real
      weights, disabled rewards weigh 0 and enabled ones keep their UI
      weight. */
  lemma CommitTotalsHundred(en: Flags, ch: Weights)
    ensures var t := CommitChances(en, ch);
      && TableSum(PowerTypes, t) == 100
      && t[NoDrop] == 100 - RealEnabledSum(PowerTypes, en, ch)
      && (forall id :: id != NoDrop && !Enabled(en, id) ==> t[id] == 0)
      && (forall id :: id != NoDrop && Enabled(en, id) ==> t[id] == Chance(ch, id))
  {
    var t := CommitChances(en, ch);
    PowerTypesComplete(NoDrop);
    TableSumAppend(RealPowers, [NoDrop], t);
    CommitSumOverReal(RealPowers, en, ch);
    RealEnabledSumAppend(RealPowers, [NoDrop], en, ch);
  }

  lemma {:induction false} RealEnabledSumAppend(a: seq<PowerId>, b: seq<PowerId>, en: Flags, ch: Weights)
    ensures RealEnabledSum(a + b, en, ch) == RealEnabledSum(a, en, ch) + RealEnabledSum(b, en, ch)
  {
    if a == [] {
      assert a + b == b;
    } else {
      assert (a + b)[1..] == a[1..] + b;
      RealEnabledSumAppend(a[1..], b, en, ch);
    }
  }

  /** An identity can be drawn when its applied weight is positive and, for
      a real reward, it is enabled in the applied flags. */
  predicate Eligible(en: Flags, ch: Weights, id: PowerId) {
    (id == NoDrop || Enabled(en, id)) && Chance(ch, id) > 0
  }

  /** `enabledPowerListForPickApplied` over `ids`: the eligible identities,
      in order. */
  function PickList(ids: seq<PowerId>, en: Flags, ch: Weights): (l: seq<PowerId>)
    ensures forall id :: id in l <==> id in ids && Eligible(en, ch, id)
    ensures forall k :: 0 <= k < |l| ==> Chance(ch, l[k]) > 0
    ensures |l| <= |ids|
  {
    if ids == [] then []
    else (if Eligible(en, ch, ids[0]) then [ids[0]] else []) + PickList(ids[1..], en, ch)
  }

  lemma {:induction false} PickListWeight(ids: seq<PowerId>, en: Flags, ch: Weights)
    requires NonNegTable(ch)
    requires forall id :: id in ids && id != NoDrop ==> (Enabled(en, id) || Chance(ch, id) == 0)
    ensures TableSum(PickList(ids, en, ch), ch) == TableSum(ids, ch)
  {
    if ids != [] {
      assert ids[0] in ids;
      PickListWeight(ids[1..], en, ch);
      var head := if Eligible(en, ch, ids[0]) then [ids[0]] else [];
      assert PickList(ids, en, ch) == head + PickList(ids[1..], en, ch);
      TableSumAppend(head, PickList(ids[1..], en, ch), ch);
      if Eligible(en, ch, ids[0]) {
        assert TableSum(head, ch) == Chance(ch, ids[0]);
      } else {
        assert Chance(ch, ids[0]) == 0;
      }
    }
  }

  /** After a successful commit the draw at level build is over a list
      whose weights total exactly 100 (given non-negative UI weights whose
      enabled sum is at most 100, which the commit demands). */
  lemma CommittedPickListTotalsHundred(en: Flags, ch: Weights)
    requires NonNegTable(ch)
    requires RealEnabledSum(PowerTypes, en, ch) <= 100
    ensures TableSum(PickList(PowerTypes, CommitEnabled(en), CommitChances(en, ch)), CommitChances(en, ch)) == 100
  {
    var t := CommitChances(en, ch);
    CommitTotalsHundred(en, ch);
    assert NonNegTable(t);
    PickListWeight(PowerTypes, CommitEnabled(en), t);
  }

  // ---------------------------------------------------------------------
  // The cumulative weighted draw
  // ---------------------------------------------------------------------

  /** Running prefix sum of the first `k` weights of `list`. */
  function Prefix(list: seq<PowerId>, ch: Weights, k: nat): int
    requires k <= |list|
  {
    TableSum(list[..k], ch)
  }

  lemma PrefixStep(list: seq<PowerId>, ch: Weights, k: nat)
    requires k < |list|
    ensures Prefix(list, ch, k + 1) == Prefix(list, ch, k) + Chance(ch, list[k])
  {
    assert list[..k + 1] == list[..k] + [list[k]];
    TableSumAppend(list[..k], [list[k]], ch);
  }

  lemma PrefixFull(list: seq<PowerId>, ch: Weights)
    ensures Prefix(list, ch, |list|) == TableSum(list, ch)
  {
    assert list[..|list|] == list;
  }

  /** Sample `r` falls in the band of list position `k`: the first position
      whose running prefix sum reaches `r`. */
  predicate InBand(list: seq<PowerId>, ch: Weights, k: nat, r: real)
    requires k < |list|
  {
    (k == 0 || (Prefix(list, ch, k) as real) < r) && r <= Prefix(list, ch, k + 1) as real
  }

  predicate NonNegList(list: seq<PowerId>, ch: Weights) {
    forall k :: 0 <= k < |list| ==> Chance(ch, list[k]) >= 0
  }

  lemma {:induction false} PrefixMonotone(list: seq<PowerId>, ch: Weights, i: nat, j: nat)
    requires NonNegList(list, ch)
    requires i <= j <= |list|
    ensures Prefix(list, ch, i) <= Prefix(list, ch, j)
    decreases j - i
  {
    if i < j {
      PrefixStep(list, ch, i);
      PrefixMonotone(list, ch, i + 1, j);
    }
  }

  /** Bands of non-negative weights never overlap, so the draw is a function
      of the sample. */
  lemma BandUnique(list: seq<PowerId>, ch: Weights, k: nat, m: nat, r: real)
    requires NonNegList(list, ch)
    requires k < |list| && m < |list|
    requires InBand(list, ch, k, r) && InBand(list, ch, m, r)
    ensures k == m
  {
    if k < m {
      PrefixMonotone(list, ch, k + 1, m);
    } else if m < k {
      PrefixMonotone(list, ch, m + 1, k);
    }
  }

  /** Every sample in [0, total) lies in some band, so the fallback to the
      last element is never what decides the draw. */
  lemma {:induction false} BandExists(list: seq<PowerId>, ch: Weights, r: real, n: nat)
    requires NonNegList(list, ch)
    requires 0 < n <= |list|
    requires 0.0 <= r <= Prefix(list, ch, n) as real
    ensures exists k :: 0 <= k < n && InBand(list, ch, k, r)
  {
    if n == 1 {
      assert InBand(list, ch, 0, r);
    } else if r <= Prefix(list, ch, n - 1) as real {
      BandExists(list, ch, r, n - 1);
    } else {
      assert InBand(list, ch, n - 1, r);
    }
  }

  /** Under a uniform sample, position `k` is drawn with probability
      weight / total: its band is an interval of width exactly its weight. */
  lemma BandWidth(list: seq<PowerId>, ch: Weights, k: nat)
    requires k < |list|
    ensures Prefix(list, ch, k + 1) - Prefix(list, ch, k) == Chance(ch, list[k])
  {
    PrefixStep(list, ch, k);
  }

  /** The walk of the second loop of `weightedPickApplied` from position
      `i`, with `r` left of the sample: the weight of each position is taken
      off in turn, and the first position that brings it to 0 or below is
      drawn. None when the walk runs off the end. */
  function Walk(list: seq<PowerId>, ch: Weights, r: real, i: nat): (w: Option<PowerId>)
    requires i <= |list|
    ensures w.Some? ==> w.value in list
    decreases |list| - i
  {
    if i == |list| then None
    else if r - Chance(ch, list[i]) as real <= 0.0 then Some(list[i])
    else Walk(list, ch, r - Chance(ch, list[i]) as real, i + 1)
  }

  /** The whole second loop for the sample `r0`: the walk, falling back to
      the last element. */
  function Scan(list: seq<PowerId>, ch: Weights, r0: real): (p: PowerId)
    requires |list| >= 1
    ensures p in list
  {
    match Walk(list, ch, r0, 0)
    case Some(q) => q
    case None => list[|list| - 1]
  }

  /** `weightedPickApplied(list)` for the uniform sample `u` of
      `Math.random()`: nothing when the total weight is not positive,
      otherwise the scan of `u * total`. */
  function Draw(list: seq<PowerId>, ch: Weights, u: real): (d: Option<PowerId>)
    ensures d.None? <==> TableSum(list, ch) <= 0
    ensures d.Some? ==> d.value in list
  {
    var total := TableSum(list, ch);
    if total <= 0 then None
    else Some(Scan(list, ch, Sample(u, total)))
  }

  /** With non-negative weights, the walk from position `i` ends in the
      band holding the sample, when every band before it lies below the
      sample. */
  lemma {:induction false} WalkFindsBand(list: seq<PowerId>, ch: Weights, r0: real, i: nat, k: nat)
    requires NonNegList(list, ch)
    requires i <= k < |list| && InBand(list, ch, k, r0)
    ensures Walk(list, ch, r0 - Prefix(list, ch, i) as real, i) == Some(list[k])
    decreases k - i
  {
    PrefixStep(list, ch, i);
    var rest := r0 - Prefix(list, ch, i) as real - Chance(ch, list[i]) as real;
    assert rest == r0 - Prefix(list, ch, i + 1) as real;
    if i < k {
      PrefixMonotone(list, ch, i + 1, k);
      WalkFindsBand(list, ch, r0, i + 1, k);
    }
  }

  /** The draw is the element whose band holds the sample `u * total`: a
      sample in [0, 1) never reaches the fallback. */
  lemma DrawInBand(list: seq<PowerId>, ch: Weights, u: real, k: nat)
    requires NonNegList(list, ch) && 0.0 <= u < 1.0 && TableSum(list, ch) > 0
    requires k < |list| && InBand(list, ch, k, Sample(u, TableSum(list, ch)))
    ensures Draw(list, ch, u) == Some(list[k])
  {
    var r0 := Sample(u, TableSum(list, ch));
    assert list[..0] == [];
    WalkFindsBand(list, ch, r0, 0, k);
    assert r0 - Prefix(list, ch, 0) as real == r0;
  }

  /** `weightedPickApplied(list)` with `Math.random()` passed in as `u`:
      the draw of `u`. Returns None exactly when the list's total weight is
      not positive; otherwise a member of the list, namely the element
      whose band holds the sample `u * total`. */
  method WeightedPick(list: seq<PowerId>, ch: Weights, u: real) returns (picked: Option<PowerId>)
    ensures picked == Draw(list, ch, u)
    ensures picked.None? <==> TableSum(list, ch) <= 0
    ensures picked.Some? ==> picked.value in list
    ensures NonNegList(list, ch) && 0.0 <= u < 1.0 && TableSum(list, ch) > 0 ==>
      forall k :: 0 <= k < |list| && InBand(list, ch, k, Sample(u, TableSum(list, ch))) ==>
        picked == Some(list[k])
  {
    var sum := 0;
    for i := 0 to |list|
      invariant sum == Prefix(list, ch, i)
    {
      PrefixStep(list, ch, i);
      sum := sum + Chance(ch, list[i]);
    }
    PrefixFull(list, ch);
    assert sum == TableSum(list, ch);
    if sum <= 0 {
      return None;
    }
    var p := ScanBands(list, ch, Sample(u, sum));
    picked := Some(p);
    if NonNegList(list, ch) && 0.0 <= u < 1.0 {
      forall k | 0 <= k < |list| && InBand(list, ch, k, Sample(u, sum)) ensures picked == Some(list[k]) {
        DrawInBand(list, ch, u, k);
      }
    }
  }

  /** The point `Math.random() * total` that the draw walks down the bands. */
  function Sample(u: real, total: int): real {
    u * total as real
  }

  /** The second loop of `weightedPickApplied`: the sample `r0` is walked
      down the bands of the list; it stops at the first band whose end
      reaches `r0` and otherwise falls back to the last element. */
  method ScanBands(list: seq<PowerId>, ch: Weights, r0: real) returns (p: PowerId)
    requires |list| >= 1
    ensures p == Scan(list, ch, r0)
  {
    var r := r0;
    for i := 0 to |list|
      invariant Walk(list, ch, r, i) == Walk(list, ch, r0, 0)
    {
      r := r - Chance(ch, list[i]) as real;
      if r <= 0.0 {
        p := list[i];
        return;
      }
    }
    p := list[|list| - 1];
  }

  /** The live gate that `spawnPowerupFixed` and `applyPowerup` apply to a
      rolled identity against the UI table: a real reward that is enabled
      and has a positive weight there. */
  predicate LiveGate(en: Flags, ch: Weights, id: PowerId) {
    id != NoDrop && Enabled(en, id) && Chance(ch, id) > 0
  }

  /** Two-phase drop: a real reward rolled from the freshly committed table
      passes the live gate as long as the UI table has not been edited since
      the commit (the commit only rewrites the UI weight of "no reward"). */
  lemma RolledDropPassesGateAfterCommit(en: Flags, ch: Weights, id: PowerId)
    requires RealEnabledSum(PowerTypes, en, ch) <= 100
    requires id in PickList(PowerTypes, CommitEnabled(en), CommitChances(en, ch))
    requires id != NoDrop
    ensures LiveGate(en, ch[NoDrop := 100 - RealEnabledSum(PowerTypes, en, ch)], id)
  {
  }
}
