/** The account population: canonical profiles keyed by id, the split of the
    shuffled ids into mule, boss and honest pools, and the label table
    derived from pool membership. */
module Accounts {

  /** An account id such as "acc123456"; its generation is outside the model. */
  type AccountId = string

  /** The static profile every row referencing an account must embed.
      Dates are day numbers; `agency` and `account` are the generated numbers. */
  datatype Profile = Profile(
    name: string,
    cpf: string,
    birthDate: int,
    addressPcode: string,
    phoneNumber: string,
    accCreationDate: int,
    agency: int,
    account: int,
    creditScore: int,
    deviceId: string,
    deviceModel: string)

  predicate Distinct<T(==)>(s: seq<T>)
  {
    forall i, j :: 0 <= i < j < |s| ==> s[i] != s[j]
  }

  /** The size of the account population for a requested row count: three
      tenths of it, truncated toward zero, and none for a non-positive count. */
  function NumAccounts(numRows: int): (n: nat)
    ensures numRows <= 0 ==> n == 0
    ensures numRows > 0 ==> 10 * n <= 3 * numRows < 10 * (n + 1)
  {
    if numRows <= 0 then 0 else numRows * 3 / 10
  }

  /** The canonical account table: each id keyed to the profile drawn with it. */
  ghost function AccountTable(ids: seq<AccountId>, profiles: seq<Profile>): (db: map<AccountId, Profile>)
    requires |ids| == |profiles| && Distinct(ids)
    ensures forall x :: x in db <==> x in ids
    ensures forall k :: 0 <= k < |ids| ==> db[ids[k]] == profiles[k]
  {
    map k | 0 <= k < |ids| :: ids[k] := profiles[k]
  }

  /** Fills the account table one account at a time, keyed by its unique id. */
  method BuildAccounts(ids: seq<AccountId>, profiles: seq<Profile>) returns (db: map<AccountId, Profile>)
    requires |ids| == |profiles| && Distinct(ids)
    ensures db == AccountTable(ids, profiles)
  {
    db := map[];
    var i := 0;
    while i < |ids|
      invariant 0 <= i <= |ids|
      invariant forall x :: x in db <==> x in ids[..i]
      invariant forall k :: 0 <= k < i ==> db[ids[k]] == profiles[k]
    {
      assert ids[..i + 1] == ids[..i] + [ids[i]];
      db := db[ids[i] := profiles[i]];
      i := i + 1;
    }
    assert ids[..i] == ids;
    TableExtensional(db, ids, profiles);
  }

  lemma TableExtensional(db: map<AccountId, Profile>, ids: seq<AccountId>, profiles: seq<Profile>)
    requires |ids| == |profiles| && Distinct(ids)
    requires forall x :: x in db <==> x in ids
    requires forall k :: 0 <= k < |ids| ==> db[ids[k]] == profiles[k]
    ensures db == AccountTable(ids, profiles)
  {
    var table := AccountTable(ids, profiles);
    assert db.Keys == table.Keys;
    forall x | x in db ensures db[x] == table[x] {
      var k :| 0 <= k < |ids| && ids[k] == x;
    }
  }

  // ---------------------------------------------------------------------------
  // Role pools

  /** Names the pool an empty-pool error is about. */
  datatype Pool = HonestPool | MulePool | BossPool

  datatype Pools = Pools(mules: seq<AccountId>, bosses: seq<AccountId>, honest: seq<AccountId>)

  /** Slices the shuffled ids into consecutive pools: the first five percent
      (truncated) are mules, the next one percent (truncated) bosses, and the
      rest honest. */
  function SplitPools(ids: seq<AccountId>): (p: Pools)
    ensures p.mules + p.bosses + p.honest == ids
    ensures 100 * |p.mules| <= 5 * |ids| < 100 * (|p.mules| + 1)
    ensures 100 * |p.bosses| <= |ids| < 100 * (|p.bosses| + 1)
    ensures |p.honest| == |ids| - |p.mules| - |p.bosses|
  {
    var n := |ids|;
    var nMules := n * 5 / 100;
    var nBosses := n / 100;
    assert ids[..nMules] + ids[nMules..nMules + nBosses] + ids[nMules + nBosses..] == ids;
    Pools(ids[..nMules], ids[nMules..nMules + nBosses], ids[nMules + nBosses..])
  }

  /** In a list without repetitions, an element lies in a slice exactly when
      its position does. */
  lemma InSlice(ids: seq<AccountId>, a: nat, b: nat, k: nat)
    requires Distinct(ids) && a <= b <= |ids| && k < |ids|
    ensures ids[k] in ids[a..b] <==> a <= k < b
  {
    if a <= k < b {
      assert ids[a..b][k - a] == ids[k];
    }
    if ids[k] in ids[a..b] {
      var i :| 0 <= i < b - a && ids[a..b][i] == ids[k];
      assert ids[a + i] == ids[k];
    }
  }

  /** The three pools are consecutive slices of the ids: a corollary of
      `SplitPools`' concatenation and length clauses, stated as slices. */
  lemma PoolSlices(ids: seq<AccountId>)
    ensures var p := SplitPools(ids);
            && p.mules == ids[..|p.mules|]
            && p.bosses == ids[|p.mules|..|p.mules| + |p.bosses|]
            && p.honest == ids[|p.mules| + |p.bosses|..]
  {
  }

  /** Three consecutive slices of a list without repetitions: an element lies
      in one exactly when its position does. */
  lemma SliceMembership(ids: seq<AccountId>, m: nat, b: nat, k: nat)
    requires Distinct(ids) && m + b <= |ids| && k < |ids|
    ensures ids[k] in ids[..m] <==> k < m
    ensures ids[k] in ids[m..m + b] <==> m <= k < m + b
    ensures ids[k] in ids[m + b..] <==> m + b <= k
  {
    InSlice(ids, 0, m, k);
    assert ids[0..m] == ids[..m];
    InSlice(ids, m, m + b, k);
    InSlice(ids, m + b, |ids|, k);
    assert ids[m + b..|ids|] == ids[m + b..];
  }

  /** For distinct ids, the pool an id lands in is decided by its position
      in the shuffled list. */
  lemma PoolMembership(ids: seq<AccountId>, k: nat)
    requires Distinct(ids) && k < |ids|
    ensures ids[k] in SplitPools(ids).mules <==> k < |SplitPools(ids).mules|
    ensures ids[k] in SplitPools(ids).bosses <==>
              |SplitPools(ids).mules| <= k < |SplitPools(ids).mules| + |SplitPools(ids).bosses|
    ensures ids[k] in SplitPools(ids).honest <==> |SplitPools(ids).mules| + |SplitPools(ids).bosses| <= k
  {
    var p := SplitPools(ids);
    PoolSlices(ids);
    SliceMembership(ids, |p.mules|, |p.bosses|, k);
  }

  /** The pools partition the ids: every id is in exactly one pool. */
  lemma PoolsPartition(ids: seq<AccountId>)
    requires Distinct(ids)
    ensures forall x :: x in ids <==>
      (x in SplitPools(ids).mules || x in SplitPools(ids).bosses || x in SplitPools(ids).honest)
    ensures forall x :: x in SplitPools(ids).mules ==> x !in SplitPools(ids).bosses && x !in SplitPools(ids).honest
    ensures forall x :: x in SplitPools(ids).bosses ==> x !in SplitPools(ids).honest
  {
    var p := SplitPools(ids);
    forall x | x in ids
      ensures !(x in p.mules && x in p.bosses) && !(x in p.mules && x in p.honest) && !(x in p.bosses && x in p.honest)
    {
      var k :| 0 <= k < |ids| && ids[k] == x;
      PoolMembership(ids, k);
    }
    assert forall x :: x in ids <==> x in p.mules || x in p.bosses || x in p.honest by {
      assert ids == p.mules + p.bosses + p.honest;
    }
  }

  /** Which pools are empty, in terms of the requested row count: the boss pool
      needs at least 334 rows (100 accounts), the mule pool 67 (20 accounts),
      and the honest pool holds two accounts or more from 7 rows on. */
  lemma PoolSizes(numRows: int, ids: seq<AccountId>)
    requires |ids| == NumAccounts(numRows)
    ensures SplitPools(ids).bosses != [] <==> numRows >= 334
    ensures SplitPools(ids).mules != [] <==> numRows >= 67
    ensures SplitPools(ids).honest != [] <==> numRows >= 4
    ensures |SplitPools(ids).honest| >= 2 <==> numRows >= 7
  {
    var p := SplitPools(ids);
    var n := |ids|;
    assert |p.mules| == n * 5 / 100 && |p.bosses| == n / 100;
    if numRows >= 7 {
      assert n >= 2;
      assert |p.mules| + |p.bosses| <= n * 6 / 100 + 1;
    }
    if 4 <= numRows < 7 {
      assert n == 1;
    }
  }

  // ---------------------------------------------------------------------------
  // Labels

  datatype Role = Honest | Mule | Boss

  datatype LabelRow = LabelRow(accountId: AccountId, isFraud: int, role: Role)

  /** `l` labels `id` by its pool membership: a fraud flag of one for mules
      and bosses, zero otherwise, and the role of the first pool it is in. */
  predicate Labelled(l: LabelRow, id: AccountId, mules: seq<AccountId>, bosses: seq<AccountId>)
  {
    && l.accountId == id
    && (l.isFraud == 0 || l.isFraud == 1)
    && (l.isFraud == 1 <==> id in mules || id in bosses)
    && (l.role == Mule <==> id in mules)
    && (l.role == Boss <==> id !in mules && id in bosses)
  }

  /** One label per id, in the order of `ids`. */
  predicate LabelsAgree(ids: seq<AccountId>, mules: seq<AccountId>, bosses: seq<AccountId>, labels: seq<LabelRow>)
  {
    && |labels| == |ids|
    && forall k :: 0 <= k < |ids| ==> Labelled(labels[k], ids[k], mules, bosses)
  }

  /** Builds the label table by walking the shuffled ids. */
  method ExportLabels(ids: seq<AccountId>, mules: seq<AccountId>, bosses: seq<AccountId>) returns (labels: seq<LabelRow>)
    ensures LabelsAgree(ids, mules, bosses, labels)
  {
    labels := [];
    var i := 0;
    while i < |ids|
      invariant 0 <= i <= |ids|
      invariant |labels| == i
      invariant forall k :: 0 <= k < i ==> Labelled(labels[k], ids[k], mules, bosses)
    {
      var id := ids[i];
      var flag := 0;
      var role := Honest;
      if id in mules {
        flag, role := 1, Mule;
      } else if id in bosses {
        flag, role := 1, Boss;
      }
      labels := labels + [LabelRow(id, flag, role)];
      i := i + 1;
    }
  }

  /** For distinct shuffled ids, the labels follow the slicing: the first
      block is labelled Mule, the next Boss, the rest Honest, and exactly the
      first two blocks carry the fraud flag. */
  lemma LabelsByPosition(ids: seq<AccountId>, labels: seq<LabelRow>)
    requires Distinct(ids)
    requires LabelsAgree(ids, SplitPools(ids).mules, SplitPools(ids).bosses, labels)
    ensures forall k :: 0 <= k < |labels| ==>
      labels[k].role == (if k < |SplitPools(ids).mules| then Mule
                         else if k < |SplitPools(ids).mules| + |SplitPools(ids).bosses| then Boss
                         else Honest)
    ensures forall k :: 0 <= k < |labels| ==>
      (labels[k].isFraud == 1 <==> k < |SplitPools(ids).mules| + |SplitPools(ids).bosses|)
  {
    forall k | 0 <= k < |labels|
      ensures labels[k].role == (if k < |SplitPools(ids).mules| then Mule
                                 else if k < |SplitPools(ids).mules| + |SplitPools(ids).bosses| then Boss
                                 else Honest)
      ensures labels[k].isFraud == 1 <==> k < |SplitPools(ids).mules| + |SplitPools(ids).bosses|
    {
      PoolMembership(ids, k);
    }
  }

  function FraudCount(labels: seq<LabelRow>): nat
  {
    if labels == [] then 0 else (if labels[0].isFraud == 1 then 1 else 0) + FraudCount(labels[1..])
  }

  lemma {:induction false} PrefixFraudCount(labels: seq<LabelRow>, t: nat)
    requires t <= |labels|
    requires forall k :: 0 <= k < |labels| ==> (labels[k].isFraud == 1 <==> k < t)
    ensures FraudCount(labels) == t
    decreases |labels|
  {
    if labels != [] {
      var rest := labels[1..];
      var t' := if t > 0 then t - 1 else 0;
      forall k | 0 <= k < |rest| ensures rest[k].isFraud == 1 <==> k < t' {
        assert rest[k] == labels[k + 1];
      }
      PrefixFraudCount(rest, t');
    }
  }

  /** The label table flags exactly as many accounts as the mule and boss
      pools hold together. */
  lemma FraudLabelCount(ids: seq<AccountId>, labels: seq<LabelRow>)
    requires Distinct(ids)
    requires LabelsAgree(ids, SplitPools(ids).mules, SplitPools(ids).bosses, labels)
    ensures FraudCount(labels) == |SplitPools(ids).mules| + |SplitPools(ids).bosses|
  {
    LabelsByPosition(ids, labels);
    PrefixFraudCount(labels, |SplitPools(ids).mules| + |SplitPools(ids).bosses|);
  }

  /** Multiset permutation preserves the absence of repetitions: a shuffle of
      distinct ids is again distinct. */
  lemma {:induction false} DistinctMultiplicity(s: seq<AccountId>, x: AccountId)
    requires Distinct(s)
    ensures multiset(s)[x] <= 1
    decreases |s|
  {
    if s != [] {
      assert s == [s[0]] + s[1..];
      assert Distinct(s[1..]) by {
        forall i, j | 0 <= i < j < |s[1..]| ensures s[1..][i] != s[1..][j] {
          assert s[1..][i] == s[i + 1] && s[1..][j] == s[j + 1];
        }
      }
      DistinctMultiplicity(s[1..], x);
    }
  }

  lemma ShuffleDistinct(ids: seq<AccountId>, shuffled: seq<AccountId>)
    requires Distinct(ids) && multiset(shuffled) == multiset(ids)
    ensures Distinct(shuffled)
    ensures |shuffled| == |ids|
    ensures forall x :: x in shuffled <==> x in ids
  {
    assert |shuffled| == |multiset(shuffled)| == |multiset(ids)| == |ids|;
    forall i, j | 0 <= i < j < |shuffled| ensures shuffled[i] != shuffled[j] {
      if shuffled[i] == shuffled[j] {
        var x := shuffled[i];
        assert shuffled == shuffled[..j] + shuffled[j..];
        assert x in shuffled[..j] by { assert shuffled[..j][i] == x; }
        assert x in shuffled[j..] by { assert shuffled[j..][0] == x; }
        assert multiset(shuffled)[x] == multiset(shuffled[..j])[x] + multiset(shuffled[j..])[x];
        DistinctMultiplicity(ids, x);
        assert false;
      }
    }
    forall x ensures x in shuffled <==> x in ids {
      assert x in shuffled <==> x in multiset(shuffled);
      assert x in ids <==> x in multiset(ids);
    }
  }
}
