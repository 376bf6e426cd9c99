/** One iteration of the transaction loop: the scenario draw, the choice of
    sender and receiver from the role pools, the assembly of each row from
    the canonical profiles, and the fill of the categorical columns. */
module Transactions {
  import opened Results
  import opened Tables
  import opened Accounts

  /** A transaction row. The header, the sender's profile snapshot and the
      receiver's snapshot are fixed columns; `categorical` holds the
      categorical columns set so far, which the fill completes. Amounts are
      integer cents, timestamps whole minutes. */
  datatype Row = Row(
    transactionId: int,
    transactionAmount: int,
    transactionTime: int,
    senderId: AccountId,
    receiverId: AccountId,
    transactionCity: string,
    // the sender's profile snapshot
    name: string,
    cpf: string,
    birthDate: int,
    addressPcode: string,
    phoneNumber: string,
    accCreationDate: int,
    agency: int,
    account: int,
    creditScore: int,
    deviceId: string,
    deviceModel: string,
    // the receiver's snapshot
    receiverName: string,
    receiverBank: string,
    receiverAgency: int,
    receiverAccount: int,
    categorical: map<CatColumn, string>)

  /** Added to the iteration number to form the id of a fraud cycle's exit row. */
  const ExitIdOffset: int := 1000000

  /** Minutes in a day. */
  const Day: int := 1440

  /** Reads the sender's profile snapshot back out of a row. */
  function SenderProfileIn(row: Row): Profile
  {
    Profile(row.name, row.cpf, row.birthDate, row.addressPcode, row.phoneNumber,
            row.accCreationDate, row.agency, row.account, row.creditScore,
            row.deviceId, row.deviceModel)
  }

  /** The part of the receiver's profile a row embeds. */
  datatype ReceiverSnapshot = ReceiverSnapshot(name: string, agency: int, account: int)

  function SnapshotOf(p: Profile): ReceiverSnapshot
  {
    ReceiverSnapshot(p.name, p.agency, p.account)
  }

  /** Reads the receiver's snapshot back out of a row. */
  function ReceiverIn(row: Row): ReceiverSnapshot
  {
    ReceiverSnapshot(row.receiverName, row.receiverAgency, row.receiverAccount)
  }

  /** The row names a sender and a receiver of the table and embeds exactly
      their canonical profile values. */
  predicate Consistent(row: Row, db: map<AccountId, Profile>)
  {
    && row.senderId in db && row.receiverId in db
    && SenderProfileIn(row) == db[row.senderId]
    && ReceiverIn(row) == SnapshotOf(db[row.receiverId])
  }

  /** Every categorical column is present, with one of its options. */
  predicate CategoricalComplete(row: Row)
  {
    forall c: CatColumn :: c in row.categorical && row.categorical[c] in Options(c)
  }

  /** The value of the transaction-type column, or "" while it is unset. */
  function TypeOf(row: Row): string
  {
    if TransactionType in row.categorical then row.categorical[TransactionType] else ""
  }

  /** A finished output row: consistent profiles and a value from the table in every categorical column. */
  predicate RowComplete(row: Row, db: map<AccountId, Profile>)
  {
    Consistent(row, db) && CategoricalComplete(row)
  }

  /** Builds a row from the transaction's own values, the sender's and the
      receiver's canonical profiles, and a freshly drawn city and bank code.
      Of the categorical columns only the transaction type is set. */
  function AssembleRow(txId: int, amount: int, time: int, senderId: AccountId, receiverId: AccountId,
                       txType: string, city: string, bank: string, db: map<AccountId, Profile>): (row: Row)
    requires senderId in db && receiverId in db
    ensures Consistent(row, db)
    ensures row.senderId == senderId && row.receiverId == receiverId
    ensures row.categorical == map[TransactionType := txType]
    ensures row.transactionId == txId && row.transactionAmount == amount && row.transactionTime == time
    ensures row.transactionCity == city && row.receiverBank == bank
  {
    var s := db[senderId];
    var r := db[receiverId];
    Row(
      txId, amount, time, senderId, receiverId, city,
      s.name, s.cpf, s.birthDate, s.addressPcode, s.phoneNumber, s.accCreationDate,
      s.agency, s.account, s.creditScore, s.deviceId, s.deviceModel,
      r.name, bank, r.agency, r.account,
      map[TransactionType := txType])
  }


  /** Gives every categorical column the row still lacks a value drawn by
      its weights, visiting the table in order; a column already set keeps
      its value, and nothing outside the categorical columns changes.
      `picks[j]` is the uniform draw for the `j`-th column of the order. */
  method FillCategorical(row0: Row, picks: seq<real>) returns (row: Row)
    requires |picks| == |CatOrder|
    requires forall j :: 0 <= j < |picks| ==> 0.0 <= picks[j] < 1.0
    ensures row == row0.(categorical := row.categorical)
    ensures forall c :: c in row.categorical
    ensures forall c :: c in row0.categorical ==> row.categorical[c] == row0.categorical[c]
    ensures forall j :: 0 <= j < |CatOrder| && CatOrder[j] !in row0.categorical ==>
              row.categorical[CatOrder[j]] == CatOption(CatOrder[j], picks[j])
  {
    CatOrderCovers();
    var options := seq(|CatOrder|, j requires 0 <= j < |CatOrder| => CatOption(CatOrder[j], picks[j]));
    var cats := FillMissing(row0.categorical, CatOrder, options);
    row := row0.(categorical := cats);
  }

  /** The fill loop over a list of distinct columns: column `cols[j]` gets
      `values[j]` unless the map already has it. */
  method FillMissing(cats0: map<CatColumn, string>, cols: seq<CatColumn>, values: seq<string>)
    returns (cats: map<CatColumn, string>)
    requires |values| == |cols|
    requires forall j, k :: 0 <= j < k < |cols| ==> cols[j] != cols[k]
    ensures forall c :: c in cats <==> c in cats0 || c in cols
    ensures forall c :: c in cats0 ==> cats[c] == cats0[c]
    ensures forall j :: 0 <= j < |cols| && cols[j] !in cats0 ==> cats[cols[j]] == values[j]
  {
    cats := cats0;
    var j := 0;
    while j < |cols|
      invariant 0 <= j <= |cols|
      invariant forall c :: c in cats <==> c in cats0 || c in cols[..j]
      invariant forall c :: c in cats0 ==> cats[c] == cats0[c]
      invariant forall k :: 0 <= k < j && cols[k] !in cats0 ==> cols[k] in cats && cats[cols[k]] == values[k]
    {
      assert cols[..j + 1] == cols[..j] + [cols[j]];
      assert cols[j] !in cols[..j];
      if cols[j] !in cats {
        cats := cats[cols[j] := values[j]];
      }
      j := j + 1;
    }
    assert cols[..j] == cols;
  }

  /** Filling an assembled 'pix' row finishes it: the profile snapshots
      survive, the type stays 'pix', and every categorical column ends up
      with an option of the table. */
  lemma FilledRowComplete(row0: Row, row: Row, picks: seq<real>, db: map<AccountId, Profile>)
    requires Consistent(row0, db) && row0.categorical == map[TransactionType := "pix"]
    requires |picks| == |CatOrder| && forall j :: 0 <= j < |picks| ==> 0.0 <= picks[j] < 1.0
    requires row == row0.(categorical := row.categorical)
    requires forall c :: c in row.categorical
    requires forall c :: c in row0.categorical ==> row.categorical[c] == row0.categorical[c]
    requires forall j :: 0 <= j < |CatOrder| && CatOrder[j] !in row0.categorical ==>
               row.categorical[CatOrder[j]] == CatOption(CatOrder[j], picks[j])
    ensures RowComplete(row, db)
    ensures TypeOf(row) == "pix"
    ensures forall j :: 0 <= j < |CatOrder| && CatOrder[j] != TransactionType ==>
              row.categorical[CatOrder[j]] == CatOption(CatOrder[j], picks[j])
  {
    CatOrderCovers();
    forall c: CatColumn ensures row.categorical[c] in Options(c) {
      if c != TransactionType {
        var j := CatIndex(c);
        assert CatOrder[j] !in row0.categorical;
      }
    }
  }

  // ---------------------------------------------------------------------------
  // Draws: every value the generator takes from its random source.

  datatype Scenario = Normal | FraudCycle

  const ScenarioWeights: seq<real> := [0.85, 0.15]

  /** The scenario a uniform draw selects: normal below 0.85, a fraud cycle above. */
  function ScenarioOf(u: real): Scenario
  {
    if u < 0.85 then Normal else FraudCycle
  }

  /** The threshold is the weighted choice between the two scenarios with
      weights 0.85 and 0.15. */
  lemma ScenarioIsWeightedChoice(u: real)
    requires 0.0 <= u < 1.0
    ensures Sum(ScenarioWeights) == 1.0
    ensures ScenarioOf(u) == (if Choose(ScenarioWeights, u) == 0 then Normal else FraudCycle)
  {
    assert ScenarioWeights[..1] == [0.85] && ScenarioWeights[1..] == [0.15];
    assert Sum(ScenarioWeights) == 1.0;
  }

  /** A uniform choice from a non-empty pool, driven by the draw `d`. */
  function Pick(pool: seq<AccountId>, d: nat): (a: AccountId)
    requires pool != []
    ensures a in pool
  {
    pool[d % |pool|]
  }

  /** The per-row draws: a city, a bank code and one uniform draw per categorical column. */
  datatype RowDraw = RowDraw(city: string, bank: string, picks: seq<real>)

  predicate RowDrawOk(r: RowDraw)
  {
    |r.picks| == |CatOrder| && forall j :: 0 <= j < |r.picks| ==> 0.0 <= r.picks[j] < 1.0
  }

  /** The row's city and bank code are the drawn ones, and every categorical
      column other than the transaction type holds the option its draw selects. */
  predicate DrawnFrom(row: Row, r: RowDraw)
  {
    && RowDrawOk(r)
    && row.transactionCity == r.city
    && row.receiverBank == r.bank
    && forall j :: 0 <= j < |CatOrder| && CatOrder[j] != TransactionType ==>
         CatOrder[j] in row.categorical && row.categorical[CatOrder[j]] == CatOption(CatOrder[j], r.picks[j])
  }

  /** The draws of one loop iteration. A normal iteration uses `sender`,
      `receivers` (the first receiver draw and every redraw), `amount`, `time`
      and `first`; a fraud cycle uses `sender` (the victim), `mule`, `boss`,
      `amount` (the base amount), `time` (the entry time), `hours`, `minutes`,
      `fee`, `first` (the entry row) and `second` (the exit row). */
  datatype IterationDraw = IterationDraw(
    scenario: real,
    sender: nat,
    receivers: seq<nat>,
    mule: nat,
    boss: nat,
    amount: int,
    time: int,
    hours: int,
    minutes: int,
    fee: real,
    first: RowDraw,
    second: RowDraw)

  /** The ranges the random source promises for each draw: amounts of 50 to
      2000 (normal) or 2000 to 15000 (fraud entry), in cents; a normal time in
      the last 60 days, an entry time between 30 and 2 days ago; a delay of 1
      to 6 hours and 0 to 59 minutes; a fee of 2 to 5 percent. */
  predicate DrawOk(d: IterationDraw, now: int)
  {
    && 0.0 <= d.scenario < 1.0
    && RowDrawOk(d.first) && RowDrawOk(d.second)
    && (ScenarioOf(d.scenario) == Normal ==>
          5000 <= d.amount <= 200000 && now - 60 * Day <= d.time <= now)
    && (ScenarioOf(d.scenario) == FraudCycle ==>
          && 200000 <= d.amount <= 1500000
          && now - 30 * Day <= d.time <= now - 2 * Day
          && 1 <= d.hours <= 6 && 0 <= d.minutes <= 59
          && 0.02 <= d.fee <= 0.05)
  }

  /** The receiver draws eventually name an account other than the sender,
      so that the redraw loop of a normal iteration ends. */
  predicate HasFreshReceiver(pool: seq<AccountId>, d: IterationDraw)
  {
    pool != [] && exists k :: 0 <= k < |d.receivers| && Pick(pool, d.receivers[k]) != Pick(pool, d.sender)
  }

  /** The redraw loop can only end when the pool holds two accounts. */
  lemma FreshReceiverNeedsTwo(pool: seq<AccountId>, d: IterationDraw)
    requires HasFreshReceiver(pool, d)
    ensures |pool| >= 2
  {
    var k :| 0 <= k < |d.receivers| && Pick(pool, d.receivers[k]) != Pick(pool, d.sender);
  }

  /** With two distinct accounts in the pool, a redraw landing on the next
      position always differs from the sender. */
  lemma NextPositionIsFresh(pool: seq<AccountId>, sender: nat)
    requires Distinct(pool) && |pool| >= 2
    ensures Pick(pool, sender % |pool| + 1) != Pick(pool, sender)
  {
    var n := |pool|;
    var a := sender % n;
    assert (a + 1) % n == (if a + 1 == n then 0 else a + 1);
  }

  /** Why a run fails: a choice from an empty pool, or an empty transaction
      table, which has none of the columns the final reordering selects. */
  datatype GenError = EmptyPool(pool: Pool) | MissingColumns

  /** An iteration fails when it must choose from an empty pool: every scenario
      draws from the honest pool, a fraud cycle also from the mule and boss pools. */
  predicate FailsAt(d: IterationDraw, pools: Pools)
  {
    pools.honest == [] || (ScenarioOf(d.scenario) == FraudCycle && (pools.mules == [] || pools.bosses == []))
  }

  /** The pool a failing iteration reports: the first empty one it draws from. */
  function ErrorFor(pools: Pools): GenError
  {
    if pools.honest == [] then EmptyPool(HonestPool)
    else if pools.mules == [] then EmptyPool(MulePool)
    else EmptyPool(BossPool)
  }

  // ---------------------------------------------------------------------------
  // Amounts and timing of the fraud cycle

  /** Rounds a non-negative amount of cents to the nearest whole cent. */
  function RoundCents(x: real): int
  {
    (x + 0.5).Floor
  }

  /** The amount the mule forwards: the base amount less the fee, rounded to
      cents. It never exceeds the base amount and keeps 95 to 98 percent of
      it, up to half a cent of rounding. */
  function ExitAmount(base: int, fee: real): (e: int)
    requires base >= 0 && 0.02 <= fee <= 0.05
    ensures 0 <= e <= base
    ensures 95 * base < 100 * e + 50
    ensures 100 * e <= 98 * base + 50
  {
    var kept := (base as real) * (1.0 - fee);
    ProductBounds(base as real, 1.0 - fee, kept);
    RoundedWithin(base, kept);
    RoundCents(kept)
  }

  /** Keeping a fraction between 95 and 98 percent of `b`. */
  lemma ProductBounds(b: real, k: real, p: real)
    requires p == b * k && b >= 0.0 && 0.95 <= k <= 0.98
    ensures b * 0.95 <= p <= b * 0.98
  {
    assert p - b * 0.95 == b * (k - 0.95);
    assert b * 0.98 - p == b * (0.98 - k);
  }

  /** Rounding an amount between 95 and 98 percent of `base` stays within
      half a cent of those bounds and never passes `base`. */
  lemma RoundedWithin(base: int, kept: real)
    requires base >= 0 && (base as real) * 0.95 <= kept <= (base as real) * 0.98
    ensures 0 <= RoundCents(kept) <= base
    ensures 95 * base < 100 * RoundCents(kept) + 50
    ensures 100 * RoundCents(kept) <= 98 * base + 50
  {
    var e := RoundCents(kept);
    assert (e as real) <= kept + 0.5 < (e as real) + 1.0;
  }

  /** The delay between a fraud cycle's entry and exit: `hours` hours and
      `minutes` minutes, so between one hour and six hours fifty-nine. */
  function DelayMinutes(hours: int, minutes: int): (d: int)
    requires 1 <= hours <= 6 && 0 <= minutes <= 59
    ensures 60 <= d <= 419
    ensures d / 60 == hours && d % 60 == minutes
  {
    60 * hours + minutes
  }

  // ---------------------------------------------------------------------------
  // One iteration

  /** Draws a receiver from the pool and redraws while it equals the sender.
      The result is the first draw that differs from the sender. */
  method PickReceiver(pool: seq<AccountId>, sender: AccountId, draws: seq<nat>) returns (receiver: AccountId)
    requires pool != []
    requires exists k :: 0 <= k < |draws| && Pick(pool, draws[k]) != sender
    ensures receiver in pool && receiver != sender
    ensures exists k :: 0 <= k < |draws| && receiver == Pick(pool, draws[k]) &&
                        forall j :: 0 <= j < k ==> Pick(pool, draws[j]) == sender
  {
    var k := 0;
    receiver := Pick(pool, draws[0]);
    while receiver == sender
      invariant 0 <= k < |draws|
      invariant receiver == Pick(pool, draws[k])
      invariant forall j :: 0 <= j < k ==> Pick(pool, draws[j]) == sender
      invariant exists m :: k <= m < |draws| && Pick(pool, draws[m]) != sender
      decreases |draws| - k
    {
      k := k + 1;
      receiver := Pick(pool, draws[k]);
    }
  }

  /** Every pool member has a profile in the table. */
  predicate PoolsIn(pools: Pools, db: map<AccountId, Profile>)
  {
    && (forall x :: x in pools.mules ==> x in db)
    && (forall x :: x in pools.bosses ==> x in db)
    && (forall x :: x in pools.honest ==> x in db)
  }

  /** What a normal iteration emits: one finished 'pix' row with id `i`,
      from the drawn honest sender to the first receiver draw that differs
      from it, carrying the drawn amount, time, city, bank and categorical
      values. */
  predicate NormalOk(rows: seq<Row>, i: int, d: IterationDraw, pools: Pools, db: map<AccountId, Profile>)
  {
    && |rows| == 1
    && RowComplete(rows[0], db)
    && rows[0].transactionId == i
    && TypeOf(rows[0]) == "pix"
    && rows[0].senderId in pools.honest
    && rows[0].senderId == Pick(pools.honest, d.sender)
    && rows[0].receiverId in pools.honest
    && rows[0].senderId != rows[0].receiverId
    && (exists k :: 0 <= k < |d.receivers| && rows[0].receiverId == Pick(pools.honest, d.receivers[k]) &&
                    forall j :: 0 <= j < k ==> Pick(pools.honest, d.receivers[j]) == rows[0].senderId)
    && rows[0].transactionAmount == d.amount
    && rows[0].transactionTime == d.time
    && DrawnFrom(rows[0], d.first)
  }

  /** What a fraud cycle emits: an entry row with id `i` from the drawn
      honest victim to the drawn mule, then an exit row with id `i + 1000000`
      from that same mule to the drawn boss; both 'pix'; the exit comes the
      drawn delay (60 to 419 minutes) after the entry and still before `now`,
      and forwards the base amount less the drawn fee, rounded to cents. */
  predicate FraudOk(rows: seq<Row>, i: int, d: IterationDraw, pools: Pools, db: map<AccountId, Profile>, now: int)
  {
    && |rows| == 2
    && RowComplete(rows[0], db) && RowComplete(rows[1], db)
    && rows[0].transactionId == i
    && rows[1].transactionId == i + ExitIdOffset
    && TypeOf(rows[0]) == "pix" && TypeOf(rows[1]) == "pix"
    && rows[0].senderId in pools.honest
    && rows[0].senderId == Pick(pools.honest, d.sender)
    && rows[0].receiverId in pools.mules
    && rows[0].receiverId == Pick(pools.mules, d.mule)
    && rows[1].senderId == rows[0].receiverId
    && rows[1].receiverId in pools.bosses
    && rows[1].receiverId == Pick(pools.bosses, d.boss)
    && rows[0].transactionAmount == d.amount
    && rows[0].transactionTime == d.time
    && 1 <= d.hours <= 6 && 0 <= d.minutes <= 59
    && rows[1].transactionTime == d.time + DelayMinutes(d.hours, d.minutes)
    && d.amount >= 0 && 0.02 <= d.fee <= 0.05
    && rows[1].transactionAmount == ExitAmount(d.amount, d.fee)
    && DrawnFrom(rows[0], d.first) && DrawnFrom(rows[1], d.second)
    && 60 <= rows[1].transactionTime - rows[0].transactionTime <= 419
    && rows[1].transactionTime < now
    && 0 <= rows[1].transactionAmount <= rows[0].transactionAmount
    && 95 * rows[0].transactionAmount < 100 * rows[1].transactionAmount + 50
    && 100 * rows[1].transactionAmount <= 98 * rows[0].transactionAmount + 50
  }

  /** How many rows an iteration of the given scenario emits. */
  function RowsOf(s: Scenario): nat
  {
    if s == Normal then 1 else 2
  }

  predicate IterationOk(rows: seq<Row>, i: int, d: IterationDraw, pools: Pools, db: map<AccountId, Profile>, now: int)
  {
    if ScenarioOf(d.scenario) == Normal then NormalOk(rows, i, d, pools, db) else FraudOk(rows, i, d, pools, db, now)
  }

  /** The rows of an iteration: as many as its scenario emits, each
      finished, the entry carrying id `i` and the exit id `i + 1000000`. */
  lemma IterationShape(rows: seq<Row>, i: int, d: IterationDraw, pools: Pools, db: map<AccountId, Profile>, now: int)
    requires IterationOk(rows, i, d, pools, db, now)
    ensures |rows| == RowsOf(ScenarioOf(d.scenario))
    ensures forall k :: 0 <= k < |rows| ==> RowComplete(rows[k], db) && rows[k].transactionId == (if k == 0 then i else i + ExitIdOffset)
  {
    var normal := ScenarioOf(d.scenario) == Normal;
    assert normal ==> NormalOk(rows, i, d, pools, db);
    assert !normal ==> FraudOk(rows, i, d, pools, db, now);
    forall k | 0 <= k < |rows|
      ensures RowComplete(rows[k], db) && rows[k].transactionId == (if k == 0 then i else i + ExitIdOffset)
    {
      assert k == 0 || (!normal && k == 1);
    }
  }

  /** Runs iteration `i` of the loop: chooses the scenario, its accounts
      and values, assembles its one or two rows and fills them. */
  method RunIteration(i: int, d: IterationDraw, pools: Pools, db: map<AccountId, Profile>, now: int)
    returns (r: Result<seq<Row>, GenError>)
    requires PoolsIn(pools, db)
    requires DrawOk(d, now)
    requires ScenarioOf(d.scenario) == Normal && pools.honest != [] ==> HasFreshReceiver(pools.honest, d)
    ensures r.Failure? <==> FailsAt(d, pools)
    ensures r.Failure? ==> r.error == ErrorFor(pools)
    ensures r.Success? ==> IterationOk(r.value, i, d, pools, db, now)
  {
    var scenario := ScenarioOf(d.scenario);
    if pools.honest == [] {
      return Failure(EmptyPool(HonestPool));
    }
    if scenario == Normal {
      var sender := Pick(pools.honest, d.sender);
      var receiver := PickReceiver(pools.honest, sender, d.receivers);
      var row0 := AssembleRow(i, d.amount, d.time, sender, receiver, "pix", d.first.city, d.first.bank, db);
      var row := FillCategorical(row0, d.first.picks);
      FilledRowComplete(row0, row, d.first.picks, db);
      r := Success([row]);
    } else {
      var victim := Pick(pools.honest, d.sender);
      if pools.mules == [] {
        return Failure(EmptyPool(MulePool));
      }
      var mule := Pick(pools.mules, d.mule);
      if pools.bosses == [] {
        return Failure(EmptyPool(BossPool));
      }
      var boss := Pick(pools.bosses, d.boss);
      var entry0 := AssembleRow(i, d.amount, d.time, victim, mule, "pix", d.first.city, d.first.bank, db);
      var exitTime := d.time + DelayMinutes(d.hours, d.minutes);
      var exitAmount := ExitAmount(d.amount, d.fee);
      var exit0 := AssembleRow(i + ExitIdOffset, exitAmount, exitTime, mule, boss, "pix",
                               d.second.city, d.second.bank, db);
      var entry := FillCategorical(entry0, d.first.picks);
      FilledRowComplete(entry0, entry, d.first.picks, db);
      var exit := FillCategorical(exit0, d.second.picks);
      FilledRowComplete(exit0, exit, d.second.picks, db);
      r := Success([entry, exit]);
    }
  }
}
