/** The whole generator: the account table, the role pools, the loop of
    `num_rows` iterations that emits one or two rows each, and the label
    table. Every random value arrives as a draw. */
module Generator {
  import opened Results
  import opened Accounts
  import opened Transactions

  // ---------------------------------------------------------------------------
  // Where each iteration's rows lie in the table

  /** How many rows each iteration emits. */
  function RowCounts(draws: seq<IterationDraw>): (counts: seq<nat>)
    ensures |counts| == |draws|
    ensures forall i :: 0 <= i < |draws| ==> counts[i] == RowsOf(ScenarioOf(draws[i].scenario))
  {
    seq(|draws|, i requires 0 <= i < |draws| => RowsOf(ScenarioOf(draws[i].scenario)))
  }

  /** Where the rows of iteration `i` start: after the rows of the iterations before it. */
  function Offset(counts: seq<nat>, i: nat): nat
    requires i <= |counts|
  {
    if i == 0 then 0 else Offset(counts, i - 1) + counts[i - 1]
  }

  /** The number of fraud cycles among the first `n` iterations. */
  function FraudIterations(draws: seq<IterationDraw>, n: nat): nat
    requires n <= |draws|
  {
    if n == 0 then 0
    else FraudIterations(draws, n - 1) + (if ScenarioOf(draws[n - 1].scenario) == FraudCycle then 1 else 0)
  }

  lemma {:induction false} OffsetStep(counts: seq<nat>, i: nat, j: nat)
    requires i <= j <= |counts|
    ensures Offset(counts, i) <= Offset(counts, j)
    decreases j
  {
    if i < j {
      OffsetStep(counts, i, j - 1);
    }
  }

  /** Every offset lies within the table. */
  lemma OffsetsBelow(counts: seq<nat>)
    ensures forall j :: 0 <= j <= |counts| ==> Offset(counts, j) <= Offset(counts, |counts|)
  {
    forall j | 0 <= j <= |counts| ensures Offset(counts, j) <= Offset(counts, |counts|) {
      OffsetStep(counts, j, |counts|);
    }
  }

  /** The rows emitted before iteration `i` number `i` plus one more for each
      fraud cycle among them, so between `i` and `2 * i`. */
  lemma {:induction false} OffsetCount(draws: seq<IterationDraw>, i: nat)
    requires i <= |draws|
    ensures Offset(RowCounts(draws), i) == i + FraudIterations(draws, i)
    ensures FraudIterations(draws, i) <= i
  {
    if i > 0 {
      OffsetCount(draws, i - 1);
    }
  }

  // ---------------------------------------------------------------------------
  // The table as a sequence of per-iteration chunks

  /** The table as the loop builds it: the rows of each iteration in turn. */
  ghost function Flatten(chunks: seq<seq<Row>>): seq<Row>
  {
    if chunks == [] then [] else Flatten(chunks[..|chunks| - 1]) + chunks[|chunks| - 1]
  }

  /** Each iteration emitted as many rows as it is counted for. */
  ghost predicate ChunkSizes(chunks: seq<seq<Row>>, counts: seq<nat>)
    requires |chunks| <= |counts|
  {
    forall j :: 0 <= j < |chunks| ==> |chunks[j]| == counts[j]
  }

  lemma {:induction false} FlattenLength(chunks: seq<seq<Row>>, counts: seq<nat>)
    requires |chunks| <= |counts| && ChunkSizes(chunks, counts)
    ensures |Flatten(chunks)| == Offset(counts, |chunks|)
  {
    if chunks != [] {
      FlattenLength(chunks[..|chunks| - 1], counts);
    }
  }

  /** The rows of iteration `j` sit at its offset. */
  lemma {:induction false} FlattenSlice(chunks: seq<seq<Row>>, counts: seq<nat>, j: nat)
    requires |chunks| <= |counts| && ChunkSizes(chunks, counts) && j < |chunks|
    ensures Offset(counts, j + 1) <= |Flatten(chunks)|
    ensures Flatten(chunks)[Offset(counts, j)..Offset(counts, j + 1)] == chunks[j]
  {
    var m := |chunks| - 1;
    var front := chunks[..m];
    FlattenLength(chunks, counts);
    FlattenLength(front, counts);
    OffsetStep(counts, j + 1, |chunks|);
    if j < m {
      FlattenSlice(front, counts, j);
      OffsetStep(counts, j + 1, m);
    }
  }

  lemma FlattenAppend(chunks: seq<seq<Row>>, rows: seq<Row>)
    ensures Flatten(chunks + [rows]) == Flatten(chunks) + rows
  {
    assert (chunks + [rows])[..|chunks|] == chunks;
  }

  lemma ChunkSizesAppend(chunks: seq<seq<Row>>, rows: seq<Row>, counts: seq<nat>)
    requires |chunks| < |counts| && ChunkSizes(chunks, counts) && |rows| == counts[|chunks|]
    ensures ChunkSizes(chunks + [rows], counts)
  {
  }

  // ---------------------------------------------------------------------------
  // What the transaction table holds

  /** No iteration before `i` fails. */
  ghost predicate Reached(draws: seq<IterationDraw>, pools: Pools, i: nat)
    requires i <= |draws|
  {
    forall j :: 0 <= j < i ==> !FailsAt(draws[j], pools)
  }

  /** In every normal iteration the loop reaches, the receiver draws
      eventually differ from the sender. */
  ghost predicate Terminates(draws: seq<IterationDraw>, pools: Pools)
  {
    forall i ::
      (0 <= i < |draws| && pools.honest != [] && ScenarioOf(draws[i].scenario) == Normal && Reached(draws, pools, i))
      ==> HasFreshReceiver(pools.honest, draws[i])
  }

  /** Iteration `j` emitted the chunk `chunks[j]`. */
  ghost predicate ChunkOk(chunks: seq<seq<Row>>, j: nat, draws: seq<IterationDraw>, pools: Pools,
                          db: map<AccountId, Profile>, now: int)
    requires j < |chunks| && j < |draws|
  {
    IterationOk(chunks[j], j, draws[j], pools, db, now)
  }

  /** Iteration by iteration, the table holds at the iteration's offset
      the rows its scenario prescribes. */
  ghost predicate AtOffsets(data: seq<Row>, draws: seq<IterationDraw>, pools: Pools,
                            db: map<AccountId, Profile>, now: int)
    requires |data| == Offset(RowCounts(draws), |draws|)
  {
    OffsetsBelow(RowCounts(draws));
    forall j :: 0 <= j < |draws| ==>
      IterationOk(data[Offset(RowCounts(draws), j)..Offset(RowCounts(draws), j + 1)], j, draws[j], pools, db, now)
  }

  /** Ids are unique across the table. */
  ghost predicate IdsDistinct(data: seq<Row>)
  {
    forall a, b :: 0 <= a < b < |data| ==> data[a].transactionId != data[b].transactionId
  }

  /** What the transaction table holds: iteration by iteration, the rows its
      scenario prescribes; every row finished; ids unique when the loop runs
      at most a million times. */
  ghost predicate TransactionsOk(data: seq<Row>, draws: seq<IterationDraw>, pools: Pools,
                                 db: map<AccountId, Profile>, now: int)
  {
    && |data| == Offset(RowCounts(draws), |draws|)
    && AtOffsets(data, draws, pools, db, now)
    && (forall k :: 0 <= k < |data| ==> RowComplete(data[k], db))
    && (|draws| <= ExitIdOffset ==> IdsDistinct(data))
  }

  /** An id handed out by one of the first `i` iterations. */
  ghost predicate IssuedBefore(id: int, i: int)
  {
    0 <= id < i || ExitIdOffset <= id < ExitIdOffset + i
  }

  /** The rows of the first `i` of `n` iterations: every row finished, every
      id handed out by one of those iterations, and no id twice when the
      loop runs at most a million times. */
  ghost predicate PrefixOk(data: seq<Row>, i: nat, n: nat, db: map<AccountId, Profile>)
  {
    && (forall k :: 0 <= k < |data| ==> RowComplete(data[k], db))
    && (forall k :: 0 <= k < |data| ==> IssuedBefore(data[k].transactionId, i))
    && (n <= ExitIdOffset ==> IdsDistinct(data))
  }

  /** The chunks emitted so far: one per iteration, each of the size and
      with the rows its scenario prescribes. */
  ghost predicate HistoryOk(chunks: seq<seq<Row>>, draws: seq<IterationDraw>, pools: Pools,
                            db: map<AccountId, Profile>, now: int)
  {
    && |chunks| <= |draws|
    && ChunkSizes(chunks, RowCounts(draws))
    && forall j :: 0 <= j < |chunks| ==> ChunkOk(chunks, j, draws, pools, db, now)
  }

  // ---------------------------------------------------------------------------
  // The loop

  /** The transaction loop: `num_rows` iterations, each appending its rows.
      It stops at the first iteration that must draw from an empty pool. */
  method EmitTransactions(draws: seq<IterationDraw>, pools: Pools, db: map<AccountId, Profile>, now: int)
    returns (r: Result<seq<Row>, GenError>)
    requires PoolsIn(pools, db)
    requires forall i :: 0 <= i < |draws| ==> DrawOk(draws[i], now)
    requires Terminates(draws, pools)
    ensures r.Failure? <==> exists i :: 0 <= i < |draws| && FailsAt(draws[i], pools)
    ensures r.Failure? ==> r.error == ErrorFor(pools)
    ensures r.Success? ==> TransactionsOk(r.value, draws, pools, db, now)
  {
    var data: seq<Row> := [];
    ghost var chunks: seq<seq<Row>> := [];
    var i := 0;
    while i < |draws|
      invariant 0 <= i <= |draws|
      invariant Reached(draws, pools, i)
      invariant |chunks| == i && data == Flatten(chunks) && HistoryOk(chunks, draws, pools, db, now)
      invariant PrefixOk(data, i, |draws|, db)
    {
      FreshReceiverWhenReached(draws, pools, i);
      var step := RunIteration(i, draws[i], pools, db, now);
      if step.Failure? {
        return Failure(step.error);
      }
      ReachedNext(draws, pools, i);
      var rows := step.value;
      IterationShape(rows, i, draws[i], pools, db, now);
      AppendRows(data, rows, i, |draws|, db);
      FlattenAppend(chunks, rows);
      HistoryAppend(chunks, rows, draws, pools, db, now);
      data := data + rows;
      chunks := chunks + [rows];
      i := i + 1;
    }
    TableFromHistory(chunks, data, draws, pools, db, now);
    return Success(data);
  }

  /** The finished loop's table, read back through its chunk history. */
  lemma TableFromHistory(chunks: seq<seq<Row>>, data: seq<Row>, draws: seq<IterationDraw>, pools: Pools,
                         db: map<AccountId, Profile>, now: int)
    requires |chunks| == |draws| && data == Flatten(chunks) && HistoryOk(chunks, draws, pools, db, now)
    requires PrefixOk(data, |draws|, |draws|, db)
    ensures TransactionsOk(data, draws, pools, db, now)
  {
    ChunksAtOffsets(chunks, draws, pools, db, now);
  }

  lemma FreshReceiverWhenReached(draws: seq<IterationDraw>, pools: Pools, i: nat)
    requires i < |draws| && Terminates(draws, pools) && Reached(draws, pools, i)
    ensures ScenarioOf(draws[i].scenario) == Normal && pools.honest != [] ==> HasFreshReceiver(pools.honest, draws[i])
  {
  }

  lemma ReachedNext(draws: seq<IterationDraw>, pools: Pools, i: nat)
    requires i < |draws| && Reached(draws, pools, i) && !FailsAt(draws[i], pools)
    ensures Reached(draws, pools, i + 1)
  {
  }

  lemma HistoryAppend(chunks: seq<seq<Row>>, rows: seq<Row>, draws: seq<IterationDraw>, pools: Pools,
                      db: map<AccountId, Profile>, now: int)
    requires |chunks| < |draws| && HistoryOk(chunks, draws, pools, db, now)
    requires IterationOk(rows, |chunks|, draws[|chunks|], pools, db, now)
    requires |rows| == RowsOf(ScenarioOf(draws[|chunks|].scenario))
    ensures HistoryOk(chunks + [rows], draws, pools, db, now)
  {
    ChunkSizesAppend(chunks, rows, RowCounts(draws));
    forall j | 0 <= j < |chunks| + 1 ensures ChunkOk(chunks + [rows], j, draws, pools, db, now) {
      if j < |chunks| {
        assert ChunkOk(chunks, j, draws, pools, db, now);
        assert (chunks + [rows])[j] == chunks[j];
      } else {
        assert (chunks + [rows])[j] == rows;
      }
    }
  }

  /** Read back at its offsets, the table holds every iteration's rows. */
  lemma ChunksAtOffsets(chunks: seq<seq<Row>>, draws: seq<IterationDraw>, pools: Pools,
                        db: map<AccountId, Profile>, now: int)
    requires |chunks| == |draws| && HistoryOk(chunks, draws, pools, db, now)
    ensures |Flatten(chunks)| == Offset(RowCounts(draws), |draws|)
    ensures AtOffsets(Flatten(chunks), draws, pools, db, now)
  {
    var counts := RowCounts(draws);
    var data := Flatten(chunks);
    FlattenLength(chunks, counts);
    OffsetsBelow(counts);
    forall j | 0 <= j < |draws|
      ensures IterationOk(data[Offset(counts, j)..Offset(counts, j + 1)], j, draws[j], pools, db, now)
    {
      ChunkAtOffset(chunks, counts, j, draws, pools, db, now);
    }
  }

  lemma ChunkAtOffset(chunks: seq<seq<Row>>, counts: seq<nat>, j: nat, draws: seq<IterationDraw>, pools: Pools,
                      db: map<AccountId, Profile>, now: int)
    requires |chunks| == |draws| == |counts| && ChunkSizes(chunks, counts) && j < |chunks|
    requires ChunkOk(chunks, j, draws, pools, db, now)
    ensures Offset(counts, j + 1) <= |Flatten(chunks)|
    ensures IterationOk(Flatten(chunks)[Offset(counts, j)..Offset(counts, j + 1)], j, draws[j], pools, db, now)
  {
    FlattenSlice(chunks, counts, j);
  }

  /** Appending the rows of iteration `i` keeps every row finished and
      every id issued once. */
  lemma AppendRows(data: seq<Row>, rows: seq<Row>, i: nat, n: nat, db: map<AccountId, Profile>)
    requires PrefixOk(data, i, n, db)
    requires i < n && |rows| <= 2
    requires forall k :: 0 <= k < |rows| ==> RowComplete(rows[k], db) && rows[k].transactionId == (if k == 0 then i else i + ExitIdOffset)
    ensures PrefixOk(data + rows, i + 1, n, db)
  {
    var all := data + rows;
    forall k | 0 <= k < |all|
      ensures RowComplete(all[k], db) && IssuedBefore(all[k].transactionId, i + 1)
    {
      if k >= |data| {
        assert all[k] == rows[k - |data|];
      }
    }
    if n <= ExitIdOffset {
      forall a, b | 0 <= a < b < |all| ensures all[a].transactionId != all[b].transactionId {
        if b >= |data| {
          assert all[b] == rows[b - |data|];
          if a >= |data| {
            assert all[a] == rows[a - |data|];
          }
        }
      }
    }
  }

  // ---------------------------------------------------------------------------
  // The generator

  datatype Output = Output(transactions: seq<Row>, labels: seq<LabelRow>)

  /** The generator. `ids` and `profiles` are the accounts in creation
      order, `shuffled` the shuffle of their ids, `now` the clock, and
      `draws[i]` the draws of loop iteration `i`. A run without iterations
      leaves the transaction table empty, and selecting the output columns
      of an empty table fails. */
  method Generate(numRows: int, ids: seq<AccountId>, profiles: seq<Profile>, shuffled: seq<AccountId>,
                  now: int, draws: seq<IterationDraw>)
    returns (r: Result<Output, GenError>)
    requires |ids| == NumAccounts(numRows) && |profiles| == |ids| && Distinct(ids)
    requires multiset(shuffled) == multiset(ids)
    requires |draws| == (if numRows > 0 then numRows else 0)
    requires forall i :: 0 <= i < |draws| ==> DrawOk(draws[i], now)
    requires Terminates(draws, SplitPools(shuffled))
    ensures r.Failure? <==> numRows <= 0 || exists i :: 0 <= i < |draws| && FailsAt(draws[i], SplitPools(shuffled))
    ensures r.Failure? ==> r.error == (if numRows <= 0 then MissingColumns else ErrorFor(SplitPools(shuffled)))
    ensures r.Success? ==> |r.value.transactions| >= 1
    ensures r.Success? ==>
              TransactionsOk(r.value.transactions, draws, SplitPools(shuffled), AccountTable(ids, profiles), now)
    ensures r.Success? ==>
              LabelsAgree(shuffled, SplitPools(shuffled).mules, SplitPools(shuffled).bosses, r.value.labels)
  {
    var db := BuildAccounts(ids, profiles);
    ShuffleDistinct(ids, shuffled);
    var pools := SplitPools(shuffled);
    assert PoolsIn(pools, db) by {
      assert shuffled == pools.mules + pools.bosses + pools.honest;
    }
    var tx := EmitTransactions(draws, pools, db, now);
    if tx.Failure? {
      return Failure(tx.error);
    }
    var labels := ExportLabels(shuffled, pools.mules, pools.bosses);
    if tx.value == [] {
      return Failure(MissingColumns);
    }
    return Success(Output(tx.value, labels));
  }

  // ---------------------------------------------------------------------------
  // Properties of a finished run

  /** The transaction table holds `num_rows` rows plus one per fraud cycle,
      so between `num_rows` and twice that. */
  lemma RowCount(data: seq<Row>, draws: seq<IterationDraw>, pools: Pools, db: map<AccountId, Profile>, now: int)
    requires TransactionsOk(data, draws, pools, db, now)
    ensures |data| == |draws| + FraudIterations(draws, |draws|)
    ensures |draws| <= |data| <= 2 * |draws|
  {
    OffsetCount(draws, |draws|);
  }

  /** From 334 requested rows on, no pool is empty, so no iteration fails
      and the honest pool has two accounts for the redraw loop. */
  lemma LargeRunsNeverFail(numRows: int, shuffled: seq<AccountId>, d: IterationDraw)
    requires |shuffled| == NumAccounts(numRows) && numRows >= 334
    ensures !FailsAt(d, SplitPools(shuffled))
    ensures |SplitPools(shuffled).honest| >= 2
  {
    PoolSizes(numRows, shuffled);
  }
}
