# Synthetic AML transaction generator — a Dafny model

This project models `generate_synthetic_data`, the generator at the heart of
the project_aml repository. The generator builds the synthetic data set used
to train money-laundering detectors. It:

- builds a population of accounts, each with one canonical profile;
- shuffles the account ids and slices them into three role pools: mules
  (the first 5%), bosses (the next 1%) and honest accounts (the rest);
- runs `num_rows` iterations of a loop. Each iteration draws a scenario with
  weights 0.85 / 0.15:
  - a *normal* iteration emits one 'pix' transfer between two distinct
    honest accounts;
  - a *fraud cycle* emits an entry row from an honest victim to a mule, then
    an exit row from that same mule to a boss. The exit comes 1 to 6 hours
    59 minutes later and forwards the amount less a 2 to 5 percent fee;
- copies the sender's full profile and the receiver's name, agency and
  account into every row from the canonical profile;
- fills the categorical columns a row still lacks from a fixed option/weight
  table, without overwriting what the scenario already set;
- emits one label row per account, derived from its pool.

Every random value is an input of the model: the Faker profiles and ids, the
shuffle, the scenario draw, every pool pick and redraw, amounts, times, delay,
fee, city, bank code and each categorical draw. The clock (`datetime.now()`)
is the parameter `now`. Python's `rng.choice(pool)` becomes
`pool[d % |pool|]` for a draw `d`. `rng.choices(options, weights)` becomes a
cumulative-weight bisection at `u * total` for a uniform `u` in [0, 1). The
shuffle is any permutation of the ids (equal multisets).

Amounts are integer cents and rounding to cents is `floor(x + 0.5)`.
Timestamps are whole minutes and dates are day numbers. A `choice` from an
empty pool, which raises in Python, is modelled as a `Failure(EmptyPool(...))`
result naming that pool.

Modules:

- `Results` — Option and Result.
- `Tables` — the categorical table (`cat_cols`) and the weighted choice.
- `Accounts` — profiles, the account table, the role pools and the labels.
- `Transactions` — rows, draws, and one iteration of the loop with its row
  assembly and categorical fill.
- `Generator` — the loop over all iterations and the complete generator.

### Behaviour of the generator

- There are two scenarios, `normal` with weight 0.85 and `fraud_cycle` with
  weight 0.15.
- The loop runs exactly `num_rows` iterations, so the table holds between
  `num_rows` and `2 * num_rows` rows.
- There are `int(num_rows * 0.3)` accounts.
- A normal iteration draws both accounts from the honest pool. Its amount is
  50–2000 and its time lies in the last 60 days.
- A fraud entry's amount is 2000–15000 and its time lies between 30 and 2
  days ago.
- The fee is 2–5 percent. The delay is `randint(1,6)` hours plus
  `randint(0,59)` minutes.
- A row carries the iteration number `i` as its id, and a fraud exit row
  carries `i + 1000000`.
- The credit score and the birth date are profile draws and are inputs here.
- With `num_rows <= 0` the transaction table is empty, and selecting its
  columns for the output fails; the model reports `MissingColumns`.

## Model

| member | source | states |
|---|---|---|
| Tables.ColumnWellFormed | src/data/generate_synthetic_data.py:42-67 | for every categorical column, options and weights have the same positive length, every weight is positive and the weights sum to 1 |
| Tables.CatOrderCovers | src/data/generate_synthetic_data.py:42-67 | the fill order lists each of the six categorical columns exactly once, so `cat_cols.items()` visits every column |
| Tables.WeightedChoice | src/data/generate_synthetic_data.py:291 | the bisection over cumulative weights returns an index in range whose cumulative stretch `[Sum(w[..k]), Sum(w[..k+1]))` contains the point, and every earlier cumulative weight is at most the point |
| Tables.Choose | src/data/generate_synthetic_data.py:144 | for a uniform draw `u` in [0, 1) and a positive total, the scaled point `u * total` falls in the stretch of the chosen index |
| Tables.CatOption | src/data/generate_synthetic_data.py:291 | the drawn value is one of the column's options, namely the one whose cumulative-weight stretch contains the draw |
| Transactions.ScenarioIsWeightedChoice | src/data/generate_synthetic_data.py:144 | the scenario threshold at 0.85 is exactly the weighted choice over `[0.85, 0.15]`, whose weights sum to 1 |
| Accounts.NumAccounts | src/data/generate_synthetic_data.py:87 | there are `floor(0.3 * num_rows)` accounts (`10n <= 3N < 10(n+1)`), and none for a non-positive row count |
| Accounts.AccountTable | src/data/generate_synthetic_data.py:89-108 | the table's keys are exactly the generated ids, and each id maps to the profile generated with it |
| Accounts.BuildAccounts | src/data/generate_synthetic_data.py:89-108 | the loop that stores one profile per unique id produces exactly that table |
| Accounts.ShuffleDistinct | src/data/generate_synthetic_data.py:111-112 | a shuffle of distinct ids is distinct, of the same length and with the same members |
| Accounts.SplitPools | src/data/generate_synthetic_data.py:116-121 | `mules ++ bosses ++ honest` is the shuffled list, with `len(mules) = floor(5n/100)`, `len(bosses) = floor(n/100)` and the rest honest |
| Accounts.PoolSlices | src/data/generate_synthetic_data.py:119-121 | the three pools are the consecutive slices `[:m]`, `[m:m+b]` and `[m+b:]` of the shuffled ids |
| Accounts.PoolMembership | src/data/generate_synthetic_data.py:116-121 | for distinct ids, the pool holding the id at position `k` is decided by `k` alone, in both directions |
| Accounts.PoolsPartition | src/data/generate_synthetic_data.py:116-121 | an id is in the shuffled list iff it is in some pool, and no id is in two pools |
| Accounts.PoolSizes | src/data/generate_synthetic_data.py:116-121 | the boss pool is non-empty iff `num_rows >= 334`, the mule pool iff `>= 67`, the honest pool iff `>= 4`, and at least two honest accounts iff `>= 7` |
| Accounts.ExportLabels | src/data/generate_synthetic_data.py:297-312 | one label per shuffled id, in that order; `is_fraud` is 1 iff the id is a mule or boss, the role is Mule for mules, else Boss for bosses, else Honest |
| Accounts.LabelsByPosition | src/data/generate_synthetic_data.py:297-312 | with pools sliced from distinct ids, the labels read Mule for the first block, Boss for the next and Honest for the rest, and exactly the first two blocks carry the fraud flag |
| Accounts.FraudLabelCount | src/data/generate_synthetic_data.py:297-312 | the number of fraud-flagged labels equals `len(mules) + len(bosses)` |
| Transactions.AssembleRow | src/data/generate_synthetic_data.py:165-192 | the row carries the given id, amount, time, sender, receiver, city and bank code, embeds exactly the sender's canonical profile and the receiver's name/agency/account, and has only its transaction type set |
| Transactions.FillMissing | src/data/generate_synthetic_data.py:288-291 | the fill loop adds exactly the missing columns, never changes a column already present, and gives a missing column its drawn value |
| Transactions.FillCategorical | src/data/generate_synthetic_data.py:287-291 | after the fill every categorical column is present, a column already set keeps its value, a missing one gets the option its draw selects, and nothing outside the categorical columns changes |
| Transactions.FilledRowComplete | src/data/generate_synthetic_data.py:287-291 | a filled 'pix' row keeps its profile snapshots, stays 'pix', and has an option from the table in every categorical column |
| Transactions.Pick | src/data/generate_synthetic_data.py:153 | a choice from a non-empty pool is a member of the pool |
| Transactions.PickReceiver | src/data/generate_synthetic_data.py:154-155 | the redraw loop returns a pool member other than the sender, namely the first receiver draw that differs from the sender |
| Transactions.FreshReceiverNeedsTwo | src/data/generate_synthetic_data.py:155 | the redraw loop can end only when the honest pool holds at least two accounts |
| Transactions.NextPositionIsFresh | src/data/generate_synthetic_data.py:155 | with two or more distinct accounts, some redraw always differs from the sender, so the loop's termination condition can be met |
| Transactions.DelayMinutes | src/data/generate_synthetic_data.py:249-250 | `h` hours plus `m` minutes is 60 to 419 minutes and decomposes back into `h` and `m` |
| Transactions.ExitAmount | src/data/generate_synthetic_data.py:253-254 | the forwarded amount is non-negative, at most the base amount, and 95 to 98 percent of it up to half a cent |
| Transactions.RoundedWithin | src/data/generate_synthetic_data.py:254 | rounding to cents an amount between 95 and 98 percent of the base stays within half a cent of those bounds and never exceeds the base |
| Transactions.RunIteration | src/data/generate_synthetic_data.py:141-291 | one iteration fails iff it must draw from an empty pool, and reports the first one. Otherwise a normal iteration emits one finished 'pix' row from the drawn honest sender to the first receiver redraw that differs from it; a fraud cycle emits an entry row from the drawn honest victim to the drawn mule and an exit row from that same mule to the drawn boss, with ids `i` and `i + 1000000`, exit time = entry time + `h` hours + `m` minutes, and exit amount = the base less the drawn fee, rounded to cents. Every row carries its drawn amount, time, city, bank code and categorical options |
| Transactions.IterationShape | src/data/generate_synthetic_data.py:193 | an iteration emits one row for a normal scenario and two for a fraud cycle, each finished, with ids `i` and `i + 1000000` |
| Generator.OffsetCount | src/data/generate_synthetic_data.py:141-293 | the rows emitted before iteration `i` number `i` plus the fraud cycles among them, at most `2i` |
| Generator.EmitTransactions | src/data/generate_synthetic_data.py:141-293 | the loop fails iff some iteration draws from an empty pool, with that pool's error. Otherwise each iteration's rows sit at its offset exactly as `RunIteration` states them (accounts, amounts, times and categorical values tied to that iteration's draws), every row is finished, and ids are unique when there are at most a million iterations |
| Generator.Generate | src/data/generate_synthetic_data.py:77-322 | the whole generator: the account table, the pools of the shuffled ids, the transaction table as above, and labels that agree with the pools; it fails exactly when an iteration draws from an empty pool, or with `MissingColumns` when `num_rows <= 0` leaves the table empty for the column selection of line 322 |
| Generator.RowCount | src/data/generate_synthetic_data.py:141-293 | the table holds `num_rows` plus one row per fraud cycle, so between `num_rows` and `2 * num_rows` |
| Generator.LargeRunsNeverFail | src/data/generate_synthetic_data.py:116-121 | from 334 requested rows on, no iteration fails and the honest pool holds at least two accounts |

## Left out

- Faker and `random`: names, cpf, postcodes, phones, dates, `bothify` ids,
  cities, bank codes, and the distributions and seed behind every draw are
  inputs. Each input's range is stated where the code promises one.
  Profiles are arbitrary values.
- `fake.unique` becomes the requirement that the generated ids are distinct.
  Ids of the form `acc######` allow at most 1,000,000 distinct values, so the
  source raises once more accounts are needed (from `num_rows` 3,333,337 on);
  the model's ids are arbitrary strings and it has no such limit.
- `remove_acentos` (Unicode NFKD normalisation and ASCII encoding) is library
  behaviour and is not modelled. Names and cities are taken as given.
- The clock is the parameter `now`. The unused `cutoff_date`,
  `fraud_entry_end_global`, `fraud_exit_start_global` and `mule_balances`
  have no effect on the output and are omitted.
- Python floating point is out: `int(n * 0.05)` is `n * 5 / 100`, and
  `round(x, 2)` on amounts is rounding to the nearest cent, half up.
- Generator.Generate: the model consumes the categorical draws of both rows of an
  iteration as given inputs, while the source draws them after building the
  rows. The order of draws in the single random stream is not modelled.
- Generator.Generate: the redraw loop's termination is a requirement. Every reached
  normal iteration with a non-empty honest pool must have a receiver draw
  that differs from its sender. The source loops forever when the honest
  pool holds a single account.
- Accounts.BuildAccounts: states the table's keys and values but not its
  size as a number.
- The pandas DataFrames, the column reordering, the CSV output, argparse and
  the `print` calls are output glue and are not modelled.
