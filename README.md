# Liquidity monitor: token tracking, modelled in Dafny

The liquidity monitor polls a listing of liquidity pools and watches for new
token mints. Each cycle it folds the raw pool records into per-mint aggregates
(summed liquidity and volume). It compares the mints seen against a history
of mints already known. Each new mint gets a tracking record that holds its
best liquidity and volume so far and the loop at which it expires. A tracked
mint *graduates* (it is alerted and moved into history) when both its best
liquidity and its best volume reach their thresholds. It *expires* (it is
moved into history without an alert) once its loop is reached. The repository
holds three versions of this logic, and each one is one module here:

- `MonitorV12` (`Crypto-bot/Liquidity_monitor1.2.py`), the canonical version.
  It has the aggregator `_process_pools` and the `TokenMonitor` class, whose
  fields `historic`, `tracked` and `currentLoop` are updated in place by
  `CheckTokens` and `RunCycle`.
- `MonitorV11` (`Crypto-bot/Liquidity_monitor1.1.py`) is the same machine
  with two differences. A record expires at `loop + MAX_LOOPS`, where 1.2 has
  `loop + MAX_LOOPS - 1`. A resolved mint is not written to history, so it can
  be entered again and alerted again.
- `MonitorV10` (`Crypto-bot/Liquidity_monitor1.0.py`) is the earlier design.
  `get_token_metrics` keeps the first price it sees and one pool address per
  mint slot. `check_new_tokens` alerts on every mint that is not tracked. It
  also drops tracked entries that are more than 30 minutes old. The
  module-level `tracked_tokens` dict is the one field of the class `Tracker`.

Three modules are shared. `PoolRecords` describes the raw records: each
numeric field is classified by what Python's `float()` and truthiness make
of it (`Absent`, `Blank`, `Num(v)`, `Garbled`). `Tracking` holds the
thresholds (`MIN_LIQUIDITY` 5000, `MIN_VOLUME` 20000, `MAX_LOOPS` 5) and the
tracking record with its ratchet. `Wrappers` holds `Option`.

Every loop of the core (the aggregation loops and the tracking loops) is a
Dafny method with a loop. Each method is proved equal to a pure
specification function: `Aggregate` is the fold over the records, `Check`
and `Cycle` give one call of `check_tokens` and one turn of `run`, and
`Detect` gives one call of `check_new_tokens`. The lemmas prove what the
source promises about those functions.

Three behaviours of the code shape the model:

- **Malformed fields.** In all three versions every `float()` conversion
  of a record runs before its mint loop. One failed conversion therefore
  makes the `except` clause skip the whole record, and the record
  contributes nothing to any mint (`MalformedIgnored`).
- **Expiry loop.** Version 1.2 enters a mint with
  `expires_at_loop = now_loop + MAX_LOOPS - 1`. Version 1.1 uses
  `now_loop + MAX_LOOPS`. Each module follows its own file.
- **Empty listings.** The guard `if not pools` treats an empty listing
  exactly like a failed fetch (`PoolRecords.Fetched`).

## Model

| member | source | states |
|---|---|---|
| `Tracking.Ratchet` | Crypto-bot/Liquidity_monitor1.2.py:124-126 | the new best liquidity (volume) is at least the old best and the current value and equals one of them, so it is their maximum; the expiry loop is unchanged |
| `MonitorV12.ProcessPools` | Crypto-bot/Liquidity_monitor1.2.py:58-82 | the loop over records and mint slots returns exactly `Aggregate(pools)`, the in-order fold over the records |
| `MonitorV12.AggregateTokens` | Crypto-bot/Liquidity_monitor1.2.py:63-77 | `current_tokens` holds exactly the mints in a non-empty slot of some well-formed record, and the metrics have keys for those mints and no others |
| `MonitorV12.AggregateSums` | Crypto-bot/Liquidity_monitor1.2.py:63-75 | a mint's volume (`trade_volume_24h`) and liquidity equal the sums over the well-formed records, counted once per slot holding the mint, computed independently by head recursion |
| `MonitorV12.AggregateAddresses` | Crypto-bot/Liquidity_monitor1.2.py:69-76 | a mint's `pools` is the set of addresses of the well-formed records that reference it |
| `MonitorV12.AggregatePrice` | Crypto-bot/Liquidity_monitor1.2.py:64-77 | a mint's price is that of the last well-formed record referencing it; a mint no well-formed record references gets the default aggregate |
| `MonitorV12.MalformedIgnored` | Crypto-bot/Liquidity_monitor1.2.py:64-80 | inserting a record whose volume, liquidity or price fails to convert, anywhere in the list, leaves the whole result unchanged |
| `MonitorV12.FailedFetchIsNoOp` | Crypto-bot/Liquidity_monitor1.2.py:97-99 | a failed or empty fetch returns no alerts and leaves the state unchanged; a cycle still increments `current_loop` |
| `MonitorV12.HistoryAbsorbsResolved` | Crypto-bot/Liquidity_monitor1.2.py:102-150 | history only grows; a mint of the table this check evaluates (already tracked or newly entered) that leaves tracking goes into history; a mint added to history was in that table and is not tracked; tracking gains only mints of `current_tokens - historic_tokens` |
| `MonitorV12.CheckKeepsInv` | Crypto-bot/Liquidity_monitor1.2.py:101-150 | a check keeps history and tracking disjoint and keeps every expiry at most `MAX_LOOPS - 1` loops ahead |
| `MonitorV12.CycleKeepsInv` | Crypto-bot/Liquidity_monitor1.2.py:166-171 | incrementing the loop and then checking keeps the same invariant |
| `MonitorV12.NoRedetection` | Crypto-bot/Liquidity_monitor1.2.py:102-107 | a mint in history stays in history and is not tracked after the check |
| `MonitorV12.EnteredRecords` | Crypto-bot/Liquidity_monitor1.2.py:106-113 | a newly listed mint gets `expires_at_loop = now_loop + MAX_LOOPS - 1` and best values equal to its current aggregate; an already-tracked mint keeps its record; nothing else is entered |
| `MonitorV12.RatchetUp` | Crypto-bot/Liquidity_monitor1.2.py:119-126 | a mint that stays tracked gets the maximum of its old and current values, its best values never decrease, its expiry is kept, and a mint absent from the snapshot is ratcheted with 0 |
| `MonitorV12.GraduationRule` | Crypto-bot/Liquidity_monitor1.2.py:141-145 | a mint is alerted if and only if both ratcheted thresholds hold, whatever its expiry; an alerted mint ends in history and out of tracking |
| `MonitorV12.ExpiryRule` | Crypto-bot/Liquidity_monitor1.2.py:147-150 | a mint that does not graduate is not alerted, stays tracked if and only if `now_loop < expires_at_loop`, and otherwise goes into history |
| `MonitorV12.ImmediateGraduation` | Crypto-bot/Liquidity_monitor1.2.py:106-145 | a new mint whose current aggregate meets both thresholds is alerted, and put into history, in the very call that enters it |
| `MonitorV12.StillTrackedIsUnexpired` | Crypto-bot/Liquidity_monitor1.2.py:147-150 | every mint still tracked after a successful check expires after that check's loop |
| `MonitorV12.HistoryIsFinal` | Crypto-bot/Liquidity_monitor1.2.py:102-150 | over any run of cycles, a mint in history stays in history and is never tracked again |
| `MonitorV12.GoneByExpiry` | Crypto-bot/Liquidity_monitor1.2.py:141-150 | a tracked mint is in history and out of tracking after any run of cycles whose last check succeeds at a loop at or past its expiry |
| `MonitorV12.TrackingWindow` | Crypto-bot/Liquidity_monitor1.2.py:106-171 | a mint tracked after the cycle of loop L is in history and out of tracking after MAX_LOOPS - 1 or more further cycles whose last check succeeds, whether or not it graduated |
| `MonitorV12.TokenMonitor.constructor` | Crypto-bot/Liquidity_monitor1.2.py:26-29 | empty history, empty tracking, loop 0, invariant established |
| `MonitorV12.TokenMonitor.InitialLoad` | Crypto-bot/Liquidity_monitor1.2.py:84-94 | one attempt: a non-empty listing sets history to its `current_tokens`; otherwise nothing changes; tracking and the loop are untouched |
| `MonitorV12.TokenMonitor.CheckTokens` | Crypto-bot/Liquidity_monitor1.2.py:96-152 | the new fields equal `Check` of the old ones; the alerts are duplicate-free and are exactly `Check`'s graduated set; the invariant is kept |
| `MonitorV12.TokenMonitor.EnterNewListings` | Crypto-bot/Liquidity_monitor1.2.py:106-114 | the loop over `new_listings` leaves tracking equal to `Enter` of the old table |
| `MonitorV12.TokenMonitor.EvaluateTracked` | Crypto-bot/Liquidity_monitor1.2.py:116-152 | the loop over a snapshot of the table ratchets every record and removes exactly the graduated and the expired ones; it adds exactly those to history and alerts exactly the graduated ones, each once |
| `MonitorV12.TokenMonitor.RunCycle` | Crypto-bot/Liquidity_monitor1.2.py:166-171 | the loop counter is incremented, then a check runs; the new fields equal `Cycle` of the old ones |
| `MonitorV11.ProcessPools` | Crypto-bot/Liquidity_monitor1.1.py:48-68 | the loop over records and mint slots returns exactly `Aggregate(pools)` |
| `MonitorV11.AggregateTokens` | Crypto-bot/Liquidity_monitor1.1.py:52-66 | `current_tokens` holds exactly the mints in a non-empty slot of some well-formed record; the metrics keys equal it |
| `MonitorV11.AggregateSums` | Crypto-bot/Liquidity_monitor1.1.py:52-63 | a mint's volume (`cumulative_trade_volume`) and liquidity equal the sums over the well-formed records, counted once per slot |
| `MonitorV11.MalformedIgnored` | Crypto-bot/Liquidity_monitor1.1.py:52-66 | a record whose volume or liquidity fails to convert leaves the result unchanged |
| `MonitorV11.FailedFetchIsNoOp` | Crypto-bot/Liquidity_monitor1.1.py:79-81 | a failed or empty fetch returns no alerts and changes nothing; a cycle still increments the loop |
| `MonitorV11.CheckKeepsHistory` | Crypto-bot/Liquidity_monitor1.1.py:78-119 | from any state, a check leaves `historic_tokens` unchanged: no line of `check_tokens` writes it |
| `MonitorV11.CheckKeepsInv` | Crypto-bot/Liquidity_monitor1.1.py:83-117 | a check keeps tracking disjoint from history, keeps expiries at most `MAX_LOOPS` ahead, and enters only mints of `current_tokens - historic_tokens` |
| `MonitorV11.CycleKeepsInv` | Crypto-bot/Liquidity_monitor1.1.py:129-134 | incrementing the loop and then checking keeps the invariant |
| `MonitorV11.EnteredRecords` | Crypto-bot/Liquidity_monitor1.1.py:88-94 | a new mint gets `expires_at_loop = now_loop + MAX_LOOPS` and its current aggregate as best values; an existing record is not overwritten |
| `MonitorV11.RatchetUp` | Crypto-bot/Liquidity_monitor1.1.py:98-106 | a mint that stays tracked gets the maximum of old and current values, never decreasing, with its expiry kept; an absent mint counts as 0 |
| `MonitorV11.GraduationRule` | Crypto-bot/Liquidity_monitor1.1.py:108-113 | a mint is alerted if and only if both thresholds hold on the ratcheted values (the test reads the updated record); an alerted mint leaves tracking |
| `MonitorV11.ExpiryRule` | Crypto-bot/Liquidity_monitor1.1.py:115-117 | a non-graduating mint is not alerted and stays tracked if and only if `now_loop < expires_at_loop` |
| `MonitorV11.ResolvedReenters` | Crypto-bot/Liquidity_monitor1.1.py:84-117 | a mint that graduated or expired in the check of loop L, and is still listed at any later successful check at loop L + k (k >= 1, failed cycles in between), is entered again with a fresh record expiring at L + k + MAX_LOOPS |
| `MonitorV11.GraduatedRealerts` | Crypto-bot/Liquidity_monitor1.1.py:84-113 | a graduated mint whose aggregate at any later successful check (k >= 1 loops on, failed cycles in between) still meets both thresholds is alerted again |
| `MonitorV11.TokenMonitor.constructor` | Crypto-bot/Liquidity_monitor1.1.py:26-29 | empty history, empty tracking, loop 0 |
| `MonitorV11.TokenMonitor.InitialLoad` | Crypto-bot/Liquidity_monitor1.1.py:70-76 | a non-empty listing seeds history with its `current_tokens`; a failed fetch leaves history as it was (empty after construction) |
| `MonitorV11.TokenMonitor.CheckTokens` | Crypto-bot/Liquidity_monitor1.1.py:78-119 | the new fields equal `Check` of the old ones; the alerts are duplicate-free and exactly the graduated set; the invariant is kept |
| `MonitorV11.TokenMonitor.EnterNewListings` | Crypto-bot/Liquidity_monitor1.1.py:88-94 | the loop over `new_listings` leaves tracking equal to `Enter` of the old table |
| `MonitorV11.TokenMonitor.EvaluateTracked` | Crypto-bot/Liquidity_monitor1.1.py:96-119 | the loop over a snapshot of the table ratchets every record, removes exactly the graduated and expired ones, and alerts exactly the graduated ones, each once |
| `MonitorV11.TokenMonitor.RunCycle` | Crypto-bot/Liquidity_monitor1.1.py:129-134 | the loop counter is incremented, then a check runs; the new fields equal `Cycle` of the old ones |
| `MonitorV10.GetTokenMetrics` | Crypto-bot/Liquidity_monitor1.0.py:23-53 | the loop over records and mint slots returns exactly `Aggregate(pools)` |
| `MonitorV10.AggregateKeys` | Crypto-bot/Liquidity_monitor1.0.py:33-51 | the result's keys are exactly the non-empty mints of well-formed records, and each has a price |
| `MonitorV10.AggregateSums` | Crypto-bot/Liquidity_monitor1.0.py:35-45 | volume and liquidity (missing or empty liquidity counting 0) are sums over well-formed records per slot; `pools` is one address per slot in record order, duplicates kept, so its length is the slot count |
| `MonitorV10.PoolListLength` | Crypto-bot/Liquidity_monitor1.0.py:40-45 | the reference pools list has one entry per slot occurrence |
| `MonitorV10.AggregatePrice` | Crypto-bot/Liquidity_monitor1.0.py:38-47 | `latest_price` is the `current_price` of the first well-formed record referencing the mint |
| `MonitorV10.MalformedIgnored` | Crypto-bot/Liquidity_monitor1.0.py:33-51 | a record that fails conversion leaves the result unchanged |
| `MonitorV10.SharedMintExample` | Crypto-bot/Liquidity_monitor1.0.py:33-47 | two records sharing a mint with liquidities 100 and 250 and volumes 10 and 5 give 350, 15, two pools and the first price |
| `MonitorV10.FailedFetchIsNoOp` | Crypto-bot/Liquidity_monitor1.0.py:59-61 | a failed or empty fetch returns no alerts and leaves `tracked_tokens` unchanged |
| `MonitorV10.PruneRule` | Crypto-bot/Liquidity_monitor1.0.py:67-71 | an entry is removed if and only if it is more than 30 minutes old; one exactly 30 minutes old is kept, unchanged |
| `MonitorV10.DetectRule` | Crypto-bot/Liquidity_monitor1.0.py:73-89 | each snapshot mint not kept after pruning is alerted with its own data and then tracked from `now`; a kept mint is neither alerted nor modified; a pruned mint missing from the snapshot is gone |
| `MonitorV10.AfterDetection` | Crypto-bot/Liquidity_monitor1.0.py:68-82 | after a successful call every snapshot mint is tracked and no entry is more than 30 minutes old |
| `MonitorV10.AlertContents` | Crypto-bot/Liquidity_monitor1.0.py:83-89 | an alert reports the summed volume and liquidity, the number of referencing slots, and the first record's price |
| `MonitorV10.Tracker.constructor` | Crypto-bot/Liquidity_monitor1.0.py:7 | the table starts empty |
| `MonitorV10.Tracker.CheckNewTokens` | Crypto-bot/Liquidity_monitor1.0.py:56-90 | the new table equals `Detect` of the old one; the alerts are exactly `Detect`'s alert set, one per mint |
| `MonitorV10.Tracker.RemoveExpired` | Crypto-bot/Liquidity_monitor1.0.py:67-71 | listing the old entries and then deleting them leaves exactly `Prune` of the table |
| `MonitorV10.Tracker.AddUnseen` | Crypto-bot/Liquidity_monitor1.0.py:73-90 | the detection loop adds an entry and an alert for exactly the non-empty mints that are not tracked, each once |

## Left out

- HTTP fetching: 1.2's `fetch_pools` makes up to three attempts, each failed attempt followed by a 5 s sleep; 1.1's `fetch_pools` and 1.0's `fetch_all_pools` make a single attempt; every request has a 10 s timeout. The fetch result is an `Option<seq<Pool>>` parameter, where `None` is the failure each version's fetch reports, so in 1.1 and 1.0 one failed request is already a failed fetch.
- Telegram (`send_contract`, client start and disconnect, and the commented-out send in 1.1): these are foreign side effects; the model returns the alerts that would be sent.
- The infinite `while True` loops, `asyncio` sleeps, the `except` recovery sleeps and `KeyboardInterrupt`: only one cycle step is modelled (`RunCycle`, `CheckNewTokens`). `Run` composes many steps for the lemmas.
- `MonitorV12.TokenMonitor.InitialLoad`: models one attempt of the retry-forever loop of `_initial_load`. It reports `loaded` instead of sleeping 30 s and retrying.
- Console and environment glue: `print` and `_log`, the status block (`Liquidity_monitor1.2.py:129-138`), `_clear_terminal`, `load_dotenv` and `os.getenv`.
- Floating point: amounts are Dafny `real`, so sums are exact and addition order does not matter. IEEE rounding, NaN and infinity are not modelled.
- String parsing: `float()` is abstracted by `Field`. Only numbers, convertible and non-convertible strings, null and missing keys are modelled. Other JSON values (booleans, lists) and non-string mint fields are not.
- Clock: `datetime.now()` becomes the integer parameter `now`, in microseconds. `added_at` (1.2) and `first_seen` (1.0) are informational and omitted.
- `MonitorV12.TokenMonitor.CheckTokens`: states the set of alerts and that none repeats, not their order. Python dicts iterate in insertion order; the model picks mints of a set in any order. The same holds for `MonitorV11.TokenMonitor.CheckTokens` and `MonitorV10.Tracker.CheckNewTokens`.
- `defaultdict` insertions: reading `metrics[mint]` for a mint absent from the snapshot inserts a zero entry into a local dict. The model reads the zero value (`At`) without inserting it, because the dict is discarded after the call.
- A record that is not a dict, where `pool.get` raises an uncaught `AttributeError`, is not modelled: records are always `Pool` values.
