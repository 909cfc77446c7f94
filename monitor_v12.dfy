/** Version 1.2 of the liquidity monitor: the pool aggregator
    `_process_pools` and the `TokenMonitor` state machine that moves every
    resolved mint into history. */
module MonitorV12 {
  import opened Wrappers
  import opened PoolRecords
  import opened Tracking

  // ===================== Aggregation: `_process_pools` =====================

  /** The per-mint aggregate: summed volume and liquidity, the set of pool
      addresses, and the price of the last record seen. */
  datatype Metrics = Metrics(volume: real, liquidity: real, pools: set<Option<string>>, price: real)

  /** The value the `defaultdict` creates for a mint it has not seen. */
  const Zero := Metrics(0.0, 0.0, {}, 0.0)

  /** The pair `(current_tokens, metrics)`. */
  datatype Snapshot = Snapshot(tokens: set<string>, metrics: map<string, Metrics>)

  /** `metrics[mint]` on the `defaultdict`. */
  function At(metrics: map<string, Metrics>, m: string): Metrics
  {
    if m in metrics then metrics[m] else Zero
  }

  /** The three conversions done before the mint loop. */
  datatype Reading = Reading(vol: real, liq: real, price: real)

  /** None when any of the three conversions raises, which makes the
      `except` clause skip the whole record. */
  function Read(p: Pool): Option<Reading>
  {
    match (Float(p.tradeVolume24h), Float(p.liquidity), Float(p.price))
    case (Some(vol), Some(liq), Some(price)) => Some(Reading(vol, liq, price))
    case _ => None
  }

  predicate WellFormed(p: Pool)
  {
    Read(p).Some?
  }

  /** One turn of the mint loop. */
  function AddSlot(acc: Snapshot, slot: Option<string>, address: Option<string>, x: Reading): Snapshot
  {
    if !Filled(slot) then acc
    else
      var m := slot.value;
      var cur := At(acc.metrics, m);
      Snapshot(acc.tokens + {m},
               acc.metrics[m := Metrics(cur.volume + x.vol, cur.liquidity + x.liq, cur.pools + {address}, x.price)])
  }

  function AddSlots(acc: Snapshot, slots: seq<Option<string>>, address: Option<string>, x: Reading): Snapshot
    decreases |slots|
  {
    if slots == [] then acc
    else AddSlot(AddSlots(acc, slots[..|slots| - 1], address, x), slots[|slots| - 1], address, x)
  }

  /** One turn of the pool loop. */
  function AddPool(acc: Snapshot, p: Pool): Snapshot
  {
    match Read(p)
    case None => acc
    case Some(x) => AddSlots(acc, Slots(p), p.address, x)
  }

  /** The result of `_process_pools`, as a fold over the records in order. */
  function Aggregate(pools: seq<Pool>): Snapshot
    decreases |pools|
  {
    if pools == [] then Snapshot({}, map[])
    else AddPool(Aggregate(pools[..|pools| - 1]), pools[|pools| - 1])
  }

  /** `_process_pools`: the loop over the records and, inside it, over the
      two mint slots. */
  method ProcessPools(pools: seq<Pool>) returns (tokens: set<string>, metrics: map<string, Metrics>)
    ensures Snapshot(tokens, metrics) == Aggregate(pools)
  {
    tokens, metrics := {}, map[];
    for i := 0 to |pools|
      invariant Snapshot(tokens, metrics) == Aggregate(pools[..i])
    {
      var pool := pools[i];
      assert pools[..i + 1][..i] == pools[..i];
      var vol := Float(pool.tradeVolume24h);
      var liq := Float(pool.liquidity);
      var price := Float(pool.price);
      if vol.Some? && liq.Some? && price.Some? {
        var x := Reading(vol.value, liq.value, price.value);
        var slots := Slots(pool);
        ghost var start := Snapshot(tokens, metrics);
        for k := 0 to |slots|
          invariant Snapshot(tokens, metrics) == AddSlots(start, slots[..k], pool.address, x)
        {
          assert slots[..k + 1][..k] == slots[..k];
          var mint := slots[k];
          if Filled(mint) {
            var m := mint.value;
            var cur := At(metrics, m);
            tokens := tokens + {m};
            metrics := metrics[m := Metrics(cur.volume + x.vol, cur.liquidity + x.liq, cur.pools + {pool.address}, x.price)];
          }
        }
        assert slots[..|slots|] == slots;
      }
    }
    assert pools[..|pools|] == pools;
  }

  // ---- Reference definitions of what an aggregate should hold ----

  /** Some well-formed record references `m`. */
  ghost predicate Mentioned(pools: seq<Pool>, m: string)
  {
    exists i :: 0 <= i < |pools| && WellFormed(pools[i]) && References(pools[i], m)
  }

  function VolumeShare(p: Pool, m: string): real
  {
    match Read(p)
    case None => 0.0
    case Some(x) => Share(p, m, x.vol)
  }

  function LiquidityShare(p: Pool, m: string): real
  {
    match Read(p)
    case None => 0.0
    case Some(x) => Share(p, m, x.liq)
  }

  /** The volume of every well-formed record, once per slot holding `m`. */
  function VolumeSum(pools: seq<Pool>, m: string): real
  {
    if pools == [] then 0.0 else VolumeShare(pools[0], m) + VolumeSum(pools[1..], m)
  }

  /** The liquidity of every well-formed record, once per slot holding `m`. */
  function LiquiditySum(pools: seq<Pool>, m: string): real
  {
    if pools == [] then 0.0 else LiquidityShare(pools[0], m) + LiquiditySum(pools[1..], m)
  }

  /** The addresses of the well-formed records that reference `m`. */
  ghost function Addresses(pools: seq<Pool>, m: string): set<Option<string>>
  {
    set i | 0 <= i < |pools| && WellFormed(pools[i]) && References(pools[i], m) :: pools[i].address
  }

  /** `price` is the price of the last well-formed record that references `m`. */
  ghost predicate LastPriceIs(pools: seq<Pool>, m: string, price: real)
  {
    exists i :: 0 <= i < |pools| && WellFormed(pools[i]) && References(pools[i], m)
      && Read(pools[i]).value.price == price
      && forall j :: i < j < |pools| ==> !(WellFormed(pools[j]) && References(pools[j], m))
  }

  // ---- Lemmas about the aggregate ----

  /** The effect of one record on the aggregate of one mint. */
  lemma AddPoolAt(acc: Snapshot, p: Pool, m: string)
    ensures m in AddPool(acc, p).tokens <==> m in acc.tokens || (WellFormed(p) && References(p, m))
    ensures acc.metrics.Keys == acc.tokens ==> AddPool(acc, p).metrics.Keys == AddPool(acc, p).tokens
    ensures !(WellFormed(p) && References(p, m)) ==> At(AddPool(acc, p).metrics, m) == At(acc.metrics, m)
    ensures WellFormed(p) && References(p, m) ==>
      var cur := At(acc.metrics, m);
      At(AddPool(acc, p).metrics, m)
        == Metrics(cur.volume + VolumeShare(p, m), cur.liquidity + LiquidityShare(p, m),
                   cur.pools + {p.address}, Read(p).value.price)
  {
    if Read(p).Some? {
      var x := Read(p).value;
      TwoSlots(acc, p.mintX, p.mintY, p.address, x);
      var mid := AddSlot(acc, p.mintX, p.address, x);
      assert AddPool(acc, p) == AddSlot(mid, p.mintY, p.address, x);
      if Holds(p.mintX, m) && Holds(p.mintY, m) {
        assert At(mid.metrics, m).volume == At(acc.metrics, m).volume + x.vol;
      }
    }
  }

  lemma TwoSlots(acc: Snapshot, a: Option<string>, b: Option<string>, address: Option<string>, x: Reading)
    ensures AddSlots(acc, [a, b], address, x) == AddSlot(AddSlot(acc, a, address, x), b, address, x)
  {
    assert [a, b][..1] == [a] && [a][..0] == [];
    assert AddSlots(acc, [a], address, x) == AddSlot(AddSlots(acc, [], address, x), a, address, x);
  }

  lemma {:induction false} VolumeSumSnoc(pools: seq<Pool>, p: Pool, m: string)
    ensures VolumeSum(pools + [p], m) == VolumeSum(pools, m) + VolumeShare(p, m)
  {
    if pools == [] {
      assert (pools + [p])[1..] == [];
    } else {
      assert (pools + [p])[1..] == pools[1..] + [p];
      VolumeSumSnoc(pools[1..], p, m);
    }
  }

  lemma {:induction false} LiquiditySumSnoc(pools: seq<Pool>, p: Pool, m: string)
    ensures LiquiditySum(pools + [p], m) == LiquiditySum(pools, m) + LiquidityShare(p, m)
  {
    if pools == [] {
      assert (pools + [p])[1..] == [];
    } else {
      assert (pools + [p])[1..] == pools[1..] + [p];
      LiquiditySumSnoc(pools[1..], p, m);
    }
  }

  /** `current_tokens` is exactly the set of filled mint slots of the
      well-formed records, and the aggregate has an entry for each of them
      and for nothing else. */
  lemma {:induction false} AggregateTokens(pools: seq<Pool>, m: string)
    ensures Aggregate(pools).metrics.Keys == Aggregate(pools).tokens
    ensures m in Aggregate(pools).tokens <==> Mentioned(pools, m)
  {
    if pools != [] {
      var pre, p := pools[..|pools| - 1], pools[|pools| - 1];
      AggregateTokens(pre, m);
      AddPoolAt(Aggregate(pre), p, m);
      if Mentioned(pre, m) {
        var i :| 0 <= i < |pre| && WellFormed(pre[i]) && References(pre[i], m);
        assert pools[i] == pre[i];
      }
      if Mentioned(pools, m) && !(WellFormed(p) && References(p, m)) {
        var i :| 0 <= i < |pools| && WellFormed(pools[i]) && References(pools[i], m);
        assert pre[i] == pools[i];
      }
    }
  }

  /** A mint's liquidity and volume are the sums over the well-formed
      records that reference it, counted once per slot; a record that fails
      conversion adds nothing. */
  lemma {:induction false} AggregateSums(pools: seq<Pool>, m: string)
    ensures At(Aggregate(pools).metrics, m).volume == VolumeSum(pools, m)
    ensures At(Aggregate(pools).metrics, m).liquidity == LiquiditySum(pools, m)
  {
    if pools != [] {
      var pre, p := pools[..|pools| - 1], pools[|pools| - 1];
      assert pools == pre + [p];
      AggregateSums(pre, m);
      AddPoolAt(Aggregate(pre), p, m);
      VolumeSumSnoc(pre, p, m);
      LiquiditySumSnoc(pre, p, m);
      if !References(p, m) {
        assert VolumeShare(p, m) == 0.0 && LiquidityShare(p, m) == 0.0;
      }
    }
  }

  /** A mint's `pools` is the set of addresses of the well-formed records
      that reference it. */
  lemma {:induction false} AggregateAddresses(pools: seq<Pool>, m: string)
    ensures At(Aggregate(pools).metrics, m).pools == Addresses(pools, m)
  {
    if pools != [] {
      var pre, p := pools[..|pools| - 1], pools[|pools| - 1];
      AggregateAddresses(pre, m);
      AddPoolAt(Aggregate(pre), p, m);
      var last := if WellFormed(p) && References(p, m) then {p.address} else {};
      forall a ensures a in Addresses(pools, m) <==> a in Addresses(pre, m) + last {
        if a in Addresses(pools, m) {
          var i :| 0 <= i < |pools| && WellFormed(pools[i]) && References(pools[i], m) && pools[i].address == a;
          if i < |pre| {
            assert pre[i] == pools[i];
          }
        }
        if a in Addresses(pre, m) {
          var i :| 0 <= i < |pre| && WellFormed(pre[i]) && References(pre[i], m) && pre[i].address == a;
          assert pools[i] == pre[i];
        }
        if a in last {
          assert pools[|pools| - 1] == p;
        }
      }
    }
  }

  /** A mint's `price` is that of the last well-formed record that
      references it (last write wins); a mint no record references keeps
      the default aggregate. */
  lemma {:induction false} AggregatePrice(pools: seq<Pool>, m: string)
    ensures Mentioned(pools, m) ==> LastPriceIs(pools, m, At(Aggregate(pools).metrics, m).price)
    ensures !Mentioned(pools, m) ==> At(Aggregate(pools).metrics, m) == Zero
  {
    if pools != [] {
      var pre, p := pools[..|pools| - 1], pools[|pools| - 1];
      var n := |pools| - 1;
      AggregatePrice(pre, m);
      AddPoolAt(Aggregate(pre), p, m);
      var price := At(Aggregate(pools).metrics, m).price;
      if WellFormed(p) && References(p, m) {
        assert pools[n] == p;
        assert LastPriceIs(pools, m, price);
      } else {
        if Mentioned(pre, m) {
          var i :| 0 <= i < |pre| && WellFormed(pre[i]) && References(pre[i], m)
            && Read(pre[i]).value.price == price
            && forall j :: i < j < |pre| ==> !(WellFormed(pre[j]) && References(pre[j], m));
          assert pools[i] == pre[i];
          forall j | i < j < |pools| ensures !(WellFormed(pools[j]) && References(pools[j], m)) {
            if j < n {
              assert pools[j] == pre[j];
            }
          }
          assert LastPriceIs(pools, m, price);
        }
        if Mentioned(pools, m) {
          var i :| 0 <= i < |pools| && WellFormed(pools[i]) && References(pools[i], m);
          assert i < n && pre[i] == pools[i];
        }
      }
    }
  }

  /** A record whose volume, liquidity or price fails to convert leaves
      the result exactly as it would be without that record. */
  lemma {:induction false} MalformedIgnored(before: seq<Pool>, p: Pool, after: seq<Pool>)
    requires !WellFormed(p)
    ensures Aggregate(before + [p] + after) == Aggregate(before + after)
  {
    if after == [] {
      assert (before + [p] + after)[..|before|] == before;
      assert before + after == before;
    } else {
      var rest, q := after[..|after| - 1], after[|after| - 1];
      MalformedIgnored(before, p, rest);
      assert (before + [p] + after)[..|before + [p] + after| - 1] == before + [p] + rest;
      assert (before + after)[..|before + after| - 1] == before + rest;
    }
  }

  // ===================== Tracking: `check_tokens` =====================

  /** The monitor's state: `historic_tokens`, `tracked_tokens`, `current_loop`. */
  datatype State = State(historic: set<string>, tracked: map<string, Rec>, currentLoop: int)

  /** The new state after one call, and the set of mints it alerts. */
  datatype Outcome = Outcome(next: State, graduated: set<string>)

  /** History and tracking are disjoint, and no record expires later than
      `MAX_LOOPS - 1` loops after the current one. */
  predicate Inv(s: State)
  {
    && s.historic !! s.tracked.Keys
    && forall m :: m in s.tracked ==> s.tracked[m].expiresAtLoop <= s.currentLoop + MAX_LOOPS - 1
  }

  /** The record opened for a new mint at loop `nowLoop`. */
  function NewRec(cur: Metrics, nowLoop: int): Rec
  {
    Rec(nowLoop + MAX_LOOPS - 1, cur.liquidity, cur.volume)
  }

  /** The tracking table after the loop over `new_listings`. */
  function Enter(tracked: map<string, Rec>, newListings: set<string>, metrics: map<string, Metrics>, nowLoop: int)
    : map<string, Rec>
  {
    map m | m in tracked.Keys + newListings :: if m in tracked then tracked[m] else NewRec(At(metrics, m), nowLoop)
  }

  /** A record after its metrics have been ratcheted with this loop's values. */
  function Current(entered: map<string, Rec>, m: string, metrics: map<string, Metrics>): Rec
    requires m in entered
  {
    Ratchet(entered[m], At(metrics, m).liquidity, At(metrics, m).volume)
  }

  predicate Resolves(r: Rec, nowLoop: int)
  {
    Graduates(r) || Expired(r, nowLoop)
  }

  /** The tracking table once the mints in `done` have been evaluated. */
  function Settle(entered: map<string, Rec>, done: set<string>, metrics: map<string, Metrics>, nowLoop: int)
    : map<string, Rec>
  {
    map m | m in entered && !(m in done && Resolves(Current(entered, m, metrics), nowLoop))
      :: if m in done then Current(entered, m, metrics) else entered[m]
  }

  /** The mints of `done` that graduated or expired. */
  function ResolvedIn(entered: map<string, Rec>, done: set<string>, metrics: map<string, Metrics>, nowLoop: int)
    : set<string>
  {
    set m | m in entered && m in done && Resolves(Current(entered, m, metrics), nowLoop)
  }

  /** The mints of `done` that graduated. */
  function GraduatedIn(entered: map<string, Rec>, done: set<string>, metrics: map<string, Metrics>): set<string>
  {
    set m | m in entered && m in done && Graduates(Current(entered, m, metrics))
  }

  /** The tracking table after the new listings of `snap` are entered. */
  function Entered(s: State, snap: Snapshot): map<string, Rec>
  {
    Enter(s.tracked, snap.tokens - s.historic, snap.metrics, s.currentLoop)
  }

  /** One call of `check_tokens` on a fetch result. */
  function Check(s: State, fetched: Option<seq<Pool>>): Outcome
  {
    if !Fetched(fetched) then Outcome(s, {})
    else
      var snap := Aggregate(fetched.value);
      var entered := Entered(s, snap);
      Outcome(State(s.historic + ResolvedIn(entered, entered.Keys, snap.metrics, s.currentLoop),
                    Settle(entered, entered.Keys, snap.metrics, s.currentLoop),
                    s.currentLoop),
              GraduatedIn(entered, entered.Keys, snap.metrics))
  }

  /** One turn of the loop in `run`: increment `current_loop`, then check. */
  function Cycle(s: State, fetched: Option<seq<Pool>>): Outcome
  {
    Check(s.(currentLoop := s.currentLoop + 1), fetched)
  }

  /** The state after one turn of `run` per fetch result. */
  function Run(s: State, fetches: seq<Option<seq<Pool>>>): State
    decreases |fetches|
  {
    if fetches == [] then s else Run(Cycle(s, fetches[0]).next, fetches[1..])
  }

  /** Evaluating one more mint of the snapshot changes only its own entry. */
  lemma EvaluateStep(entered: map<string, Rec>, done: set<string>, m: string, metrics: map<string, Metrics>, nowLoop: int)
    requires m in entered && m !in done
    ensures var r := Current(entered, m, metrics);
      && Settle(entered, done + {m}, metrics, nowLoop)
           == (if Resolves(r, nowLoop) then Settle(entered, done, metrics, nowLoop) - {m}
               else Settle(entered, done, metrics, nowLoop)[m := r])
      && ResolvedIn(entered, done + {m}, metrics, nowLoop)
           == ResolvedIn(entered, done, metrics, nowLoop) + (if Resolves(r, nowLoop) then {m} else {})
      && GraduatedIn(entered, done + {m}, metrics)
           == GraduatedIn(entered, done, metrics) + (if Graduates(r) then {m} else {})
  {
  }

  // ---- Lemmas about one check ----

  /** A failed or empty fetch returns no alerts and changes nothing; the
      driver still advances the loop counter. */
  lemma FailedFetchIsNoOp(s: State, fetched: Option<seq<Pool>>)
    requires !Fetched(fetched)
    ensures Check(s, fetched) == Outcome(s, {})
    ensures Cycle(s, fetched) == Outcome(State(s.historic, s.tracked, s.currentLoop + 1), {})
  {
  }

  /** History only grows; it gains exactly the mints of the table the check
      evaluates (already tracked or newly entered) that leave tracking; and
      tracking gains only mints of `current_tokens - historic_tokens`. */
  lemma {:induction false} HistoryAbsorbsResolved(s: State, fetched: Option<seq<Pool>>, m: string)
    requires Fetched(fetched)
    ensures var o := Check(s, fetched);
      && s.historic <= o.next.historic
      && (m in Entered(s, Aggregate(fetched.value)) && m !in o.next.tracked ==> m in o.next.historic)
      && (m in o.next.historic - s.historic ==> m !in o.next.tracked && m in Entered(s, Aggregate(fetched.value)))
      && (m in o.next.tracked && m !in s.tracked ==> m in Aggregate(fetched.value).tokens - s.historic)
  {
  }

  /** Disjointness of history and tracking, and the bound on expiry, hold
      after every check. */
  lemma {:induction false} CheckKeepsInv(s: State, fetched: Option<seq<Pool>>)
    requires Inv(s)
    ensures Inv(Check(s, fetched).next)
  {
    if Fetched(fetched) {
      var snap := Aggregate(fetched.value);
      var entered := Entered(s, snap);
      var next := Check(s, fetched).next;
      forall m | m in next.tracked
        ensures m !in next.historic
        ensures next.tracked[m].expiresAtLoop <= next.currentLoop + MAX_LOOPS - 1
      {
        assert m in entered;
        assert next.tracked[m].expiresAtLoop == entered[m].expiresAtLoop;
      }
    }
  }

  lemma {:induction false} CycleKeepsInv(s: State, fetched: Option<seq<Pool>>)
    requires Inv(s)
    ensures Inv(Cycle(s, fetched).next)
  {
    CheckKeepsInv(s.(currentLoop := s.currentLoop + 1), fetched);
  }

  /** A mint already in history is never tracked again. */
  lemma {:induction false} NoRedetection(s: State, fetched: Option<seq<Pool>>, m: string)
    requires Inv(s) && m in s.historic
    ensures m in Check(s, fetched).next.historic && m !in Check(s, fetched).next.tracked
  {
    CheckKeepsInv(s, fetched);
  }

  /** A new mint's record starts from its current aggregate and expires at
      `now_loop + MAX_LOOPS - 1`; a mint already tracked keeps its record. */
  lemma {:induction false} EnteredRecords(s: State, fetched: Option<seq<Pool>>, m: string)
    requires Fetched(fetched)
    ensures var snap := Aggregate(fetched.value);
      && (m in s.tracked ==> Entered(s, snap)[m] == s.tracked[m])
      && (m !in s.tracked && m in snap.tokens && m !in s.historic ==>
            Entered(s, snap)[m] == Rec(s.currentLoop + MAX_LOOPS - 1, At(snap.metrics, m).liquidity,
                                       At(snap.metrics, m).volume))
      && (m !in s.tracked && !(m in snap.tokens && m !in s.historic) ==> m !in Entered(s, snap))
  {
  }

  /** While a mint stays tracked, its best metrics become the maximum of
      the old and the current values and never decrease; a mint absent
      from the snapshot counts as liquidity 0 and volume 0. */
  lemma {:induction false} RatchetUp(s: State, fetched: Option<seq<Pool>>, m: string)
    requires Fetched(fetched)
    requires m in s.tracked && m in Check(s, fetched).next.tracked
    ensures var snap := Aggregate(fetched.value);
      var r, r' := s.tracked[m], Check(s, fetched).next.tracked[m];
      && r' == Ratchet(r, At(snap.metrics, m).liquidity, At(snap.metrics, m).volume)
      && r'.bestLiq >= r.bestLiq && r'.bestVol >= r.bestVol && r'.expiresAtLoop == r.expiresAtLoop
      && (m !in snap.tokens ==> r' == Ratchet(r, 0.0, 0.0))
  {
    var snap := Aggregate(fetched.value);
    if m !in snap.tokens {
      AggregateTokens(fetched.value, m);
    }
  }

  /** A mint is alerted exactly when, after ratcheting, both thresholds
      hold. Expiry plays no part, so graduation wins over expiry. An alerted
      mint ends up in history and out of tracking. */
  lemma {:induction false} GraduationRule(s: State, fetched: Option<seq<Pool>>, m: string)
    requires Fetched(fetched)
    ensures var snap := Aggregate(fetched.value);
      var entered := Entered(s, snap);
      var o := Check(s, fetched);
      && (m in o.graduated <==> m in entered && Graduates(Current(entered, m, snap.metrics)))
      && (m in o.graduated ==> m in o.next.historic && m !in o.next.tracked)
  {
  }

  /** A mint that does not graduate leaves tracking, into history, exactly
      when the loop has reached its expiry. */
  lemma {:induction false} ExpiryRule(s: State, fetched: Option<seq<Pool>>, m: string)
    requires Fetched(fetched)
    requires var snap := Aggregate(fetched.value);
      m in Entered(s, snap) && !Graduates(Current(Entered(s, snap), m, snap.metrics))
    ensures var o := Check(s, fetched);
      && m !in o.graduated
      && (m in o.next.tracked <==> s.currentLoop < Entered(s, Aggregate(fetched.value))[m].expiresAtLoop)
      && (m !in o.next.tracked ==> m in o.next.historic)
  {
  }

  /** A new mint that already meets both thresholds graduates in the same
      call that enters it. */
  lemma {:induction false} ImmediateGraduation(s: State, fetched: Option<seq<Pool>>, m: string)
    requires Fetched(fetched)
    requires var snap := Aggregate(fetched.value);
      && m in snap.tokens && m !in s.historic && m !in s.tracked
      && At(snap.metrics, m).liquidity >= MIN_LIQUIDITY && At(snap.metrics, m).volume >= MIN_VOLUME
    ensures m in Check(s, fetched).graduated && m in Check(s, fetched).next.historic
  {
    EnteredRecords(s, fetched, m);
  }

  /** Every mint still tracked after a successful check expires after the
      loop of that check. */
  lemma {:induction false} StillTrackedIsUnexpired(s: State, fetched: Option<seq<Pool>>, m: string)
    requires Fetched(fetched) && m in Check(s, fetched).next.tracked
    ensures Check(s, fetched).next.tracked[m].expiresAtLoop > s.currentLoop
  {
    var entered := Entered(s, Aggregate(fetched.value));
    assert m in entered;
  }

  // ---- Lemmas about many cycles ----

  /** Once in history, a mint stays in history and out of tracking. */
  lemma {:induction false} HistoryIsFinal(s: State, fetches: seq<Option<seq<Pool>>>, m: string)
    requires Inv(s) && m in s.historic
    ensures Inv(Run(s, fetches))
    ensures m in Run(s, fetches).historic && m !in Run(s, fetches).tracked
    decreases |fetches|
  {
    if fetches != [] {
      var s' := s.(currentLoop := s.currentLoop + 1);
      CycleKeepsInv(s, fetches[0]);
      NoRedetection(s', fetches[0], m);
      HistoryIsFinal(Cycle(s, fetches[0]).next, fetches[1..], m);
    }
  }

  /** A tracked mint is out of tracking, and in history, after the first
      successful check at a loop at or past its expiry. */
  lemma {:induction false} GoneByExpiry(s: State, fetches: seq<Option<seq<Pool>>>, m: string)
    requires Inv(s) && m in s.tracked
    requires |fetches| > 0 && Fetched(fetches[|fetches| - 1])
    requires s.tracked[m].expiresAtLoop <= s.currentLoop + |fetches|
    ensures m in Run(s, fetches).historic && m !in Run(s, fetches).tracked
    decreases |fetches|
  {
    var s' := s.(currentLoop := s.currentLoop + 1);
    var next := Cycle(s, fetches[0]).next;
    CycleKeepsInv(s, fetches[0]);
    if m in next.tracked {
      if Fetched(fetches[0]) {
        RatchetUp(s', fetches[0], m);
      }
      if |fetches| == 1 {
        assert false;
      }
      assert fetches[1..][|fetches[1..]| - 1] == fetches[|fetches| - 1];
      GoneByExpiry(next, fetches[1..], m);
    } else {
      if Fetched(fetches[0]) {
        HistoryAbsorbsResolved(s', fetches[0], m);
      }
      HistoryIsFinal(next, fetches[1..], m);
    }
  }

  /** A mint tracked after the check at loop L (in particular a mint
      entered then) is out of tracking, and in history, after the check of
      any later loop at or past L + MAX_LOOPS - 1 whose fetch succeeds. */
  lemma {:induction false} TrackingWindow(s: State, fetched: Option<seq<Pool>>, fetches: seq<Option<seq<Pool>>>, m: string)
    requires Inv(s) && m in Cycle(s, fetched).next.tracked
    requires |fetches| >= MAX_LOOPS - 1 && Fetched(fetches[|fetches| - 1])
    ensures m in Run(s, [fetched] + fetches).historic && m !in Run(s, [fetched] + fetches).tracked
  {
    var next := Cycle(s, fetched).next;
    CycleKeepsInv(s, fetched);
    assert ([fetched] + fetches)[1..] == fetches;
    GoneByExpiry(next, fetches, m);
  }

  // ===================== The monitor object =====================

  class TokenMonitor {
    var historic: set<string>
    var tracked: map<string, Rec>
    var currentLoop: int

    /** The fields as a `State` value. */
    function Abs(): State
      reads this
    {
      State(historic, tracked, currentLoop)
    }

    predicate Valid()
      reads this
    {
      Inv(Abs())
    }

    /** `__init__`: empty history, nothing tracked, loop 0. */
    constructor ()
      ensures Abs() == State({}, map[], 0) && Valid()
    {
      historic, tracked, currentLoop := {}, map[], 0;
    }

    /** One attempt of `_initial_load`: a non-empty listing seeds history
        with every mint it lists; otherwise nothing changes, and
        `_initial_load` sleeps 30 s and tries again. */
    method InitialLoad(fetched: Option<seq<Pool>>) returns (loaded: bool)
      modifies this
      ensures loaded == Fetched(fetched)
      ensures historic == if loaded then Aggregate(fetched.value).tokens else old(historic)
      ensures tracked == old(tracked) && currentLoop == old(currentLoop)
      ensures old(tracked) == map[] ==> Valid()
    {
      loaded := fetched.Some? && |fetched.value| > 0;
      if loaded {
        var tokens, _ := ProcessPools(fetched.value);
        historic := tokens;
      }
    }

    /** `check_tokens`: enter the new listings, then ratchet, graduate or
        expire every tracked mint. */
    method CheckTokens(fetched: Option<seq<Pool>>) returns (alerts: seq<string>)
      modifies this
      ensures Abs() == Check(old(Abs()), fetched).next
      ensures (set a | a in alerts) == Check(old(Abs()), fetched).graduated
      ensures Distinct(alerts)
      ensures old(Valid()) ==> Valid()
    {
      ghost var s := Abs();
      if fetched.None? || |fetched.value| == 0 {
        return [];
      }
      var tokens, metrics := ProcessPools(fetched.value);
      EnterNewListings(tokens - historic, metrics);
      alerts := EvaluateTracked(metrics);
      if Inv(s) {
        CheckKeepsInv(s, fetched);
      }
    }

    /** The loop over `new_listings` in `check_tokens`. */
    method EnterNewListings(newListings: set<string>, metrics: map<string, Metrics>)
      modifies this`tracked
      ensures tracked == Enter(old(tracked), newListings, metrics, currentLoop)
    {
      var pending := newListings;
      while pending != {}
        invariant pending <= newListings
        invariant tracked == Enter(old(tracked), newListings - pending, metrics, currentLoop)
        decreases pending
      {
        var mint :| mint in pending;
        if mint !in tracked {
          tracked := tracked[mint := NewRec(At(metrics, mint), currentLoop)];
        }
        pending := pending - {mint};
      }
    }

    /** The loop over `list(self.tracked_tokens.items())` in `check_tokens`. */
    method EvaluateTracked(metrics: map<string, Metrics>) returns (alerts: seq<string>)
      modifies this`tracked, this`historic
      ensures tracked == Settle(old(tracked), old(tracked).Keys, metrics, currentLoop)
      ensures historic == old(historic) + ResolvedIn(old(tracked), old(tracked).Keys, metrics, currentLoop)
      ensures (set a | a in alerts) == GraduatedIn(old(tracked), old(tracked).Keys, metrics)
      ensures Distinct(alerts)
    {
      ghost var entered := tracked;
      ghost var done: set<string> := {};
      var nowLoop := currentLoop;
      alerts := [];
      var todo := tracked.Keys;
      while todo != {}
        invariant todo !! done && todo + done == entered.Keys
        invariant tracked == Settle(entered, done, metrics, nowLoop)
        invariant historic == old(historic) + ResolvedIn(entered, done, metrics, nowLoop)
        invariant (set a | a in alerts) == GraduatedIn(entered, done, metrics)
        invariant Distinct(alerts)
        decreases todo
      {
        var mint :| mint in todo;
        var data := tracked[mint];
        var cur := At(metrics, mint);
        data := Ratchet(data, cur.liquidity, cur.volume);
        assert data == Current(entered, mint, metrics);
        EvaluateStep(entered, done, mint, metrics, nowLoop);
        if Graduates(data) {
          assert mint !in GraduatedIn(entered, done, metrics);
          alerts := alerts + [mint];
          tracked := tracked - {mint};
          historic := historic + {mint};
        } else if nowLoop >= data.expiresAtLoop {
          tracked := tracked - {mint};
          historic := historic + {mint};
        } else {
          tracked := tracked[mint := data];
        }
        todo := todo - {mint};
        done := done + {mint};
      }
    }

    /** One turn of `run`: increment `current_loop`, then `check_tokens`. */
    method RunCycle(fetched: Option<seq<Pool>>) returns (alerts: seq<string>)
      modifies this
      ensures Abs() == Cycle(old(Abs()), fetched).next
      ensures (set a | a in alerts) == Cycle(old(Abs()), fetched).graduated
      ensures Distinct(alerts)
      ensures old(Valid()) ==> Valid()
    {
      currentLoop := currentLoop + 1;
      alerts := CheckTokens(fetched);
    }
  }
}
