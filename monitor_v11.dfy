/** Version 1.1 of the liquidity monitor: the same state machine as 1.2,
    except that a record expires at `loop + MAX_LOOPS` and a resolved mint
    is not added to history, so it can be detected again. */
module MonitorV11 {
  import opened Wrappers
  import opened PoolRecords
  import opened Tracking

  // ===================== Aggregation: `_process_pools` =====================

  /** The per-mint aggregate: summed volume and liquidity. */
  datatype Metrics = Metrics(volume: real, liquidity: real)

  /** The value the `defaultdict` creates for a mint it has not seen. */
  const Zero := Metrics(0.0, 0.0)

  /** The pair `(current_tokens, metrics)`. */
  datatype Snapshot = Snapshot(tokens: set<string>, metrics: map<string, Metrics>)

  /** `metrics[mint]` on the `defaultdict`. */
  function At(metrics: map<string, Metrics>, m: string): Metrics
  {
    if m in metrics then metrics[m] else Zero
  }

  /** The two conversions done before the mint loop. */
  datatype Reading = Reading(vol: real, liq: real)

  /** None when either conversion raises, which makes the `except` clause
      skip the whole record. */
  function Read(p: Pool): Option<Reading>
  {
    match (Float(p.cumulativeTradeVolume), Float(p.liquidity))
    case (Some(vol), Some(liq)) => Some(Reading(vol, liq))
    case _ => None
  }

  predicate WellFormed(p: Pool)
  {
    Read(p).Some?
  }

  /** One turn of the mint loop. */
  function AddSlot(acc: Snapshot, slot: Option<string>, x: Reading): Snapshot
  {
    if !Filled(slot) then acc
    else
      var m := slot.value;
      var cur := At(acc.metrics, m);
      Snapshot(acc.tokens + {m}, acc.metrics[m := Metrics(cur.volume + x.vol, cur.liquidity + x.liq)])
  }

  function AddSlots(acc: Snapshot, slots: seq<Option<string>>, x: Reading): Snapshot
    decreases |slots|
  {
    if slots == [] then acc
    else AddSlot(AddSlots(acc, slots[..|slots| - 1], x), slots[|slots| - 1], x)
  }

  /** One turn of the pool loop. */
  function AddPool(acc: Snapshot, p: Pool): Snapshot
  {
    match Read(p)
    case None => acc
    case Some(x) => AddSlots(acc, Slots(p), x)
  }

  /** The result of `_process_pools`, as a fold over the records in order. */
  function Aggregate(pools: seq<Pool>): Snapshot
    decreases |pools|
  {
    if pools == [] then Snapshot({}, map[])
    else AddPool(Aggregate(pools[..|pools| - 1]), pools[|pools| - 1])
  }

  /** `_process_pools`: the loop over the records and, inside it, over the
      two mint slots. */
  method ProcessPools(pools: seq<Pool>) returns (tokens: set<string>, metrics: map<string, Metrics>)
    ensures Snapshot(tokens, metrics) == Aggregate(pools)
  {
    tokens, metrics := {}, map[];
    for i := 0 to |pools|
      invariant Snapshot(tokens, metrics) == Aggregate(pools[..i])
    {
      var pool := pools[i];
      assert pools[..i + 1][..i] == pools[..i];
      var vol := Float(pool.cumulativeTradeVolume);
      var liq := Float(pool.liquidity);
      if vol.Some? && liq.Some? {
        var x := Reading(vol.value, liq.value);
        var slots := Slots(pool);
        ghost var start := Snapshot(tokens, metrics);
        for k := 0 to |slots|
          invariant Snapshot(tokens, metrics) == AddSlots(start, slots[..k], x)
        {
          assert slots[..k + 1][..k] == slots[..k];
          var mint := slots[k];
          if Filled(mint) {
            var m := mint.value;
            var cur := At(metrics, m);
            tokens := tokens + {m};
            metrics := metrics[m := Metrics(cur.volume + x.vol, cur.liquidity + x.liq)];
          }
        }
        assert slots[..|slots|] == slots;
      }
    }
    assert pools[..|pools|] == pools;
  }

  // ---- Reference definitions of what an aggregate should hold ----

  /** Some well-formed record references `m`. */
  ghost predicate Mentioned(pools: seq<Pool>, m: string)
  {
    exists i :: 0 <= i < |pools| && WellFormed(pools[i]) && References(pools[i], m)
  }

  function VolumeShare(p: Pool, m: string): real
  {
    match Read(p)
    case None => 0.0
    case Some(x) => Share(p, m, x.vol)
  }

  function LiquidityShare(p: Pool, m: string): real
  {
    match Read(p)
    case None => 0.0
    case Some(x) => Share(p, m, x.liq)
  }

  /** The volume of every well-formed record, once per slot holding `m`. */
  function VolumeSum(pools: seq<Pool>, m: string): real
  {
    if pools == [] then 0.0 else VolumeShare(pools[0], m) + VolumeSum(pools[1..], m)
  }

  /** The liquidity of every well-formed record, once per slot holding `m`. */
  function LiquiditySum(pools: seq<Pool>, m: string): real
  {
    if pools == [] then 0.0 else LiquidityShare(pools[0], m) + LiquiditySum(pools[1..], m)
  }

  // ---- Lemmas about the aggregate ----

  lemma TwoSlots(acc: Snapshot, a: Option<string>, b: Option<string>, x: Reading)
    ensures AddSlots(acc, [a, b], x) == AddSlot(AddSlot(acc, a, x), b, x)
  {
    assert [a, b][..1] == [a] && [a][..0] == [];
    assert AddSlots(acc, [a], x) == AddSlot(AddSlots(acc, [], x), a, x);
  }

  /** The effect of one record on the aggregate of one mint. */
  lemma AddPoolAt(acc: Snapshot, p: Pool, m: string)
    ensures m in AddPool(acc, p).tokens <==> m in acc.tokens || (WellFormed(p) && References(p, m))
    ensures acc.metrics.Keys == acc.tokens ==> AddPool(acc, p).metrics.Keys == AddPool(acc, p).tokens
    ensures At(AddPool(acc, p).metrics, m)
      == Metrics(At(acc.metrics, m).volume + VolumeShare(p, m), At(acc.metrics, m).liquidity + LiquidityShare(p, m))
  {
    if Read(p).Some? {
      var x := Read(p).value;
      TwoSlots(acc, p.mintX, p.mintY, x);
      var mid := AddSlot(acc, p.mintX, x);
      assert AddPool(acc, p) == AddSlot(mid, p.mintY, x);
    }
  }

  lemma {:induction false} VolumeSumSnoc(pools: seq<Pool>, p: Pool, m: string)
    ensures VolumeSum(pools + [p], m) == VolumeSum(pools, m) + VolumeShare(p, m)
  {
    if pools == [] {
      assert (pools + [p])[1..] == [];
    } else {
      assert (pools + [p])[1..] == pools[1..] + [p];
      VolumeSumSnoc(pools[1..], p, m);
    }
  }

  lemma {:induction false} LiquiditySumSnoc(pools: seq<Pool>, p: Pool, m: string)
    ensures LiquiditySum(pools + [p], m) == LiquiditySum(pools, m) + LiquidityShare(p, m)
  {
    if pools == [] {
      assert (pools + [p])[1..] == [];
    } else {
      assert (pools + [p])[1..] == pools[1..] + [p];
      LiquiditySumSnoc(pools[1..], p, m);
    }
  }

  /** `current_tokens` is exactly the set of filled mint slots of the
      well-formed records, and the aggregate has an entry for each of them
      and for nothing else. */
  lemma {:induction false} AggregateTokens(pools: seq<Pool>, m: string)
    ensures Aggregate(pools).metrics.Keys == Aggregate(pools).tokens
    ensures m in Aggregate(pools).tokens <==> Mentioned(pools, m)
  {
    if pools != [] {
      var pre, p := pools[..|pools| - 1], pools[|pools| - 1];
      AggregateTokens(pre, m);
      AddPoolAt(Aggregate(pre), p, m);
      if Mentioned(pre, m) {
        var i :| 0 <= i < |pre| && WellFormed(pre[i]) && References(pre[i], m);
        assert pools[i] == pre[i];
      }
      if Mentioned(pools, m) && !(WellFormed(p) && References(p, m)) {
        var i :| 0 <= i < |pools| && WellFormed(pools[i]) && References(pools[i], m);
        assert pre[i] == pools[i];
      }
    }
  }

  /** A mint's volume (from `cumulative_trade_volume`) and liquidity are the
      sums over the well-formed records, counted once per slot; a record
      that fails conversion adds nothing. */
  lemma {:induction false} AggregateSums(pools: seq<Pool>, m: string)
    ensures At(Aggregate(pools).metrics, m).volume == VolumeSum(pools, m)
    ensures At(Aggregate(pools).metrics, m).liquidity == LiquiditySum(pools, m)
  {
    if pools != [] {
      var pre, p := pools[..|pools| - 1], pools[|pools| - 1];
      assert pools == pre + [p];
      AggregateSums(pre, m);
      AddPoolAt(Aggregate(pre), p, m);
      VolumeSumSnoc(pre, p, m);
      LiquiditySumSnoc(pre, p, m);
    }
  }

  /** A record whose volume or liquidity fails to convert leaves the
      result exactly as it would be without that record. */
  lemma {:induction false} MalformedIgnored(before: seq<Pool>, p: Pool, after: seq<Pool>)
    requires !WellFormed(p)
    ensures Aggregate(before + [p] + after) == Aggregate(before + after)
  {
    if after == [] {
      assert (before + [p] + after)[..|before|] == before;
      assert before + after == before;
    } else {
      var rest := after[..|after| - 1];
      MalformedIgnored(before, p, rest);
      assert (before + [p] + after)[..|before + [p] + after| - 1] == before + [p] + rest;
      assert (before + after)[..|before + after| - 1] == before + rest;
    }
  }

  // ===================== Tracking: `check_tokens` =====================

  /** The monitor's state: `historic_tokens`, `tracked_tokens`, `current_loop`. */
  datatype State = State(historic: set<string>, tracked: map<string, Rec>, currentLoop: int)

  /** The new state after one call, and the set of mints it alerts. */
  datatype Outcome = Outcome(next: State, graduated: set<string>)

  /** History and tracking are disjoint, and no record expires later than
      `MAX_LOOPS` loops after the current one. */
  predicate Inv(s: State)
  {
    && s.historic !! s.tracked.Keys
    && forall m :: m in s.tracked ==> s.tracked[m].expiresAtLoop <= s.currentLoop + MAX_LOOPS
  }

  /** The record opened for a new mint at loop `nowLoop`. */
  function NewRec(cur: Metrics, nowLoop: int): Rec
  {
    Rec(nowLoop + MAX_LOOPS, cur.liquidity, cur.volume)
  }

  /** The tracking table after the loop over `new_listings`. */
  function Enter(tracked: map<string, Rec>, newListings: set<string>, metrics: map<string, Metrics>, nowLoop: int)
    : map<string, Rec>
  {
    map m | m in tracked.Keys + newListings :: if m in tracked then tracked[m] else NewRec(At(metrics, m), nowLoop)
  }

  /** A record after its metrics have been ratcheted with this loop's values. */
  function Current(entered: map<string, Rec>, m: string, metrics: map<string, Metrics>): Rec
    requires m in entered
  {
    Ratchet(entered[m], At(metrics, m).liquidity, At(metrics, m).volume)
  }

  predicate Resolves(r: Rec, nowLoop: int)
  {
    Graduates(r) || Expired(r, nowLoop)
  }

  /** The tracking table once the mints in `done` have been evaluated. */
  function Settle(entered: map<string, Rec>, done: set<string>, metrics: map<string, Metrics>, nowLoop: int)
    : map<string, Rec>
  {
    map m | m in entered && !(m in done && Resolves(Current(entered, m, metrics), nowLoop))
      :: if m in done then Current(entered, m, metrics) else entered[m]
  }

  /** The mints of `done` that graduated. */
  function GraduatedIn(entered: map<string, Rec>, done: set<string>, metrics: map<string, Metrics>): set<string>
  {
    set m | m in entered && m in done && Graduates(Current(entered, m, metrics))
  }

  /** The tracking table after the new listings of `snap` are entered. */
  function Entered(s: State, snap: Snapshot): map<string, Rec>
  {
    Enter(s.tracked, snap.tokens - s.historic, snap.metrics, s.currentLoop)
  }

  /** One call of `check_tokens` on a fetch result. History is left alone. */
  function Check(s: State, fetched: Option<seq<Pool>>): Outcome
  {
    if !Fetched(fetched) then Outcome(s, {})
    else
      var snap := Aggregate(fetched.value);
      var entered := Entered(s, snap);
      Outcome(State(s.historic, Settle(entered, entered.Keys, snap.metrics, s.currentLoop), s.currentLoop),
              GraduatedIn(entered, entered.Keys, snap.metrics))
  }

  /** One turn of the loop in `run`: increment `current_loop`, then check. */
  function Cycle(s: State, fetched: Option<seq<Pool>>): Outcome
  {
    Check(s.(currentLoop := s.currentLoop + 1), fetched)
  }

  /** Evaluating one more mint of the snapshot changes only its own entry. */
  lemma EvaluateStep(entered: map<string, Rec>, done: set<string>, m: string, metrics: map<string, Metrics>, nowLoop: int)
    requires m in entered && m !in done
    ensures var r := Current(entered, m, metrics);
      && Settle(entered, done + {m}, metrics, nowLoop)
           == (if Resolves(r, nowLoop) then Settle(entered, done, metrics, nowLoop) - {m}
               else Settle(entered, done, metrics, nowLoop)[m := r])
      && GraduatedIn(entered, done + {m}, metrics)
           == GraduatedIn(entered, done, metrics) + (if Graduates(r) then {m} else {})
  {
  }

  // ---- Lemmas about one check ----

  /** A failed or empty fetch returns no alerts and changes nothing; the
      driver still advances the loop counter. */
  lemma FailedFetchIsNoOp(s: State, fetched: Option<seq<Pool>>)
    requires !Fetched(fetched)
    ensures Check(s, fetched) == Outcome(s, {})
    ensures Cycle(s, fetched) == Outcome(State(s.historic, s.tracked, s.currentLoop + 1), {})
  {
  }

  /** `check_tokens` never writes `historic_tokens`, from any state. */
  lemma CheckKeepsHistory(s: State, fetched: Option<seq<Pool>>)
    ensures Check(s, fetched).next.historic == s.historic
  {
  }

  /** `check_tokens` keeps tracking disjoint from history, keeps every
      expiry at most `MAX_LOOPS` ahead, and adds only mints of
      `current_tokens - historic_tokens`. */
  lemma {:induction false} CheckKeepsInv(s: State, fetched: Option<seq<Pool>>)
    requires Inv(s)
    ensures Inv(Check(s, fetched).next)
    ensures Fetched(fetched) ==>
      forall m :: m in Check(s, fetched).next.tracked && m !in s.tracked ==>
        m in Aggregate(fetched.value).tokens - s.historic
  {
    if Fetched(fetched) {
      var snap := Aggregate(fetched.value);
      var entered := Entered(s, snap);
      var next := Check(s, fetched).next;
      forall m | m in next.tracked
        ensures m !in next.historic
        ensures next.tracked[m].expiresAtLoop <= next.currentLoop + MAX_LOOPS
      {
        assert m in entered;
        assert next.tracked[m].expiresAtLoop == entered[m].expiresAtLoop;
      }
    }
  }

  lemma {:induction false} CycleKeepsInv(s: State, fetched: Option<seq<Pool>>)
    requires Inv(s)
    ensures Inv(Cycle(s, fetched).next)
  {
    CheckKeepsInv(s.(currentLoop := s.currentLoop + 1), fetched);
  }

  /** A new mint's record starts from its current aggregate and expires at
      `now_loop + MAX_LOOPS`; a mint already tracked keeps its record. */
  lemma {:induction false} EnteredRecords(s: State, fetched: Option<seq<Pool>>, m: string)
    requires Fetched(fetched)
    ensures var snap := Aggregate(fetched.value);
      && (m in s.tracked ==> Entered(s, snap)[m] == s.tracked[m])
      && (m !in s.tracked && m in snap.tokens && m !in s.historic ==>
            Entered(s, snap)[m] == Rec(s.currentLoop + MAX_LOOPS, At(snap.metrics, m).liquidity,
                                       At(snap.metrics, m).volume))
      && (m !in s.tracked && !(m in snap.tokens && m !in s.historic) ==> m !in Entered(s, snap))
  {
  }

  /** While a mint stays tracked, its best metrics become the maximum of
      the old and the current values and never decrease. */
  lemma {:induction false} RatchetUp(s: State, fetched: Option<seq<Pool>>, m: string)
    requires Fetched(fetched)
    requires m in s.tracked && m in Check(s, fetched).next.tracked
    ensures var snap := Aggregate(fetched.value);
      var r, r' := s.tracked[m], Check(s, fetched).next.tracked[m];
      && r' == Ratchet(r, At(snap.metrics, m).liquidity, At(snap.metrics, m).volume)
      && r'.bestLiq >= r.bestLiq && r'.bestVol >= r.bestVol && r'.expiresAtLoop == r.expiresAtLoop
      && (m !in snap.tokens ==> r' == Ratchet(r, 0.0, 0.0))
  {
    var snap := Aggregate(fetched.value);
    if m !in snap.tokens {
      AggregateTokens(fetched.value, m);
    }
  }

  /** A mint is alerted exactly when, after ratcheting, both thresholds
      hold; the test reads the ratcheted values, and expiry plays no part.
      An alerted mint leaves tracking. */
  lemma {:induction false} GraduationRule(s: State, fetched: Option<seq<Pool>>, m: string)
    requires Fetched(fetched)
    ensures var snap := Aggregate(fetched.value);
      var entered := Entered(s, snap);
      var o := Check(s, fetched);
      && (m in o.graduated <==> m in entered && Graduates(Current(entered, m, snap.metrics)))
      && (m in o.graduated ==> m !in o.next.tracked)
  {
  }

  /** A mint that does not graduate leaves tracking exactly when the loop
      has reached its expiry. */
  lemma {:induction false} ExpiryRule(s: State, fetched: Option<seq<Pool>>, m: string)
    requires Fetched(fetched)
    requires var snap := Aggregate(fetched.value);
      m in Entered(s, snap) && !Graduates(Current(Entered(s, snap), m, snap.metrics))
    ensures var o := Check(s, fetched);
      && m !in o.graduated
      && (m in o.next.tracked <==> s.currentLoop < Entered(s, Aggregate(fetched.value))[m].expiresAtLoop)
  {
  }

  /** Because history is never written, a mint that graduated or expired
      and is still listed at the next successful check, `k` loops later
      (failed cycles in between change nothing but the loop counter), is
      entered again with a fresh record. */
  lemma {:induction false} ResolvedReenters(s: State, fetched: Option<seq<Pool>>, again: Option<seq<Pool>>, k: int, m: string)
    requires Inv(s) && Fetched(fetched) && Fetched(again) && k >= 1
    requires m in Entered(s, Aggregate(fetched.value)) && m !in Check(s, fetched).next.tracked
    requires m in Aggregate(again.value).tokens
    ensures var s' := Check(s, fetched).next.(currentLoop := s.currentLoop + k);
      var snap := Aggregate(again.value);
      Entered(s', snap)[m] == NewRec(At(snap.metrics, m), s.currentLoop + k)
  {
    assert m !in s.historic;
  }

  /** In particular a graduated mint whose aggregate still meets both
      thresholds is alerted again at the next successful check. */
  lemma {:induction false} GraduatedRealerts(s: State, fetched: Option<seq<Pool>>, again: Option<seq<Pool>>, k: int, m: string)
    requires Inv(s) && Fetched(fetched) && Fetched(again) && k >= 1
    requires m in Check(s, fetched).graduated
    requires var snap := Aggregate(again.value);
      m in snap.tokens && At(snap.metrics, m).liquidity >= MIN_LIQUIDITY && At(snap.metrics, m).volume >= MIN_VOLUME
    ensures m in Check(Check(s, fetched).next.(currentLoop := s.currentLoop + k), again).graduated
  {
    GraduationRule(s, fetched, m);
    ResolvedReenters(s, fetched, again, k, m);
  }

  // ===================== The monitor object =====================

  class TokenMonitor {
    var historic: set<string>
    var tracked: map<string, Rec>
    var currentLoop: int

    /** The fields as a `State` value. */
    function Abs(): State
      reads this
    {
      State(historic, tracked, currentLoop)
    }

    predicate Valid()
      reads this
    {
      Inv(Abs())
    }

    /** `__init__`: empty history, nothing tracked, loop 0. */
    constructor ()
      ensures Abs() == State({}, map[], 0) && Valid()
    {
      historic, tracked, currentLoop := {}, map[], 0;
    }

    /** `_initial_load`, a single attempt: a non-empty listing seeds history
        with every mint it lists; on failure history is left as it was
        (empty, right after construction). */
    method InitialLoad(fetched: Option<seq<Pool>>) returns (loaded: bool)
      modifies this
      ensures loaded == Fetched(fetched)
      ensures historic == if loaded then Aggregate(fetched.value).tokens else old(historic)
      ensures tracked == old(tracked) && currentLoop == old(currentLoop)
      ensures old(tracked) == map[] ==> Valid()
    {
      loaded := fetched.Some? && |fetched.value| > 0;
      if loaded {
        var tokens, _ := ProcessPools(fetched.value);
        historic := tokens;
      }
    }

    /** `check_tokens`: enter the new listings, then ratchet, graduate or
        expire every tracked mint. */
    method CheckTokens(fetched: Option<seq<Pool>>) returns (alerts: seq<string>)
      modifies this
      ensures Abs() == Check(old(Abs()), fetched).next
      ensures (set a | a in alerts) == Check(old(Abs()), fetched).graduated
      ensures Distinct(alerts)
      ensures old(Valid()) ==> Valid()
    {
      ghost var s := Abs();
      if fetched.None? || |fetched.value| == 0 {
        return [];
      }
      var tokens, metrics := ProcessPools(fetched.value);
      EnterNewListings(tokens - historic, metrics);
      alerts := EvaluateTracked(metrics);
      if Inv(s) {
        CheckKeepsInv(s, fetched);
      }
    }

    /** The loop over `new_listings` in `check_tokens`. */
    method EnterNewListings(newListings: set<string>, metrics: map<string, Metrics>)
      modifies this`tracked
      ensures tracked == Enter(old(tracked), newListings, metrics, currentLoop)
    {
      var pending := newListings;
      while pending != {}
        invariant pending <= newListings
        invariant tracked == Enter(old(tracked), newListings - pending, metrics, currentLoop)
        decreases pending
      {
        var mint :| mint in pending;
        if mint !in tracked {
          tracked := tracked[mint := NewRec(At(metrics, mint), currentLoop)];
        }
        pending := pending - {mint};
      }
    }

    /** The loop over `list(self.tracked_tokens.items())` in `check_tokens`. */
    method EvaluateTracked(metrics: map<string, Metrics>) returns (alerts: seq<string>)
      modifies this`tracked
      ensures tracked == Settle(old(tracked), old(tracked).Keys, metrics, currentLoop)
      ensures (set a | a in alerts) == GraduatedIn(old(tracked), old(tracked).Keys, metrics)
      ensures Distinct(alerts)
    {
      ghost var entered := tracked;
      ghost var done: set<string> := {};
      var nowLoop := currentLoop;
      alerts := [];
      var todo := tracked.Keys;
      while todo != {}
        invariant todo !! done && todo + done == entered.Keys
        invariant tracked == Settle(entered, done, metrics, nowLoop)
        invariant (set a | a in alerts) == GraduatedIn(entered, done, metrics)
        invariant Distinct(alerts)
        decreases todo
      {
        var mint :| mint in todo;
        var data := tracked[mint];
        var cur := At(metrics, mint);
        data := Ratchet(data, cur.liquidity, cur.volume);
        assert data == Current(entered, mint, metrics);
        EvaluateStep(entered, done, mint, metrics, nowLoop);
        if Graduates(data) {
          assert mint !in GraduatedIn(entered, done, metrics);
          alerts := alerts + [mint];
          tracked := tracked - {mint};
        } else if nowLoop >= data.expiresAtLoop {
          tracked := tracked - {mint};
        } else {
          tracked := tracked[mint := data];
        }
        todo := todo - {mint};
        done := done + {mint};
      }
    }

    /** One turn of `run`: increment `current_loop`, then `check_tokens`. */
    method RunCycle(fetched: Option<seq<Pool>>) returns (alerts: seq<string>)
      modifies this
      ensures Abs() == Cycle(old(Abs()), fetched).next
      ensures (set a | a in alerts) == Cycle(old(Abs()), fetched).graduated
      ensures Distinct(alerts)
      ensures old(Valid()) ==> Valid()
    {
      currentLoop := currentLoop + 1;
      alerts := CheckTokens(fetched);
    }
  }
}
