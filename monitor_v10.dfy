/** Version 1.0 of the liquidity monitor: the aggregator
    `get_token_metrics` and `check_new_tokens`, which alerts on every mint
    not tracked in the last 30 minutes. */
module MonitorV10 {
  import opened Wrappers
  import opened PoolRecords

  // ===================== Aggregation: `get_token_metrics` =====================

  /** The per-mint aggregate: summed volume and liquidity, one pool
      address per slot (duplicates kept), and the first price seen. */
  datatype TokenData = TokenData(volume: real, pools: seq<Option<string>>, liquidity: real, latestPrice: Option<real>)

  /** The value the `defaultdict` creates for a mint it has not seen. */
  const Zero := TokenData(0.0, [], 0.0, None)

  function At(data: map<string, TokenData>, m: string): TokenData
  {
    if m in data then data[m] else Zero
  }

  /** The three conversions done before the mint loop. */
  datatype Reading = Reading(vol: real, liq: real, price: real)

  /** `float(pool.get("liquidity", 0)) if pool.get("liquidity") else 0.0`:
      a missing, null or empty liquidity counts as 0. */
  function LiquidityOrZero(f: Field): Option<real>
  {
    match f
    case Absent => Some(0.0)
    case Blank => Some(0.0)
    case Num(v) => Some(v)
    case Garbled => None
  }

  /** None when any of the three conversions raises, which makes the
      `except` clause skip the whole record. */
  function Read(p: Pool): Option<Reading>
  {
    match (Float(p.cumulativeTradeVolume), LiquidityOrZero(p.liquidity), Float(p.currentPrice))
    case (Some(vol), Some(liq), Some(price)) => Some(Reading(vol, liq, price))
    case _ => None
  }

  predicate WellFormed(p: Pool)
  {
    Read(p).Some?
  }

  /** One turn of the mint loop. */
  function AddSlot(acc: map<string, TokenData>, slot: Option<string>, address: Option<string>, x: Reading)
    : map<string, TokenData>
  {
    if !Filled(slot) then acc
    else
      var m := slot.value;
      var cur := At(acc, m);
      acc[m := TokenData(cur.volume + x.vol, cur.pools + [address], cur.liquidity + x.liq,
                         if cur.latestPrice.None? then Some(x.price) else cur.latestPrice)]
  }

  function AddSlots(acc: map<string, TokenData>, slots: seq<Option<string>>, address: Option<string>, x: Reading)
    : map<string, TokenData>
    decreases |slots|
  {
    if slots == [] then acc
    else AddSlot(AddSlots(acc, slots[..|slots| - 1], address, x), slots[|slots| - 1], address, x)
  }

  /** One turn of the pool loop. */
  function AddPool(acc: map<string, TokenData>, p: Pool): map<string, TokenData>
  {
    match Read(p)
    case None => acc
    case Some(x) => AddSlots(acc, Slots(p), p.address, x)
  }

  /** The result of `get_token_metrics`, as a fold over the records in order. */
  function Aggregate(pools: seq<Pool>): map<string, TokenData>
    decreases |pools|
  {
    if pools == [] then map[]
    else AddPool(Aggregate(pools[..|pools| - 1]), pools[|pools| - 1])
  }

  /** `get_token_metrics`: the loop over the records and, inside it, over
      the two mint slots. */
  method GetTokenMetrics(pools: seq<Pool>) returns (data: map<string, TokenData>)
    ensures data == Aggregate(pools)
  {
    data := map[];
    for i := 0 to |pools|
      invariant data == Aggregate(pools[..i])
    {
      var pool := pools[i];
      assert pools[..i + 1][..i] == pools[..i];
      var vol := Float(pool.cumulativeTradeVolume);
      var liq := LiquidityOrZero(pool.liquidity);
      var price := Float(pool.currentPrice);
      if vol.Some? && liq.Some? && price.Some? {
        var x := Reading(vol.value, liq.value, price.value);
        var slots := Slots(pool);
        ghost var start := data;
        for k := 0 to |slots|
          invariant data == AddSlots(start, slots[..k], pool.address, x)
        {
          assert slots[..k + 1][..k] == slots[..k];
          var mint := slots[k];
          if Filled(mint) {
            var m := mint.value;
            var cur := At(data, m);
            var latest := cur.latestPrice;
            if latest.None? {
              latest := Some(x.price);
            }
            data := data[m := TokenData(cur.volume + x.vol, cur.pools + [pool.address], cur.liquidity + x.liq, latest)];
          }
        }
        assert slots[..|slots|] == slots;
      }
    }
    assert pools[..|pools|] == pools;
  }

  // ---- Reference definitions of what an aggregate should hold ----

  /** Some well-formed record references `m`. */
  ghost predicate Mentioned(pools: seq<Pool>, m: string)
  {
    exists i :: 0 <= i < |pools| && WellFormed(pools[i]) && References(pools[i], m)
  }

  function VolumeShare(p: Pool, m: string): real
  {
    match Read(p)
    case None => 0.0
    case Some(x) => Share(p, m, x.vol)
  }

  function LiquidityShare(p: Pool, m: string): real
  {
    match Read(p)
    case None => 0.0
    case Some(x) => Share(p, m, x.liq)
  }

  /** The addresses one record appends for `m`: one per slot holding it. */
  function PoolsShare(p: Pool, m: string): seq<Option<string>>
  {
    if !WellFormed(p) then []
    else (if Holds(p.mintX, m) then [p.address] else []) + (if Holds(p.mintY, m) then [p.address] else [])
  }

  function VolumeSum(pools: seq<Pool>, m: string): real
  {
    if pools == [] then 0.0 else VolumeShare(pools[0], m) + VolumeSum(pools[1..], m)
  }

  function LiquiditySum(pools: seq<Pool>, m: string): real
  {
    if pools == [] then 0.0 else LiquidityShare(pools[0], m) + LiquiditySum(pools[1..], m)
  }

  /** Every address appended for `m`, in record order. */
  function PoolList(pools: seq<Pool>, m: string): seq<Option<string>>
  {
    if pools == [] then [] else PoolsShare(pools[0], m) + PoolList(pools[1..], m)
  }

  /** The number of slots holding `m` over the well-formed records. */
  function SlotTotal(pools: seq<Pool>, m: string): nat
  {
    if pools == [] then 0
    else (if WellFormed(pools[0]) then SlotCount(pools[0], m) else 0) + SlotTotal(pools[1..], m)
  }

  /** `price` is the price of the first well-formed record that references `m`. */
  ghost predicate FirstPriceIs(pools: seq<Pool>, m: string, price: real)
  {
    exists i :: 0 <= i < |pools| && WellFormed(pools[i]) && References(pools[i], m)
      && Read(pools[i]).value.price == price
      && forall j :: 0 <= j < i ==> !(WellFormed(pools[j]) && References(pools[j], m))
  }

  // ---- Lemmas about the aggregate ----

  lemma TwoSlots(acc: map<string, TokenData>, a: Option<string>, b: Option<string>, address: Option<string>, x: Reading)
    ensures AddSlots(acc, [a, b], address, x) == AddSlot(AddSlot(acc, a, address, x), b, address, x)
  {
    assert [a, b][..1] == [a] && [a][..0] == [];
    assert AddSlots(acc, [a], address, x) == AddSlot(AddSlots(acc, [], address, x), a, address, x);
  }

  /** The effect of one record on the aggregate of one mint. */
  lemma AddPoolAt(acc: map<string, TokenData>, p: Pool, m: string)
    ensures m in AddPool(acc, p) <==> m in acc || (WellFormed(p) && References(p, m))
    ensures !(WellFormed(p) && References(p, m)) ==> At(AddPool(acc, p), m) == At(acc, m)
    ensures WellFormed(p) && References(p, m) ==>
      var cur := At(acc, m);
      At(AddPool(acc, p), m)
        == TokenData(cur.volume + VolumeShare(p, m), cur.pools + PoolsShare(p, m), cur.liquidity + LiquidityShare(p, m),
                     if cur.latestPrice.None? then Some(Read(p).value.price) else cur.latestPrice)
  {
    if Read(p).Some? {
      var x := Read(p).value;
      TwoSlots(acc, p.mintX, p.mintY, p.address, x);
      var mid := AddSlot(acc, p.mintX, p.address, x);
      assert AddPool(acc, p) == AddSlot(mid, p.mintY, p.address, x);
      if Holds(p.mintX, m) && Holds(p.mintY, m) {
        assert At(mid, m).pools == At(acc, m).pools + [p.address];
        assert At(acc, m).pools + [p.address] + [p.address] == At(acc, m).pools + PoolsShare(p, m);
      }
    }
  }

  lemma {:induction false} SumsSnoc(pools: seq<Pool>, p: Pool, m: string)
    ensures VolumeSum(pools + [p], m) == VolumeSum(pools, m) + VolumeShare(p, m)
    ensures LiquiditySum(pools + [p], m) == LiquiditySum(pools, m) + LiquidityShare(p, m)
    ensures PoolList(pools + [p], m) == PoolList(pools, m) + PoolsShare(p, m)
  {
    if pools == [] {
      assert (pools + [p])[1..] == [];
    } else {
      assert (pools + [p])[1..] == pools[1..] + [p];
      SumsSnoc(pools[1..], p, m);
    }
  }

  /** The pools list has one entry per slot holding the mint. */
  lemma {:induction false} PoolListLength(pools: seq<Pool>, m: string)
    ensures |PoolList(pools, m)| == SlotTotal(pools, m)
  {
    if pools != [] {
      PoolListLength(pools[1..], m);
    }
  }

  /** The result's keys are exactly the filled mint slots of the
      well-formed records; every key is non-empty and has a price. */
  lemma {:induction false} AggregateKeys(pools: seq<Pool>, m: string)
    ensures m in Aggregate(pools) <==> Mentioned(pools, m)
    ensures m in Aggregate(pools) ==> m != "" && Aggregate(pools)[m].latestPrice.Some?
  {
    if pools != [] {
      var pre, p := pools[..|pools| - 1], pools[|pools| - 1];
      AggregateKeys(pre, m);
      AddPoolAt(Aggregate(pre), p, m);
      if Mentioned(pre, m) {
        var i :| 0 <= i < |pre| && WellFormed(pre[i]) && References(pre[i], m);
        assert pools[i] == pre[i];
      }
      if Mentioned(pools, m) && !(WellFormed(p) && References(p, m)) {
        var i :| 0 <= i < |pools| && WellFormed(pools[i]) && References(pools[i], m);
        assert pre[i] == pools[i];
      }
    }
  }

  /** A mint's volume, liquidity and pools list are the sums and the
      concatenation over the well-formed records, once per slot. */
  lemma {:induction false} AggregateSums(pools: seq<Pool>, m: string)
    ensures At(Aggregate(pools), m).volume == VolumeSum(pools, m)
    ensures At(Aggregate(pools), m).liquidity == LiquiditySum(pools, m)
    ensures At(Aggregate(pools), m).pools == PoolList(pools, m)
    ensures |At(Aggregate(pools), m).pools| == SlotTotal(pools, m)
  {
    PoolListLength(pools, m);
    if pools != [] {
      var pre, p := pools[..|pools| - 1], pools[|pools| - 1];
      assert pools == pre + [p];
      AggregateSums(pre, m);
      AddPoolAt(Aggregate(pre), p, m);
      SumsSnoc(pre, p, m);
      if !(WellFormed(p) && References(p, m)) {
        assert VolumeShare(p, m) == 0.0 && LiquidityShare(p, m) == 0.0 && PoolsShare(p, m) == [];
      }
    }
  }

  /** A mint's `latest_price` is the price of the FIRST well-formed record
      that references it (the `is None` guard makes the first write stick). */
  lemma {:induction false} AggregatePrice(pools: seq<Pool>, m: string)
    ensures Mentioned(pools, m) ==>
      At(Aggregate(pools), m).latestPrice.Some? && FirstPriceIs(pools, m, At(Aggregate(pools), m).latestPrice.value)
    ensures !Mentioned(pools, m) ==> At(Aggregate(pools), m) == Zero
  {
    if pools != [] {
      var pre, p := pools[..|pools| - 1], pools[|pools| - 1];
      var n := |pools| - 1;
      AggregatePrice(pre, m);
      AddPoolAt(Aggregate(pre), p, m);
      if Mentioned(pre, m) {
        var price := At(Aggregate(pre), m).latestPrice.value;
        var i :| 0 <= i < |pre| && WellFormed(pre[i]) && References(pre[i], m)
          && Read(pre[i]).value.price == price
          && forall j :: 0 <= j < i ==> !(WellFormed(pre[j]) && References(pre[j], m));
        assert pools[i] == pre[i];
        forall j | 0 <= j < i ensures !(WellFormed(pools[j]) && References(pools[j], m)) {
          assert pools[j] == pre[j];
        }
        assert At(Aggregate(pools), m).latestPrice == Some(price);
        assert FirstPriceIs(pools, m, price);
      } else if WellFormed(p) && References(p, m) {
        assert pools[n] == p;
        forall j | 0 <= j < n ensures !(WellFormed(pools[j]) && References(pools[j], m)) {
          assert pools[j] == pre[j];
        }
        assert FirstPriceIs(pools, m, Read(p).value.price);
      }
    }
  }

  /** A record that fails conversion leaves the result exactly as it would
      be without that record. */
  lemma {:induction false} MalformedIgnored(before: seq<Pool>, p: Pool, after: seq<Pool>)
    requires !WellFormed(p)
    ensures Aggregate(before + [p] + after) == Aggregate(before + after)
  {
    if after == [] {
      assert (before + [p] + after)[..|before|] == before;
      assert before + after == before;
    } else {
      var rest := after[..|after| - 1];
      MalformedIgnored(before, p, rest);
      assert (before + [p] + after)[..|before + [p] + after| - 1] == before + [p] + rest;
      assert (before + after)[..|before + after| - 1] == before + rest;
    }
  }

  /** Two well-formed records sharing mint A, with liquidities 100 and 250
      and volumes 10 and 5, give A liquidity 350, volume 15, two pools and
      the first record's price. */
  lemma SharedMintExample()
    ensures var p1 := Pool(Some("P1"), Some("A"), Some("B"), Num(100.0), Absent, Num(10.0), Absent, Num(1.0));
      var p2 := Pool(Some("P2"), Some("C"), Some("A"), Num(250.0), Absent, Num(5.0), Absent, Num(2.0));
      var d := Aggregate([p1, p2]);
      && "A" in d && d["A"].liquidity == 350.0 && d["A"].volume == 15.0
      && d["A"].pools == [Some("P1"), Some("P2")] && d["A"].latestPrice == Some(1.0)
  {
    var p1 := Pool(Some("P1"), Some("A"), Some("B"), Num(100.0), Absent, Num(10.0), Absent, Num(1.0));
    var p2 := Pool(Some("P2"), Some("C"), Some("A"), Num(250.0), Absent, Num(5.0), Absent, Num(2.0));
    assert [p1, p2][..1] == [p1] && [p1][..0] == [];
    assert "A" != "B" && "A" != "C" && "A" != "";
    assert Read(p1) == Some(Reading(10.0, 100.0, 1.0)) && Read(p2) == Some(Reading(5.0, 250.0, 2.0));
    assert PoolsShare(p1, "A") == [Some("P1")] && PoolsShare(p2, "A") == [Some("P2")];
    assert Aggregate([p1]) == AddPool(map[], p1);
    assert Aggregate([p1, p2]) == AddPool(Aggregate([p1]), p2);
    AddPoolAt(map[], p1, "A");
    assert At(Aggregate([p1]), "A") == TokenData(10.0, [Some("P1")], 100.0, Some(1.0));
    AddPoolAt(Aggregate([p1]), p2, "A");
  }

  // ===================== Detection: `check_new_tokens` =====================

  /** `timedelta(minutes=30)`, in microseconds, the resolution of `datetime`. */
  const PRUNE_AGE: int := 30 * 60 * 1000000

  /** An entry of the module-level `tracked_tokens` dict. */
  datatype Entry = Entry(initialVolume: real, startTime: int, alerted: bool)

  /** One alert dict: `{mint, volume, pools, liquidity, price}`. */
  datatype Alert = Alert(mint: string, volume: real, pools: nat, liquidity: real, price: Option<real>)

  function AlertFor(m: string, d: TokenData): Alert
  {
    Alert(m, d.volume, |d.pools|, d.liquidity, d.latestPrice)
  }

  /** The entries that survive the clean-up: those at most 30 minutes old. */
  function Prune(tracked: map<string, Entry>, now: int): map<string, Entry>
  {
    map m | m in tracked && now - tracked[m].startTime <= PRUNE_AGE :: tracked[m]
  }

  /** The mints of `data` that the detection loop alerts on. */
  function Unseen(kept: map<string, Entry>, data: map<string, TokenData>): set<string>
  {
    set m | m in data && m != "" && m !in kept
  }

  /** The table after one call, and the set of alerts it returns. */
  datatype Outcome = Outcome(tracked: map<string, Entry>, alerts: set<Alert>)

  /** One call of `check_new_tokens` on a fetch result, at time `now`. */
  function Detect(tracked: map<string, Entry>, fetched: Option<seq<Pool>>, now: int): Outcome
  {
    if !Fetched(fetched) then Outcome(tracked, {})
    else
      var data := Aggregate(fetched.value);
      var kept := Prune(tracked, now);
      var unseen := Unseen(kept, data);
      Outcome(kept + map m | m in unseen :: Entry(data[m].volume, now, false),
              set m | m in unseen :: AlertFor(m, data[m]))
  }

  predicate DistinctMints(alerts: seq<Alert>)
  {
    forall i, j :: 0 <= i < j < |alerts| ==> alerts[i].mint != alerts[j].mint
  }

  /** The table once the mints in `done` have been examined. */
  function Admit(kept: map<string, Entry>, data: map<string, TokenData>, done: set<string>, now: int)
    : map<string, Entry>
  {
    kept + map m | m in Unseen(kept, data) && m in done :: Entry(data[m].volume, now, false)
  }

  /** The alerts once the mints in `done` have been examined. */
  function AlertsIn(kept: map<string, Entry>, data: map<string, TokenData>, done: set<string>): set<Alert>
  {
    set m | m in Unseen(kept, data) && m in done :: AlertFor(m, data[m])
  }

  /** Examining one more mint adds at most its own entry and alert. */
  lemma AdmitStep(kept: map<string, Entry>, data: map<string, TokenData>, done: set<string>, m: string, now: int)
    requires m in data && m !in done
    ensures var isNew := m != "" && m !in Admit(kept, data, done, now);
      && (isNew <==> m in Unseen(kept, data))
      && Admit(kept, data, done + {m}, now)
           == (if isNew then Admit(kept, data, done, now)[m := Entry(data[m].volume, now, false)]
               else Admit(kept, data, done, now))
      && AlertsIn(kept, data, done + {m})
           == AlertsIn(kept, data, done) + (if isNew then {AlertFor(m, data[m])} else {})
      && (forall a :: a in AlertsIn(kept, data, done) ==> a.mint in done)
  {
  }

  lemma AdmitAll(kept: map<string, Entry>, data: map<string, TokenData>, now: int)
    ensures Admit(kept, data, data.Keys, now) == kept + map m | m in Unseen(kept, data) :: Entry(data[m].volume, now, false)
    ensures AlertsIn(kept, data, data.Keys) == set m | m in Unseen(kept, data) :: AlertFor(m, data[m])
  {
  }

  // ---- Lemmas about one call ----

  /** A failed or empty fetch returns no alerts and leaves the table alone. */
  lemma FailedFetchIsNoOp(tracked: map<string, Entry>, fetched: Option<seq<Pool>>, now: int)
    requires !Fetched(fetched)
    ensures Detect(tracked, fetched, now) == Outcome(tracked, {})
  {
  }

  /** The clean-up removes an entry exactly when it is more than 30 minutes
      old; an entry exactly 30 minutes old is kept, unchanged. */
  lemma PruneRule(tracked: map<string, Entry>, now: int, m: string)
    requires m in tracked
    ensures m in Prune(tracked, now) <==> now - tracked[m].startTime <= PRUNE_AGE
    ensures m in Prune(tracked, now) ==> Prune(tracked, now)[m] == tracked[m]
    ensures tracked[m].startTime == now - PRUNE_AGE ==> m in Prune(tracked, now)
  {
  }

  /** Each snapshot mint not kept by the clean-up is alerted, with its own
      volume, pool count, liquidity and price, and then tracked from `now`;
      a kept mint is neither alerted nor modified; a pruned mint absent
      from the snapshot is gone. */
  lemma {:induction false} DetectRule(tracked: map<string, Entry>, fetched: Option<seq<Pool>>, now: int, m: string)
    requires Fetched(fetched)
    ensures var data, kept, o := Aggregate(fetched.value), Prune(tracked, now), Detect(tracked, fetched, now);
      && (m in kept ==> m in o.tracked && o.tracked[m] == tracked[m] && forall a :: a in o.alerts ==> a.mint != m)
      && (m in data && m !in kept ==>
            m in o.tracked && o.tracked[m] == Entry(data[m].volume, now, false)
            && AlertFor(m, data[m]) in o.alerts
            && forall a :: a in o.alerts && a.mint == m ==> a == AlertFor(m, data[m]))
      && (m !in data && m !in kept ==> m !in o.tracked && forall a :: a in o.alerts ==> a.mint != m)
  {
    AggregateKeys(fetched.value, m);
  }

  /** After a successful call every snapshot mint is tracked and no entry
      is more than 30 minutes old. */
  lemma {:induction false} AfterDetection(tracked: map<string, Entry>, fetched: Option<seq<Pool>>, now: int)
    requires Fetched(fetched)
    ensures Aggregate(fetched.value).Keys <= Detect(tracked, fetched, now).tracked.Keys
    ensures forall m :: m in Detect(tracked, fetched, now).tracked ==>
      now - Detect(tracked, fetched, now).tracked[m].startTime <= PRUNE_AGE
  {
    forall m | m in Aggregate(fetched.value) ensures m in Detect(tracked, fetched, now).tracked {
      AggregateKeys(fetched.value, m);
    }
  }

  /** An alert reports the summed volume and liquidity, the number of slots
      that reference the mint, and the price of the first record. */
  lemma {:induction false} AlertContents(tracked: map<string, Entry>, fetched: Option<seq<Pool>>, now: int, a: Alert)
    requires Fetched(fetched) && a in Detect(tracked, fetched, now).alerts
    ensures var pools := fetched.value;
      && Mentioned(pools, a.mint)
      && a.volume == VolumeSum(pools, a.mint)
      && a.liquidity == LiquiditySum(pools, a.mint)
      && a.pools == SlotTotal(pools, a.mint)
      && a.price.Some? && FirstPriceIs(pools, a.mint, a.price.value)
  {
    var pools := fetched.value;
    AggregateKeys(pools, a.mint);
    AggregateSums(pools, a.mint);
    AggregatePrice(pools, a.mint);
  }

  // ===================== The module-level table =====================

  /** The module-level `tracked_tokens` dict, as the one object that owns it. */
  class Tracker {
    var tracked: map<string, Entry>

    constructor ()
      ensures tracked == map[]
    {
      tracked := map[];
    }

    /** `check_new_tokens` at time `now`. */
    method CheckNewTokens(fetched: Option<seq<Pool>>, now: int) returns (alerts: seq<Alert>)
      modifies this
      ensures tracked == Detect(old(tracked), fetched, now).tracked
      ensures (set a | a in alerts) == Detect(old(tracked), fetched, now).alerts
      ensures DistinctMints(alerts)
    {
      if fetched.None? || |fetched.value| == 0 {
        return [];
      }
      var data := GetTokenMetrics(fetched.value);
      RemoveExpired(now);
      alerts := AddUnseen(data, now);
    }

    /** The clean-up: list the entries more than 30 minutes old, then
        delete them. */
    method RemoveExpired(now: int)
      modifies this
      ensures tracked == Prune(old(tracked), now)
    {
      var expired := set m | m in tracked && now - tracked[m].startTime > PRUNE_AGE;
      var pending := expired;
      while pending != {}
        invariant pending <= expired
        invariant tracked == old(tracked) - (expired - pending)
        decreases pending
      {
        var mint :| mint in pending;
        tracked := tracked - {mint};
        pending := pending - {mint};
      }
    }

    /** The detection loop over `current_tokens.items()`. */
    method AddUnseen(data: map<string, TokenData>, now: int) returns (alerts: seq<Alert>)
      modifies this
      ensures tracked == old(tracked) + map m | m in Unseen(old(tracked), data) :: Entry(data[m].volume, now, false)
      ensures (set a | a in alerts) == set m | m in Unseen(old(tracked), data) :: AlertFor(m, data[m])
      ensures DistinctMints(alerts)
    {
      ghost var kept := tracked;
      alerts := [];
      var todo := data.Keys;
      ghost var done: set<string> := {};
      while todo != {}
        invariant todo !! done && todo + done == data.Keys
        invariant tracked == Admit(kept, data, done, now)
        invariant (set a | a in alerts) == AlertsIn(kept, data, done)
        invariant DistinctMints(alerts) && forall a :: a in alerts ==> a.mint in done
        decreases todo
      {
        var mint :| mint in todo;
        AdmitStep(kept, data, done, mint, now);
        if mint != "" && mint !in tracked {
          tracked := tracked[mint := Entry(data[mint].volume, now, false)];
          alerts := alerts + [AlertFor(mint, data[mint])];
        }
        todo := todo - {mint};
        done := done + {mint};
      }
      assert done == data.Keys;
      AdmitAll(kept, data, now);
    }
  }
}
