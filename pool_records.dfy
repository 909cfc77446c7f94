/** Raw pool records as the pair-listing endpoint returns them. All three
    versions of the liquidity monitor read these records. */
module PoolRecords {
  import opened Wrappers

  /** One numeric field of a raw JSON pool record, classified by what
      Python's `float()` and truthiness make of it. */
  datatype Field =
    | Absent        // the key is missing, so `pool.get(key, 0)` yields the number 0
    | Blank         // present but JSON null or the empty string
    | Num(v: real)  // a JSON number, or a string that `float()` accepts
    | Garbled       // a non-empty string that `float()` rejects

  /** `float(pool.get(key, 0))`. None stands for the TypeError or
      ValueError that `float()` raises. */
  function Float(f: Field): Option<real>
  {
    match f
    case Absent => Some(0.0)
    case Num(v) => Some(v)
    case _ => None
  }

  /** A pool record. Each version reads a different subset of the fields. */
  datatype Pool = Pool(
    address: Option<string>,
    mintX: Option<string>,
    mintY: Option<string>,
    liquidity: Field,
    tradeVolume24h: Field,          // `trade_volume_24h`, read by 1.2
    cumulativeTradeVolume: Field,   // `cumulative_trade_volume`, read by 1.0 and 1.1
    price: Field,                   // `price`, read by 1.2
    currentPrice: Field)            // `current_price`, read by 1.0

  /** A mint slot that passes the `if not mint: continue` test. */
  predicate Filled(slot: Option<string>)
  {
    slot.Some? && slot.value != ""
  }

  /** The slot is filled and holds `m`. */
  predicate Holds(slot: Option<string>, m: string)
  {
    Filled(slot) && slot.value == m
  }

  /** The list `[pool.get('mint_x'), pool.get('mint_y')]` that the mint loop walks. */
  function Slots(p: Pool): seq<Option<string>>
  {
    [p.mintX, p.mintY]
  }

  predicate References(p: Pool, m: string)
  {
    Holds(p.mintX, m) || Holds(p.mintY, m)
  }

  /** The part of a pool-level amount attributed to `m`: the amount once
      for every slot that holds `m`. */
  function Share(p: Pool, m: string, amount: real): real
  {
    (if Holds(p.mintX, m) then amount else 0.0) + (if Holds(p.mintY, m) then amount else 0.0)
  }

  /** The number of slots of `p` that hold `m`. */
  function SlotCount(p: Pool, m: string): nat
  {
    (if Holds(p.mintX, m) then 1 else 0) + (if Holds(p.mintY, m) then 1 else 0)
  }

  /** The `if not pools` guard: a failed fetch (None) and an empty listing
      are both treated as "nothing fetched". */
  predicate Fetched(fetched: Option<seq<Pool>>)
  {
    fetched.Some? && |fetched.value| > 0
  }
}
