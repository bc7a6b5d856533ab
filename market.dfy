/**
 * What the two market-making engines share: the exchange's vocabulary (instruments, sides,
 * lifespans), the calls an engine makes on the exchange gateway (kept as a log of actions),
 * the best-price tracker behind `update_best_record`, the arbitrage signals and the choice of
 * target quotes from the two touches.
 */
module Market {

  const TICK_SIZE_IN_CENTS := 100
  const POSITION_LIMIT := 90

  /** The two order books: the FUTURE (reference, hedge only) and the ETF (quoted). */
  datatype Instrument = Future | Etf

  /** `Side.BID`/`Side.BUY` and `Side.ASK`/`Side.SELL` are the same two values. */
  datatype Side = Buy | Sell

  datatype Lifespan = FillAndKill | GoodForDay

  /**
   * One call on the exchange gateway: `send_insert_order`, `send_cancel_order` or
   * `send_hedge_order`. Every handler appends the calls it makes to a log of these.
   */
  datatype Action =
    | Insert(id: int, side: Side, price: int, volume: int, lifespan: Lifespan)
    | Cancel(id: int)
    | Hedge(id: int, side: Side, price: int, volume: int)
  {
    /** Inserts and hedges take a new id from the order-id counter; a cancel names an old one. */
    predicate Issues()
    {
      !Cancel?
    }
  }

  datatype Option<T> = None | Some(value: T)

  function Min(a: int, b: int): int { if a <= b then a else b }
  function Max(a: int, b: int): int { if a >= b then a else b }
  function Abs(x: int): int { if x >= 0 then x else -x }
  function RealAbs(x: real): real { if x >= 0.0 then x else -x }

  predicate OnTick(price: int)
  {
    price % TICK_SIZE_IN_CENTS == 0
  }

  /** The gateway calls for a list of order ids, in order. */
  function Cancels(ids: seq<int>): (r: seq<Action>)
    ensures |r| == |ids| && forall i :: 0 <= i < |r| ==> r[i] == Cancel(ids[i])
  {
    seq(|ids|, i requires 0 <= i < |ids| => Cancel(ids[i]))
  }

  // ---------------------------------------------------------------------------------------------
  // Guaranteed-cross hedge prices

  /** The exchange's price bounds MINIMUM_BID and MAXIMUM_ASK, which come from outside the engine. */
  datatype Venue = Venue(minimumBid: nat, maximumAsk: nat)

  /** MIN_BID_NEAREST_TICK: the first tick strictly above the minimum bid. */
  function MinBidNearestTick(v: Venue): (p: int)
    ensures OnTick(p)
    ensures v.minimumBid < p <= v.minimumBid + TICK_SIZE_IN_CENTS
  {
    (v.minimumBid + TICK_SIZE_IN_CENTS) / TICK_SIZE_IN_CENTS * TICK_SIZE_IN_CENTS
  }

  /** MAX_ASK_NEAREST_TICK: the last tick at or below the maximum ask. */
  function MaxAskNearestTick(v: Venue): (p: int)
    ensures OnTick(p)
    ensures p <= v.maximumAsk < p + TICK_SIZE_IN_CENTS
  {
    v.maximumAsk / TICK_SIZE_IN_CENTS * TICK_SIZE_IN_CENTS
  }

  // ---------------------------------------------------------------------------------------------
  // Best-price tracker (`update_best_record`)

  /** The last best bid and ask seen per instrument (a missing key: never seen) and the sequence cursor. */
  datatype Tracker = Tracker(bestBid: map<Instrument, int>, bestAsk: map<Instrument, int>, sequence: int)

  const INITIAL_TRACKER := Tracker(map[], map[], -1)

  /** Stores `price` for `instrument` unless it is 0, which means "no price this time". */
  function Record(best: map<Instrument, int>, instrument: Instrument, price: int): (r: map<Instrument, int>)
    ensures price != 0 ==> instrument in r && r[instrument] == price
    ensures price == 0 ==> r == best
    ensures r.Keys == best.Keys + (if price != 0 then {instrument} else {})
    ensures forall i :: i in best && i != instrument ==> r[i] == best[i]
  {
    if price != 0 then best[instrument := price] else best
  }

  /** `update_best_record`: the cursor becomes the larger of the two sequence numbers; prices update per field. */
  function Observe(t: Tracker, instrument: Instrument, sequence: int, newBestAsk: int, newBestBid: int): (r: Tracker)
    ensures r.sequence >= t.sequence && r.sequence >= sequence
    ensures r.sequence == t.sequence || r.sequence == sequence
    ensures r.bestAsk == Record(t.bestAsk, instrument, newBestAsk)
    ensures r.bestBid == Record(t.bestBid, instrument, newBestBid)
  {
    Tracker(Record(t.bestBid, instrument, newBestBid), Record(t.bestAsk, instrument, newBestAsk), Max(sequence, t.sequence))
  }

  /** Every stored price is a multiple of the tick. */
  ghost predicate TrackerOnTick(t: Tracker)
  {
    (forall i :: i in t.bestBid ==> OnTick(t.bestBid[i])) &&
    (forall i :: i in t.bestAsk ==> OnTick(t.bestAsk[i]))
  }

  // ---------------------------------------------------------------------------------------------
  // Arbitrage signals and target quotes

  /** The ETF bid is more than a tick above the FUTURE ask, and there is room to sell. */
  predicate SellSignal(etfBid: int, futureAsk: int, position: int)
  {
    etfBid - TICK_SIZE_IN_CENTS > futureAsk && position > -POSITION_LIMIT
  }

  /** The ETF ask is more than a tick below the FUTURE bid, and there is room to buy. */
  predicate BuySignal(etfAsk: int, futureBid: int, position: int)
  {
    etfAsk + TICK_SIZE_IN_CENTS < futureBid && position < POSITION_LIMIT
  }

  /** An opportunistic fill-and-kill order. */
  datatype Arbitrage = NoArbitrage | Arbitrage(side: Side, price: int, volume: int)

  /**
   * The ETF bid is farther from the FUTURE mid-price than the ETF ask. The source compares
   * `abs(mid - bid) > abs(mid - ask)` with `mid = (ask + bid) / 2.`; both sides doubled.
   */
  predicate BidFarther(etfBid: int, etfAsk: int, futureBid: int, futureAsk: int)
  {
    Abs(futureAsk + futureBid - 2 * etfBid) > Abs(futureAsk + futureBid - 2 * etfAsk)
  }

  lemma HalfAbs(x: int)
    ensures RealAbs(x as real / 2.0) == Abs(x) as real / 2.0
  {
  }

  /** The doubled integer comparison decides exactly what the midpoint comparison decides. */
  lemma MidpointComparison(etfBid: int, etfAsk: int, futureBid: int, futureAsk: int)
    ensures
      var mid := (futureAsk + futureBid) as real / 2.0;
      BidFarther(etfBid, etfAsk, futureBid, futureAsk) <==>
      RealAbs(mid - etfBid as real) > RealAbs(mid - etfAsk as real)
  {
    var mid := (futureAsk + futureBid) as real / 2.0;
    var db := futureAsk + futureBid - 2 * etfBid;
    var da := futureAsk + futureBid - 2 * etfAsk;
    assert mid - etfBid as real == db as real / 2.0;
    assert mid - etfAsk as real == da as real / 2.0;
    HalfAbs(db);
    HalfAbs(da);
  }

  datatype Quote = Quote(bid: int, ask: int)

  /**
   * The quote when there is no arbitrage: the ETF side farther from the FUTURE mid is joined at
   * the ETF touch; the other side is placed at least a tick away and no tighter than the FUTURE touch.
   */
  function Targets(etfBid: int, etfAsk: int, futureBid: int, futureAsk: int): (q: Quote)
    ensures q.ask >= q.bid + TICK_SIZE_IN_CENTS
    ensures BidFarther(etfBid, etfAsk, futureBid, futureAsk) ==>
              q.bid == etfBid && q.ask >= futureAsk &&
              (q.ask == etfBid + TICK_SIZE_IN_CENTS || q.ask == futureAsk)
    ensures !BidFarther(etfBid, etfAsk, futureBid, futureAsk) ==>
              q.ask == etfAsk && q.bid <= futureBid &&
              (q.bid == etfAsk - TICK_SIZE_IN_CENTS || q.bid == futureBid)
    ensures OnTick(etfBid) && OnTick(etfAsk) && OnTick(futureBid) && OnTick(futureAsk) ==>
              OnTick(q.bid) && OnTick(q.ask)
  {
    if BidFarther(etfBid, etfAsk, futureBid, futureAsk) then
      OnTickStep(etfBid);
      Quote(etfBid, Max(etfBid + TICK_SIZE_IN_CENTS, futureAsk))
    else
      OnTickStep(etfAsk);
      Quote(Min(etfAsk - TICK_SIZE_IN_CENTS, futureBid), etfAsk)
  }

  /** A tick away from a price on the tick is on the tick. */
  lemma OnTickStep(p: int)
    ensures OnTick(p) ==> OnTick(p + TICK_SIZE_IN_CENTS) && OnTick(p - TICK_SIZE_IN_CENTS)
  {
    assert p + TICK_SIZE_IN_CENTS == p + 1 * TICK_SIZE_IN_CENTS;
  }

  // ---------------------------------------------------------------------------------------------
  // Properties of the orders one handler sends

  /** Each order is sized so that its own complete fill keeps the position within the limit. */
  ghost predicate WithinLimit(actions: seq<Action>, position: int)
  {
    forall a :: a in actions && a.Insert? ==>
      (a.side == Buy ==> position + a.volume <= POSITION_LIMIT) &&
      (a.side == Sell ==> position - a.volume >= -POSITION_LIMIT)
  }

  /** Each resting order is for at least one lot unit and at most `lot`. */
  ghost predicate RestingSized(actions: seq<Action>, lot: int)
  {
    forall a :: a in actions && a.Insert? && a.lifespan == GoodForDay ==> 1 <= a.volume <= lot
  }

  /** Every order price is a multiple of the tick. */
  ghost predicate PricesOnTick(actions: seq<Action>)
  {
    forall a :: a in actions && a.Insert? ==> OnTick(a.price)
  }

  /** What a handler appends to a log is what follows the old log. */
  lemma AppendedSlice(log: seq<Action>, added: seq<Action>)
    ensures log <= log + added && (log + added)[|log|..] == added
  {
  }

  /** What a handler appends, in two steps. */
  lemma SliceSplit(a: seq<Action>, b: seq<Action>, c: seq<Action>)
    requires a <= b <= c
    ensures c[|a|..] == b[|a|..] + c[|b|..]
  {
  }

  // ---------------------------------------------------------------------------------------------
  // Order ids (`itertools.count(1)`)

  /** Every id taken from the counter is positive, below the counter, and ids are taken in increasing order. */
  ghost predicate FreshLog(log: seq<Action>, nextId: int)
  {
    (forall i :: 0 <= i < |log| && log[i].Issues() ==> 0 < log[i].id < nextId) &&
    (forall i, j :: 0 <= i < j < |log| && log[i].Issues() && log[j].Issues() ==> log[i].id < log[j].id)
  }

  lemma IssueKeepsFresh(log: seq<Action>, nextId: int, a: Action)
    requires FreshLog(log, nextId) && nextId > 0
    requires a.Issues() && a.id == nextId
    ensures FreshLog(log + [a], nextId + 1)
  {
  }

  lemma CancelsKeepFresh(log: seq<Action>, nextId: int, ids: seq<int>)
    requires FreshLog(log, nextId)
    ensures FreshLog(log + Cancels(ids), nextId)
  {
    var l := log + Cancels(ids);
    forall i | 0 <= i < |l|
      ensures l[i] == if i < |log| then log[i] else Cancel(ids[i - |log|])
    {
    }
  }
}
