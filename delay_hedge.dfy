/**
 * The ladder engine with delayed hedging (autotrader_delayhedge.py).
 *
 * On an ETF book update the engine either fires a fill-and-kill order, as the single-pair engine
 * does, or builds a ladder of NLADDER bids and NLADDER asks shifted against its inventory. It
 * reconciles the ladders with the orders it tracks per price (`bid_prices`/`ask_prices`),
 * cancelling the levels that are no longer wanted and inserting the missing ones. Fills only
 * move the position; the net exposure is hedged on the FUTURE when trade ticks arrive.
 *
 * `State` is the value of the engine's fields and the functions over it specify the handlers;
 * the class `AutoTrader` holds the same fields and updates them in place.
 */
module DelayHedge {
  import opened Market
  import opened Lists
  import opened PriceLevels

  const LOT_SIZE := 15
  const NLADDER := 3
  /** The inventory skew moves the ladders one tick per this many lots (line 95). */
  const SKEW_STEP := 40
  /** The hedge timer below which the hedge threshold is one tick (line 265). */
  const HEDGE_COOLDOWN := 60

  datatype State = State(
    nextId: int,                  // the next value of `order_ids`
    bids: map<int, int>,          // id -> price of every buy the engine still tracks
    asks: map<int, int>,          // id -> price of every sell
    bidLevels: Levels,            // `bid_prices`: price -> id of the ladder bid resting there
    askLevels: Levels,            // `ask_prices`
    position: int,                // ETF position
    positionFuture: int,          // FUTURE position built by hedges
    hedgeTimer: int,
    tracker: Tracker,             // curr_best_bid, curr_best_ask, curr_sequence
    sent: seq<Action>)            // every gateway call made so far

  /** The outcome of a handler: `ok` is false when it raised on a price that was never recorded. */
  datatype Outcome = Outcome(state: State, ok: bool)

  /**
   * What every handler keeps: ids come from the counter, an id is a buy or a sell but not both,
   * the two price dicts are well-formed dicts of issued ids of their own side, and a level whose
   * order is still tracked names the price that order rests at.
   */
  ghost predicate WellFormed(s: State)
  {
    s.nextId >= 1 &&
    (forall id :: id in s.bids ==> 0 < id < s.nextId) &&
    (forall id :: id in s.asks ==> 0 < id < s.nextId) &&
    s.bids.Keys !! s.asks.Keys &&
    Valid(s.bidLevels) && Valid(s.askLevels) &&
    (forall p :: p in s.bidLevels.ids ==> 0 < s.bidLevels.ids[p] < s.nextId && s.bidLevels.ids[p] !in s.asks) &&
    (forall p :: p in s.askLevels.ids ==> 0 < s.askLevels.ids[p] < s.nextId && s.askLevels.ids[p] !in s.bids) &&
    (forall p :: p in s.bidLevels.ids && s.bidLevels.ids[p] in s.bids ==> s.bids[s.bidLevels.ids[p]] == p) &&
    (forall p :: p in s.askLevels.ids && s.askLevels.ids[p] in s.asks ==> s.asks[s.askLevels.ids[p]] == p) &&
    FreshLog(s.sent, s.nextId)
  }

  /** The state `__init__` sets up. */
  function Initial(): (s: State)
    ensures WellFormed(s)
    ensures s.position == 0 && s.positionFuture == 0 && s.hedgeTimer == 0 && s.sent == []
    ensures s.bids == map[] && s.asks == map[] && s.bidLevels == EMPTY && s.askLevels == EMPTY
  {
    EmptyValid();
    State(1, map[], map[], EMPTY, EMPTY, 0, 0, 0, INITIAL_TRACKER, [])
  }

  // ---------------------------------------------------------------------------------------------
  // Ladders

  /**
   * `price_adjustment`: minus one tick per SKEW_STEP lots of position, with Python's floor
   * division, so a long position lowers the ladders and a short one raises them.
   */
  function Skew(position: int): (adj: int)
    ensures OnTick(adj)
    ensures var k := position / SKEW_STEP; k * SKEW_STEP <= position < k * SKEW_STEP + SKEW_STEP &&
                                           adj == -k * TICK_SIZE_IN_CENTS
    ensures 0 <= position < SKEW_STEP ==> adj == 0
    ensures position >= SKEW_STEP ==> adj <= -TICK_SIZE_IN_CENTS
    ensures position < 0 ==> adj >= TICK_SIZE_IN_CENTS
  {
    -(position / SKEW_STEP) * TICK_SIZE_IN_CENTS
  }

  /** The more the engine is long, the lower it quotes. */
  lemma SkewAntitone(p: int, q: int)
    requires p <= q
    ensures Skew(q) <= Skew(p)
  {
    var kp, kq := p / SKEW_STEP, q / SKEW_STEP;
    assert kp * SKEW_STEP <= p <= q < (kq + 1) * SKEW_STEP;
  }

  /** The bid ladder: NLADDER prices from `top`, one tick apart going down, shifted by `adj`. */
  function BidLadder(top: int, adj: int): (r: seq<int>)
    ensures |r| == NLADDER && r[0] == top + adj
    ensures forall i :: 0 < i < |r| ==> r[i] == r[i - 1] - TICK_SIZE_IN_CENTS
    ensures Distinct(r)
    ensures OnTick(top) && OnTick(adj) ==> forall i :: 0 <= i < |r| ==> OnTick(r[i])
  {
    [top + adj, top + adj - TICK_SIZE_IN_CENTS, top + adj - 2 * TICK_SIZE_IN_CENTS]
  }

  /** The ask ladder: NLADDER prices from `bottom`, one tick apart going up, shifted by `adj`. */
  function AskLadder(bottom: int, adj: int): (r: seq<int>)
    ensures |r| == NLADDER && r[0] == bottom + adj
    ensures forall i :: 0 < i < |r| ==> r[i] == r[i - 1] + TICK_SIZE_IN_CENTS
    ensures Distinct(r)
    ensures OnTick(bottom) && OnTick(adj) ==> forall i :: 0 <= i < |r| ==> OnTick(r[i])
  {
    [bottom + adj, bottom + adj + TICK_SIZE_IN_CENTS, bottom + adj + 2 * TICK_SIZE_IN_CENTS]
  }

  /** Built from a quote at least a tick wide, every ask of the ladder is a tick above every bid. */
  lemma LaddersDoNotCross(q: Quote, adj: int)
    requires q.ask >= q.bid + TICK_SIZE_IN_CENTS
    ensures forall i, j :: 0 <= i < NLADDER && 0 <= j < NLADDER ==>
              AskLadder(q.ask, adj)[i] >= BidLadder(q.bid, adj)[j] + TICK_SIZE_IN_CENTS
  {
  }

  // ---------------------------------------------------------------------------------------------
  // Order-book update: decision

  /** An ETF book update fires at most one fill-and-kill order and sets the two target ladders. */
  datatype Plan = Plan(arbitrage: Arbitrage, bids: seq<int>, asks: seq<int>)

  /**
   * Lines 95-156. None means the update raises because a FUTURE price it reads was never
   * recorded: the FUTURE ask is always read, the FUTURE bid only when no sell fires.
   */
  function Decide(etfBid: int, etfAsk: int, bidVolume: int, bestBid: map<Instrument, int>,
                  bestAsk: map<Instrument, int>, position: int): (r: Option<Plan>)
    ensures r.None? <==>
              etfBid != 0 && etfAsk != 0 &&
              (Future !in bestAsk || (!SellSignal(etfBid, bestAsk[Future], position) && Future !in bestBid))
    ensures etfBid == 0 || etfAsk == 0 ==> r == Some(Plan(NoArbitrage, [], []))
    ensures r.Some? ==> Distinct(r.value.bids) && Distinct(r.value.asks)
    // an arbitrage cycle quotes no ladder, and its order is at most a lot
    ensures r.Some? && r.value.arbitrage.Arbitrage? ==>
              r.value.bids == [] && r.value.asks == [] && r.value.arbitrage.volume <= LOT_SIZE
    ensures r.Some? && etfBid != 0 && etfAsk != 0 && Future in bestAsk && SellSignal(etfBid, bestAsk[Future], position) ==>
              r.value.arbitrage == Arbitrage(Sell, etfBid, Min(Min(bidVolume, position + POSITION_LIMIT), LOT_SIZE)) &&
              position - r.value.arbitrage.volume >= -POSITION_LIMIT
    // the buy is sized from the bid volume, as the source does
    ensures r.Some? && etfBid != 0 && etfAsk != 0 && Future in bestAsk && Future in bestBid &&
            !SellSignal(etfBid, bestAsk[Future], position) && BuySignal(etfAsk, bestBid[Future], position) ==>
              r.value.arbitrage == Arbitrage(Buy, etfAsk, Min(Min(bidVolume, POSITION_LIMIT - position), LOT_SIZE)) &&
              position + r.value.arbitrage.volume <= POSITION_LIMIT
    // no arbitrage: both ladders hang off the anchors of `Targets`, shifted by the skew
    ensures r.Some? && etfBid != 0 && etfAsk != 0 && Future in bestAsk && Future in bestBid &&
            !SellSignal(etfBid, bestAsk[Future], position) && !BuySignal(etfAsk, bestBid[Future], position) ==>
              var q := Targets(etfBid, etfAsk, bestBid[Future], bestAsk[Future]);
              r.value == Plan(NoArbitrage, BidLadder(q.bid, Skew(position)), AskLadder(q.ask, Skew(position)))
  {
    if etfBid != 0 && etfAsk != 0 then
      if Future !in bestAsk then None
      else if SellSignal(etfBid, bestAsk[Future], position) then
        Some(Plan(Arbitrage(Sell, etfBid, Min(Min(bidVolume, position + POSITION_LIMIT), LOT_SIZE)), [], []))
      else if Future !in bestBid then None
      else if BuySignal(etfAsk, bestBid[Future], position) then
        Some(Plan(Arbitrage(Buy, etfAsk, Min(Min(bidVolume, -position + POSITION_LIMIT), LOT_SIZE)), [], []))
      else
        var q := Targets(etfBid, etfAsk, bestBid[Future], bestAsk[Future]);
        var adj := Skew(position);
        Some(Plan(NoArbitrage, BidLadder(q.bid, adj), AskLadder(q.ask, adj)))
    else
      Some(Plan(NoArbitrage, [], []))
  }

  /** The ladder engine's ladders never cross, and stay on the tick when the touches are. */
  lemma PlanSound(etfBid: int, etfAsk: int, bidVolume: int, bestBid: map<Instrument, int>,
                  bestAsk: map<Instrument, int>, position: int)
    requires Decide(etfBid, etfAsk, bidVolume, bestBid, bestAsk, position).Some?
    ensures
      var plan := Decide(etfBid, etfAsk, bidVolume, bestBid, bestAsk, position).value;
      (forall i, j :: 0 <= i < |plan.asks| && 0 <= j < |plan.bids| ==> plan.asks[i] >= plan.bids[j] + TICK_SIZE_IN_CENTS) &&
      (OnTick(etfBid) && OnTick(etfAsk) && TrackerOnTick(Tracker(bestBid, bestAsk, 0)) ==>
         (forall i :: 0 <= i < |plan.bids| ==> OnTick(plan.bids[i])) &&
         (forall i :: 0 <= i < |plan.asks| ==> OnTick(plan.asks[i])) &&
         (plan.arbitrage.Arbitrage? ==> OnTick(plan.arbitrage.price)))
  {
    if etfBid != 0 && etfAsk != 0 && Future in bestAsk && Future in bestBid &&
       !SellSignal(etfBid, bestAsk[Future], position) && !BuySignal(etfAsk, bestBid[Future], position) {
      var q := Targets(etfBid, etfAsk, bestBid[Future], bestAsk[Future]);
      LaddersDoNotCross(q, Skew(position));
    }
  }

  // ---------------------------------------------------------------------------------------------
  // Order-book update: reconciliation and insertion

  /** Sends the fill-and-kill order, if any, and tracks its id at its price, outside the price dicts. */
  function ApplyArbitrage(s: State, a: Arbitrage): (r: State)
    ensures r == s.(nextId := r.nextId, bids := r.bids, asks := r.asks, sent := r.sent)
    ensures a.NoArbitrage? ==> r == s
    ensures a.Arbitrage? ==>
              r.sent == s.sent + [Insert(s.nextId, a.side, a.price, a.volume, FillAndKill)] &&
              r.nextId == s.nextId + 1 &&
              r.bids == (if a.side == Buy then s.bids[s.nextId := a.price] else s.bids) &&
              r.asks == (if a.side == Sell then s.asks[s.nextId := a.price] else s.asks)
  {
    match a
    case NoArbitrage => s
    case Arbitrage(side, price, volume) =>
      var id := s.nextId;
      var s' := s.(nextId := id + 1, sent := s.sent + [Insert(id, side, price, volume, FillAndKill)]);
      match side
      case Sell => s'.(asks := s.asks[id := price])
      case Buy => s'.(bids := s.bids[id := price])
  }

  lemma ApplyArbitrageWellFormed(s: State, a: Arbitrage)
    requires WellFormed(s)
    ensures WellFormed(ApplyArbitrage(s, a))
  {
    if a.Arbitrage? {
      IssueKeepsFresh(s.sent, s.nextId, Insert(s.nextId, a.side, a.price, a.volume, FillAndKill));
    }
  }

  /** The ids of the tracked levels that are not among the targets, in dict order. */
  function Stale(levels: Levels, targets: seq<int>): (r: seq<int>)
    requires Valid(levels)
    ensures |r| <= |levels.order|
    ensures forall i :: 0 <= i < |r| ==> exists p :: p in levels.ids && p !in targets && r[i] == levels.ids[p]
  {
    var prices := Missing(levels.order, targets);
    var ids := IdsAt(levels, prices);
    assert forall i :: 0 <= i < |ids| ==> prices[i] in levels.ids && prices[i] !in targets;
    ids
  }

  /**
   * The other direction: the order of every stale level is cancelled, and the cancels are one per
   * stale price, in the dict's order.
   */
  lemma StaleExactly(levels: Levels, targets: seq<int>)
    requires Valid(levels)
    ensures forall p :: p in levels.ids && p !in targets ==> levels.ids[p] in Stale(levels, targets)
    ensures var r, stale := Stale(levels, targets), Missing(levels.order, targets);
      |r| == |stale| && forall i :: 0 <= i < |r| ==> stale[i] in levels.ids && r[i] == levels.ids[stale[i]]
  {
    var prices := Missing(levels.order, targets);
    var ids := Stale(levels, targets);
    forall p | p in levels.ids && p !in targets
      ensures levels.ids[p] in ids
    {
      assert p in prices;
      var i := FirstIndex(prices, p);
      assert ids[i] == levels.ids[p];
    }
  }

  /** Lines 162-174: one cancel per stale level, the asks first; no dict changes. */
  function Withdraw(s: State, plan: Plan): (r: State)
    requires Valid(s.bidLevels) && Valid(s.askLevels)
    ensures r == s.(sent := r.sent)
    ensures r.sent == s.sent + Cancels(Stale(s.askLevels, plan.asks)) + Cancels(Stale(s.bidLevels, plan.bids))
  {
    s.(sent := s.sent + Cancels(Stale(s.askLevels, plan.asks)) + Cancels(Stale(s.bidLevels, plan.bids)))
  }

  lemma WithdrawWellFormed(s: State, plan: Plan)
    requires WellFormed(s)
    ensures WellFormed(Withdraw(s, plan))
  {
    var askCancels := Stale(s.askLevels, plan.asks);
    CancelsKeepFresh(s.sent, s.nextId, askCancels);
    CancelsKeepFresh(s.sent + Cancels(askCancels), s.nextId, Stale(s.bidLevels, plan.bids));
  }

  /**
   * With no targets (no touch, or an arbitrage cycle) every tracked level of both sides is
   * cancelled, the asks first and each side in dict order, and no new level is left to place.
   */
  lemma WithdrawEverything(s: State, a: Arbitrage)
    requires Valid(s.bidLevels) && Valid(s.askLevels)
    ensures Withdraw(s, Plan(a, [], [])).sent ==
      s.sent + Cancels(IdsAt(s.askLevels, s.askLevels.order)) + Cancels(IdsAt(s.bidLevels, s.bidLevels.order))
    ensures NewLevels(s, Buy, []) == [] && NewLevels(s, Sell, []) == []
  {
    MissingNothing(s.askLevels.order);
    MissingNothing(s.bidLevels.order);
  }

  /**
   * Line 178: the volume of each new ladder bid. Open bids (even those being cancelled) use up
   * a third of a lot each, and the rest of the room under the limit is spread over the levels.
   */
  function BidSize(position: int, openBids: nat): (size: int)
    ensures size <= LOT_SIZE / NLADDER
    ensures size > 0 <==> POSITION_LIMIT - position - openBids * LOT_SIZE / NLADDER >= NLADDER
    ensures size > 0 ==> position + NLADDER * size + openBids * LOT_SIZE / NLADDER <= POSITION_LIMIT
  {
    Min(LOT_SIZE, POSITION_LIMIT - position - openBids * LOT_SIZE / NLADDER) / NLADDER
  }

  /** Line 179, the same for asks on the short side. */
  function AskSize(position: int, openAsks: nat): (size: int)
    ensures size <= LOT_SIZE / NLADDER
    ensures size > 0 <==> position + POSITION_LIMIT - openAsks * LOT_SIZE / NLADDER >= NLADDER
    ensures size > 0 ==> position - NLADDER * size - openAsks * LOT_SIZE / NLADDER >= -POSITION_LIMIT
  {
    Min(LOT_SIZE, position + POSITION_LIMIT - openAsks * LOT_SIZE / NLADDER) / NLADDER
  }

  /** One new ladder order under the next id, recorded in the price dict and the id dict of its side. */
  function PlaceOne(s: State, side: Side, price: int, size: int): (r: State)
  {
    var id := s.nextId;
    var s' := s.(nextId := id + 1, sent := s.sent + [Insert(id, side, price, size, GoodForDay)]);
    match side
    case Buy => s'.(bidLevels := Put(s.bidLevels, price, id), bids := s.bids[id := price])
    case Sell => s'.(askLevels := Put(s.askLevels, price, id), asks := s.asks[id := price])
  }

  /** Lines 180-194: one good-for-day order per remaining target, in order, under consecutive ids. */
  function Place(s: State, side: Side, prices: seq<int>, size: int): (r: State)
    ensures r.nextId == s.nextId + |prices|
    ensures |r.sent| == |s.sent| + |prices| && s.sent <= r.sent
    ensures forall k :: 0 <= k < |prices| ==> r.sent[|s.sent| + k] == Insert(s.nextId + k, side, prices[k], size, GoodForDay)
    ensures r == s.(nextId := r.nextId, sent := r.sent, bids := r.bids, asks := r.asks,
                    bidLevels := r.bidLevels, askLevels := r.askLevels)
    ensures side == Buy ==> r.asks == s.asks && r.askLevels == s.askLevels
    ensures side == Sell ==> r.bids == s.bids && r.bidLevels == s.bidLevels
    decreases |prices|
  {
    if prices == [] then s
    else
      var n := |prices| - 1;
      var r := PlaceOne(Place(s, side, prices[..n], size), side, prices[n], size);
      assert forall k :: 0 <= k < n ==> prices[..n][k] == prices[k];
      r
  }

  /** Placing one more price of the list is one more `PlaceOne`. */
  lemma PlaceStep(s: State, side: Side, prices: seq<int>, size: int, i: int)
    requires 0 <= i < |prices|
    ensures Place(s, side, prices[..i + 1], size) == PlaceOne(Place(s, side, prices[..i], size), side, prices[i], size)
  {
    assert prices[..i + 1][..i] == prices[..i];
  }

  /** The price dict and the id dict of one side. */
  function LevelsOf(s: State, side: Side): Levels
  {
    match side
    case Buy => s.bidLevels
    case Sell => s.askLevels
  }

  function OrdersOf(s: State, side: Side): map<int, int>
  {
    match side
    case Buy => s.bids
    case Sell => s.asks
  }

  lemma PlaceOneWellFormed(s: State, side: Side, price: int, size: int)
    requires WellFormed(s)
    ensures WellFormed(PlaceOne(s, side, price, size))
  {
    IssueKeepsFresh(s.sent, s.nextId, Insert(s.nextId, side, price, size, GoodForDay));
    var r := PlaceOne(s, side, price, size);
    if side == Buy {
      assert r.asks == s.asks && r.askLevels == s.askLevels && r.bids == s.bids[s.nextId := price];
    } else {
      assert r.bids == s.bids && r.bidLevels == s.bidLevels && r.asks == s.asks[s.nextId := price];
    }
  }

  lemma {:induction false} PlaceWellFormed(s: State, side: Side, prices: seq<int>, size: int)
    requires WellFormed(s)
    ensures WellFormed(Place(s, side, prices, size))
    decreases |prices|
  {
    if prices != [] {
      var n := |prices| - 1;
      PlaceWellFormed(s, side, prices[..n], size);
      PlaceOneWellFormed(Place(s, side, prices[..n], size), side, prices[n], size);
    }
  }

  lemma PlaceOneRecords(s: State, side: Side, price: int, size: int)
    requires price !in LevelsOf(s, side).ids
    ensures var r := PlaceOne(s, side, price, size);
      LevelsOf(r, side).order == LevelsOf(s, side).order + [price] &&
      LevelsOf(r, side).ids == LevelsOf(s, side).ids[price := s.nextId] &&
      OrdersOf(r, side) == OrdersOf(s, side)[s.nextId := price] &&
      r.nextId == s.nextId + 1
  {
  }

  lemma PlaceOneOrder(s: State, side: Side, price: int, size: int)
    ensures OrdersOf(PlaceOne(s, side, price, size), side) == OrdersOf(s, side)[s.nextId := price]
  {
  }

  /** The head of a list without its last element is distinct and misses that element. */
  lemma DistinctFront(prices: seq<int>)
    requires Distinct(prices) && prices != []
    ensures var n := |prices| - 1; Distinct(prices[..n]) && prices[n] !in prices[..n]
    ensures prices == prices[..|prices| - 1] + [prices[|prices| - 1]]
    ensures forall p :: p in prices[..|prices| - 1] ==> p in prices
  {
    var n := |prices| - 1;
    var front := prices[..n];
    forall i, j | 0 <= i < j < n ensures front[i] != front[j] {
      assert front[i] == prices[i] && front[j] == prices[j];
    }
    forall i | 0 <= i < n ensures front[i] != prices[n] {
      assert front[i] == prices[i];
    }
  }

  /**
   * Placing distinct prices that are not tracked yet appends them to the price dict of their
   * side and overwrites no level or id that was there before.
   */
  lemma {:induction false} PlaceKeeps(s: State, side: Side, prices: seq<int>, size: int)
    requires Distinct(prices)
    requires forall p :: p in prices ==> p !in LevelsOf(s, side).ids
    ensures var r := Place(s, side, prices, size);
      LevelsOf(r, side).order == LevelsOf(s, side).order + prices &&
      (forall p :: p in LevelsOf(r, side).ids ==> p in LevelsOf(s, side).ids || p in prices) &&
      (forall p :: p in LevelsOf(s, side).ids ==> p in LevelsOf(r, side).ids && LevelsOf(r, side).ids[p] == LevelsOf(s, side).ids[p])
    decreases |prices|
  {
    if prices != [] {
      var n := |prices| - 1;
      var front, p := prices[..n], prices[n];
      DistinctFront(prices);
      PlaceKeeps(s, side, front, size);
      var m := Place(s, side, front, size);
      var r := Place(s, side, prices, size);
      assert r == PlaceOne(m, side, p, size);
      PlaceOneRecords(m, side, p, size);
      assert LevelsOf(r, side).order == LevelsOf(s, side).order + prices by {
        assert LevelsOf(r, side).order == (LevelsOf(s, side).order + front) + [p];
      }
    }
  }

  /** Placing overwrites no order that was tracked before. */
  lemma {:induction false} PlaceKeepsOrders(s: State, side: Side, prices: seq<int>, size: int)
    ensures var r := Place(s, side, prices, size);
      forall id :: id in OrdersOf(s, side) && id < s.nextId ==> id in OrdersOf(r, side) && OrdersOf(r, side)[id] == OrdersOf(s, side)[id]
    decreases |prices|
  {
    if prices != [] {
      var n := |prices| - 1;
      PlaceKeepsOrders(s, side, prices[..n], size);
      PlaceLastOrder(s, side, prices, size);
    }
  }

  /** The last placement of a non-empty list records its id in the id dict of its side. */
  lemma PlaceLastOrder(s: State, side: Side, prices: seq<int>, size: int)
    requires prices != []
    ensures var n := |prices| - 1; var m := Place(s, side, prices[..n], size);
      OrdersOf(Place(s, side, prices, size), side) == OrdersOf(m, side)[s.nextId + n := prices[n]]
  {
    var n := |prices| - 1;
    var m := Place(s, side, prices[..n], size);
    PlaceOneOrder(m, side, prices[n], size);
    assert m.nextId == s.nextId + n;
  }

  /** ... and, when its price is new, its price in the price dict of its side. */
  lemma PlaceLastLevel(s: State, side: Side, prices: seq<int>, size: int)
    requires prices != []
    requires prices[|prices| - 1] !in LevelsOf(Place(s, side, prices[..|prices| - 1], size), side).ids
    ensures var n := |prices| - 1; var m := Place(s, side, prices[..n], size);
      LevelsOf(Place(s, side, prices, size), side).ids == LevelsOf(m, side).ids[prices[n] := s.nextId + n]
  {
    var n := |prices| - 1;
    PlaceOneRecords(Place(s, side, prices[..n], size), side, prices[n], size);
  }

  /** The `k`-th placed order is tracked under the `k`-th new id at its price. */
  lemma {:induction false} PlaceRecordsOrder(s: State, side: Side, prices: seq<int>, size: int, k: int)
    requires 0 <= k < |prices|
    ensures var r := Place(s, side, prices, size);
      s.nextId + k in OrdersOf(r, side) && OrdersOf(r, side)[s.nextId + k] == prices[k]
    decreases |prices|
  {
    var n := |prices| - 1;
    PlaceLastOrder(s, side, prices, size);
    if k < n {
      PlaceRecordsOrder(s, side, prices[..n], size, k);
    }
  }

  /** ... and, for distinct new prices, the `k`-th price's level holds the `k`-th new id. */
  lemma {:induction false} PlaceRecordsLevel(s: State, side: Side, prices: seq<int>, size: int, k: int)
    requires Distinct(prices)
    requires forall p :: p in prices ==> p !in LevelsOf(s, side).ids
    requires 0 <= k < |prices|
    ensures var r := Place(s, side, prices, size);
      prices[k] in LevelsOf(r, side).ids && LevelsOf(r, side).ids[prices[k]] == s.nextId + k
    decreases |prices|
  {
    var n := |prices| - 1;
    var front := prices[..n];
    DistinctFront(prices);
    PlaceKeeps(s, side, front, size);
    PlaceLastLevel(s, side, prices, size);
    if k < n {
      PlaceRecordsLevel(s, side, front, size, k);
      assert prices[k] == front[k];
    }
  }

  /** `on_order_book_update_message` (lines 95-197): quoting on an ETF update, then the record, then the timer. */
  function BookUpdate(s: State, instrument: Instrument, sequence: int, askPrice0: int, bidPrice0: int,
                      bidVolume0: int): (r: Outcome)
    requires WellFormed(s)
    ensures r.ok <==>
              !(instrument == Etf && bidPrice0 != 0 && askPrice0 != 0 &&
                (Future !in s.tracker.bestAsk ||
                 (!SellSignal(bidPrice0, s.tracker.bestAsk[Future], s.position) && Future !in s.tracker.bestBid)))
    ensures !r.ok ==> r.state == s
    ensures r.ok ==> r.state.tracker == Observe(s.tracker, instrument, sequence, askPrice0, bidPrice0) &&
                     r.state.hedgeTimer == s.hedgeTimer + 1
    ensures r.state.position == s.position && r.state.positionFuture == s.positionFuture
    ensures instrument == Future ==>
              r.state == s.(tracker := Observe(s.tracker, instrument, sequence, askPrice0, bidPrice0),
                            hedgeTimer := s.hedgeTimer + 1)
    ensures s.sent <= r.state.sent
  {
    var observed := Observe(s.tracker, instrument, sequence, askPrice0, bidPrice0);
    if instrument == Etf then
      match Decide(bidPrice0, askPrice0, bidVolume0, s.tracker.bestBid, s.tracker.bestAsk, s.position)
      case None => Outcome(s, false)
      case Some(plan) =>
        var s3 := Quoted(s, plan);
        Outcome(s3.(tracker := observed, hedgeTimer := s.hedgeTimer + 1), true)
    else
      Outcome(s.(tracker := observed, hedgeTimer := s.hedgeTimer + 1), true)
  }

  /** The ladder targets left after reconciliation with what is already tracked on that side. */
  function NewLevels(s: State, side: Side, targets: seq<int>): seq<int>
  {
    Missing(targets, LevelsOf(s, side).order)
  }

  /** Lines 178-194: the new bids, then the new asks, each at the size the open orders of its side leave room for. */
  function AddLevels(s: State, plan: Plan): (r: State)
    ensures r == s.(nextId := r.nextId, sent := r.sent, bids := r.bids, asks := r.asks,
                    bidLevels := r.bidLevels, askLevels := r.askLevels)
    ensures s.sent <= r.sent
  {
    var bidSize := BidSize(s.position, |s.bids|);
    var askSize := AskSize(s.position, |s.asks|);
    var newBids := NewLevels(s, Buy, plan.bids);
    var newAsks := NewLevels(s, Sell, plan.asks);
    var s1 := if bidSize > 0 && |newBids| > 0 then Place(s, Buy, newBids, bidSize) else s;
    if askSize > 0 && |newAsks| > 0 then Place(s1, Sell, newAsks, askSize) else s1
  }

  /** Lines 96-194 for one plan: the arbitrage, the cancels of stale levels, then the new levels. */
  function Quoted(s: State, plan: Plan): (r: State)
    requires Valid(s.bidLevels) && Valid(s.askLevels)
    ensures r == s.(nextId := r.nextId, sent := r.sent, bids := r.bids, asks := r.asks,
                    bidLevels := r.bidLevels, askLevels := r.askLevels)
    ensures s.sent <= r.sent
  {
    AddLevels(Withdraw(ApplyArbitrage(s, plan.arbitrage), plan), plan)
  }

  lemma QuotedWellFormed(s: State, plan: Plan)
    requires WellFormed(s)
    ensures WellFormed(Quoted(s, plan))
  {
    var s1 := ApplyArbitrage(s, plan.arbitrage);
    ApplyArbitrageWellFormed(s, plan.arbitrage);
    var s2 := Withdraw(s1, plan);
    WithdrawWellFormed(s1, plan);
    AddLevelsWellFormed(s2, plan);
  }

  lemma AddLevelsWellFormed(s: State, plan: Plan)
    requires WellFormed(s)
    ensures WellFormed(AddLevels(s, plan))
  {
    var bidSize := BidSize(s.position, |s.bids|);
    var newBids := NewLevels(s, Buy, plan.bids);
    var s1 := if bidSize > 0 && |newBids| > 0 then Place(s, Buy, newBids, bidSize) else s;
    PlaceWellFormed(s, Buy, newBids, bidSize);
    PlaceWellFormed(s1, Sell, NewLevels(s1, Sell, plan.asks), AskSize(s1.position, |s1.asks|));
  }

  lemma BookUpdateWellFormed(s: State, instrument: Instrument, sequence: int, askPrice0: int, bidPrice0: int,
                             bidVolume0: int)
    requires WellFormed(s)
    ensures WellFormed(BookUpdate(s, instrument, sequence, askPrice0, bidPrice0, bidVolume0).state)
  {
    var d := Decide(bidPrice0, askPrice0, bidVolume0, s.tracker.bestBid, s.tracker.bestAsk, s.position);
    if instrument == Etf && d.Some? {
      QuotedWellFormed(s, d.value);
    }
  }

  // ---------------------------------------------------------------------------------------------
  // Execution events

  /**
   * `on_order_filled_message`: a fill of an id in `bids` raises the position and one in `asks`
   * lowers it; nothing is hedged here and an unknown id changes nothing.
   */
  function Fill(s: State, id: int, volume: int): (r: State)
    ensures WellFormed(s) ==> WellFormed(r)
    ensures r == s.(position := r.position)
    ensures r.position - s.position == (if id in s.bids then volume else if id in s.asks then -volume else 0)
    // no order of any kind is sent, so the FUTURE position (and the net exposure hedged later) moves with the ETF one
    ensures r.sent == s.sent && r.positionFuture == s.positionFuture
  {
    if id in s.bids then s.(position := s.position + volume)
    else if id in s.asks then s.(position := s.position - volume)
    else s
  }

  /** `d.pop(k, default)` on an id -> price dict, for the value it returns. */
  function PoppedPrice(orders: map<int, int>, id: int): int
  {
    if id in orders then orders[id] else -1
  }

  /**
   * `on_order_status_message` (lines 235-244): remaining volume 0 forgets the id on both sides and
   * drops the levels of both price dicts at the larger of the popped prices (-1 for a side that
   * did not have the id), whichever side the order was on.
   */
  function Status(s: State, id: int, remainingVolume: int): (r: State)
    requires Valid(s.bidLevels) && Valid(s.askLevels)
    ensures WellFormed(s) ==> WellFormed(r)
    ensures remainingVolume != 0 ==> r == s
    ensures r == s.(bids := r.bids, asks := r.asks, bidLevels := r.bidLevels, askLevels := r.askLevels)
    ensures remainingVolume == 0 ==>
              var price := Max(PoppedPrice(s.bids, id), PoppedPrice(s.asks, id));
              r.bids == s.bids - {id} && r.asks == s.asks - {id} &&
              r.bidLevels.ids.Keys == s.bidLevels.ids.Keys - {price} &&
              r.askLevels.ids.Keys == s.askLevels.ids.Keys - {price} &&
              Valid(r.bidLevels) && Valid(r.askLevels)
    // the levels that stay keep their ids and their place in the iteration order
    ensures remainingVolume == 0 ==>
              (forall p :: p in r.bidLevels.ids ==> r.bidLevels.ids[p] == s.bidLevels.ids[p]) &&
              (forall p :: p in r.askLevels.ids ==> r.askLevels.ids[p] == s.askLevels.ids[p]) &&
              (forall p :: p in r.bidLevels.order ==> p in s.bidLevels.order) &&
              (forall p :: p in r.askLevels.order ==> p in s.askLevels.order)
    // the end of a tracked order removes the level at its own price on both sides, for any price
    // from -1 up (below that, the default -1 of the other side's `pop` wins the `max`)
    ensures remainingVolume == 0 && s.bids.Keys !! s.asks.Keys && (id in s.bids || id in s.asks) ==>
              var price := if id in s.bids then s.bids[id] else s.asks[id];
              price >= -1 ==> price !in r.bidLevels.ids && price !in r.askLevels.ids
    // an id tracked on neither side changes nothing, unless a level sits at price -1
    ensures id !in s.bids && id !in s.asks && -1 !in s.bidLevels.ids && -1 !in s.askLevels.ids ==> r == s
  {
    if remainingVolume == 0 then
      var price := Max(PoppedPrice(s.bids, id), PoppedPrice(s.asks, id));
      s.(bids := s.bids - {id}, asks := s.asks - {id},
         bidLevels := Pop(s.bidLevels, price), askLevels := Pop(s.askLevels, price))
    else s
  }

  /** Repeating a terminal status changes nothing more. */
  lemma StatusIdempotent(s: State, id: int)
    requires WellFormed(s)
    requires -1 !in s.bidLevels.ids && -1 !in s.askLevels.ids
    ensures Status(Status(s, id, 0), id, 0) == Status(s, id, 0)
  {
    var r := Status(s, id, 0);
    assert id !in r.bids && id !in r.asks;
  }

  /** `on_error_message` (lines 66-67): an error about a tracked order ends it as a terminal status would. */
  function Error(s: State, id: int): (r: State)
    requires Valid(s.bidLevels) && Valid(s.askLevels)
    ensures WellFormed(s) ==> WellFormed(r)
    ensures id != 0 && (id in s.bids || id in s.asks) ==> r == Status(s, id, 0)
    ensures id == 0 || (id !in s.bids && id !in s.asks) ==> r == s
  {
    if id != 0 && (id in s.bids || id in s.asks) then Status(s, id, 0) else s
  }

  /** Lines 265-270: the hedge threshold in ticks for a given hedge timer. */
  function Multiplier(hedgeTimer: int): int
  {
    if hedgeTimer < HEDGE_COOLDOWN then 1 else 0
  }

  /** A hedge under the next id, moving the FUTURE position by `volume` in the direction of `side`. */
  function SendHedge(s: State, side: Side, price: int, volume: int): (r: State)
  {
    s.(nextId := s.nextId + 1, sent := s.sent + [Hedge(s.nextId, side, price, volume)],
       positionFuture := if side == Buy then s.positionFuture + volume else s.positionFuture - volume)
  }

  /**
   * `on_trade_ticks_message` (lines 260-282). The net exposure is taken before the record is
   * updated and the timer is reset before it is tested. Each condition reads two recorded prices
   * and raises (ok false) if one is missing; the sell test raises even after a buy hedge went out.
   */
  function TradeTicks(s: State, venue: Venue, instrument: Instrument, sequence: int, askPrice0: int,
                      bidPrice0: int): (r: Outcome)
    ensures r.state == s.(tracker := r.state.tracker, hedgeTimer := 0, nextId := r.state.nextId,
                          sent := r.state.sent, positionFuture := r.state.positionFuture)
    ensures r.state.tracker == Observe(s.tracker, instrument, sequence, askPrice0, bidPrice0)
    // at most one hedge goes out, under the next id, at the extreme tick of its side and for the
    // whole net exposure, which it brings to zero; a flat engine never hedges
    ensures
      var delta := s.position + s.positionFuture;
      s.sent <= r.state.sent && |r.state.sent| <= |s.sent| + 1 &&
      (|r.state.sent| == |s.sent| ==> r.state.nextId == s.nextId && r.state.positionFuture == s.positionFuture) &&
      (|r.state.sent| == |s.sent| + 1 ==>
         r.state.nextId == s.nextId + 1 && r.state.position + r.state.positionFuture == 0 &&
         (r.state.sent[|s.sent|] == Hedge(s.nextId, Buy, MaxAskNearestTick(venue), -delta) ||
          r.state.sent[|s.sent|] == Hedge(s.nextId, Sell, MinBidNearestTick(venue), delta))) &&
      (delta == 0 ==> r.state.sent == s.sent) &&
      Abs(r.state.position + r.state.positionFuture) <= Abs(delta)
    // a buy fires exactly when the ETF bid is more than one tick above the FUTURE ask and the
    // engine is net short, a sell exactly when the FUTURE bid is more than one tick above the ETF
    // ask and it is net long: the cooldown never matters, since the timer has just been reset.
    // `ok` is false exactly when a price that a test reads was never recorded.
    ensures
      var t := Observe(s.tracker, instrument, sequence, askPrice0, bidPrice0);
      var delta := s.position + s.positionFuture;
      (r.ok <==> Etf in t.bestBid && Future in t.bestAsk && Future in t.bestBid && Etf in t.bestAsk) &&
      (Etf in t.bestBid && Future in t.bestAsk ==>
         (r.state.positionFuture > s.positionFuture <==>
            t.bestBid[Etf] - t.bestAsk[Future] > TICK_SIZE_IN_CENTS && delta < 0)) &&
      (r.ok ==>
         (r.state.positionFuture < s.positionFuture <==>
            t.bestBid[Future] - t.bestAsk[Etf] > TICK_SIZE_IN_CENTS && delta > 0))
  {
    var t := Observe(s.tracker, instrument, sequence, askPrice0, bidPrice0);
    Hedges(s.(tracker := t, hedgeTimer := 0), venue, s.position + s.positionFuture)
  }

  /** Lines 265-282: the two hedge tests on the updated record, for the exposure `delta` taken before it. */
  function Hedges(s1: State, venue: Venue, delta: int): Outcome
  {
    var t := s1.tracker;
    var multiplier := Multiplier(s1.hedgeTimer);
    if Etf !in t.bestBid || Future !in t.bestAsk then Outcome(s1, false)
    else
      var s2 := if t.bestBid[Etf] - t.bestAsk[Future] > multiplier * TICK_SIZE_IN_CENTS && delta < 0
                then SendHedge(s1, Buy, MaxAskNearestTick(venue), -delta) else s1;
      if Future !in t.bestBid || Etf !in t.bestAsk then Outcome(s2, false)
      else if t.bestBid[Future] - t.bestAsk[Etf] > multiplier * TICK_SIZE_IN_CENTS && delta > 0
      then Outcome(SendHedge(s2, Sell, MinBidNearestTick(venue), delta), true)
      else Outcome(s2, true)
  }

  /**
   * `on_trade_ticks_message` keeps the engine well-formed: only the record, the timer and the
   * FUTURE position change besides the log, and a hedge goes out under the next id.
   */
  lemma TradeTicksWellFormed(s: State, venue: Venue, instrument: Instrument, sequence: int, askPrice0: int,
                             bidPrice0: int)
    requires WellFormed(s)
    ensures WellFormed(TradeTicks(s, venue, instrument, sequence, askPrice0, bidPrice0).state)
  {
    var r := TradeTicks(s, venue, instrument, sequence, askPrice0, bidPrice0).state;
    if |r.sent| == |s.sent| {
      assert r.sent == s.sent;
    } else {
      var a := r.sent[|s.sent|];
      assert r.sent == s.sent + [a];
      IssueKeepsFresh(s.sent, s.nextId, a);
    }
  }

  // ---------------------------------------------------------------------------------------------
  // The engine object

  class AutoTrader {
    const venue: Venue
    var nextId: int
    var bids: map<int, int>
    var asks: map<int, int>
    var bidPrices: Levels
    var askPrices: Levels
    var position: int
    var positionFuture: int
    var hedgeTimer: int
    var bestBid: map<Instrument, int>
    var bestAsk: map<Instrument, int>
    var sequence: int
    ghost var sent: seq<Action>

    ghost function Snapshot(): State
      reads this
    {
      State(nextId, bids, asks, bidPrices, askPrices, position, positionFuture, hedgeTimer,
            Tracker(bestBid, bestAsk, sequence), sent)
    }

    ghost predicate Valid()
      reads this
    {
      WellFormed(Snapshot())
    }

    constructor (venue: Venue)
      ensures Valid() && Snapshot() == Initial() && this.venue == venue
    {
      this.venue := venue;
      nextId := 1;
      bids, asks := map[], map[];
      position, positionFuture := 0, 0;
      bestBid, bestAsk := map[], map[];
      sequence := -1;
      askPrices, bidPrices := EMPTY, EMPTY;
      hedgeTimer := 0;
      sent := [];
      EmptyValid();
    }

    /** `next(self.order_ids)`. */
    method NextOrderId() returns (id: int)
      modifies this`nextId
      ensures id == old(nextId) && nextId == id + 1
    {
      id := nextId;
      nextId := nextId + 1;
    }

    method UpdateBestRecord(instrument: Instrument, sequence: int, newBestAsk: int, newBestBid: int)
      modifies this`sequence, this`bestAsk, this`bestBid
      ensures Tracker(bestBid, bestAsk, this.sequence) ==
              Observe(old(Tracker(bestBid, bestAsk, this.sequence)), instrument, sequence, newBestAsk, newBestBid)
    {
      this.sequence := Max(sequence, this.sequence);
      if newBestAsk != 0 {
        bestAsk := bestAsk[instrument := newBestAsk];
      }
      if newBestBid != 0 {
        bestBid := bestBid[instrument := newBestBid];
      }
    }

    /**
     * Lines 95-156: fires the fill-and-kill order, if any, and builds the two target ladders.
     * `ok` is false where the source raises on a FUTURE price that was never recorded.
     */
    method Arbitrate(etfBid: int, etfAsk: int, bidVolume: int) returns (ok: bool, newBids: seq<int>, newAsks: seq<int>)
      modifies this
      ensures
        var d := Decide(etfBid, etfAsk, bidVolume, old(bestBid), old(bestAsk), old(position));
        ok == d.Some? &&
        (!ok ==> Snapshot() == old(Snapshot())) &&
        (ok ==> Snapshot() == ApplyArbitrage(old(Snapshot()), d.value.arbitrage) &&
                newBids == d.value.bids && newAsks == d.value.asks)
    {
      var priceAdjustment := Skew(position);
      if etfBid != 0 && etfAsk != 0 {
        if Future !in bestAsk {
          return false, [], [];
        }
        if etfBid - TICK_SIZE_IN_CENTS > bestAsk[Future] && position > -POSITION_LIMIT {
          // the ETF bid is above the FUTURE ask by more than a tick: sell the ETF
          var thisId := NextOrderId();
          var orderSize := Min(Min(bidVolume, position + POSITION_LIMIT), LOT_SIZE);
          sent := sent + [Insert(thisId, Sell, etfBid, orderSize, FillAndKill)];
          newBids, newAsks := [], [];
          asks := asks[thisId := etfBid];
        } else {
          if Future !in bestBid {
            return false, [], [];
          }
          if etfAsk + TICK_SIZE_IN_CENTS < bestBid[Future] && position < POSITION_LIMIT {
            // the ETF ask is below the FUTURE bid by more than a tick: buy the ETF
            var thisId := NextOrderId();
            var orderSize := Min(Min(bidVolume, -position + POSITION_LIMIT), LOT_SIZE);
            sent := sent + [Insert(thisId, Buy, etfAsk, orderSize, FillAndKill)];
            newBids, newAsks := [], [];
            bids := bids[thisId := etfAsk];
          } else {
            var quote := Targets(etfBid, etfAsk, bestBid[Future], bestAsk[Future]);
            newBids, newAsks := BidLadder(quote.bid, priceAdjustment), AskLadder(quote.ask, priceAdjustment);
          }
        }
      } else {
        newBids, newAsks := [], [];
      }
      ok := true;
    }

    /**
     * Lines 162-174: cancels the stale ask levels, then the stale bid levels, and returns the
     * targets that are not tracked yet. The price dicts are left to the status updates.
     */
    method WithdrawStale(newBids: seq<int>, newAsks: seq<int>) returns (remainingBids: seq<int>, remainingAsks: seq<int>)
      requires PriceLevels.Valid(bidPrices) && PriceLevels.Valid(askPrices) && Distinct(newBids) && Distinct(newAsks)
      modifies this`sent
      ensures Snapshot() == Withdraw(old(Snapshot()), Plan(NoArbitrage, newBids, newAsks))
      ensures remainingBids == NewLevels(old(Snapshot()), Buy, newBids)
      ensures remainingAsks == NewLevels(old(Snapshot()), Sell, newAsks)
    {
      var askCancels, bidCancels;
      remainingAsks, askCancels := Reconcile(askPrices, newAsks);
      sent := sent + Cancels(askCancels);
      remainingBids, bidCancels := Reconcile(bidPrices, newBids);
      sent := sent + Cancels(bidCancels);
    }

    /** Lines 181-186 and 189-194: one good-for-day order per price, recorded in both dicts of its side. */
    method PlaceLevels(side: Side, prices: seq<int>, size: int)
      modifies this
      ensures Snapshot() == Place(old(Snapshot()), side, prices, size)
    {
      ghost var s0 := Snapshot();
      var i := 0;
      while i < |prices|
        invariant 0 <= i <= |prices|
        invariant Snapshot() == Place(s0, side, prices[..i], size)
      {
        PlaceOrder(side, prices[i], size);
        PlaceStep(s0, side, prices, size, i);
        i := i + 1;
      }
      assert prices[..|prices|] == prices;
    }

    /** The body of those loops for one price. */
    method PlaceOrder(side: Side, price: int, size: int)
      modifies this
      ensures Snapshot() == PlaceOne(old(Snapshot()), side, price, size)
    {
      var oid := NextOrderId();
      sent := sent + [Insert(oid, side, price, size, GoodForDay)];
      if side == Buy {
        bidPrices := Put(bidPrices, price, oid);
        bids := bids[oid := price];
      } else {
        askPrices := Put(askPrices, price, oid);
        asks := asks[oid := price];
      }
    }

    /** Lines 178-194: the sizes come from the open orders after the cancels went out. */
    method AddNewLevels(newBids: seq<int>, newAsks: seq<int>, ghost plan: Plan)
      requires newBids == NewLevels(Snapshot(), Buy, plan.bids) && newAsks == NewLevels(Snapshot(), Sell, plan.asks)
      modifies this
      ensures Snapshot() == AddLevels(old(Snapshot()), plan)
    {
      var bidSize := BidSize(position, |bids|);
      var askSize := AskSize(position, |asks|);
      if bidSize > 0 && |newBids| > 0 {
        PlaceLevels(Buy, newBids, bidSize);
      }
      if askSize > 0 && |newAsks| > 0 {
        PlaceLevels(Sell, newAsks, askSize);
      }
    }

    /** Lines 96-194: an ETF update, up to the record. `ok` is false where the source raises. */
    method QuoteEtf(etfBid: int, etfAsk: int, bidVolume: int) returns (ok: bool)
      requires PriceLevels.Valid(bidPrices) && PriceLevels.Valid(askPrices)
      modifies this
      ensures
        var d := Decide(etfBid, etfAsk, bidVolume, old(bestBid), old(bestAsk), old(position));
        ok == d.Some? && (!ok ==> Snapshot() == old(Snapshot())) &&
        (ok ==> Snapshot() == Quoted(old(Snapshot()), d.value))
    {
      ghost var s := Snapshot();
      var newBids, newAsks;
      ok, newBids, newAsks := Arbitrate(etfBid, etfAsk, bidVolume);
      if ok {
        ghost var plan := Decide(etfBid, etfAsk, bidVolume, s.tracker.bestBid, s.tracker.bestAsk, s.position).value;
        ghost var s1 := Snapshot();
        var remainingBids, remainingAsks := WithdrawStale(newBids, newAsks);
        assert Snapshot() == Withdraw(s1, plan);
        AddNewLevels(remainingBids, remainingAsks, plan);
      }
    }

    /** Returns false where the source raises because a FUTURE price was never recorded. */
    method OnOrderBookUpdate(instrument: Instrument, sequenceNumber: int, askPrices0: seq<int>, askVolumes: seq<int>,
                             bidPrices0: seq<int>, bidVolumes: seq<int>) returns (ok: bool)
      requires Valid()
      requires |askPrices0| > 0 && |bidPrices0| > 0 && |bidVolumes| > 0
      modifies this
      ensures Outcome(Snapshot(), ok) ==
              BookUpdate(old(Snapshot()), instrument, sequenceNumber, askPrices0[0], bidPrices0[0], bidVolumes[0])
      ensures Valid()
    {
      ghost var s := Snapshot();
      ghost var r := BookUpdate(s, instrument, sequenceNumber, askPrices0[0], bidPrices0[0], bidVolumes[0]);
      BookUpdateWellFormed(s, instrument, sequenceNumber, askPrices0[0], bidPrices0[0], bidVolumes[0]);
      if instrument == Etf {
        var decided := QuoteEtf(bidPrices0[0], askPrices0[0], bidVolumes[0]);
        if !decided {
          assert r == Outcome(s, false);
          return false;
        }
      }
      ghost var quoted := Snapshot();
      assert quoted.tracker == s.tracker && quoted.hedgeTimer == s.hedgeTimer;
      RecordAndCount(instrument, sequenceNumber, askPrices0[0], bidPrices0[0]);
      ok := true;
    }

    /** Lines 196-197: the record update, then one more book update since the last hedge. */
    method RecordAndCount(instrument: Instrument, sequence: int, newBestAsk: int, newBestBid: int)
      modifies this`sequence, this`bestAsk, this`bestBid, this`hedgeTimer
      ensures Snapshot() == old(Snapshot()).(tracker := Observe(old(Snapshot()).tracker, instrument, sequence,
                                                                newBestAsk, newBestBid),
                                             hedgeTimer := old(hedgeTimer) + 1)
    {
      UpdateBestRecord(instrument, sequence, newBestAsk, newBestBid);
      hedgeTimer := hedgeTimer + 1;
    }

    method OnOrderFilled(clientOrderId: int, price: int, volume: int)
      requires Valid()
      modifies this
      ensures Valid()
      ensures Snapshot() == Fill(old(Snapshot()), clientOrderId, volume)
    {
      if clientOrderId in bids {
        position := position + volume;
      } else if clientOrderId in asks {
        position := position - volume;
      }
    }

    method OnOrderStatus(clientOrderId: int, fillVolume: int, remainingVolume: int, fees: int)
      requires Valid()
      modifies this
      ensures Valid()
      ensures Snapshot() == Status(old(Snapshot()), clientOrderId, remainingVolume)
    {
      if remainingVolume == 0 {
        // the id is dropped from both sides, since the message does not say which one it was
        var price := Max(PoppedPrice(bids, clientOrderId), PoppedPrice(asks, clientOrderId));
        bids, asks := bids - {clientOrderId}, asks - {clientOrderId};
        bidPrices := Pop(bidPrices, price);
        askPrices := Pop(askPrices, price);
      }
    }

    /** The error text is only logged. */
    method OnError(clientOrderId: int, errorMessage: seq<char>)
      requires Valid()
      modifies this
      ensures Valid()
      ensures Snapshot() == Error(old(Snapshot()), clientOrderId)
    {
      if clientOrderId != 0 && (clientOrderId in bids || clientOrderId in asks) {
        OnOrderStatus(clientOrderId, 0, 0, 0);
      }
    }

    /** `send_hedge_order` under the next id, and the FUTURE position it will build. */
    method SendHedgeOrder(side: Side, price: int, volume: int)
      modifies this`nextId, this`sent, this`positionFuture
      ensures Snapshot() == SendHedge(old(Snapshot()), side, price, volume)
    {
      var hedgeId := NextOrderId();
      sent := sent + [Hedge(hedgeId, side, price, volume)];
      positionFuture := if side == Buy then positionFuture + volume else positionFuture - volume;
    }

    /** Returns false where the source raises because a price a hedge test reads was never recorded. */
    method OnTradeTicks(instrument: Instrument, sequenceNumber: int, askPrices0: seq<int>, askVolumes: seq<int>,
                        bidPrices0: seq<int>, bidVolumes: seq<int>) returns (ok: bool)
      requires Valid() && |askPrices0| > 0 && |bidPrices0| > 0
      modifies this
      ensures Outcome(Snapshot(), ok) ==
              TradeTicks(old(Snapshot()), venue, instrument, sequenceNumber, askPrices0[0], bidPrices0[0])
      ensures Valid()
    {
      TradeTicksWellFormed(Snapshot(), venue, instrument, sequenceNumber, askPrices0[0], bidPrices0[0]);
      ok := RecordAndHedge(instrument, sequenceNumber, askPrices0[0], bidPrices0[0]);
    }

    /** Lines 260-282 on the best prices of the message. */
    method RecordAndHedge(instrument: Instrument, sequence: int, newBestAsk: int, newBestBid: int) returns (ok: bool)
      modifies this
      ensures Outcome(Snapshot(), ok) == TradeTicks(old(Snapshot()), venue, instrument, sequence, newBestAsk, newBestBid)
    {
      var deltaPosition := position + positionFuture;
      UpdateBestRecord(instrument, sequence, newBestAsk, newBestBid);
      hedgeTimer := 0;
      ok := HedgeExposure(deltaPosition);
    }

    /** Lines 265-282, for the exposure taken before the record was updated. */
    method HedgeExposure(deltaPosition: int) returns (ok: bool)
      requires hedgeTimer == 0
      modifies this
      ensures Outcome(Snapshot(), ok) == Hedges(old(Snapshot()), venue, deltaPosition)
    {
      var multiplier := Multiplier(hedgeTimer);
      if Etf !in bestBid || Future !in bestAsk {
        return false;
      }
      if bestBid[Etf] - bestAsk[Future] > multiplier * TICK_SIZE_IN_CENTS && deltaPosition < 0 {
        SendHedgeOrder(Buy, MaxAskNearestTick(venue), -deltaPosition);
        hedgeTimer := 0;
      }
      if Future !in bestBid || Etf !in bestAsk {
        return false;
      }
      if bestBid[Future] - bestAsk[Etf] > multiplier * TICK_SIZE_IN_CENTS && deltaPosition > 0 {
        SendHedgeOrder(Sell, MinBidNearestTick(venue), deltaPosition);
        hedgeTimer := 0;
      }
      ok := true;
    }
  }
}
