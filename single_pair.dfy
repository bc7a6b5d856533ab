/**
 * The single-pair engine with instant hedging (autotrader1.py).
 *
 * The engine keeps at most one resting bid (`bidId`, `bidPrice`) and one resting ask
 * (`askId`, `askPrice`), remembers every id it still considers live in `bids`/`asks`, fires a
 * fill-and-kill order when the ETF crosses the FUTURE by more than a tick, and hedges every fill
 * at once on the FUTURE at a guaranteed-cross price.
 *
 * `State` is the value of the engine's fields; the functions over it are the specification of the
 * handlers, and the class `AutoTrader` holds the same fields and updates them in place.
 */
module SinglePair {
  import opened Market

  const LOT_SIZE := 5

  datatype State = State(
    nextId: int,                  // the next value of `order_ids`
    bids: set<int>,
    asks: set<int>,
    askId: int,
    askPrice: int,
    bidId: int,
    bidPrice: int,
    position: int,
    tracker: Tracker,             // curr_best_bid, curr_best_ask, curr_sequence
    sent: seq<Action>)            // every gateway call made so far

  /** The outcome of a handler: `ok` is false when it raised (a FUTURE price was never seen). */
  datatype Outcome = Outcome(state: State, ok: bool)

  /**
   * What every handler keeps: ids come from the counter and are never reused, an id is a bid or
   * an ask but not both, and an occupied slot names a live order of its side.
   */
  ghost predicate WellFormed(s: State)
  {
    s.nextId >= 1 &&
    (forall id :: id in s.bids ==> 0 < id < s.nextId) &&
    (forall id :: id in s.asks ==> 0 < id < s.nextId) &&
    s.bids !! s.asks &&
    (s.bidId != 0 ==> s.bidId in s.bids) &&
    (s.askId != 0 ==> s.askId in s.asks) &&
    FreshLog(s.sent, s.nextId)
  }

  /** The state `__init__` sets up. */
  function Initial(): (s: State)
    ensures WellFormed(s)
    ensures s.position == 0 && s.bids == {} && s.asks == {} && s.bidId == 0 && s.askId == 0 && s.sent == []
  {
    State(1, {}, {}, 0, 0, 0, 0, 0, INITIAL_TRACKER, [])
  }

  // ---------------------------------------------------------------------------------------------
  // Order-book update: decision

  /** An ETF book update either fires one fill-and-kill order or not, and sets one target per side (0: none). */
  datatype Decision = Decision(arbitrage: Arbitrage, bid: int, ask: int)

  /**
   * Lines 89-132 of the ETF branch. None means the update raises because a FUTURE price it reads
   * was never recorded: the FUTURE ask is always read, the FUTURE bid only when no sell fires.
   */
  function Decide(etfBid: int, etfAsk: int, bidVolume: int, bestBid: map<Instrument, int>,
                  bestAsk: map<Instrument, int>, position: int): (r: Option<Decision>)
    ensures r.None? <==>
              etfBid != 0 && etfAsk != 0 &&
              (Future !in bestAsk || (!SellSignal(etfBid, bestAsk[Future], position) && Future !in bestBid))
    ensures etfBid == 0 || etfAsk == 0 ==> r == Some(Decision(NoArbitrage, 0, 0))
    // Sell arbitrage: exactly when the ETF bid is more than a tick above the FUTURE ask.
    ensures r.Some? && etfBid != 0 && etfAsk != 0 && Future in bestAsk && SellSignal(etfBid, bestAsk[Future], position) ==>
              var d := r.value;
              d.arbitrage == Arbitrage(Sell, etfBid, Min(bidVolume, position + POSITION_LIMIT)) &&
              position - d.arbitrage.volume >= -POSITION_LIMIT &&
              d.bid == bestAsk[Future] && d.ask == 0
    // Buy arbitrage: only when no sell fires; sized from the bid volume, as the source does.
    ensures r.Some? && etfBid != 0 && etfAsk != 0 && Future in bestAsk && Future in bestBid &&
            !SellSignal(etfBid, bestAsk[Future], position) && BuySignal(etfAsk, bestBid[Future], position) ==>
              var d := r.value;
              d.arbitrage == Arbitrage(Buy, etfAsk, Min(bidVolume, POSITION_LIMIT - position)) &&
              position + d.arbitrage.volume <= POSITION_LIMIT &&
              d.bid == 0 && d.ask == bestBid[Future]
    // No arbitrage: the two targets of `Targets`, at least a tick apart.
    ensures r.Some? && etfBid != 0 && etfAsk != 0 && Future in bestAsk && Future in bestBid &&
            !SellSignal(etfBid, bestAsk[Future], position) && !BuySignal(etfAsk, bestBid[Future], position) ==>
              var d := r.value;
              d.arbitrage == NoArbitrage &&
              Quote(d.bid, d.ask) == Targets(etfBid, etfAsk, bestBid[Future], bestAsk[Future]) &&
              d.ask >= d.bid + TICK_SIZE_IN_CENTS
  {
    if etfBid != 0 && etfAsk != 0 then
      if Future !in bestAsk then None
      else if SellSignal(etfBid, bestAsk[Future], position) then
        Some(Decision(Arbitrage(Sell, etfBid, Min(bidVolume, position + POSITION_LIMIT)), bestAsk[Future], 0))
      else if Future !in bestBid then None
      else if BuySignal(etfAsk, bestBid[Future], position) then
        Some(Decision(Arbitrage(Buy, etfAsk, Min(bidVolume, -position + POSITION_LIMIT)), 0, bestBid[Future]))
      else
        var q := Targets(etfBid, etfAsk, bestBid[Future], bestAsk[Future]);
        Some(Decision(NoArbitrage, q.bid, q.ask))
    else
      Some(Decision(NoArbitrage, 0, 0))
  }

  /** Sends the fill-and-kill order, if any, under a new id, and tracks the id on its side. */
  function ApplyArbitrage(s: State, a: Arbitrage): (r: State)
    ensures WellFormed(s) ==> WellFormed(r)
    ensures r == s.(nextId := r.nextId, bids := r.bids, asks := r.asks, sent := r.sent)
    ensures a.NoArbitrage? ==> r == s
    ensures a.Arbitrage? ==>
              r.sent == s.sent + [Insert(s.nextId, a.side, a.price, a.volume, FillAndKill)] &&
              r.nextId == s.nextId + 1 &&
              r.bids == (if a.side == Buy then s.bids + {s.nextId} else s.bids) &&
              r.asks == (if a.side == Sell then s.asks + {s.nextId} else s.asks)
  {
    match a
    case NoArbitrage => s
    case Arbitrage(side, price, volume) =>
      var id := s.nextId;
      var s' := s.(nextId := id + 1, sent := s.sent + [Insert(id, side, price, volume, FillAndKill)]);
      match side
      case Sell => s'.(asks := s.asks + {id})
      case Buy => s'.(bids := s.bids + {id})
  }

  // ---------------------------------------------------------------------------------------------
  // Order-book update: the bid slot and the ask slot

  /** `new_bid_price not in (self.bid_price, 0)` for an occupied bid slot. */
  predicate ReplacesBid(s: State, newBid: int)
  {
    s.bidId != 0 && newBid != s.bidPrice && newBid != 0
  }

  predicate ReplacesAsk(s: State, newAsk: int)
  {
    s.askId != 0 && newAsk != s.askPrice && newAsk != 0
  }

  /**
   * Lines 135-143: an occupied slot whose new target is a different nonzero price is cancelled
   * and the slot is freed at once; its id stays in `bids`/`asks` until a status message arrives.
   */
  function Withdraw(s: State, newBid: int, newAsk: int): (r: State)
    ensures WellFormed(s) ==> WellFormed(r)
    ensures r == s.(sent := r.sent, bidId := r.bidId, askId := r.askId)
    ensures r.bidId == (if ReplacesBid(s, newBid) then 0 else s.bidId)
    ensures r.askId == (if ReplacesAsk(s, newAsk) then 0 else s.askId)
    // what is left occupied rests at its target, or the target is "no quote"
    ensures r.bidId != 0 ==> newBid == 0 || newBid == s.bidPrice
    ensures r.askId != 0 ==> newAsk == 0 || newAsk == s.askPrice
    // a cancel is sent exactly for each slot that was freed
    ensures r.sent == s.sent + (if r.bidId != s.bidId then [Cancel(s.bidId)] else [])
                             + (if r.askId != s.askId then [Cancel(s.askId)] else [])
  {
    var s1 := if ReplacesBid(s, newBid) then s.(sent := s.sent + [Cancel(s.bidId)], bidId := 0) else s;
    if ReplacesAsk(s1, newAsk) then s1.(sent := s1.sent + [Cancel(s1.askId)], askId := 0) else s1
  }

  /** The size of a new resting bid: a lot, clipped to what the limit leaves. */
  function BidVolume(position: int): (v: int)
    ensures position < POSITION_LIMIT ==> 1 <= v <= LOT_SIZE && position + v <= POSITION_LIMIT
  {
    Min(LOT_SIZE, POSITION_LIMIT - position)
  }

  function AskVolume(position: int): (v: int)
    ensures position > -POSITION_LIMIT ==> 1 <= v <= LOT_SIZE && position - v >= -POSITION_LIMIT
  {
    Min(LOT_SIZE, position + POSITION_LIMIT)
  }

  predicate OpensBid(s: State, newBid: int)
  {
    s.bidId == 0 && newBid != 0 && s.position < POSITION_LIMIT
  }

  predicate OpensAsk(s: State, newAsk: int)
  {
    s.askId == 0 && newAsk != 0 && s.position > -POSITION_LIMIT
  }

  /**
   * Lines 145-161: an empty slot with a nonzero target and room under the limit gets one new
   * good-for-day order under the next id; the bid is placed before the ask.
   */
  function FillSlots(s: State, newBid: int, newAsk: int): (r: State)
    ensures WellFormed(s) ==> WellFormed(r)
    ensures r == s.(nextId := r.nextId, bids := r.bids, asks := r.asks, bidId := r.bidId,
                    bidPrice := r.bidPrice, askId := r.askId, askPrice := r.askPrice, sent := r.sent)
    ensures !OpensBid(s, newBid) ==> r.bidId == s.bidId && r.bidPrice == s.bidPrice && r.bids == s.bids
    ensures !OpensAsk(s, newAsk) ==> r.askId == s.askId && r.askPrice == s.askPrice && r.asks == s.asks
    // the bid takes the next id and the ask the one after whatever the bid took
    ensures OpensBid(s, newBid) ==> r.bidId == s.nextId && r.bidPrice == newBid && r.bids == s.bids + {r.bidId}
    ensures OpensAsk(s, newAsk) ==>
              r.askId == s.nextId + (if OpensBid(s, newBid) then 1 else 0) &&
              r.askPrice == newAsk && r.asks == s.asks + {r.askId}
    ensures r.nextId == s.nextId + (if OpensBid(s, newBid) then 1 else 0) + (if OpensAsk(s, newAsk) then 1 else 0)
    ensures r.sent == s.sent
                      + (if OpensBid(s, newBid) then [Insert(r.bidId, Buy, newBid, BidVolume(s.position), GoodForDay)] else [])
                      + (if OpensAsk(s, newAsk) then [Insert(r.askId, Sell, newAsk, AskVolume(s.position), GoodForDay)] else [])
    // with a target and room under the limit, the slot is occupied afterwards
    ensures WellFormed(s) && newBid != 0 && s.position < POSITION_LIMIT ==> r.bidId != 0
    ensures WellFormed(s) && newAsk != 0 && s.position > -POSITION_LIMIT ==> r.askId != 0
  {
    FillAsk(FillBid(s, newBid), newAsk)
  }

  /** Lines 145-152: the bid slot. */
  function FillBid(s: State, newBid: int): State
  {
    if OpensBid(s, newBid) then
      var id := s.nextId;
      s.(bidId := id, nextId := id + 1, bidPrice := newBid, bids := s.bids + {id},
         sent := s.sent + [Insert(id, Buy, newBid, BidVolume(s.position), GoodForDay)])
    else s
  }

  /** Lines 154-161: the ask slot. */
  function FillAsk(s: State, newAsk: int): State
  {
    if OpensAsk(s, newAsk) then
      var id := s.nextId;
      s.(askId := id, nextId := id + 1, askPrice := newAsk, asks := s.asks + {id},
         sent := s.sent + [Insert(id, Sell, newAsk, AskVolume(s.position), GoodForDay)])
    else s
  }

  /** `on_order_book_update_message`: quoting on an ETF update, then `update_best_record`. */
  function BookUpdate(s: State, instrument: Instrument, sequence: int, askPrice0: int, bidPrice0: int,
                      bidVolume0: int): (r: Outcome)
    ensures WellFormed(s) ==> WellFormed(r.state)
    ensures r.state.position == s.position
    ensures r.ok <==>
              !(instrument == Etf && bidPrice0 != 0 && askPrice0 != 0 &&
                (Future !in s.tracker.bestAsk ||
                 (!SellSignal(bidPrice0, s.tracker.bestAsk[Future], s.position) && Future !in s.tracker.bestBid)))
    ensures !r.ok ==> r.state == s
    ensures r.ok ==> r.state.tracker == Observe(s.tracker, instrument, sequence, askPrice0, bidPrice0)
    ensures instrument == Future ==> r.state == s.(tracker := Observe(s.tracker, instrument, sequence, askPrice0, bidPrice0))
    // the log only grows
    ensures |s.sent| <= |r.state.sent| && r.state.sent[..|s.sent|] == s.sent
  {
    var observed := Observe(s.tracker, instrument, sequence, askPrice0, bidPrice0);
    if instrument == Etf then
      match Decide(bidPrice0, askPrice0, bidVolume0, s.tracker.bestBid, s.tracker.bestAsk, s.position)
      case None => Outcome(s, false)
      case Some(d) =>
        var s1 := ApplyArbitrage(s, d.arbitrage);
        var s2 := Withdraw(s1, d.bid, d.ask);
        var s3 := FillSlots(s2, d.bid, d.ask);
        Outcome(s3.(tracker := observed), true)
    else
      Outcome(s.(tracker := observed), true)
  }

  /** The properties of the calls one order-book update makes, for an engine in state `s`. */
  ghost predicate SoundSends(sent: seq<Action>, s: State, onTick: bool)
  {
    WithinLimit(sent, s.position) &&
    RestingSized(sent, LOT_SIZE) &&
    (forall a :: a in sent && a.Cancel? ==> (a.id == s.bidId || a.id == s.askId) && a.id != 0) &&
    (onTick ==> PricesOnTick(sent))
  }

  lemma SoundSendsConcat(a: seq<Action>, b: seq<Action>, s: State, onTick: bool)
    requires SoundSends(a, s, onTick) && SoundSends(b, s, onTick)
    ensures SoundSends(a + b, s, onTick)
  {
  }

  /** A fill-and-kill order fires at an ETF touch and is sized within the limit. */
  lemma DecisionSound(etfBid: int, etfAsk: int, bidVolume: int, bestBid: map<Instrument, int>,
                      bestAsk: map<Instrument, int>, position: int)
    requires Decide(etfBid, etfAsk, bidVolume, bestBid, bestAsk, position).Some?
    ensures
      var d := Decide(etfBid, etfAsk, bidVolume, bestBid, bestAsk, position).value;
      (d.arbitrage.Arbitrage? ==>
         (d.arbitrage.price == etfBid || d.arbitrage.price == etfAsk) &&
         (d.arbitrage.side == Sell ==> position - d.arbitrage.volume >= -POSITION_LIMIT) &&
         (d.arbitrage.side == Buy ==> position + d.arbitrage.volume <= POSITION_LIMIT)) &&
      (OnTick(etfBid) && OnTick(etfAsk) && TrackerOnTick(Tracker(bestBid, bestAsk, 0)) ==>
         OnTick(d.bid) && OnTick(d.ask))
  {
    if etfBid != 0 && etfAsk != 0 && Future in bestAsk && Future in bestBid {
      var q := Targets(etfBid, etfAsk, bestBid[Future], bestAsk[Future]);
    }
  }

  lemma ArbitrageSound(s: State, a: Arbitrage, onTick: bool)
    requires a.Arbitrage? ==>
               (a.side == Sell ==> s.position - a.volume >= -POSITION_LIMIT) &&
               (a.side == Buy ==> s.position + a.volume <= POSITION_LIMIT) &&
               (onTick ==> OnTick(a.price))
    ensures var r := ApplyArbitrage(s, a); s.sent <= r.sent && SoundSends(r.sent[|s.sent|..], s, onTick)
  {
    var r := ApplyArbitrage(s, a);
    if a.Arbitrage? {
      assert r.sent[|s.sent|..] == [Insert(s.nextId, a.side, a.price, a.volume, FillAndKill)];
    } else {
      assert r.sent[|s.sent|..] == [];
    }
  }

  lemma WithdrawSound(s1: State, newBid: int, newAsk: int, s: State, onTick: bool)
    requires s1.bidId == s.bidId && s1.askId == s.askId && s1.position == s.position
    ensures var r := Withdraw(s1, newBid, newAsk); s1.sent <= r.sent && SoundSends(r.sent[|s1.sent|..], s, onTick)
  {
    var r := Withdraw(s1, newBid, newAsk);
    var bid := if r.bidId != s1.bidId then [Cancel(s1.bidId)] else [];
    var ask := if r.askId != s1.askId then [Cancel(s1.askId)] else [];
    AppendedSlice(s1.sent, bid);
    AppendedSlice(s1.sent + bid, ask);
    SliceSplit(s1.sent, s1.sent + bid, r.sent);
    assert SoundSends(bid, s, onTick) && SoundSends(ask, s, onTick);
    SoundSendsConcat(bid, ask, s, onTick);
  }

  lemma FillSlotsSound(s2: State, newBid: int, newAsk: int, s: State, onTick: bool)
    requires s2.position == s.position
    requires onTick ==> OnTick(newBid) && OnTick(newAsk)
    ensures var r := FillSlots(s2, newBid, newAsk); s2.sent <= r.sent && SoundSends(r.sent[|s2.sent|..], s, onTick)
  {
    var r := FillSlots(s2, newBid, newAsk);
    var bid := if OpensBid(s2, newBid) then [Insert(r.bidId, Buy, newBid, BidVolume(s.position), GoodForDay)] else [];
    var ask := if OpensAsk(s2, newAsk) then [Insert(r.askId, Sell, newAsk, AskVolume(s.position), GoodForDay)] else [];
    AppendedSlice(s2.sent, bid);
    AppendedSlice(s2.sent + bid, ask);
    SliceSplit(s2.sent, s2.sent + bid, r.sent);
    assert SoundSends(bid, s, onTick) && SoundSends(ask, s, onTick);
    SoundSendsConcat(bid, ask, s, onTick);
  }

  /**
   * What one order-book update sends: every order is sized so that its own fill keeps the
   * position within the limit, every resting order is for 1 to LOT_SIZE lots, only the two slot
   * orders are cancelled, and prices on the tick stay on the tick.
   */
  lemma BookUpdateSends(s: State, instrument: Instrument, sequence: int, askPrice0: int, bidPrice0: int,
                        bidVolume0: int)
    ensures
      var r := BookUpdate(s, instrument, sequence, askPrice0, bidPrice0, bidVolume0).state;
      SoundSends(r.sent[|s.sent|..], s, OnTick(askPrice0) && OnTick(bidPrice0) && TrackerOnTick(s.tracker))
  {
    var r := BookUpdate(s, instrument, sequence, askPrice0, bidPrice0, bidVolume0).state;
    var onTick := OnTick(askPrice0) && OnTick(bidPrice0) && TrackerOnTick(s.tracker);
    var decision := Decide(bidPrice0, askPrice0, bidVolume0, s.tracker.bestBid, s.tracker.bestAsk, s.position);
    if instrument == Etf && decision.Some? {
      var d := decision.value;
      DecisionSound(bidPrice0, askPrice0, bidVolume0, s.tracker.bestBid, s.tracker.bestAsk, s.position);
      var s1 := ApplyArbitrage(s, d.arbitrage);
      var s2 := Withdraw(s1, d.bid, d.ask);
      var s3 := FillSlots(s2, d.bid, d.ask);
      ArbitrageSound(s, d.arbitrage, onTick);
      WithdrawSound(s1, d.bid, d.ask, s, onTick);
      FillSlotsSound(s2, d.bid, d.ask, s, onTick);
      assert r.sent == s3.sent;
      SliceSplit(s.sent, s1.sent, s2.sent);
      SliceSplit(s.sent, s2.sent, s3.sent);
      SoundSendsConcat(s1.sent[|s.sent|..], s2.sent[|s1.sent|..], s, onTick);
      SoundSendsConcat(s2.sent[|s.sent|..], s3.sent[|s2.sent|..], s, onTick);
    } else {
      assert r.sent[|s.sent|..] == [];
    }
  }

  // ---------------------------------------------------------------------------------------------
  // Execution events

  /**
   * `on_order_filled_message`: a fill of a live bid raises the position and sells the same volume
   * of FUTURE at once at the lowest tick; a fill of a live ask lowers it and buys at the highest.
   * A fill of an id that is neither changes nothing.
   */
  function Fill(s: State, venue: Venue, id: int, volume: int): (r: State)
    ensures WellFormed(s) ==> WellFormed(r)
    ensures id in s.bids ==>
              r == s.(position := s.position + volume, nextId := s.nextId + 1,
                      sent := s.sent + [Hedge(s.nextId, Sell, MinBidNearestTick(venue), volume)])
    ensures id !in s.bids && id in s.asks ==>
              r == s.(position := s.position - volume, nextId := s.nextId + 1,
                      sent := s.sent + [Hedge(s.nextId, Buy, MaxAskNearestTick(venue), volume)])
    ensures id !in s.bids && id !in s.asks ==> r == s
    // the hedge undoes the fill's exposure at a price on the tick
    ensures |r.sent| == |s.sent| + 1 ==>
              var h := r.sent[|s.sent|];
              OnTick(h.price) && h.volume == volume &&
              (h.side == Sell ==> r.position == s.position + volume) &&
              (h.side == Buy ==> r.position == s.position - volume)
  {
    if id in s.bids then
      s.(position := s.position + volume, nextId := s.nextId + 1,
         sent := s.sent + [Hedge(s.nextId, Sell, MinBidNearestTick(venue), volume)])
    else if id in s.asks then
      s.(position := s.position - volume, nextId := s.nextId + 1,
         sent := s.sent + [Hedge(s.nextId, Buy, MaxAskNearestTick(venue), volume)])
    else s
  }

  /**
   * `on_order_status_message`: remaining volume 0 ends the order; the slot holding it is freed
   * and the id is forgotten whichever side it was on. Any other status changes nothing.
   */
  function Status(s: State, id: int, remainingVolume: int): (r: State)
    ensures WellFormed(s) ==> WellFormed(r)
    ensures remainingVolume != 0 ==> r == s
    ensures remainingVolume == 0 ==>
              r == s.(bids := s.bids - {id}, asks := s.asks - {id}, bidId := r.bidId, askId := r.askId) &&
              id !in r.bids && id !in r.asks
    ensures remainingVolume == 0 ==> r.bidId == (if s.bidId == id then 0 else s.bidId)
    ensures remainingVolume == 0 && WellFormed(s) ==> r.askId == (if s.askId == id then 0 else s.askId)
  {
    if remainingVolume == 0 then
      var s1 := if id == s.bidId then s.(bidId := 0) else if id == s.askId then s.(askId := 0) else s;
      s1.(bids := s1.bids - {id}, asks := s1.asks - {id})
    else s
  }

  /** Repeating a terminal status changes nothing more. */
  lemma StatusIdempotent(s: State, id: int)
    requires WellFormed(s)
    ensures Status(Status(s, id, 0), id, 0) == Status(s, id, 0)
  {
    var r := Status(s, id, 0);
    assert s.bidId == id && id != 0 ==> s.askId != id;
    assert r.bidId != id || id == 0;
  }

  /** `on_error_message`: an error about a live order ends it as a status with nothing remaining would. */
  function Error(s: State, id: int): (r: State)
    ensures id != 0 && (id in s.bids || id in s.asks) ==> r == Status(s, id, 0)
    ensures id == 0 || (id !in s.bids && id !in s.asks) ==> r == s
  {
    if id != 0 && (id in s.bids || id in s.asks) then Status(s, id, 0) else s
  }

  /** `on_trade_ticks_message`: only the best-price record changes. */
  function TradeTicks(s: State, instrument: Instrument, sequence: int, askPrice0: int, bidPrice0: int): (r: State)
    ensures r == s.(tracker := Observe(s.tracker, instrument, sequence, askPrice0, bidPrice0))
  {
    s.(tracker := Observe(s.tracker, instrument, sequence, askPrice0, bidPrice0))
  }

  /**
   * Sizing at send time does not bound the position: a resting bid whose slot was freed for a new
   * price can still fill, and so can its replacement, each sized against position 85. The start
   * is a well-formed state; it is not shown to be reachable from `Initial`.
   */
  lemma PositionCanExceedLimit()
    ensures exists s: State, venue: Venue, r: State ::
              WellFormed(s) && s.position <= POSITION_LIMIT &&
              r == Fill(Fill(BookUpdate(s, Etf, 1, 10200, 9900, 10).state, venue, 1, 5), venue, 2, 5) &&
              r.position > POSITION_LIMIT
  {
    var s := ExceedWitness();
    var venue := Venue(0, 100000);
    ExceedWitnessWellFormed();
    RequoteKeepsOldBid();
    var u := BookUpdate(s, Etf, 1, 10200, 9900, 10).state;
    var f1 := Fill(u, venue, 1, 5);
    assert f1.position == 90 && f1.bids == {1, 2};
    var r := Fill(f1, venue, 2, 5);
    assert r.position == 95;
  }

  /**
   * A bid of id 1 resting at 10000 at position 85, with the FUTURE at 10100/10200: a well-formed
   * state, chosen directly rather than reached from `Initial` by a run of messages.
   */
  function ExceedWitness(): State
  {
    State(2, {1}, {}, 0, 0, 1, 10000, 85, Tracker(map[Future := 10100], map[Future := 10200], 0),
          [Insert(1, Buy, 10000, 5, GoodForDay)])
  }

  lemma ExceedWitnessWellFormed()
    ensures WellFormed(ExceedWitness())
  {
  }

  /** With the ETF at 9900/10200 the bid target moves to 9900: a new bid 2 goes out, bid 1 is still tracked. */
  lemma RequoteKeepsOldBid()
    ensures var u := BookUpdate(ExceedWitness(), Etf, 1, 10200, 9900, 10).state;
      u.bids == {1, 2} && u.position == 85
  {
    var s := ExceedWitness();
    var d := Decide(9900, 10200, 10, s.tracker.bestBid, s.tracker.bestAsk, 85);
    assert BidFarther(9900, 10200, 10100, 10200);
    assert d == Some(Decision(NoArbitrage, 9900, 10200));
  }

  // ---------------------------------------------------------------------------------------------
  // The engine object

  class AutoTrader {
    const venue: Venue
    var nextId: int
    var bids: set<int>
    var asks: set<int>
    var askId: int
    var askPrice: int
    var bidId: int
    var bidPrice: int
    var position: int
    var bestBid: map<Instrument, int>
    var bestAsk: map<Instrument, int>
    var sequence: int
    ghost var sent: seq<Action>

    ghost function Snapshot(): State
      reads this
    {
      State(nextId, bids, asks, askId, askPrice, bidId, bidPrice, position, Tracker(bestBid, bestAsk, sequence), sent)
    }

    ghost predicate Valid()
      reads this
    {
      WellFormed(Snapshot())
    }

    constructor (venue: Venue)
      ensures Valid() && Snapshot() == Initial() && this.venue == venue
    {
      this.venue := venue;
      nextId := 1;
      bids, asks := {}, {};
      askId, askPrice, bidId, bidPrice, position := 0, 0, 0, 0, 0;
      bestBid, bestAsk := map[], map[];
      sequence := -1;
      sent := [];
    }

    /** `next(self.order_ids)`. */
    method NextOrderId() returns (id: int)
      modifies this`nextId
      ensures id == old(nextId) && nextId == id + 1
    {
      id := nextId;
      nextId := nextId + 1;
    }

    method UpdateBestRecord(instrument: Instrument, sequence: int, newBestAsk: int, newBestBid: int)
      modifies this`sequence, this`bestAsk, this`bestBid
      ensures Tracker(bestBid, bestAsk, this.sequence) ==
              Observe(old(Tracker(bestBid, bestAsk, this.sequence)), instrument, sequence, newBestAsk, newBestBid)
    {
      this.sequence := Max(sequence, this.sequence);
      if newBestAsk != 0 {
        bestAsk := bestAsk[instrument := newBestAsk];
      }
      if newBestBid != 0 {
        bestBid := bestBid[instrument := newBestBid];
      }
    }

    /**
     * The first part of an ETF update (lines 89-132): fires the fill-and-kill order, if any, and
     * chooses the two targets. `ok` is false where the source raises on a missing FUTURE price.
     */
    method Arbitrate(etfBid: int, etfAsk: int, bidVolume: int) returns (ok: bool, newBidPrice: int, newAskPrice: int)
      modifies this
      ensures
        var d := Decide(etfBid, etfAsk, bidVolume, old(bestBid), old(bestAsk), old(position));
        ok == d.Some? &&
        (!ok ==> Snapshot() == old(Snapshot())) &&
        (ok ==> Snapshot() == ApplyArbitrage(old(Snapshot()), d.value.arbitrage) &&
                newBidPrice == d.value.bid && newAskPrice == d.value.ask)
    {
      if etfBid != 0 && etfAsk != 0 {
        if Future !in bestAsk {
          return false, 0, 0;
        }
        if etfBid - TICK_SIZE_IN_CENTS > bestAsk[Future] && position > -POSITION_LIMIT {
          // the ETF bid is above the FUTURE ask by more than a tick: sell the ETF
          var thisId := NextOrderId();
          var orderSize := Min(bidVolume, position + POSITION_LIMIT);
          sent := sent + [Insert(thisId, Sell, etfBid, orderSize, FillAndKill)];
          newBidPrice := bestAsk[Future];
          newAskPrice := 0;
          asks := asks + {thisId};
        } else {
          if Future !in bestBid {
            return false, 0, 0;
          }
          if etfAsk + TICK_SIZE_IN_CENTS < bestBid[Future] && position < POSITION_LIMIT {
            // the ETF ask is below the FUTURE bid by more than a tick: buy the ETF
            var thisId := NextOrderId();
            var orderSize := Min(bidVolume, -position + POSITION_LIMIT);
            sent := sent + [Insert(thisId, Buy, etfAsk, orderSize, FillAndKill)];
            newAskPrice := bestBid[Future];
            newBidPrice := 0;
            bids := bids + {thisId};
          } else {
            var quote := Targets(etfBid, etfAsk, bestBid[Future], bestAsk[Future]);
            newBidPrice, newAskPrice := quote.bid, quote.ask;
          }
        }
      } else {
        newBidPrice, newAskPrice := 0, 0;
      }
      ok := true;
    }

    /** Lines 135-143: cancel each occupied slot whose target moves to a new nonzero price. */
    method WithdrawReplaced(newBidPrice: int, newAskPrice: int)
      modifies this
      ensures Snapshot() == Withdraw(old(Snapshot()), newBidPrice, newAskPrice)
    {
      if bidId != 0 && newBidPrice != bidPrice && newBidPrice != 0 {
        sent := sent + [Cancel(bidId)];
        bidId := 0;
      }
      if askId != 0 && newAskPrice != askPrice && newAskPrice != 0 {
        sent := sent + [Cancel(askId)];
        askId := 0;
      }
    }

    /** Lines 145-161: an empty slot with a target and room under the limit gets a new order. */
    method FillEmptySlots(newBidPrice: int, newAskPrice: int)
      modifies this
      ensures Snapshot() == FillSlots(old(Snapshot()), newBidPrice, newAskPrice)
    {
      FillBidSlot(newBidPrice);
      FillAskSlot(newAskPrice);
    }

    method FillBidSlot(newBidPrice: int)
      modifies this
      ensures Snapshot() == FillBid(old(Snapshot()), newBidPrice)
    {
      if bidId == 0 && newBidPrice != 0 && position < POSITION_LIMIT {
        bidId := NextOrderId();
        bidPrice := newBidPrice;
        var orderSize := Min(LOT_SIZE, POSITION_LIMIT - position);
        sent := sent + [Insert(bidId, Buy, newBidPrice, orderSize, GoodForDay)];
        bids := bids + {bidId};
      }
    }

    method FillAskSlot(newAskPrice: int)
      modifies this
      ensures Snapshot() == FillAsk(old(Snapshot()), newAskPrice)
    {
      if askId == 0 && newAskPrice != 0 && position > -POSITION_LIMIT {
        askId := NextOrderId();
        askPrice := newAskPrice;
        var orderSize := Min(LOT_SIZE, position + POSITION_LIMIT);
        sent := sent + [Insert(askId, Sell, newAskPrice, orderSize, GoodForDay)];
        asks := asks + {askId};
      }
    }

    /** Returns false where the source raises because a FUTURE price was never recorded. */
    method OnOrderBookUpdate(instrument: Instrument, sequenceNumber: int, askPrices: seq<int>, askVolumes: seq<int>,
                             bidPrices: seq<int>, bidVolumes: seq<int>) returns (ok: bool)
      requires Valid()
      requires |askPrices| > 0 && |bidPrices| > 0 && |bidVolumes| > 0
      modifies this
      ensures Valid()
      ensures Outcome(Snapshot(), ok) ==
              BookUpdate(old(Snapshot()), instrument, sequenceNumber, askPrices[0], bidPrices[0], bidVolumes[0])
    {
      if instrument == Etf {
        var decided, newBidPrice, newAskPrice := Arbitrate(bidPrices[0], askPrices[0], bidVolumes[0]);
        if !decided {
          return false;
        }
        WithdrawReplaced(newBidPrice, newAskPrice);
        FillEmptySlots(newBidPrice, newAskPrice);
      }
      UpdateBestRecord(instrument, sequenceNumber, askPrices[0], bidPrices[0]);
      ok := true;
    }

    method OnOrderFilled(clientOrderId: int, price: int, volume: int)
      requires Valid()
      modifies this
      ensures Valid()
      ensures Snapshot() == Fill(old(Snapshot()), venue, clientOrderId, volume)
    {
      if clientOrderId in bids {
        position := position + volume;
        var hedgeId := NextOrderId();
        sent := sent + [Hedge(hedgeId, Sell, MinBidNearestTick(venue), volume)];
      } else if clientOrderId in asks {
        position := position - volume;
        var hedgeId := NextOrderId();
        sent := sent + [Hedge(hedgeId, Buy, MaxAskNearestTick(venue), volume)];
      }
    }

    method OnOrderStatus(clientOrderId: int, fillVolume: int, remainingVolume: int, fees: int)
      requires Valid()
      modifies this
      ensures Valid()
      ensures Snapshot() == Status(old(Snapshot()), clientOrderId, remainingVolume)
    {
      if remainingVolume == 0 {
        if clientOrderId == bidId {
          bidId := 0;
        } else if clientOrderId == askId {
          askId := 0;
        }
        // the id is dropped from both sides, since the message does not say which one it was
        bids := bids - {clientOrderId};
        asks := asks - {clientOrderId};
      }
    }

    /** The error text is only logged. */
    method OnError(clientOrderId: int, errorMessage: seq<char>)
      requires Valid()
      modifies this
      ensures Valid()
      ensures Snapshot() == Error(old(Snapshot()), clientOrderId)
    {
      if clientOrderId != 0 && (clientOrderId in bids || clientOrderId in asks) {
        OnOrderStatus(clientOrderId, 0, 0, 0);
      }
    }

    method OnTradeTicks(instrument: Instrument, sequenceNumber: int, askPrices: seq<int>, askVolumes: seq<int>,
                        bidPrices: seq<int>, bidVolumes: seq<int>)
      requires Valid()
      requires |askPrices| > 0 && |bidPrices| > 0
      modifies this
      ensures Valid()
      ensures Snapshot() == TradeTicks(old(Snapshot()), instrument, sequenceNumber, askPrices[0], bidPrices[0])
    {
      UpdateBestRecord(instrument, sequenceNumber, askPrices[0], bidPrices[0]);
    }
  }
}
