/**
 * What one order-book update of the ladder engine sends and records: every order is sized at
 * send time within the position limit, the ladder of one side together with the open orders of
 * that side stays within the limit, only tracked levels are cancelled, and every target level is
 * tracked afterwards under a fresh id, without overwriting a level that was there.
 */
module DelayHedgeSends {
  import opened Market
  import opened Lists
  import opened PriceLevels
  import opened DelayHedge

  /** Some level of `l` holds the order `id`. */
  ghost predicate Tracks(l: Levels, id: int)
  {
    exists p :: p in l.ids && l.ids[p] == id
  }

  /** The properties of each call one order-book update makes, for an engine in state `s`. */
  ghost predicate SoundSends(sent: seq<Action>, s: State, onTick: bool)
  {
    WithinLimit(sent, s.position) &&
    RestingSized(sent, LOT_SIZE / NLADDER) &&
    (forall a :: a in sent && a.Insert? ==> a.volume <= LOT_SIZE) &&
    (forall a :: a in sent ==> !a.Hedge?) &&
    (forall a :: a in sent && a.Cancel? ==> Tracks(s.bidLevels, a.id) || Tracks(s.askLevels, a.id)) &&
    (onTick ==> PricesOnTick(sent))
  }

  lemma SoundSendsConcat(a: seq<Action>, b: seq<Action>, s: State, onTick: bool)
    requires SoundSends(a, s, onTick) && SoundSends(b, s, onTick)
    ensures SoundSends(a + b, s, onTick)
  {
  }

  /** The total volume of the good-for-day orders of one side among `actions`. */
  ghost function RestingVolume(actions: seq<Action>, side: Side): int
    decreases |actions|
  {
    if actions == [] then 0
    else
      var a := actions[|actions| - 1];
      RestingVolume(actions[..|actions| - 1], side) +
      (if a.Insert? && a.lifespan == GoodForDay && a.side == side then a.volume else 0)
  }

  lemma {:induction false} RestingVolumeAppend(a: seq<Action>, b: seq<Action>, side: Side)
    ensures RestingVolume(a + b, side) == RestingVolume(a, side) + RestingVolume(b, side)
    decreases |b|
  {
    if b == [] {
      assert a + b == a;
    } else {
      var n := |b| - 1;
      assert (a + b)[..|a + b| - 1] == a + b[..n];
      assert (a + b)[|a + b| - 1] == b[n];
      RestingVolumeAppend(a, b[..n], side);
    }
  }

  /** Calls that insert no resting order add no resting volume. */
  lemma {:induction false} RestingVolumeNone(actions: seq<Action>, side: Side)
    requires forall a :: a in actions ==> !(a.Insert? && a.lifespan == GoodForDay)
    ensures RestingVolume(actions, side) == 0
    decreases |actions|
  {
    if actions != [] {
      var n := |actions| - 1;
      assert actions[n] in actions;
      assert forall a :: a in actions[..n] ==> a in actions;
      RestingVolumeNone(actions[..n], side);
    }
  }

  // ---------------------------------------------------------------------------------------------
  // One stage at a time

  /** The fill-and-kill order sits at a touch and is sized within the limit and the lot. */
  lemma ArbitrageSends(s: State, a: Arbitrage, s0: State, onTick: bool)
    requires s.position == s0.position
    requires a.Arbitrage? ==>
               a.volume <= LOT_SIZE &&
               (a.side == Sell ==> s0.position - a.volume >= -POSITION_LIMIT) &&
               (a.side == Buy ==> s0.position + a.volume <= POSITION_LIMIT) &&
               (onTick ==> OnTick(a.price))
    ensures var r := ApplyArbitrage(s, a); var added := r.sent[|s.sent|..];
      s.sent <= r.sent && SoundSends(added, s0, onTick) &&
      RestingVolume(added, Buy) == 0 && RestingVolume(added, Sell) == 0
  {
    var r := ApplyArbitrage(s, a);
    var added := r.sent[|s.sent|..];
    if a.Arbitrage? {
      assert added == [Insert(s.nextId, a.side, a.price, a.volume, FillAndKill)];
    } else {
      assert added == [];
    }
    RestingVolumeNone(added, Buy);
    RestingVolumeNone(added, Sell);
  }

  /** The cancels of the stale levels of one side name orders of levels tracked at the start. */
  lemma CancelsSend(levels: Levels, targets: seq<int>, s0: State, onTick: bool)
    requires Valid(levels)
    requires levels == s0.bidLevels || levels == s0.askLevels
    ensures var added := Cancels(Stale(levels, targets));
      SoundSends(added, s0, onTick) && RestingVolume(added, Buy) == 0 && RestingVolume(added, Sell) == 0
  {
    var ids := Stale(levels, targets);
    var added := Cancels(ids);
    forall a | a in added
      ensures a.Cancel? && Tracks(levels, a.id)
    {
      var i :| 0 <= i < |added| && added[i] == a;
      assert a == Cancel(ids[i]);
    }
    RestingVolumeNone(added, Buy);
    RestingVolumeNone(added, Sell);
  }

  lemma WithdrawSends(s: State, plan: Plan, s0: State, onTick: bool)
    requires Valid(s.bidLevels) && Valid(s.askLevels)
    requires s.bidLevels == s0.bidLevels && s.askLevels == s0.askLevels
    ensures var r := Withdraw(s, plan); var added := r.sent[|s.sent|..];
      s.sent <= r.sent && SoundSends(added, s0, onTick) &&
      RestingVolume(added, Buy) == 0 && RestingVolume(added, Sell) == 0
  {
    var asks, bids := Cancels(Stale(s.askLevels, plan.asks)), Cancels(Stale(s.bidLevels, plan.bids));
    WithdrawAdded(s, plan);
    CancelsSend(s.askLevels, plan.asks, s0, onTick);
    CancelsSend(s.bidLevels, plan.bids, s0, onTick);
    QuietConcat(asks, bids, s0, onTick);
  }

  /** Two runs of sound calls with no resting volume make one. */
  lemma QuietConcat(a: seq<Action>, b: seq<Action>, s0: State, onTick: bool)
    requires SoundSends(a, s0, onTick) && RestingVolume(a, Buy) == 0 && RestingVolume(a, Sell) == 0
    requires SoundSends(b, s0, onTick) && RestingVolume(b, Buy) == 0 && RestingVolume(b, Sell) == 0
    ensures SoundSends(a + b, s0, onTick) && RestingVolume(a + b, Buy) == 0 && RestingVolume(a + b, Sell) == 0
  {
    SoundSendsConcat(a, b, s0, onTick);
    RestingVolumeAppend(a, b, Buy);
    RestingVolumeAppend(a, b, Sell);
  }

  lemma WithdrawAdded(s: State, plan: Plan)
    requires Valid(s.bidLevels) && Valid(s.askLevels)
    ensures var r := Withdraw(s, plan);
      s.sent <= r.sent &&
      r.sent[|s.sent|..] == Cancels(Stale(s.askLevels, plan.asks)) + Cancels(Stale(s.bidLevels, plan.bids))
  {
    var asks, bids := Cancels(Stale(s.askLevels, plan.asks)), Cancels(Stale(s.bidLevels, plan.bids));
    AppendedSlice(s.sent, asks);
    AppendedSlice(s.sent + asks, bids);
    SliceSplit(s.sent, s.sent + asks, s.sent + asks + bids);
  }

  /** Resting orders all of one side and one size add up to their number times the size. */
  lemma {:induction false} RestingVolumeUniform(actions: seq<Action>, side: Side, size: int, other: Side)
    requires forall a :: a in actions ==> a.Insert? && a.side == side && a.volume == size && a.lifespan == GoodForDay
    ensures RestingVolume(actions, other) == if other == side then |actions| * size else 0
    decreases |actions|
  {
    if actions != [] {
      var n := |actions| - 1;
      assert actions[n] in actions;
      assert forall a :: a in actions[..n] ==> a in actions;
      RestingVolumeUniform(actions[..n], side, size, other);
    }
  }

  /** The calls that place a list of levels: one resting order per price, all of the given side and size. */
  lemma PlaceSends(s: State, side: Side, prices: seq<int>, size: int)
    ensures var r := Place(s, side, prices, size); var added := r.sent[|s.sent|..];
      (forall a :: a in added ==>
         a.Insert? && a.side == side && a.volume == size && a.lifespan == GoodForDay && a.price in prices) &&
      RestingVolume(added, side) == |prices| * size &&
      (forall other :: other != side ==> RestingVolume(added, other) == 0)
  {
    var r := Place(s, side, prices, size);
    var added := r.sent[|s.sent|..];
    forall a | a in added
      ensures a.Insert? && a.side == side && a.volume == size && a.lifespan == GoodForDay && a.price in prices
    {
      var k :| 0 <= k < |added| && added[k] == a;
      assert added[k] == r.sent[|s.sent| + k];
      assert a == Insert(s.nextId + k, side, prices[k], size, GoodForDay);
      assert prices[k] in prices;
    }
    forall other
      ensures RestingVolume(added, other) == if other == side then |prices| * size else 0
    {
      RestingVolumeUniform(added, side, size, other);
    }
  }

  /** One side's new levels, at a size for which the whole ladder fits in the room left under the limit. */
  lemma PlaceSideSends(s: State, side: Side, prices: seq<int>, size: int, s0: State, onTick: bool)
    requires s.position == s0.position
    requires |prices| <= NLADDER && 1 <= size <= LOT_SIZE / NLADDER
    requires side == Buy ==> s0.position + NLADDER * size + |s0.bids| * LOT_SIZE / NLADDER <= POSITION_LIMIT
    requires side == Sell ==> s0.position - NLADDER * size - |s0.asks| * LOT_SIZE / NLADDER >= -POSITION_LIMIT
    requires onTick ==> forall i :: 0 <= i < |prices| ==> OnTick(prices[i])
    ensures var added := Place(s, side, prices, size).sent[|s.sent|..];
      SoundSends(added, s0, onTick) &&
      RestingVolume(added, side) <= NLADDER * size &&
      (forall other :: other != side ==> RestingVolume(added, other) == 0)
  {
    PlaceSends(s, side, prices, size);
    var added := Place(s, side, prices, size).sent[|s.sent|..];
    var open := if side == Buy then |s0.bids| else |s0.asks|;
    assert open * LOT_SIZE / NLADDER >= 0;
    assert side == Buy ==> s0.position + size <= POSITION_LIMIT;
    assert side == Sell ==> s0.position - size >= -POSITION_LIMIT;
    assert |prices| * size <= NLADDER * size by {
      FewerTimes(|prices|, NLADDER, size);
    }
    assert WithinLimit(added, s0.position);
  }

  lemma FewerTimes(m: nat, n: nat, size: nat)
    requires m <= n
    ensures m * size <= n * size
  {
  }

  /**
   * The new levels: each resting order is 1 to LOT_SIZE / NLADDER lots and on the tick, and the
   * ladder of a side, with a third of a lot for every open order of that side, fits in the room
   * the position leaves under the limit.
   */
  lemma AddLevelsSends(s: State, plan: Plan, s0: State, onTick: bool)
    requires s.position == s0.position
    requires |plan.bids| <= NLADDER && |plan.asks| <= NLADDER
    requires plan.bids != [] || plan.asks != [] ==> s.bids == s0.bids && s.asks == s0.asks
    requires onTick ==> (forall i :: 0 <= i < |plan.bids| ==> OnTick(plan.bids[i])) &&
                        (forall i :: 0 <= i < |plan.asks| ==> OnTick(plan.asks[i]))
    ensures var r := AddLevels(s, plan); var added := r.sent[|s.sent|..];
      s.sent <= r.sent && SoundSends(added, s0, onTick) &&
      (RestingVolume(added, Buy) > 0 ==>
         s0.position + RestingVolume(added, Buy) + |s0.bids| * LOT_SIZE / NLADDER <= POSITION_LIMIT) &&
      (RestingVolume(added, Sell) > 0 ==>
         s0.position - RestingVolume(added, Sell) - |s0.asks| * LOT_SIZE / NLADDER >= -POSITION_LIMIT)
  {
    var bidSize, askSize := BidSize(s.position, |s.bids|), AskSize(s.position, |s.asks|);
    var newBids, newAsks := NewLevels(s, Buy, plan.bids), NewLevels(s, Sell, plan.asks);
    var s1 := if bidSize > 0 && |newBids| > 0 then Place(s, Buy, newBids, bidSize) else s;
    var r := AddLevels(s, plan);
    assert r == if askSize > 0 && |newAsks| > 0 then Place(s1, Sell, newAsks, askSize) else s1;
    var bidsAdded, asksAdded := s1.sent[|s.sent|..], r.sent[|s1.sent|..];
    BidsAddedSend(s, plan, s0, onTick);
    AsksAddedSend(s1, s, plan, s0, onTick);
    SliceSplit(s.sent, s1.sent, r.sent);
    SoundSendsConcat(bidsAdded, asksAdded, s0, onTick);
    RestingVolumeAppend(bidsAdded, asksAdded, Buy);
    RestingVolumeAppend(bidsAdded, asksAdded, Sell);
  }

  /** The bid half of `AddLevels`. */
  lemma BidsAddedSend(s: State, plan: Plan, s0: State, onTick: bool)
    requires s.position == s0.position
    requires |plan.bids| <= NLADDER
    requires plan.bids != [] ==> s.bids == s0.bids
    requires onTick ==> forall i :: 0 <= i < |plan.bids| ==> OnTick(plan.bids[i])
    ensures
      var bidSize, newBids := BidSize(s.position, |s.bids|), NewLevels(s, Buy, plan.bids);
      var s1 := if bidSize > 0 && |newBids| > 0 then Place(s, Buy, newBids, bidSize) else s;
      var added := s1.sent[|s.sent|..];
      s.sent <= s1.sent && s1.asks == s.asks && s1.position == s.position &&
      SoundSends(added, s0, onTick) && RestingVolume(added, Sell) == 0 &&
      (RestingVolume(added, Buy) > 0 ==>
         s0.position + RestingVolume(added, Buy) + |s0.bids| * LOT_SIZE / NLADDER <= POSITION_LIMIT)
  {
    var bidSize, newBids := BidSize(s.position, |s.bids|), NewLevels(s, Buy, plan.bids);
    if bidSize > 0 && |newBids| > 0 {
      assert forall i :: 0 <= i < |newBids| ==> newBids[i] in plan.bids;
      PlaceSideSends(s, Buy, newBids, bidSize, s0, onTick);
    } else {
      assert s.sent[|s.sent|..] == [];
    }
  }

  /** The ask half of `AddLevels`, after the bids. */
  lemma AsksAddedSend(s1: State, s: State, plan: Plan, s0: State, onTick: bool)
    requires s1.position == s0.position && s.position == s0.position && s1.asks == s.asks
    requires |plan.asks| <= NLADDER
    requires plan.asks != [] ==> s.asks == s0.asks
    requires onTick ==> forall i :: 0 <= i < |plan.asks| ==> OnTick(plan.asks[i])
    ensures
      var askSize, newAsks := AskSize(s.position, |s.asks|), NewLevels(s, Sell, plan.asks);
      var r := if askSize > 0 && |newAsks| > 0 then Place(s1, Sell, newAsks, askSize) else s1;
      var added := r.sent[|s1.sent|..];
      s1.sent <= r.sent && SoundSends(added, s0, onTick) && RestingVolume(added, Buy) == 0 &&
      (RestingVolume(added, Sell) > 0 ==>
         s0.position - RestingVolume(added, Sell) - |s0.asks| * LOT_SIZE / NLADDER >= -POSITION_LIMIT)
  {
    var askSize, newAsks := AskSize(s.position, |s.asks|), NewLevels(s, Sell, plan.asks);
    if askSize > 0 && |newAsks| > 0 {
      assert forall i :: 0 <= i < |newAsks| ==> newAsks[i] in plan.asks;
      PlaceSideSends(s1, Sell, newAsks, askSize, s0, onTick);
    } else {
      assert s1.sent[|s1.sent|..] == [];
    }
  }

  // ---------------------------------------------------------------------------------------------
  // A whole update

  /** The plan an ETF update decides on satisfies what the three stages ask of it. */
  lemma PlanFits(etfBid: int, etfAsk: int, bidVolume: int, s: State)
    requires Decide(etfBid, etfAsk, bidVolume, s.tracker.bestBid, s.tracker.bestAsk, s.position).Some?
    ensures
      var plan := Decide(etfBid, etfAsk, bidVolume, s.tracker.bestBid, s.tracker.bestAsk, s.position).value;
      var onTick := OnTick(etfAsk) && OnTick(etfBid) && TrackerOnTick(s.tracker);
      |plan.bids| <= NLADDER && |plan.asks| <= NLADDER &&
      (plan.bids != [] || plan.asks != [] ==> plan.arbitrage.NoArbitrage?) &&
      (plan.arbitrage.Arbitrage? ==>
         plan.arbitrage.volume <= LOT_SIZE &&
         (plan.arbitrage.side == Sell ==> s.position - plan.arbitrage.volume >= -POSITION_LIMIT) &&
         (plan.arbitrage.side == Buy ==> s.position + plan.arbitrage.volume <= POSITION_LIMIT) &&
         (onTick ==> OnTick(plan.arbitrage.price))) &&
      (onTick ==> (forall i :: 0 <= i < |plan.bids| ==> OnTick(plan.bids[i])) &&
                  (forall i :: 0 <= i < |plan.asks| ==> OnTick(plan.asks[i])))
  {
    PlanSound(etfBid, etfAsk, bidVolume, s.tracker.bestBid, s.tracker.bestAsk, s.position);
    assert TrackerOnTick(s.tracker) ==> TrackerOnTick(Tracker(s.tracker.bestBid, s.tracker.bestAsk, 0));
  }

  /**
   * What one order-book update sends: every order is sized so that its own complete fill keeps
   * the position within the limit, a fill-and-kill order is at most a lot and a resting order 1 to
   * LOT_SIZE / NLADDER lots, no hedge goes out, only orders of tracked levels are cancelled, and
   * prices on the tick stay on the tick. The resting orders of a side, together with a third of a
   * lot for each open order of that side, fit in the room the position leaves under the limit.
   */
  lemma BookUpdateSends(s: State, instrument: Instrument, sequence: int, askPrice0: int, bidPrice0: int,
                        bidVolume0: int)
    requires WellFormed(s)
    ensures
      var r := BookUpdate(s, instrument, sequence, askPrice0, bidPrice0, bidVolume0).state;
      var added := r.sent[|s.sent|..];
      SoundSends(added, s, OnTick(askPrice0) && OnTick(bidPrice0) && TrackerOnTick(s.tracker)) &&
      (RestingVolume(added, Buy) > 0 ==>
         s.position + RestingVolume(added, Buy) + |s.bids| * LOT_SIZE / NLADDER <= POSITION_LIMIT) &&
      (RestingVolume(added, Sell) > 0 ==>
         s.position - RestingVolume(added, Sell) - |s.asks| * LOT_SIZE / NLADDER >= -POSITION_LIMIT)
  {
    var r := BookUpdate(s, instrument, sequence, askPrice0, bidPrice0, bidVolume0).state;
    var decision := Decide(bidPrice0, askPrice0, bidVolume0, s.tracker.bestBid, s.tracker.bestAsk, s.position);
    if instrument == Etf && decision.Some? {
      PlanFits(bidPrice0, askPrice0, bidVolume0, s);
      QuotedSends(s, decision.value, OnTick(askPrice0) && OnTick(bidPrice0) && TrackerOnTick(s.tracker));
      assert r.sent == Quoted(s, decision.value).sent;
    } else {
      assert r.sent[|s.sent|..] == [];
    }
  }

  /** `BookUpdateSends` for a plan that fits. */
  lemma QuotedSends(s: State, plan: Plan, onTick: bool)
    requires WellFormed(s)
    requires |plan.bids| <= NLADDER && |plan.asks| <= NLADDER
    requires plan.bids != [] || plan.asks != [] ==> plan.arbitrage.NoArbitrage?
    requires plan.arbitrage.Arbitrage? ==>
               plan.arbitrage.volume <= LOT_SIZE &&
               (plan.arbitrage.side == Sell ==> s.position - plan.arbitrage.volume >= -POSITION_LIMIT) &&
               (plan.arbitrage.side == Buy ==> s.position + plan.arbitrage.volume <= POSITION_LIMIT) &&
               (onTick ==> OnTick(plan.arbitrage.price))
    requires onTick ==> (forall i :: 0 <= i < |plan.bids| ==> OnTick(plan.bids[i])) &&
                        (forall i :: 0 <= i < |plan.asks| ==> OnTick(plan.asks[i]))
    ensures
      var added := Quoted(s, plan).sent[|s.sent|..];
      SoundSends(added, s, onTick) &&
      (RestingVolume(added, Buy) > 0 ==>
         s.position + RestingVolume(added, Buy) + |s.bids| * LOT_SIZE / NLADDER <= POSITION_LIMIT) &&
      (RestingVolume(added, Sell) > 0 ==>
         s.position - RestingVolume(added, Sell) - |s.asks| * LOT_SIZE / NLADDER >= -POSITION_LIMIT)
  {
    var s1 := ApplyArbitrage(s, plan.arbitrage);
    var s2 := Withdraw(s1, plan);
    var s3 := AddLevels(s2, plan);
    CancelsFirst(s, plan, onTick);
    AddLevelsSends(s2, plan, s, onTick);
    var early, late := s2.sent[|s.sent|..], s3.sent[|s2.sent|..];
    SliceSplit(s.sent, s2.sent, s3.sent);
    SoundSendsConcat(early, late, s, onTick);
    RestingVolumeAppend(early, late, Buy);
    RestingVolumeAppend(early, late, Sell);
  }

  /** The first two stages: the fill-and-kill order and the cancels, with no resting volume. */
  lemma CancelsFirst(s: State, plan: Plan, onTick: bool)
    requires WellFormed(s)
    requires plan.arbitrage.Arbitrage? ==>
               plan.arbitrage.volume <= LOT_SIZE &&
               (plan.arbitrage.side == Sell ==> s.position - plan.arbitrage.volume >= -POSITION_LIMIT) &&
               (plan.arbitrage.side == Buy ==> s.position + plan.arbitrage.volume <= POSITION_LIMIT) &&
               (onTick ==> OnTick(plan.arbitrage.price))
    ensures
      var s2 := Withdraw(ApplyArbitrage(s, plan.arbitrage), plan);
      var added := s2.sent[|s.sent|..];
      s.sent <= s2.sent && SoundSends(added, s, onTick) &&
      RestingVolume(added, Buy) == 0 && RestingVolume(added, Sell) == 0
  {
    var s1 := ApplyArbitrage(s, plan.arbitrage);
    var s2 := Withdraw(s1, plan);
    ArbitrageSends(s, plan.arbitrage, s, onTick);
    WithdrawSends(s1, plan, s, onTick);
    var a1, a2 := s1.sent[|s.sent|..], s2.sent[|s1.sent|..];
    SliceSplit(s.sent, s1.sent, s2.sent);
    SoundSendsConcat(a1, a2, s, onTick);
    RestingVolumeAppend(a1, a2, Buy);
    RestingVolumeAppend(a1, a2, Sell);
  }

  // ---------------------------------------------------------------------------------------------
  // What an update records

  /** A placed price is tracked under a fresh id that the id dict maps back to it. */
  lemma PlaceRecordsAt(s: State, side: Side, prices: seq<int>, size: int, p: int)
    requires Distinct(prices)
    requires forall q :: q in prices ==> q !in LevelsOf(s, side).ids
    requires p in prices
    ensures var r := Place(s, side, prices, size); var after := LevelsOf(r, side).ids;
      p in after && s.nextId <= after[p] < r.nextId && after[p] in OrdersOf(r, side) && OrdersOf(r, side)[after[p]] == p
  {
    var k :| 0 <= k < |prices| && prices[k] == p;
    PlaceRecordsLevel(s, side, prices, size, k);
    PlaceRecordsOrder(s, side, prices, size, k);
  }

  /**
   * Placing the new levels of one side: every level that was there keeps its id, every target is
   * tracked afterwards, and each new level holds a fresh id that the id dict maps back to its price.
   */
  lemma PlaceNewLevels(s: State, side: Side, targets: seq<int>, size: int)
    requires Valid(LevelsOf(s, side))
    requires Distinct(targets)
    ensures
      var r := Place(s, side, NewLevels(s, side, targets), size);
      var before, after := LevelsOf(s, side).ids, LevelsOf(r, side).ids;
      (forall id :: id in OrdersOf(s, side) && id < s.nextId ==>
         id in OrdersOf(r, side) && OrdersOf(r, side)[id] == OrdersOf(s, side)[id]) &&
      (forall p :: p in before ==> p in after && after[p] == before[p]) &&
      (forall p :: p in targets ==> p in after) &&
      (forall p :: p in after && p !in before ==>
         s.nextId <= after[p] < r.nextId && after[p] in OrdersOf(r, side) && OrdersOf(r, side)[after[p]] == p)
  {
    var news := NewLevels(s, side, targets);
    var r := Place(s, side, news, size);
    var before, after := LevelsOf(s, side).ids, LevelsOf(r, side).ids;
    MissingDistinct(targets, LevelsOf(s, side).order);
    PlaceKeeps(s, side, news, size);
    PlaceKeepsOrders(s, side, news, size);
    forall p | p in news
      ensures p in after && s.nextId <= after[p] < r.nextId && after[p] in OrdersOf(r, side) && OrdersOf(r, side)[after[p]] == p
    {
      PlaceRecordsAt(s, side, news, size, p);
    }
    forall p | p in targets
      ensures p in after
    {
      if p !in before {
        assert p in news;
      }
    }
  }

  /**
   * How the levels of one side grow from `s` to `r`: every level keeps its id, each new level
   * holds a fresh id that the id dict maps back to its price, with room every target is tracked,
   * and without room nothing changes.
   */
  ghost predicate Grows(s: State, r: State, side: Side, targets: seq<int>, room: bool)
  {
    var before, after := LevelsOf(s, side).ids, LevelsOf(r, side).ids;
    (forall id :: id in OrdersOf(s, side) && id < s.nextId ==>
       id in OrdersOf(r, side) && OrdersOf(r, side)[id] == OrdersOf(s, side)[id]) &&
    (forall p :: p in before ==> p in after && after[p] == before[p]) &&
    (forall p :: p in after && p !in before ==>
       s.nextId <= after[p] < r.nextId && after[p] in OrdersOf(r, side) && OrdersOf(r, side)[after[p]] == p) &&
    (room ==> forall p :: p in targets ==> p in after) &&
    (!room ==> LevelsOf(r, side) == LevelsOf(s, side))
  }

  /** The bid half of `AddLevels`; the asks are untouched. */
  lemma AddBidsGrow(s: State, plan: Plan)
    requires Valid(s.bidLevels) && Distinct(plan.bids)
    ensures
      var bidSize, newBids := BidSize(s.position, |s.bids|), NewLevels(s, Buy, plan.bids);
      var s1 := if bidSize > 0 && |newBids| > 0 then Place(s, Buy, newBids, bidSize) else s;
      Grows(s, s1, Buy, plan.bids, bidSize > 0) && s1.asks == s.asks && s1.askLevels == s.askLevels &&
      s1.nextId >= s.nextId
  {
    var bidSize, newBids := BidSize(s.position, |s.bids|), NewLevels(s, Buy, plan.bids);
    if bidSize > 0 && |newBids| > 0 {
      PlaceNewLevels(s, Buy, plan.bids, bidSize);
    } else if bidSize > 0 {
      assert forall p :: p in plan.bids ==> p in s.bidLevels.order;
    }
  }

  /** The ask half of `AddLevels`, after the bids; the bids are untouched. */
  lemma AddAsksGrow(s1: State, s: State, plan: Plan)
    requires Valid(s.askLevels) && Distinct(plan.asks)
    requires s1.askLevels == s.askLevels && s1.asks == s.asks && s1.nextId >= s.nextId
    ensures
      var askSize, newAsks := AskSize(s.position, |s.asks|), NewLevels(s, Sell, plan.asks);
      var r := if askSize > 0 && |newAsks| > 0 then Place(s1, Sell, newAsks, askSize) else s1;
      Grows(s, r, Sell, plan.asks, askSize > 0) && r.bids == s1.bids && r.bidLevels == s1.bidLevels &&
      r.nextId >= s1.nextId
  {
    var askSize, newAsks := AskSize(s.position, |s.asks|), NewLevels(s, Sell, plan.asks);
    assert newAsks == NewLevels(s1, Sell, plan.asks);
    if askSize > 0 && |newAsks| > 0 {
      PlaceNewLevels(s1, Sell, plan.asks, askSize);
    } else if askSize > 0 {
      assert forall p :: p in plan.asks ==> p in s.askLevels.order;
    }
  }

  /** Inserting the new levels of a plan overwrites no level and, with room, tracks every target. */
  lemma AddLevelsGrow(s: State, plan: Plan)
    requires Valid(s.bidLevels) && Valid(s.askLevels)
    requires Distinct(plan.bids) && Distinct(plan.asks)
    ensures var r := AddLevels(s, plan);
      Grows(s, r, Buy, plan.bids, BidSize(s.position, |s.bids|) > 0) &&
      Grows(s, r, Sell, plan.asks, AskSize(s.position, |s.asks|) > 0)
  {
    var bidSize, newBids := BidSize(s.position, |s.bids|), NewLevels(s, Buy, plan.bids);
    var s1 := if bidSize > 0 && |newBids| > 0 then Place(s, Buy, newBids, bidSize) else s;
    var askSize, newAsks := AskSize(s.position, |s.asks|), NewLevels(s, Sell, plan.asks);
    var r := if askSize > 0 && |newAsks| > 0 then Place(s1, Sell, newAsks, askSize) else s1;
    assert AddLevels(s, plan) == r;
    AddBidsGrow(s, plan);
    AddAsksGrow(s1, s, plan);
    GrowsFrame(s, s1, r, Buy, plan.bids, bidSize > 0);
  }

  /** Growth survives a later step that leaves the side alone. */
  lemma GrowsFrame(s: State, s1: State, r: State, side: Side, targets: seq<int>, room: bool)
    requires Grows(s, s1, side, targets, room)
    requires LevelsOf(r, side) == LevelsOf(s1, side) && OrdersOf(r, side) == OrdersOf(s1, side)
    requires r.nextId >= s1.nextId
    ensures Grows(s, r, side, targets, room)
  {
  }

  /** Growth measured from an earlier state with the same levels of that side. */
  lemma GrowsFrom(s: State, s2: State, r: State, side: Side, targets: seq<int>, room: bool)
    requires Grows(s2, r, side, targets, room)
    requires LevelsOf(s2, side) == LevelsOf(s, side) && s2.nextId >= s.nextId
    requires forall id :: id in OrdersOf(s, side) && id < s.nextId ==>
               id in OrdersOf(s2, side) && OrdersOf(s2, side)[id] == OrdersOf(s, side)[id]
    ensures Grows(s, r, side, targets, room)
  {
  }

  /**
   * An order-book update removes no level and overwrites none: orders are forgotten only on a
   * status message. Each new level holds a fresh id recorded at its price in the id dict. After
   * an ETF update without arbitrage and with room on a side, every target price of that side is
   * tracked; with no room, or on any other update, the levels of that side do not change.
   */
  lemma BookUpdateLevels(s: State, instrument: Instrument, sequence: int, askPrice0: int, bidPrice0: int,
                         bidVolume0: int)
    requires WellFormed(s)
    ensures
      var r := BookUpdate(s, instrument, sequence, askPrice0, bidPrice0, bidVolume0).state;
      var d := Decide(bidPrice0, askPrice0, bidVolume0, s.tracker.bestBid, s.tracker.bestAsk, s.position);
      var quoting := instrument == Etf && d.Some? && d.value.arbitrage.NoArbitrage?;
      Grows(s, r, Buy, if quoting then d.value.bids else [], quoting && BidSize(s.position, |s.bids|) > 0) &&
      Grows(s, r, Sell, if quoting then d.value.asks else [], quoting && AskSize(s.position, |s.asks|) > 0)
  {
    var r := BookUpdate(s, instrument, sequence, askPrice0, bidPrice0, bidVolume0).state;
    var d := Decide(bidPrice0, askPrice0, bidVolume0, s.tracker.bestBid, s.tracker.bestAsk, s.position);
    if instrument == Etf && d.Some? {
      var plan := d.value;
      var quoting := plan.arbitrage.NoArbitrage?;
      var q := Quoted(s, plan);
      QuotedGrows(s, plan);
      assert r == q.(tracker := r.tracker, hedgeTimer := r.hedgeTimer);
      GrowsFrame(s, q, r, Buy, if quoting then plan.bids else [], quoting && BidSize(s.position, |s.bids|) > 0);
      GrowsFrame(s, q, r, Sell, if quoting then plan.asks else [], quoting && AskSize(s.position, |s.asks|) > 0);
    }
  }

  /** `BookUpdateLevels` for one plan. */
  lemma QuotedGrows(s: State, plan: Plan)
    requires WellFormed(s)
    requires Distinct(plan.bids) && Distinct(plan.asks)
    requires plan.bids != [] || plan.asks != [] ==> plan.arbitrage.NoArbitrage?
    ensures
      var r, quoting := Quoted(s, plan), plan.arbitrage.NoArbitrage?;
      Grows(s, r, Buy, if quoting then plan.bids else [], quoting && BidSize(s.position, |s.bids|) > 0) &&
      Grows(s, r, Sell, if quoting then plan.asks else [], quoting && AskSize(s.position, |s.asks|) > 0)
  {
    if plan.arbitrage.NoArbitrage? {
      var s2 := Withdraw(ApplyArbitrage(s, plan.arbitrage), plan);
      var q := AddLevels(s2, plan);
      assert s2 == s.(sent := s2.sent);
      AddLevelsGrow(s2, plan);
      GrowsFrom(s, s2, q, Buy, plan.bids, BidSize(s.position, |s.bids|) > 0);
      GrowsFrom(s, s2, q, Sell, plan.asks, AskSize(s.position, |s.asks|) > 0);
    } else {
      ArbitrageGrows(s, plan);
    }
  }

  /** An arbitrage cycle places no level. */
  lemma ArbitrageGrows(s: State, plan: Plan)
    requires WellFormed(s)
    requires plan.bids == [] && plan.asks == []
    ensures var r := Quoted(s, plan); Grows(s, r, Buy, [], false) && Grows(s, r, Sell, [], false)
  {
    var s1 := ApplyArbitrage(s, plan.arbitrage);
    var s2 := Withdraw(s1, plan);
    assert NewLevels(s2, Buy, plan.bids) == [] && NewLevels(s2, Sell, plan.asks) == [];
    assert AddLevels(s2, plan) == s2;
    assert s2.bids == s1.bids && s2.asks == s1.asks && s2.bidLevels == s.bidLevels && s2.askLevels == s.askLevels;
    GrowsNothing(s, s2, Buy);
    GrowsNothing(s, s2, Sell);
  }

  /** Levels that stay as they were, with every old order kept, grow by nothing. */
  lemma GrowsNothing(s: State, r: State, side: Side)
    requires LevelsOf(r, side) == LevelsOf(s, side)
    requires forall id :: id in OrdersOf(s, side) && id < s.nextId ==>
               id in OrdersOf(r, side) && OrdersOf(r, side)[id] == OrdersOf(s, side)[id]
    ensures Grows(s, r, side, [], false)
  {
  }

  /**
   * The terminal status of an ask also drops the bid level at the ask's price, so the bid resting
   * there is no longer in any level: no update cancels it, and the next ladder that wants the
   * price places a second bid there.
   */
  lemma CrossSidePopOrphansBid()
    ensures exists s: State ::
              WellFormed(s) &&
              var r := BookUpdate(Status(s, 2, 0), Etf, 1, 10000, 9900, 10).state;
              1 in r.bids && r.bids[1] == 9900 && !Tracks(r.bidLevels, 1) &&
              9900 in r.bidLevels.ids && r.bidLevels.ids[9900] != 1 &&
              r.bidLevels.ids[9900] in r.bids && r.bids[r.bidLevels.ids[9900]] == 9900
  {
    var s := CrossWitness();
    CrossWitnessWellFormed();
    var t := Status(s, 2, 0);
    assert Max(PoppedPrice(s.bids, 2), PoppedPrice(s.asks, 2)) == 9900;
    assert t.bids == map[1 := 9900] && t.bidLevels.ids.Keys == {};
    RequoteAfterPop(t);
  }

  /** A bid and an ask resting at the same price, each in its own level. */
  function CrossWitness(): State
  {
    State(3, map[1 := 9900], map[2 := 9900], Levels([9900], map[9900 := 1]), Levels([9900], map[9900 := 2]),
          0, 0, 0, Tracker(map[Future := 9900], map[Future := 10000], 0),
          [Insert(1, Buy, 9900, 5, GoodForDay), Insert(2, Sell, 9900, 5, GoodForDay)])
  }

  lemma CrossWitnessWellFormed()
    ensures WellFormed(CrossWitness())
  {
  }

  /** The second half: a bid left in no level, and a ladder that wants its price. */
  lemma RequoteAfterPop(t: State)
    requires WellFormed(t)
    requires t.bids == map[1 := 9900] && t.bidLevels.ids.Keys == {} && t.position == 0
    requires t.tracker.bestBid == map[Future := 9900] && t.tracker.bestAsk == map[Future := 10000]
    ensures var r := BookUpdate(t, Etf, 1, 10000, 9900, 10).state;
      1 in r.bids && r.bids[1] == 9900 && !Tracks(r.bidLevels, 1) &&
      9900 in r.bidLevels.ids && r.bidLevels.ids[9900] != 1 &&
      r.bidLevels.ids[9900] in r.bids && r.bids[r.bidLevels.ids[9900]] == 9900
  {
    RequotePlan(t.tracker.bestBid, t.tracker.bestAsk);
    BookUpdateLevels(t, Etf, 1, 10000, 9900, 10);
    assert |t.bids| == 1 && BidSize(0, 1) > 0;
    OrphanFromGrows(t, BookUpdate(t, Etf, 1, 10000, 9900, 10).state);
  }

  /** A bid ladder laid over an empty bid dict keeps the old order but tracks only new ids. */
  lemma OrphanFromGrows(t: State, r: State)
    requires 1 in t.bids && t.bids[1] == 9900 && 1 < t.nextId && t.bidLevels.ids.Keys == {}
    requires Grows(t, r, Buy, [9900, 9800, 9700], true)
    ensures 1 in r.bids && r.bids[1] == 9900 && !Tracks(r.bidLevels, 1) &&
      9900 in r.bidLevels.ids && r.bidLevels.ids[9900] != 1 &&
      r.bidLevels.ids[9900] in r.bids && r.bids[r.bidLevels.ids[9900]] == 9900
  {
    assert 9900 in [9900, 9800, 9700];
    forall p | p in r.bidLevels.ids
      ensures r.bidLevels.ids[p] != 1
    {
      assert p !in t.bidLevels.ids;
    }
  }

  /** With the ETF at 9900/10000 and the FUTURE at 9900/10000, both ladders hang off the touch. */
  lemma RequotePlan(bestBid: map<Instrument, int>, bestAsk: map<Instrument, int>)
    requires bestBid == map[Future := 9900] && bestAsk == map[Future := 10000]
    ensures Decide(9900, 10000, 10, bestBid, bestAsk, 0) ==
            Some(Plan(NoArbitrage, [9900, 9800, 9700], [10000, 10100, 10200]))
  {
    assert !BidFarther(9900, 10000, 9900, 10000);
  }
}
