/** Exactly when the risk manager approves an entry, and for how much (bot/risk.py, tradexa/risk/position_sizing.py). */
module Sizing {
  import opened Types
  import opened Risk

  /** The equity the risk is a share of: what the mode says, with gains left out when they are not reinvested. */
  predicate IsBasis(c: RiskConfig, starting: real, realized: real, basis: real) {
    match c.mode
    case FixedStartingEquityPercent => basis == starting
    case DynamicCurrentEquityPercent =>
      if c.reinvest then basis == realized
      else basis <= starting && basis <= realized && (basis == starting || basis == realized)
    case _ => basis == realized
  }

  /** The wider of the signal's own stop distance and the range stop, if there is one. */
  predicate IsDistance(c: RiskConfig, atr: real, signal: Signal, distance: real) {
    var ranged := c.atrMult > 0.0 && atr > 0.0;
    && distance >= signal.entry - signal.stopLoss && distance >= signal.stopLoss - signal.entry
    && (ranged ==> distance >= c.atrMult * atr)
    && (distance == signal.entry - signal.stopLoss || distance == signal.stopLoss - signal.entry
        || (ranged && distance == c.atrMult * atr))
  }

  predicate HasRiskCap(c: RiskConfig) { c.maxRiskAmount.Some? && c.maxRiskAmount.value > 0.0 }

  /** The request as the gates see it. */
  datatype Request = Request(starting: real, realized: real, basis: real, entry: real, distance: real, equity: real)

  ghost predicate IsRequest(c: RiskConfig, s: RiskState, signal: Signal, account: Account, r: Request) {
    && r.entry == signal.entry && r.equity == account.equity
    && r.starting == (if s.starting.Some? then s.starting.value else account.equity)
    && r.realized == (if s.realized.Some? then s.realized.value else account.equity)
    && IsBasis(c, r.starting, r.realized, r.basis) && IsDistance(c, s.atr, signal, r.distance)
  }

  /** Everything sizing asks for. */
  predicate Sizeable(c: RiskConfig, r: Request) {
    && !c.mode.Unsupported? && r.starting > 0.0 && r.realized > 0.0 && r.equity > 0.0
    && (c.minEquity.Some? ==> r.realized >= c.minEquity.value) && 0.0 < r.distance < r.entry
    && (if c.mode.FixedQuantity? then
          c.fixedQuantity > 0.0 &&
          (HasRiskCap(c) ==> c.fixedQuantity * r.distance <= c.maxRiskAmount.value + 0.000000000001)
        else r.basis > 0.0)
  }

  /** At risk is no more than the share of the basis and the amount cap, or exactly the lesser of them. */
  predicate WithinRisk(c: RiskConfig, share: real, risked: real) {
    risked <= share && (HasRiskCap(c) ==> risked <= c.maxRiskAmount.value)
  }

  predicate AtFullRisk(c: RiskConfig, share: real, risked: real) {
    WithinRisk(c, share, risked) && (risked == share || (HasRiskCap(c) && risked == c.maxRiskAmount.value))
  }

  /** The largest quantity whose loss at the sizing distance stays within the risk share of the basis and within the
      amount cap, and whose notional stays within the position cap; a fixed quantity is only cut by the position cap.
      */
  predicate Largest(c: RiskConfig, r: Request, q: real) {
    && q > 0.0 && q * r.entry <= r.equity * c.maxPositionPct
    && (if c.mode.FixedQuantity? then
          q <= c.fixedQuantity && (q == c.fixedQuantity || q * r.entry == r.equity * c.maxPositionPct)
        else
          && WithinRisk(c, r.basis * c.riskPct, q * r.distance)
          && (AtFullRisk(c, r.basis * c.riskPct, q * r.distance) || q * r.entry == r.equity * c.maxPositionPct))
  }

  lemma BudgetIsLeast(c: RiskConfig, starting: real, realized: real, basis: real)
    requires c.Valid() && IsBasis(c, starting, realized, basis)
    ensures var budget := Budget(c, starting, realized);
            (budget > 0.0 <==> basis > 0.0) && (basis > 0.0 ==> AtFullRisk(c, basis * c.riskPct, budget))
  {
    assert basis == Basis(c, starting, realized);
    if basis > 0.0 { assert basis * c.riskPct > 0.0; } else { Product(basis, 0.0, c.riskPct); }
  }

  lemma CapIsExact(sized: real, entry: real, cap: real)
    requires sized > 0.0 && entry > 0.0
    ensures var q := Capped(sized, entry, cap);
            && (q > 0.0 <==> cap > 0.0) && (q == sized || q * entry == cap) && q <= sized && q * entry <= cap
  {
    CapShrinks(sized, entry, cap);
    QuotientTimes(cap, entry);
    assert sized * entry > 0.0;
    if sized * entry > cap {
      var q := cap / entry;
      if q > 0.0 { assert q * entry > 0.0; } else { Product(q, 0.0, entry); }
    }
  }

  lemma CappedFixed(c: RiskConfig, r: Request, q: real)
    requires c.mode.FixedQuantity? && 0.0 < q <= c.fixedQuantity && q * r.entry <= r.equity * c.maxPositionPct
    requires q == c.fixedQuantity || q * r.entry == r.equity * c.maxPositionPct
    ensures Largest(c, r, q)
  {
  }

  lemma CappedPercent(c: RiskConfig, r: Request, sized: real, q: real)
    requires !c.mode.FixedQuantity? && 0.0 < q <= sized && r.distance > 0.0
    requires q * r.entry <= r.equity * c.maxPositionPct
    requires q == sized || q * r.entry == r.equity * c.maxPositionPct
    requires AtFullRisk(c, r.basis * c.riskPct, sized * r.distance)
    ensures Largest(c, r, q)
  {
    Product(q, sized, r.distance);
    assert q == sized ==> q * r.distance == sized * r.distance;
  }

  lemma SizeExists(c: RiskConfig, r: Request)
    requires c.Valid() && IsBasis(c, r.starting, r.realized, r.basis) && r.distance >= 0.0 && r.equity > 0.0
    ensures Size(c, r.starting, r.realized, r.entry, r.entry - r.distance).Some? <==> Sizeable(c, r)
  {
    BudgetIsLeast(c, r.starting, r.realized, r.basis);
  }

  /** A size before the position cap. */
  ghost predicate IsFull(c: RiskConfig, r: Request, q: real) {
    && q > 0.0 && r.entry > 0.0 && r.distance > 0.0
    && (if c.mode.FixedQuantity? then q == c.fixedQuantity else AtFullRisk(c, r.basis * c.riskPct, q * r.distance))
  }

  lemma SizeIsFull(c: RiskConfig, r: Request)
    requires c.Valid() && IsBasis(c, r.starting, r.realized, r.basis) && r.distance >= 0.0
    requires Size(c, r.starting, r.realized, r.entry, r.entry - r.distance).Some?
    ensures IsFull(c, r, Size(c, r.starting, r.realized, r.entry, r.entry - r.distance).value)
  {
    if !c.mode.FixedQuantity? {
      BudgetIsLeast(c, r.starting, r.realized, r.basis);
      SizedRisksTheBudget(c, r.starting, r.realized, r.entry, r.entry - r.distance);
    }
  }

  lemma PositiveShare(equity: real, share: real)
    requires share > 0.0
    ensures equity * share > 0.0 <==> equity > 0.0
  {
    if equity > 0.0 { assert equity * share > 0.0; } else { Product(equity, 0.0, share); }
  }

  /** Cutting a full size to the position cap gives the largest quantity, if the cap leaves any. */
  lemma CutIsLargest(c: RiskConfig, r: Request, size: real)
    requires c.Valid() && IsFull(c, r, size)
    ensures var q := Capped(size, r.entry, r.equity * c.maxPositionPct);
            (q > 0.0 <==> r.equity > 0.0) && (q > 0.0 ==> Largest(c, r, q))
  {
    var q := Capped(size, r.entry, r.equity * c.maxPositionPct);
    PositiveShare(r.equity, c.maxPositionPct);
    CapIsExact(size, r.entry, r.equity * c.maxPositionPct);
    if q > 0.0 {
      if c.mode.FixedQuantity? { CappedFixed(c, r, q); } else { CappedPercent(c, r, size, q); }
    }
  }

  lemma EntryFollowsSize(c: RiskConfig, r: Request, size: Option<real>)
    requires size == Size(c, r.starting, r.realized, r.entry, r.entry - r.distance)
    ensures var v := SizeEntry(c, r.starting, r.realized, r.entry, r.distance, r.equity);
            (v.Allow? <==> size.Some? && Capped(size.value, r.entry, r.equity * c.maxPositionPct) > 0.0) &&
            (v.Allow? ==> v.qty == Capped(size.value, r.entry, r.equity * c.maxPositionPct))
  {
  }

  /** The verdict allows exactly what is sizeable, and then the largest quantity. */
  ghost predicate Exact(c: RiskConfig, r: Request, v: Verdict) {
    (v.Allow? <==> Sizeable(c, r)) && (v.Allow? ==> Largest(c, r, v.qty))
  }

  lemma SizedExactly(c: RiskConfig, r: Request, size: Option<real>, v: Verdict)
    requires c.Valid() && (r.equity > 0.0 ==> (size.Some? <==> Sizeable(c, r)))
    requires size.Some? ==> IsFull(c, r, size.value)
    requires v.Allow? <==> size.Some? && Capped(size.value, r.entry, r.equity * c.maxPositionPct) > 0.0
    requires v.Allow? ==> v.qty == Capped(size.value, r.entry, r.equity * c.maxPositionPct)
    ensures Exact(c, r, v)
  {
    if size.Some? { CutIsLargest(c, r, size.value); }
  }

  lemma EntryIsExact(c: RiskConfig, r: Request)
    requires c.Valid() && IsBasis(c, r.starting, r.realized, r.basis) && r.distance >= 0.0
    ensures Exact(c, r, SizeEntry(c, r.starting, r.realized, r.entry, r.distance, r.equity))
  {
    var size := Size(c, r.starting, r.realized, r.entry, r.entry - r.distance);
    EntryFollowsSize(c, r, size);
    if r.equity > 0.0 { SizeExists(c, r); }
    if size.Some? { SizeIsFull(c, r); }
    SizedExactly(c, r, size, SizeEntry(c, r.starting, r.realized, r.entry, r.distance, r.equity));
  }

  lemma DistanceIsSizing(c: RiskConfig, s: RiskState, signal: Signal, distance: real)
    requires IsDistance(c, s.atr, signal, distance)
    ensures distance == SizingDistance(c, s, signal) >= 0.0
  {
  }

  /** Equity is above the daily limit, no cooldown runs, a slot is free and the signal has a stop distance. */
  predicate GatesOpen(c: RiskConfig, s: RiskState, signal: Signal, account: Account) {
    && (s.anchor > 0.0 ==> account.equity > s.anchor * (1.0 - c.maxDailyLoss)) && s.cooldown <= 0
    && account.positionCount < c.maxOpen && signal.entry != signal.stopLoss
  }

  lemma GatesThenSize(c: RiskConfig, s: RiskState, signal: Signal, account: Account, r: Request, sized: Verdict)
    requires IsRequest(c, s, signal, account, r)
    requires sized == SizeEntry(c, r.starting, r.realized, r.entry, r.distance, r.equity)
    ensures var v := Judge(c, s, signal, account);
            if GatesOpen(c, s, signal, account) then v == sized else !v.Allow?
  {
    if s.anchor > 0.0 { DailyLossGate(account.equity, s.anchor, c.maxDailyLoss); }
    DistanceIsSizing(c, s, signal, r.distance);
  }

  /** An entry is approved exactly when the gates are open and sizing has all it asks for; and then for the largest
      quantity within every bound. */
  lemma ApprovedExactly(c: RiskConfig, s: RiskState, signal: Signal, account: Account, r: Request)
    requires c.Valid() && IsRequest(c, s, signal, account, r)
    ensures var v := Judge(c, s, signal, account);
            && (v.Allow? <==> GatesOpen(c, s, signal, account) && Sizeable(c, r))
            && (v.Allow? ==> Largest(c, r, v.qty))
  {
    var sized := SizeEntry(c, r.starting, r.realized, r.entry, r.distance, r.equity);
    GatesThenSize(c, s, signal, account, r, sized);
    DistanceIsSizing(c, s, signal, r.distance);
    EntryIsExact(c, r);
  }
}
