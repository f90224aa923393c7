/** Which listed contract an intent trades, and what counts against it. */
module ContractChoice {
  import opened Money
  import opened Prelude
  import opened Trade

  const MIN_OPEN_INTEREST: int := 0
  const MAX_SPREAD_PCT: real := 50.0

  /** The underlyings a listed contract may have; SPX also trades under SPXW. */
  function Allowed(underlying: string): set<string> {
    if Upper(underlying) == "SPX" then {"SPX", "SPXW"} else {Upper(underlying)}
  }

  predicate RightKind(c: OptionContract, underlying: string, optionType: OptionType) {
    Upper(c.underlying) in Allowed(underlying) && c.optionType == optionType
  }

  predicate IsExact(c: OptionContract, underlying: string, optionType: OptionType, strike: real, expiration: Date) {
    RightKind(c, underlying, optionType) && c.strike == strike && c.expiration == expiration
  }

  predicate IsSpxw(c: OptionContract) {
    Contains(Upper(c.symbol), "SPXW") || Upper(c.underlying) == "SPXW"
  }

  method MatchExactContract(chain: seq<OptionContract>, underlying: string, optionType: OptionType, strike: real, expiration: Date)
    returns (c: Option<OptionContract>)
    ensures c == FirstExact(chain, underlying, optionType, strike, expiration)
  {
    var allowed := {Upper(underlying)};
    if Upper(underlying) == "SPX" {
      allowed := allowed + {"SPXW"};
    }
    for i := 0 to |chain|
      invariant FirstExact(chain, underlying, optionType, strike, expiration)
             == FirstExact(chain[i..], underlying, optionType, strike, expiration)
    {
      var c := chain[i];
      if Upper(c.underlying) in allowed && c.optionType == optionType && c.strike == strike && c.expiration == expiration {
        return Some(c);
      }
      assert chain[i..][1..] == chain[i + 1..];
    }
    c := None;
  }

  function FirstExact(chain: seq<OptionContract>, underlying: string, optionType: OptionType, strike: real, expiration: Date)
    : (c: Option<OptionContract>)
    ensures c.Some? ==> c.value in chain && IsExact(c.value, underlying, optionType, strike, expiration)
    ensures c.None? ==> forall x :: x in chain ==> !IsExact(x, underlying, optionType, strike, expiration)
  {
    if chain == [] then None
    else if IsExact(chain[0], underlying, optionType, strike, expiration) then Some(chain[0])
    else FirstExact(chain[1..], underlying, optionType, strike, expiration)
  }

  function Where(chain: seq<OptionContract>, p: OptionContract -> bool): (kept: seq<OptionContract>)
    ensures forall c :: c in kept <==> c in chain && p(c)
  {
    if chain == [] then []
    else if p(chain[0]) then [chain[0]] + Where(chain[1..], p)
    else Where(chain[1..], p)
  }

  function Distance(a: real, b: real): (d: real)
    ensures d >= a - b && d >= b - a && (d == a - b || d == b - a)
  {
    if a < b then b - a else a - b
  }

  /** `min(pool, key=distance)`: the first of the nearest. */
  function Nearest(pool: seq<OptionContract>, strike: real): (c: OptionContract)
    requires pool != []
    ensures c in pool && forall x :: x in pool ==> Distance(c.strike, strike) <= Distance(x.strike, strike)
  {
    if |pool| == 1 then pool[0]
    else
      var rest := Nearest(pool[1..], strike);
      if Distance(pool[0].strike, strike) <= Distance(rest.strike, strike) then pool[0] else rest
  }

  function Candidates(chain: seq<OptionContract>, underlying: string, optionType: OptionType, expiration: Date): seq<OptionContract> {
    var dated := Where(chain, (c: OptionContract) => RightKind(c, underlying, optionType) && c.expiration == expiration);
    if dated != [] then dated else Where(chain, (c: OptionContract) => RightKind(c, underlying, optionType))
  }

  function Preferred(candidates: seq<OptionContract>, underlying: string): seq<OptionContract> {
    if Upper(underlying) == "SPX" && Where(candidates, IsSpxw) != [] then Where(candidates, IsSpxw) else candidates
  }

  function ClosestContract(chain: seq<OptionContract>, underlying: string, optionType: OptionType, strike: real, expiration: Date)
    : Option<OptionContract>
  {
    var pool := Preferred(Candidates(chain, underlying, optionType, expiration), underlying);
    if pool == [] then None else Some(Nearest(pool, strike))
  }

  function Chosen(chain: seq<OptionContract>, intent: Intent, expiration: Date): Option<OptionContract> {
    var exact := FirstExact(chain, intent.underlying, intent.optionType, intent.strike, expiration);
    if exact.None? && intent.strike > 0.0
    then ClosestContract(chain, intent.underlying, intent.optionType, intent.strike, expiration)
    else exact
  }

  predicate WideSpread(c: OptionContract) {
    c.bid.Some? && c.ask.Some? && c.bid.value > 0.0 && c.ask.value != 0.0 &&
    (c.ask.value - c.bid.value) / c.bid.value * 100.0 > MAX_SPREAD_PCT
  }

  predicate ThinInterest(c: OptionContract) {
    c.openInterest.Some? && c.openInterest.value < MIN_OPEN_INTEREST
  }

  function MarketErrors(c: OptionContract): (errors: seq<string>)
    ensures errors == [] <==> !ThinInterest(c) && !WideSpread(c)
  {
    (if ThinInterest(c)
     then ["open interest " + IntText(c.openInterest.value) + " below minimum " + IntText(MIN_OPEN_INTEREST)] else [])
    + if WideSpread(c) then ["spread exceeds max"] else []
  }

  function IntentErrors(intent: Intent): (errors: seq<string>)
    ensures errors == [] <==> intent.expiration.Some? && intent.strike > 0.0 && intent.underlying != ""
  {
    (if intent.expiration.None? then ["missing expiration"] else [])
    + (if intent.strike <= 0.0 then ["invalid strike"] else [])
    + if intent.underlying == "" then ["missing underlying"] else []
  }

  /** The trade an intent becomes with the chosen contract, if any. */
  function WithContract(intent: Intent, expiration: Date, chosen: Option<OptionContract>): ValidatedTrade {
    match chosen
    case None =>
      ValidatedTrade(intent.action, Upper(intent.underlying), intent.optionType, intent.strike, expiration, intent.quantity,
                     intent.limitPrice, intent.rationale, "", None, None, None,
                     IntentErrors(intent) + ["contract not found in option chain"], intent.takeProfitPct, intent.notionalUsd)
    case Some(c) =>
      ValidatedTrade(intent.action, Upper(intent.underlying), intent.optionType, c.strike, c.expiration, intent.quantity,
                     intent.limitPrice, intent.rationale, c.symbol, c.bid, c.ask, c.openInterest,
                     IntentErrors(intent) + MarketErrors(c), intent.takeProfitPct, intent.notionalUsd)
  }

  function Validated(intent: Intent, chain: seq<OptionContract>, today: Date): ValidatedTrade {
    var expiration := intent.expiration.GetOr(today);
    WithContract(intent, expiration, Chosen(chain, intent, expiration))
  }

  method ValidateTrade(intent: Intent, chain: seq<OptionContract>, today: Date) returns (v: ValidatedTrade)
    ensures v == Validated(intent, chain, today)
  {
    var errors := [];
    var expiration := intent.expiration.GetOr(today);
    if intent.expiration.None? {
      errors := errors + ["missing expiration"];
    }
    if intent.strike <= 0.0 {
      errors := errors + ["invalid strike"];
    }
    if intent.underlying == "" {
      errors := errors + ["missing underlying"];
    }
    assert errors == IntentErrors(intent);
    var contract := MatchExactContract(chain, intent.underlying, intent.optionType, intent.strike, expiration);
    if contract.None? && intent.strike > 0.0 {
      contract := ClosestContract(chain, intent.underlying, intent.optionType, intent.strike, expiration);
    }
    if contract.None? {
      errors := errors + ["contract not found in option chain"];
    }
    v := ValidatedTrade(intent.action, Upper(intent.underlying), intent.optionType, intent.strike, expiration, intent.quantity,
                        intent.limitPrice, intent.rationale, "", None, None, None, errors, intent.takeProfitPct, intent.notionalUsd);
    if contract.Some? {
      var c := contract.value;
      v := v.(bid := c.bid, ask := c.ask, openInterest := c.openInterest, contractSymbol := c.symbol, strike := c.strike,
              expiration := c.expiration, errors := errors + MarketErrors(c));
    }
  }

  /**
   * A trade is free of errors exactly when the intent is complete and its contract is liquid;
   * then it is priced and dated by that contract.
   */
  lemma CleanIff(intent: Intent, chain: seq<OptionContract>, today: Date)
    ensures var chosen := Chosen(chain, intent, intent.expiration.GetOr(today));
            var v := Validated(intent, chain, today);
            && (v.errors == [] <==>
                  && intent.expiration.Some? && intent.strike > 0.0 && intent.underlying != ""
                  && chosen.Some? && Liquid(chosen.value))
            && (chosen.Some? ==>
                  && chosen.value in chain && OfKind(chosen.value, intent)
                  && v.contractSymbol == chosen.value.symbol && v.strike == chosen.value.strike
                  && v.expiration == chosen.value.expiration && v.ask == chosen.value.ask && v.bid == chosen.value.bid)
            && v.action == intent.action && v.optionType == intent.optionType && v.quantity == intent.quantity
  {
    var expiration := intent.expiration.GetOr(today);
    var chosen := Chosen(chain, intent, expiration);
    ChoiceIsEligible(chain, intent, expiration);
    if chosen.Some? {
      LiquidIff(chosen.value);
    }
  }

  /** No negative open interest, and an ask at most half as much again as the bid, where both are quoted. */
  ghost predicate Liquid(c: OptionContract) {
    && (c.openInterest.Some? ==> c.openInterest.value >= 0)
    && (c.bid.Some? && c.ask.Some? && c.bid.value > 0.0 && c.ask.value != 0.0 ==> c.ask.value <= c.bid.value + c.bid.value / 2.0)
  }

  lemma LiquidIff(c: OptionContract)
    ensures Liquid(c) <==> !ThinInterest(c) && !WideSpread(c)
  {
    if c.bid.Some? && c.ask.Some? && c.bid.value > 0.0 {
      SpreadIff(c.bid.value, c.ask.value);
    }
  }

  lemma SpreadIff(bid: real, ask: real)
    requires bid > 0.0
    ensures (ask - bid) / bid * 100.0 > 50.0 <==> ask > bid + bid / 2.0
  {
    var share := (ask - bid) / bid;
    assert share * bid == ask - bid;
    ScaleKeepsOrder(share, 0.5, bid);
  }

  // ----- what is chosen -----

  /** Of the intent's option type, on its underlying, or on SPXW when that is SPX. */
  ghost predicate OfKind(c: OptionContract, intent: Intent) {
    && c.optionType == intent.optionType
    && (Upper(c.underlying) == Upper(intent.underlying) || (Upper(intent.underlying) == "SPX" && Upper(c.underlying) == "SPXW"))
  }

  lemma RightKindIff(c: OptionContract, intent: Intent)
    ensures RightKind(c, intent.underlying, intent.optionType) <==> OfKind(c, intent)
  {
  }

  ghost predicate Requested(c: OptionContract, intent: Intent, expiration: Date) {
    OfKind(c, intent) && c.strike == intent.strike && c.expiration == expiration
  }

  /**
   * Nothing is chosen exactly when the chain has no contract of the kind (or the strike is
   * not positive and no contract has exactly the requested terms). What is chosen is in the
   * chain and of the kind; it leaves the requested expiration only when no contract of the
   * kind has it.
   */
  lemma ChoiceIsEligible(chain: seq<OptionContract>, intent: Intent, expiration: Date)
    ensures var chosen := Chosen(chain, intent, expiration);
            match chosen
            case None =>
              forall c :: c in chain ==> if intent.strike > 0.0 then !OfKind(c, intent) else !Requested(c, intent, expiration)
            case Some(c) =>
              && c in chain && OfKind(c, intent)
              && (c.expiration != expiration ==> forall x :: x in chain && OfKind(x, intent) ==> x.expiration != expiration)
  {
    forall c | c in chain ensures RightKind(c, intent.underlying, intent.optionType) <==> OfKind(c, intent) {
      RightKindIff(c, intent);
    }
  }

  /** A listed contract with exactly the requested terms is taken whenever there is one, the first of them. */
  lemma ExactWins(chain: seq<OptionContract>, intent: Intent, expiration: Date, k: nat)
    requires k < |chain| && Requested(chain[k], intent, expiration)
    requires forall j :: 0 <= j < k ==> !Requested(chain[j], intent, expiration)
    ensures Chosen(chain, intent, expiration) == Some(chain[k])
  {
    FirstExactIsFirst(chain, intent, expiration, k);
  }

  lemma {:induction false} FirstExactIsFirst(chain: seq<OptionContract>, intent: Intent, expiration: Date, k: nat)
    requires k < |chain| && Requested(chain[k], intent, expiration)
    requires forall j :: 0 <= j < k ==> !Requested(chain[j], intent, expiration)
    ensures FirstExact(chain, intent.underlying, intent.optionType, intent.strike, expiration) == Some(chain[k])
  {
    RightKindIff(chain[0], intent);
    if k > 0 {
      assert !Requested(chain[0], intent, expiration);
      FirstExactIsFirst(chain[1..], intent, expiration, k - 1);
    }
  }

  /** Of the kind, and at the requested expiration unless no contract of the kind has it. */
  ghost predicate Candidate(c: OptionContract, chain: seq<OptionContract>, intent: Intent, expiration: Date) {
    && c in chain && OfKind(c, intent)
    && (c.expiration == expiration || forall x :: x in chain && OfKind(x, intent) ==> x.expiration != expiration)
  }

  lemma CandidatesAre(chain: seq<OptionContract>, intent: Intent, expiration: Date, c: OptionContract)
    ensures c in Candidates(chain, intent.underlying, intent.optionType, expiration) <==> Candidate(c, chain, intent, expiration)
  {
    var u, t := intent.underlying, intent.optionType;
    var dated := Where(chain, (x: OptionContract) => RightKind(x, u, t) && x.expiration == expiration);
    forall x | x in chain ensures RightKind(x, u, t) <==> OfKind(x, intent) {
      RightKindIff(x, intent);
    }
    if dated != [] {
      assert dated[0] in dated;
    } else {
      forall x | x in chain && RightKind(x, u, t) ensures x.expiration != expiration {
        assert x !in dated;
      }
    }
  }

  /** An SPXW contract, by its symbol or its underlying. */
  ghost predicate Weekly(c: OptionContract) {
    Upper(c.underlying) == "SPXW" || exists i :: 0 <= i <= |Upper(c.symbol)| && "SPXW" <= Upper(c.symbol)[i..]
  }

  /**
   * Without a contract of exactly the requested terms, no candidate is nearer to the requested
   * strike than the chosen contract; for SPX the weeklies are preferred, so there only they
   * compete when there are any.
   */
  lemma ChoiceIsNearest(chain: seq<OptionContract>, intent: Intent, expiration: Date, c: OptionContract)
    requires (forall x :: x in chain ==> !Requested(x, intent, expiration)) && intent.strike > 0.0
    requires Candidate(c, chain, intent, expiration)
    ensures var chosen := Chosen(chain, intent, expiration);
            && chosen.Some?
            && (Upper(intent.underlying) == "SPX" && Weekly(c) ==> Weekly(chosen.value))
            && (Upper(intent.underlying) != "SPX" || Weekly(c) || !Weekly(chosen.value) ==>
                  Distance(chosen.value.strike, intent.strike) <= Distance(c.strike, intent.strike))
  {
    CandidatesAre(chain, intent, expiration, c);
    forall x | x in chain ensures !IsExact(x, intent.underlying, intent.optionType, intent.strike, expiration) {
      RightKindIff(x, intent);
    }
    assert forall x: OptionContract :: IsSpxw(x) <==> Weekly(x);
    var candidates := Candidates(chain, intent.underlying, intent.optionType, expiration);
    var weeklies := Where(candidates, IsSpxw);
    if Upper(intent.underlying) == "SPX" && weeklies != [] {
      assert weeklies[0] in weeklies;
      assert IsSpxw(c) ==> c in weeklies;
      assert Chosen(chain, intent, expiration).value in weeklies;
    } else {
      assert IsSpxw(c) ==> c in weeklies;
    }
  }

  /** Of equally near contracts the first in the pool is taken, and the pools keep the chain's order. */
  lemma {:induction false} NearestIsFirst(pool: seq<OptionContract>, strike: real, k: nat)
    requires k < |pool|
    requires forall j :: 0 <= j < k ==> Distance(pool[j].strike, strike) > Distance(pool[k].strike, strike)
    requires forall j :: k < j < |pool| ==> Distance(pool[j].strike, strike) >= Distance(pool[k].strike, strike)
    ensures Nearest(pool, strike) == pool[k]
  {
    if |pool| > 1 {
      if k > 0 {
        NearestIsFirst(pool[1..], strike, k - 1);
      } else {
        var rest := Nearest(pool[1..], strike);
        var j :| 0 <= j < |pool[1..]| && pool[1..][j] == rest;
        assert pool[j + 1] == rest;
      }
    }
  }

  lemma {:induction false} WhereOfConcat(a: seq<OptionContract>, b: seq<OptionContract>, p: OptionContract -> bool)
    ensures Where(a + b, p) == Where(a, p) + Where(b, p)
  {
    if a == [] {
      assert a + b == b;
    } else {
      WhereOfConcat(a[1..], b, p);
      assert (a + b)[1..] == a[1..] + b;
    }
  }
}
