/**
 * Creating a DCA order in the form: a click runs on over several replies while the user, the chain, the oracle and the
 * effects of earlier renders carry on. A render is a value; what a click sees is the render it was made on.
 */
module DcaPanel {
  import opened Ledger
  import opened ExecutorTypes
  import opened DcaChunks
  import opened Oracle
  import opened SigningFloor
  import Schedule

  datatype FloorTier = OnchainFeed | OffchainPrice | Unpriced

  datatype Token = Token(address: Address, decimals: nat, imported: bool)

  /** What a block, a consent or a floor answer is filed under; a missing token counts as the zero address. */
  datatype Key = Key(chain: nat, tokenIn: Address, tokenOut: Address)

  // ── The oracle gate ──

  /** One leg's oracle reading. */
  datatype PriceCheck = PriceCheck(price: UsdPrice, integrityFailed: bool, unavailable: bool, warns: bool,
    beyondCeiling: bool)

  datatype GateMode = Pass | Consent | Block

  function PriceGate(check: PriceCheck): GateMode {
    if check.integrityFailed then Block
    else if check.unavailable then Pass
    else if check.warns then (if check.beyondCeiling then Block else Consent)
    else Pass
  }

  /** The pair's price is a ratio: either leg blocks it. */
  method EvaluateOracleGate(spend: PriceCheck, buy: PriceCheck) returns (blocked: bool)
    ensures blocked == GateBlocks(spend, buy)
  {
    var checks := [spend, buy];
    for i := 0 to |checks|
      invariant forall j :: 0 <= j < i ==> !PriceGate(checks[j]).Block?
    {
      if PriceGate(checks[i]).Block? {
        return true;
      }
    }
    assert checks[0] == spend && checks[1] == buy;
    blocked := false;
  }

  predicate GateBlocks(spend: PriceCheck, buy: PriceCheck) {
    PriceGate(spend).Block? || PriceGate(buy).Block?
  }

  type Bps = b: nat | b <= BPS_DENOMINATOR

  // ── A render ──

  /**
   * The form's state at one render. `positive` is what the button looks at, the text read as a number; `amount` is the
   * text read in the token's units, which may fail, or come out as zero.
   */
  datatype View = View(
    chain: nat, tokenIn: Option<Token>, tokenOut: Option<Token>,
    positive: bool, amount: Option<nat>, buys: nat, interval: nat, window: nat, slippageBps: Bps,
    oracleIn: PriceCheck, oracleOut: PriceCheck, llamaIn: UsdPrice, llamaOut: UsdPrice,
    routeBlocked: bool, checkingRoute: bool, otherwiseBlocked: bool,
    submitBlockFor: Option<Key>, consentFor: Option<(Key, FloorTier)>, pairFloorFor: Option<(Key, FloorTier)>)
  {
    function AddressOf(token: Option<Token>): Address {
      if token.Some? then token.value.address else ZERO_ADDRESS
    }

    function Selection(): Key {
      Key(chain, AddressOf(tokenIn), AddressOf(tokenOut))
    }

    predicate HasPair() {
      tokenIn.Some? && tokenOut.Some?
    }

    predicate HasImported() {
      (tokenIn.Some? && tokenIn.value.imported) || (tokenOut.Some? && tokenOut.value.imported)
    }

    predicate OracleBlocks() {
      GateBlocks(oracleIn, oracleOut)
    }

    /** Keyed state shows only for the selection it was made for. */
    predicate SubmitBlocked() {
      submitBlockFor == Some(Selection())
    }

    function VisibleConsent(): Option<FloorTier> {
      if consentFor.Some? && consentFor.value.0 == Selection() then Some(consentFor.value.1) else None
    }

    predicate FloorKnown() {
      pairFloorFor.Some? && pairFloorFor.value.0 == Selection()
    }
  }

  /**
   * What the form is configured with: chains with the new executor, order routers, wrapped natives, and the least an
   * order must be worth in USD times 1e8.
   */
  datatype Setting = Setting(v3: set<nat>, routers: map<nat, Address>, wrapped: nat -> Token, leastUsd: nat)

  /** A minimum worth too little to sign; one that cannot be priced passes. */
  predicate Dust(leastUsd: nat, minAmountOut: nat, decimals: nat, price: UsdPrice) {
    price.Some? && 0 < price.value && minAmountOut * price.value < leastUsd * Pow10(decimals)
  }

  predicate CanCreate(setting: Setting, v: View) {
    && v.HasPair() && v.positive && !v.otherwiseBlocked && !v.checkingRoute
    && Schedule.ScheduleFitsExpiry(v.interval, v.buys, v.window)
    && !(v.chain in setting.v3 && v.OracleBlocks())
    && !v.SubmitBlocked()
    && (v.chain in setting.v3 ==> v.FloorKnown())
  }

  /** A click on this render starts with the route question. */
  predicate AsksRoute(setting: Setting, v: View) {
    CanCreate(setting, v) && v.chain in setting.routers && v.amount.Some? && v.HasImported()
  }

  // ── What a click sends ──

  datatype Config = Config(
    chain: nat, tokenIn: Token, tokenOut: Token, amountIn: nat, minAmountOut: nat, slippageBps: Option<nat>,
    expirySeconds: nat, router: Address, dcaInterval: nat, dcaTotal: nat, floorAck: Option<FloorTier>)

  predicate WellPriced(v: View) {
    v.HasPair() && v.amount.Some?
  }

  function SigningMinOf(v: View): nat
    requires WellPriced(v)
  {
    DeriveSigningMin(v.amount.value, v.tokenIn.value.decimals, v.tokenOut.value.decimals, v.slippageBps,
      v.oracleIn.price, v.oracleOut.price, v.llamaIn, v.llamaOut).minAmountOut
  }

  function ConfigFrom(setting: Setting, v: View, ack: Option<FloorTier>): Config
    requires WellPriced(v) && v.chain in setting.routers
  {
    var v3 := v.chain in setting.v3;
    Config(v.chain, v.tokenIn.value, v.tokenOut.value, v.amount.value, if v3 then SigningMinOf(v) else 1,
      if v3 then Some(v.slippageBps) else None, v.window, setting.routers[v.chain], v.interval, v.buys,
      if v3 then ack else None)
  }

  function LivePriceOut(v: View): UsdPrice {
    if v.oracleOut.price.Some? then v.oracleOut.price else v.llamaOut
  }

  predicate IsDust(setting: Setting, v: View)
    requires WellPriced(v)
  {
    Dust(setting.leastUsd, SigningMinOf(v), v.tokenOut.value.decimals, LivePriceOut(v))
  }

  // ── What has been asked and answered ──

  /**
   * Route replies and tier replies by click, the consents a user confirmed, and the answers to the form's own
   * floor question, each with the selection it was asked for.
   */
  datatype Log = Log(
    routes: map<nat, (Key, bool)>, tiers: map<nat, (Key, FloorTier)>,
    confirmed: set<(Key, FloorTier)>, floors: set<(Key, FloorTier)>)
  {
    predicate GrowsTo(later: Log) {
      && (forall id :: id in routes ==> id in later.routes && later.routes[id] == routes[id])
      && (forall id :: id in tiers ==> id in later.tiers && later.tiers[id] == tiers[id])
      && confirmed <= later.confirmed && floors <= later.floors
    }
  }

  datatype Phase = AwaitRoute | AwaitTier

  /** A click under way: the render it was made on, the tier it acknowledges, and its route-check number. */
  datatype Click = Click(view: View, ack: Option<FloorTier>, check: nat, phase: Phase)

  datatype Submission = Submission(id: nat, view: View, config: Config)

  /** A tier below the strongest was really answered for this selection, shown, and accepted. */
  ghost predicate Acknowledged(log: Log, key: Key, tier: FloorTier) {
    && tier != OnchainFeed && (key, tier) in log.confirmed
    && exists asked :: asked in log.tiers && log.tiers[asked] == (key, tier)
  }

  /**
   * The render a click was made on allowed it, and its route question, if it had to be asked, was answered with yes.
   */
  ghost predicate Cleared(setting: Setting, log: Log, id: nat, v: View, ack: Option<FloorTier>) {
    && CanCreate(setting, v) && WellPriced(v) && v.chain in setting.routers
    && (ack.Some? ==> Acknowledged(log, v.Selection(), ack.value))
    && (v.HasImported() && id in log.routes ==> log.routes[id] == (v.Selection(), true))
  }

  ghost predicate ClickRight(setting: Setting, log: Log, id: nat, click: Click) {
    && Cleared(setting, log, id, click.view, click.ack)
    && (click.phase.AwaitRoute? ==> click.view.HasImported() && id !in log.routes)
    && (click.phase.AwaitTier? ==>
        click.view.chain in setting.v3 && click.ack.None? && (click.view.HasImported() ==> id in log.routes))
    && id !in log.tiers
  }

  /** The whole story behind one submitted order. */
  ghost predicate SubmissionRight(setting: Setting, log: Log, sub: Submission) {
    var v, c := sub.view, sub.config;
    && Cleared(setting, log, sub.id, v, c.floorAck)
    && c == ConfigFrom(setting, v, c.floorAck)
    && (v.chain in setting.v3 ==> !IsDust(setting, v))
    && (v.HasImported() ==> sub.id in log.routes)
    && (v.chain in setting.v3 && c.floorAck.None? ==>
        sub.id in log.tiers && log.tiers[sub.id] == (v.Selection(), OnchainFeed))
  }

  lemma AcknowledgedGrows(log: Log, later: Log, key: Key, tier: FloorTier)
    requires log.GrowsTo(later) && Acknowledged(log, key, tier)
    ensures Acknowledged(later, key, tier)
  {
    var asked :| asked in log.tiers && log.tiers[asked] == (key, tier);
    assert asked in later.tiers;
  }

  lemma ClearedGrows(setting: Setting, log: Log, later: Log, id: nat, v: View, ack: Option<FloorTier>)
    requires log.GrowsTo(later) && Cleared(setting, log, id, v, ack)
    requires id in later.routes && id !in log.routes ==> later.routes[id] == (v.Selection(), true)
    ensures Cleared(setting, later, id, v, ack)
  {
    hide CanCreate, WellPriced, Acknowledged;
    if ack.Some? {
      AcknowledgedGrows(log, later, v.Selection(), ack.value);
    }
  }

  lemma FreshClickIsCleared(setting: Setting, log: Log, id: nat, v: View, ack: Option<FloorTier>)
    requires CanCreate(setting, v) && v.amount.Some? && v.chain in setting.routers && id !in log.routes
    requires ack.Some? ==> Acknowledged(log, v.Selection(), ack.value)
    ensures WellPriced(v) && Cleared(setting, log, id, v, ack)
  {
  }

  lemma SubmissionRightGrows(setting: Setting, log: Log, later: Log, sub: Submission)
    requires log.GrowsTo(later) && SubmissionRight(setting, log, sub)
    requires sub.id in later.routes ==> sub.id in log.routes
    ensures SubmissionRight(setting, later, sub)
  {
    hide Cleared, ConfigFrom;
    ClearedGrows(setting, log, later, sub.id, sub.view, sub.config.floorAck);
  }

  ghost predicate ClicksRight(setting: Setting, log: Log, clicks: map<nat, Click>, next: nat) {
    && (forall id :: id in clicks ==> id < next && ClickRight(setting, log, id, clicks[id]))
    && (forall id :: id in log.routes || id in log.tiers ==> id < next)
  }

  ghost predicate SubmittedRight(
      setting: Setting, log: Log, clicks: map<nat, Click>, next: nat, submitted: seq<Submission>) {
    && (forall i :: 0 <= i < |submitted| ==> SubmissionRight(setting, log, submitted[i])
                                             && submitted[i].id < next && submitted[i].id !in clicks)
    && (forall i, j :: 0 <= i < j < |submitted| ==> submitted[i].id != submitted[j].id)
  }

  /**
   * Where the fallback prices at a click came from, which of them were being asked for, and what the effect had seen.
   */
  datatype Pricing = Pricing(origins: Origins, spendAsked: bool, buyAsked: bool, seen: LlamaDeps)

  /** The chain and token a price was asked for. */
  datatype Origin = Origin(chain: nat, token: Token)

  datatype Origins = Origins(spend: Option<Origin>, buy: Option<Origin>)

  /** A price on hand was once asked for, and with no newer request under way it answers what the effect last saw. */
  predicate LegExplained(price: UsdPrice, origin: Option<Origin>, asked: bool, chain: nat, token: Option<Token>) {
    price.Some? ==> origin.Some? && (!asked ==> token.Some? && origin == Some(Origin(chain, token.value)))
  }

  predicate PricingRight(v: View, p: Pricing) {
    && LegExplained(v.llamaIn, p.origins.spend, p.spendAsked, p.seen.chain, p.seen.tokenIn)
    && LegExplained(v.llamaOut, p.origins.buy, p.buyAsked, p.seen.chain, p.seen.tokenOut)
  }

  predicate PricingsRight(pricings: map<nat, Pricing>, clicks: map<nat, Click>, submitted: seq<Submission>) {
    && (forall id :: id in clicks ==> id in pricings && PricingRight(clicks[id].view, pricings[id]))
    && (forall i :: 0 <= i < |submitted| ==>
          submitted[i].id in pricings && PricingRight(submitted[i].view, pricings[submitted[i].id]))
  }

  ghost predicate BookRight(
    setting: Setting, log: Log, pricings: map<nat, Pricing>, clicks: map<nat, Click>, next: nat,
    submitted: seq<Submission>)
  {
    && ClicksRight(setting, log, clicks, next)
    && SubmittedRight(setting, log, clicks, next, submitted)
    && PricingsRight(pricings, clicks, submitted)
  }

  // ── Effects of a render ──

  datatype LlamaDeps = LlamaDeps(
    v3: bool, allowed: bool, tokenIn: Option<Token>, tokenOut: Option<Token>,
    priceIn: UsdPrice, priceOut: UsdPrice, chain: nat)

  function LlamaDepsOf(setting: Setting, v: View): LlamaDeps {
    var v3 := v.chain in setting.v3;
    LlamaDeps(v3, !(v3 && v.OracleBlocks()), v.tokenIn, v.tokenOut, v.oracleIn.price, v.oracleOut.price, v.chain)
  }

  /**
   * The fallback prices after the effect has run: none behind a closed gate or beside an oracle price, otherwise
   * whatever was there.
   */
  function KeptFallback(setting: Setting, v: View): View {
    var closed := v.chain !in setting.v3 || v.OracleBlocks();
    v.(llamaIn := if closed || v.oracleIn.price.Some? || v.tokenIn.None? then None else v.llamaIn,
       llamaOut := if closed || v.oracleOut.price.Some? || v.tokenOut.None? then None else v.llamaOut)
  }

  lemma SelectionKept(setting: Setting, v: View)
    ensures KeptFallback(setting, v).Selection() == v.Selection() && KeptFallback(setting, v).HasPair() == v.HasPair()
    ensures KeptFallback(setting, v).chain == v.chain
  {
  }

  /** Behind an open gate the legs that are asked for keep what they have. */
  lemma KeptWhereAsked(setting: Setting, v: View)
    requires LlamaDepsOf(setting, v).v3 && LlamaDepsOf(setting, v).allowed
    ensures KeptFallback(setting, v)
         == v.(llamaIn := if v.oracleIn.price.None? && v.tokenIn.Some? then v.llamaIn else None,
               llamaOut := if v.oracleOut.price.None? && v.tokenOut.Some? then v.llamaOut else None)
  {
    hide GateBlocks;
  }

  lemma NothingToKeep(setting: Setting, v: View)
    requires v.llamaIn.None? && v.llamaOut.None?
    ensures KeptFallback(setting, v) == v
  {
  }

  /** The form's state once the effects of the last render have run. */
  function Settled(setting: Setting, v: View, pairSeen: (Option<Token>, Option<Token>), llamaSeen: LlamaDeps): View {
    var kept := if llamaSeen == LlamaDepsOf(setting, v) then v else KeptFallback(setting, v);
    if pairSeen == (v.tokenIn, v.tokenOut) then kept else kept.(routeBlocked := false)
  }

  datatype Leg = Spend | Buy

  /** A price request, live while `run` is the effect's latest run. */
  datatype LlamaFetch = LlamaFetch(run: nat, leg: Leg, chain: nat, token: Token)

  datatype FloorFetch = FloorFetch(run: nat, key: Key)

  ghost predicate AskingFloor(fetches: map<nat, FloorFetch>, run: nat, key: Key) {
    exists id :: id in fetches && fetches[id] == FloorFetch(run, key)
  }

  /** Once the effect has seen a closed gate there is no fallback price and nothing that could still bring one. */
  predicate LlamaQuiet(
      llamaIn: UsdPrice, llamaOut: UsdPrice, seen: LlamaDeps, run: nat, fetches: map<nat, LlamaFetch>) {
    && (!seen.v3 || !seen.allowed ==>
          llamaIn.None? && llamaOut.None? && forall id :: id in fetches ==> fetches[id].run != run)
    && (forall id :: id in fetches ==> fetches[id].run <= run)
    && (forall id :: id in fetches && fetches[id].run == run ==>
          fetches[id].chain == seen.chain &&
          if fetches[id].leg.Spend? then seen.priceIn.None? && seen.tokenIn == Some(fetches[id].token)
          else seen.priceOut.None? && seen.tokenOut == Some(fetches[id].token))
  }

  function OriginsAfter(origins: Origins, request: LlamaFetch, run: nat): Origins {
    if request.run != run then origins
    else if request.leg.Spend? then origins.(spend := Some(Origin(request.chain, request.token)))
    else origins.(buy := Some(Origin(request.chain, request.token)))
  }

  ghost predicate Asking(fetches: map<nat, LlamaFetch>, run: nat, leg: Leg) {
    exists id :: id in fetches && fetches[id].run == run && fetches[id].leg == leg
  }

  /** Every fallback price on hand is explained. */
  ghost predicate PricesExplained(
    llamaIn: UsdPrice, llamaOut: UsdPrice, seen: LlamaDeps, run: nat, fetches: map<nat, LlamaFetch>, origins: Origins)
  {
    && LegExplained(llamaIn, origins.spend, Asking(fetches, run, Spend), seen.chain, seen.tokenIn)
    && LegExplained(llamaOut, origins.buy, Asking(fetches, run, Buy), seen.chain, seen.tokenOut)
  }

  /** How prices stand. */
  ghost function PricingOf(seen: LlamaDeps, run: nat, fetches: map<nat, LlamaFetch>, origins: Origins): Pricing {
    Pricing(origins, Asking(fetches, run, Spend), Asking(fetches, run, Buy), seen)
  }

  lemma PricedNow(v: View, seen: LlamaDeps, run: nat, fetches: map<nat, LlamaFetch>, origins: Origins)
    requires FallbackRight(v.llamaIn, v.llamaOut, seen, run, fetches, origins)
    ensures PricingRight(v, PricingOf(seen, run, fetches, origins))
  {
  }

  ghost predicate FallbackRight(
    llamaIn: UsdPrice, llamaOut: UsdPrice, seen: LlamaDeps, run: nat, fetches: map<nat, LlamaFetch>, origins: Origins)
  {
    && LlamaQuiet(llamaIn, llamaOut, seen, run, fetches)
    && PricesExplained(llamaIn, llamaOut, seen, run, fetches, origins)
  }

  /** Behind an open gate, exactly the legs without an oracle price are being asked for. */
  ghost predicate AsksForMissingLegs(seen: LlamaDeps, run: nat, fetches: map<nat, LlamaFetch>) {
    && (Asking(fetches, run, Spend) <==> seen.v3 && seen.allowed && seen.priceIn.None? && seen.tokenIn.Some?)
    && (Asking(fetches, run, Buy) <==> seen.v3 && seen.allowed && seen.priceOut.None? && seen.tokenOut.Some?)
  }

  lemma NothingLive(
    v: View, before: LlamaDeps, seen: LlamaDeps, run: nat, later: nat, fetches: map<nat, LlamaFetch>, origins: Origins)
    requires FallbackRight(v.llamaIn, v.llamaOut, before, run, fetches, origins) && run < later
    ensures forall id :: id in fetches ==> fetches[id].run < later
    ensures v.llamaIn.Some? ==> origins.spend.Some?
    ensures v.llamaOut.Some? ==> origins.buy.Some?
    ensures !seen.v3 || !seen.allowed ==>
              FallbackRight(None, None, seen, later, fetches, origins) && AsksForMissingLegs(seen, later, fetches)
  {
  }

  /** The requests after an open gate's effect has run. */
  function Asked(seen: LlamaDeps, run: nat, fetches: map<nat, LlamaFetch>, next: nat): map<nat, LlamaFetch> {
    var spends, buys := seen.priceIn.None? && seen.tokenIn.Some?, seen.priceOut.None? && seen.tokenOut.Some?;
    var asked := if spends then fetches[next := LlamaFetch(run, Spend, seen.chain, seen.tokenIn.value)] else fetches;
    var after := if spends then next + 1 else next;
    if buys then asked[after := LlamaFetch(run, Buy, seen.chain, seen.tokenOut.value)] else asked
  }

  function NumberAfter(seen: LlamaDeps, next: nat): nat {
    next + (if seen.priceIn.None? && seen.tokenIn.Some? then 1 else 0)
    + if seen.priceOut.None? && seen.tokenOut.Some? then 1 else 0
  }

  /** Asking for the missing legs explains whatever prices are kept on them. */
  lemma AskedIsRight(
    seen: LlamaDeps, run: nat, fetches: map<nat, LlamaFetch>, next: nat, llamaIn: UsdPrice, llamaOut: UsdPrice,
    origins: Origins)
    requires seen.v3 && seen.allowed
    requires forall id :: id in fetches ==> id < next && fetches[id].run < run
    requires llamaIn.Some? ==> seen.priceIn.None? && seen.tokenIn.Some? && origins.spend.Some?
    requires llamaOut.Some? ==> seen.priceOut.None? && seen.tokenOut.Some? && origins.buy.Some?
    ensures FallbackRight(llamaIn, llamaOut, seen, run, Asked(seen, run, fetches, next), origins)
    ensures AsksForMissingLegs(seen, run, Asked(seen, run, fetches, next))
    ensures next <= NumberAfter(seen, next)
    ensures forall id :: id in Asked(seen, run, fetches, next) ==> id < NumberAfter(seen, next)
  {
    var asked, spends := Asked(seen, run, fetches, next), seen.priceIn.None? && seen.tokenIn.Some?;
    var after := if spends then next + 1 else next;
    assert spends ==> next in asked && asked[next].run == run && asked[next].leg == Spend;
    assert seen.priceOut.None? && seen.tokenOut.Some? ==>
      after in asked && asked[after].run == run && asked[after].leg == Buy;
  }

  /** A live reply explains the price it brings; the other leg and other requests are untouched. */
  lemma ReplyIsRight(
    llamaIn: UsdPrice, llamaOut: UsdPrice, seen: LlamaDeps, run: nat, fetches: map<nat, LlamaFetch>, origins: Origins,
    fetch: nat, price: UsdPrice)
    requires FallbackRight(llamaIn, llamaOut, seen, run, fetches, origins) && fetch in fetches
    ensures
      var f, rest := fetches[fetch], fetches - {fetch};
      var origin := Some(Origin(f.chain, f.token));
      if f.run != run then FallbackRight(llamaIn, llamaOut, seen, run, rest, origins)
      else if f.leg.Spend? then FallbackRight(price, llamaOut, seen, run, rest, origins.(spend := origin))
      else FallbackRight(llamaIn, price, seen, run, rest, origins.(buy := origin))
  {
    var f, rest := fetches[fetch], fetches - {fetch};
    forall leg | Asking(fetches, run, leg) && (f.run != run || f.leg != leg)
      ensures Asking(rest, run, leg)
    {
      var id :| id in fetches && fetches[id].run == run && fetches[id].leg == leg;
      assert id in rest;
    }
    assert forall leg :: Asking(rest, run, leg) ==> Asking(fetches, run, leg) by {
      forall leg | Asking(rest, run, leg)
        ensures Asking(fetches, run, leg)
      {
        var id :| id in rest && rest[id].run == run && rest[id].leg == leg;
        assert id in fetches;
      }
    }
  }

  /**
   * A route check that still counts is about the present selection, unless the effects of a pair change are still to
   * run; and the button is off exactly while the one route question there can be is open.
   */
  ghost predicate ChecksCurrent(
    chain: nat, pair: (Option<Token>, Option<Token>), pairSeen: (Option<Token>, Option<Token>), routeCheck: nat,
    checking: bool, clicks: map<nat, Click>)
  {
    && (forall id :: id in clicks && clicks[id].phase.AwaitRoute? ==>
          && clicks[id].check <= routeCheck
          && (clicks[id].check == routeCheck ==>
                || pair != pairSeen
                || (clicks[id].view.chain == chain && (clicks[id].view.tokenIn, clicks[id].view.tokenOut) == pair)))
    && (forall i, j :: i in clicks && j in clicks && clicks[i].phase.AwaitRoute? && clicks[j].phase.AwaitRoute? ==>
          i == j)
    && (checking <==> exists id :: id in clicks && clicks[id].phase.AwaitRoute?)
  }

  lemma ChecksWithClick(
    chain: nat, pair: (Option<Token>, Option<Token>), pairSeen: (Option<Token>, Option<Token>), routeCheck: nat,
    checking: bool, clicks: map<nat, Click>, id: nat, click: Click)
    requires ChecksCurrent(chain, pair, pairSeen, routeCheck, checking, clicks) && id !in clicks
    requires click.phase.AwaitTier?
    ensures ChecksCurrent(chain, pair, pairSeen, routeCheck, checking, clicks[id := click])
  {
    if checking {
      var asked :| asked in clicks && clicks[asked].phase.AwaitRoute?;
      assert asked in clicks[id := click] && clicks[id := click][asked].phase.AwaitRoute?;
    }
  }

  /** The first question of a click that finds the button on. */
  lemma ChecksWithQuestion(
    v: View, pairSeen: (Option<Token>, Option<Token>), routeCheck: nat, clicks: map<nat, Click>, id: nat, click: Click)
    requires ChecksCurrent(v.chain, (v.tokenIn, v.tokenOut), pairSeen, routeCheck, false, clicks) && id !in clicks
    requires click.phase.AwaitRoute? && click.check == routeCheck + 1
    requires click.view.chain == v.chain && click.view.tokenIn == v.tokenIn && click.view.tokenOut == v.tokenOut
    ensures ChecksCurrent(v.chain, (v.tokenIn, v.tokenOut), pairSeen, routeCheck + 1, true, clicks[id := click])
  {
    assert id in clicks[id := click] && clicks[id := click][id].phase.AwaitRoute?;
  }

  /** A pending consent is for a tier really answered for its selection; so is the floor on show. */
  ghost predicate KeyedRight(log: Log, consentFor: Option<(Key, FloorTier)>, pairFloorFor: Option<(Key, FloorTier)>) {
    && (consentFor.Some? ==>
          && consentFor.value.1 != OnchainFeed
          && exists asked :: asked in log.tiers && log.tiers[asked] == consentFor.value)
    && (pairFloorFor.Some? ==> pairFloorFor.value in log.floors)
  }

  lemma NothingYet(setting: Setting, seen: LlamaDeps, v: View)
    ensures BookRight(setting, Log(map[], map[], {}, {}), map[], map[], 0, [])
    ensures FallbackRight(None, None, seen, 0, map[], Origins(None, None))
    ensures ChecksCurrent(v.chain, (v.tokenIn, v.tokenOut), (v.tokenIn, v.tokenOut), 1, false, map[])
    ensures KeyedRight(Log(map[], map[], {}, {}), None, None)
  {
  }

  // ── What a click does once its questions are answered ──

  /** The part of the form a click can change: the render, the clicks under way, and what has been submitted. */
  datatype Outcome = Outcome(view: View, clicks: map<nat, Click>, submitted: seq<Submission>)

  /** Sign-ready: a minimum worth signing goes out, one worth too little blocks its own selection. */
  function Finished(setting: Setting, o: Outcome, id: nat, v: View, ack: Option<FloorTier>): Outcome
    requires WellPriced(v) && v.chain in setting.routers
  {
    if v.chain in setting.v3 && IsDust(setting, v) then
      o.(view := o.view.(submitBlockFor := Some(v.Selection())))
    else
      o.(submitted := o.submitted
          + [Submission(id, v, ConfigFrom(setting, v, if v.chain in setting.v3 then ack else None))])
  }

  /** After the route question: ask for the floor tier, unless it was acknowledged already, or finish. */
  function WentOn(setting: Setting, o: Outcome, id: nat, v: View, ack: Option<FloorTier>, check: nat): Outcome
    requires WellPriced(v) && v.chain in setting.routers
  {
    if v.chain in setting.v3 && ack.None? then o.(clicks := o.clicks[id := Click(v, ack, check, AwaitTier)])
    else Finished(setting, o, id, v, ack)
  }

  /** A click that is let through; `current` is the number of the latest route check. */
  function Started(setting: Setting, o: Outcome, id: nat, ack: Option<FloorTier>, current: nat): Outcome {
    var v := o.view;
    var cleared := o.(view := v.(routeBlocked := false, submitBlockFor := None));
    if v.chain !in setting.routers then o.(view := cleared.view.(routeBlocked := true))
    else if v.amount.None? || !v.HasPair() then cleared
    else if v.HasImported() then
      o.(view := cleared.view.(checkingRoute := true), clicks := o.clicks[id := Click(v, ack, current + 1, AwaitRoute)])
    else WentOn(setting, cleared, id, v, ack, current)
  }

  /** A click from its start. */
  function Pressed(setting: Setting, o: Outcome, id: nat, ack: Option<FloorTier>, current: nat): Outcome {
    if CanCreate(setting, o.view) then Started(setting, o, id, ack, current) else o
  }

  // ── The form ──

  class DcaPanel {
    const setting: Setting
    var view: View
    // The ref behind the route check; not part of any render.
    var routeCheck: nat
    var clicks: map<nat, Click>
    var nextClick: nat
    // What each effect depended on when it last ran.
    var pairSeen: (Option<Token>, Option<Token>)
    var floorSeen: (bool, Key)
    var floorRun: nat
    var floorFetches: map<nat, FloorFetch>
    var llamaSeen: LlamaDeps
    var llamaRun: nat
    var llamaFetches: map<nat, LlamaFetch>
    var nextFetch: nat
    var submitted: seq<Submission>
    ghost var log: Log
    // Which request brought each fallback price on hand, and how prices stood at each click.
    ghost var origins: Origins
    ghost var pricings: map<nat, Pricing>

    function State(): Outcome
      reads this
    {
      Outcome(view, clicks, submitted)
    }

    ghost predicate Valid()
      reads this
    {
      && BookRight(setting, log, pricings, clicks, nextClick, submitted)
      && FallbackRight(view.llamaIn, view.llamaOut, llamaSeen, llamaRun, llamaFetches, origins)
      && ChecksCurrent(view.chain, (view.tokenIn, view.tokenOut), pairSeen, routeCheck, view.checkingRoute, clicks)
      && KeyedRight(log, view.consentFor, view.pairFloorFor)
      && (forall id :: id in llamaFetches ==> id < nextFetch)
      && (forall id :: id in floorFetches ==> id < nextFetch)
    }

    /** Mounting runs every effect once. */
    constructor (setting: Setting, v: View)
      requires v.submitBlockFor.None? && v.consentFor.None? && v.pairFloorFor.None?
      requires v.llamaIn.None? && v.llamaOut.None? && !v.checkingRoute
      ensures Valid() && this.setting == setting && submitted == [] && clicks == map[]
      ensures view == v.(routeBlocked := false) && pairSeen == (v.tokenIn, v.tokenOut)
          && llamaSeen == LlamaDepsOf(setting, v)
      ensures AsksForMissingLegs(llamaSeen, llamaRun, llamaFetches)
      ensures v.chain in setting.v3 && v.HasPair() ==>
                floorFetches.Keys == {0} && floorFetches[0] == FloorFetch(floorRun, v.Selection())
    {
      hide BookRight, FallbackRight, ChecksCurrent, KeyedRight, GateBlocks, AsksForMissingLegs, KeptFallback,
        AskingFloor;
      this.setting, view := setting, v.(routeBlocked := false);
      routeCheck, clicks, nextClick, submitted := 1, map[], 0, [];
      pairSeen := (v.tokenIn, v.tokenOut);
      // No effect has run yet: both depend on something else than what they are about to see.
      floorSeen, floorRun, floorFetches := (v.chain !in setting.v3, v.Selection()), 0, map[];
      llamaSeen, llamaRun, llamaFetches := LlamaDepsOf(setting, v).(v3 := v.chain !in setting.v3), 0, map[];
      nextFetch, log := 0, Log(map[], map[], {}, {});
      origins, pricings := Origins(None, None), map[];
      NothingYet(setting, LlamaDepsOf(setting, v).(v3 := v.chain !in setting.v3), v);
      NothingToKeep(setting, v.(routeBlocked := false));
      new;
      RunFloorEffect();
      RunLlamaEffect();
    }

    /**
     * Effects run after a render, and before the next one at the latest: each only if what it depends on has changed.
     */
    method RunEffects()
      requires Valid()
      modifies this`view, this`routeCheck, this`pairSeen, this`floorSeen, this`floorRun, this`floorFetches,
        this`llamaSeen, this`llamaRun, this`llamaFetches, this`nextFetch
      ensures Valid()
      ensures pairSeen == (view.tokenIn, view.tokenOut) && llamaSeen == LlamaDepsOf(setting, view)
      ensures view == Settled(setting, old(view), old(pairSeen), old(llamaSeen))
      ensures old(llamaSeen) == llamaSeen ==> llamaRun == old(llamaRun) && llamaFetches == old(llamaFetches)
      ensures old(llamaSeen) != llamaSeen ==>
          llamaRun == old(llamaRun) + 1 && AsksForMissingLegs(llamaSeen, llamaRun, llamaFetches)
      ensures clicks == old(clicks) && submitted == old(submitted)
      ensures old(floorSeen) != floorSeen && floorSeen.0 && view.HasPair() ==>
                AskingFloor(floorFetches, floorRun, view.Selection())
      ensures floorSeen == (view.chain in setting.v3, view.Selection())
      ensures routeCheck == old(routeCheck) + if old(pairSeen) == (view.tokenIn, view.tokenOut) then 0 else 1
    {
      hide BookRight, KeyedRight, FallbackRight, ChecksCurrent, AsksForMissingLegs, GateBlocks, AskingFloor;
      RunPairEffect();
      RunFloorEffect();
      SelectionKept(setting, view);
      RunLlamaEffect();
    }

    method RunPairEffect()
      requires Valid()
      modifies this`view, this`routeCheck, this`pairSeen
      ensures Valid()
      ensures pairSeen == (view.tokenIn, view.tokenOut)
      ensures view == if old(pairSeen) == pairSeen then old(view) else old(view).(routeBlocked := false)
      ensures routeCheck == old(routeCheck) + if old(pairSeen) == (view.tokenIn, view.tokenOut) then 0 else 1
    {
      hide BookRight, FallbackRight, KeyedRight;
      if pairSeen != (view.tokenIn, view.tokenOut) {
        view := view.(routeBlocked := false);
        routeCheck := routeCheck + 1;
        pairSeen := (view.tokenIn, view.tokenOut);
      }
    }

    method RunFloorEffect()
      requires Valid()
      modifies this`floorSeen, this`floorRun, this`floorFetches, this`nextFetch
      ensures Valid()
      ensures floorSeen == (view.chain in setting.v3, view.Selection())
      ensures old(floorSeen) == floorSeen ==> floorRun == old(floorRun) && floorFetches == old(floorFetches)
      ensures old(floorSeen) != floorSeen ==>
                && floorRun == old(floorRun) + 1
                && floorFetches == if floorSeen.0 && view.HasPair()
                                   then old(floorFetches)[old(nextFetch) := FloorFetch(floorRun, view.Selection())]
                                   else old(floorFetches)
      ensures old(floorSeen) != floorSeen && floorSeen.0 && view.HasPair() ==>
                AskingFloor(floorFetches, floorRun, view.Selection())
    {
      hide BookRight, FallbackRight, ChecksCurrent, KeyedRight;
      var v3 := view.chain in setting.v3;
      if floorSeen != (v3, view.Selection()) {
        floorSeen := (v3, view.Selection());
        floorRun := floorRun + 1; // the earlier request is aborted
        if v3 && view.HasPair() {
          floorFetches := floorFetches[nextFetch := FloorFetch(floorRun, view.Selection())];
          assert nextFetch in floorFetches && floorFetches[nextFetch] == FloorFetch(floorRun, view.Selection());
          nextFetch := nextFetch + 1;
        }
      }
    }

    method RunLlamaEffect()
      requires Valid()
      modifies this`view, this`llamaSeen, this`llamaRun, this`llamaFetches, this`nextFetch
      ensures Valid()
      ensures llamaSeen == LlamaDepsOf(setting, view)
      ensures view == if old(llamaSeen) == llamaSeen then old(view) else KeptFallback(setting, old(view))
      ensures old(llamaSeen) == llamaSeen ==> llamaRun == old(llamaRun) && llamaFetches == old(llamaFetches)
      ensures old(llamaSeen) != llamaSeen ==>
          llamaRun == old(llamaRun) + 1 && AsksForMissingLegs(llamaSeen, llamaRun, llamaFetches)
    {
      hide BookRight, GateBlocks, ChecksCurrent, KeyedRight, FallbackRight, AsksForMissingLegs;
      var deps := LlamaDepsOf(setting, view);
      if llamaSeen == deps {
        return;
      }
      llamaSeen := deps;
      llamaRun := llamaRun + 1; // whatever is under way is cancelled
      NothingLive(view, old(llamaSeen), deps, old(llamaRun), llamaRun, llamaFetches, origins);
      if !deps.v3 || !deps.allowed {
        view := view.(llamaIn := None, llamaOut := None);
        return;
      }
      AskMissingLegs();
    }

    /** A missing leg is asked for, and the price on hand stays until the reply; the other legs need none. */
    method AskMissingLegs()
      requires BookRight(setting, log, pricings, clicks, nextClick, submitted)
      requires
        ChecksCurrent(view.chain, (view.tokenIn, view.tokenOut), pairSeen, routeCheck, view.checkingRoute, clicks)
      requires KeyedRight(log, view.consentFor, view.pairFloorFor)
      requires forall id :: id in floorFetches ==> id < nextFetch
      requires llamaSeen == LlamaDepsOf(setting, view) && llamaSeen.v3 && llamaSeen.allowed
      requires forall id :: id in llamaFetches ==> id < nextFetch && llamaFetches[id].run < llamaRun
      requires (view.llamaIn.Some? ==> origins.spend.Some?) && (view.llamaOut.Some? ==> origins.buy.Some?)
      modifies this`view, this`llamaFetches, this`nextFetch
      ensures Valid()
      ensures view == KeptFallback(setting, old(view))
      ensures AsksForMissingLegs(llamaSeen, llamaRun, llamaFetches)
    {
      hide BookRight, GateBlocks, ChecksCurrent, KeyedRight, FallbackRight, AsksForMissingLegs, KeptFallback;
      KeptWhereAsked(setting, view);
      ghost var kept := KeptFallback(setting, view);
      AskedIsRight(llamaSeen, llamaRun, llamaFetches, nextFetch, kept.llamaIn, kept.llamaOut, origins);
      var llamaIn, llamaOut, fetches, next := None, None, llamaFetches, nextFetch;
      if view.oracleIn.price.None? && view.tokenIn.Some? {
        fetches, next := fetches[next := LlamaFetch(llamaRun, Spend, view.chain, view.tokenIn.value)], next + 1;
        llamaIn := view.llamaIn;
      }
      if view.oracleOut.price.None? && view.tokenOut.Some? {
        fetches, next := fetches[next := LlamaFetch(llamaRun, Buy, view.chain, view.tokenOut.value)], next + 1;
        llamaOut := view.llamaOut;
      }
      assert && fetches == Asked(llamaSeen, llamaRun, llamaFetches, nextFetch)
             && next == NumberAfter(llamaSeen, nextFetch);
      llamaFetches, nextFetch := fetches, next;
      view := view.(llamaIn := llamaIn, llamaOut := llamaOut);
    }

    /** The user picks tokens. */
    method PickPair(tokenIn: Option<Token>, tokenOut: Option<Token>)
      requires Valid()
      modifies this
      ensures Valid()
      ensures view
          == Settled(setting, old(view), old(pairSeen), old(llamaSeen)).(tokenIn := tokenIn, tokenOut := tokenOut)
      ensures pairSeen == (old(view).tokenIn, old(view).tokenOut) && llamaSeen == LlamaDepsOf(setting, old(view))
      ensures submitted == old(submitted) && clicks == old(clicks) && log == old(log) && origins == old(origins)
      ensures floorSeen == (old(view).chain in setting.v3, old(view).Selection())
          && llamaSeen == LlamaDepsOf(setting, old(view))
    {
      hide BookRight, FallbackRight, KeyedRight;
      RunEffects();
      view := view.(tokenIn := tokenIn, tokenOut := tokenOut);
    }

    /** A selection never outlives the chain it was made on. */
    method SwitchChain(chain: nat)
      requires Valid()
      modifies this
      ensures Valid()
      ensures
        var settled := Settled(setting, old(view), old(pairSeen), old(llamaSeen));
        view == if chain == settled.chain then settled
                else settled.(chain := chain, tokenIn := Some(setting.wrapped(chain)), tokenOut := None)
      ensures submitted == old(submitted) && clicks == old(clicks) && log == old(log) && origins == old(origins)
      ensures floorSeen == (old(view).chain in setting.v3, old(view).Selection())
          && llamaSeen == LlamaDepsOf(setting, old(view))
    {
      hide BookRight, FallbackRight, KeyedRight, ChecksCurrent, GateBlocks;
      RunEffects();
      if chain != view.chain {
        NoCheckOnOneToken(chain, setting.wrapped(chain));
        view := view.(chain := chain, tokenIn := Some(setting.wrapped(chain)), tokenOut := None);
      }
    }

    /** A click is about two tokens, so none is about the selection a chain switch leaves. */
    lemma NoCheckOnOneToken(chain: nat, token: Token)
      requires Valid() && pairSeen == (view.tokenIn, view.tokenOut)
      ensures ChecksCurrent(chain, (Some(token), None), pairSeen, routeCheck, view.checkingRoute, clicks)
    {
      hide SubmittedRight, PricingsRight, FallbackRight, CanCreate;
    }

    /** Amount, schedule, slippage, and everything outside the form: oracle readings, pauses, other gates. */
    method Adjust(v: View)
      requires Valid()
      modifies this
      ensures Valid()
      ensures
        var settled := Settled(setting, old(view), old(pairSeen), old(llamaSeen));
        view == v.(chain := settled.chain, tokenIn := settled.tokenIn, tokenOut := settled.tokenOut,
                   llamaIn := settled.llamaIn, llamaOut := settled.llamaOut, routeBlocked := settled.routeBlocked,
                   checkingRoute := settled.checkingRoute, submitBlockFor := settled.submitBlockFor,
                   consentFor := settled.consentFor, pairFloorFor := settled.pairFloorFor)
      ensures submitted == old(submitted) && clicks == old(clicks) && log == old(log) && origins == old(origins)
      ensures floorSeen == (old(view).chain in setting.v3, old(view).Selection())
          && llamaSeen == LlamaDepsOf(setting, old(view))
    {
      hide BookRight, FallbackRight, ChecksCurrent, KeyedRight;
      RunEffects();
      view := v.(chain := view.chain, tokenIn := view.tokenIn, tokenOut := view.tokenOut,
                 llamaIn := view.llamaIn, llamaOut := view.llamaOut, routeBlocked := view.routeBlocked,
                 checkingRoute := view.checkingRoute, submitBlockFor := view.submitBlockFor,
                 consentFor := view.consentFor, pairFloorFor := view.pairFloorFor);
    }

    /** A fallback price arrives: dropped if its run of the effect has been cancelled. */
    method LlamaReply(fetch: nat, price: UsdPrice)
      requires Valid() && fetch in llamaFetches
      modifies this`view, this`llamaFetches, this`origins
      ensures Valid()
      ensures llamaFetches == old(llamaFetches) - {fetch}
      ensures origins == OriginsAfter(old(origins), old(llamaFetches)[fetch], llamaRun)
      ensures view == if old(llamaFetches)[fetch].run != llamaRun then old(view)
                      else if old(llamaFetches)[fetch].leg.Spend? then old(view).(llamaIn := price)
                      else old(view).(llamaOut := price)
    {
      hide BookRight, FallbackRight, KeyedRight, ChecksCurrent;
      ReplyIsRight(view.llamaIn, view.llamaOut, llamaSeen, llamaRun, llamaFetches, origins, fetch, price);
      var request := llamaFetches[fetch];
      llamaFetches := llamaFetches - {fetch};
      origins := OriginsAfter(origins, request, llamaRun);
      if request.run == llamaRun {
        view := if request.leg.Spend? then view.(llamaIn := price) else view.(llamaOut := price);
      }
    }

    /** The form's own floor question is answered: dropped if the selection has moved on. */
    method FloorReply(fetch: nat, tier: FloorTier)
      requires Valid() && fetch in floorFetches
      modifies this`view, this`floorFetches, this`log
      ensures Valid()
      ensures log == old(log).(floors := old(log).floors + {(old(floorFetches)[fetch].key, tier)})
      ensures view == if old(floorFetches)[fetch].run != floorRun then old(view)
                      else old(view).(pairFloorFor := Some((old(floorFetches)[fetch].key, tier)))
    {
      hide ClickRight, SubmissionRight, FallbackRight, ChecksCurrent;
      HearingMore(log.(floors := log.floors + {(floorFetches[fetch].key, tier)}));
      var request := floorFetches[fetch];
      floorFetches := floorFetches - {fetch};
      log := log.(floors := log.floors + {(request.key, tier)});
      if request.run == floorRun {
        view := view.(pairFloorFor := Some((request.key, tier)));
      }
    }

    /** A request of the latest run is about what the effect has seen. */
    lemma LiveRequest(fetch: nat)
      requires Valid() && fetch in llamaFetches && llamaFetches[fetch].run == llamaRun
      ensures llamaFetches[fetch].chain == llamaSeen.chain
      ensures llamaFetches[fetch].leg.Spend? ==> llamaSeen.tokenIn == Some(llamaFetches[fetch].token)
      ensures llamaFetches[fetch].leg.Buy? ==> llamaSeen.tokenOut == Some(llamaFetches[fetch].token)
    {
    }

    // ── Clicks ──

    /** The create button, or the confirmation of a consent, which acknowledges the tier it showed. */
    method Create(ack: Option<FloorTier>)
      requires Valid()
      requires ack.Some? ==> Acknowledged(log, view.Selection(), ack.value)
      modifies this
      ensures Valid()
      ensures State() == Pressed(setting, old(State()), old(nextClick), ack, old(routeCheck))
      ensures log == old(log) && nextClick == old(nextClick) + 1
      ensures pricings == old(pricings)[old(nextClick) := old(PricingOf(llamaSeen, llamaRun, llamaFetches, origins))]
      ensures routeCheck == old(routeCheck) + if AsksRoute(setting, old(view)) then 1 else 0
    {
      hide Acknowledged, KeyedRight, ChecksCurrent, BookRight, FallbackRight, CanCreate, PricingRight, Started;
      var id := nextClick;
      ghost var pricing := PricingOf(llamaSeen, llamaRun, llamaFetches, origins);
      UnusedNumber(id, pricing);
      PricedNow(view, llamaSeen, llamaRun, llamaFetches, origins);
      nextClick := nextClick + 1;
      pricings := pricings[id := pricing];
      if CanCreate(setting, view) {
        Start(id, ack);
      }
    }

    /** The blocks of an earlier attempt go; then the router, the amount, and the first question. */
    method Start(id: nat, ack: Option<FloorTier>)
      requires Valid() && id !in clicks && id < nextClick && id !in log.routes && id !in log.tiers
      requires id in pricings && PricingRight(view, pricings[id])
      requires forall i :: 0 <= i < |submitted| ==> submitted[i].id != id
      requires CanCreate(setting, view) && (ack.Some? ==> Acknowledged(log, view.Selection(), ack.value))
      modifies this`view, this`clicks, this`submitted, this`routeCheck
      ensures Valid()
      ensures State() == Started(setting, old(State()), id, ack, old(routeCheck))
      ensures routeCheck == old(routeCheck) + if AsksRoute(setting, old(view)) then 1 else 0
    {
      hide Acknowledged, KeyedRight, BookRight, FallbackRight, Cleared, PricingRight, WentOn;
      var v := view;
      view := view.(routeBlocked := false, submitBlockFor := None);
      if v.chain !in setting.routers {
        view := view.(routeBlocked := true);
        return;
      }
      if v.amount.None? {
        return; // the blocks are cleared all the same
      }
      FreshClickIsCleared(setting, log, id, v, ack);
      if v.HasImported() {
        AskRoute(id, v, ack);
      } else {
        GoOn(id, v, ack, routeCheck);
      }
    }

    /** A newer check makes every earlier one stop counting. */
    method AskRoute(id: nat, v: View, ack: Option<FloorTier>)
      requires Valid() && id !in clicks && id < nextClick && id !in log.routes && id !in log.tiers
      requires id in pricings && PricingRight(v, pricings[id])
      requires forall i :: 0 <= i < |submitted| ==> submitted[i].id != id
      requires Cleared(setting, log, id, v, ack) && v.HasImported()
      requires v.chain == view.chain && v.tokenIn == view.tokenIn && v.tokenOut == view.tokenOut
      requires !view.checkingRoute
      modifies this`view, this`clicks, this`routeCheck
      ensures Valid()
      ensures routeCheck == old(routeCheck) + 1 && view == old(view).(checkingRoute := true)
      ensures clicks == old(clicks)[id := Click(v, ack, routeCheck, AwaitRoute)]
    {
      hide FallbackRight, KeyedRight, Cleared, BookRight, ChecksCurrent;
      ChecksWithQuestion(view, pairSeen, routeCheck, clicks, id, Click(v, ack, routeCheck + 1, AwaitRoute));
      routeCheck := routeCheck + 1;
      view := view.(checkingRoute := true);
      ClickAdded(id, Click(v, ack, routeCheck, AwaitRoute));
      clicks := clicks[id := Click(v, ack, routeCheck, AwaitRoute)];
    }

    method GoOn(id: nat, v: View, ack: Option<FloorTier>, check: nat)
      requires Valid() && id !in clicks && id < nextClick && id !in log.tiers
      requires id in pricings && PricingRight(v, pricings[id])
      requires forall i :: 0 <= i < |submitted| ==> submitted[i].id != id
      requires Cleared(setting, log, id, v, ack) && (v.HasImported() ==> id in log.routes)
      modifies this`clicks, this`view, this`submitted
      ensures Valid()
      ensures State() == WentOn(setting, old(State()), id, v, ack, check)
    {
      hide FallbackRight, KeyedRight, SigningMinOf, CanCreate, Cleared, BookRight, ChecksCurrent;
      if v.chain in setting.v3 && ack.None? {
        ChecksWithClick(view.chain, (view.tokenIn, view.tokenOut), pairSeen, routeCheck, view.checkingRoute, clicks, id,
          Click(v, ack, check, AwaitTier));
        ClickAdded(id, Click(v, ack, check, AwaitTier));
        clicks := clicks[id := Click(v, ack, check, AwaitTier)];
      } else {
        Finish(id, v, ack);
      }
    }

    method Finish(id: nat, v: View, ack: Option<FloorTier>)
      requires Valid() && id !in clicks && id < nextClick
      requires id in pricings && PricingRight(v, pricings[id])
      requires forall i :: 0 <= i < |submitted| ==> submitted[i].id != id
      requires Cleared(setting, log, id, v, ack) && (v.HasImported() ==> id in log.routes)
      requires v.chain in setting.v3 && ack.None? ==> id in log.tiers && log.tiers[id] == (v.Selection(), OnchainFeed)
      modifies this`view, this`submitted
      ensures Valid()
      ensures State() == Finished(setting, old(State()), id, v, ack)
    {
      hide Acknowledged, FallbackRight, KeyedRight, ChecksCurrent, SigningMinOf, CanCreate;
      if v.chain in setting.v3 && IsDust(setting, v) {
        view := view.(submitBlockFor := Some(v.Selection()));
      } else {
        submitted := submitted
            + [Submission(id, v, ConfigFrom(setting, v, if v.chain in setting.v3 then ack else None))];
      }
    }

    /** A click under way takes its place in the book. */
    lemma ClickAdded(id: nat, click: Click)
      requires BookRight(setting, log, pricings, clicks, nextClick, submitted)
      requires id < nextClick && ClickRight(setting, log, id, click)
      requires id in pricings && PricingRight(click.view, pricings[id])
      requires forall i :: 0 <= i < |submitted| ==> submitted[i].id != id
      ensures BookRight(setting, log, pricings, clicks[id := click], nextClick, submitted)
    {
      hide ClickRight, SubmissionRight, PricingRight;
    }

    /** Hearing more keeps everything right, as long as nothing new is heard about clicks under way or submitted. */
    lemma HearingMore(later: Log)
      requires Valid() && log.GrowsTo(later)
      requires forall id :: (id in later.routes && id !in log.routes) || (id in later.tiers && id !in log.tiers) ==>
                 id < nextClick && id !in clicks && forall i :: 0 <= i < |submitted| ==> submitted[i].id != id
      ensures BookRight(setting, later, pricings, clicks, nextClick, submitted)
      ensures KeyedRight(later, view.consentFor, view.pairFloorFor)
    {
      hide Cleared, ConfigFrom, FallbackRight, ChecksCurrent, PricingsRight;
      forall id | id in clicks
        ensures ClickRight(setting, later, id, clicks[id])
      {
        ClearedGrows(setting, log, later, id, clicks[id].view, clicks[id].ack);
      }
      forall i | 0 <= i < |submitted|
        ensures SubmissionRight(setting, later, submitted[i])
      {
        SubmissionRightGrows(setting, log, later, submitted[i]);
      }
      if view.consentFor.Some? {
        var asked :| asked in log.tiers && log.tiers[asked] == view.consentFor.value;
        assert later.tiers[asked] == view.consentFor.value;
      }
    }

    /** A number not handed out yet belongs to nothing. */
    lemma UnusedNumber(id: nat, p: Pricing)
      requires Valid() && id == nextClick
      ensures id !in clicks && id !in log.routes && id !in log.tiers
      ensures forall i :: 0 <= i < |submitted| ==> submitted[i].id != id
      ensures BookRight(setting, log, pricings[id := p], clicks, id + 1, submitted)
    {
      hide ClickRight, SubmissionRight, PricingRight;
    }

    /** A click that is over leaves the others as they were. */
    lemma ClickOver(id: nat)
      requires Valid() && id in clicks
      ensures id < nextClick && ClickRight(setting, log, id, clicks[id])
      ensures forall i :: 0 <= i < |submitted| ==> submitted[i].id != id
      ensures id in pricings && PricingRight(clicks[id].view, pricings[id])
      ensures BookRight(setting, log, pricings, clicks - {id}, nextClick, submitted)
      ensures
        var checking := view.checkingRoute && !clicks[id].phase.AwaitRoute?;
        ChecksCurrent(view.chain, (view.tokenIn, view.tokenOut), pairSeen, routeCheck, checking, clicks - {id})
    {
      hide ClickRight, SubmissionRight, PricingRight;
    }

    /** The route question's reply; `None` when asking failed. A check that no longer counts changes nothing. */
    method RouteReply(id: nat, routable: Option<bool>)
      requires Valid() && id in clicks && clicks[id].phase.AwaitRoute?
      modifies this
      ensures Valid()
      ensures
        var click := old(clicks)[id];
        var heard := Outcome(old(view).(checkingRoute := false), old(clicks) - {id}, old(submitted));
        if routable.None? || click.check != old(routeCheck) then State() == heard
        else if !routable.value then State() == heard.(view := heard.view.(routeBlocked := true))
        else && WellPriced(click.view) && click.view.chain in setting.routers
             && State() == WentOn(setting, heard, id, click.view, click.ack, click.check)
    {
      hide BookRight, Acknowledged, FallbackRight, SigningMinOf, CanCreate, ConfigFrom, ChecksCurrent, KeyedRight;
      var click := clicks[id];
      ClickOver(id);
      view := view.(checkingRoute := false);
      clicks := clicks - {id};
      if routable.None? {
        return;
      }
      var key := click.view.Selection();
      HearingMore(log.(routes := log.routes[id := (key, routable.value)]));
      ghost var before := log;
      log := log.(routes := log.routes[id := (key, routable.value)]);
      if routeCheck != click.check {
        return;
      }
      if !routable.value {
        view := view.(routeBlocked := true);
        return;
      }
      ClearedGrows(setting, before, log, id, click.view, click.ack);
      GoOn(id, click.view, click.ack, click.check);
    }

    /** The tier question's reply: the strongest goes through, any other asks the user first. */
    method TierReply(id: nat, tier: FloorTier)
      requires Valid() && id in clicks && clicks[id].phase.AwaitTier?
      modifies this
      ensures Valid() && pricings == old(pricings)
      ensures
        var v, heard := old(clicks)[id].view, old(State()).(clicks := old(clicks) - {id});
        if tier != OnchainFeed then State() == heard.(view := heard.view.(consentFor := Some((v.Selection(), tier))))
        else WellPriced(v) && v.chain in setting.routers && State() == Finished(setting, heard, id, v, None)
    {
      hide BookRight, Acknowledged, FallbackRight, SigningMinOf, CanCreate, ConfigFrom, ChecksCurrent;
      var click := clicks[id];
      var key := click.view.Selection();
      ClickOver(id);
      clicks := clicks - {id};
      HearingMore(log.(tiers := log.tiers[id := (key, tier)]));
      ghost var before := log;
      log := log.(tiers := log.tiers[id := (key, tier)]);
      if tier != OnchainFeed {
        view := view.(consentFor := Some((key, tier)));
        return;
      }
      ClearedGrows(setting, before, log, id, click.view, None);
      Finish(id, click.view, None);
    }

    /** The user accepts the tier on show, for the selection it is shown for, and the click starts over with it. */
    method ConfirmConsent()
      requires Valid() && view.VisibleConsent().Some?
      modifies this
      ensures Valid()
      ensures
        var before := old(State());
        State()
            == Pressed(setting, before.(view := before.view.(consentFor := None)), old(nextClick),
                before.view.VisibleConsent(), old(routeCheck))
      ensures log
          == old(log).(confirmed := old(log).confirmed + {(old(view).Selection(), old(view).VisibleConsent().value)})
    {
      hide ClickRight, SubmissionRight, FallbackRight, ChecksCurrent;
      var tier := view.VisibleConsent().value;
      var later := log.(confirmed := log.confirmed + {(view.Selection(), tier)});
      HearingMore(later);
      assert Acknowledged(later, view.Selection(), tier);
      log := later;
      view := view.(consentFor := None);
      Create(Some(tier));
    }

    method CancelConsent()
      requires Valid()
      modifies this`view
      ensures Valid() && view == old(view).(consentFor := None)
    {
      hide ClickRight, SubmissionRight, FallbackRight, ChecksCurrent;
      view := view.(consentFor := None);
    }
  }

  // ── What a valid form means ──

  function KeyOf(c: Config): Key {
    Key(c.chain, c.tokenIn.address, c.tokenOut.address)
  }

  /** The price a leg's fallback stands for the leg itself: there is none, or it was asked for this chain and token. */
  predicate OwnPrice(price: UsdPrice, origin: Option<Origin>, chain: nat, token: Token) {
    price.None? || origin == Some(Origin(chain, token))
  }

  /**
   * When an order's fallback prices are its own tokens' prices. If nothing was being asked for a leg at the click, its
   * price is the leg's own exactly if the effect had seen the chain and token of the render; so once effects have run,
   * a price that is not the leg's own always has a newer request under way.
   */
  lemma OwnPricesExactly(panel: DcaPanel, i: nat)
    requires panel.Valid() && i < |panel.submitted|
    ensures panel.submitted[i].id in panel.pricings
    ensures
      var sub := panel.submitted[i];
      var c, v, p := sub.config, sub.view, panel.pricings[sub.id];
      var spendOwn := OwnPrice(v.llamaIn, p.origins.spend, c.chain, c.tokenIn);
      var buyOwn := OwnPrice(v.llamaOut, p.origins.buy, c.chain, c.tokenOut);
      && (!p.spendAsked && v.llamaIn.Some? ==>
            (spendOwn <==> p.seen.chain == c.chain && p.seen.tokenIn == Some(c.tokenIn)))
      && (!p.buyAsked && v.llamaOut.Some? ==>
            (buyOwn <==> p.seen.chain == c.chain && p.seen.tokenOut == Some(c.tokenOut)))
      && (p.seen == LlamaDepsOf(panel.setting, v) ==> (spendOwn || p.spendAsked) && (buyOwn || p.buyAsked))
  {
    hide CanCreate, Acknowledged, GateBlocks, DeriveSigningMin, ClicksRight, FallbackRight;
    assert SubmissionRight(panel.setting, panel.log, panel.submitted[i]);
  }

  /** A reading that may price an order: sound, and if it warns, not beyond the ceiling. */
  predicate Trusted(check: PriceCheck) {
    !check.integrityFailed && (check.unavailable || !check.warns || !check.beyondCeiling)
  }

  lemma GateOpenExactly(spend: PriceCheck, buy: PriceCheck)
    ensures !GateBlocks(spend, buy) <==> Trusted(spend) && Trusted(buy)
  {
  }

  /**
   * Every order that was ever submitted carries exactly the chain and pair its own route question was answered yes for
   * and its own floor tier was answered for, or a tier its user accepted for that chain and pair; and its minimum comes
   * from the prices of one render on which the oracle gate was open, and is worth enough. Those are its own tokens'
   * prices wherever effects had run and nothing was being asked for at the click. Amount, schedule, expiry and
   * slippage are the render's, one by one.
   */
  lemma EveryOrderMatchesItsChecks(panel: DcaPanel, i: nat)
    requires panel.Valid() && i < |panel.submitted|
    ensures panel.submitted[i].id in panel.pricings
    ensures
      var sub, setting, log := panel.submitted[i], panel.setting, panel.log;
      var c, v := sub.config, sub.view;
      && (c.tokenIn.imported || c.tokenOut.imported ==> sub.id in log.routes && log.routes[sub.id] == (KeyOf(c), true))
      && (c.chain in setting.v3 && c.floorAck.None? ==>
          sub.id in log.tiers && log.tiers[sub.id] == (KeyOf(c), OnchainFeed))
      && (c.floorAck.Some? ==> c.chain in setting.v3 && Acknowledged(log, KeyOf(c), c.floorAck.value))
      && (c.chain in setting.v3 ==>
            && Trusted(v.oracleIn) && Trusted(v.oracleOut)
            && c.minAmountOut == DeriveSigningMin(c.amountIn, c.tokenIn.decimals, c.tokenOut.decimals, v.slippageBps,
                                                  v.oracleIn.price, v.oracleOut.price,
                                                  v.llamaIn, v.llamaOut).minAmountOut
            && (var price := LivePrice(v.oracleOut.price, v.llamaOut);
                price.Some? && 0 < price.value ==>
                  setting.leastUsd * Pow10(c.tokenOut.decimals) <= c.minAmountOut * price.value))
      && (c.chain !in setting.v3 ==> c.minAmountOut == 1)
      && 0 < c.minAmountOut
      && (0 < c.dcaInterval && 0 < c.dcaTotal && 0 < c.expirySeconds ==>
            c.dcaInterval * c.dcaTotal <= c.expirySeconds)
      && c.chain in setting.routers && c.router == setting.routers[c.chain]
    ensures
      var c, v := panel.submitted[i].config, panel.submitted[i].view;
      && c.chain == v.chain && v.tokenIn == Some(c.tokenIn) && v.tokenOut == Some(c.tokenOut)
      && v.amount == Some(c.amountIn)
      && c.dcaInterval == v.interval && c.dcaTotal == v.buys && c.expirySeconds == v.window
      && c.slippageBps == (if c.chain in panel.setting.v3 then Some(v.slippageBps) else None)
      && v.positive && !v.otherwiseBlocked && !v.checkingRoute && v.submitBlockFor != Some(KeyOf(c))
    ensures
      var sub, p := panel.submitted[i], panel.pricings[panel.submitted[i].id];
      p.seen == LlamaDepsOf(panel.setting, sub.view) ==>
        && (!p.spendAsked ==> OwnPrice(sub.view.llamaIn, p.origins.spend, sub.config.chain, sub.config.tokenIn))
        && (!p.buyAsked ==> OwnPrice(sub.view.llamaOut, p.origins.buy, sub.config.chain, sub.config.tokenOut))
    ensures forall j :: 0 <= j < |panel.submitted| && panel.submitted[j].id == panel.submitted[i].id ==> j == i
  {
    OwnPricesExactly(panel, i);
    hide Acknowledged, DeriveSigningMin, GateBlocks, Pow10;
    var sub := panel.submitted[i];
    assert SubmissionRight(panel.setting, panel.log, sub);
    var v := sub.view;
    GateOpenExactly(v.oracleIn, v.oracleOut);
    SigningMinIsHonest(v.amount.value, v.tokenIn.value.decimals, v.tokenOut.value.decimals, v.slippageBps,
      v.oracleIn.price, v.oracleOut.price, v.llamaIn, v.llamaOut);
  }

  /**
   * The minimum of every order for the new executor, in exact numbers: within two units below the value of its whole
   * amount at the render's prices, Chainlink first, less the render's slippage; or the fixed fallback, exactly where a
   * leg has no price or that value is too small.
   */
  lemma OrderMinimumIsClose(panel: DcaPanel, i: nat)
    requires panel.Valid() && i < |panel.submitted|
    requires panel.submitted[i].config.chain in panel.setting.v3
    ensures
      var c, v := panel.submitted[i].config, panel.submitted[i].view;
      var priceIn, priceOut := LivePrice(v.oracleIn.price, v.llamaIn), LivePrice(v.oracleOut.price, v.llamaOut);
      if priceIn.Some? && 0 < priceIn.value && priceOut.Some? && 0 < priceOut.value
          && v.slippageBps < BPS_DENOMINATOR
          && priceOut.value * Pow10(c.tokenIn.decimals) * UnitsNeeded(v.slippageBps)
             <= c.amountIn * priceIn.value * Pow10(c.tokenOut.decimals) then
        var numerator, denominator :=
          ExactNumerator(c.amountIn, c.tokenOut.decimals, priceIn.value, v.slippageBps),
            ExactDenominator(c.tokenIn.decimals, priceOut.value);
        c.minAmountOut * denominator <= numerator < (c.minAmountOut + 2) * denominator
      else c.minAmountOut == FallbackMin(c.tokenOut.decimals)
  {
    hide Pow10, UnitsNeeded, ExactNumerator, ExactDenominator, DeriveSigningMin, FallbackMin, Acknowledged, Trusted;
    hide Dust, OwnPrice, LlamaDepsOf;
    EveryOrderMatchesItsChecks(panel, i);
    var c, v := panel.submitted[i].config, panel.submitted[i].view;
    SigningMinIsClose(c.amountIn, c.tokenIn.decimals, c.tokenOut.decimals, v.slippageBps,
      v.oracleIn.price, v.oracleOut.price, v.llamaIn, v.llamaOut);
  }

  /** What must hold on a render for its button to work. */
  predicate MayCreate(setting: Setting, v: View) {
    && v.tokenIn.Some? && v.tokenOut.Some? && v.positive && !v.otherwiseBlocked && !v.checkingRoute
    && Schedule.ScheduleFitsExpiry(v.interval, v.buys, v.window)
    && v.submitBlockFor != Some(v.Selection())
    && (v.chain in setting.v3 ==>
          && Trusted(v.oracleIn) && Trusted(v.oracleOut)
          && v.pairFloorFor.Some? && v.pairFloorFor.value.0 == v.Selection())
  }

  /** Worth the least amount, or not to be priced. */
  predicate WorthEnough(setting: Setting, v: View)
    requires WellPriced(v)
  {
    var price := LivePrice(v.oracleOut.price, v.llamaOut);
    price.None? || price.value == 0
    || setting.leastUsd * Pow10(v.tokenOut.value.decimals) <= SigningMinOf(v) * price.value
  }

  lemma DustExactly(setting: Setting, v: View)
    requires WellPriced(v)
    ensures IsDust(setting, v) <==> !WorthEnough(setting, v)
  {
    hide SigningMinOf, Pow10;
  }

  /**
   * Exactly when a click asks something and when it submits: with an imported token it asks for a route, without an
   * acknowledged tier it asks for one, and otherwise the order goes out unless its minimum is worth too little.
   */
  lemma PressedExactly(setting: Setting, o: Outcome, id: nat, ack: Option<FloorTier>, current: nat)
    requires id !in o.clicks
    ensures
      var v, after := o.view, Pressed(setting, o, id, ack, current);
      var goes := MayCreate(setting, v) && v.chain in setting.routers && v.amount.Some?;
      var asksTier := v.chain in setting.v3 && ack.None?;
      && (id in after.clicks <==> goes && (v.HasImported() || asksTier))
      && (after.submitted != o.submitted <==>
            goes && !v.HasImported() && !asksTier && (v.chain in setting.v3 ==> WorthEnough(setting, v)))
      && (id in after.clicks ==> after.clicks[id].phase == (if v.HasImported() then AwaitRoute else AwaitTier))
      && (AsksRoute(setting, v) <==> goes && v.HasImported())
      && (!MayCreate(setting, v) ==> after == o)
      && (MayCreate(setting, v) ==>
            && (after.view.routeBlocked <==> v.chain !in setting.routers)
            && (after.view.checkingRoute <==> goes && v.HasImported())
            && after.view.submitBlockFor
               == if goes && !v.HasImported() && !asksTier && v.chain in setting.v3 && !WorthEnough(setting, v)
                  then Some(v.Selection()) else None)
  {
    hide IsDust, WorthEnough;
    GateOpenExactly(o.view.oracleIn, o.view.oracleOut);
    if WellPriced(o.view) {
      DustExactly(setting, o.view);
    }
  }

  /**
   * While a route question is open the button is off, so there is never more than one; and the button is off for that
   * reason only while one is open.
   */
  lemma OneRouteQuestion(panel: DcaPanel)
    requires panel.Valid()
    ensures forall i, j :: AsksForRoute(panel.clicks, i) && AsksForRoute(panel.clicks, j) ==> i == j
    ensures panel.view.checkingRoute <==> exists i :: AsksForRoute(panel.clicks, i)
    ensures panel.view.checkingRoute ==> !MayCreate(panel.setting, panel.view)
  {
    hide BookRight, FallbackRight, KeyedRight;
    if panel.view.checkingRoute {
      var i :| i in panel.clicks && panel.clicks[i].phase.AwaitRoute?;
      assert AsksForRoute(panel.clicks, i);
    }
  }

  predicate AsksForRoute(clicks: map<nat, Click>, id: nat) {
    id in clicks && clicks[id].phase.AwaitRoute?
  }

  /** A minimum worth too little submits nothing, and the block shows exactly while the click's selection does. */
  lemma RefusalBelongsToItsPair(setting: Setting, o: Outcome, id: nat, v: View, ack: Option<FloorTier>)
    requires WellPriced(v) && v.chain in setting.routers && v.chain in setting.v3 && !WorthEnough(setting, v)
    ensures
      var after := Finished(setting, o, id, v, ack);
      && after.submitted == o.submitted && after.clicks == o.clicks
      && (after.view.SubmitBlocked() <==> v.Selection() == after.view.Selection())
  {
    hide IsDust, WorthEnough;
    DustExactly(setting, v);
  }

  /**
   * The effect keeps a fallback price exactly where it may be needed: for a token without an oracle price, behind an
   * open gate of a chain with the new executor.
   */
  lemma FallbackKeptExactly(setting: Setting, v: View)
    ensures
      var kept, open := KeptFallback(setting, v), v.chain in setting.v3 && Trusted(v.oracleIn) && Trusted(v.oracleOut);
      && (kept.llamaIn.Some? <==> v.llamaIn.Some? && open && v.tokenIn.Some? && v.oracleIn.price.None?)
      && (kept.llamaOut.Some? <==> v.llamaOut.Some? && open && v.tokenOut.Some? && v.oracleOut.price.None?)
      && (kept.llamaIn.Some? ==> kept.llamaIn == v.llamaIn) && (kept.llamaOut.Some? ==> kept.llamaOut == v.llamaOut)
      && kept == v.(llamaIn := kept.llamaIn, llamaOut := kept.llamaOut)
  {
    GateOpenExactly(v.oracleIn, v.oracleOut);
  }

  /** An order that goes out on a reply is for the present selection if and only if the click's selection still is. */
  lemma GoesOutForThePresentPairExactly(setting: Setting, o: Outcome, id: nat, v: View, ack: Option<FloorTier>)
    requires WellPriced(v) && v.chain in setting.routers
    requires Finished(setting, o, id, v, ack).submitted != o.submitted
    ensures
      var after := Finished(setting, o, id, v, ack);
      && after.view == o.view && |after.submitted| == |o.submitted| + 1
      && (KeyOf(after.submitted[|o.submitted|].config) == after.view.Selection()
          <==> v.Selection() == o.view.Selection())
  {
    hide SigningMinOf;
  }

  /** Once effects have run, a closed gate leaves no fallback price and no request that could still bring one. */
  lemma ClosedGateHasNoFallback(panel: DcaPanel, fetch: nat)
    requires panel.Valid() && panel.llamaSeen == LlamaDepsOf(panel.setting, panel.view)
    requires panel.view.chain in panel.setting.v3 && panel.view.OracleBlocks()
    ensures panel.view.llamaIn == None && panel.view.llamaOut == None
    ensures fetch in panel.llamaFetches ==> panel.llamaFetches[fetch].run != panel.llamaRun
  {
  }

  /** A route check that still counts, with no pair change waiting, is about what is selected now. */
  lemma CountingCheckIsCurrent(panel: DcaPanel, id: nat)
    requires panel.Valid() && id in panel.clicks && panel.clicks[id].phase.AwaitRoute?
    requires panel.clicks[id].check == panel.routeCheck && panel.pairSeen == (panel.view.tokenIn, panel.view.tokenOut)
    ensures panel.clicks[id].view.Selection() == panel.view.Selection()
  {
  }

  // ── Every run ──

  datatype Event =
    | Effects
    | Pick(tokenIn: Option<Token>, tokenOut: Option<Token>)
    | Switch(chain: nat)
    | Edit(view: View)
    | Press
    | Accept
    | Decline
    | RouteAnswer(id: nat, routable: Option<bool>)
    | TierAnswer(id: nat, tier: FloorTier)
    | LlamaAnswer(fetch: nat, price: UsdPrice)
    | FloorAnswer(fetch: nat, tier: FloorTier)

  /** Any events in any order; one that cannot happen in the state it meets is skipped. */
  method Drive(panel: DcaPanel, events: seq<Event>)
    requires panel.Valid()
    modifies panel
    ensures panel.Valid()
  {
    hide BookRight, FallbackRight, ChecksCurrent, KeyedRight, CanCreate, Settled, Acknowledged;
    for i := 0 to |events|
      invariant panel.Valid()
    {
      match events[i]
      case Effects => panel.RunEffects();
      case Pick(tokenIn, tokenOut) => panel.PickPair(tokenIn, tokenOut);
      case Switch(chain) => panel.SwitchChain(chain);
      case Edit(view) => panel.Adjust(view);
      case Press => panel.Create(None);
      case Accept =>
        if panel.view.VisibleConsent().Some? {
          panel.ConfirmConsent();
        }
      case Decline => panel.CancelConsent();
      case RouteAnswer(id, routable) =>
        if id in panel.clicks && panel.clicks[id].phase.AwaitRoute? {
          panel.RouteReply(id, routable);
        }
      case TierAnswer(id, tier) =>
        if id in panel.clicks && panel.clicks[id].phase.AwaitTier? {
          panel.TierReply(id, tier);
        }
      case LlamaAnswer(fetch, price) =>
        if fetch in panel.llamaFetches {
          panel.LlamaReply(fetch, price);
        }
      case FloorAnswer(fetch, tier) =>
        if fetch in panel.floorFetches {
          panel.FloorReply(fetch, tier);
        }
    }
  }

  // ── What the form does not promise ──

  const NO_FEED: PriceCheck := PriceCheck(None, false, true, false, false)

  function SomeView(tokenIn: Token, tokenOut: Token): View {
    View(1, Some(tokenIn), Some(tokenOut), true, Some(1_000_000), 2, 3600, 86_400, 300, NO_FEED, NO_FEED, None, None,
      false, false, false, None, None, None)
  }

  function SomeSetting(router: Address, wrapped: Token): Setting {
    Setting({1}, map[1 := router], _ => wrapped, 100_000_000)
  }

  /**
   * A tier reply is not checked against the present selection: an order for the pair of the click goes out although the
   * user has picked another pair meanwhile.
   */
  method OldPairGoesOut(tokenIn: Token, tokenOut: Token, other: Token) returns (panel: DcaPanel)
    requires !tokenIn.imported && !tokenOut.imported && tokenOut.address != other.address
    ensures panel.Valid() && |panel.submitted| == 1
    ensures KeyOf(panel.submitted[0].config) == Key(1, tokenIn.address, tokenOut.address) != panel.view.Selection()
  {
    hide BookRight, FallbackRight, ChecksCurrent, KeyedRight, AsksForMissingLegs, SigningMinOf, PricingOf, AskingFloor;
    var v := SomeView(tokenIn, tokenOut);
    panel := new DcaPanel(SomeSetting(7, tokenIn), v);
    panel.FloorReply(0, OnchainFeed);
    var id := panel.nextClick;
    panel.Create(None);
    panel.PickPair(Some(tokenIn), Some(other));
    panel.TierReply(id, OnchainFeed);
  }

  /** Picking another token keeps the fallback price of the one before until the new reply arrives. */
  method PriceOutlivesItsToken(tokenIn: Token, tokenOut: Token, other: Token, price: nat) returns (panel: DcaPanel)
    requires other.address != tokenIn.address && !other.imported && !tokenOut.imported
    ensures panel.Valid() && panel.llamaSeen == LlamaDepsOf(panel.setting, panel.view)
    ensures panel.view == SomeView(other, tokenOut).(llamaIn := Some(price))
    ensures fresh(panel) && panel.setting == SomeSetting(7, tokenIn) && panel.submitted == [] && panel.clicks == map[]
    ensures panel.origins.spend == Some(Origin(1, tokenIn)) && Asking(panel.llamaFetches, panel.llamaRun, Spend)
    ensures AskingFloor(panel.floorFetches, panel.floorRun, panel.view.Selection())
  {
    hide BookRight, FallbackRight, ChecksCurrent, KeyedRight;
    panel := new DcaPanel(SomeSetting(7, tokenIn), SomeView(tokenIn, tokenOut));
    assert Asking(panel.llamaFetches, panel.llamaRun, Spend);
    var fetch :| && fetch in panel.llamaFetches && panel.llamaFetches[fetch].run == panel.llamaRun
                 && panel.llamaFetches[fetch].leg == Spend;
    panel.LiveRequest(fetch);
    panel.LlamaReply(fetch, Some(price));
    panel.PickPair(Some(other), Some(tokenOut));
    panel.RunEffects();
  }

  /** ... and an order submitted in the meantime is signed with it. */
  method WrongPriceGoesOut(tokenIn: Token, tokenOut: Token, other: Token, price: nat) returns (panel: DcaPanel)
    requires other.address != tokenIn.address && !other.imported && !tokenOut.imported
    ensures panel.Valid() && |panel.submitted| == 1
    ensures
      var sub := panel.submitted[0];
      && sub.config.tokenIn == other && sub.view.llamaIn == Some(price) && sub.id in panel.pricings
      && panel.pricings[sub.id].origins.spend == Some(Origin(1, tokenIn))
      && !OwnPrice(sub.view.llamaIn, panel.pricings[sub.id].origins.spend, sub.config.chain, sub.config.tokenIn)
  {
    hide BookRight, FallbackRight, ChecksCurrent, KeyedRight, SigningMinOf, Asking;
    panel := PriceOutlivesItsToken(tokenIn, tokenOut, other, price);
    var fetch :| fetch in panel.floorFetches
        && panel.floorFetches[fetch] == FloorFetch(panel.floorRun, panel.view.Selection());
    panel.FloorReply(fetch, OnchainFeed);
    var id := panel.nextClick;
    panel.Create(None);
    panel.TierReply(id, OnchainFeed);
  }

  /** A newer request does not make a price wrong: asked again for the same token, it is still the token's own. */
  method OwnPriceAskedAgain(tokenIn: Token, tokenOut: Token, price: nat, buyPrice: nat) returns (panel: DcaPanel)
    ensures panel.Valid() && Asking(panel.llamaFetches, panel.llamaRun, Spend)
    ensures panel.view.llamaIn == Some(price) && panel.view.tokenIn == Some(tokenIn)
    ensures OwnPrice(panel.view.llamaIn, panel.origins.spend, panel.view.chain, tokenIn)
  {
    hide BookRight, FallbackRight, ChecksCurrent, KeyedRight, AskingFloor;
    var v := SomeView(tokenIn, tokenOut);
    panel := new DcaPanel(SomeSetting(7, tokenIn), v);
    assert Asking(panel.llamaFetches, panel.llamaRun, Spend);
    var fetch :| && fetch in panel.llamaFetches && panel.llamaFetches[fetch].run == panel.llamaRun
                 && panel.llamaFetches[fetch].leg == Spend;
    panel.LiveRequest(fetch);
    panel.LlamaReply(fetch, Some(price));
    panel.Adjust(panel.view.(oracleOut := NO_FEED.(price := Some(buyPrice))));
    panel.RunEffects();
  }

  /** An amount that reads as positive but is nothing in the token's units goes out, for createOrder to refuse. */
  method NothingGoesOut(tokenIn: Token, tokenOut: Token) returns (panel: DcaPanel)
    requires !tokenIn.imported && !tokenOut.imported
    ensures panel.Valid() && |panel.submitted| == 1
    ensures
      var c := panel.submitted[0].config;
      c.amountIn == 0 && 0 < c.minAmountOut && PerChunk(c.amountIn, c.dcaTotal) < MIN_ORDER_AMOUNT
  {
    hide BookRight, FallbackRight, ChecksCurrent, KeyedRight, AsksForMissingLegs, SigningMinOf, PricingOf, AskingFloor;
    panel := new DcaPanel(SomeSetting(7, tokenIn), SomeView(tokenIn, tokenOut).(amount := Some(0)));
    panel.FloorReply(0, OnchainFeed);
    var id := panel.nextClick;
    panel.Create(None);
    panel.TierReply(id, OnchainFeed);
    EveryOrderMatchesItsChecks(panel, 0);
  }
}
