/** "Cancel all": the frozen plan the user reviews, and what has happened to each order once its transactions landed. */
module CancelAll {
  import opened Ledger
  import opened ExecutorTypes
  import opened Execution
  import opened Machine
  import opened NonceBatches
  import Cancellation
  import Checker
  import L = LegacyExecutor

  datatype Version = V2 | V3

  /** An order as the wallet's list keeps it. */
  datatype Stored = Stored(order: Order, version: Version, chainId: nat, active: bool)

  datatype Plan = Plan(
    newNonce: Option<nat>,
    batches: seq<Batch>,
    dcaOrders: seq<Order>,
    affected: seq<Stored>,
    skipped: seq<Stored>)

  function Select(orders: seq<Stored>, keep: Stored -> bool): (selected: seq<Stored>)
    ensures forall o :: o in selected <==> o in orders && keep(o)
  {
    if orders == [] then []
    else if keep(orders[0]) then [orders[0]] + Select(orders[1..], keep)
    else Select(orders[1..], keep)
  }

  function Nonces(orders: seq<Stored>): (nonces: seq<nat>)
    ensures |nonces| == |orders| && forall i :: 0 <= i < |orders| ==> nonces[i] == orders[i].order.nonce
  {
    seq(|orders|, i requires 0 <= i < |orders| => orders[i].order.nonce)
  }

  function Orders(orders: seq<Stored>): (structs: seq<Order>)
    ensures |structs| == |orders| && forall i :: 0 <= i < |orders| ==> structs[i] == orders[i].order
  {
    seq(|orders|, i requires 0 <= i < |orders| => orders[i].order)
  }

  predicate OnChain(o: Stored, chainId: nat) {
    o.active && o.chainId == chainId
  }

  predicate IsOneShot(o: Stored) {
    !o.order.orderType.DCA?
  }

  ghost predicate SomeOneShotNonce(orders: seq<Stored>, n: nat) {
    exists o :: o in orders && o.version.V3? && IsOneShot(o) && o.order.nonce == n
  }

  ghost predicate SomeDcaOrder(orders: seq<Stored>, order: Order) {
    exists o :: o in orders && o.version.V3? && !IsOneShot(o) && o.order == order
  }

  function DcaCount(orders: seq<Stored>): nat {
    if orders == [] then 0 else DcaCount(orders[1..]) + if orders[0].version.V3? && !IsOneShot(orders[0]) then 1 else 0
  }

  function OneShotWords(orders: seq<Stored>): set<nat> {
    set o | o in orders && o.version.V3? && IsOneShot(o) :: WordPos(o.order.nonce)
  }

  function Max(a: nat, b: nat): nat {
    if a < b then b else a
  }

  /** What a frozen plan has to contain, given the wallet's orders and the nonces read from the legacy executor. */
  ghost predicate Frozen(plan: Plan, orders: seq<Stored>, chainId: nat, nonce: nat, invalidated: nat, hasV3: bool) {
    && (forall o :: o in plan.affected <==> o in orders && OnChain(o, chainId) && (o.version.V2? || hasV3))
    && (forall o :: o in plan.skipped <==> o in orders && o.active && o.chainId != chainId)
    && (plan.newNonce.Some? <==> exists o :: o in plan.affected && o.version.V2?)
    && (plan.newNonce.Some? ==> plan.newNonce.value == Max(nonce, invalidated) + 1)
    && (forall n: nat :: Covered(plan.batches, n) <==> SomeOneShotNonce(plan.affected, n))
    && (forall order :: order in plan.dcaOrders <==> SomeDcaOrder(plan.affected, order))
    && |plan.batches| == |OneShotWords(plan.affected)| && |plan.dcaOrders| == DcaCount(plan.affected)
  }

  method FreezePlan(orders: seq<Stored>, chainId: nat, nonce: nat, invalidated: nat, hasV3: bool) returns (plan: Plan)
    ensures Frozen(plan, orders, chainId, nonce, invalidated, hasV3)
  {
    hide SomeOneShotNonce, SomeDcaOrder, Covered, IsOneShot, Nonces, Orders, Select, DistinctKeys, WordPos,
      OneShotWords, DcaCount;
    var active := Select(orders, (o: Stored) => OnChain(o, chainId));
    var skipped := Select(orders, (o: Stored) => o.active && o.chainId != chainId);
    var v2Orders := Select(active, (o: Stored) => o.version.V2?);
    var v3Orders := if hasV3 then Select(active, (o: Stored) => o.version.V3?) else [];
    var v3OneShot := Select(v3Orders, (o: Stored) => IsOneShot(o));
    var v3Dca := Select(v3Orders, (o: Stored) => !IsOneShot(o));
    var newNonce: Option<nat> := None;
    if |v2Orders| > 0 {
      newNonce := Some((if nonce > invalidated then nonce else invalidated) + 1);
      assert v2Orders[0] in v2Orders;
    }
    var batches := ComputeInvalidationBatches(Nonces(v3OneShot));
    plan := Plan(newNonce, batches, Orders(v3Dca), v2Orders + v3OneShot + v3Dca, skipped);
    NoncesAreThoseOfAffected(v2Orders, v3OneShot, v3Dca);
    OrdersAreThoseOfAffected(v2Orders, v3OneShot, v3Dca);
    WordsAreThoseOfAffected(v2Orders, v3OneShot, v3Dca);
    CountsAreThoseOfAffected(v2Orders, v3OneShot, v3Dca);
  }

  predicate Sorted(v2: seq<Stored>, oneShot: seq<Stored>, dca: seq<Stored>) {
    && (forall o :: o in v2 ==> o.version.V2?)
    && (forall o :: o in oneShot ==> o.version.V3? && IsOneShot(o))
    && (forall o :: o in dca ==> o.version.V3? && !IsOneShot(o))
  }

  lemma NoncesAreThoseOfAffected(v2: seq<Stored>, oneShot: seq<Stored>, dca: seq<Stored>)
    requires Sorted(v2, oneShot, dca)
    ensures forall n: nat :: n in Nonces(oneShot) <==> SomeOneShotNonce(v2 + oneShot + dca, n)
  {
    forall n: nat | SomeOneShotNonce(v2 + oneShot + dca, n)
      ensures n in Nonces(oneShot)
    {
      var o :| o in v2 + oneShot + dca && o.version.V3? && IsOneShot(o) && o.order.nonce == n;
      var i :| 0 <= i < |oneShot| && oneShot[i] == o;
      assert Nonces(oneShot)[i] == n;
    }
  }

  lemma WordsAreThoseOfAffected(v2: seq<Stored>, oneShot: seq<Stored>, dca: seq<Stored>)
    requires Sorted(v2, oneShot, dca)
    ensures (set n | n in Nonces(oneShot) :: WordPos(n)) == OneShotWords(v2 + oneShot + dca)
  {
    hide WordPos, IsOneShot;
    var words, all := set n | n in Nonces(oneShot) :: WordPos(n), v2 + oneShot + dca;
    forall w | w in OneShotWords(all)
      ensures w in words
    {
      var o :| o in all && o.version.V3? && IsOneShot(o) && WordPos(o.order.nonce) == w;
      var i :| 0 <= i < |oneShot| && oneShot[i] == o;
      assert Nonces(oneShot)[i] == o.order.nonce;
    }
    forall w | w in words
      ensures w in OneShotWords(all)
    {
      var n :| n in Nonces(oneShot) && WordPos(n) == w;
      var i :| 0 <= i < |oneShot| && Nonces(oneShot)[i] == n;
      assert oneShot[i] in all;
    }
  }

  lemma CountsAreThoseOfAffected(v2: seq<Stored>, oneShot: seq<Stored>, dca: seq<Stored>)
    requires Sorted(v2, oneShot, dca)
    ensures DcaCount(v2 + oneShot + dca) == |dca|
  {
    DcaCountAppend(v2 + oneShot, dca);
    DcaCountAppend(v2, oneShot);
    DcaCountUniform(v2);
    DcaCountUniform(oneShot);
    DcaCountUniform(dca);
  }

  lemma {:induction false} DcaCountAppend(xs: seq<Stored>, ys: seq<Stored>)
    ensures DcaCount(xs + ys) == DcaCount(xs) + DcaCount(ys)
  {
    if xs == [] {
      assert xs + ys == ys;
    } else {
      assert (xs + ys)[1..] == xs[1..] + ys;
      DcaCountAppend(xs[1..], ys);
    }
  }

  lemma {:induction false} DcaCountUniform(orders: seq<Stored>)
    ensures (forall o :: o in orders ==> o.version.V3? && !IsOneShot(o)) ==> DcaCount(orders) == |orders|
    ensures (forall o :: o in orders ==> !(o.version.V3? && !IsOneShot(o))) ==> DcaCount(orders) == 0
  {
    if orders != [] {
      DcaCountUniform(orders[1..]);
    }
  }

  lemma OrdersAreThoseOfAffected(v2: seq<Stored>, oneShot: seq<Stored>, dca: seq<Stored>)
    requires Sorted(v2, oneShot, dca)
    ensures forall order :: order in Orders(dca) <==> SomeDcaOrder(v2 + oneShot + dca, order)
  {
    forall order | SomeDcaOrder(v2 + oneShot + dca, order)
      ensures order in Orders(dca)
    {
      var o :| o in v2 + oneShot + dca && o.version.V3? && !IsOneShot(o) && o.order == order;
      var i :| 0 <= i < |dca| && dca[i] == o;
      assert Orders(dca)[i] == order;
    }
  }

  /** The number of wallet prompts the review announces. */
  function TransactionCount(plan: Plan): nat {
    (if plan.newNonce.Some? then 1 else 0) + |plan.batches| + |plan.dcaOrders|
  }

  /** One prompt for all legacy orders together, one per bitmap word of the one-shot orders, one per DCA order. */
  lemma PromptsAnnounced(plan: Plan, orders: seq<Stored>, chainId: nat, nonce: nat, invalidated: nat, hasV3: bool)
    requires Frozen(plan, orders, chainId, nonce, invalidated, hasV3)
    ensures TransactionCount(plan)
         == (if exists o :: o in plan.affected && o.version.V2? then 1 else 0)
            + |OneShotWords(plan.affected)| + DcaCount(plan.affected)
  {
    hide SomeOneShotNonce, SomeDcaOrder, Covered, OneShotWords;
  }

  /** The number in the review's heading: the count where DCA orders are listed, and "one transaction" otherwise. */
  function HeadingCount(plan: Plan): nat {
    if plan.dcaOrders != [] then TransactionCount(plan) else 1
  }

  /** Without DCA orders the heading is right exactly for legacy orders alone or one-shot orders of a single word. */
  lemma HeadingIsRightExactly(
    plan: Plan, orders: seq<Stored>, chainId: nat, nonce: nat, invalidated: nat, hasV3: bool)
    requires Frozen(plan, orders, chainId, nonce, invalidated, hasV3)
    ensures HeadingCount(plan) == TransactionCount(plan)
       <==> || 0 < DcaCount(plan.affected)
            || (if exists o :: o in plan.affected && o.version.V2? then 1 else 0) + |OneShotWords(plan.affected)| == 1
  {
    hide SomeOneShotNonce, SomeDcaOrder, Covered, OneShotWords;
    PromptsAnnounced(plan, orders, chainId, nonce, invalidated, hasV3);
  }

  /** No active order is dropped silently, unless it was signed for an executor this chain does not have. */
  lemma EveryActiveOrderIsListed(
      plan: Plan, orders: seq<Stored>, chainId: nat, nonce: nat, invalidated: nat, hasV3: bool)
    requires Frozen(plan, orders, chainId, nonce, invalidated, hasV3)
    ensures (forall o :: o in orders && o.active ==> o in plan.affected || o in plan.skipped)
       <==> (hasV3 || forall o :: o in orders && OnChain(o, chainId) ==> o.version.V2?)
    ensures forall o :: o in plan.affected ==> o !in plan.skipped && o in orders && o.active && o.chainId == chainId
    ensures forall o :: o in plan.skipped ==> o in orders && o.active && o.chainId != chainId
  {
  }

  // ── The current executor's share of the plan ──

  /** The wallet's transaction for one batch, or for one DCA order, occurs somewhere in the run. */
  ghost predicate Landed(txs: seq<Tx>, call: Call) {
    exists i :: 0 <= i < |txs| && txs[i].call == call
  }

  /** Every v3 transaction of the plan has been mined, in any order and with anything in between. */
  ghost predicate PlanLanded(plan: Plan, wallet: Address, txs: seq<Tx>) {
    && (forall i :: 0 <= i < |plan.batches| ==>
        Landed(txs, Invalidate(wallet, plan.batches[i].wordPos, plan.batches[i].mask)))
    && (forall order :: order in plan.dcaOrders ==> Landed(txs, Cancel(wallet, order)))
  }

  lemma {:induction false} LandedCallStops(d: Deployment, s: State, txs: seq<Tx>, call: Call, order: Order)
    requires Landed(txs, call)
    requires || call == Cancel(order.owner, order)
             || (!order.orderType.DCA? && call.Invalidate? && call.caller == order.owner
                 && call.wordPos == WordPos(order.nonce) && BitPos(order.nonce) in call.mask)
    ensures Cancellation.Stopped(Run(d, s, txs), order)
  {
    hide ExecuteOrder;
    var last := |txs| - 1;
    var before := Run(d, s, txs[..last]);
    if txs[last].call != call {
      assert Landed(txs[..last], call) by {
        var i :| 0 <= i < |txs| && txs[i].call == call;
        assert txs[..last][i] == txs[i];
      }
      LandedCallStops(d, s, txs[..last], call, order);
      Cancellation.StoppedDoesNotFill(d, before, txs[last], order);
    }
  }

  /**
   * Once every transaction of the plan has landed, no affected order of the wallet on the current executor fills
   * in any later run, whatever was mined in between.
   */
  lemma CancelAllStopsCurrentOrders(
    plan: Plan, orders: seq<Stored>, chainId: nat, nonce: nat, invalidated: nat, hasV3: bool,
    wallet: Address, d: Deployment, s: State, txs: seq<Tx>, later: seq<Tx>, o: Stored)
    requires Frozen(plan, orders, chainId, nonce, invalidated, hasV3) && PlanLanded(plan, wallet, txs)
    requires o in plan.affected && o.version.V3? && o.order.owner == wallet
    ensures FillsOf(Receipts(d, Run(d, s, txs), later), o.order) == []
  {
    if IsOneShot(o) {
      assert SomeOneShotNonce(plan.affected, o.order.nonce);
      var i :| 0 <= i < |plan.batches| && Covers(plan.batches[i], o.order.nonce);
      LandedCallStops(d, s, txs, Invalidate(wallet, plan.batches[i].wordPos, plan.batches[i].mask), o.order);
    } else {
      assert SomeDcaOrder(plan.affected, o.order);
      LandedCallStops(d, s, txs, Cancel(wallet, o.order), o.order);
    }
    Cancellation.StoppedForever(d, Run(d, s, txs), later, o.order);
  }

  /**
   * The nonce transactions alone change nothing for a DCA order: its fills are the ones it would have had without them.
   */
  lemma NonceTransactionsAloneNeverStopDca(
      plan: Plan, wallet: Address, d: Deployment, s: State, nonceTxs: seq<Tx>, later: seq<Tx>)
    requires forall tx :: tx in nonceTxs ==> tx.call.Invalidate?
    requires Cancellation.NoOneShotFills(later)
    ensures Receipts(d, Run(d, s, nonceTxs), later) == Receipts(d, s, later)
  {
    Cancellation.InvalidationsOnlyTouchNonces(d, s, nonceTxs);
    Cancellation.NoncesNeverStopDca(d, s, Run(d, s, nonceTxs), later);
  }

  /** A transaction of the plan. */
  ghost predicate PlanCall(plan: Plan, wallet: Address, call: Call) {
    || (call.Cancel? && call.caller == wallet && call.order in plan.dcaOrders)
    || exists i :: 0 <= i < |plan.batches| && call == Invalidate(wallet, plan.batches[i].wordPos, plan.batches[i].mask)
  }

  /**
   * Not an order of the plan: a DCA order not listed in it, or a one-shot order that is not the wallet's or is on a
   * nonce no listed one has.
   */
  ghost predicate Unlisted(plan: Plan, wallet: Address, order: Order) {
    if order.orderType.DCA? then !SomeDcaOrder(plan.affected, order)
    else order.owner != wallet || !SomeOneShotNonce(plan.affected, order.nonce)
  }

  function Withdrawn(plan: Plan): set<Order> {
    set order | order in plan.dcaOrders && order.orderType.DCA?
  }

  lemma PlanStepTouchesNothingElse(
    plan: Plan, orders: seq<Stored>, chainId: nat, nonce: nat, invalidated: nat, hasV3: bool,
    wallet: Address, d: Deployment, s: State, t: State, tx: Tx)
    requires Frozen(plan, orders, chainId, nonce, invalidated, hasV3) && PlanCall(plan, wallet, tx.call)
    requires Cancellation.SameFor(s, t, Withdrawn(plan), (o: Order) => Unlisted(plan, wallet, o))
    ensures Cancellation.SameFor(s, Step(d, t, tx), Withdrawn(plan), (o: Order) => Unlisted(plan, wallet, o))
  {
    hide SomeOneShotNonce, SomeDcaOrder, Covered, OneShotWords, DcaCount;
    var after := Step(d, t, tx);
    ListedAreWithdrawn(plan, orders, chainId, nonce, invalidated, hasV3);
    if tx.call.Cancel? {
      assert tx.call.order in Withdrawn(plan);
    }
    assert s.cancelledOrders + Withdrawn(plan) == after.cancelledOrders + Withdrawn(plan);
    var free := (o: Order) => Unlisted(plan, wallet, o);
    forall o | free(o)
      ensures o !in Withdrawn(plan) && Cancellation.SameNonce(s, after, o)
    {
      assert Cancellation.SameNonce(s, t, o);
      if !o.orderType.DCA? {
        UnlistedNonceIsLeft(plan, orders, chainId, nonce, invalidated, hasV3, wallet, d, t, tx, o);
      }
    }
  }

  lemma UnlistedNonceIsLeft(
    plan: Plan, orders: seq<Stored>, chainId: nat, nonce: nat, invalidated: nat, hasV3: bool,
    wallet: Address, d: Deployment, t: State, tx: Tx, o: Order)
    requires Frozen(plan, orders, chainId, nonce, invalidated, hasV3) && PlanCall(plan, wallet, tx.call)
    requires Unlisted(plan, wallet, o) && !o.orderType.DCA?
    ensures Step(d, t, tx).NonceUsed(o.owner, o.nonce) == t.NonceUsed(o.owner, o.nonce)
  {
    hide SomeOneShotNonce, SomeDcaOrder, OneShotWords, DcaCount;
    Cancellation.NonceStepExactly(d, t, tx, o.owner, o.nonce);
    assert Covered(plan.batches, o.nonce) <==> SomeOneShotNonce(plan.affected, o.nonce);
  }

  /**
   * The plan's transactions stop nothing else: whichever of them land, in any order, every later run that tries only
   * unlisted orders produces exactly the receipts it would have produced without them.
   */
  lemma PlanTouchesNothingElse(
    plan: Plan, orders: seq<Stored>, chainId: nat, nonce: nat, invalidated: nat, hasV3: bool,
    wallet: Address, d: Deployment, s: State, planTxs: seq<Tx>, later: seq<Tx>)
    requires Frozen(plan, orders, chainId, nonce, invalidated, hasV3)
    requires forall tx :: tx in planTxs ==> PlanCall(plan, wallet, tx.call)
    requires forall tx :: tx in later && tx.call.Execute? ==> Unlisted(plan, wallet, tx.call.order)
    ensures Receipts(d, Run(d, s, planTxs), later) == Receipts(d, s, later)
  {
    hide Run, Receipts, Frozen, PlanCall, Unlisted;
    var free := (o: Order) => Unlisted(plan, wallet, o);
    PlanRunTouchesNothingElse(plan, orders, chainId, nonce, invalidated, hasV3, wallet, d, s, planTxs);
    Cancellation.FreeOrdersKeepTheirFills(d, s, Run(d, s, planTxs), Withdrawn(plan), free, later);
  }

  lemma {:induction false} PlanRunTouchesNothingElse(
    plan: Plan, orders: seq<Stored>, chainId: nat, nonce: nat, invalidated: nat, hasV3: bool,
    wallet: Address, d: Deployment, s: State, planTxs: seq<Tx>)
    requires Frozen(plan, orders, chainId, nonce, invalidated, hasV3)
    requires forall tx :: tx in planTxs ==> PlanCall(plan, wallet, tx.call)
    ensures Cancellation.SameFor(s, Run(d, s, planTxs), Withdrawn(plan), (o: Order) => Unlisted(plan, wallet, o))
  {
    hide Apply;
    if planTxs == [] {
      ListedAreWithdrawn(plan, orders, chainId, nonce, invalidated, hasV3);
    } else {
      var earlier, tx := planTxs[..|planTxs| - 1], planTxs[|planTxs| - 1];
      PlanRunTouchesNothingElse(plan, orders, chainId, nonce, invalidated, hasV3, wallet, d, s, earlier);
      PlanStepTouchesNothingElse(
        plan, orders, chainId, nonce, invalidated, hasV3, wallet, d, s, Run(d, s, earlier), tx);
    }
  }

  lemma ListedAreWithdrawn(
    plan: Plan, orders: seq<Stored>, chainId: nat, nonce: nat, invalidated: nat, hasV3: bool)
    requires Frozen(plan, orders, chainId, nonce, invalidated, hasV3)
    ensures forall order :: order in plan.dcaOrders ==> order.orderType.DCA? && SomeDcaOrder(plan.affected, order)
  {
  }

  // ── The legacy executor's share of the plan ──

  /**
   * Exactly which affected legacy orders the raise stops. It is frozen from the nonces read at review and sent as it
   * is, so it may land in any state at all: an order is stopped if its nonce is at most the larger one read, and a
   * one-shot order also if the owner's running nonce still is, because then it never moves again.
   */
  lemma CancelAllOnLegacyOrders(
    plan: Plan, orders: seq<Stored>, chainId: nat, nonce: nat, invalidated: nat, hasV3: bool,
    wallet: Address, landing: L.Legacy, o: Stored)
    requires Frozen(plan, orders, chainId, nonce, invalidated, hasV3)
    requires o in plan.affected && o.version.V2? && o.order.owner == wallet
    requires L.InvalidateNonces(landing, wallet, Max(nonce, invalidated) + 1).Ok?
    ensures plan.newNonce == Some(Max(nonce, invalidated) + 1)
    ensures L.LegacyStopped(L.InvalidateNonces(landing, wallet, plan.newNonce.value).value, o.order)
       <==> LegacyStops(nonce, invalidated, landing, o.order)
  {
    hide SomeOneShotNonce, SomeDcaOrder, Covered, OneShotWords, DcaCount;
  }

  /** The condition: withdrawn before, or caught by the raise. */
  predicate LegacyStops(nonce: nat, invalidated: nat, landing: L.Legacy, order: Order) {
    || order in landing.core.cancelledOrders
    || order.nonce <= Max(nonce, invalidated)
    || (!order.orderType.DCA? && landing.Nonce(order.owner) <= Max(nonce, invalidated))
  }

  /** Whatever was read, the raise is accepted in exactly these states. */
  lemma LegacyTransactionGoesThrough(landing: L.Legacy, wallet: Address, nonce: nat, invalidated: nat)
    ensures L.InvalidateNonces(landing, wallet, Max(nonce, invalidated) + 1).Ok?
       <==> landing.Invalidated(wallet) <= Max(nonce, invalidated) < landing.Nonce(wallet) + 1000
  {
  }

  /**
   * Read in the state it lands in, the raise is accepted unless a thousand nonces ahead are void, and stops every
   * one-shot order.
   */
  lemma FreshReadStopsOneShots(landing: L.Legacy, wallet: Address, order: Order)
    requires order.owner == wallet && !order.orderType.DCA?
    ensures LegacyStops(landing.Nonce(wallet), landing.Invalidated(wallet), landing, order)
    ensures L.InvalidateNonces(landing, wallet, Max(landing.Nonce(wallet), landing.Invalidated(wallet)) + 1).Ok?
       <==> landing.Invalidated(wallet) < landing.Nonce(wallet) + 1000
  {
  }

  /** The wallet's raise of a frozen plan, in some block. */
  function Raise(plan: Plan, wallet: Address, now: nat): L.LegacyTx
    requires plan.newNonce.Some?
  {
    L.LegacyTx(now, map[], L.RaiseNonce(wallet, plan.newNonce.value))
  }

  /**
   * Over runs: frozen at any time, landing after any run, followed by any run. What the condition covers never fills
   * again; and as long as the wallet tries only orders above the frozen nonce and raises nothing else, everything goes
   * on as if the raise had not been sent.
   */
  lemma CancelAllOnLegacyRuns(
    plan: Plan, orders: seq<Stored>, chainId: nat, nonce: nat, invalidated: nat, hasV3: bool,
    wallet: Address, d: Deployment, start: L.Legacy, before: seq<L.LegacyTx>, now: nat, later: seq<L.LegacyTx>,
    o: Stored)
    requires Frozen(plan, orders, chainId, nonce, invalidated, hasV3)
    requires o in plan.affected && o.version.V2? && o.order.owner == wallet && plan.newNonce.Some?
    ensures
      var landing := L.RunLegacy(d, start, before);
      var after := L.StepLegacy(d, landing, Raise(plan, wallet, now));
      && (LegacyStops(nonce, invalidated, landing, o.order)
          && L.InvalidateNonces(landing, wallet, plan.newNonce.value).Ok? ==>
            forall r :: r in L.LegacyReceipts(d, after, later) ==> r.order != o.order)
      && ((forall tx :: tx in later ==> AboveRaise(nonce, invalidated, wallet, tx)) ==>
            L.LegacyReceipts(d, after, later) == L.LegacyReceipts(d, landing, later))
  {
    hide L.RunLegacy, L.LegacyReceipts, L.LegacyStopped;
    hide SomeOneShotNonce, SomeDcaOrder, Covered, OneShotWords, DcaCount;
    var landing := L.RunLegacy(d, start, before);
    var raised := L.InvalidateNonces(landing, wallet, plan.newNonce.value);
    if raised.Ok? {
      CancelAllOnLegacyOrders(plan, orders, chainId, nonce, invalidated, hasV3, wallet, landing, o);
      if LegacyStops(nonce, invalidated, landing, o.order) {
        L.StoppedHasNoReceipts(d, raised.value, later, o.order);
      }
      if forall tx :: tx in later ==> AboveRaise(nonce, invalidated, wallet, tx) {
        L.RunsIgnoreVoiding(d, landing, raised.value, wallet, later);
      }
    }
  }

  /** The wallet raises nothing, and of its orders tries only those above the frozen nonce. */
  predicate AboveRaise(nonce: nat, invalidated: nat, wallet: Address, tx: L.LegacyTx) {
    && (tx.call.RaiseNonce? ==> tx.call.caller != wallet)
    && (tx.call.Fill? && tx.call.order.owner == wallet ==> Max(nonce, invalidated) < tx.call.order.nonce)
  }

  /**
   * A listed one-shot order can slip through: the nonces read are 5 and 0, the order on nonce 5 fills before the raise
   * lands, and the raise to 6 is accepted and leaves the order on nonce 6 as it was for every attempt.
   */
  lemma OneShotSlipsThrough(
    d: Deployment, start: L.Legacy, wallet: Address, first: Order, firstSigner: Address, firstData: RouterData,
    firstSwap: Swap, earlier: nat, second: Order,
    feeds: FeedTable, now: nat, caller: Address, signer: Address, routerData: RouterData, swap: Swap)
    requires start.Nonce(wallet) == 5 && start.Invalidated(wallet) == 0
    requires first.owner == wallet && !first.orderType.DCA?
    requires L.ExecuteLegacy(d, start, feeds, earlier, caller, first, firstSigner, firstData, firstSwap).Ok?
    requires second.owner == wallet && !second.orderType.DCA? && second.nonce == 6
    requires second !in start.core.cancelledOrders
    ensures
      var landing :=
        L.ExecuteLegacy(d, start, feeds, earlier, caller, first, firstSigner, firstData, firstSwap).value.0;
      var raised := L.InvalidateNonces(landing, wallet, Max(5, 0) + 1);
      && raised.Ok? && !L.LegacyStopped(raised.value, second) && landing.Nonce(wallet) == second.nonce
      && (var x := L.ExecuteLegacy(d, landing, feeds, now, caller, second, signer, routerData, swap);
          var y := L.ExecuteLegacy(d, raised.value, feeds, now, caller, second, signer, routerData, swap);
          x.Ok? == y.Ok? && (x.Ok? ==> x.value.1 == y.value.1) && (x.Err? ==> x.error == y.error))
  {
    hide L.ExecuteLegacy;
    L.LegacyFillFrame(d, start, feeds, earlier, caller, first, firstSigner, firstData, firstSwap);
    var landing := L.ExecuteLegacy(d, start, feeds, earlier, caller, first, firstSigner, firstData, firstSwap).value.0;
    var raised := L.InvalidateNonces(landing, wallet, 6).value;
    L.FillIgnoresVoiding(d, landing, raised, wallet, feeds, now, caller, second, signer, routerData, swap);
  }

  /**
   * Nonces not read yet count as 0 and 0: the raise to 1 is accepted, and of a wallet at nonce 7 it stops nothing from
   * nonce 1 on.
   */
  lemma UnreadNonceStopsNothing(landing: L.Legacy, wallet: Address, order: Order)
    requires landing.Nonce(wallet) == 7 && landing.Invalidated(wallet) == 0
    requires order.owner == wallet && order !in landing.core.cancelledOrders && 1 <= order.nonce
    ensures L.InvalidateNonces(landing, wallet, Max(0, 0) + 1).Ok?
    ensures !L.LegacyStopped(L.InvalidateNonces(landing, wallet, Max(0, 0) + 1).value, order)
  {
  }

  /**
   * The nonce a new order is signed with: the running nonce on chain, or one more than the last used in this session.
   */
  function NextNonce(onChain: nat, session: Option<nat>): nat {
    if session.Some? && onChain < session.value + 1 then session.value + 1 else onChain
  }

  /** The nonces of `count` orders signed one after the other while the running nonce stays where it is. */
  function SessionNonces(onChain: nat, count: nat): (nonces: seq<nat>)
    ensures |nonces| == count
  {
    if count == 0 then []
    else
      var earlier := SessionNonces(onChain, count - 1);
      earlier + [NextNonce(onChain, if earlier == [] then None else Some(earlier[|earlier| - 1]))]
  }

  lemma {:induction false} SessionNoncesCountUp(onChain: nat, count: nat)
    ensures forall i :: 0 <= i < count ==> SessionNonces(onChain, count)[i] == onChain + i
  {
    if count > 0 {
      SessionNoncesCountUp(onChain, count - 1);
    }
  }

  /**
   * Legacy DCA orders signed in one session carry consecutive nonces, and a DCA fill never moves the running nonce. So
   * whatever "cancel all" has read and wherever it lands, it stops the orders of the session up to the larger nonce
   * read, usually the first alone, and no later one: over every run that tries only those (and anyone else's orders),
   * the fills are the very ones there would have been if nothing had been sent.
   */
  lemma SessionOrdersOutliveCancelAll(
    d: Deployment, landing: L.Legacy, wallet: Address, onChain: nat, count: nat, i: nat, order: Order,
    nonce: nat, invalidated: nat, later: seq<L.LegacyTx>)
    requires i < count && order.nonce == SessionNonces(onChain, count)[i]
    requires order.owner == wallet && order.orderType.DCA? && order !in landing.core.cancelledOrders
    requires L.InvalidateNonces(landing, wallet, Max(nonce, invalidated) + 1).Ok?
    requires forall tx :: tx in later ==> AboveRaise(nonce, invalidated, wallet, tx)
    ensures
      var raised := L.InvalidateNonces(landing, wallet, Max(nonce, invalidated) + 1).value;
      && (L.LegacyStopped(raised, order) <==> onChain + i <= Max(nonce, invalidated))
      && (nonce == onChain && invalidated <= nonce ==> (L.LegacyStopped(raised, order) <==> i == 0))
      && L.LegacyReceipts(d, raised, later) == L.LegacyReceipts(d, landing, later)
  {
    hide L.LegacyReceipts;
    SessionNoncesCountUp(onChain, count);
    var raised := L.InvalidateNonces(landing, wallet, Max(nonce, invalidated) + 1).value;
    L.RunsIgnoreVoiding(d, landing, raised, wallet, later);
  }

  // ── Nonces across sessions ──

  lemma {:induction false} FillUsedItsNonce(rs: seq<Receipt>, order: Order)
    requires !order.orderType.DCA?
    ensures |FillsOf(rs, order)| <= Cancellation.FillsOnNonce(rs, order.owner, order.nonce)
  {
    if rs != [] {
      FillUsedItsNonce(rs[..|rs| - 1], order);
    }
  }

  /**
   * The client numbers orders from the legacy contract's running nonce and forgets its own count when the page is
   * loaded again, while the current executor keeps its nonces in a bitmap the client never reads. So the k-th one-shot
   * order of a new session carries the nonce of the k-th of the session before, and if that one has filled, the new
   * one never will.
   */
  lemma ReloadReusesSpentNonces(
    d: Deployment, s: State, txs: seq<Tx>, later: seq<Tx>, legacyNonce: nat, count: nat, k: nat, earlier: Order,
    renewed: Order)
    requires k < count
    requires earlier.nonce == SessionNonces(legacyNonce, count)[k]
        && renewed.nonce == SessionNonces(legacyNonce, k + 1)[k]
    requires !earlier.orderType.DCA? && !renewed.orderType.DCA? && earlier.owner == renewed.owner
    requires FillsOf(Receipts(d, s, txs), earlier) != []
    ensures FillsOf(Receipts(d, Run(d, s, txs), later), renewed) == []
  {
    hide Apply, Receipts, FillsOf, Run, SessionNonces, Cancellation.FillsOnNonce;
    SessionNoncesCountUp(legacyNonce, count);
    SessionNoncesCountUp(legacyNonce, k + 1);
    FillUsedItsNonce(Receipts(d, s, txs), earlier);
    Cancellation.NonceFillsAtMostOnce(d, s, txs, earlier.owner, earlier.nonce);
    Cancellation.StoppedForever(d, Run(d, s, txs), later, renewed);
  }

  /**
   * Exactly when a renewed order can be admitted, after any run and with the rest of the checks in order: if its nonce
   * was free before the run, no fill of the run spent it, and its owner did not mark it as used.
   */
  lemma RenewedOrderIsAdmittedExactly(
    d: Deployment, s: State, txs: seq<Tx>, legacyNonce: nat, k: nat, renewed: Order,
    now: nat, caller: Address, signer: Address, routerData: RouterData)
    requires !renewed.orderType.DCA? && renewed.nonce == SessionNonces(legacyNonce, k + 1)[k]
    requires CheckOrder(Run(d, s, txs), now, caller, renewed, signer, routerData).Ok?
    ensures Admit(Run(d, s, txs), now, caller, renewed, signer, routerData).Ok?
       <==> && !s.NonceUsed(renewed.owner, legacyNonce + k)
            && Cancellation.FillsOnNonce(Receipts(d, s, txs), renewed.owner, legacyNonce + k) == 0
            && !Cancellation.InvalidatedIn(txs, renewed.owner, legacyNonce + k)
  {
    hide Apply, Receipts, Run, Admit, CheckOrder, SessionNonces, Cancellation.FillsOnNonce, Cancellation.InvalidatedIn;
    SessionNoncesCountUp(legacyNonce, k + 1);
    Checker.OneShotAdmission(Run(d, s, txs), now, caller, renewed, signer, routerData);
    Cancellation.NonceUsedExactly(d, s, txs, renewed.owner, renewed.nonce);
    Cancellation.NonceFillsAtMostOnce(d, s, txs, renewed.owner, renewed.nonce);
  }
}
