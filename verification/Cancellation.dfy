/** Ways an order of the current executor is stopped for good, and which of them reach a DCA order. */
module Cancellation {
  import opened Ledger
  import opened ExecutorTypes
  import Oracle
  import opened Execution
  import opened GovernanceRules
  import opened Machine
  import opened Accounting

  /** An order can no longer fill: withdrawn, or one-shot with its nonce used or invalidated. */
  predicate Stopped(s: State, order: Order) {
    order in s.cancelledOrders || (!order.orderType.DCA? && s.NonceUsed(order.owner, order.nonce))
  }

  lemma StoppedDoesNotFill(d: Deployment, s: State, tx: Tx, order: Order)
    requires Stopped(s, order)
    ensures Filled(d, s, tx).None? || Filled(d, s, tx).value.order != order
    ensures Stopped(Step(d, s, tx), order)
  {
    hide ExecuteOrder, Administer, CallToken;
    StepOnOrderBook(d, s, tx);
    assert s.Word(order.owner, order.nonce / 256) <= Step(d, s, tx).Word(order.owner, order.nonce / 256);
    if Filled(d, s, tx).Some? && Filled(d, s, tx).value.order == order {
      var call := tx.call;
      FillFrame(d, s, tx.feeds, tx.now, call.caller, call.order, call.signer, call.routerData, call.swap);
    }
  }

  /** Once stopped, an order never fills again in any later state, whatever anyone calls. */
  lemma {:induction false} StoppedForever(d: Deployment, s: State, txs: seq<Tx>, order: Order)
    requires Stopped(s, order)
    ensures Stopped(Run(d, s, txs), order)
    ensures FillsOf(Receipts(d, s, txs), order) == []
  {
    hide Apply, Stopped;
    if txs != [] {
      StoppedForever(d, s, txs[..|txs| - 1], order);
      StoppedDoesNotFill(d, Run(d, s, txs[..|txs| - 1]), txs[|txs| - 1], order);
      FillsStep(d, s, txs, order);
    }
  }

  /** One-shot orders that were signed with the same nonce by the same owner. */
  function FillsOnNonce(rs: seq<Receipt>, owner: Address, nonce: nat): nat {
    if rs == [] then 0
    else
      var last := rs[|rs| - 1].order;
      FillsOnNonce(rs[..|rs| - 1], owner, nonce)
      + if !last.orderType.DCA? && last.owner == owner && last.nonce == nonce then 1 else 0
  }

  /** A one-shot fill finds its nonce free and leaves it used. */
  lemma OneShotFill(d: Deployment, s: State, tx: Tx)
    requires Filled(d, s, tx).Some? && !Filled(d, s, tx).value.order.orderType.DCA?
    ensures
      var o := Filled(d, s, tx).value.order;
      !s.NonceUsed(o.owner, o.nonce) && Step(d, s, tx).NonceUsed(o.owner, o.nonce)
  {
    hide ExecuteOrder;
    var call := tx.call;
    FillFrame(d, s, tx.feeds, tx.now, call.caller, call.order, call.signer, call.routerData, call.swap);
  }

  predicate UsesNonce(r: Receipt, owner: Address, nonce: nat) {
    !r.order.orderType.DCA? && r.order.owner == owner && r.order.nonce == nonce
  }

  lemma FillsOnNonceStep(d: Deployment, s: State, txs: seq<Tx>, owner: Address, nonce: nat)
    requires txs != []
    ensures
      var earlier := txs[..|txs| - 1];
      var filled := Filled(d, Run(d, s, earlier), txs[|txs| - 1]);
      FillsOnNonce(Receipts(d, s, txs), owner, nonce)
      == FillsOnNonce(Receipts(d, s, earlier), owner, nonce)
         + if filled.Some? && UsesNonce(filled.value, owner, nonce) then 1 else 0
  {
    hide Apply;
    var earlier := txs[..|txs| - 1];
    var filled, rs := Filled(d, Run(d, s, earlier), txs[|txs| - 1]), Receipts(d, s, earlier);
    if filled.Some? {
      assert (rs + [filled.value])[..|rs|] == rs;
    }
  }

  /** A used nonce stays used, and a fill that uses one finds it free. */
  lemma NonceStep(d: Deployment, s: State, tx: Tx, owner: Address, nonce: nat)
    ensures s.NonceUsed(owner, nonce) ==> Step(d, s, tx).NonceUsed(owner, nonce)
    ensures Filled(d, s, tx).Some? && UsesNonce(Filled(d, s, tx).value, owner, nonce) ==>
              !s.NonceUsed(owner, nonce) && Step(d, s, tx).NonceUsed(owner, nonce)
  {
    hide Apply;
    StepOnOrderBook(d, s, tx);
    assert s.Word(owner, nonce / 256) <= Step(d, s, tx).Word(owner, nonce / 256);
    if Filled(d, s, tx).Some? && !Filled(d, s, tx).value.order.orderType.DCA? {
      OneShotFill(d, s, tx);
    }
  }

  /**
   * A nonce is spent at most once, by one order or another, in any run; a spent or invalidated nonce is never spent
   * again.
   */
  lemma {:induction false} NonceFillsAtMostOnce(d: Deployment, s: State, txs: seq<Tx>, owner: Address, nonce: nat)
    ensures FillsOnNonce(Receipts(d, s, txs), owner, nonce) <= 1
    ensures s.NonceUsed(owner, nonce) ==> FillsOnNonce(Receipts(d, s, txs), owner, nonce) == 0
    ensures s.NonceUsed(owner, nonce) || FillsOnNonce(Receipts(d, s, txs), owner, nonce) == 1
            ==> Run(d, s, txs).NonceUsed(owner, nonce)
  {
    hide Apply, UsesNonce;
    if txs != [] {
      var earlier, tx := txs[..|txs| - 1], txs[|txs| - 1];
      NonceFillsAtMostOnce(d, s, earlier, owner, nonce);
      FillsOnNonceStep(d, s, txs, owner, nonce);
      NonceStep(d, Run(d, s, earlier), tx, owner, nonce);
    }
  }

  // ── Exactly which orders are withdrawn ──

  /** The owner's own withdrawal of this order is among the transactions. */
  ghost predicate WithdrawnIn(txs: seq<Tx>, order: Order) {
    exists tx :: tx in txs && tx.call == Cancel(order.owner, order)
  }

  lemma WithdrawnStep(d: Deployment, s: State, tx: Tx, order: Order)
    ensures order in Step(d, s, tx).cancelledOrders
       <==> order in s.cancelledOrders || tx.call == Cancel(order.owner, order)
  {
    hide ExecuteOrder, Administer, CallToken;
    if Filled(d, s, tx).Some? {
      var call := tx.call;
      FillFrame(d, s, tx.feeds, tx.now, call.caller, call.order, call.signer, call.routerData, call.swap);
    }
  }

  /** After any run an order is withdrawn exactly if it was before or its owner, and nobody else, withdrew it. */
  lemma {:induction false} WithdrawnExactly(d: Deployment, s: State, txs: seq<Tx>, order: Order)
    ensures order in Run(d, s, txs).cancelledOrders <==> order in s.cancelledOrders || WithdrawnIn(txs, order)
  {
    hide Apply;
    if txs != [] {
      var earlier, tx := txs[..|txs| - 1], txs[|txs| - 1];
      WithdrawnExactly(d, s, earlier, order);
      WithdrawnStep(d, Run(d, s, earlier), tx, order);
      assert txs == earlier + [tx];
    }
  }

  // ── Exactly which nonces are used ──

  /** The owner marks the nonce as used by hand. */
  predicate Invalidates(call: Call, owner: Address, nonce: nat) {
    call.Invalidate? && call.caller == owner && call.wordPos == nonce / 256 && nonce % 256 in call.mask
  }

  ghost predicate InvalidatedIn(txs: seq<Tx>, owner: Address, nonce: nat) {
    exists tx :: tx in txs && Invalidates(tx.call, owner, nonce)
  }

  /** One transaction makes a nonce used only by spending it or by marking it. */
  lemma NonceStepExactly(d: Deployment, s: State, tx: Tx, owner: Address, nonce: nat)
    ensures Step(d, s, tx).NonceUsed(owner, nonce)
       <==> || s.NonceUsed(owner, nonce)
            || (Filled(d, s, tx).Some? && UsesNonce(Filled(d, s, tx).value, owner, nonce))
            || Invalidates(tx.call, owner, nonce)
  {
    hide ExecuteOrder, Administer, CallToken;
    NonceStep(d, s, tx, owner, nonce);
    if Filled(d, s, tx).Some? && !UsesNonce(Filled(d, s, tx).value, owner, nonce) {
      FillMarksItsNonce(d, s, tx, owner, nonce);
    }
  }

  lemma FillMarksItsNonce(d: Deployment, s: State, tx: Tx, owner: Address, nonce: nat)
    requires Filled(d, s, tx).Some? && !UsesNonce(Filled(d, s, tx).value, owner, nonce)
    ensures Step(d, s, tx).NonceUsed(owner, nonce) == s.NonceUsed(owner, nonce)
  {
    hide ExecuteOrder, CheckOrder, NextChunk;
    var call := tx.call;
    FillFrame(d, s, tx.feeds, tx.now, call.caller, call.order, call.signer, call.routerData, call.swap);
  }

  lemma {:induction false} InvalidatedStep(txs: seq<Tx>, owner: Address, nonce: nat)
    requires txs != []
    ensures InvalidatedIn(txs, owner, nonce)
       <==> InvalidatedIn(txs[..|txs| - 1], owner, nonce) || Invalidates(txs[|txs| - 1].call, owner, nonce)
  {
    assert txs == txs[..|txs| - 1] + [txs[|txs| - 1]];
  }

  /** After any run a nonce is used exactly if it was before, or a fill of the run spent it, or its owner marked it. */
  lemma {:induction false} NonceUsedExactly(d: Deployment, s: State, txs: seq<Tx>, owner: Address, nonce: nat)
    ensures Run(d, s, txs).NonceUsed(owner, nonce)
       <==> || s.NonceUsed(owner, nonce)
            || FillsOnNonce(Receipts(d, s, txs), owner, nonce) == 1
            || InvalidatedIn(txs, owner, nonce)
  {
    hide Apply, UsesNonce, Invalidates, InvalidatedIn;
    NonceFillsAtMostOnce(d, s, txs, owner, nonce);
    if txs == [] {
      NothingInvalidated(owner, nonce);
    } else {
      var earlier, tx := txs[..|txs| - 1], txs[|txs| - 1];
      NonceUsedExactly(d, s, earlier, owner, nonce);
      NonceFillsAtMostOnce(d, s, earlier, owner, nonce);
      FillsOnNonceStep(d, s, txs, owner, nonce);
      NonceStepExactly(d, Run(d, s, earlier), tx, owner, nonce);
      InvalidatedStep(txs, owner, nonce);
    }
  }

  lemma NothingInvalidated(owner: Address, nonce: nat)
    ensures !InvalidatedIn([], owner, nonce)
  {
  }

  // ── What cancelling leaves alone ──

  /**
   * Two states that differ only in withdrawn orders and used nonces, and not for the free orders: none of those is
   * withdrawn in one state alone, or has its nonce used in one state alone.
   */
  ghost predicate SameFor(s: State, t: State, withdrawn: set<Order>, free: Order -> bool) {
    && t == s.(nonceBitmap := t.nonceBitmap, cancelledOrders := t.cancelledOrders)
    && s.cancelledOrders + withdrawn == t.cancelledOrders + withdrawn
    && forall o :: free(o) ==> o !in withdrawn && SameNonce(s, t, o)
  }

  predicate SameNonce(s: State, t: State, o: Order) {
    o.orderType.DCA? || s.NonceUsed(o.owner, o.nonce) == t.NonceUsed(o.owner, o.nonce)
  }

  predicate OnlyFree(txs: seq<Tx>, free: Order -> bool) {
    forall tx :: tx in txs && tx.call.Execute? ==> free(tx.call.order)
  }

  /** Using the same nonce in both states, or marking the same ones, keeps every order's nonce alike. */
  lemma UsingKeepsAlike(s: State, t: State, owner: Address, nonce: nat, o: Order)
    requires SameNonce(s, t, o)
    requires UseNonce(s, owner, nonce).Ok? && UseNonce(t, owner, nonce).Ok?
    ensures SameNonce(UseNonce(s, owner, nonce).value, UseNonce(t, owner, nonce).value, o)
  {
  }

  lemma MarkingKeepsAlike(s: State, t: State, owner: Address, wordPos: nat, mask: set<nat>, o: Order)
    requires SameNonce(s, t, o)
    ensures SameNonce(
              InvalidateUnorderedNonces(s, owner, wordPos, mask), InvalidateUnorderedNonces(t, owner, wordPos, mask), o)
  {
  }

  lemma FreeAdmission(
    s: State, t: State, withdrawn: set<Order>, free: Order -> bool,
    now: nat, caller: Address, order: Order, signer: Address, routerData: RouterData)
    requires SameFor(s, t, withdrawn, free) && free(order)
    ensures
      var x := Admit(s, now, caller, order, signer, routerData);
      var y := Admit(t, now, caller, order, signer, routerData);
      && x.Ok? == y.Ok?
      && (x.Err? ==> x.error == y.error)
      && (x.Ok? ==> x.value.1 == y.value.1 && SameFor(x.value.0, y.value.0, withdrawn, free)
                    && x.value.0 == s.(nonceBitmap := x.value.0.nonceBitmap))
  {
    hide Flip;
    assert order in s.cancelledOrders + withdrawn <==> order in t.cancelledOrders + withdrawn;
    assert CheckOrder(t, now, caller, order, signer, routerData)
        == CheckOrder(s, now, caller, order, signer, routerData);
    if order.orderType.DCA? {
      assert NextChunk(t, now, order) == NextChunk(s, now, order);
    } else {
      FreeNonce(s, t, order);
      if UseNonce(s, order.owner, order.nonce).Ok? {
        forall o | free(o)
          ensures SameNonce(
                    UseNonce(s, order.owner, order.nonce).value, UseNonce(t, order.owner, order.nonce).value, o)
        {
          UsingKeepsAlike(s, t, order.owner, order.nonce, o);
        }
      }
    }
  }

  lemma FreeNonce(s: State, t: State, order: Order)
    requires SameNonce(s, t, order) && !order.orderType.DCA?
    ensures
      var x, y := UseNonce(s, order.owner, order.nonce), UseNonce(t, order.owner, order.nonce);
      x.Ok? == y.Ok? && (x.Err? ==> x.error == y.error)
  {
  }

  lemma FundsIgnoreNonces(d: Deployment, s: State, t: State, feeds: FeedTable, now: nat, order: Order, amount: nat)
    requires t.gov == s.gov && t.ledger == s.ledger
    ensures CheckFunds(d, t, feeds, now, order, amount) == CheckFunds(d, s, feeds, now, order, amount)
  {
    hide Oracle.PriceOk;
  }

  lemma CountingKeepsSame(
    s: State, t: State, withdrawn: set<Order>, free: Order -> bool, ledger: Ledger, order: Order, now: nat)
    requires SameFor(s, t, withdrawn, free)
    ensures SameFor(
              CountFill(s.(ledger := ledger), order, now), CountFill(t.(ledger := ledger), order, now), withdrawn, free)
  {
    var x, y := CountFill(s.(ledger := ledger), order, now), CountFill(t.(ledger := ledger), order, now);
    forall o | free(o)
      ensures SameNonce(x, y, o)
    {
      assert SameNonce(s, t, o);
    }
  }

  /** Every attempt on a free order ends the same in both states. */
  lemma FreeFill(
    d: Deployment, s: State, t: State, withdrawn: set<Order>, free: Order -> bool, feeds: FeedTable, now: nat,
    caller: Address, order: Order, signer: Address, routerData: RouterData, swap: Swap)
    requires SameFor(s, t, withdrawn, free) && free(order)
    ensures
      var x := ExecuteOrder(d, s, feeds, now, caller, order, signer, routerData, swap);
      var y := ExecuteOrder(d, t, feeds, now, caller, order, signer, routerData, swap);
      && x.Ok? == y.Ok?
      && (x.Err? ==> x.error == y.error)
      && (x.Ok? ==> x.value.1 == y.value.1 && SameFor(x.value.0, y.value.0, withdrawn, free))
  {
    hide Admit, CheckFunds, OutputFloor, Settle, CountFill, SameNonce;
    FreeAdmission(s, t, withdrawn, free, now, caller, order, signer, routerData);
    var x, y := Admit(s, now, caller, order, signer, routerData), Admit(t, now, caller, order, signer, routerData);
    if x.Ok? {
      FundsIgnoreNonces(d, s, t, feeds, now, order, x.value.1);
      forall l
        ensures SameFor(CountFill(x.value.0.(ledger := l), order, now), CountFill(y.value.0.(ledger := l), order, now),
                        withdrawn, free)
      {
        CountingKeepsSame(x.value.0, y.value.0, withdrawn, free, l, order, now);
      }
    }
  }

  /** Settings and tokens know nothing of withdrawn orders and nonces. */
  lemma PerformIgnoresCancelling(d: Deployment, s: State, t: State, feeds: FeedTable, now: nat, action: Action)
    requires t == s.(nonceBitmap := t.nonceBitmap, cancelledOrders := t.cancelledOrders)
    ensures
      var x, y := Perform(d, s, feeds, now, action), Perform(d, t, feeds, now, action);
      x.Ok? == y.Ok? && (x.Ok? ==> x.value.gov == y.value.gov && x.value.ledger == y.value.ledger)
  {
    hide ValidateFeed, ValidateAnswer;
  }

  lemma AdministrationIgnoresCancelling(d: Deployment, s: State, t: State, tx: Tx)
    requires t == s.(nonceBitmap := t.nonceBitmap, cancelledOrders := t.cancelledOrders) && tx.call.Admin?
    ensures
      var x := Administer(d, s, tx.feeds, tx.now, tx.call.caller, tx.call.command);
      var y := Administer(d, t, tx.feeds, tx.now, tx.call.caller, tx.call.command);
      x.Ok? == y.Ok? && (x.Ok? ==> x.value.gov == y.value.gov && x.value.ledger == y.value.ledger)
  {
    hide Govern, Perform;
    var command := tx.call.command;
    if command.RunAction? {
      var gov := s.gov.(timelock := s.gov.timelock - {command.id});
      PerformIgnoresCancelling(d, s.(gov := gov), t.(gov := gov), tx.feeds, tx.now, command.action);
    }
  }

  lemma SettingsKeepSame(
    s: State, t: State, withdrawn: set<Order>, free: Order -> bool, gov: Governance, ledger: Ledger)
    requires SameFor(s, t, withdrawn, free)
    ensures SameFor(s.(gov := gov, ledger := ledger), t.(gov := gov, ledger := ledger), withdrawn, free)
  {
    var x, y := s.(gov := gov, ledger := ledger), t.(gov := gov, ledger := ledger);
    forall o | free(o)
      ensures SameNonce(x, y, o)
    {
      assert SameNonce(s, t, o);
    }
  }

  lemma CancellingKeepsSame(s: State, t: State, withdrawn: set<Order>, free: Order -> bool, call: Call)
    requires SameFor(s, t, withdrawn, free)
    ensures call.Cancel? ==>
              var x, y := CancelOrder(s, call.caller, call.order), CancelOrder(t, call.caller, call.order);
              x.Ok? == y.Ok? && (x.Ok? ==> SameFor(x.value, y.value, withdrawn, free))
    ensures call.Invalidate? ==>
              SameFor(InvalidateUnorderedNonces(s, call.caller, call.wordPos, call.mask),
                      InvalidateUnorderedNonces(t, call.caller, call.wordPos, call.mask), withdrawn, free)
  {
    hide InvalidateUnorderedNonces;
    if call.Cancel? && call.caller == call.order.owner {
      var x, y := CancelOrder(s, call.caller, call.order).value, CancelOrder(t, call.caller, call.order).value;
      assert x.cancelledOrders + withdrawn == s.cancelledOrders + withdrawn + {call.order};
      assert y.cancelledOrders + withdrawn == t.cancelledOrders + withdrawn + {call.order};
      forall o | free(o)
        ensures SameNonce(x, y, o)
      {
        assert SameNonce(s, t, o);
      }
    } else if call.Invalidate? {
      MarkedStates(s, t, call);
      forall o | free(o)
        ensures SameNonce(InvalidateUnorderedNonces(s, call.caller, call.wordPos, call.mask),
                          InvalidateUnorderedNonces(t, call.caller, call.wordPos, call.mask), o)
      {
        MarkingKeepsAlike(s, t, call.caller, call.wordPos, call.mask, o);
      }
    }
  }

  lemma MarkedStates(s: State, t: State, call: Call)
    requires call.Invalidate?
    ensures
      var x := InvalidateUnorderedNonces(s, call.caller, call.wordPos, call.mask);
      var y := InvalidateUnorderedNonces(t, call.caller, call.wordPos, call.mask);
      x == s.(nonceBitmap := x.nonceBitmap) && y == t.(nonceBitmap := y.nonceBitmap)
  {
  }

  lemma StepKeepsSame(d: Deployment, s: State, t: State, withdrawn: set<Order>, free: Order -> bool, tx: Tx)
    requires SameFor(s, t, withdrawn, free) && OnlyFree([tx], free)
    ensures Filled(d, s, tx) == Filled(d, t, tx)
    ensures SameFor(Step(d, s, tx), Step(d, t, tx), withdrawn, free)
  {
    hide ExecuteOrder, Administer, CallToken, CancelOrder, InvalidateUnorderedNonces, SameNonce;
    var call := tx.call;
    match call
    case Execute(caller, order, signer, routerData, swap) =>
      assert tx in [tx];
      FreeFill(d, s, t, withdrawn, free, tx.feeds, tx.now, caller, order, signer, routerData, swap);
    case Admin(caller, command) =>
      AdministrationIgnoresCancelling(d, s, t, tx);
      var x := Administer(d, s, tx.feeds, tx.now, caller, command);
      if x.Ok? {
        SettingsKeepSame(s, t, withdrawn, free, x.value.gov, x.value.ledger);
      }
    case Token(token, tokenCall) =>
      var ledger := CallToken(d, s.ledger, token, tokenCall);
      if ledger.Ok? {
        SettingsKeepSame(s, t, withdrawn, free, s.gov, ledger.value);
      }
    case _ =>
      CancellingKeepsSame(s, t, withdrawn, free, call);
  }

  /**
   * Withdrawing orders and using nonces never stops, delays or changes a fill of any other order: from two states that
   * are the same for the free orders, every run that tries only those produces exactly the same receipts.
   */
  lemma {:induction false} FreeOrdersKeepTheirFills(
    d: Deployment, s: State, t: State, withdrawn: set<Order>, free: Order -> bool, txs: seq<Tx>)
    requires SameFor(s, t, withdrawn, free) && OnlyFree(txs, free)
    ensures Receipts(d, s, txs) == Receipts(d, t, txs)
    ensures SameFor(Run(d, s, txs), Run(d, t, txs), withdrawn, free)
  {
    hide Apply, SameFor;
    if txs != [] {
      var earlier, tx := txs[..|txs| - 1], txs[|txs| - 1];
      FreeOrdersKeepTheirFills(d, s, t, withdrawn, free, earlier);
      StepKeepsSame(d, Run(d, s, earlier), Run(d, t, earlier), withdrawn, free, tx);
    }
  }

  // ── Nonces mean nothing to a DCA order ──

  /** Two states that agree on everything but used nonces. */
  predicate SameButNonces(s: State, t: State) {
    t == s.(nonceBitmap := t.nonceBitmap)
  }

  predicate NoOneShotFills(txs: seq<Tx>) {
    forall tx :: tx in txs && tx.call.Execute? ==> tx.call.order.orderType.DCA?
  }

  lemma NothingWithdrawn(s: State, t: State, free: Order -> bool)
    requires SameFor(s, t, {}, free)
    ensures SameButNonces(s, t)
  {
    assert s.cancelledOrders == s.cancelledOrders + {} == t.cancelledOrders + {} == t.cancelledOrders;
  }

  lemma DcaFillIgnoresNonces(
    d: Deployment, s: State, t: State, feeds: FeedTable, now: nat,
    caller: Address, order: Order, signer: Address, routerData: RouterData, swap: Swap)
    requires SameButNonces(s, t) && order.orderType.DCA?
    ensures
      var x := ExecuteOrder(d, s, feeds, now, caller, order, signer, routerData, swap);
      var y := ExecuteOrder(d, t, feeds, now, caller, order, signer, routerData, swap);
      && x.Ok? == y.Ok?
      && (x.Err? ==> x.error == y.error)
      && (x.Ok? ==> x.value.1 == y.value.1 && SameButNonces(x.value.0, y.value.0))
  {
    hide ExecuteOrder;
    FreeFill(
      d, s, t, {}, (o: Order) => o.orderType.DCA?, feeds, now, caller, order, signer, routerData, swap);
    var x := ExecuteOrder(d, s, feeds, now, caller, order, signer, routerData, swap);
    if x.Ok? {
      var y := ExecuteOrder(d, t, feeds, now, caller, order, signer, routerData, swap);
      NothingWithdrawn(x.value.0, y.value.0, (o: Order) => o.orderType.DCA?);
    }
  }

  /**
   * Invalidating nonces never stops, delays or changes a single fill of any DCA order: after any nonce transactions
   * at all, every run of DCA fills and other calls produces exactly the receipts it would have produced without them.
   */
  lemma NoncesNeverStopDca(d: Deployment, s: State, t: State, txs: seq<Tx>)
    requires SameButNonces(s, t) && NoOneShotFills(txs)
    ensures Receipts(d, s, txs) == Receipts(d, t, txs)
    ensures SameButNonces(Run(d, s, txs), Run(d, t, txs))
  {
    hide Run, Receipts;
    FreeOrdersKeepTheirFills(d, s, t, {}, (o: Order) => o.orderType.DCA?, txs);
    NothingWithdrawn(Run(d, s, txs), Run(d, t, txs), (o: Order) => o.orderType.DCA?);
  }

  lemma {:induction false} InvalidationsOnlyTouchNonces(d: Deployment, s: State, txs: seq<Tx>)
    requires forall tx :: tx in txs ==> tx.call.Invalidate?
    ensures SameButNonces(s, Run(d, s, txs)) && Receipts(d, s, txs) == []
  {
    hide ExecuteOrder;
    if txs != [] {
      InvalidationsOnlyTouchNonces(d, s, txs[..|txs| - 1]);
    }
  }
}
