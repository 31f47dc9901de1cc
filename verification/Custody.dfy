/** Whose tokens a fill moves, and what an approval of exactly the order's total is worth over a whole run. */
module Custody {
  import opened Ledger
  import opened ExecutorTypes
  import opened DcaChunks
  import opened Execution
  import opened GovernanceRules
  import opened Settings
  import opened Machine
  import opened Accounting

  // ── The balance sheet of one fill ──

  /** What one transfer means for one account: what it gets less what it gives, nothing for a transfer to oneself. */
  function Flow(token: Address, holder: Address, moved: Address, from: Address, to: Address, amount: nat): int {
    if token != moved then 0
    else (if holder == to then amount as int else 0) - (if holder == from then amount as int else 0)
  }

  lemma MoveFlow(
    l: Ledger, moved: Address, from: Address, to: Address, amount: nat, token: Address, holder: Address)
    requires amount <= l.Balance(moved, from)
    ensures l.Move(moved, from, to, amount).Balance(token, holder)
         == l.Balance(token, holder) + Flow(token, holder, moved, from, to, amount)
  {
  }

  /** Pull and fee. */
  function FundFlow(d: Deployment, order: Order, amount: nat, fee: nat, token: Address, holder: Address): int {
    Flow(token, holder, order.tokenIn, order.owner, d.self, amount)
    + Flow(token, holder, order.tokenIn, d.self, d.feeRecipient, fee)
  }

  /** What the router takes and sends. */
  function SwapFlow(d: Deployment, order: Order, swap: Swap, token: Address, holder: Address): int {
    Flow(token, holder, order.tokenIn, d.self, order.router, swap.spent)
    + Flow(token, holder, order.tokenOut, order.router, d.self, swap.out)
  }

  /** Output tokens the contract has more after the swap than before it. */
  function Received(d: Deployment, order: Order, swap: Swap): int {
    SwapFlow(d, order, swap, order.tokenOut, d.self)
  }

  /** ETH the contract has to wrap, because enough came as ETH and the owner does not take it. */
  function WrappedEth(d: Deployment, order: Order, floor: nat, swap: Swap): nat {
    Wraps(d, order, floor, Received(d, order, swap), swap)
  }

  function Wraps(d: Deployment, order: Order, floor: nat, received: int, swap: Swap): nat {
    if received < floor <= swap.eth && order.tokenOut == d.weth && !swap.ownerTakesEth then swap.eth else 0
  }

  /** What one account has of one token just before the leftovers go back; `paid` is what was delivered in tokens. */
  function BeforeRefund(
    d: Deployment, l: Ledger, order: Order, amount: nat, fee: nat, floor: nat, swap: Swap, paid: nat,
    token: Address, holder: Address): int
  {
    l.Balance(token, holder)
    + FundFlow(d, order, amount, fee, token, holder)
    + SwapFlow(d, order, swap, token, holder)
    + (if token == d.weth && holder == d.self then WrappedEth(d, order, floor, swap) as int else 0)
    + Flow(token, holder, order.tokenOut, d.self, order.owner, paid)
  }

  lemma FundedBalances(
    d: Deployment, l: Ledger, order: Order, amount: nat, fee: nat, token: Address, holder: Address)
    requires CanPull(d, l, order, amount) && fee <= amount
    ensures Fund(d, l, order, amount, fee).Balance(token, holder)
         == l.Balance(token, holder) + FundFlow(d, order, amount, fee, token, holder)
  {
  }

  lemma SwappedBalances(d: Deployment, l: Ledger, order: Order, swap: Swap, token: Address, holder: Address)
    requires RouterCall(d, l, order, swap).Ok?
    ensures RouterCall(d, l, order, swap).value.Balance(token, holder)
         == l.Balance(token, holder) + SwapFlow(d, order, swap, token, holder)
  {
    var moved := l.Move(order.tokenIn, d.self, order.router, swap.spent);
    MoveFlow(l, order.tokenIn, d.self, order.router, swap.spent, token, holder);
    MoveFlow(moved, order.tokenOut, order.router, d.self, swap.out, token, holder);
  }

  lemma DeliveredBalances(
    d: Deployment, l: Ledger, order: Order, floor: nat, swap: Swap, token: Address, holder: Address)
    requires 0 <= Received(d, order, swap) <= l.Balance(order.tokenOut, d.self)
    requires Deliver(d, l, order, floor, Received(d, order, swap), swap).Ok?
    ensures
      var settled := Deliver(d, l, order, floor, Received(d, order, swap), swap).value;
      settled.ledger.Balance(token, holder)
      == l.Balance(token, holder)
         + (if token == d.weth && holder == d.self then WrappedEth(d, order, floor, swap) as int else 0)
         + Flow(token, holder, order.tokenOut, d.self, order.owner, settled.tokenOut)
  {
    hide Received;
  }

  lemma RefundedBalances(d: Deployment, l: Ledger, order: Order, token: Address, holder: Address)
    ensures RefundDust(d, l, order).Balance(token, holder)
         == l.Balance(token, holder)
            + Flow(token, holder, order.tokenIn, d.self, order.owner, l.Balance(order.tokenIn, d.self))
  {
  }

  lemma PaidOutBalances(
    d: Deployment, l: Ledger, order: Order, amount: nat, fee: nat, floor: nat, swap: Swap,
    token: Address, holder: Address)
    requires CanPull(d, l, order, amount) && fee <= amount
    requires PayOut(d, l, order, amount, fee, floor, swap).Ok?
    ensures
      var paid := PayOut(d, l, order, amount, fee, floor, swap).value;
      paid.ledger.Balance(token, holder)
      == BeforeRefund(d, l, order, amount, fee, floor, swap, paid.tokenOut, token, holder)
  {
    hide Fund, RouterCall, Deliver, FundFlow, SwapFlow, Flow, WrappedEth;
    var funded := Fund(d, l, order, amount, fee);
    var swapped := RouterCall(d, funded, order, swap).value;
    SwappedBalances(d, funded, order, swap, order.tokenOut, d.self);
    FundedBalances(d, l, order, amount, fee, token, holder);
    SwappedBalances(d, funded, order, swap, token, holder);
    DeliveredBalances(d, swapped, order, floor, swap, token, holder);
  }

  /**
   * Every account's balance of every token after a fill, whoever the parties are and whatever the tokens: pull, fee,
   * swap, wrapping and delivery, and then all the input the contract holds, stray tokens included, goes to the owner.
   */
  lemma FillBalanceSheet(
    d: Deployment, l: Ledger, order: Order, amount: nat, fee: nat, floor: nat, swap: Swap,
    token: Address, holder: Address)
    requires CanPull(d, l, order, amount) && fee <= amount
    requires Settle(d, l, order, amount, fee, floor, swap).Ok?
    ensures
      var settled := Settle(d, l, order, amount, fee, floor, swap).value;
      var left := BeforeRefund(d, l, order, amount, fee, floor, swap, settled.tokenOut, order.tokenIn, d.self);
      && 0 <= left
      && settled.ledger.Balance(token, holder)
         == BeforeRefund(d, l, order, amount, fee, floor, swap, settled.tokenOut, token, holder)
            + Flow(token, holder, order.tokenIn, d.self, order.owner, left)
  {
    hide PayOut, RefundDust, BeforeRefund, Flow;
    PaidOutBalances(d, l, order, amount, fee, floor, swap, token, holder);
    PaidOutBalances(d, l, order, amount, fee, floor, swap, order.tokenIn, d.self);
    RefundedBalances(d, PayOut(d, l, order, amount, fee, floor, swap).value.ledger, order, token, holder);
  }

  lemma FilledOrderBalanceSheet(d: Deployment, s: State, tx: Tx, token: Address, holder: Address)
    requires Filled(d, s, tx).Some?
    ensures
      var r, swap := Filled(d, s, tx).value, tx.call.swap;
      var left :=
          BeforeRefund(d, s.ledger, r.order, r.pulled, r.fee, r.floor, swap, r.tokenOut, r.order.tokenIn, d.self);
      && 0 <= left
      && Step(d, s, tx).ledger.Balance(token, holder)
         == BeforeRefund(d, s.ledger, r.order, r.pulled, r.fee, r.floor, swap, r.tokenOut, token, holder)
            + Flow(token, holder, r.order.tokenIn, d.self, r.order.owner, left)
  {
    hide ExecuteOrder, Settle, OutputFloor, BeforeRefund, Flow;
    var call := tx.call;
    FillDetails(d, s, tx.feeds, tx.now, call.caller, call.order, call.signer, call.routerData, call.swap);
    var r := Filled(d, s, tx).value;
    FillBalanceSheet(d, s.ledger, call.order, r.pulled, r.fee, r.floor, call.swap, token, holder);
  }

  /**
   * The contract keeps no input token, and no output token either unless enough of wrapped ETH's worth came as ETH.
   * (An order cannot be signed by the contract itself, nor is there a swap between a token and itself.)
   */
  lemma ExecutorKeepsNothing(
    d: Deployment, l: Ledger, order: Order, amount: nat, fee: nat, floor: nat, swap: Swap)
    requires CanPull(d, l, order, amount) && fee <= amount
    requires Settle(d, l, order, amount, fee, floor, swap).Ok?
    ensures
      var after := Settle(d, l, order, amount, fee, floor, swap).value.ledger;
      order.owner != d.self ==>
        && after.Balance(order.tokenIn, d.self) == 0
        && (order.tokenOut != order.tokenIn ==>
              (after.Balance(order.tokenOut, d.self) == l.Balance(order.tokenOut, d.self)
               <==> !(order.tokenOut == d.weth && 0 < Received(d, order, swap) < floor <= swap.eth)))
  {
    hide Settle;
    FillBalanceSheet(d, l, order, amount, fee, floor, swap, order.tokenIn, d.self);
    FillBalanceSheet(d, l, order, amount, fee, floor, swap, order.tokenOut, d.self);
    DeliveredTokens(d, l, order, amount, fee, floor, swap);
  }

  /** How much of what the contract received is delivered as tokens. */
  lemma DeliveredTokens(
    d: Deployment, l: Ledger, order: Order, amount: nat, fee: nat, floor: nat, swap: Swap)
    requires CanPull(d, l, order, amount) && fee <= amount
    requires Settle(d, l, order, amount, fee, floor, swap).Ok?
    ensures 0 <= Received(d, order, swap)
    ensures
      var received, paid := Received(d, order, swap), Settle(d, l, order, amount, fee, floor, swap).value.tokenOut;
      paid == if received < floor <= swap.eth && order.tokenOut == d.weth
              then WrappedEth(d, order, floor, swap) else received
  {
    hide Fund, RouterCall, RefundDust, SwapFlow;
    var funded := Fund(d, l, order, amount, fee);
    SwappedBalances(d, funded, order, swap, order.tokenOut, d.self);
  }

  /**
   * Where the router's ETH goes: to the owner, into wrapped ETH, or, exactly if the tokens alone reach the floor,
   * nowhere at all.
   */
  lemma EthStaysExactly(
    d: Deployment, l: Ledger, order: Order, amount: nat, fee: nat, floor: nat, swap: Swap)
    requires CanPull(d, l, order, amount) && fee <= amount
    requires Settle(d, l, order, amount, fee, floor, swap).Ok?
    ensures
      var ethOut := Settle(d, l, order, amount, fee, floor, swap).value.ethOut;
      swap.eth - ethOut - WrappedEth(d, order, floor, swap) == if floor <= Received(d, order, swap) then swap.eth else 0
  {
    hide Fund, RouterCall, RefundDust, SwapFlow;
    var funded := Fund(d, l, order, amount, fee);
    SwappedBalances(d, funded, order, swap, order.tokenOut, d.self);
  }

  // ── When a fill settles ──

  /** What came back is enough: in tokens, in ETH for wrapped ETH, or in both together. */
  predicate Pays(d: Deployment, order: Order, floor: nat, received: int, swap: Swap) {
    || floor <= received
    || (order.tokenOut == d.weth && floor <= swap.eth)
    || (floor <= received + swap.eth < WORD && (swap.eth == 0 || swap.ownerTakesEth))
  }

  /** The router goes through with it, within its approval and what there is, and what comes back is enough. */
  predicate SwapSuffices(d: Deployment, l: Ledger, order: Order, amount: nat, fee: nat, floor: nat, swap: Swap) {
    && swap.ok && swap.spent <= amount - fee
    && swap.spent <= l.Balance(order.tokenIn, d.self) + FundFlow(d, order, amount, fee, order.tokenIn, d.self)
    && swap.out <= l.Balance(order.tokenOut, order.router)
                   + FundFlow(d, order, amount, fee, order.tokenOut, order.router)
                   + Flow(order.tokenOut, order.router, order.tokenIn, d.self, order.router, swap.spent)
    && 0 <= Received(d, order, swap) < WORD
    && Pays(d, order, floor, Received(d, order, swap), swap)
  }

  lemma RouterCallExactly(d: Deployment, l: Ledger, order: Order, swap: Swap)
    ensures RouterCall(d, l, order, swap).Ok?
       <==> && swap.ok
            && swap.spent <= l.Balance(order.tokenIn, d.self)
            && swap.spent <= l.Allowance(order.tokenIn, d.self, order.router)
            && swap.out <= l.Balance(order.tokenOut, order.router)
                           + Flow(order.tokenOut, order.router, order.tokenIn, d.self, order.router, swap.spent)
    ensures RouterCall(d, l, order, swap).Err? ==> RouterCall(d, l, order, swap).error == SwapFailed
  {
  }

  lemma DeliverExactly(d: Deployment, l: Ledger, order: Order, floor: nat, received: nat, swap: Swap)
    requires received <= l.Balance(order.tokenOut, d.self)
    ensures Deliver(d, l, order, floor, received, swap).Ok? <==> Pays(d, order, floor, received, swap)
    ensures Deliver(d, l, order, floor, received, swap).Err? ==>
              Deliver(d, l, order, floor, received, swap).error
              == if WORD <= received + swap.eth then Panic
                 else if received + swap.eth < floor then InsufficientOutput else ETHTransferFailed
  {
  }

  /** What a trade fails with. */
  function SwapProblem(d: Deployment, l: Ledger, order: Order, amount: nat, fee: nat, floor: nat, swap: Swap): Revert {
    var received := Received(d, order, swap);
    if !swap.ok || amount - fee < swap.spent
       || l.Balance(order.tokenIn, d.self) + FundFlow(d, order, amount, fee, order.tokenIn, d.self) < swap.spent
       || l.Balance(order.tokenOut, order.router)
          + FundFlow(d, order, amount, fee, order.tokenOut, order.router)
          + Flow(order.tokenOut, order.router, order.tokenIn, d.self, order.router, swap.spent) < swap.out
    then SwapFailed
    else if received < 0 || WORD <= received || WORD <= received + swap.eth then Panic
    else if received + swap.eth < floor then InsufficientOutput
    else ETHTransferFailed
  }

  lemma FundApprovesNet(d: Deployment, l: Ledger, order: Order, amount: nat, fee: nat)
    requires CanPull(d, l, order, amount) && fee <= amount
    ensures Fund(d, l, order, amount, fee).Allowance(order.tokenIn, d.self, order.router) == amount - fee
  {
  }

  /** A funded order settles if and only if the swap suffices, and otherwise fails for just the reason it does not. */
  lemma SettlesExactly(d: Deployment, l: Ledger, order: Order, amount: nat, fee: nat, floor: nat, swap: Swap)
    requires CanPull(d, l, order, amount) && fee <= amount
    ensures
      var r := Settle(d, l, order, amount, fee, floor, swap);
      && (r.Ok? <==> SwapSuffices(d, l, order, amount, fee, floor, swap))
      && (r.Err? ==> r.error == SwapProblem(d, l, order, amount, fee, floor, swap))
  {
    hide Fund, RouterCall, Deliver, FundFlow, SwapFlow, Flow, RefundDust, Pays, CanPull;
    var funded := Fund(d, l, order, amount, fee);
    FundedBalances(d, l, order, amount, fee, order.tokenIn, d.self);
    FundedBalances(d, l, order, amount, fee, order.tokenOut, order.router);
    RouterCallExactly(d, funded, order, swap);
    FundApprovesNet(d, l, order, amount, fee);
    if RouterCall(d, funded, order, swap).Ok? {
      var swapped := RouterCall(d, funded, order, swap).value;
      SwappedBalances(d, funded, order, swap, order.tokenOut, d.self);
      if 0 <= Received(d, order, swap) {
        DeliverExactly(d, swapped, order, floor, Received(d, order, swap), swap);
      }
    }
  }

  // ── Who loses tokens, and why ──

  /** What a fill takes from anyone but the executor: the pulled input from its owner, the output from its router. */
  lemma FillTakesOnly(d: Deployment, s: State, tx: Tx, token: Address, holder: Address)
    requires Filled(d, s, tx).Some? && holder != d.self
    ensures
      var r := Filled(d, s, tx).value;
      s.ledger.Balance(token, holder) - Step(d, s, tx).ledger.Balance(token, holder)
      <= (if holder == r.order.owner && token == r.order.tokenIn then r.pulled else 0)
         + (if holder == r.order.router && token == r.order.tokenOut then tx.call.swap.out else 0)
  {
    hide ExecuteOrder, Wraps;
    FilledOrderBalanceSheet(d, s, tx, token, holder);
  }

  lemma FillIsSigned(d: Deployment, s: State, tx: Tx)
    requires Filled(d, s, tx).Some?
    ensures
      var r := Filled(d, s, tx).value;
      && tx.call.Execute? && r.order == tx.call.order && tx.call.signer == r.order.owner
      && r.order !in s.cancelledOrders && tx.call.caller in s.gov.executors && r.order.router in s.gov.routers
      && r.pulled <= s.ledger.Allowance(r.order.tokenIn, r.order.owner, d.self)
  {
    hide NextChunk, UseNonce, OutputFloor, Settle, CheckFunds;
    var call := tx.call;
    FillDetails(d, s, tx.feeds, tx.now, call.caller, call.order, call.signer, call.routerData, call.swap);
  }

  /**
   * Nobody's balance falls but by their own doing: their own transfer, a spender they approved, an order they signed
   * and approved, or, for a whitelisted router, the output it sends in its own call. The executor's own falls only with
   * a fill, a sweep, or a spender it approved (and it approves none).
   */
  lemma BalancesFallByConsent(d: Deployment, s: State, tx: Tx, token: Address, holder: Address)
    requires Step(d, s, tx).ledger.Balance(token, holder) < s.ledger.Balance(token, holder)
    ensures
      match tx.call
      case Token(moved, Transfer(from, _, _)) => moved == token && from == holder != d.self
      case Token(moved, TransferFrom(spender, owner, _, amount)) =>
        moved == token && owner == holder && amount <= s.ledger.Allowance(token, holder, spender)
      case Execute(_, order, signer, _, _) =>
        && Filled(d, s, tx).Some?
        && (|| holder == d.self
            || (holder == order.owner == signer && token == order.tokenIn
                && Filled(d, s, tx).value.pulled <= s.ledger.Allowance(token, holder, d.self))
            || (holder == order.router && token == order.tokenOut && holder in s.gov.routers))
      case Admin(caller, command) =>
        holder == d.self && caller == s.gov.admin && command.RunAction? && command.action == Sweep(token)
      case _ => false
  {
    hide ExecuteOrder, Administer, Permitted, After;
    if Filled(d, s, tx).Some? {
      FillIsSigned(d, s, tx);
      if holder != d.self {
        FillTakesOnly(d, s, tx, token, holder);
      }
    } else if tx.call.Admin? && Apply(d, s, tx).Ok? {
      AdministerExactly(d, s, tx.feeds, tx.now, tx.call.caller, tx.call.command, Administrator);
      OnlySweepsMoveTokens(d, s, tx.feeds, tx.now, tx.call.caller, tx.call.command, token, holder);
    }
  }

  /** What has been pulled for orders of one owner that sell one token. */
  function PulledFrom(receipts: seq<Receipt>, token: Address, owner: Address): int {
    if receipts == [] then 0
    else
      var r := receipts[|receipts| - 1];
      PulledFrom(receipts[..|receipts| - 1], token, owner)
      + if r.order.owner == owner && r.order.tokenIn == token then r.pulled else 0
  }

  /** The holder neither sends the token, nor is it taken by a spender, nor is the holder a router for it. */
  predicate LeavesAlone(tx: Tx, token: Address, holder: Address) {
    match tx.call
    case Token(moved, Transfer(from, _, _)) => moved == token ==> from != holder
    case Token(moved, TransferFrom(_, owner, _, _)) => moved == token ==> owner != holder
    case Execute(_, order, _, _, _) => order.tokenOut == token ==> order.router != holder
    case _ => true
  }

  /** Over every run, who does nothing else loses at most what was pulled for the orders they signed. */
  lemma {:induction false} OwnersLoseOnlyWhatTheySigned(
    d: Deployment, s: State, txs: seq<Tx>, token: Address, holder: Address)
    requires holder != d.self && forall tx :: tx in txs ==> LeavesAlone(tx, token, holder)
    ensures s.ledger.Balance(token, holder)
         <= Run(d, s, txs).ledger.Balance(token, holder) + PulledFrom(Receipts(d, s, txs), token, holder)
  {
    hide Apply;
    if txs != [] {
      var earlier, tx := txs[..|txs| - 1], txs[|txs| - 1];
      var before := Run(d, s, earlier);
      OwnersLoseOnlyWhatTheySigned(d, s, earlier, token, holder);
      if Filled(d, before, tx).Some? {
        FilledOrder(d, before, tx);
        FillTakesOnly(d, before, tx, token, holder);
        var filled := Filled(d, before, tx).value;
        assert tx in txs;
        assert (Receipts(d, s, earlier) + [filled])[..|Receipts(d, s, earlier)|] == Receipts(d, s, earlier);
      } else if Step(d, before, tx).ledger.Balance(token, holder) < before.ledger.Balance(token, holder) {
        BalancesFallByConsent(d, before, tx, token, holder);
      }
    }
  }

  // ── Approvals ──

  /** A fill withdraws what the executor approved to the router, and raises no other approval of the executor's. */
  lemma FillLeavesNoApproval(
    d: Deployment, l: Ledger, order: Order, amount: nat, fee: nat, floor: nat, swap: Swap, token: Address,
    spender: Address)
    requires CanPull(d, l, order, amount) && fee <= amount
    requires Settle(d, l, order, amount, fee, floor, swap).Ok?
    ensures
      var after := Settle(d, l, order, amount, fee, floor, swap).value.ledger.Allowance(token, d.self, spender);
      && (token == order.tokenIn && spender == order.router ==> after == 0)
      && after <= l.Allowance(token, d.self, spender)
  {
    hide Fund, RouterCall, Deliver;
    var funded := Fund(d, l, order, amount, fee);
    var swapped := RouterCall(d, funded, order, swap).value;
    FundApproves(d, l, order, amount, fee, token, spender);
    RouterUsesApproval(d, funded, order, swap, token, spender);
    var received := swapped.Balance(order.tokenOut, d.self) - funded.Balance(order.tokenOut, d.self);
    DeliveryLeavesApprovals(d, swapped, order, floor, received, swap);
  }

  lemma FundApproves(
    d: Deployment, l: Ledger, order: Order, amount: nat, fee: nat, token: Address, spender: Address)
    requires CanPull(d, l, order, amount) && fee <= amount
    ensures !(token == order.tokenIn && spender == order.router) ==>
              Fund(d, l, order, amount, fee).Allowance(token, d.self, spender) <= l.Allowance(token, d.self, spender)
  {
  }

  lemma RouterUsesApproval(d: Deployment, l: Ledger, order: Order, swap: Swap, token: Address, spender: Address)
    requires RouterCall(d, l, order, swap).Ok?
    ensures RouterCall(d, l, order, swap).value.Allowance(token, d.self, spender)
         == if token == order.tokenIn && spender == order.router then 0 else l.Allowance(token, d.self, spender)
  {
  }

  /** In no reachable state can anyone take tokens from the executor: it never has an approval outstanding. */
  lemma {:induction false} ExecutorApprovesNobody(
    d: Deployment, s: State, txs: seq<Tx>, token: Address, spender: Address)
    requires s.ledger.Allowance(token, d.self, spender) == 0
    ensures Run(d, s, txs).ledger.Allowance(token, d.self, spender) == 0
  {
    hide Apply;
    if txs != [] {
      ExecutorApprovesNobody(d, s, txs[..|txs| - 1], token, spender);
      ApprovalStep(d, Run(d, s, txs[..|txs| - 1]), txs[|txs| - 1], token, spender);
    }
  }

  lemma ApprovalStep(d: Deployment, s: State, tx: Tx, token: Address, spender: Address)
    requires s.ledger.Allowance(token, d.self, spender) == 0
    ensures Step(d, s, tx).ledger.Allowance(token, d.self, spender) == 0
  {
    hide ExecuteOrder, Administer, Settle, OutputFloor;
    var call := tx.call;
    if Filled(d, s, tx).Some? {
      FillDetails(d, s, tx.feeds, tx.now, call.caller, call.order, call.signer, call.routerData, call.swap);
      var r := Filled(d, s, tx).value;
      FillLeavesNoApproval(d, s.ledger, call.order, r.pulled, r.fee, r.floor, call.swap, token, spender);
    } else if call.Admin? && Apply(d, s, tx).Ok? {
      OnlySweepsMoveTokens(d, s, tx.feeds, tx.now, call.caller, call.command, token, spender);
    }
  }

  lemma FundUsesAllowance(d: Deployment, l: Ledger, order: Order, amount: nat, fee: nat, token: Address, owner: Address)
    requires CanPull(d, l, order, amount) && fee <= amount && owner != d.self
    ensures Fund(d, l, order, amount, fee).Allowance(token, owner, d.self)
         == l.Allowance(token, owner, d.self) - if order.tokenIn == token && order.owner == owner then amount else 0
  {
  }

  lemma RouterLeavesApprovals(d: Deployment, l: Ledger, order: Order, swap: Swap, token: Address, owner: Address)
    requires RouterCall(d, l, order, swap).Ok? && owner != d.self
    ensures RouterCall(d, l, order, swap).value.Allowance(token, owner, d.self) == l.Allowance(token, owner, d.self)
  {
  }

  lemma DeliveryLeavesApprovals(d: Deployment, l: Ledger, order: Order, floor: nat, received: nat, swap: Swap)
    requires received <= l.Balance(order.tokenOut, d.self) && Deliver(d, l, order, floor, received, swap).Ok?
    ensures Deliver(d, l, order, floor, received, swap).value.ledger.allowances == l.allowances
    ensures RefundDust(d, l, order).allowances == l.allowances
  {
  }

  lemma FillUsesAllowance(
      d: Deployment, l: Ledger, order: Order, amount: nat, fee: nat, floor: nat, swap: Swap, token: Address,
      owner: Address)
    requires CanPull(d, l, order, amount) && fee <= amount && owner != d.self
    requires Settle(d, l, order, amount, fee, floor, swap).Ok?
    ensures Settle(d, l, order, amount, fee, floor, swap).value.ledger.Allowance(token, owner, d.self)
         == l.Allowance(token, owner, d.self) - if order.tokenIn == token && order.owner == owner then amount else 0
  {
    hide Fund, RouterCall, Deliver;
    var funded := Fund(d, l, order, amount, fee);
    var swapped := RouterCall(d, funded, order, swap).value;
    FundUsesAllowance(d, l, order, amount, fee, token, owner);
    RouterLeavesApprovals(d, funded, order, swap, token, owner);
    var received := swapped.Balance(order.tokenOut, d.self) - funded.Balance(order.tokenOut, d.self);
    DeliveryLeavesApprovals(d, swapped, order, floor, received, swap);
  }

  /** Nothing but this order draws on the owner's approval, and the owner does not change it. */
  predicate NothingElseDraws(d: Deployment, txs: seq<Tx>, order: Order) {
    forall tx :: tx in txs ==>
      && (tx.call.Execute? && tx.call.order.owner == order.owner && tx.call.order.tokenIn == order.tokenIn
          ==> tx.call.order == order)
      && (tx.call.Token? && tx.call.call.Approve? && tx.call.token == order.tokenIn
          ==> tx.call.call.owner != order.owner || tx.call.call.spender != d.self)
  }

  lemma AllowanceStep(d: Deployment, s: State, tx: Tx, order: Order)
    requires order.owner != d.self && NothingElseDraws(d, [tx], order)
    ensures Step(d, s, tx).ledger.Allowance(order.tokenIn, order.owner, d.self)
         == s.ledger.Allowance(order.tokenIn, order.owner, d.self)
            - if Filled(d, s, tx).Some? && Filled(d, s, tx).value.order == order
              then Filled(d, s, tx).value.pulled else 0
  {
    hide ExecuteOrder, Settle, OutputFloor, Govern;
    assert tx in [tx];
    var call := tx.call;
    if call.Execute?
        && ExecuteOrder(d, s, tx.feeds, tx.now, call.caller, call.order, call.signer, call.routerData, call.swap).Ok? {
      FillDetails(d, s, tx.feeds, tx.now, call.caller, call.order, call.signer, call.routerData, call.swap);
      var r := Filled(d, s, tx).value;
      FillUsesAllowance(d, s.ledger, call.order, r.pulled, r.fee, r.floor, call.swap, order.tokenIn, order.owner);
    }
  }

  /**
   * What is left of the approval after `k` fills is the approved amount less the first `k` chunks. An approval of
   * exactly the total therefore covers the next chunk in every reachable state and is spent to zero by the last one.
   */
  lemma {:induction false} AllowanceTracksTheOrder(d: Deployment, s: State, txs: seq<Tx>, order: Order)
    requires order.orderType.DCA? && s.Executions(order) == 0 && 0 < order.dcaTotal
    requires order.owner != d.self && NothingElseDraws(d, txs, order)
    ensures
      var t := Run(d, s, txs);
      && t.Executions(order) <= order.dcaTotal
      && t.ledger.Allowance(order.tokenIn, order.owner, d.self)
         == s.ledger.Allowance(order.tokenIn, order.owner, d.self)
            - Cumulative(order.amountIn, order.dcaTotal, t.Executions(order))
  {
    hide Apply;
    if txs == [] {
      CumulativeEnds(order.amountIn, order.dcaTotal);
    } else {
      var earlier, tx := txs[..|txs| - 1], txs[|txs| - 1];
      var before := Run(d, s, earlier);
      AllowanceTracksTheOrder(d, s, earlier, order);
      AllowanceStep(d, before, tx, order);
      if Filled(d, before, tx).Some? && Filled(d, before, tx).value.order == order {
        DcaFill(d, before, tx);
        ChunkIsDifference(order.amountIn, order.dcaTotal, before.Executions(order));
      } else {
        NotThisOrder(d, before, tx, order);
      }
    }
  }

  lemma ExactApprovalIsEnough(d: Deployment, s: State, txs: seq<Tx>, order: Order)
    requires order.orderType.DCA? && s.Executions(order) == 0 && 0 < order.dcaTotal
    requires order.owner != d.self && NothingElseDraws(d, txs, order)
    requires s.ledger.Allowance(order.tokenIn, order.owner, d.self) == order.amountIn
    ensures
      var t := Run(d, s, txs);
      var k, left := t.Executions(order), t.ledger.Allowance(order.tokenIn, order.owner, d.self);
      && (k < order.dcaTotal ==> ChunkSize(order.amountIn, order.dcaTotal, k) <= left)
      && (k == order.dcaTotal ==> left == 0)
  {
    AllowanceTracksTheOrder(d, s, txs, order);
    var k := Run(d, s, txs).Executions(order);
    CumulativeEnds(order.amountIn, order.dcaTotal);
    if k < order.dcaTotal {
      ChunkIsDifference(order.amountIn, order.dcaTotal, k);
      CumulativeGrows(order.amountIn, order.dcaTotal, k);
    }
  }

  /** One unit less than the total and the last fill can never happen. */
  lemma SmallerApprovalNeverCompletes(d: Deployment, s: State, txs: seq<Tx>, order: Order)
    requires order.orderType.DCA? && s.Executions(order) == 0 && 0 < order.dcaTotal
    requires order.owner != d.self && NothingElseDraws(d, txs, order)
    requires s.ledger.Allowance(order.tokenIn, order.owner, d.self) < order.amountIn
    ensures Run(d, s, txs).Executions(order) < order.dcaTotal
  {
    AllowanceTracksTheOrder(d, s, txs, order);
    CumulativeEnds(order.amountIn, order.dcaTotal);
  }

  // ── Conservation ──

  lemma FundConserves(
      d: Deployment, l: Ledger, order: Order, amount: nat, fee: nat, token: Address, holders: seq<Address>)
    requires Distinct(holders) && order.owner in holders && d.self in holders && d.feeRecipient in holders
    requires CanPull(d, l, order, amount) && fee <= amount
    ensures Fund(d, l, order, amount, fee).Held(token, holders) == l.Held(token, holders)
  {
    var moved := l.Move(order.tokenIn, order.owner, d.self, amount);
    var left := l.Allowance(order.tokenIn, order.owner, d.self) - amount;
    var pulled := moved.Approve(order.tokenIn, order.owner, d.self, left);
    var charged := pulled.Move(order.tokenIn, d.self, d.feeRecipient, fee);
    MoveConserves(l, order.tokenIn, order.owner, d.self, amount, token, holders);
    ApproveKeepsHeld(moved, order.tokenIn, order.owner, d.self, left, token, holders);
    MoveConserves(pulled, order.tokenIn, d.self, d.feeRecipient, fee, token, holders);
    ApproveKeepsHeld(charged, order.tokenIn, d.self, order.router, amount - fee, token, holders);
  }

  lemma RouterConserves(d: Deployment, l: Ledger, order: Order, swap: Swap, token: Address, holders: seq<Address>)
    requires Distinct(holders) && d.self in holders && order.router in holders
    requires RouterCall(d, l, order, swap).Ok?
    ensures RouterCall(d, l, order, swap).value.Held(token, holders) == l.Held(token, holders)
  {
    var moved := l.Move(order.tokenIn, d.self, order.router, swap.spent);
    var left := l.Allowance(order.tokenIn, d.self, order.router) - swap.spent;
    var taken := moved.Approve(order.tokenIn, d.self, order.router, left);
    var sent := taken.Move(order.tokenOut, order.router, d.self, swap.out);
    MoveConserves(l, order.tokenIn, d.self, order.router, swap.spent, token, holders);
    ApproveKeepsHeld(moved, order.tokenIn, d.self, order.router, left, token, holders);
    MoveConserves(taken, order.tokenOut, order.router, d.self, swap.out, token, holders);
    ApproveKeepsHeld(sent, order.tokenIn, d.self, order.router, 0, token, holders);
  }

  lemma DeliverConserves(
    d: Deployment, l: Ledger, order: Order, floor: nat, received: nat, swap: Swap,
    token: Address, holders: seq<Address>)
    requires Distinct(holders) && d.self in holders && order.owner in holders
    requires received <= l.Balance(order.tokenOut, d.self)
    requires Deliver(d, l, order, floor, received, swap).Ok?
    ensures Deliver(d, l, order, floor, received, swap).value.ledger.Held(token, holders)
         == l.Held(token, holders) + if token == d.weth then Wraps(d, order, floor, received, swap) else 0
  {
    var more := l.Balance(d.weth, d.self) + swap.eth;
    var wrapped := l.SetBalance(d.weth, d.self, more);
    DeliveredLedger(d, l, order, floor, received, swap);
    if Wraps(d, order, floor, received, swap) == 0 {
      MoveConserves(l, order.tokenOut, d.self, order.owner, received, token, holders);
    } else {
      HeldAfterSet(l, d.weth, d.self, more, token, holders);
      MoveConserves(wrapped, d.weth, d.self, order.owner, swap.eth, token, holders);
    }
  }

  /** What delivery does to the ledger: nothing, one transfer, or wrapping and one transfer. */
  lemma DeliveredLedger(
    d: Deployment, l: Ledger, order: Order, floor: nat, received: nat, swap: Swap)
    requires received <= l.Balance(order.tokenOut, d.self) && Deliver(d, l, order, floor, received, swap).Ok?
    ensures
      var after := Deliver(d, l, order, floor, received, swap).value.ledger;
      var wrapped := l.SetBalance(d.weth, d.self, l.Balance(d.weth, d.self) + swap.eth);
      if Wraps(d, order, floor, received, swap) == 0 then
        after == l || after == l.Move(order.tokenOut, d.self, order.owner, received)
      else after == wrapped.Move(d.weth, d.self, order.owner, swap.eth)
  {
  }

  /**
   * A fill creates and destroys no tokens, whoever the parties are; it makes exactly as much wrapped ETH as it wraps.
   */
  lemma FillConserves(
    d: Deployment, l: Ledger, order: Order, amount: nat, fee: nat, floor: nat, swap: Swap,
    token: Address, holders: seq<Address>)
    requires Distinct(holders)
    requires order.owner in holders && d.self in holders && d.feeRecipient in holders && order.router in holders
    requires CanPull(d, l, order, amount) && fee <= amount
    requires Settle(d, l, order, amount, fee, floor, swap).Ok?
    ensures Settle(d, l, order, amount, fee, floor, swap).value.ledger.Held(token, holders)
         == l.Held(token, holders) + if token == d.weth then WrappedEth(d, order, floor, swap) else 0
  {
    hide Fund, RouterCall, Deliver, SwapFlow, Wraps;
    var funded := Fund(d, l, order, amount, fee);
    var swapped := RouterCall(d, funded, order, swap).value;
    SwappedBalances(d, funded, order, swap, order.tokenOut, d.self);
    var received := Received(d, order, swap);
    var delivered := Deliver(d, swapped, order, floor, received, swap).value.ledger;
    FundConserves(d, l, order, amount, fee, token, holders);
    RouterConserves(d, funded, order, swap, token, holders);
    DeliverConserves(d, swapped, order, floor, received, swap, token, holders);
    var dust := delivered.Balance(order.tokenIn, d.self);
    MoveConserves(delivered, order.tokenIn, d.self, order.owner, dust, token, holders);
  }

  /** The accounts one transaction can move tokens between. */
  function Participants(d: Deployment, s: State, tx: Tx): set<Address> {
    match tx.call
    case Execute(_, order, _, _, _) => {order.owner, d.self, d.feeRecipient, order.router}
    case Admin(_, _) => {d.self, s.gov.admin}
    case Token(_, Transfer(from, to, _)) => {from, to}
    case Token(_, TransferFrom(_, owner, to, _)) => {owner, to}
    case _ => {}
  }

  lemma TokenCallConserves(d: Deployment, s: State, l: Ledger, tx: Tx, token: Address, holders: seq<Address>)
    requires tx.call.Token? && Distinct(holders)
    requires forall a :: a in Participants(d, s, tx) ==> a in holders
    requires CallToken(d, l, tx.call.token, tx.call.call).Ok?
    ensures CallToken(d, l, tx.call.token, tx.call.call).value.Held(token, holders) == l.Held(token, holders)
  {
    var moved := tx.call.token;
    match tx.call.call
    case Approve(owner, spender, amount) =>
      ApproveKeepsHeld(l, moved, owner, spender, amount, token, holders);
    case Transfer(from, to, amount) =>
      MoveConserves(l, moved, from, to, amount, token, holders);
    case TransferFrom(spender, owner, to, amount) =>
      MoveConserves(l, moved, owner, to, amount, token, holders);
      var left := l.Allowance(moved, owner, spender) - amount;
      ApproveKeepsHeld(l.Move(moved, owner, to, amount), moved, owner, spender, left, token, holders);
  }

  lemma AdminConserves(d: Deployment, s: State, tx: Tx, token: Address, holders: seq<Address>)
    requires tx.call.Admin? && Distinct(holders) && d.self in holders && s.gov.admin in holders
    ensures Step(d, s, tx).ledger.Held(token, holders) == s.ledger.Held(token, holders)
  {
    hide Govern, ValidateFeed, ValidateAnswer, ExecuteAction;
    var command := tx.call.command;
    if command.RunAction? && ExecuteAction(d, s, tx.feeds, tx.now, tx.call.caller, command.id, command.action).Ok? {
      ActionConserves(d, s, tx.feeds, tx.now, tx.call.caller, command.id, command.action, token, holders);
    }
  }

  lemma ActionConserves(
    d: Deployment, s: State, feeds: FeedTable, now: nat, caller: Address, id: ActionId, action: Action, token: Address,
    holders: seq<Address>)
    requires Distinct(holders) && d.self in holders && s.gov.admin in holders
    requires ExecuteAction(d, s, feeds, now, caller, id, action).Ok?
    ensures ExecuteAction(d, s, feeds, now, caller, id, action).value.ledger.Held(token, holders)
        == s.ledger.Held(token, holders)
  {
    hide ValidateFeed, ValidateAnswer;
    if action.Sweep? {
      var held := s.ledger.Balance(action.token, d.self);
      MoveConserves(s.ledger, action.token, d.self, s.gov.admin, held, token, holders);
    }
  }

  /** The ETH one transaction wraps, and a whole run. */
  function WrappedBy(d: Deployment, s: State, tx: Tx): nat {
    var filled := Filled(d, s, tx);
    if filled.Some? then WrappedEth(d, filled.value.order, filled.value.floor, tx.call.swap) else 0
  }

  function WrappedOver(d: Deployment, s: State, txs: seq<Tx>): nat {
    if txs == [] then 0
    else
      var last := |txs| - 1;
      WrappedOver(d, s, txs[..last]) + WrappedBy(d, Run(d, s, txs[..last]), txs[last])
  }

  lemma StepConserves(d: Deployment, s: State, tx: Tx, token: Address, holders: seq<Address>)
    requires Distinct(holders)
    requires forall a :: a in Participants(d, s, tx) ==> a in holders
    ensures Step(d, s, tx).ledger.Held(token, holders)
         == s.ledger.Held(token, holders) + if token == d.weth then WrappedBy(d, s, tx) else 0
  {
    hide ExecuteOrder, Settle, OutputFloor, Administer, CallToken, WrappedEth;
    var call := tx.call;
    if call.Execute? {
      FillStepConserves(d, s, tx, token, holders);
    } else if call.Token? && CallToken(d, s.ledger, call.token, call.call).Ok? {
      TokenCallConserves(d, s, s.ledger, tx, token, holders);
    } else if call.Admin? {
      AdminConserves(d, s, tx, token, holders);
    }
  }

  lemma FillStepConserves(d: Deployment, s: State, tx: Tx, token: Address, holders: seq<Address>)
    requires Distinct(holders) && tx.call.Execute?
    requires forall a :: a in Participants(d, s, tx) ==> a in holders
    ensures Step(d, s, tx).ledger.Held(token, holders)
         == s.ledger.Held(token, holders) + if token == d.weth then WrappedBy(d, s, tx) else 0
  {
    hide ExecuteOrder, Settle, OutputFloor, WrappedEth;
    var call := tx.call;
    if Filled(d, s, tx).Some? {
      FillDetails(d, s, tx.feeds, tx.now, call.caller, call.order, call.signer, call.routerData, call.swap);
      var r := Filled(d, s, tx).value;
      FillConserves(d, s.ledger, call.order, r.pulled, r.fee, r.floor, call.swap, token, holders);
    }
  }

  /**
   * Over every run, what all accounts that take part hold together never changes, except that the total of wrapped ETH
   * grows by exactly the ETH wrapped.
   */
  lemma {:induction false} RunConserves(d: Deployment, s: State, txs: seq<Tx>, token: Address, holders: seq<Address>)
    requires Distinct(holders)
    requires forall i, a :: 0 <= i < |txs| && a in Participants(d, Run(d, s, txs[..i]), txs[i]) ==> a in holders
    ensures Run(d, s, txs).ledger.Held(token, holders)
         == s.ledger.Held(token, holders) + if token == d.weth then WrappedOver(d, s, txs) else 0
  {
    hide Apply, Participants, WrappedBy;
    if txs != [] {
      var last := |txs| - 1;
      var earlier := txs[..last];
      forall i, a | 0 <= i < last && a in Participants(d, Run(d, s, earlier[..i]), earlier[i])
        ensures a in holders
      {
        assert earlier[..i] == txs[..i];
      }
      RunConserves(d, s, earlier, token, holders);
      StepConserves(d, Run(d, s, earlier), txs[last], token, holders);
    }
  }
}
