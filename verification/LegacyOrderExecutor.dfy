/** The previous executor contract as an object, with its sequential nonces. */
module LegacyOrderExecutor {
  import opened Ledger
  import opened ExecutorTypes
  import opened DcaChunks
  import opened Execution
  import opened LegacyExecutor
  import opened TradeSteps

  class LegacyOrderExecutor {
    const deployment: Deployment
    var cancelledOrders: set<Order>
    var dcaExecutions: map<Order, nat>
    var dcaLastExecution: map<Order, nat>
    var nonces: map<Address, nat>
    var invalidatedNonces: map<Address, nat>
    var gov: Governance
    // The token contracts' own storage; kept here because a revert undoes transfers too.
    var ledger: Ledger

    constructor (d: Deployment, admin: Address, ledger: Ledger)
      ensures deployment == d
      ensures Model() == Legacy(
                State(map[], {}, map[], map[],
                      Governance(admin, false, false, {}, {}, map[], map[], map[], map[]), ledger),
                map[], map[])
      ensures forall owner :: Model().Nonce(owner) == 0 && Model().Invalidated(owner) == 0
      ensures forall order :: Model().core.Executions(order) == 0 && Model().core.LastExecution(order) == 0
    {
      deployment := d;
      cancelledOrders, dcaExecutions, dcaLastExecution, nonces, invalidatedNonces := {}, map[], map[], map[], map[];
      gov := Governance(admin, false, false, {}, {}, map[], map[], map[], map[]);
      this.ledger := ledger;
    }

    /** This contract has no nonce bitmap. */
    function Model(): Legacy
      reads this
    {
      Legacy(State(map[], cancelledOrders, dcaExecutions, dcaLastExecution, gov, ledger), nonces, invalidatedNonces)
    }

    method InvalidateNonces(caller: Address, newNonce: nat) returns (r: Result<()>)
      modifies this`invalidatedNonces
      ensures match LegacyExecutor.InvalidateNonces(old(Model()), caller, newNonce)
              case Ok(after) => r == Ok(()) && Model() == after
              case Err(error) => r == Err(error) && Model() == old(Model())
    {
      if newNonce <= Model().Invalidated(caller) {
        return Err(MustIncrease);
      }
      if Model().Nonce(caller) + 1000 < newNonce {
        return Err(NonceTooHigh);
      }
      invalidatedNonces := invalidatedNonces[caller := newNonce];
      r := Ok(());
    }

    method CancelOrder(caller: Address, order: Order) returns (r: Result<()>)
      modifies this`cancelledOrders
      ensures match Execution.CancelOrder(old(Model()).core, caller, order)
              case Ok(after) => r == Ok(()) && Model() == old(Model()).(core := after)
              case Err(error) => r == Err(error) && Model() == old(Model())
    {
      if caller != order.owner {
        return Err(NotOwner);
      }
      cancelledOrders := cancelledOrders + {order};
      r := Ok(());
    }

    /** Counters for a DCA order, the owner's running nonce for any other. */
    method CountFill(order: Order, now: nat)
      modifies this`dcaExecutions, this`dcaLastExecution, this`nonces
      ensures Model() == CountLegacyFill(old(Model()), order, now, ledger)
    {
      if order.orderType.DCA? {
        dcaExecutions := dcaExecutions[order := Model().core.Executions(order) + 1];
        dcaLastExecution := dcaLastExecution[order := now];
      } else {
        nonces := nonces[order.owner := Model().Nonce(order.owner) + 1];
      }
    }

    method RequireExecutable(now: nat, caller: Address, order: Order, signer: Address, routerData: RouterData)
      returns (r: Result<()>)
      ensures r == CheckLegacyOrder(Model(), now, caller, order, signer, routerData)
      ensures r.Ok? ==> MIN_ORDER_AMOUNT <= order.amountIn
    {
      if caller !in gov.executors {
        return Err(NotExecutor);
      }
      if gov.paused {
        return Err(ContractPaused);
      }
      if order.minAmountOut == 0 {
        return Err(InvalidMinOutput);
      }
      if order.amountIn < MIN_ORDER_AMOUNT {
        return Err(OrderTooSmall);
      }
      if signer != order.owner {
        return Err(InvalidSignature);
      }
      if order in cancelledOrders {
        return Err(OrderCancelled);
      }
      if order.expiry < now {
        return Err(OrderExpired);
      }
      if order.router !in gov.routers {
        return Err(RouterNotWhitelisted);
      }
      if !order.orderType.DCA? && (order.routerDataHash.None? || routerData != order.routerDataHash.value) {
        return Err(RouterDataMismatch);
      }
      if order.nonce < Model().Invalidated(order.owner) {
        return Err(NonceBelowInvalidation);
      }
      r := Ok(());
    }

    /** The chunk of a DCA order, the whole amount of an order whose nonce is the running one. */
    method TakeAmount(now: nat, order: Order) returns (r: Result<nat>)
      ensures r == LegacyAmount(Model(), now, order)
    {
      if !order.orderType.DCA? {
        if Model().Nonce(order.owner) != order.nonce {
          return Err(OrderAlreadyExecuted);
        }
        return Ok(order.amountIn);
      }
      if order.dcaTotal == 0 {
        return Err(InvalidDCATotal);
      }
      if order.dcaInterval == 0 {
        return Err(InvalidDCAInterval);
      }
      var execCount := Model().core.Executions(order);
      if order.dcaTotal <= execCount {
        return Err(DCAComplete);
      }
      var earliest :- Checked(Model().core.LastExecution(order) + order.dcaInterval);
      if now < earliest {
        return Err(DCAIntervalNotReached);
      }
      if order.amountIn / order.dcaTotal < MIN_ORDER_AMOUNT {
        return Err(DCAChunkTooSmall);
      }
      var product :- Checked(order.amountIn * (execCount + 1));
      var previouslyExecuted := order.amountIn * execCount / order.dcaTotal;
      ChunkInRange(order.amountIn, order.dcaTotal, execCount);
      if execCount == order.dcaTotal - 1 {
        r := Ok(order.amountIn - previouslyExecuted);
      } else {
        r := Ok(product / order.dcaTotal - previouslyExecuted);
      }
    }

    /** Pull, swap, only then work out the floor, count, and pay out. */
    method Trade(order: Order, amount: nat, fee: nat, now: nat, swap: Swap) returns (r: Result<Receipt>)
      requires CanPull(deployment, ledger, order, amount) && fee <= amount && 0 < order.amountIn
      modifies this`ledger, this`dcaExecutions, this`dcaLastExecution, this`nonces
      ensures
        var swapped := RouterCall(deployment, Fund(deployment, old(ledger), order, amount, fee), order, swap);
        var floor := LegacyFloor(order, amount);
        if swapped.Err? then r == Err(swapped.error)
        else if floor.Err? then r == Err(floor.error)
        else match Settle(deployment, old(ledger), order, amount, fee, floor.value, swap)
             case Ok(settled) =>
               && r == Ok(Receipt(order, amount, fee, floor.value, settled.tokenOut, settled.ethOut, now))
               && Model() == CountLegacyFill(old(Model()), order, now, settled.ledger)
             case Err(error) => r == Err(error)
    {
      hide Fund, RouterCall, Deliver, RefundDust;
      ledger := PullInput(deployment, ledger, order, amount, fee);
      var balanceBefore := ledger.Balance(order.tokenOut, deployment.self);
      ledger :- SwapOnRouter(deployment, ledger, order, swap);
      var floor := order.minAmountOut;
      if order.orderType.DCA? {
        var product :- Checked(order.minAmountOut * amount);
        floor := product / order.amountIn;
        if floor == 0 {
          floor := 1;
        }
      }
      var received :- Checked(ledger.Balance(order.tokenOut, deployment.self) - balanceBefore);
      CountFill(order, now);
      var settled :- DeliverOutput(deployment, ledger, order, floor, received, swap);
      ledger := ReturnLeftovers(deployment, settled.ledger, order);
      r := Ok(Receipt(order, amount, fee, floor, settled.tokenOut, settled.ethOut, now));
    }

    /** A fill is all or nothing. */
    method ExecuteOrder(
      feeds: FeedTable, now: nat, caller: Address, order: Order, signer: Address, routerData: RouterData, swap: Swap)
      returns (r: Result<Receipt>)
      modifies this
      ensures match ExecuteLegacy(deployment, old(Model()), feeds, now, caller, order, signer, routerData, swap)
              case Ok(done) => r == Ok(done.1) && Model() == done.0
              case Err(error) => r == Err(error) && Model() == old(Model())
    {
      hide Settle, Fund, RouterCall, LegacyFloor, CountLegacyFill, CheckLegacyOrder, LegacyAmount, CheckFunds;
      var before := Model();
      var _ :- RequireExecutable(now, caller, order, signer, routerData);
      var amount :- TakeAmount(now, order);
      var fee :- TakeFee(deployment, before.core, feeds, now, order, amount);
      r := Trade(order, amount, fee, now, swap);
      if r.Err? {
        cancelledOrders, gov, ledger := before.core.cancelledOrders, before.core.gov, before.core.ledger;
        dcaExecutions, dcaLastExecution := before.core.dcaExecutions, before.core.dcaLastExecution;
        nonces, invalidatedNonces := before.nonces, before.invalidated;
      }
    }
  }
}
