/** The order executor's data: orders, governance settings, price feeds, and the reasons a call reverts. */
module ExecutorTypes {
  import opened Ledger

  // ── Constants ──

  const FEE_BPS: nat := 10
  const BPS_DENOMINATOR: nat := 10_000
  const MAX_STALENESS: nat := 300
  const MIN_ORDER_AMOUNT: nat := 10_000
  const MAX_ORDER_SLIPPAGE_BPS: nat := 500
  const SEQUENCER_GRACE_PERIOD: nat := 3600
  const FEED_DEAD_AFTER: nat := 86_400
  const TIMELOCK_ADMIN_TRANSFER: nat := 7 * 86_400
  const TIMELOCK_ROUTER_CHANGE: nat := 48 * 3600
  const TIMELOCK_SWEEP: nat := 48 * 3600
  const TIMELOCK_EXECUTOR_CHANGE: nat := 48 * 3600
  const TIMELOCK_ORACLE_CHANGE: nat := 48 * 3600
  const TIMELOCK_GRACE: nat := 7 * 86_400

  /** One more than the largest 256-bit word. */
  const WORD: nat := 0x1_0000_0000_0000_0000_0000_0000_0000_0000_0000_0000_0000_0000_0000_0000_0000_0000

  // ── Orders ──

  datatype OrderType = LIMIT | STOP_LOSS | DCA

  datatype PriceCondition = ABOVE | BELOW

  datatype Option<+T> = None | Some(value: T)

  /** Router calldata; an order commits to it through its hash, here the calldata itself (`None` is the zero hash). */
  type RouterData = seq<nat>

  /** A signed order. Its hash is taken to be injective, so the order stands for its own hash. */
  datatype Order = Order(
    owner: Address,
    tokenIn: Address,
    tokenOut: Address,
    amountIn: nat,
    minAmountOut: nat,
    maxSlippageBps: nat,
    orderType: OrderType,
    condition: PriceCondition,
    targetPrice: nat,
    priceFeed: Address,
    expiry: nat,
    nonce: nat,
    router: Address,
    routerDataHash: Option<RouterData>,
    dcaInterval: nat,
    dcaTotal: nat)

  // ── Price feeds ──

  /** What a feed contract answers; an address missing from the table has no code there. */
  datatype Round = Round(roundId: nat, answer: int, startedAt: nat, updatedAt: nat, answeredInRound: nat, decimals: nat)

  type FeedTable = map<Address, Round>

  datatype OracleConfig = OracleConfig(decimals: nat, maxStaleness: nat, minPrice: int, maxPrice: int)

  datatype TokenUsdFeed = TokenUsdFeed(feed: Address, feedDecimals: nat, tokenDecimals: nat, maxStaleness: nat)

  // ── Governance ──

  /** A change that has to wait out a timelock; the hash of its encoding is taken to be injective. */
  datatype Action =
    | SetRouter(router: Address, status: bool)
    | SetAdmin(newAdmin: Address)
    | Sweep(token: Address)
    | SetTokenUsdFeed(token: Address, feed: Address, tokenDecimals: nat, maxStaleness: nat)

  /** A queued change is identified by its content and the block time it was queued at. */
  datatype ActionId = ActionId(action: Action, queuedAt: nat)

  datatype Proposal = Proposal(newStatus: bool, executeAfter: nat)

  datatype Governance = Governance(
    admin: Address,
    paused: bool,
    bootstrapped: bool,
    routers: set<Address>,
    executors: set<Address>,
    timelock: map<ActionId, nat>,
    proposals: map<Address, Proposal>,
    oracleConfigs: map<Address, OracleConfig>,
    tokenUsdFeeds: map<Address, TokenUsdFeed>)

  // ── The contract ──

  /** Fixed at deployment. */
  datatype Deployment = Deployment(self: Address, feeRecipient: Address, weth: Address, sequencerFeed: Address)

  /**
   * Everything a call can change. A 256-bit bitmap word is the set of its one-bits; an absent key of a map reads zero.
   */
  datatype State = State(
    nonceBitmap: map<(Address, nat), set<nat>>,
    cancelledOrders: set<Order>,
    dcaExecutions: map<Order, nat>,
    dcaLastExecution: map<Order, nat>,
    gov: Governance,
    ledger: Ledger)
  {
    function Word(owner: Address, wordPos: nat): set<nat> {
      if (owner, wordPos) in nonceBitmap then nonceBitmap[(owner, wordPos)] else {}
    }

    predicate NonceUsed(owner: Address, nonce: nat) {
      nonce % 256 in Word(owner, nonce / 256)
    }

    function Executions(order: Order): nat {
      if order in dcaExecutions then dcaExecutions[order] else 0
    }

    function LastExecution(order: Order): nat {
      if order in dcaLastExecution then dcaLastExecution[order] else 0
    }
  }

  // ── Results ──

  datatype Revert =
    | NotExecutor | ContractPaused | SlippageTooHigh | InvalidMinOutput | OrderTooSmall | InvalidSignature
    | OrderCancelled | OrderExpired | RouterNotWhitelisted | RouterDataRequired | RouterDataMismatch
    | InvalidDCATotal | InvalidDCAInterval | DCAComplete | DCAIntervalNotReached | DCAChunkTooSmall | InvalidNonce
    | PriceConditionNotMet | InsufficientBalance | InsufficientAllowance | OracleValueZero | SwapFailed
    | InsufficientOutput | ETHTransferFailed
    | NotOwner | NotAdmin | ZeroAddress | NotAContract | AlreadyBootstrapped
    | TimelockAlreadyQueued | TimelockNotQueued | TimelockNotReady | TimelockExpired | TimelockHashMismatch
    | ProposalAlreadyExists | NoActiveProposal | TimelockNotExpired | ProposalExpired
    | UnexpectedDecimals | InvalidFeedPrice | FeedDead | NoCode
    | NonceBelowInvalidation | OrderAlreadyExecuted | MustIncrease | NonceTooHigh
    | Panic // checked arithmetic left the 256-bit range

  datatype Result<+T> = Ok(value: T) | Err(error: Revert)
  {
    predicate IsFailure() {
      Err?
    }

    function PropagateFailure<U>(): Result<U>
      requires Err?
    {
      Err(error)
    }

    function Extract(): T
      requires Ok?
    {
      value
    }
  }

  /** Passes exactly when the condition holds. */
  function Check(condition: bool, error: Revert): Result<()> {
    if condition then Ok(()) else Err(error)
  }

  /** Time gone by since an earlier block or answer; one in the future underflows. */
  function Elapsed(now: nat, since: nat): Result<nat> {
    if since <= now then Ok(now - since) else Err(Panic)
  }

  /** A number that has to fit one word. */
  function Checked(n: int): Result<nat> {
    if 0 <= n < WORD then Ok(n) else Err(Panic)
  }
}
