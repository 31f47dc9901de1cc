/** The administrator's side of the executor: timelocked changes, one-time bootstrap, pause, and feed settings. */
module GovernanceRules {
  import opened Ledger
  import opened ExecutorTypes

  function Delay(action: Action): nat {
    match action
    case SetRouter(_, _) => TIMELOCK_ROUTER_CHANGE
    case SetAdmin(_) => TIMELOCK_ADMIN_TRANSFER
    case Sweep(_) => TIMELOCK_SWEEP
    case SetTokenUsdFeed(_, _, _, _) => TIMELOCK_ORACLE_CHANGE
  }

  predicate NamesZeroAddress(action: Action) {
    match action
    case SetRouter(router, _) => router == ZERO_ADDRESS
    case SetAdmin(newAdmin) => newAdmin == ZERO_ADDRESS
    case Sweep(_) => false
    case SetTokenUsdFeed(token, feed, _, _) => token == ZERO_ADDRESS || feed == ZERO_ADDRESS
  }

  function Queue(g: Governance, now: nat, caller: Address, action: Action): Result<Governance> {
    var _ :- Check(caller == g.admin, NotAdmin);
    var _ :- Check(!NamesZeroAddress(action), ZeroAddress);
    var id := ActionId(action, now);
    var _ :- Check(id !in g.timelock, TimelockAlreadyQueued);
    var readyAt :- Checked(now + Delay(action));
    Ok(g.(timelock := g.timelock[id := readyAt]))
  }

  /** A feed is accepted only if it answers with a positive, recent price in 8 or 18 decimals. */
  function ValidateFeed(feeds: FeedTable, feed: Address): Result<Round> {
    var _ :- Check(feed in feeds, NoCode);
    var round := feeds[feed];
    var _ :- Check(round.decimals == 8 || round.decimals == 18, UnexpectedDecimals);
    Ok(round)
  }

  function ValidateAnswer(round: Round, now: nat): Result<()> {
    var _ :- Check(0 < round.answer, InvalidFeedPrice);
    var age :- Elapsed(now, round.updatedAt);
    Check(age < FEED_DEAD_AFTER, FeedDead)
  }

  /** The change itself, once its timelock has run out. */
  function Perform(d: Deployment, s: State, feeds: FeedTable, now: nat, action: Action): Result<State> {
    match action
    case SetRouter(router, status) =>
      Ok(s.(gov := s.gov.(routers := if status then s.gov.routers + {router} else s.gov.routers - {router})))
    case SetAdmin(newAdmin) =>
      Ok(s.(gov := s.gov.(admin := newAdmin)))
    case Sweep(token) =>
      Ok(s.(ledger := if token == ZERO_ADDRESS then s.ledger
                      else s.ledger.Move(token, d.self, s.gov.admin, s.ledger.Balance(token, d.self))))
    case SetTokenUsdFeed(token, feed, tokenDecimals, maxStaleness) =>
      var round :- ValidateFeed(feeds, feed);
      var _ :- Check(1 <= tokenDecimals <= 18, UnexpectedDecimals);
      var _ :- ValidateAnswer(round, now);
      var entry := TokenUsdFeed(feed, round.decimals, tokenDecimals, maxStaleness);
      Ok(s.(gov := s.gov.(tokenUsdFeeds := s.gov.tokenUsdFeeds[token := entry])))
  }

  function ExecuteAction(
      d: Deployment, s: State, feeds: FeedTable, now: nat, caller: Address, id: ActionId,
      action: Action): Result<State> {
    var g := s.gov;
    var _ :- Check(caller == g.admin, NotAdmin);
    var _ :- Check(id in g.timelock, TimelockNotQueued);
    var _ :- Check(g.timelock[id] <= now, TimelockNotReady);
    var deadline :- Checked(g.timelock[id] + TIMELOCK_GRACE);
    var _ :- Check(now <= deadline, TimelockExpired);
    var _ :- Check(id.action == action, TimelockHashMismatch);
    Perform(d, s.(gov := g.(timelock := g.timelock - {id})), feeds, now, action)
  }

  function CancelAction(g: Governance, caller: Address, id: ActionId): Result<Governance> {
    var _ :- Check(caller == g.admin, NotAdmin);
    var _ :- Check(id in g.timelock, TimelockNotQueued);
    Ok(g.(timelock := g.timelock - {id}))
  }

  /** One-time setup without a timelock; `code` is the set of addresses that hold a contract. */
  function Bootstrap(
      g: Governance, caller: Address, code: set<Address>, routers: seq<Address>,
      executors: seq<Address>): Result<Governance> {
    var _ :- Check(caller == g.admin, NotAdmin);
    var _ :- Check(!g.bootstrapped, AlreadyBootstrapped);
    var _ :- CheckRouters(code, routers);
    var _ :- Check(ZERO_ADDRESS !in executors, ZeroAddress);
    Ok(g.(bootstrapped := true,
          routers := g.routers + (set r | r in routers),
          executors := g.executors + (set e | e in executors)))
  }

  /** The first router that is not a deployed contract decides the error. */
  function CheckRouters(code: set<Address>, routers: seq<Address>): Result<()> {
    if routers == [] then Ok(())
    else
      var _ :- Check(routers[0] != ZERO_ADDRESS, ZeroAddress);
      var _ :- Check(routers[0] in code, NotAContract);
      CheckRouters(code, routers[1..])
  }

  function ProposeExecutor(
      g: Governance, now: nat, caller: Address, executor: Address, status: bool): Result<Governance> {
    var _ :- Check(caller == g.admin, NotAdmin);
    var _ :- Check(executor != ZERO_ADDRESS, ZeroAddress);
    var _ :- Check(executor !in g.proposals, ProposalAlreadyExists);
    var executeAfter :- Checked(now + TIMELOCK_EXECUTOR_CHANGE);
    Ok(g.(proposals := g.proposals[executor := Proposal(status, executeAfter)]))
  }

  function ExecuteExecutorChange(g: Governance, now: nat, caller: Address, executor: Address): Result<Governance> {
    var _ :- Check(caller == g.admin, NotAdmin);
    var _ :- Check(executor in g.proposals, NoActiveProposal);
    var proposal := g.proposals[executor];
    var _ :- Check(proposal.executeAfter <= now, TimelockNotExpired);
    var deadline :- Checked(proposal.executeAfter + TIMELOCK_GRACE);
    var _ :- Check(now <= deadline, ProposalExpired);
    Ok(g.(proposals := g.proposals - {executor},
          executors := if proposal.newStatus then g.executors + {executor} else g.executors - {executor}))
  }

  function CancelExecutorProposal(g: Governance, caller: Address, executor: Address): Result<Governance> {
    var _ :- Check(caller == g.admin, NotAdmin);
    var _ :- Check(executor in g.proposals, NoActiveProposal);
    Ok(g.(proposals := g.proposals - {executor}))
  }

  function SetPaused(g: Governance, caller: Address, paused: bool): Result<Governance> {
    var _ :- Check(caller == g.admin, NotAdmin);
    Ok(g.(paused := paused))
  }

  /** Trigger-feed bounds take effect at once. */
  function SetOracleConfig(
      g: Governance, feeds: FeedTable, now: nat, caller: Address, feed: Address, maxStaleness: nat, minPrice: int,
      maxPrice: int): Result<Governance> {
    var _ :- Check(caller == g.admin, NotAdmin);
    var _ :- Check(feed != ZERO_ADDRESS, ZeroAddress);
    var round :- ValidateFeed(feeds, feed);
    var _ :- ValidateAnswer(round, now);
    Ok(g.(oracleConfigs := g.oracleConfigs[feed := OracleConfig(round.decimals, maxStaleness, minPrice, maxPrice)]))
  }

  datatype Command =
    | QueueAction(action: Action)
    | RunAction(id: ActionId, action: Action)
    | DropAction(id: ActionId)
    | Setup(code: set<Address>, routers: seq<Address>, executors: seq<Address>)
    | Propose(executor: Address, status: bool)
    | RunProposal(executor: Address)
    | DropProposal(executor: Address)
    | SwitchPause(paused: bool)
    | ConfigureOracle(feed: Address, maxStaleness: nat, minPrice: int, maxPrice: int)

  function Govern(g: Governance, feeds: FeedTable, now: nat, caller: Address, command: Command): Result<Governance>
    requires !command.RunAction?
  {
    match command
    case QueueAction(action) => Queue(g, now, caller, action)
    case DropAction(id) => CancelAction(g, caller, id)
    case Setup(code, routers, executors) => Bootstrap(g, caller, code, routers, executors)
    case Propose(executor, status) => ProposeExecutor(g, now, caller, executor, status)
    case RunProposal(executor) => ExecuteExecutorChange(g, now, caller, executor)
    case DropProposal(executor) => CancelExecutorProposal(g, caller, executor)
    case SwitchPause(paused) => SetPaused(g, caller, paused)
    case ConfigureOracle(feed, maxStaleness, minPrice, maxPrice) =>
      SetOracleConfig(g, feeds, now, caller, feed, maxStaleness, minPrice, maxPrice)
  }

  /** Every administrative command leaves the order book alone. */
  function Administer(
      d: Deployment, s: State, feeds: FeedTable, now: nat, caller: Address, command: Command): (r: Result<State>)
    ensures r.Ok? ==> r.value == s.(gov := r.value.gov, ledger := r.value.ledger)
  {
    if command.RunAction? then ExecuteAction(d, s, feeds, now, caller, command.id, command.action)
    else
      var gov :- Govern(s.gov, feeds, now, caller, command);
      Ok(s.(gov := gov))
  }
}
