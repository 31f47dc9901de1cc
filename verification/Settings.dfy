/** What each administrative command needs, and what it makes of every setting and every pending change. */
module Settings {
  import opened Ledger
  import opened ExecutorTypes
  import opened GovernanceRules

  /** One entry of the contract's settings and queues, and its value. */
  datatype Setting =
    | RouterStatus(router: Address)
    | Administrator
    | FeedOf(token: Address)
    | ExecutorStatus(executor: Address)
    | Paused
    | BoundsOf(trigger: Address)
    | SetUp
    | PendingAction(id: ActionId)
    | PendingProposal(candidate: Address)

  datatype Value =
    | Flag(on: bool)
    | Account(who: Address)
    | Feed(entry: Option<TokenUsdFeed>)
    | Bounds(config: Option<OracleConfig>)
    | ReadyAt(time: Option<nat>)
    | Change(proposal: Option<Proposal>)

  function Get(g: Governance, setting: Setting): Value {
    match setting
    case RouterStatus(router) => Flag(router in g.routers)
    case Administrator => Account(g.admin)
    case FeedOf(token) => Feed(if token in g.tokenUsdFeeds then Some(g.tokenUsdFeeds[token]) else None)
    case ExecutorStatus(executor) => Flag(executor in g.executors)
    case Paused => Flag(g.paused)
    case BoundsOf(trigger) => Bounds(if trigger in g.oracleConfigs then Some(g.oracleConfigs[trigger]) else None)
    case SetUp => Flag(g.bootstrapped)
    case PendingAction(id) => ReadyAt(if id in g.timelock then Some(g.timelock[id]) else None)
    case PendingProposal(candidate) => Change(if candidate in g.proposals then Some(g.proposals[candidate]) else None)
  }

  /** Two days of notice, a week for a new administrator. */
  function Notice(action: Action): nat {
    if action.SetAdmin? then 604_800 else 172_800
  }

  /** From a time on, for a week. */
  predicate InWindow(readyAt: nat, now: nat) {
    readyAt <= now <= readyAt + 604_800 < WORD
  }

  /** A feed that can be registered: it answers with a positive price of less than a day in 8 or 18 decimals. */
  predicate Registrable(feeds: FeedTable, now: nat, feed: Address) {
    && feed in feeds
    && (feeds[feed].decimals == 8 || feeds[feed].decimals == 18)
    && 0 < feeds[feed].answer
    && 0 <= now - feeds[feed].updatedAt < 86_400
  }

  /** What a command needs besides coming from the administrator. */
  predicate Permitted(g: Governance, feeds: FeedTable, now: nat, command: Command) {
    match command
    case QueueAction(action) =>
      && (action.SetRouter? ==> action.router != ZERO_ADDRESS)
      && (action.SetAdmin? ==> action.newAdmin != ZERO_ADDRESS)
      && (action.SetTokenUsdFeed? ==> action.token != ZERO_ADDRESS && action.feed != ZERO_ADDRESS)
      && ActionId(action, now) !in g.timelock && now + Notice(action) < WORD
    case RunAction(id, action) =>
      && id in g.timelock && id.action == action && InWindow(g.timelock[id], now)
      && (action.SetTokenUsdFeed? ==> Registrable(feeds, now, action.feed) && 1 <= action.tokenDecimals <= 18)
    case DropAction(id) => id in g.timelock
    case Setup(code, routers, executors) =>
      && !g.bootstrapped
      && (forall router :: router in routers ==> router != ZERO_ADDRESS && router in code)
      && ZERO_ADDRESS !in executors
    case Propose(executor, _) =>
      executor != ZERO_ADDRESS && executor !in g.proposals && now + 172_800 < WORD
    case RunProposal(executor) => executor in g.proposals && InWindow(g.proposals[executor].executeAfter, now)
    case DropProposal(executor) => executor in g.proposals
    case SwitchPause(_) => true
    case ConfigureOracle(feed, _, _, _) => feed != ZERO_ADDRESS && Registrable(feeds, now, feed)
  }

  /** Every entry after a command has gone through, entry by entry. */
  function After(g: Governance, feeds: FeedTable, now: nat, command: Command, setting: Setting): Value {
    match setting
    case RouterStatus(router) =>
      if command.RunAction? && command.action.SetRouter? && command.action.router == router
      then Flag(command.action.status)
      else if command.Setup? && router in command.routers then Flag(true)
      else Get(g, setting)
    case Administrator =>
      if command.RunAction? && command.action.SetAdmin? then Account(command.action.newAdmin) else Get(g, setting)
    case FeedOf(token) =>
      if command.RunAction? && command.action.SetTokenUsdFeed? && command.action.token == token
          && command.action.feed in feeds
      then Feed(Some(TokenUsdFeed(command.action.feed, feeds[command.action.feed].decimals,
                                  command.action.tokenDecimals, command.action.maxStaleness)))
      else Get(g, setting)
    case ExecutorStatus(executor) =>
      if command == RunProposal(executor) && executor in g.proposals then Flag(g.proposals[executor].newStatus)
      else if command.Setup? && executor in command.executors then Flag(true)
      else Get(g, setting)
    case Paused => if command.SwitchPause? then Flag(command.paused) else Get(g, setting)
    case BoundsOf(trigger) =>
      if command.ConfigureOracle? && command.feed == trigger && trigger in feeds
      then Bounds(Some(OracleConfig(feeds[trigger].decimals, command.maxStaleness, command.minPrice, command.maxPrice)))
      else Get(g, setting)
    case SetUp => if command.Setup? then Flag(true) else Get(g, setting)
    case PendingAction(id) =>
      if command == QueueAction(id.action) && id.queuedAt == now then ReadyAt(Some(now + Notice(id.action)))
      else if (command.RunAction? || command.DropAction?) && command.id == id then ReadyAt(None)
      else Get(g, setting)
    case PendingProposal(candidate) =>
      if command.Propose? && command.executor == candidate then
        Change(Some(Proposal(command.status, now + 172_800)))
      else if command == RunProposal(candidate) || command == DropProposal(candidate) then Change(None)
      else Get(g, setting)
  }

  lemma FeedIsRegistrable(feeds: FeedTable, now: nat, feed: Address)
    ensures Registrable(feeds, now, feed)
       <==> ValidateFeed(feeds, feed).Ok? && ValidateAnswer(ValidateFeed(feeds, feed).value, now).Ok?
    ensures ValidateFeed(feeds, feed).Ok? ==> feed in feeds && ValidateFeed(feeds, feed).value == feeds[feed]
  {
  }

  lemma {:induction false} RoutersPass(code: set<Address>, routers: seq<Address>)
    ensures CheckRouters(code, routers).Ok?
       <==> forall router :: router in routers ==> router != ZERO_ADDRESS && router in code
  {
    if routers != [] {
      RoutersPass(code, routers[1..]);
      assert forall router :: router in routers <==> router == routers[0] || router in routers[1..];
    }
  }

  lemma ActionExactly(
    d: Deployment, s: State, feeds: FeedTable, now: nat, caller: Address, id: ActionId, action: Action,
    setting: Setting)
    ensures
      var r := ExecuteAction(d, s, feeds, now, caller, id, action);
      && (r.Ok? <==> caller == s.gov.admin && Permitted(s.gov, feeds, now, RunAction(id, action)))
      && (r.Ok? ==> Get(r.value.gov, setting) == After(s.gov, feeds, now, RunAction(id, action), setting))
  {
    hide ValidateFeed, ValidateAnswer, Registrable;
    if action.SetTokenUsdFeed? {
      FeedIsRegistrable(feeds, now, action.feed);
    }
  }

  /** Commands that announce a change, take an announcement back, or carry out an announced executor change. */
  lemma QueueingExactly(
    g: Governance, feeds: FeedTable, now: nat, caller: Address, command: Command, setting: Setting)
    requires command.QueueAction? || command.DropAction? || command.Propose? || command.RunProposal?
          || command.DropProposal?
    ensures
      var r := Govern(g, feeds, now, caller, command);
      && (r.Ok? <==> caller == g.admin && Permitted(g, feeds, now, command))
      && (r.Ok? ==> Get(r.value, setting) == After(g, feeds, now, command, setting))
  {
    hide Registrable;
  }

  /** Commands that take effect at once. */
  lemma AtOnceExactly(
    g: Governance, feeds: FeedTable, now: nat, caller: Address, command: Command, setting: Setting)
    requires command.Setup? || command.SwitchPause? || command.ConfigureOracle?
    ensures
      var r := Govern(g, feeds, now, caller, command);
      && (r.Ok? <==> caller == g.admin && Permitted(g, feeds, now, command))
      && (r.Ok? ==> Get(r.value, setting) == After(g, feeds, now, command, setting))
  {
    hide ValidateFeed, ValidateAnswer, Registrable, CheckRouters;
    match command
    case Setup(code, routers, executors) => RoutersPass(code, routers);
    case ConfigureOracle(feed, _, _, _) => FeedIsRegistrable(feeds, now, feed);
    case _ =>
  }

  /**
   * A command goes through if and only if the administrator gives it and what it needs holds; then every setting, queue
   * entry and proposal has exactly the value it should.
   */
  lemma AdministerExactly(
    d: Deployment, s: State, feeds: FeedTable, now: nat, caller: Address, command: Command, setting: Setting)
    ensures
      var r := Administer(d, s, feeds, now, caller, command);
      && (r.Ok? <==> caller == s.gov.admin && Permitted(s.gov, feeds, now, command))
      && (r.Ok? ==> Get(r.value.gov, setting) == After(s.gov, feeds, now, command, setting))
  {
    hide Permitted, After, Get, Govern, ExecuteAction;
    if command.RunAction? {
      ActionExactly(d, s, feeds, now, caller, command.id, command.action, setting);
    } else if command.Setup? || command.SwitchPause? || command.ConfigureOracle? {
      AtOnceExactly(s.gov, feeds, now, caller, command, setting);
    } else {
      QueueingExactly(s.gov, feeds, now, caller, command, setting);
    }
  }

  /**
   * Only a sweep moves tokens: everything the contract has of one token goes to whoever is the administrator then, and
   * no other balance and no approval changes.
   */
  lemma OnlySweepsMoveTokens(
    d: Deployment, s: State, feeds: FeedTable, now: nat, caller: Address, command: Command, token: Address,
    holder: Address)
    requires Administer(d, s, feeds, now, caller, command).Ok?
    ensures
      var before, after := s.ledger, Administer(d, s, feeds, now, caller, command).value.ledger;
      var swept := command.RunAction? && command.action == Sweep(token) && token != ZERO_ADDRESS
          && s.gov.admin != d.self;
      && after.allowances == before.allowances
      && after.Balance(token, holder)
         == if swept && holder == d.self then 0
            else if swept && holder == s.gov.admin then before.Balance(token, holder) + before.Balance(token, d.self)
            else before.Balance(token, holder)
  {
    hide Govern, ValidateFeed, ValidateAnswer;
  }
}
