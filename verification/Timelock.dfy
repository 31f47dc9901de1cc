/** Every setting change of a run was announced in it, long enough and not too long before. */
module Timelock {
  import opened Ledger
  import opened ExecutorTypes
  import opened Execution
  import opened GovernanceRules
  import opened Machine
  import opened Settings

  /** The timelocked action asks for this value of this setting; a feed's own decimals are read when it runs. */
  predicate AsksFor(action: Action, setting: Setting, value: Value) {
    match action
    case SetRouter(router, status) => setting == RouterStatus(router) && value == Flag(status)
    case SetAdmin(newAdmin) => setting == Administrator && value == Account(newAdmin)
    case Sweep(_) => false
    case SetTokenUsdFeed(token, feed, tokenDecimals, maxStaleness) =>
      && setting == FeedOf(token) && value.Feed? && value.entry.Some?
      && value.entry.value.feed == feed && value.entry.value.tokenDecimals == tokenDecimals
      && value.entry.value.maxStaleness == maxStaleness
  }

  /** The one-time setup switches its routers and executors on, and nothing else. */
  predicate SetsUp(command: Command, setting: Setting, value: Value) {
    && command.Setup? && value == Flag(true)
    && match setting
       case RouterStatus(router) => router in command.routers
       case ExecutorStatus(executor) => executor in command.executors
       case SetUp => true
       case _ => false
  }

  /** Pausing and trigger bounds are the only settings without notice. */
  predicate SetsAtOnce(command: Command, feeds: FeedTable, setting: Setting, value: Value) {
    match setting
    case Paused => command.SwitchPause? && value == Flag(command.paused)
    case BoundsOf(trigger) =>
      && command.ConfigureOracle? && command.feed == trigger && trigger in feeds
      && value == Bounds(Some(OracleConfig(feeds[trigger].decimals, command.maxStaleness, command.minPrice,
                                           command.maxPrice)))
    case _ => false
  }

  /** The administrator of that moment gave the command, and it went through. */
  predicate Succeeds(d: Deployment, s: State, tx: Tx, command: Command) {
    tx.call.Admin? && tx.call.caller == s.gov.admin && tx.call.command == command && Apply(d, s, tx).Ok?
  }

  /** Transaction `j` of the run is a successful command. */
  predicate SucceedsAt(d: Deployment, s: State, txs: seq<Tx>, j: nat, command: Command) {
    j < |txs| && Succeeds(d, Run(d, s, txs[..j]), txs[j], command)
  }

  lemma OnlyCommandsChangeSettings(d: Deployment, s: State, tx: Tx)
    requires !tx.call.Admin? || Apply(d, s, tx).Err?
    ensures Step(d, s, tx).gov == s.gov
  {
    hide ExecuteOrder, Administer;
    var call := tx.call;
    if call.Execute?
        && ExecuteOrder(d, s, tx.feeds, tx.now, call.caller, call.order, call.signer, call.routerData, call.swap).Ok? {
      FillFrame(d, s, tx.feeds, tx.now, call.caller, call.order, call.signer, call.routerData, call.swap);
    }
  }

  /**
   * Nobody but the administrator changes any setting, queue entry or proposal, and the administrator only by a command
   * that goes through.
   */
  lemma SettingAfterStep(d: Deployment, s: State, tx: Tx, setting: Setting)
    ensures tx.call.Admin? && Apply(d, s, tx).Ok? ==>
              && tx.call.caller == s.gov.admin && Permitted(s.gov, tx.feeds, tx.now, tx.call.command)
              && Get(Step(d, s, tx).gov, setting) == After(s.gov, tx.feeds, tx.now, tx.call.command, setting)
    ensures tx.call.Admin? && tx.call.caller == s.gov.admin && Permitted(s.gov, tx.feeds, tx.now, tx.call.command) ==>
              Apply(d, s, tx).Ok?
    ensures !tx.call.Admin? || Apply(d, s, tx).Err? ==> Get(Step(d, s, tx).gov, setting) == Get(s.gov, setting)
  {
    hide ExecuteOrder, Administer, Permitted, After, Get;
    if tx.call.Admin? {
      AdministerExactly(d, s, tx.feeds, tx.now, tx.call.caller, tx.call.command, setting);
    }
    if !tx.call.Admin? || Apply(d, s, tx).Err? {
      OnlyCommandsChangeSettings(d, s, tx);
    }
  }

  // ── Queue, wait, execute ──

  lemma TimelockStep(d: Deployment, s: State, tx: Tx, id: ActionId)
    ensures id in Step(d, s, tx).gov.timelock ==>
              || (id in s.gov.timelock && Step(d, s, tx).gov.timelock[id] == s.gov.timelock[id])
              || (Succeeds(d, s, tx, QueueAction(id.action)) && tx.now == id.queuedAt
                  && Step(d, s, tx).gov.timelock[id] == tx.now + Notice(id.action))
    ensures forall action :: Succeeds(d, s, tx, RunAction(id, action)) ==>
              && id.action == action && id in s.gov.timelock && id !in Step(d, s, tx).gov.timelock
              && InWindow(s.gov.timelock[id], tx.now)
    ensures id in s.gov.timelock && id !in Step(d, s, tx).gov.timelock ==>
              Succeeds(d, s, tx, RunAction(id, id.action)) || Succeeds(d, s, tx, DropAction(id))
  {
    hide Step, Apply, Notice;
    SettingAfterStep(d, s, tx, PendingAction(id));
  }

  lemma EarlierSuccess(d: Deployment, s: State, txs: seq<Tx>, j: nat, command: Command)
    requires txs != []
    ensures SucceedsAt(d, s, txs[..|txs| - 1], j, command) ==> SucceedsAt(d, s, txs, j, command)
    ensures j < |txs| - 1 && SucceedsAt(d, s, txs, j, command) ==> SucceedsAt(d, s, txs[..|txs| - 1], j, command)
  {
    if j < |txs| - 1 {
      assert txs[..|txs| - 1][..j] == txs[..j];
    }
  }

  /** The run contains the queueing of this very action, at the block time the action is named after. */
  ghost predicate Announced(d: Deployment, s: State, txs: seq<Tx>, id: ActionId) {
    exists j: nat :: SucceedsAt(d, s, txs, j, QueueAction(id.action)) && txs[j].now == id.queuedAt
  }

  lemma AnnouncedStays(d: Deployment, s: State, txs: seq<Tx>, id: ActionId)
    requires txs != [] && Announced(d, s, txs[..|txs| - 1], id)
    ensures Announced(d, s, txs, id)
  {
    var j: nat :| SucceedsAt(d, s, txs[..|txs| - 1], j, QueueAction(id.action))
        && txs[..|txs| - 1][j].now == id.queuedAt;
    EarlierSuccess(d, s, txs, j, QueueAction(id.action));
  }

  lemma {:induction false} PendingWasAnnounced(d: Deployment, s: State, txs: seq<Tx>, id: ActionId)
    requires s.gov.timelock == map[] && id in Run(d, s, txs).gov.timelock
    ensures Announced(d, s, txs, id)
    ensures Run(d, s, txs).gov.timelock[id] == id.queuedAt + Notice(id.action)
  {
    hide Apply, Notice, Announced;
    if txs != [] {
      var last := |txs| - 1;
      var before := Run(d, s, txs[..last]);
      TimelockStep(d, before, txs[last], id);
      if id in before.gov.timelock && Run(d, s, txs).gov.timelock[id] == before.gov.timelock[id] {
        PendingWasAnnounced(d, s, txs[..last], id);
        AnnouncedStays(d, s, txs, id);
      } else {
        JustAnnounced(d, s, txs, id);
      }
    }
  }

  lemma JustAnnounced(d: Deployment, s: State, txs: seq<Tx>, id: ActionId)
    requires txs != [] && SucceedsAt(d, s, txs, |txs| - 1, QueueAction(id.action)) && txs[|txs| - 1].now == id.queuedAt
    ensures Announced(d, s, txs, id)
  {
  }

  /**
   * An action that runs carries the arguments of an earlier queue transaction, and runs no sooner than its delay
   * after that block and no later than the grace period after it became ready.
   */
  lemma ActionWasAnnounced(d: Deployment, s: State, txs: seq<Tx>, tx: Tx, id: ActionId, action: Action)
    requires s.gov.timelock == map[] && Succeeds(d, Run(d, s, txs), tx, RunAction(id, action))
    ensures id.action == action && Announced(d, s, txs, id)
    ensures InWindow(id.queuedAt + Notice(action), tx.now)
  {
    hide Apply, Notice, Announced;
    TimelockStep(d, Run(d, s, txs), tx, id);
    PendingWasAnnounced(d, s, txs, id);
  }

  /** What is queued stays, with its time, until the administrator runs it or takes it back. */
  lemma {:induction false} PendingUntilUsed(d: Deployment, s: State, txs: seq<Tx>, id: ActionId)
    requires id in s.gov.timelock && forall tx :: tx in txs ==> id.queuedAt < tx.now
    ensures id in Run(d, s, txs).gov.timelock ==> Run(d, s, txs).gov.timelock[id] == s.gov.timelock[id]
    ensures id in Run(d, s, txs).gov.timelock
         || exists i: nat ::
              SucceedsAt(d, s, txs, i, RunAction(id, id.action)) || SucceedsAt(d, s, txs, i, DropAction(id))
  {
    hide Apply, Notice;
    if txs != [] {
      var last := |txs| - 1;
      var before := Run(d, s, txs[..last]);
      PendingUntilUsed(d, s, txs[..last], id);
      TimelockStep(d, before, txs[last], id);
      if id in before.gov.timelock {
        assert id !in Run(d, s, txs).gov.timelock ==>
          SucceedsAt(d, s, txs, last, RunAction(id, id.action)) || SucceedsAt(d, s, txs, last, DropAction(id));
      } else {
        var i: nat :| SucceedsAt(d, s, txs[..last], i, RunAction(id, id.action))
            || SucceedsAt(d, s, txs[..last], i, DropAction(id));
        EarlierSuccess(d, s, txs, i, RunAction(id, id.action));
        EarlierSuccess(d, s, txs, i, DropAction(id));
        GoneForGood(d, before, [txs[last]], id);
      }
    }
  }

  /**
   * An announced change can be made: unless it was run or taken back in between, the administrator's call in its window
   * goes through, for a feed if that can be registered then.
   */
  lemma AnnouncedChangeCanBeMade(d: Deployment, s: State, txs: seq<Tx>, tx: Tx, id: ActionId)
    requires id in s.gov.timelock && forall tx :: tx in txs ==> id.queuedAt < tx.now
    requires forall i: nat ::
      !SucceedsAt(d, s, txs, i, RunAction(id, id.action)) && !SucceedsAt(d, s, txs, i, DropAction(id))
    requires tx.call == Admin(Run(d, s, txs).gov.admin, RunAction(id, id.action))
    ensures Apply(d, Run(d, s, txs), tx).Ok?
       <==> && InWindow(s.gov.timelock[id], tx.now)
            && (id.action.SetTokenUsdFeed? ==>
                  Registrable(tx.feeds, tx.now, id.action.feed) && 1 <= id.action.tokenDecimals <= 18)
  {
    hide Apply, InWindow, Registrable, Run, SucceedsAt;
    PendingUntilUsed(d, s, txs, id);
    SettingAfterStep(d, Run(d, s, txs), tx, PendingAction(id));
  }

  // ── Each queued action runs at most once ──

  lemma {:induction false} GoneForGood(d: Deployment, s: State, txs: seq<Tx>, id: ActionId)
    requires id !in s.gov.timelock && forall tx :: tx in txs ==> id.queuedAt < tx.now
    ensures id !in Run(d, s, txs).gov.timelock
  {
    hide Apply;
    if txs != [] {
      GoneForGood(d, s, txs[..|txs| - 1], id);
      TimelockStep(d, Run(d, s, txs[..|txs| - 1]), txs[|txs| - 1], id);
    }
  }

  lemma SecondRunFails(d: Deployment, s: State, txs: seq<Tx>, i: nat, k: nat, id: ActionId)
    requires Chronological(txs) && s.gov.timelock == map[] && i < k < |txs|
    requires SucceedsAt(d, s, txs, i, RunAction(id, id.action))
    ensures !SucceedsAt(d, s, txs, k, RunAction(id, id.action))
  {
    hide Apply, Announced;
    ActionWasAnnounced(d, s, txs[..i], txs[i], id, id.action);
    var after, between := Run(d, s, txs[..i + 1]), txs[i + 1..k];
    assert txs[..i + 1] == txs[..i] + [txs[i]];
    TimelockStep(d, Run(d, s, txs[..i]), txs[i], id);
    forall tx | tx in between
      ensures id.queuedAt < tx.now
    {
      var m :| 0 <= m < |between| && between[m] == tx;
      assert txs[i].now <= txs[i + 1 + m].now;
    }
    GoneForGood(d, after, between, id);
    RunAppend(d, s, txs[..i + 1], between);
    assert txs[..i + 1] + between == txs[..k];
    TimelockStep(d, Run(d, s, txs[..k]), txs[k], id);
  }

  /** A queued action changes something once; the same arguments take effect again only if queued again. */
  lemma ActionRunsAtMostOnce(d: Deployment, s: State, txs: seq<Tx>, i: nat, k: nat, id: ActionId)
    requires Chronological(txs) && s.gov.timelock == map[]
    requires SucceedsAt(d, s, txs, i, RunAction(id, id.action)) && SucceedsAt(d, s, txs, k, RunAction(id, id.action))
    ensures i == k
  {
    hide Apply;
    if i < k {
      SecondRunFails(d, s, txs, i, k, id);
    } else if k < i {
      SecondRunFails(d, s, txs, k, i, id);
    }
  }

  /** The same arguments queued in two blocks are two actions, pending side by side; running one leaves the other. */
  lemma SameArgumentsTwice(
      d: Deployment, s: State, feeds: FeedTable, caller: Address, action: Action, t1: nat, t2: nat, now: nat)
    requires t1 != t2
    requires Queue(s.gov, t1, caller, action).Ok?
    requires Queue(Queue(s.gov, t1, caller, action).value, t2, caller, action).Ok?
    ensures
      var first, second := ActionId(action, t1), ActionId(action, t2);
      var both := s.(gov := Queue(Queue(s.gov, t1, caller, action).value, t2, caller, action).value);
      && both.gov.timelock[first] == t1 + Notice(action) && both.gov.timelock[second] == t2 + Notice(action)
      && (ExecuteAction(d, both, feeds, now, caller, first, action).Ok? ==>
            second in ExecuteAction(d, both, feeds, now, caller, first, action).value.gov.timelock)
  {
    hide ValidateFeed, ValidateAnswer;
  }

  // ── Executor proposals ──

  ghost predicate Proposed(d: Deployment, s: State, txs: seq<Tx>, executor: Address, p: Proposal) {
    exists j: nat :: SucceedsAt(d, s, txs, j, Propose(executor, p.newStatus))
             && p.executeAfter == txs[j].now + 172_800
  }

  lemma ProposedStays(d: Deployment, s: State, txs: seq<Tx>, executor: Address, p: Proposal)
    requires txs != [] && Proposed(d, s, txs[..|txs| - 1], executor, p)
    ensures Proposed(d, s, txs, executor, p)
  {
    var j: nat :| SucceedsAt(d, s, txs[..|txs| - 1], j, Propose(executor, p.newStatus))
          && p.executeAfter == txs[..|txs| - 1][j].now + 172_800;
    EarlierSuccess(d, s, txs, j, Propose(executor, p.newStatus));
  }

  lemma ProposalStep(d: Deployment, s: State, tx: Tx, executor: Address)
    requires executor in Step(d, s, tx).gov.proposals
    ensures var p := Step(d, s, tx).gov.proposals[executor];
            || (executor in s.gov.proposals && p == s.gov.proposals[executor])
            || (Succeeds(d, s, tx, Propose(executor, p.newStatus)) && p.executeAfter == tx.now + 172_800)
  {
    hide Step, Apply;
    SettingAfterStep(d, s, tx, PendingProposal(executor));
  }

  lemma {:induction false} ProposalWasMade(d: Deployment, s: State, txs: seq<Tx>, executor: Address)
    requires s.gov.proposals == map[] && executor in Run(d, s, txs).gov.proposals
    ensures Proposed(d, s, txs, executor, Run(d, s, txs).gov.proposals[executor])
  {
    hide Apply, Proposed;
    if txs != [] {
      var last := |txs| - 1;
      var before, p := Run(d, s, txs[..last]), Run(d, s, txs).gov.proposals[executor];
      ProposalStep(d, before, txs[last], executor);
      if executor in before.gov.proposals && p == before.gov.proposals[executor] {
        ProposalWasMade(d, s, txs[..last], executor);
        ProposedStays(d, s, txs, executor, p);
      } else {
        JustProposed(d, s, txs, executor, p);
      }
    }
  }

  lemma JustProposed(d: Deployment, s: State, txs: seq<Tx>, executor: Address, p: Proposal)
    requires txs != [] && SucceedsAt(d, s, txs, |txs| - 1, Propose(executor, p.newStatus))
    requires p.executeAfter == txs[|txs| - 1].now + 172_800
    ensures Proposed(d, s, txs, executor, p)
  {
  }

  // ── Settings ──

  /**
   * The administrator of transaction `i` made the change, and the administrator of an earlier one announced it, at
   * least two days before, or a week for a new administrator, and at most a week more.
   */
  ghost predicate ChangedByAnnouncedAction(
      d: Deployment, s: State, txs: seq<Tx>, i: nat, setting: Setting, value: Value) {
    exists id: ActionId ::
      && SucceedsAt(d, s, txs, i, RunAction(id, id.action))
      && AsksFor(id.action, setting, value)
      && Announced(d, s, txs[..i], id)
      && InWindow(id.queuedAt + Notice(id.action), txs[i].now)
  }

  ghost predicate ChangedByProposal(d: Deployment, s: State, txs: seq<Tx>, i: nat, setting: Setting, value: Value) {
    && setting.ExecutorStatus? && value.Flag?
    && SucceedsAt(d, s, txs, i, RunProposal(setting.executor))
    && exists p: Proposal :: Proposed(d, s, txs[..i], setting.executor, p) && p.newStatus == value.on
                          && InWindow(p.executeAfter, txs[i].now)
  }

  /** The change came with the one-time setup. */
  ghost predicate ChangedBySetup(d: Deployment, s: State, txs: seq<Tx>, i: nat, setting: Setting, value: Value) {
    exists setup: Command :: SetsUp(setup, setting, value) && SucceedsAt(d, s, txs, i, setup)
  }

  /** The administrator paused, resumed, or set trigger bounds. */
  ghost predicate ChangedAtOnce(d: Deployment, s: State, txs: seq<Tx>, i: nat, setting: Setting, value: Value) {
    exists command: Command ::
      i < |txs| && SetsAtOnce(command, txs[i].feeds, setting, value) && SucceedsAt(d, s, txs, i, command)
  }

  /** One of the four ways a setting may come by a value. */
  ghost predicate ChangedProperly(d: Deployment, s: State, txs: seq<Tx>, i: nat, setting: Setting, value: Value) {
    || ChangedByAnnouncedAction(d, s, txs, i, setting, value)
    || ChangedByProposal(d, s, txs, i, setting, value)
    || ChangedBySetup(d, s, txs, i, setting, value)
    || ChangedAtOnce(d, s, txs, i, setting, value)
  }

  lemma {:induction false} BootstrappedStays(d: Deployment, s: State, txs: seq<Tx>)
    ensures s.gov.bootstrapped ==> Run(d, s, txs).gov.bootstrapped
  {
    hide Apply;
    if txs != [] {
      BootstrappedStays(d, s, txs[..|txs| - 1]);
      BootstrapStep(d, Run(d, s, txs[..|txs| - 1]), txs[|txs| - 1]);
    }
  }

  lemma BootstrapStep(d: Deployment, s: State, tx: Tx)
    ensures forall command: Command :: command.Setup? && Succeeds(d, s, tx, command) ==> !s.gov.bootstrapped
    ensures Step(d, s, tx).gov.bootstrapped
        <==> s.gov.bootstrapped || (tx.call.Admin? && Succeeds(d, s, tx, tx.call.command) && tx.call.command.Setup?)
  {
    hide Step, Apply;
    SettingAfterStep(d, s, tx, SetUp);
  }

  /** The only ways one transaction can change a setting. */
  lemma SettingStep(d: Deployment, s: State, tx: Tx, setting: Setting)
    requires !setting.PendingAction? && !setting.PendingProposal?
    requires Get(Step(d, s, tx).gov, setting) != Get(s.gov, setting)
    ensures tx.call.Admin? && Succeeds(d, s, tx, tx.call.command)
    ensures
      var command, value := tx.call.command, Get(Step(d, s, tx).gov, setting);
      || (command.RunAction? && command.id.action == command.action && AsksFor(command.action, setting, value))
      || SetsUp(command, setting, value)
      || SetsAtOnce(command, tx.feeds, setting, value)
      || (&& setting.ExecutorStatus? && command == RunProposal(setting.executor) && setting.executor in s.gov.proposals
          && value == Flag(s.gov.proposals[setting.executor].newStatus)
          && InWindow(s.gov.proposals[setting.executor].executeAfter, tx.now))
  {
    hide Step, Apply, InWindow, Registrable;
    SettingAfterStep(d, s, tx, setting);
  }

  /**
   * From a new contract on: whatever run leads from one value of a setting to another, one of its transactions made the
   * final value what it is, by the administrator of that moment. For routers, executors, the administrator and price
   * feeds the change was announced by an administrator in the run, long enough before, or was part of the one-time
   * setup; pausing and trigger bounds alone take no notice.
   */
  lemma {:induction false} SettingChangesWereAnnounced(d: Deployment, s: State, txs: seq<Tx>, setting: Setting)
    requires s.gov.timelock == map[] && s.gov.proposals == map[]
    requires !setting.PendingAction? && !setting.PendingProposal?
    requires Get(Run(d, s, txs).gov, setting) != Get(s.gov, setting)
    ensures exists i: nat :: ChangedProperly(d, s, txs, i, setting, Get(Run(d, s, txs).gov, setting))
  {
    hide Apply, Get, ChangedProperly;
    if txs != [] {
      var last := |txs| - 1;
      var before, value := Run(d, s, txs[..last]), Get(Run(d, s, txs).gov, setting);
      if Get(before.gov, setting) == value {
        SettingChangesWereAnnounced(d, s, txs[..last], setting);
        var i: nat :| ChangedProperly(d, s, txs[..last], i, setting, value);
        ChangeStays(d, s, txs, i, setting, value);
      } else {
        LastChange(d, s, txs, setting);
      }
    }
  }

  lemma ChangeStays(d: Deployment, s: State, txs: seq<Tx>, i: nat, setting: Setting, value: Value)
    requires txs != [] && ChangedProperly(d, s, txs[..|txs| - 1], i, setting, value)
    ensures ChangedProperly(d, s, txs, i, setting, value)
  {
    hide Apply, AsksFor, Notice, Announced, Proposed, Run, SetsUp, SetsAtOnce, InWindow;
    assert i < |txs| - 1;
    assert txs[..|txs| - 1][..i] == txs[..i];
  }

  lemma LastChange(d: Deployment, s: State, txs: seq<Tx>, setting: Setting)
    requires s.gov.timelock == map[] && s.gov.proposals == map[] && txs != []
    requires !setting.PendingAction? && !setting.PendingProposal?
    requires Get(Run(d, s, txs).gov, setting) != Get(Run(d, s, txs[..|txs| - 1]).gov, setting)
    ensures ChangedProperly(d, s, txs, |txs| - 1, setting, Get(Run(d, s, txs).gov, setting))
  {
    hide Apply, Get, AsksFor, Notice, Announced, Proposed, InWindow;
    var earlier, tx := txs[..|txs| - 1], txs[|txs| - 1];
    var before := Run(d, s, earlier);
    SettingStep(d, before, tx, setting);
    var command := tx.call.command;
    if command.RunAction? {
      ActionWasAnnounced(d, s, earlier, tx, command.id, command.action);
    } else if command.RunProposal? {
      ProposalWasMade(d, s, earlier, setting.executor);
    }
  }

  /** The untimelocked setup works once. */
  lemma SetupAtMostOnce(d: Deployment, s: State, txs: seq<Tx>, i: nat, k: nat, first: Command, second: Command)
    requires first.Setup? && second.Setup? && i < k < |txs|
    requires SucceedsAt(d, s, txs, i, first)
    ensures !SucceedsAt(d, s, txs, k, second)
  {
    hide Apply;
    assert txs[..i + 1] == txs[..i] + [txs[i]];
    BootstrapStep(d, Run(d, s, txs[..i]), txs[i]);
    BootstrappedStays(d, Run(d, s, txs[..i + 1]), txs[i + 1..k]);
    RunAppend(d, s, txs[..i + 1], txs[i + 1..k]);
    assert txs[..i + 1] + txs[i + 1..k] == txs[..k];
    BootstrapStep(d, Run(d, s, txs[..k]), txs[k]);
  }
}
