/** The read-only feed planner and verifier, and what executing a plan on the contract means for both. */
module FeedRegistration {
  import opened Ledger
  import opened Text
  import opened ExecutorTypes
  import opened Execution
  import opened GovernanceRules
  import opened Machine
  import opened Settings
  import opened Timelock

  /** A row of the feed configuration. */
  datatype Row = Row(
    token: Address, feed: Address, description: string, decimals: nat, tokenDecimals: nat,
    heartbeat: nat, maxStaleness: Option<nat>, phase: nat, enabled: bool)

  /** What a feed address with code answers. */
  datatype FeedAnswer = ReadFailed | Live(description: string, round: Round)

  /** What the first RPC answers besides the executor's own registry; `now` is the client's clock in whole seconds. */
  datatype World = World(feeds: map<Address, FeedAnswer>, tokenDecimals: Address -> nat, now: nat)

  type Registry = map<Address, TokenUsdFeed>

  datatype Problem =
    | NoCodeAtFeed | FeedReadFailed | NotInUsd | DescriptionDiffers | FeedDecimalsDiffer | PriceNotPositive
    | OlderThanTwoHeartbeats | OlderThanADay
    | TokenDecimalsDiffer | StalenessMissingOrShort
    | PrimaryReadFailed | RpcsDisagree | SecondaryUnavailable | NotRegistered | StoredFeedDiffers
    | StoredFeedDecimalsDiffer | StoredTokenDecimalsDiffer | StoredStalenessDiffers

  // ── The live check both programs share ──

  /** What a healthy feed is. */
  predicate Healthy(w: World, row: Row) {
    && row.feed in w.feeds
    && w.feeds[row.feed].Live?
    && var live := w.feeds[row.feed];
    && live.description == row.description && EndsWith(row.description, "/ USD")
    && live.round.decimals == row.decimals
    && 0 < live.round.answer
    && w.now - live.round.updatedAt <= 2 * row.heartbeat
    && w.now - live.round.updatedAt < FEED_DEAD_AFTER
  }

  method CheckFeedLive(w: World, row: Row) returns (reasons: seq<Problem>)
    ensures reasons == [] <==> Healthy(w, row)
    ensures forall p :: p in reasons ==> p != SecondaryUnavailable
    ensures
      if row.feed !in w.feeds then reasons == [NoCodeAtFeed]
      else if w.feeds[row.feed].ReadFailed? then reasons == [FeedReadFailed]
      else
        var description, round := w.feeds[row.feed].description, w.feeds[row.feed].round;
        && (NotInUsd in reasons <==> !EndsWith(description, "/ USD"))
        && (DescriptionDiffers in reasons <==> description != row.description)
        && (FeedDecimalsDiffer in reasons <==> round.decimals != row.decimals)
        && (PriceNotPositive in reasons <==> round.answer <= 0)
        && (OlderThanTwoHeartbeats in reasons <==> round.updatedAt + 2 * row.heartbeat < w.now)
        && (OlderThanADay in reasons <==> round.updatedAt + 86_400 <= w.now)
  {
    hide EndsWith;
    if row.feed !in w.feeds {
      return [NoCodeAtFeed];
    }
    if w.feeds[row.feed].ReadFailed? {
      return [FeedReadFailed];
    }
    var description, round := w.feeds[row.feed].description, w.feeds[row.feed].round;
    var age := w.now - round.updatedAt;
    reasons := [];
    if !EndsWith(description, "/ USD") {
      reasons := reasons + [NotInUsd];
    }
    if description != row.description {
      reasons := reasons + [DescriptionDiffers];
    }
    if round.decimals != row.decimals {
      reasons := reasons + [FeedDecimalsDiffer];
    }
    if round.answer <= 0 {
      reasons := reasons + [PriceNotPositive];
    }
    if 2 * row.heartbeat < age {
      reasons := reasons + [OlderThanTwoHeartbeats];
    }
    if FEED_DEAD_AFTER <= age {
      reasons := reasons + [OlderThanADay];
    }
  }

  // ── Plan ──

  datatype Status = Blocked | Unchanged | Planned

  /** `action` is what the row asks the administrator to queue and later execute. */
  datatype Item = Item(row: Row, status: Status, action: Option<Action>)

  predicate InPlan(row: Row) {
    row.phase == 1 && row.enabled
  }

  /** A row the planner has nothing against; the registry plays no part in this. */
  predicate Sound(w: World, row: Row) {
    && Healthy(w, row)
    && w.tokenDecimals(row.token) == row.tokenDecimals
    && row.maxStaleness.Some? && row.heartbeat <= row.maxStaleness.value
  }

  /** The registry already holds what the row wants, as far as the planner looks. */
  predicate AsConfigured(registry: Registry, row: Row) {
    && row.token in registry
    && registry[row.token].feed == row.feed
    && registry[row.token].tokenDecimals == row.tokenDecimals
    && Some(registry[row.token].maxStaleness) == row.maxStaleness
  }

  function StatusOf(w: World, registry: Registry, row: Row): Status {
    if !Sound(w, row) then Blocked else if AsConfigured(registry, row) then Unchanged else Planned
  }

  function ActionFor(row: Row): Action
    requires row.maxStaleness.Some?
  {
    SetTokenUsdFeed(row.token, row.feed, row.tokenDecimals, row.maxStaleness.value)
  }

  function ItemFor(w: World, registry: Registry, row: Row): Item {
    var status := StatusOf(w, registry, row);
    Item(row, status, if status == Planned then Some(ActionFor(row)) else None)
  }

  function PlanItems(w: World, registry: Registry, rows: seq<Row>): (items: seq<Item>)
    ensures forall item ::
              item in items <==>
                exists row :: row in rows && row.phase == 1 && row.enabled && item == ItemFor(w, registry, row)
  {
    if rows == [] then []
    else
      var earlier := PlanItems(w, registry, rows[..|rows| - 1]);
      var row := rows[|rows| - 1];
      assert rows == rows[..|rows| - 1] + [row];
      if InPlan(row) then earlier + [ItemFor(w, registry, row)] else earlier
  }

  method Plan(w: World, registry: Registry, rows: seq<Row>) returns (items: seq<Item>, exitCode: nat)
    ensures items == PlanItems(w, registry, rows)
    ensures exitCode == if exists item :: item in items && item.status == Blocked then 1 else 0
  {
    hide Healthy, EndsWith;
    items, exitCode := [], 0;
    for i := 0 to |rows|
      invariant items == PlanItems(w, registry, rows[..i])
      invariant exitCode == if exists item :: item in items && item.status == Blocked then 1 else 0
    {
      var row := rows[i];
      assert rows[..i + 1][..i] == rows[..i];
      if row.phase != 1 || !row.enabled {
        continue;
      }
      var problems := CheckFeedLive(w, row);
      if w.tokenDecimals(row.token) != row.tokenDecimals {
        problems := problems + [TokenDecimalsDiffer];
      }
      if row.maxStaleness.None? || row.maxStaleness.value < row.heartbeat {
        problems := problems + [StalenessMissingOrShort];
      }
      assert problems == [] <==> Sound(w, row);
      var upToDate := && row.token in registry && registry[row.token].feed == row.feed
                       && registry[row.token].tokenDecimals == row.tokenDecimals
                       && Some(registry[row.token].maxStaleness) == row.maxStaleness;
      var item := Item(row, Planned, None);
      if problems != [] {
        item := item.(status := Blocked);
        exitCode := 1;
      } else if upToDate {
        item := item.(status := Unchanged);
      } else {
        item := item.(action := Some(SetTokenUsdFeed(row.token, row.feed, row.tokenDecimals, row.maxStaleness.value)));
      }
      assert item == ItemFor(w, registry, row);
      items := items + [item];
    }
    assert rows[..|rows|] == rows;
  }

  // ── Verify ──

  predicate InVerify(row: Row) {
    row.enabled && row.phase <= 1
  }

  /** One RPC's answer about a token; `None` when the read failed. An unregistered token reads as all zero. */
  type Answer = Option<Registry>

  predicate Agree(a: Registry, b: Registry, token: Address) {
    && (token in a <==> token in b)
    && (token in a ==> a[token].feed == b[token].feed && a[token].maxStaleness == b[token].maxStaleness)
  }

  /** Two reads of a token that cannot both be right. */
  predicate Differ(a: Registry, b: Registry, token: Address) {
    || (token in a && token !in b)
    || (token !in a && token in b)
    || (token in a && token in b && (a[token].feed, a[token].maxStaleness) != (b[token].feed, b[token].maxStaleness))
  }

  lemma AgreeExactly(a: Registry, b: Registry, token: Address)
    ensures Agree(a, b, token) <==> !Differ(a, b, token)
  {
  }

  /** The row passes verification. */
  predicate Passes(w: World, primary: Answer, secondary: Answer, row: Row) {
    && primary.Some? && StoredRight(primary.value, secondary, row)
    && w.tokenDecimals(row.token) == row.tokenDecimals
    && Healthy(w, row)
  }

  function Stored(registry: Registry, token: Address): TokenUsdFeed {
    if token in registry then registry[token] else TokenUsdFeed(ZERO_ADDRESS, 0, 0, 0)
  }

  /** The reasons that fail a row; a secondary RPC that does not answer is only a warning. */
  function Fatal(reasons: seq<Problem>): (fatal: seq<Problem>)
    ensures forall p :: p in fatal <==> p in reasons && p != SecondaryUnavailable
  {
    if reasons == [] then []
    else if reasons[0] == SecondaryUnavailable then Fatal(reasons[1..])
    else [reasons[0]] + Fatal(reasons[1..])
  }

  lemma FatalAppend(xs: seq<Problem>, ys: seq<Problem>)
    ensures Fatal(xs + ys) == Fatal(xs) + Fatal(ys)
  {
    if xs == [] {
      assert xs + ys == ys;
    } else {
      assert (xs + ys)[1..] == xs[1..] + ys;
    }
  }

  lemma NoWarnings(reasons: seq<Problem>)
    requires SecondaryUnavailable !in reasons
    ensures Fatal(reasons) == reasons && Fatal([SecondaryUnavailable]) == []
  {
  }

  method VerifyRow(w: World, primary: Answer, secondary: Answer, row: Row) returns (reasons: seq<Problem>)
    ensures Fatal(reasons) == [] <==> Passes(w, primary, secondary, row)
  {
    hide Healthy;
    if primary.None? {
      return [PrimaryReadFailed];
    }
    var stored := StoredProblems(primary.value, secondary, row);
    var live := CheckFeedLive(w, row);
    reasons := stored;
    if w.tokenDecimals(row.token) != row.tokenDecimals {
      reasons := reasons + [TokenDecimalsDiffer];
    }
    FatalAppend(stored, [TokenDecimalsDiffer]);
    FatalAppend(reasons, live);
    NoWarnings(live);
    reasons := reasons + live;
  }

  predicate StoredRight(primary: Registry, secondary: Answer, row: Row) {
    && (secondary.Some? ==> Agree(primary, secondary.value, row.token))
    && row.token in primary
    && var entry := primary[row.token];
    && entry.feed == row.feed && entry.feedDecimals == row.decimals && entry.tokenDecimals == row.tokenDecimals
    && (row.maxStaleness.Some? ==> entry.maxStaleness == row.maxStaleness.value)
  }

  /** What two reads of the registry say about a row. */
  method StoredProblems(primary: Registry, secondary: Answer, row: Row) returns (reasons: seq<Problem>)
    ensures Fatal(reasons) == [] <==> StoredRight(primary, secondary, row)
    ensures RpcsDisagree in reasons <==> secondary.Some? && Differ(primary, secondary.value, row.token)
    ensures SecondaryUnavailable in reasons <==> secondary.None?
  {
    hide Fatal;
    var entry := Stored(primary, row.token);
    var problems: seq<Problem> := [];
    if secondary.Some? && (|| (row.token in primary) != (row.token in secondary.value)
                           || entry.feed != Stored(secondary.value, row.token).feed
                           || entry.maxStaleness != Stored(secondary.value, row.token).maxStaleness) {
      problems := problems + [RpcsDisagree];
    }
    ghost var agree := problems == [];
    assert !agree <==> secondary.Some? && Differ(primary, secondary.value, row.token);
    hide Differ, Agree, Stored;
    if secondary.Some? {
      AgreeExactly(primary, secondary.value, row.token);
    }
    if row.token !in primary {
      problems := problems + [NotRegistered];
    }
    if entry.feed != row.feed {
      problems := problems + [StoredFeedDiffers];
    }
    if entry.feedDecimals != row.decimals {
      problems := problems + [StoredFeedDecimalsDiffer];
    }
    if entry.tokenDecimals != row.tokenDecimals {
      problems := problems + [StoredTokenDecimalsDiffer];
    }
    if row.maxStaleness.Some? && entry.maxStaleness != row.maxStaleness.value {
      problems := problems + [StoredStalenessDiffers];
    }
    NoWarnings(problems);
    reasons := problems;
    if secondary.None? {
      reasons := problems + [SecondaryUnavailable];
      FatalAppend(problems, [SecondaryUnavailable]);
    }
  }

  method Verify(w: World, primary: Answer, secondary: Answer, rows: seq<Row>) returns (failed: bool)
    ensures !failed <==>
            forall row :: row in rows && row.enabled && row.phase <= 1 ==> Passes(w, primary, secondary, row)
  {
    hide Passes;
    failed := false;
    for i := 0 to |rows|
      invariant !failed <==> forall row :: row in rows[..i] && InVerify(row) ==> Passes(w, primary, secondary, row)
    {
      var row := rows[i];
      assert rows[..i + 1] == rows[..i] + [row];
      if row.enabled && row.phase <= 1 {
        var reasons := VerifyRow(w, primary, secondary, row);
        if Fatal(reasons) != [] {
          failed := true;
        }
      }
    }
    assert rows[..|rows|] == rows;
  }

  // ── The two programs and the contract ──

  /**
   * The programs agree: a row the planner accepts passes verification exactly when it is up to date and stored with the
   * right decimals.
   */
  lemma VerifierAgreesWithPlanner(w: World, registry: Registry, secondary: Answer, row: Row)
    requires StatusOf(w, registry, row) != Blocked
    ensures Passes(w, Some(registry), secondary, row)
       <==> && StatusOf(w, registry, row) == Unchanged
            && registry[row.token].feedDecimals == row.decimals
            && (secondary.Some? ==> Agree(registry, secondary.value, row.token))
  {
    hide Healthy;
  }

  /** A verified row is never planned again; it can be blocked only for a missing or short staleness limit. */
  lemma VerifiedRowIsNotPlanned(w: World, registry: Registry, secondary: Answer, row: Row)
    requires Passes(w, Some(registry), secondary, row)
    ensures StatusOf(w, registry, row) != Planned
    ensures StatusOf(w, registry, row) == Blocked <==> row.maxStaleness.None? || row.maxStaleness.value < row.heartbeat
  {
    hide Healthy;
  }

  /** The feeds the contract sees answer what the client saw. */
  predicate SameAnswers(w: World, feeds: FeedTable) {
    forall f :: f in w.feeds && w.feeds[f].Live? ==> f in feeds && feeds[f] == w.feeds[f].round
  }

  /**
   * What the planner does not check: a planned action, ready in its timelock, runs against the very answers it was
   * planned on exactly when the decimals are ones the contract accepts and the feed's clock is not ahead.
   */
  lemma PlannedActionRuns(d: Deployment, s: State, w: World, feeds: FeedTable, row: Row, id: ActionId)
    requires StatusOf(w, s.gov.tokenUsdFeeds, row) == Planned && SameAnswers(w, feeds)
    requires id.action == ActionFor(row) && id in s.gov.timelock && s.gov.timelock[id] + TIMELOCK_GRACE < WORD
    requires s.gov.timelock[id] <= w.now <= s.gov.timelock[id] + TIMELOCK_GRACE
    ensures ExecuteAction(d, s, feeds, w.now, s.gov.admin, id, id.action).Ok?
       <==> && (row.decimals == 8 || row.decimals == 18) && 1 <= row.tokenDecimals <= 18
            && w.feeds[row.feed].round.updatedAt <= w.now
  {
  }

  /**
   * Concretely: a row for a feed with six decimals that agrees with its feed in everything is planned, and its action
   * reverts.
   */
  lemma PlannedActionCanRevert(d: Deployment, s: State, now: nat, token: Address, feed: Address)
    requires token !in s.gov.tokenUsdFeeds && TIMELOCK_ORACLE_CHANGE <= now
    requires
      var id := ActionId(SetTokenUsdFeed(token, feed, 18, 3600), now - TIMELOCK_ORACLE_CHANGE);
      id in s.gov.timelock && s.gov.timelock[id] == now
    ensures
      var round := Round(1, 1_000_000, now, now, 1, 6);
      var row := Row(token, feed, "X / USD", 6, 18, 3600, Some(3600), 1, true);
      var w := World(map[feed := Live("X / USD", round)], _ => 18, now);
      var id := ActionId(ActionFor(row), now - TIMELOCK_ORACLE_CHANGE);
      && StatusOf(w, s.gov.tokenUsdFeeds, row) == Planned
      && ExecuteAction(d, s, map[feed := round], now, s.gov.admin, id, id.action).Err?
  {
  }

  /** The registry entry a row asks for. */
  function EntryFor(row: Row): TokenUsdFeed
    requires row.maxStaleness.Some?
  {
    TokenUsdFeed(row.feed, row.decimals, row.tokenDecimals, row.maxStaleness.value)
  }

  /** Feeds of the configuration keep the decimals they are configured with. */
  predicate DecimalsKept(txs: seq<Tx>, row: Row) {
    forall tx :: tx in txs && row.feed in tx.feeds ==> tx.feeds[row.feed].decimals == row.decimals
  }

  ghost predicate Executed(d: Deployment, s: State, txs: seq<Tx>, action: Action) {
    exists i: nat, id :: SucceedsAt(d, s, txs, i, RunAction(id, action))
  }

  /** Every feed change of the run that concerns this row's token is the row's own. */
  ghost predicate OnlyRowsOwnAction(d: Deployment, s: State, txs: seq<Tx>, row: Row) {
    forall i: nat, id, action ::
      SucceedsAt(d, s, txs, i, RunAction(id, action)) && action.SetTokenUsdFeed? && action.token == row.token
      ==> row.maxStaleness.Some? && action == ActionFor(row)
  }

  function Entry(registry: Registry, token: Address): Option<TokenUsdFeed> {
    if token in registry then Some(registry[token]) else None
  }

  lemma RegistryStep(d: Deployment, s: State, tx: Tx, row: Row)
    requires DecimalsKept([tx], row)
    requires forall id, action ::
               Succeeds(d, s, tx, RunAction(id, action)) && action.SetTokenUsdFeed? && action.token == row.token
               ==> row.maxStaleness.Some? && action == ActionFor(row)
    ensures
      var entry := Entry(Step(d, s, tx).gov.tokenUsdFeeds, row.token);
      if row.maxStaleness.Some? && exists id :: Succeeds(d, s, tx, RunAction(id, ActionFor(row)))
      then entry == Some(EntryFor(row)) else entry == Entry(s.gov.tokenUsdFeeds, row.token)
  {
    hide Step, Apply;
    assert tx in [tx];
    SettingAfterStep(d, s, tx, FeedOf(row.token));
    if tx.call.Admin? && tx.call.command.RunAction? && Apply(d, s, tx).Ok? {
      assert Succeeds(d, s, tx, RunAction(tx.call.command.id, tx.call.command.action));
    }
  }

  lemma {:induction false} RegistryAfterRun(d: Deployment, s: State, txs: seq<Tx>, row: Row)
    requires DecimalsKept(txs, row) && OnlyRowsOwnAction(d, s, txs, row)
    ensures
      var entry := Entry(Run(d, s, txs).gov.tokenUsdFeeds, row.token);
      if row.maxStaleness.Some? && Executed(d, s, txs, ActionFor(row))
      then entry == Some(EntryFor(row)) else entry == Entry(s.gov.tokenUsdFeeds, row.token)
  {
    hide Apply;
    if txs != [] {
      var last := |txs| - 1;
      var earlier, before, tx := txs[..last], Run(d, s, txs[..last]), txs[last];
      forall i: nat, id, action | SucceedsAt(d, s, earlier, i, RunAction(id, action)) && action.SetTokenUsdFeed?
          && action.token == row.token
        ensures row.maxStaleness.Some? && action == ActionFor(row)
      {
        EarlierSuccess(d, s, txs, i, RunAction(id, action));
      }
      RegistryAfterRun(d, s, earlier, row);
      forall id, action | Succeeds(d, before, tx, RunAction(id, action)) && action.SetTokenUsdFeed?
          && action.token == row.token
        ensures row.maxStaleness.Some? && action == ActionFor(row)
      {
        assert SucceedsAt(d, s, txs, last, RunAction(id, action));
      }
      RegistryStep(d, before, tx, row);
      if row.maxStaleness.Some? {
        ExecutedStep(d, s, txs, ActionFor(row));
      }
    }
  }

  lemma ExecutedStep(d: Deployment, s: State, txs: seq<Tx>, action: Action)
    requires txs != []
    ensures Executed(d, s, txs, action)
       <==> || Executed(d, s, txs[..|txs| - 1], action)
            || exists id :: Succeeds(d, Run(d, s, txs[..|txs| - 1]), txs[|txs| - 1], RunAction(id, action))
  {
    hide Apply;
    var last := |txs| - 1;
    if Executed(d, s, txs[..last], action) {
      var i: nat, id :| SucceedsAt(d, s, txs[..last], i, RunAction(id, action));
      EarlierSuccess(d, s, txs, i, RunAction(id, action));
    }
    if id :| Succeeds(d, Run(d, s, txs[..last]), txs[last], RunAction(id, action)) {
      assert SucceedsAt(d, s, txs, last, RunAction(id, action));
    }
    if Executed(d, s, txs, action) {
      var i: nat, id :| SucceedsAt(d, s, txs, i, RunAction(id, action));
      EarlierSuccess(d, s, txs, i, RunAction(id, action));
    }
  }

  // ── Convergence ──

  predicate DistinctTokens(rows: seq<Row>) {
    forall i, j :: 0 <= i < j < |rows| ==> rows[i].token != rows[j].token
  }

  /** The run executed the whole plan, and no other feed change for the planned rows' tokens. */
  ghost predicate PlanExecuted(d: Deployment, s: State, txs: seq<Tx>, w: World, rows: seq<Row>) {
    && (forall row :: row in rows && InPlan(row) && StatusOf(w, s.gov.tokenUsdFeeds, row) == Planned
          ==> Executed(d, s, txs, ActionFor(row)))
    && (forall i: nat, id, action ::
          SucceedsAt(d, s, txs, i, RunAction(id, action)) && action.SetTokenUsdFeed?
          ==> FromPlan(w, s.gov.tokenUsdFeeds, rows, action) || forall row :: row in rows && InPlan(row) ==>
              row.token != action.token)
  }

  ghost predicate FromPlan(w: World, registry: Registry, rows: seq<Row>, action: Action) {
    exists item :: item in PlanItems(w, registry, rows) && item.action == Some(action)
  }

  lemma PlannedActionIsTheRowsOwn(d: Deployment, s: State, txs: seq<Tx>, w: World, rows: seq<Row>, row: Row)
    requires DistinctTokens(rows) && PlanExecuted(d, s, txs, w, rows) && row in rows && InPlan(row)
    ensures OnlyRowsOwnAction(d, s, txs, row)
    ensures StatusOf(w, s.gov.tokenUsdFeeds, row) != Planned && row.maxStaleness.Some? ==>
        !Executed(d, s, txs, ActionFor(row))
  {
    hide Apply, SucceedsAt, Healthy, AsConfigured;
    var registry := s.gov.tokenUsdFeeds;
    forall i: nat, id, action | SucceedsAt(d, s, txs, i, RunAction(id, action)) && action.SetTokenUsdFeed?
        && action.token == row.token
      ensures row.maxStaleness.Some? && action == ActionFor(row) && StatusOf(w, registry, row) == Planned
    {
      assert FromPlan(w, registry, rows, action);
      var item :| item in PlanItems(w, registry, rows) && item.action == Some(action);
      var planned :| planned in rows && InPlan(planned) && item == ItemFor(w, registry, planned);
      assert planned == row by {
        var a :| 0 <= a < |rows| && rows[a] == planned;
        var b :| 0 <= b < |rows| && rows[b] == row;
      }
    }
  }

  /** What executing the plan does to the registry, row by row. */
  lemma RowAfterPlan(d: Deployment, s: State, txs: seq<Tx>, w: World, rows: seq<Row>, row: Row)
    requires DistinctTokens(rows) && PlanExecuted(d, s, txs, w, rows) && row in rows && InPlan(row)
    requires DecimalsKept(txs, row)
    ensures
      var before, after := s.gov.tokenUsdFeeds, Run(d, s, txs).gov.tokenUsdFeeds;
      && (StatusOf(w, before, row) == Planned ==>
          row.maxStaleness.Some? && Entry(after, row.token) == Some(EntryFor(row)))
      && (StatusOf(w, before, row) != Planned ==> Entry(after, row.token) == Entry(before, row.token))
  {
    hide Apply, Healthy, OnlyRowsOwnAction, Executed;
    PlannedActionIsTheRowsOwn(d, s, txs, w, rows, row);
    RegistryAfterRun(d, s, txs, row);
  }

  /** The live answers still say of every row what they said when the plan was made. */
  ghost predicate SameFindings(w: World, w': World, rows: seq<Row>) {
    forall row :: row in rows && InPlan(row) ==> (Sound(w', row) <==> Sound(w, row))
  }

  /**
   * Executing a plan settles it: a second plan on unchanged findings emits nothing, the blocked rows are the same ones,
   * and verification passes every other row whose stored decimals were right where it was left alone.
   */
  lemma PlanConverges(
      d: Deployment, s: State, txs: seq<Tx>, w: World, w': World, rows: seq<Row>, secondary: Answer, row: Row)
    requires DistinctTokens(rows) && PlanExecuted(d, s, txs, w, rows) && SameFindings(w, w', rows)
    requires row in rows && InPlan(row) && DecimalsKept(txs, row)
    ensures
      var before, after := s.gov.tokenUsdFeeds, Run(d, s, txs).gov.tokenUsdFeeds;
      && StatusOf(w', after, row) != Planned
      && (StatusOf(w', after, row) == Blocked <==> StatusOf(w, before, row) == Blocked)
      && (StatusOf(w, before, row) != Blocked ==>
            (Passes(w', Some(after), secondary, row)
             <==> && (StatusOf(w, before, row) == Unchanged ==> before[row.token].feedDecimals == row.decimals)
                  && (secondary.Some? ==> Agree(after, secondary.value, row.token))))
  {
    hide Apply, Healthy, PlanExecuted;
    RowAfterPlan(d, s, txs, w, rows, row);
    var after := Run(d, s, txs).gov.tokenUsdFeeds;
    if StatusOf(w', after, row) != Blocked {
      VerifierAgreesWithPlanner(w', after, secondary, row);
    }
  }

  /** The second plan as a whole: no action in it. */
  lemma SecondPlanIsEmpty(d: Deployment, s: State, txs: seq<Tx>, w: World, w': World, rows: seq<Row>)
    requires DistinctTokens(rows) && PlanExecuted(d, s, txs, w, rows) && SameFindings(w, w', rows)
    requires forall row :: row in rows && InPlan(row) ==> DecimalsKept(txs, row)
    ensures forall item :: item in PlanItems(w', Run(d, s, txs).gov.tokenUsdFeeds, rows) ==> item.action == None
  {
    hide Apply, Healthy, PlanExecuted, PlanItems, StatusOf;
    var after := Run(d, s, txs).gov.tokenUsdFeeds;
    forall item | item in PlanItems(w', after, rows)
      ensures item.action == None
    {
      var row :| row in rows && InPlan(row) && item == ItemFor(w', after, row);
      PlanConverges(d, s, txs, w, w', rows, None, row);
    }
  }
}
