/** The executor as a transition system: transactions, the effect of one, and runs of many. */
module Machine {
  import opened Ledger
  import opened ExecutorTypes
  import opened Execution
  import opened GovernanceRules

  /** Calls on a token made by anyone but the executor contract. */
  datatype TokenCall =
    | Approve(owner: Address, spender: Address, amount: nat)
    | Transfer(from: Address, to: Address, amount: nat)
    | TransferFrom(spender: Address, owner: Address, to: Address, amount: nat)

  datatype Call =
    | Execute(caller: Address, order: Order, signer: Address, routerData: RouterData, swap: Swap)
    | Cancel(caller: Address, order: Order)
    | Invalidate(caller: Address, wordPos: nat, mask: set<nat>)
    | Admin(caller: Address, command: Command)
    | Token(token: Address, call: TokenCall)

  /** A call in a block: its timestamp and what the price feeds answer then. */
  datatype Tx = Tx(now: nat, feeds: FeedTable, call: Call)

  datatype Effect = Effect(state: State, receipt: Option<Receipt>)

  function CallToken(d: Deployment, l: Ledger, token: Address, call: TokenCall): Result<Ledger> {
    match call
    case Approve(owner, spender, amount) =>
      var _ :- Check(owner != d.self, NotOwner);
      Ok(l.Approve(token, owner, spender, amount))
    case Transfer(from, to, amount) =>
      var _ :- Check(from != d.self, NotOwner);
      var _ :- Check(amount <= l.Balance(token, from), InsufficientBalance);
      Ok(l.Move(token, from, to, amount))
    case TransferFrom(spender, owner, to, amount) =>
      var _ :- Check(spender != d.self, NotOwner);
      var _ :- Check(amount <= l.Balance(token, owner), InsufficientBalance);
      var _ :- Check(amount <= l.Allowance(token, owner, spender), InsufficientAllowance);
      Ok(l.MoveFrom(token, spender, owner, to, amount))
  }

  function Apply(d: Deployment, s: State, tx: Tx): Result<Effect> {
    match tx.call
    case Execute(caller, order, signer, routerData, swap) =>
      var done :- ExecuteOrder(d, s, tx.feeds, tx.now, caller, order, signer, routerData, swap);
      Ok(Effect(done.0, Some(done.1)))
    case Cancel(caller, order) =>
      var done :- CancelOrder(s, caller, order);
      Ok(Effect(done, None))
    case Invalidate(caller, wordPos, mask) => Ok(Effect(InvalidateUnorderedNonces(s, caller, wordPos, mask), None))
    case Admin(caller, command) =>
      var done :- Administer(d, s, tx.feeds, tx.now, caller, command);
      Ok(Effect(done, None))
    case Token(token, call) =>
      var ledger :- CallToken(d, s.ledger, token, call);
      Ok(Effect(s.(ledger := ledger), None))
  }

  /** A reverted call leaves no trace. */
  function Step(d: Deployment, s: State, tx: Tx): State {
    var applied := Apply(d, s, tx);
    if applied.Ok? then applied.value.state else s
  }

  function Filled(d: Deployment, s: State, tx: Tx): Option<Receipt> {
    var applied := Apply(d, s, tx);
    if applied.Ok? then applied.value.receipt else None
  }

  function Run(d: Deployment, s: State, txs: seq<Tx>): State {
    if txs == [] then s else Step(d, Run(d, s, txs[..|txs| - 1]), txs[|txs| - 1])
  }

  /** The successful fills of a run, oldest first. */
  function Receipts(d: Deployment, s: State, txs: seq<Tx>): seq<Receipt> {
    if txs == [] then []
    else
      var earlier := Receipts(d, s, txs[..|txs| - 1]);
      var filled := Filled(d, Run(d, s, txs[..|txs| - 1]), txs[|txs| - 1]);
      if filled.Some? then earlier + [filled.value] else earlier
  }

  /** Block times never go back. */
  predicate Chronological(txs: seq<Tx>) {
    forall i, j :: 0 <= i < j < |txs| ==> txs[i].now <= txs[j].now
  }

  function FillsOf(receipts: seq<Receipt>, order: Order): seq<Receipt> {
    if receipts == [] then []
    else
      var earlier := FillsOf(receipts[..|receipts| - 1], order);
      if receipts[|receipts| - 1].order == order then earlier + [receipts[|receipts| - 1]] else earlier
  }

  function Pulled(receipts: seq<Receipt>): seq<int> {
    seq(|receipts|, i requires 0 <= i < |receipts| => receipts[i].pulled)
  }

  /** What one call does to the order book: everything but a fill only ever adds cancellations and used nonces. */
  lemma StepOnOrderBook(d: Deployment, s: State, tx: Tx)
    ensures s.cancelledOrders <= Step(d, s, tx).cancelledOrders
    ensures forall owner, wordPos :: s.Word(owner, wordPos) <= Step(d, s, tx).Word(owner, wordPos)
    ensures Filled(d, s, tx).None? ==>
              Step(d, s, tx).dcaExecutions == s.dcaExecutions && Step(d, s, tx).dcaLastExecution == s.dcaLastExecution
  {
    hide ExecuteOrder, Administer, CallToken;
    if tx.call.Execute? {
      var call := tx.call;
      if ExecuteOrder(d, s, tx.feeds, tx.now, call.caller, call.order, call.signer, call.routerData, call.swap).Ok? {
        FillFrame(d, s, tx.feeds, tx.now, call.caller, call.order, call.signer, call.routerData, call.swap);
      }
    }
  }

  /** A run in two parts. */
  lemma {:induction false} RunAppend(d: Deployment, s: State, xs: seq<Tx>, ys: seq<Tx>)
    ensures Run(d, s, xs + ys) == Run(d, Run(d, s, xs), ys)
    ensures Receipts(d, s, xs + ys) == Receipts(d, s, xs) + Receipts(d, Run(d, s, xs), ys)
    decreases |ys|
  {
    if ys == [] {
      assert xs + ys == xs;
    } else {
      var last := |ys| - 1;
      assert (xs + ys)[..|xs + ys| - 1] == xs + ys[..last];
      RunAppend(d, s, xs, ys[..last]);
    }
  }
}
