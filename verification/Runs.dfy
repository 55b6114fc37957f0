/** The wallet as a state machine: its operations and the steps of a pending settlement as events. */
module Runs {
  import opened Text
  import opened StoreCodec
  import opened Coins
  import opened CoinSelection
  import opened Node
  import opened Transactions
  import opened Ledger
  import opened Scanning
  import opened Settlement

  /** The fee rate SendToAddress uses. */
  const DEFAULT_FEE: int := 2

  /** A settlement under way: its plan, the books it started from, what the change output was found
      to be, how far the tasks got, and which outpoints had been spent before. */
  datatype Flight = Flight(plan: Plan, base: Books, look: Look, tasks: Tasks, spentBefore: set<string>)

  /** The wallet and what has happened around it.
      `flights`: the settlements under way, in the order their sends were accepted.
      `panicked`: a task or a scan crashed, and only a restart helps.
      `spent`: outpoints consumed by accepted transactions.
      `forgotten`: those among them whose Spent flag a restart lost.
      `sent`: the outputs of accepted transactions, by TxID.
      `seen`: the outpoints of all outputs in scanned blocks. */
  datatype System = System(
    w: Wallet,
    flights: seq<Flight>,
    panicked: bool,
    spent: set<string>,
    forgotten: set<string>,
    sent: map<string, seq<TxOut>>,
    seen: set<string>)

  datatype SendCall = SendCall(
    address: string,
    amount: int,
    used: seq<UTXO>,
    draw: KeyDraw,
    accepted: bool,
    markSaved: nat -> bool,
    changeSaved: bool,
    balanceSaved: bool)

  datatype Event =
    | NewAddress(draw: KeyDraw)
    | ScanNext(block: Block, ok: Writes)
    | NotifyBlock(txs: Block, ok: Writes)
    | Send(call: SendCall)
    | MarkNext(i: nat)
    | ChangeNext(i: nat, cursor: seq<string>)
    | BalanceNext(i: nat)
    | LockWallet
    | UnlockWallet
    | Restart(keyCursor: seq<string>, utxoCursor: seq<string>, height: Option<int>, saved: bool)

  /** The outpoints of a block's outputs. */
  ghost function OutpointsIn(block: Block): set<string> {
    set i, k | 0 <= i < |block| && 0 <= k < |block[i].outs| :: OutpointKey(block[i].txid, k)
  }

  /** What SendToAddress gets to before anything is drawn. */
  predicate PassesFundsChecks(w: Wallet, amount: int) {
    w.balance >= amount && CanSelect(amount, w.utxos)
  }

  function PlanOf(env: Env, w: Wallet, call: SendCall, tx: MsgTx): Plan {
    var info := InfoOf(tx, call.used, call.amount);
    Plan(call.used, env.txHash(tx), info.changeOutput, Index32(info.changeIdx),
         w.balance - call.amount - info.fee, call.markSaved, call.changeSaved, call.balanceSaved)
  }

  /** The node has accepted the transaction: the three tasks start. */
  ghost function Launched(env: Env, s: System, w1: Wallet, call: SendCall, tx: MsgTx): System {
    s.(w := w1,
       flights := s.flights + [Flight(PlanOf(env, w1, call, tx), BooksOf(w1), Nothing, Unstarted(), s.spent)],
       spent := s.spent + Outpoints(call.used),
       sent := s.sent[env.txHash(tx) := tx.outs])
  }

  /** A send with the selection the call names, if it is a correct one, whether or not random numbers lead
      to it. Settlements of earlier sends may still be under way. */
  ghost function SendStep(env: Env, s: System, call: SendCall): System {
    if s.w.locked || s.w.balance < call.amount || !Selects(call.amount, s.w.utxos, call.used) then s
    else
      match Prepared(env, s.w, call.address, call.amount, DEFAULT_FEE, call.used, call.draw)
      case (Err(_), w1) => s.(w := w1)
      case (Ok(tx), w1) => if call.accepted then Launched(env, s, w1, call, tx) else s.(w := w1)
  }

  /** The flights after a step of the i-th; a settlement whose tasks are over is gone. */
  ghost function Landed(flights: seq<Flight>, i: nat, f: Flight): seq<Flight>
    requires i < |flights|
  {
    if Done(f.plan, f.tasks) then flights[..i] + flights[i + 1..] else flights[i := f]
  }

  /** The state after a settlement step of the i-th flight, `f` but for its tasks. */
  ghost function Resumed(s: System, i: nat, f: Flight, r: Settling): System
    requires i < |s.flights|
  {
    s.(w := WithBooks(s.w, r.books), flights := Landed(s.flights, i, f.(tasks := r.tasks)))
  }

  ghost function SettlementStep(env: Env, s: System, i: nat, e: Event): System
    requires i < |s.flights|
  {
    var f := s.flights[i];
    var now := Settling(BooksOf(s.w), f.tasks);
    match e
    case MarkNext(_) => if Enabled(f.plan, f.tasks, MarkTask) then Resumed(s, i, f, MarkStep(f.plan, now)) else s
    case BalanceNext(_) =>
      if Enabled(f.plan, f.tasks, BalanceTask) then Resumed(s, i, f, BalanceStep(f.plan, now)) else s
    case ChangeNext(_, cursor) =>
      if !Enabled(f.plan, f.tasks, ChangeTask) then s
      else if f.tasks.changes == 0 then
        var look := LookAt(env, s.w.store.keys, cursor, f.plan);
        if look.Panics? then s.(panicked := true)
        else Resumed(s, i, f.(look := look), ChangeStep(f.plan, look, now))
      else Resumed(s, i, f, ChangeStep(f.plan, f.look, now))
    case _ => s
  }

  /** Transactions a btcd notification brings; one without an address brings the process down. */
  ghost function NotifyStep(env: Env, s: System, txs: Block, ok: Writes): System {
    var r := ScanBlockTxs(env, s.w, txs, ok);
    s.(w := r.w, panicked := !r.running, seen := s.seen + OutpointsIn(txs))
  }

  ghost function RestartStep(s: System, e: Event): System
    requires e.Restart?
  {
    if !Visits(e.keyCursor, s.w.store.keys) || !Visits(e.utxoCursor, s.w.store.utxos) then s
    else
      match Loaded(s.w.store, e.keyCursor, e.utxoCursor, e.height, e.saved)
      case None => s
      case Some(w1) => System(w1, [], false, s.spent, s.spent, s.sent, s.seen)
  }

  ghost function Exec(env: Env, s: System, e: Event): System {
    if s.panicked && !e.Restart? then s
    else
      match e
      case Restart(_, _, _, _) => RestartStep(s, e)
      case NewAddress(draw) => s.(w := ExternalKey(env, s.w, draw).1)
      case ScanNext(block, ok) =>
        s.(w := ScanBlock(env, s.w, block, ok), seen := s.seen + OutpointsIn(block))
      case NotifyBlock(txs, ok) => NotifyStep(env, s, txs, ok)
      case Send(call) => SendStep(env, s, call)
      case LockWallet => s.(w := s.w.(locked := true))
      case UnlockWallet => s.(w := s.w.(locked := false))
      case MarkNext(i) => if i < |s.flights| then SettlementStep(env, s, i, e) else s
      case ChangeNext(i, _) => if i < |s.flights| then SettlementStep(env, s, i, e) else s
      case BalanceNext(i) => if i < |s.flights| then SettlementStep(env, s, i, e) else s
  }

  lemma SendIsItsStep(env: Env, s: System, call: SendCall)
    requires !s.panicked
    ensures Exec(env, s, Send(call)) == SendStep(env, s, call)
  {
  }

  ghost function Run(env: Env, s: System, events: seq<Event>): System
    decreases |events|
  {
    if events == [] then s else Run(env, Exec(env, s, events[0]), events[1..])
  }

  /** A restart loads the wallet from the store, whatever was going on; no settlement survives it. */
  lemma RestartLoads(env: Env, s: System, keyCursor: seq<string>, utxoCursor: seq<string>, height: Option<int>,
                     saved: bool)
    requires Visits(keyCursor, s.w.store.keys) && Visits(utxoCursor, s.w.store.utxos)
    ensures var s1 := Exec(env, s, Restart(keyCursor, utxoCursor, height, saved));
      match Loaded(s.w.store, keyCursor, utxoCursor, height, saved)
      case None => s1 == s
      case Some(w1) => s1.w == w1 && s1.flights == [] && !s1.panicked && s1.spent == s.spent && s1.forgotten == s.spent
  {
  }

  /** A notified block brings the process down exactly if it holds an output without an address; a process
      that is down does nothing until it is restarted. */
  lemma DownUntilRestarted(env: Env, s: System, txs: Block, ok: Writes, e: Event)
    ensures Exec(env, s, NotifyBlock(txs, ok)).panicked
       <==> s.panicked || exists j :: 0 <= j < |txs| && !AllPay(env, txs[j])
    ensures s.panicked && !e.Restart? ==> Exec(env, s, e) == s
  {
    NotifiedRunsIffAllPay(env, s.w, txs, ok);
  }

  /** A run is its events, one after the other. */
  lemma {:induction false} RunAppends(env: Env, s: System, events: seq<Event>, e: Event)
    ensures Run(env, s, []) == s
    ensures Run(env, s, events + [e]) == Exec(env, Run(env, s, events), e)
    decreases |events|
  {
    if events == [] {
      assert [] + [e] == [e] && [e][1..] == [];
    } else {
      assert (events + [e])[1..] == events[1..] + [e];
      RunAppends(env, Exec(env, s, events[0]), events[1..], e);
    }
  }

  /// The beginning

  /** The store CreateWallet leaves behind. */
  function CreatedStore(encodedHash: string): Store {
    Store(map[], map[], Int64ToBytes(0), Uint32ToBytes(0), Uint32ToBytes(0), Int64ToBytes(0), encodedHash)
  }

  /** A new wallet, loaded for the first time. */
  function NewWallet(encodedHash: string, height: int, saved: bool): Wallet {
    var w := Wallet([], 0, 0, 0, 0, map[], true, CreatedStore(encodedHash));
    if saved then WithLastScanned(w, height - 10) else w
  }

  ghost function Initial(w: Wallet): System {
    System(w, [], false, {}, {}, map[], {})
  }

  /** Loading the store CreateWallet leaves behind gives the new wallet. */
  lemma NewWalletIsLoaded(encodedHash: string, height: int, saved: bool)
    ensures Loaded(CreatedStore(encodedHash), [], [], Some(height), saved)
         == Some(NewWallet(encodedHash, height, saved))
  {
    Int64Survives(0);
    Uint32Survives(0);
  }
}
