/** When the change of a send is recognised, and what happens when it is not (wallet/tx.go). */
module ChangeOutput {
  import opened Coins
  import opened CoinSelection
  import opened Node
  import opened Transactions
  import opened Ledger
  import opened Settlement
  import opened KeyInvariants
  import opened Runs
  import opened LedgerRuns

  /** A selection SelectUTXOs returns is worth more than the amount, so building never reports it short. */
  lemma SelectionAlwaysSuffices(env: Env, w: Wallet, address: string, amount: int, feeRate: int, used: seq<UTXO>,
                                draw: KeyDraw)
    requires Selects(amount, w.utxos, used)
    ensures CreateRaw(env, w, address, amount, feeRate, used, draw).0 != Err(InsufficientAmount)
    ensures Prepared(env, w, address, amount, feeRate, used, draw).0 != Err(InsufficientAmount)
  {
  }

  ghost predicate SentBy(env: Env, w: Wallet, call: SendCall, tx: MsgTx, w1: Wallet) {
    && (forall i :: 0 <= i < |call.used| ==> call.used[i] in w.utxos)
    && Prepared(env, w, call.address, call.amount, DEFAULT_FEE, call.used, call.draw) == (Ok(tx), w1)
  }

  /** The signed transaction reads back as the built one does. */
  lemma SentReadsBack(env: Env, w: Wallet, call: SendCall, tx: MsgTx, w1: Wallet)
    requires Laws(env) && Sound(env, w) && SentBy(env, w, call, tx, w1)
    ensures |tx.outs| == 2
    ensures var info := InfoOf(tx, call.used, call.amount);
      && (tx.outs[1].value != call.amount ==> info.changeIdx == 1 && info.changeOutput == tx.outs[1])
      && (tx.outs[1].value == call.amount ==> info.changeIdx == 0 && info.changeOutput == TxOut(0, []))
  {
    PreparedOutputs(env, w, call);
    assert tx.outs == [tx.outs[0], tx.outs[1]];
    TwoOutputs(tx.outs[0], tx.outs[1], call.amount);
  }

  ghost predicate ChangeRecorded(env: Env, keys: Keys, tx: MsgTx, look: Look)
    requires |tx.outs| == 2
  {
    && look.Change?
    && look.u == NewUTXO(env.txHash(tx), 1, tx.outs[1].value, tx.outs[1].script, look.u.path)
    && OwnedBy(env, keys, look.u)
  }

  lemma RecognisedChange(env: Env, keys: Keys, cursor: seq<string>, p: Plan, tx: MsgTx)
    requires KeysDerived(env, keys) && Visits(cursor, keys) && ChangeKeyKnown(env, keys, p)
    requires |tx.outs| == 2 && p.txid == env.txHash(tx) && p.changeIdx == 1 && p.changeOutput == tx.outs[1]
    ensures ChangeRecorded(env, keys, tx, LookAt(env, keys, cursor, p))
  {
    LookFindsChange(env, keys, cursor, p);
    PathForFound(keys, cursor, env.info(p.changeOutput.script).address);
  }

  /** addChangeUTXO crashes exactly when the change is worth the amount sent: the send then passes for
      one without change, and the empty script looked at instead has no address. Otherwise the change is
      recorded as it is: output 1, its value, its script, under the path of a key with its address. */
  lemma ChangeTaskPanicsIffChangeIsTheAmount(env: Env, w: Wallet, call: SendCall, tx: MsgTx, w1: Wallet,
                                             cursor: seq<string>)
    requires Laws(env) && EmptyScriptLaw(env) && Sound(env, w) && SentBy(env, w, call, tx, w1)
    requires Visits(cursor, w1.store.keys)
    ensures |tx.outs| == 2
    ensures var look := LookAt(env, w1.store.keys, cursor, PlanOf(env, w1, call, tx));
      && (look.Panics? <==> tx.outs[1].value == call.amount)
      && (!look.Panics? ==> ChangeRecorded(env, w1.store.keys, tx, look))
  {
    SentReadsBack(env, w, call, tx, w1);
    if tx.outs[1].value != call.amount {
      PreparedOutputs(env, w, call);
      CreateRawKeepsSound(env, w, call.address, call.amount, DEFAULT_FEE, call.used, call.draw);
      RecognisedChange(env, w1.store.keys, cursor, PlanOf(env, w1, call, tx), tx);
    }
  }

  /** Unlocked, with sound keys. */
  ghost predicate ReadyToSend(env: Env, s: System) {
    !s.panicked && !s.w.locked && Sound(env, s.w)
  }

  ghost predicate Launches(env: Env, s: System, call: SendCall, tx: MsgTx, w1: Wallet) {
    && s.w.balance >= call.amount && Selects(call.amount, s.w.utxos, call.used) && call.accepted
    && SentBy(env, s.w, call, tx, w1)
  }

  lemma FirstChangeStep(env: Env, s: System, i: nat, cursor: seq<string>)
    requires i < |s.flights| && !s.panicked && s.flights[i].tasks == Unstarted()
    ensures Exec(env, s, ChangeNext(i, cursor)).panicked
       <==> LookAt(env, s.w.store.keys, cursor, s.flights[i].plan).Panics?
  {
  }

  lemma AcceptedSendLaunches(env: Env, s: System, call: SendCall, tx: MsgTx, w1: Wallet)
    requires ReadyToSend(env, s) && Launches(env, s, call, tx, w1)
    ensures SendStep(env, s, call) == Launched(env, s, w1, call, tx)
  {
  }

  /** In a run, the first step of the change task brings the process down in exactly those sends. */
  lemma SendCrashesIffChangeIsTheAmount(env: Env, s: System, call: SendCall, tx: MsgTx, w1: Wallet, cursor: seq<string>)
    requires Laws(env) && EmptyScriptLaw(env) && ReadyToSend(env, s) && Launches(env, s, call, tx, w1)
    requires Visits(cursor, w1.store.keys)
    ensures |tx.outs| == 2
    ensures var s1 := Exec(env, s, Send(call));
      && s1 == Launched(env, s, w1, call, tx)
      && (Exec(env, s1, ChangeNext(|s.flights|, cursor)).panicked <==> tx.outs[1].value == call.amount)
  {
    SendIsItsStep(env, s, call);
    AcceptedSendLaunches(env, s, call, tx, w1);
    ChangeTaskPanicsIffChangeIsTheAmount(env, s.w, call, tx, w1, cursor);
    FirstChangeStep(env, Launched(env, s, w1, call, tx), |s.flights|, cursor);
  }
}
