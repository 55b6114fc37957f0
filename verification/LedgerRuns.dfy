/** The law of the ledger over whole runs: scans, sends, every interleaving of their settlements,
    and restarts. */
module LedgerRuns {
  import opened Text
  import opened StoreCodec
  import opened Coins
  import opened CoinSelection
  import opened Node
  import opened KeyChain
  import opened Transactions
  import opened Ledger
  import opened Scanning
  import opened Settlement
  import opened KeyDraws
  import opened KeyInvariants
  import opened Reload
  import opened Accounts
  import opened Runs
  import opened SoundRuns

  /// Where entries come from

  ghost predicate PaysInternal(env: Env, script: Script, j: uint32) {
    && env.child(Internal, j).Some?
    && env.info(script).Pays?
    && env.info(script).address == env.addressOf(env.child(Internal, j).value)
  }

  /** Every accepted transaction has two outputs, the second paying an internal key. */
  ghost predicate ChangeIsInternal(env: Env, sent: map<string, seq<TxOut>>) {
    forall t :: t in sent ==> |sent[t]| == 2 && exists j: uint32 :: PaysInternal(env, sent[t][1].script, j)
  }

  /** An entry is an output of a scanned block, or the change of an accepted transaction. */
  ghost predicate Originates(s: System, u: UTXO) {
    || Outpoint(u) in s.seen
    || (u.txid in s.sent && u.vout == 1 && |s.sent[u.txid]| == 2 && u.script == s.sent[u.txid][1].script)
  }

  ghost predicate AllOriginate(s: System, us: seq<UTXO>) {
    forall i :: 0 <= i < |us| ==> Originates(s, us[i])
  }

  /// The invariant

  /** The key of the change address is in the bucket, so the change task will find its path. */
  ghost predicate ChangeKeyKnown(env: Env, keys: Keys, p: Plan) {
    && env.info(p.changeOutput.script).Pays?
    && exists path :: path in keys && keys[path].address == env.info(p.changeOutput.script).address
  }

  ghost predicate IsRecordOf(p: Plan, u: UTXO) {
    u.txid == p.txid && u.vout == p.changeIdx && u.value == p.changeOutput.value
    && u.script == p.changeOutput.script && !u.spent
  }

  ghost predicate PlanReal(p: Plan, base: Books, spent: set<string>) {
    && AllSaved(p) && p.used != []
    && Spends(p.used, base.utxos)
    && (forall j :: 0 <= j < |p.used| ==> Outpoint(p.used[j]) !in spent)
    && p.changeOutput.value >= 0
    && Sum(p.used) == base.balance - p.newBalance + p.changeOutput.value
    && (forall i :: 0 <= i < |base.utxos| ==> base.utxos[i].txid != p.txid)
  }

  ghost predicate FlightReal(env: Env, s: System, f: Flight) {
    && RealBooks(f.base, f.spentBefore)
    && s.spent == f.spentBefore + Outpoints(f.plan.used)
    && PlanReal(f.plan, f.base, f.spentBefore)
    && ChangeKeyKnown(env, s.w.store.keys, f.plan)
    && f.plan.changeIdx == 1
    && f.plan.txid in s.sent && |s.sent[f.plan.txid]| == 2 && s.sent[f.plan.txid][1] == f.plan.changeOutput
    && (if f.tasks.changes == 0 then f.look == Nothing else f.look.Change? && IsRecordOf(f.plan, f.look.u))
    && At(f.plan, f.base, f.look, Settling(BooksOf(s.w), f.tasks))
    && !Done(f.plan, f.tasks)
    && AllOriginate(s, f.base.utxos)
  }

  ghost predicate Real(env: Env, s: System) {
    && SystemSound(env, s) && !s.panicked
    && ChangeIsInternal(env, s.sent)
    && (s.flights == [] ==> RealBooks(BooksOf(s.w), s.spent) && AllOriginate(s, s.w.utxos))
    && (s.flights != [] ==> |s.flights| == 1 && FlightReal(env, s, s.flights[0]))
  }

  /// What runs are asked of

  ghost predicate Laws(env: Env) {
    CipherLaw(env) && PayToLaw(env) && WitnessLaw(env) && AddressesDistinct(env)
  }

  /** A block as the chain gives it: every script parses, no output is negative, every outpoint is new,
      and a transaction of the wallet's own is the one it sent. Its own change may be there. */
  ghost predicate ChainBlock(env: Env, s: System, block: Block) {
    && WellFormed(env, block)
    && (forall i, k :: 0 <= i < |block| && 0 <= k < |block[i].outs| ==>
          block[i].outs[k].value >= 0 && OutpointKey(block[i].txid, k) !in s.seen)
    && (forall i :: 0 <= i < |block| ==> |block[i].outs| < 0x1_0000_0000)
    && (forall i, j :: 0 <= i < j < |block| ==> block[i].txid != block[j].txid)
    && (forall i :: 0 <= i < |block| && block[i].txid in s.sent ==> block[i].outs == s.sent[block[i].txid])
  }

  /** What a notification passes on of such a block: outputs with an address each. */
  ghost predicate NotifiedBlock(env: Env, s: System, txs: Block) {
    && ChainBlock(env, s, txs)
    && forall i :: 0 <= i < |txs| ==> AllPay(env, txs[i])
  }

  /** What a node checks before it accepts: no negative output, no input spent already. */
  ghost predicate NodeRules(s: System, used: seq<UTXO>, tx: MsgTx) {
    && (forall k :: 0 <= k < |tx.outs| ==> tx.outs[k].value >= 0)
    && (forall j :: 0 <= j < |used| ==> Outpoint(used[j]) !in s.spent)
  }

  /** The hash of a new transaction has not been met before. */
  ghost predicate FreshTxid(s: System, txid: string) {
    && txid !in s.sent
    && (forall i :: 0 <= i < |s.w.utxos| ==> s.w.utxos[i].txid != txid)
    && (forall k :: OutpointKey(txid, k) !in s.seen)
  }

  /** An accepted send starts when no settlement is under way, keeps the node's rules, its writes succeed,
      and its change differs from the amount sent: were they equal, the change would not be recognised. */
  ghost predicate SendAllowed(env: Env, s: System, call: SendCall) {
    var r := Prepared(env, s.w, call.address, call.amount, DEFAULT_FEE, call.used, call.draw).0;
    call.accepted && r.Ok? ==>
      && s.flights == []
      && NodeRules(s, call.used, r.value)
      && FreshTxid(s, env.txHash(r.value))
      && (|r.value.outs| == 2 ==> r.value.outs[1].value != call.amount)
      && call.changeSaved && call.balanceSaved && forall j :: call.markSaved(j)
  }

  ghost predicate Allowed(env: Env, s: System, e: Event) {
    match e
    case ScanNext(block, ok) => s.flights == [] && AllSucceed(ok) && ChainBlock(env, s, block)
    case NotifyBlock(txs, ok) => s.flights == [] && AllSucceed(ok) && NotifiedBlock(env, s, txs)
    case Send(call) => SendAllowed(env, s, call)
    case ChangeNext(_, cursor) => Visits(cursor, s.w.store.keys)
    case Restart(_, _, _, _) => s.flights == [] && IsInt64(s.w.balance)
    case _ => true
  }

  ghost predicate AllowedRun(env: Env, s: System, events: seq<Event>)
    decreases |events|
  {
    events == [] || (Allowed(env, s, events[0]) && AllowedRun(env, Exec(env, s, events[0]), events[1..]))
  }

  /// Scanning

  /** `u` is output k of transaction i of the block, and pays the wallet. */
  ghost predicate FromBlock(env: Env, addresses: map<string, string>, block: Block, u: UTXO, i: nat, k: nat) {
    && i < |block| && k < |block[i].outs|
    && Owned(env, addresses, block[i].outs[k])
    && u == Received(env, addresses, block[i].txid, k, block[i].outs[k])
  }

  ghost predicate SmallTx(tx: BlockTx) {
    |tx.outs| < 0x1_0000_0000
  }

  lemma {:induction false} OwnedOutputsDistinct(env: Env, addresses: map<string, string>, tx: BlockTx, k: nat)
    requires k <= |tx.outs| && SmallTx(tx)
    ensures forall u :: u in OwnedOutputs(env, addresses, tx, k) ==>
      && u.txid == tx.txid && k <= u.vout < |tx.outs|
      && Owned(env, addresses, tx.outs[u.vout])
      && u == Received(env, addresses, tx.txid, u.vout, tx.outs[u.vout])
    ensures DistinctOutpoints(OwnedOutputs(env, addresses, tx, k))
    decreases |tx.outs| - k
  {
    if k < |tx.outs| {
      OwnedOutputsDistinct(env, addresses, tx, k + 1);
      if Owned(env, addresses, tx.outs[k]) {
        var u := Received(env, addresses, tx.txid, k, tx.outs[k]);
        LaterOutputsDiffer(u, OwnedOutputs(env, addresses, tx, k + 1));
      }
    }
  }

  lemma LaterOutputsDiffer(u: UTXO, us: seq<UTXO>)
    requires DistinctOutpoints(us)
    requires forall v :: v in us ==> v.txid != u.txid || v.vout != u.vout
    ensures DistinctOutpoints([u] + us)
  {
    forall i | 0 <= i < |us| ensures Outpoint(u) != Outpoint(us[i]) {
      assert us[i] in us;
      if Outpoint(u) == Outpoint(us[i]) {
        OutpointKeyInjective(u.txid, u.vout, us[i].txid, us[i].vout);
      }
    }
  }

  lemma DistinctConcat(us: seq<UTXO>, vs: seq<UTXO>)
    requires DistinctOutpoints(us) && DistinctOutpoints(vs)
    requires forall u, v :: u in us && v in vs ==> Outpoint(u) != Outpoint(v)
    ensures DistinctOutpoints(us + vs)
  {
    forall i, j | 0 <= i < j < |us + vs| ensures Outpoint((us + vs)[i]) != Outpoint((us + vs)[j]) {
      if i < |us| && |us| <= j {
        assert us[i] in us && vs[j - |us|] in vs;
      }
    }
  }

  ghost predicate DistinctBlock(block: Block) {
    && (forall i :: 0 <= i < |block| ==> SmallTx(block[i]))
    && (forall i, j :: 0 <= i < j < |block| ==> block[i].txid != block[j].txid)
  }

  lemma {:induction false} OwnedInDistinct(env: Env, addresses: map<string, string>, block: Block, i: nat)
    requires i <= |block| && DistinctBlock(block)
    ensures forall u :: u in OwnedIn(env, addresses, block, i) ==>
      exists j, k :: i <= j && FromBlock(env, addresses, block, u, j, k)
    ensures DistinctOutpoints(OwnedIn(env, addresses, block, i))
    decreases |block| - i
  {
    if i < |block| {
      var here, later := OwnedOutputs(env, addresses, block[i], 0), OwnedIn(env, addresses, block, i + 1);
      OwnedOutputsDistinct(env, addresses, block[i], 0);
      OwnedInDistinct(env, addresses, block, i + 1);
      forall u | u in here ensures FromBlock(env, addresses, block, u, i, u.vout) {
      }
      forall u, v | u in here && v in later ensures Outpoint(u) != Outpoint(v) {
        var j, k :| i + 1 <= j && FromBlock(env, addresses, block, v, j, k);
        if Outpoint(u) == Outpoint(v) {
          OutpointKeyInjective(u.txid, u.vout, v.txid, v.vout);
        }
      }
      DistinctConcat(here, later);
    }
  }

  /** Change is never counted twice: what a block credits is new to the wallet, even when the block
      holds the wallet's own transactions, for their change pays an address that is not listed. */
  lemma CreditedIsNew(env: Env, s: System, block: Block, u: UTXO, i: nat, k: nat, v: UTXO)
    requires KeysSound(env, s.w) && AddressesDistinct(env) && ChangeIsInternal(env, s.sent)
    requires ChainBlock(env, s, block) && Originates(s, v)
    requires FromBlock(env, s.w.addresses, block, u, i, k)
    ensures Outpoint(u) != Outpoint(v)
  {
    if Outpoint(u) == Outpoint(v) {
      OutpointKeyInjective(u.txid, u.vout, v.txid, v.vout);
      assert OutpointKey(block[i].txid, k) !in s.seen;
      var j: uint32 :| PaysInternal(env, s.sent[v.txid][1].script, j);
      InternalNotBacked(env, s.w, j);
    }
  }

  lemma ScanIsFresh(env: Env, s: System, block: Block)
    requires KeysSound(env, s.w) && AddressesDistinct(env) && ChangeIsInternal(env, s.sent)
    requires ChainBlock(env, s, block) && AllOriginate(s, s.w.utxos) && DistinctOutpoints(s.w.utxos)
    ensures var found := OwnedIn(env, s.w.addresses, block, 0);
      && DistinctOutpoints(s.w.utxos + found) && NonNegative(found)
      && (forall u :: u in found ==> !u.spent && Outpoint(u) in OutpointsIn(block))
  {
    var found := OwnedIn(env, s.w.addresses, block, 0);
    assert DistinctBlock(block);
    OwnedInDistinct(env, s.w.addresses, block, 0);
    forall u | u in found ensures !u.spent && u.value >= 0 && Outpoint(u) in OutpointsIn(block) {
      var i, k :| 0 <= i && FromBlock(env, s.w.addresses, block, u, i, k);
    }
    forall v, u | v in s.w.utxos && u in found ensures Outpoint(v) != Outpoint(u) {
      var i, k :| 0 <= i && FromBlock(env, s.w.addresses, block, u, i, k);
      CreditedIsNew(env, s, block, u, i, k, v);
    }
    DistinctConcat(s.w.utxos, found);
  }

  /** Either scanner, allowed to run on a block, credits what the block pays the wallet. */
  ghost function Scanned(env: Env, s: System, block: Block): System {
    var w1 := WithLastScanned(Credited(s.w, OwnedIn(env, s.w.addresses, block, 0)), s.w.lastScanned + 1);
    s.(w := w1, seen := s.seen + OutpointsIn(block))
  }

  lemma ScanIsScanned(env: Env, s: System, block: Block, ok: Writes, s1: System)
    requires !s.panicked && AllSucceed(ok) && WellFormed(env, block) && s1 == Exec(env, s, ScanNext(block, ok))
    ensures s1 == Scanned(env, s, block)
  {
    ScanBlockFinds(env, s.w, block, ok);
  }

  lemma NotifiedIsScanned(env: Env, s: System, txs: Block, ok: Writes, s1: System)
    requires !s.panicked && AllSucceed(ok) && NotifiedBlock(env, s, txs) && WitnessLaw(env) && KeysSound(env, s.w)
    requires s1 == Exec(env, s, NotifyBlock(txs, ok))
    ensures s1 == Scanned(env, s, txs)
  {
    ListedAddressesAreWitness(env, s.w);
    NotifiedFinds(env, s.w, txs, ok);
  }

  lemma ScannedKeepsBooks(env: Env, s: System, block: Block)
    requires KeysSound(env, s.w) && AddressesDistinct(env) && ChangeIsInternal(env, s.sent)
    requires RealBooks(BooksOf(s.w), s.spent) && AllOriginate(s, s.w.utxos) && ChainBlock(env, s, block)
    ensures var w1 := Scanned(env, s, block).w;
      RealBooks(BooksOf(w1), s.spent) && w1.utxos == s.w.utxos + OwnedIn(env, s.w.addresses, block, 0)
  {
    var found := OwnedIn(env, s.w.addresses, block, 0);
    ScanIsFresh(env, s, block);
    forall i | 0 <= i < |found| ensures !found[i].spent {
      assert found[i] in found;
    }
    CreditKeepsReal(s.w, s.spent, found);
    CreditedFields(s.w, found);
  }

  lemma ScannedKeepsReal(env: Env, s: System, block: Block)
    requires Laws(env) && Real(env, s) && s.flights == [] && ChainBlock(env, s, block)
    requires SystemSound(env, Scanned(env, s, block))
    ensures Real(env, Scanned(env, s, block))
  {
    ScannedKeepsBooks(env, s, block);
    ScanIsFresh(env, s, block);
    ScannedOriginate(s, Scanned(env, s, block), OwnedIn(env, s.w.addresses, block, 0), OutpointsIn(block));
  }

  lemma ScannedOriginate(s: System, s1: System, found: seq<UTXO>, outpoints: set<string>)
    requires AllOriginate(s, s.w.utxos) && forall u :: u in found ==> Outpoint(u) in outpoints
    requires s1.w.utxos == s.w.utxos + found && s1.sent == s.sent && s1.seen == s.seen + outpoints
    ensures AllOriginate(s1, s1.w.utxos)
  {
    forall i | 0 <= i < |s1.w.utxos| ensures Originates(s1, s1.w.utxos[i]) {
      if i < |s.w.utxos| {
        assert Originates(s, s.w.utxos[i]);
      } else {
        assert found[i - |s.w.utxos|] in found;
      }
    }
  }

  /// Sending

  lemma InternalKeyKnown(env: Env, w: Wallet, draw: KeyDraw)
    requires InternalKey(env, w, draw).0.Some?
    ensures var (key, w1) := InternalKey(env, w, draw);
      && env.child(Internal, w.internalIdx).Some?
      && key.value.address == env.addressOf(env.child(Internal, w.internalIdx).value)
      && Path(Internal, w.internalIdx) in w1.store.keys
      && w1.store.keys[Path(Internal, w.internalIdx)].address == key.value.address
  {
  }

  /** What a successful createRawTransaction tells. */
  lemma RawIsBuilt(env: Env, w: Wallet, address: string, amount: int, feeRate: int, used: seq<UTXO>, draw: KeyDraw)
    requires CreateRaw(env, w, address, amount, feeRate, used, draw).0.Ok?
    ensures env.payTo(address).Some? && Sum(used) > amount && InternalKey(env, w, draw).0.Some?
    ensures var key := InternalKey(env, w, draw).0.value;
      && env.payTo(key.address).Some?
      && CreateRaw(env, w, address, amount, feeRate, used, draw)
         == (Ok(Built(env.payTo(address).value, amount, used, env.payTo(key.address).value, feeRate)),
             InternalKey(env, w, draw).1)
  {
  }

  lemma InfoSeesOutputs(tx: MsgTx, tx': MsgTx, used: seq<UTXO>, amount: int)
    requires tx.outs == tx'.outs
    ensures InfoOf(tx, used, amount) == InfoOf(tx', used, amount)
  {
  }

  /** The outputs of a prepared transaction, and what updateWalletAfterTx reads from them when the
      change differs from the amount. */
  lemma PreparedOutputs(env: Env, w: Wallet, call: SendCall)
    requires Laws(env) && Sound(env, w)
    requires forall i :: 0 <= i < |call.used| ==> call.used[i] in w.utxos
    requires Prepared(env, w, call.address, call.amount, DEFAULT_FEE, call.used, call.draw).0.Ok?
    ensures var (r, w1) := Prepared(env, w, call.address, call.amount, DEFAULT_FEE, call.used, call.draw);
      var info := InfoOf(r.value, call.used, call.amount);
      && |r.value.outs| == 2 && r.value.outs[0].value == call.amount
      && Sum(call.used) > call.amount
      && Sum(call.used) == call.amount + r.value.outs[1].value + info.fee
      && info.fee == 4 * SerializeSize(r.value)
      && (r.value.outs[1].value != call.amount ==> info.changeIdx == 1 && info.changeOutput == r.value.outs[1])
      && PaysInternal(env, r.value.outs[1].script, w.internalIdx)
      && (exists path :: path in w1.store.keys
            && w1.store.keys[path].address == env.info(r.value.outs[1].script).address)
      && BooksOf(w1) == BooksOf(w)
  {
    var (r, w1) := Prepared(env, w, call.address, call.amount, DEFAULT_FEE, call.used, call.draw);
    var raw := CreateRaw(env, w, call.address, call.amount, DEFAULT_FEE, call.used, call.draw).0;
    OwnUTXOsAlwaysSign(env, w, call.address, call.amount, DEFAULT_FEE, call.used, call.draw);
    CreateRawTouches(env, w, call.address, call.amount, DEFAULT_FEE, call.used, call.draw);
    RawIsBuilt(env, w, call.address, call.amount, DEFAULT_FEE, call.used, call.draw);
    InternalKeyKnown(env, w, call.draw);
    var key := InternalKey(env, w, call.draw).0.value;
    BuiltIsReadBack(env.payTo(call.address).value, call.amount, call.used, env.payTo(key.address).value, DEFAULT_FEE);
    InfoSeesOutputs(r.value, raw.value, call.used, call.amount);
    assert Path(Internal, w.internalIdx) in w1.store.keys;
  }

  /** A selection made at rest spends unspent entries, each once. */
  lemma SelectionSpends(b: Books, spent: set<string>, amount: int, used: seq<UTXO>)
    requires RealBooks(b, spent) && Selects(amount, b.utxos, used)
    ensures Spends(used, b.utxos)
  {
    SelectedFromList(amount, b.utxos, used);
  }

  lemma SentOriginate(s: System, s1: System, us: seq<UTXO>, txid: string)
    requires AllOriginate(s, us) && s1.seen == s.seen && txid !in s.sent
    requires s1.sent.Keys == s.sent.Keys + {txid} && forall t :: t in s.sent ==> s1.sent[t] == s.sent[t]
    ensures AllOriginate(s1, us)
  {
    forall i | 0 <= i < |us| ensures Originates(s1, us[i]) {
      assert Originates(s, us[i]);
    }
  }

  lemma PlanIsReal(env: Env, s: System, call: SendCall, tx: MsgTx, w1: Wallet)
    requires Laws(env) && Real(env, s) && s.flights == [] && call.accepted
    requires Selects(call.amount, s.w.utxos, call.used) && SendAllowed(env, s, call)
    requires Prepared(env, s.w, call.address, call.amount, DEFAULT_FEE, call.used, call.draw) == (Ok(tx), w1)
    ensures PlanReal(PlanOf(env, w1, call, tx), BooksOf(w1), s.spent)
    ensures |tx.outs| == 2 && PlanOf(env, w1, call, tx).changeIdx == 1
    ensures PlanOf(env, w1, call, tx).changeOutput == tx.outs[1]
    ensures BooksOf(w1) == BooksOf(s.w)
  {
    SelectionSpends(BooksOf(s.w), s.spent, call.amount, call.used);
    PreparedOutputs(env, s.w, call);
    assert tx.outs[0].value >= 0 && tx.outs[1].value >= 0;
    assert call.used == [] ==> Sum(call.used) == 0;
  }

  lemma StartsAt(p: Plan, base: Books)
    ensures At(p, base, Nothing, Settling(base, Unstarted()))
  {
  }

  lemma ChangeStaysInternal(env: Env, sent: map<string, seq<TxOut>>, txid: string, outs: seq<TxOut>, j: uint32)
    requires ChangeIsInternal(env, sent) && |outs| == 2 && PaysInternal(env, outs[1].script, j)
    ensures ChangeIsInternal(env, sent[txid := outs])
  {
  }

  lemma LaunchedFlight(env: Env, s: System, call: SendCall, tx: MsgTx, w1: Wallet)
    requires RealBooks(BooksOf(s.w), s.spent) && BooksOf(w1) == BooksOf(s.w) && AllOriginate(s, s.w.utxos)
    requires PlanReal(PlanOf(env, w1, call, tx), BooksOf(w1), s.spent)
    requires PlanOf(env, w1, call, tx).changeIdx == 1 && |tx.outs| == 2
    requires PlanOf(env, w1, call, tx).changeOutput == tx.outs[1]
    requires ChangeKeyKnown(env, w1.store.keys, PlanOf(env, w1, call, tx))
    requires env.txHash(tx) !in s.sent && s.flights == []
    ensures var s1 := Launched(env, s, w1, call, tx); |s1.flights| == 1 && FlightReal(env, s1, s1.flights[0])
  {
    var s1 := Launched(env, s, w1, call, tx);
    assert s1.flights == [Flight(PlanOf(env, w1, call, tx), BooksOf(w1), Nothing, Unstarted(), s.spent)];
    StartsAt(PlanOf(env, w1, call, tx), BooksOf(w1));
    SentOriginate(s, s1, s.w.utxos, env.txHash(tx));
  }

  lemma LaunchKeepsReal(env: Env, s: System, call: SendCall, tx: MsgTx, w1: Wallet)
    requires Laws(env) && Real(env, s) && s.flights == [] && call.accepted
    requires Selects(call.amount, s.w.utxos, call.used) && SendAllowed(env, s, call)
    requires Prepared(env, s.w, call.address, call.amount, DEFAULT_FEE, call.used, call.draw) == (Ok(tx), w1)
    requires SystemSound(env, Launched(env, s, w1, call, tx))
    ensures Real(env, Launched(env, s, w1, call, tx))
  {
    PlanIsReal(env, s, call, tx, w1);
    SelectionSpends(BooksOf(s.w), s.spent, call.amount, call.used);
    PreparedOutputs(env, s.w, call);
    ChangeStaysInternal(env, s.sent, env.txHash(tx), tx.outs, s.w.internalIdx);
    LaunchedFlight(env, s, call, tx, w1);
  }

  /** The send gets as far as drawing a change key. */
  ghost predicate DrawsChange(env: Env, w: Wallet, call: SendCall) {
    && !w.locked && w.balance >= call.amount && Selects(call.amount, w.utxos, call.used)
    && env.payTo(call.address).Some? && forall i :: 0 <= i < |call.used| ==> env.validTxid(call.used[i].txid)
  }

  /** A send that is refused, anywhere on its way, leaves the list, the balance, the height and the addresses
      alone. Refused before its inputs have passed, it leaves everything as it was; refused later, it has
      drawn one change key, and nothing else. */
  lemma RefusedSendChangesNothing(env: Env, s: System, call: SendCall)
    requires SendStep(env, s, call).flights == s.flights
    ensures var s1 := SendStep(env, s, call);
      && BooksOf(s1.w) == BooksOf(s.w) && s1.w.lastScanned == s.w.lastScanned
      && s1.w.addresses == s.w.addresses && s1.spent == s.spent && s1.sent == s.sent
    ensures SendStep(env, s, call)
         == if DrawsChange(env, s.w, call) then s.(w := InternalKey(env, s.w, call.draw).1) else s
  {
    RawRefusals(env, s.w, call.address, call.amount, DEFAULT_FEE, call.used, call.draw);
    InternalKeyTouches(env, s.w, call.draw);
    RefusedCases(env, s, call, SendStep(env, s, call));
  }

  lemma RefusedCases(env: Env, s: System, call: SendCall, s1: System)
    requires s1 == SendStep(env, s, call) && s1.flights == s.flights
    ensures s.w.locked || s.w.balance < call.amount || !Selects(call.amount, s.w.utxos, call.used) ==> s1 == s
    ensures !s.w.locked && s.w.balance >= call.amount && Selects(call.amount, s.w.utxos, call.used) ==>
      s1 == s.(w := CreateRaw(env, s.w, call.address, call.amount, DEFAULT_FEE, call.used, call.draw).1)
  {
  }

  /** What changes neither the books nor the address of a known key keeps the law. */
  lemma FrameKeepsReal(env: Env, s: System, w1: Wallet)
    requires Real(env, s) && BooksOf(w1) == BooksOf(s.w) && KeysGrow(s.w.store.keys, w1.store.keys)
    requires SystemSound(env, s.(w := w1))
    ensures Real(env, s.(w := w1))
  {
    var s1 := s.(w := w1);
    if s.flights != [] {
      var f := s.flights[0];
      forall i | 0 <= i < |f.base.utxos| ensures Originates(s1, f.base.utxos[i]) {
        assert Originates(s, f.base.utxos[i]);
      }
    } else {
      forall i | 0 <= i < |s1.w.utxos| ensures Originates(s1, s1.w.utxos[i]) {
        assert Originates(s, s.w.utxos[i]);
      }
    }
  }

  lemma PreparedKeepsBooks(env: Env, w: Wallet, call: SendCall)
    ensures BooksOf(Prepared(env, w, call.address, call.amount, DEFAULT_FEE, call.used, call.draw).1) == BooksOf(w)
  {
    CreateRawTouches(env, w, call.address, call.amount, DEFAULT_FEE, call.used, call.draw);
  }

  lemma SendKeepsReal(env: Env, s: System, call: SendCall)
    requires Laws(env) && Real(env, s) && SendAllowed(env, s, call)
    ensures Real(env, SendStep(env, s, call))
  {
    var s1 := SendStep(env, s, call);
    SendKeepsSound(env, s, call);
    SendCases(env, s, call);
    if s1 != s {
      var (r, w1) := Prepared(env, s.w, call.address, call.amount, DEFAULT_FEE, call.used, call.draw);
      PreparedKeepsSound(env, s.w, call);
      if s1 == s.(w := w1) {
        PreparedKeepsBooks(env, s.w, call);
        FrameKeepsReal(env, s, w1);
      } else {
        LaunchKeepsReal(env, s, call, r.value, w1);
      }
    }
  }

  /// Settling

  lemma FlightIsReady(env: Env, s: System, f: Flight)
    requires FlightReal(env, s, f)
    ensures Ready(f.plan, f.base, f.look)
  {
    forall j | 0 <= j < |f.plan.used| ensures FirstWith(f.base.utxos, f.plan.used[j].txid) < |f.base.utxos| {
      HasFirst(f.base.utxos, f.plan.used[j]);
    }
    if f.look.Change? {
      FreshTxidFreshOutpoint(f.base.utxos, f.look.u);
      UsedAreListed(f.plan.used, f.base.utxos);
    }
  }

  lemma AtBeforeChange(p: Plan, base: Books, look: Look, look': Look, s: Settling)
    requires At(p, base, look, s) && s.tasks.changes == 0
    ensures At(p, base, look', s)
  {
  }

  /** The change task finds the change key and records the change. */
  lemma LookFindsChange(env: Env, keys: Keys, cursor: seq<string>, p: Plan)
    requires KeysDerived(env, keys) && Visits(cursor, keys) && ChangeKeyKnown(env, keys, p)
    ensures var look := LookAt(env, keys, cursor, p); look.Change? && IsRecordOf(p, look.u)
  {
    forall path | path in keys ensures path != "" {
      var c, i: uint32 :| DerivedAt(env, keys, path, c, i);
      PathShape(c, i);
    }
    PathForFinds(keys, cursor, env.info(p.changeOutput.script).address);
  }

  lemma SettledOriginate(s: System, p: Plan, base: Books, look: Look)
    requires AllOriginate(s, base.utxos) && look.Change? && p.changeSaved
    requires IsRecordOf(p, look.u) && p.changeIdx == 1
    requires p.txid in s.sent && |s.sent[p.txid]| == 2 && s.sent[p.txid][1] == p.changeOutput
    ensures AllOriginate(s, Settled(p, base, look).utxos)
  {
    MarkedOnlyFlags(p, base);
    var us := Settled(p, base, look).utxos;
    forall i | 0 <= i < |us| ensures Originates(s, us[i]) {
      if i < |base.utxos| {
        assert Originates(s, base.utxos[i]);
        assert us[i].(spent := false) == base.utxos[i].(spent := false);
      }
    }
  }

  lemma FairWhenReal(env: Env, s: System, f: Flight)
    requires FlightReal(env, s, f) && f.tasks.changes >= 1
    ensures SettlesFairly(f.plan, f.base, f.look, f.spentBefore)
  {
  }

  /** A lone flight is gone once its tasks are over, and otherwise moves on. */
  lemma LoneFlightLands(s: System, f: Flight, r: Settling)
    requires |s.flights| == 1
    ensures Resumed(s, 0, f, r).flights == if Done(f.plan, r.tasks) then [] else [f.(tasks := r.tasks)]
  {
  }

  /** Once every task is over, the law holds at rest. */
  lemma FinishedIsReal(env: Env, s: System, f: Flight, r: Settling, s1: System)
    requires |s.flights| == 1 && s1 == Resumed(s, 0, f, r)
    requires SystemSound(env, s1) && !s.panicked && ChangeIsInternal(env, s.sent)
    requires FlightReal(env, s, f) && f.tasks.changes >= 1
    requires Done(f.plan, r.tasks) && At(f.plan, f.base, f.look, r)
    ensures Real(env, s1)
  {
    LoneFlightLands(s, f, r);
    assert BooksOf(s1.w) == r.books;
    FairWhenReal(env, s, f);
    SettledOriginate(s, f.plan, f.base, f.look);
    DoneIsSettled(f.plan, f.base, f.look, r);
    SettlingKeepsReal(f.plan, f.base, f.look, f.spentBefore);
    forall i | 0 <= i < |s1.w.utxos| ensures Originates(s1, s1.w.utxos[i]) {
      assert Originates(s, Settled(f.plan, f.base, f.look).utxos[i]);
    }
  }

  /** Until then, it holds at the books the closed form gives. */
  lemma UnfinishedIsReal(env: Env, s: System, f: Flight, look: Look, r: Settling, s1: System)
    requires |s.flights| == 1 && s1 == Resumed(s, 0, f.(look := look), r)
    requires SystemSound(env, s1) && !s.panicked && ChangeIsInternal(env, s.sent)
    requires FlightReal(env, s, f) && !Done(f.plan, r.tasks) && At(f.plan, f.base, look, r)
    requires if r.tasks.changes == 0 then look == Nothing else look.Change? && IsRecordOf(f.plan, look.u)
    ensures Real(env, s1)
  {
    LoneFlightLands(s, f.(look := look), r);
    assert BooksOf(s1.w) == r.books;
    forall i | 0 <= i < |f.base.utxos| ensures Originates(s1, f.base.utxos[i]) {
      assert Originates(s, f.base.utxos[i]);
    }
  }

  lemma SteppedIsReal(env: Env, s: System, f: Flight, r: Settling, s1: System)
    requires |s.flights| == 1 && s1 == Resumed(s, 0, f, r)
    requires !s.panicked && ChangeIsInternal(env, s.sent) && FlightReal(env, s, f)
    requires At(f.plan, f.base, f.look, r) && (r.tasks.changes == 0 <==> f.tasks.changes == 0)
    requires SystemSound(env, s1)
    ensures Real(env, s1)
  {
    assert f.(look := f.look) == f;
    if Done(f.plan, r.tasks) {
      FinishedIsReal(env, s, f, r, s1);
    } else {
      UnfinishedIsReal(env, s, f, f.look, r, s1);
    }
  }

  /** One step of a task, the first of the change task apart. */
  lemma TaskKeepsReal(env: Env, s: System, f: Flight, task: Task, r: Settling, s1: System)
    requires |s.flights| == 1
    requires !s.panicked && ChangeIsInternal(env, s.sent) && FlightReal(env, s, f)
    requires Enabled(f.plan, f.tasks, task) && (task == ChangeTask ==> f.tasks.changes >= 1)
    requires r == Step(f.plan, f.look, Settling(BooksOf(s.w), f.tasks), task) && s1 == Resumed(s, 0, f, r)
    requires SystemSound(env, s1)
    ensures Real(env, s1)
  {
    FlightIsReady(env, s, f);
    StepKeepsAt(f.plan, f.base, f.look, Settling(BooksOf(s.w), f.tasks), task);
    StepKeepsChangesBegun(f.plan, f.look, Settling(BooksOf(s.w), f.tasks), task);
    SteppedIsReal(env, s, f, r, s1);
  }

  lemma StepKeepsChangesBegun(p: Plan, look: Look, s: Settling, task: Task)
    requires Enabled(p, s.tasks, task) && (task == ChangeTask ==> s.tasks.changes >= 1)
    ensures Step(p, look, s, task).tasks.changes == 0 <==> s.tasks.changes == 0
  {
  }

  /** The first step of the change task, which looks the change key up. */
  lemma FirstChangeKeepsReal(env: Env, s: System, f: Flight, cursor: seq<string>, look: Look, s1: System)
    requires |s.flights| == 1
    requires !s.panicked && ChangeIsInternal(env, s.sent) && FlightReal(env, s, f) && f.tasks.changes == 0
    requires KeysDerived(env, s.w.store.keys) && Visits(cursor, s.w.store.keys)
    requires look == LookAt(env, s.w.store.keys, cursor, f.plan)
    requires s1 == Resumed(s, 0, f.(look := look), ChangeStep(f.plan, look, Settling(BooksOf(s.w), f.tasks)))
    requires SystemSound(env, s1)
    ensures look.Change? && Real(env, s1)
  {
    var now := Settling(BooksOf(s.w), f.tasks);
    LookFindsChange(env, s.w.store.keys, cursor, f.plan);
    AtBeforeChange(f.plan, f.base, f.look, look, now);
    LookedIsReady(env, s, f, look);
    StepKeepsAt(f.plan, f.base, look, now, ChangeTask);
    UnfinishedIsReal(env, s, f, look, ChangeStep(f.plan, look, now), s1);
  }

  lemma LookedIsReady(env: Env, s: System, f: Flight, look: Look)
    requires FlightReal(env, s, f) && look.Change? && IsRecordOf(f.plan, look.u)
    ensures Ready(f.plan, f.base, look)
  {
    FlightIsReady(env, s, f);
    FreshTxidFreshOutpoint(f.base.utxos, look.u);
    UsedAreListed(f.plan.used, f.base.utxos);
  }

  /** The two steps of the change task, as settlement steps. */
  lemma ChangeStepIs(env: Env, s: System, f: Flight, cursor: seq<string>)
    requires |s.flights| == 1 && s.flights[0] == f
    requires Enabled(f.plan, f.tasks, ChangeTask)
    ensures var look := LookAt(env, s.w.store.keys, cursor, f.plan);
      f.tasks.changes == 0 && !look.Panics? ==>
        SettlementStep(env, s, 0, ChangeNext(0, cursor))
        == Resumed(s, 0, f.(look := look), ChangeStep(f.plan, look, Settling(BooksOf(s.w), f.tasks)))
    ensures f.tasks.changes != 0 ==>
        SettlementStep(env, s, 0, ChangeNext(0, cursor))
        == Resumed(s, 0, f, Step(f.plan, f.look, Settling(BooksOf(s.w), f.tasks), ChangeTask))
  {
  }

  lemma ChangeKeepsReal(env: Env, s: System, f: Flight, cursor: seq<string>, s1: System)
    requires |s.flights| == 1 && s.flights[0] == f
    requires !s.panicked && ChangeIsInternal(env, s.sent) && FlightReal(env, s, f)
    requires KeysDerived(env, s.w.store.keys) && Visits(cursor, s.w.store.keys)
    requires Enabled(f.plan, f.tasks, ChangeTask)
    requires s1 == SettlementStep(env, s, 0, ChangeNext(0, cursor)) && SystemSound(env, s1)
    ensures Real(env, s1)
  {
    ChangeStepIs(env, s, f, cursor);
    if f.tasks.changes == 0 {
      LookFindsChange(env, s.w.store.keys, cursor, f.plan);
      FirstChangeKeepsReal(env, s, f, cursor, LookAt(env, s.w.store.keys, cursor, f.plan), s1);
    } else {
      TaskKeepsReal(env, s, f, ChangeTask, Step(f.plan, f.look, Settling(BooksOf(s.w), f.tasks), ChangeTask), s1);
    }
  }

  lemma SettlementKeepsReal(env: Env, s: System, e: Event)
    requires Real(env, s) && |s.flights| == 1 && Allowed(env, s, e)
    requires (e.MarkNext? || e.ChangeNext? || e.BalanceNext?) && e.i == 0
    ensures Real(env, SettlementStep(env, s, 0, e))
  {
    var f, s1 := s.flights[0], SettlementStep(env, s, 0, e);
    SettlementKeepsSound(env, s, 0, e);
    if e.ChangeNext? {
      if Enabled(f.plan, f.tasks, ChangeTask) { ChangeKeepsReal(env, s, f, e.cursor, s1); }
    } else {
      var task := if e.MarkNext? then MarkTask else BalanceTask;
      if Enabled(f.plan, f.tasks, task) {
        TaskKeepsReal(env, s, f, task, Step(f.plan, f.look, Settling(BooksOf(s.w), f.tasks), task), s1);
      }
    }
  }

  /// New addresses, locks and restarts

  lemma ExternalKeyTouches(env: Env, w: Wallet, draw: KeyDraw)
    ensures BooksOf(ExternalKey(env, w, draw).1) == BooksOf(w)
  {
  }

  lemma LoadedBooks(w: Wallet, keyCursor: seq<string>, utxoCursor: seq<string>, height: Option<int>, saved: bool)
    requires w.store.balance == Int64ToBytes(w.balance) && IsInt64(w.balance)
    ensures var r := Loaded(w.store, keyCursor, utxoCursor, height, saved);
      r.Some? ==> BooksOf(r.value) == BooksOf(w).(utxos := StoredUTXOs(w.store.utxos, utxoCursor))
  {
    Int64Survives(w.balance);
  }

  lemma RestartedOriginate(s: System, s1: System, cursor: seq<string>)
    requires AllOriginate(s, s.w.utxos) && s1.seen == s.seen && s1.sent == s.sent
    requires ListStored(s.w.utxos, s.w.store.utxos) && Visits(cursor, s.w.store.utxos)
    requires s1.w.utxos == StoredUTXOs(s.w.store.utxos, cursor)
    ensures AllOriginate(s1, s1.w.utxos)
  {
    ReadUTXOs(s.w.store.utxos, cursor);
    forall i | 0 <= i < |s1.w.utxos| ensures Originates(s1, s1.w.utxos[i]) {
      ReadEntry(s.w.utxos, s.w.store.utxos, cursor[i]);
      var k :| 0 <= k < |s.w.utxos| && Unflagged(s.w.utxos)[k] == s1.w.utxos[i];
      assert Originates(s, s.w.utxos[k]);
    }
  }

  lemma RestartKeepsRealRun(env: Env, s: System, e: Event)
    requires Laws(env) && Real(env, s) && e.Restart? && Allowed(env, s, e)
    ensures Real(env, RestartStep(s, e))
  {
    var s1 := RestartStep(s, e);
    if s1 != s {
      ExecKeepsSound(env, s, e);
      LoadedBooks(s.w, e.keyCursor, e.utxoCursor, e.height, e.saved);
      RestartKeepsReal(BooksOf(s.w), s.spent, e.utxoCursor);
      RestartedOriginate(s, s1, e.utxoCursor);
    }
  }

  /// Runs

  lemma DrawKeepsReal(env: Env, s: System, e: Event, s1: System)
    requires Laws(env) && Real(env, s) && e.NewAddress? && s1 == Exec(env, s, e)
    ensures Real(env, s1)
  {
    ExecKeepsSound(env, s, e);
    ExternalKeyKeepsSound(env, s.w, e.draw);
    ExternalKeyTouches(env, s.w, e.draw);
    FrameKeepsReal(env, s, ExternalKey(env, s.w, e.draw).1);
  }

  lemma ScansKeepReal(env: Env, s: System, e: Event, s1: System)
    requires Laws(env) && Real(env, s) && Allowed(env, s, e) && (e.ScanNext? || e.NotifyBlock?)
    requires s1 == Exec(env, s, e)
    ensures Real(env, s1)
  {
    ExecKeepsSound(env, s, e);
    if e.ScanNext? {
      ScanIsScanned(env, s, e.block, e.ok, s1);
      ScannedKeepsReal(env, s, e.block);
    } else {
      NotifiedIsScanned(env, s, e.txs, e.ok, s1);
      ScannedKeepsReal(env, s, e.txs);
    }
  }

  lemma LockIs(env: Env, s: System, e: Event)
    requires !s.panicked && (e.LockWallet? || e.UnlockWallet?)
    ensures Exec(env, s, e) == s.(w := s.w.(locked := e.LockWallet?))
  {
  }

  lemma LockKeepsReal(env: Env, s: System, e: Event, s1: System)
    requires Laws(env) && Real(env, s) && (e.LockWallet? || e.UnlockWallet?) && s1 == Exec(env, s, e)
    ensures Real(env, s1)
  {
    ExecKeepsSound(env, s, e);
    LockIs(env, s, e);
    FrameKeepsReal(env, s, s.w.(locked := e.LockWallet?));
  }

  lemma TaskStepKeepsReal(env: Env, s: System, e: Event, s1: System)
    requires Real(env, s) && Allowed(env, s, e) && (e.MarkNext? || e.ChangeNext? || e.BalanceNext?)
    requires s1 == Exec(env, s, e)
    ensures Real(env, s1)
  {
    if e.i < |s.flights| { SettlementKeepsReal(env, s, e); }
  }

  lemma SendEventKeepsReal(env: Env, s: System, e: Event, s1: System)
    requires Laws(env) && Real(env, s) && Allowed(env, s, e) && e.Send? && s1 == Exec(env, s, e)
    ensures Real(env, s1)
  {
    SendIsItsStep(env, s, e.call);
    SendKeepsReal(env, s, e.call);
  }

  lemma RestartEventKeepsReal(env: Env, s: System, e: Event, s1: System)
    requires Laws(env) && Real(env, s) && Allowed(env, s, e) && e.Restart? && s1 == Exec(env, s, e)
    ensures Real(env, s1)
  {
    RestartKeepsRealRun(env, s, e);
  }

  lemma ExecKeepsReal(env: Env, s: System, e: Event, s1: System)
    requires Laws(env) && Real(env, s) && Allowed(env, s, e) && s1 == Exec(env, s, e)
    ensures Real(env, s1)
  {
    match e
    case Restart(_, _, _, _) => RestartEventKeepsReal(env, s, e, s1);
    case NewAddress(_) => DrawKeepsReal(env, s, e, s1);
    case ScanNext(_, _) => ScansKeepReal(env, s, e, s1);
    case NotifyBlock(_, _) => ScansKeepReal(env, s, e, s1);
    case Send(_) => SendEventKeepsReal(env, s, e, s1);
    case LockWallet => LockKeepsReal(env, s, e, s1);
    case UnlockWallet => LockKeepsReal(env, s, e, s1);
    case MarkNext(_) => TaskStepKeepsReal(env, s, e, s1);
    case ChangeNext(_, _) => TaskStepKeepsReal(env, s, e, s1);
    case BalanceNext(_) => TaskStepKeepsReal(env, s, e, s1);
  }

  lemma {:induction false} RunKeepsReal(env: Env, s: System, events: seq<Event>)
    requires Laws(env) && Real(env, s) && AllowedRun(env, s, events)
    ensures Real(env, Run(env, s, events))
    decreases |events|
  {
    if events != [] {
      ExecKeepsReal(env, s, events[0], Exec(env, s, events[0]));
      RunKeepsReal(env, Exec(env, s, events[0]), events[1..]);
    }
  }

  lemma InitialIsReal(env: Env, encodedHash: string, height: int, saved: bool)
    ensures Real(env, Initial(NewWallet(encodedHash, height, saved)))
  {
    var w := NewWallet(encodedHash, height, saved);
    assert Outpoints(w.utxos) == {};
    assert ListStored(w.utxos, w.store.utxos);
  }

  /** Whatever a run of scans, sends, settlements in any order, key draws and restarts, whenever no
      task is pending the balance is the value of the entries no accepted transaction has spent, in
      memory and in the store, and it is not negative. */
  lemma BalanceIsWhatIsLeft(env: Env, encodedHash: string, height: int, saved: bool, events: seq<Event>)
    requires Laws(env) && AllowedRun(env, Initial(NewWallet(encodedHash, height, saved)), events)
    ensures var s := Run(env, Initial(NewWallet(encodedHash, height, saved)), events);
      s.flights == [] ==>
        && s.w.balance == SumOutside(s.w.utxos, s.spent) && s.w.balance >= 0
        && s.w.store.balance == Int64ToBytes(s.w.balance)
        && ListStored(s.w.utxos, s.w.store.utxos) && DistinctOutpoints(s.w.utxos)
  {
    var s := Run(env, Initial(NewWallet(encodedHash, height, saved)), events);
    InitialIsReal(env, encodedHash, height, saved);
    RunKeepsReal(env, Initial(NewWallet(encodedHash, height, saved)), events);
    if s.flights == [] {
      SumsAreNonNegative(s.w.utxos, s.spent);
    }
  }
}
