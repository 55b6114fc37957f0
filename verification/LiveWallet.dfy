/** The wallet object and its database, updated in place. Every method is proved against what Ledger,
    Scanning, Settlement and Runs say it makes of the state. Whether a database write succeeds, what
    the node answers and in which order a cursor walks are parameters. */
module LiveWallet {
  import opened Text
  import opened StoreCodec
  import opened Coins
  import opened CoinSelection
  import opened Node
  import opened KeyChain
  import opened Transactions
  import opened Ledger
  import opened Scanning
  import opened Settlement
  import opened Runs
  import Passphrase
  import Relock

  /** The buckets (wallet/db.go). A write either happens as a whole or not at all. */
  class Database {
    var keys: Keys
    var utxos: map<string, UTXO>
    var balance: Bytes8
    var externalIdx: Bytes4
    var internalIdx: Bytes4
    var lastScanned: Bytes8
    var encodedHash: string

    function Contents(): Store
      reads this
    {
      Store(keys, utxos, balance, externalIdx, internalIdx, lastScanned, encodedHash)
    }

    /** The buckets of a new wallet. */
    constructor (encodedHash: string)
      ensures Contents() == CreatedStore(encodedHash)
    {
      keys, utxos := map[], map[];
      balance, lastScanned := Int64ToBytes(0), Int64ToBytes(0);
      externalIdx, internalIdx := Uint32ToBytes(0), Uint32ToBytes(0);
      this.encodedHash := encodedHash;
    }

    /** A put that finds its key missing is refused. */
    method UpdateUTXO(key: string, u: UTXO, saved: bool) returns (ok: bool)
      modifies `utxos
      ensures ok <==> saved && key in old(utxos)
      ensures utxos == if ok then old(utxos)[key := u] else old(utxos)
    {
      ok := key in utxos && saved;
      if ok {
        utxos := utxos[key := u];
      }
    }
  }

  class Wallet {
    const db: Database
    var utxos: seq<UTXO>
    var balance: int
    var lastExternalIdx: uint32
    var lastInternalIdx: uint32
    var lastScannedBlock: int
    var addresses: map<string, string>
    var locked: bool

    function State(): Ledger.Wallet
      reads this, db
    {
      Ledger.Wallet(utxos, balance, lastExternalIdx, lastInternalIdx, lastScannedBlock, addresses, locked,
                    db.Contents())
    }

    constructor (db: Database)
      ensures this.db == db
      ensures State() == Ledger.Wallet([], 0, 0, 0, 0, map[], false, db.Contents())
    {
      this.db := db;
      utxos, balance, addresses, locked := [], 0, map[], false;
      lastExternalIdx, lastInternalIdx, lastScannedBlock := 0, 0, 0;
    }

    /// Write-through setters

    method SetBalance(amount: int, saved: bool)
      modifies this, db
      ensures State() == if saved then WithBalance(old(State()), amount) else old(State())
    {
      if saved {
        db.balance := Int64ToBytes(amount);
        balance := amount;
      }
    }

    method SetLastScannedBlock(height: int, saved: bool)
      modifies this, db
      ensures State() == if saved then WithLastScanned(old(State()), height) else old(State())
    {
      if saved {
        db.lastScanned := Int64ToBytes(height);
        lastScannedBlock := height;
      }
    }

    method SetLastExternalIdx(idx: uint32, saved: bool)
      modifies this, db
      ensures State() == if saved then WithExternalIdx(old(State()), idx) else old(State())
    {
      if saved {
        db.externalIdx := Uint32ToBytes(idx);
        lastExternalIdx := idx;
      }
    }

    method SetLastInternalIdx(idx: uint32, saved: bool)
      modifies this, db
      ensures State() == if saved then WithInternalIdx(old(State()), idx) else old(State())
    {
      if saved {
        db.internalIdx := Uint32ToBytes(idx);
        lastInternalIdx := idx;
      }
    }

    method AddUTXO(u: UTXO, saved: bool)
      modifies this, db
      ensures State() == if saved then WithUTXO(old(State()), u) else old(State())
      ensures saved ==> db.utxos == old(db.utxos)[u.txid + ":" + Decimal(u.vout) := u]
    {
      if saved {
        db.utxos := db.utxos[Outpoint(u) := u];
        utxos := utxos + [u];
      }
    }

    method SaveKeyPair(path: string, key: KeyPair, saved: bool)
      modifies db
      ensures State() == if saved then WithKeyPair(old(State()), path, key) else old(State())
    {
      if saved {
        db.keys := db.keys[path := key];
      }
    }

    method AddKey(path: string, key: KeyPair, saved: bool)
      modifies this, db
      ensures State() == if saved then WithKey(old(State()), path, key) else old(State())
    {
      SaveKeyPair(path, key, saved);
      if saved {
        addresses := addresses[key.address := path];
      }
    }

    /// Keys (wallet/keys.go)

    method GenerateNewExternalKeyPair(env: Env, draw: KeyDraw) returns (key: Option<KeyPair>)
      modifies this, db
      ensures (key, State()) == ExternalKey(env, old(State()), draw)
      ensures key.Some? ==>
        var path := "m/44'/1'/0'/0/" + Decimal(old(lastExternalIdx));
        db.keys == old(db.keys)[path := key.value] && addresses == old(addresses)[key.value.address := path]
    {
      PathTexts(lastExternalIdx);
      key := None;
      var child := env.child(External, lastExternalIdx);
      if child.Some? {
        var newKey := NewKeyPair(env, child.value, draw.nonce);
        AddKey(Path(External, lastExternalIdx), newKey, draw.keySaved);
        if draw.keySaved {
          SetLastExternalIdx(NextIdx(lastExternalIdx), draw.indexSaved);
          key := if draw.indexSaved then Some(newKey) else None;
        }
      }
    }

    /** Change keys go to the bucket, and never to the address map. */
    method GenerateNewInternalKeyPair(env: Env, draw: KeyDraw) returns (key: Option<KeyPair>)
      modifies this, db
      ensures (key, State()) == InternalKey(env, old(State()), draw)
      ensures key.Some? ==> db.keys == old(db.keys)["m/44'/1'/0'/1/" + Decimal(old(lastInternalIdx)) := key.value]
      ensures addresses == old(addresses)
    {
      PathTexts(lastInternalIdx);
      key := None;
      var child := env.child(Internal, lastInternalIdx);
      if child.Some? {
        var newKey := NewKeyPair(env, child.value, draw.nonce);
        SaveKeyPair(Path(Internal, lastInternalIdx), newKey, draw.keySaved);
        if draw.keySaved {
          SetLastInternalIdx(NextIdx(lastInternalIdx), draw.indexSaved);
          key := if draw.indexSaved then Some(newKey) else None;
        }
      }
    }

    method GetNewAddress(env: Env, draw: KeyDraw) returns (address: Option<string>)
      modifies this, db
      ensures State() == ExternalKey(env, old(State()), draw).1
      ensures var key := ExternalKey(env, old(State()), draw).0;
        address == if key.Some? then Some(key.value.address) else None
    {
      var key := GenerateNewExternalKeyPair(env, draw);
      address := if key.Some? then Some(key.value.address) else None;
    }

    /// Reading the buckets (wallet/db.go)

    method GetDerivationPathForAddress(address: string, cursor: seq<string>) returns (path: string)
      ensures path == PathFor(db.keys, cursor, address)
    {
      path := "";
      var i := 0;
      while i < |cursor|
        invariant i <= |cursor| && path == ""
        invariant PathFor(db.keys, cursor, address) == PathFor(db.keys, cursor[i..], address)
      {
        assert cursor[i..][1..] == cursor[i + 1..];
        if cursor[i] in db.keys && db.keys[cursor[i]].address == address {
          path := cursor[i];
          break;
        }
        i := i + 1;
      }
    }

    method LoadExternalAddresses(cursor: seq<string>)
      modifies `addresses
      ensures addresses == old(addresses) + ExternalAddresses(db.keys, cursor)
    {
      for i := 0 to |cursor|
        invariant addresses == old(addresses) + ExternalAddresses(db.keys, cursor[..i])
      {
        assert cursor[..i + 1][..i] == cursor[..i];
        var k := cursor[i];
        if k in db.keys && Contains(k, EXTERNAL_MARK) {
          addresses := addresses[db.keys[k].address := k];
        }
      }
      assert cursor[..|cursor|] == cursor;
    }

    method LoadUTXOs(cursor: seq<string>)
      modifies `utxos
      ensures utxos == StoredUTXOs(db.utxos, cursor)
    {
      var loaded: seq<UTXO> := [];
      for i := 0 to |cursor|
        invariant loaded == StoredUTXOs(db.utxos, cursor[..i])
      {
        assert cursor[..i + 1][..i] == cursor[..i];
        if cursor[i] in db.utxos {
          loaded := loaded + [db.utxos[cursor[i]]];
        }
      }
      assert cursor[..|cursor|] == cursor;
      utxos := loaded;
    }

    /** LoadWallet, on the object NewWallet made. */
    method Load(keyCursor: seq<string>, utxoCursor: seq<string>, height: Option<int>, saved: bool) returns (ok: bool)
      requires addresses == map[]
      modifies this, db
      ensures ok <==> Loaded(old(db.Contents()), keyCursor, utxoCursor, height, saved).Some?
      ensures ok ==> State() == Loaded(old(db.Contents()), keyCursor, utxoCursor, height, saved).value
      ensures !ok ==> db.Contents() == old(db.Contents())
    {
      balance := BytesToInt64(db.balance);
      lastExternalIdx, lastInternalIdx := BytesToUint32(db.externalIdx), BytesToUint32(db.internalIdx);
      lastScannedBlock := BytesToInt64(db.lastScanned);
      locked := true;
      LoadExternalAddresses(keyCursor);
      LoadUTXOs(utxoCursor);
      ok := true;
      if lastScannedBlock == 0 {
        if height.None? {
          ok := false;
        } else {
          SetLastScannedBlock(height.value - 10, saved);
        }
      }
    }

    /// Scanning (wallet/scan.go)

    method Credit(u: UTXO, writes: nat, ok: Writes) returns (writes': nat, running: bool)
      modifies this, db
      ensures Scan(State(), writes', running) == Ledger.Credit(Scan(old(State()), writes, true), u, ok)
    {
      writes', running := writes + 1, ok(writes);
      AddUTXO(u, running);
      if running {
        running := ok(writes');
        SetBalance(balance + u.value, running);
        writes' := writes' + 1;
      }
    }

    /** The outputs of one transaction, up to the first that ends the scan. */
    method ScanOutputs(env: Env, tx: BlockTx, writes: nat, ok: Writes) returns (writes': nat, running: bool)
      modifies this, db
      ensures Scan(State(), writes', running) == Ledger.ScanOutputs(env, Scan(old(State()), writes, true), tx, 0, ok)
    {
      writes', running := writes, true;
      var k := 0;
      while k < |tx.outs| && running
        invariant k <= |tx.outs|
        invariant Ledger.ScanOutputs(env, Scan(State(), writes', running), tx, k, ok)
               == Ledger.ScanOutputs(env, Scan(old(State()), writes, true), tx, 0, ok)
      {
        var out := tx.outs[k];
        match env.info(out.script) {
          case Malformed => running := false;
          case NoAddress =>
          case Pays(kind, address) =>
            if kind != OtherClass && address in addresses {
              var u := NewUTXO(tx.txid, Index32(k), out.value, out.script, addresses[address]);
              writes', running := Credit(u, writes', ok);
            }
        }
        k := k + 1;
      }
    }

    method ScanBlock(env: Env, block: Block, ok: Writes)
      modifies this, db
      ensures State() == Ledger.ScanBlock(env, old(State()), block, ok)
    {
      var writes, running := 0, true;
      var i := 0;
      while i < |block| && running
        invariant i <= |block|
        invariant ScanTxs(env, Scan(State(), writes, running), block, i, ok)
               == ScanTxs(env, Scan(old(State()), 0, true), block, 0, ok)
      {
        writes, running := ScanOutputs(env, block[i], writes, ok);
        i := i + 1;
      }
      if running {
        SetLastScannedBlock(lastScannedBlock + 1, ok(writes));
      }
    }

    method ScanNotifiedOutputs(env: Env, tx: BlockTx, writes: nat, ok: Writes) returns (writes': nat, running: bool)
      modifies this, db
      ensures Scan(State(), writes', running) == NotifiedOutputs(env, Scan(old(State()), writes, true), tx, 0, ok)
    {
      writes', running := writes, true;
      var k := 0;
      while k < |tx.outs| && running
        invariant k <= |tx.outs|
        invariant NotifiedOutputs(env, Scan(State(), writes', running), tx, k, ok)
               == NotifiedOutputs(env, Scan(old(State()), writes, true), tx, 0, ok)
      {
        var out := tx.outs[k];
        match env.info(out.script) {
          case Pays(_, address) =>
            if address in addresses {
              var u := NewUTXO(tx.txid, Index32(k), out.value, out.script, addresses[address]);
              AddUTXO(u, ok(writes'));
              SetBalance(balance + u.value, ok(writes' + 1));
              writes' := writes' + 2;
            }
          case _ => running := false;
        }
        k := k + 1;
      }
    }

    /** `panicked` tells that a script without an address was met. */
    method ScanBlockTxs(env: Env, txs: Block, ok: Writes) returns (panicked: bool)
      modifies this, db
      ensures State() == Ledger.ScanBlockTxs(env, old(State()), txs, ok).w
      ensures panicked <==> !Ledger.ScanBlockTxs(env, old(State()), txs, ok).running
    {
      var writes, running := 0, true;
      var i := 0;
      while i < |txs| && running
        invariant i <= |txs|
        invariant NotifiedTxs(env, Scan(State(), writes, running), txs, i, ok)
               == NotifiedTxs(env, Scan(old(State()), 0, true), txs, 0, ok)
      {
        writes, running := ScanNotifiedOutputs(env, txs[i], writes, ok);
        i := i + 1;
      }
      panicked := !running;
      if running {
        SetLastScannedBlock(lastScannedBlock + 1, ok(writes));
      }
    }

    /** One round of the loop. */
    method ScanNext(env: Env, chain: seq<Block>, outcome: Outcome)
      modifies this, db
      ensures State() == ScanRound(env, old(State()), chain, outcome)
    {
      if 0 <= lastScannedBlock + 1 < |chain| {
        var block := chain[lastScannedBlock + 1];
        match outcome {
          case None => ScanBlock(env, block, Working());
          case Some(StoreFails(ok)) => ScanBlock(env, block, ok);
          case _ =>
        }
      }
    }

    /** The loop, for as many rounds as there are outcomes. `done` tells that it came to its own end; a
        block whose scripts do not parse, or a height below -1, keeps it from that for ever. */
    method ScanMissingBlocks(env: Env, chain: seq<Block>, height: Option<int>, outcomes: seq<Outcome>)
      returns (done: bool)
      modifies this, db
      ensures State() == if height.None? then old(State())
                         else ScanRounds(env, old(State()), chain, height.value, outcomes)
      ensures done <==> height.None? || height.value <= lastScannedBlock
      ensures height.Some? && Undisturbed(env, old(lastScannedBlock), chain, height.value, outcomes) ==>
        State() == ScannedTo(env, old(State()), chain, Reach(old(lastScannedBlock), height.value, Successes(outcomes)))
    {
      done := true;
      if height.Some? {
        if Undisturbed(env, lastScannedBlock, chain, height.value, outcomes) {
          ExactlyOnce(env, State(), chain, height.value, outcomes);
        }
        var left := outcomes;
        while lastScannedBlock < height.value && left != []
          invariant ScanRounds(env, State(), chain, height.value, left)
                 == ScanRounds(env, old(State()), chain, height.value, outcomes)
          decreases |left|
        {
          ScanNext(env, chain, left[0]);
          left := left[1..];
        }
        done := height.value <= lastScannedBlock;
      }
    }

    /// Sending (wallet/tx.go, wallet/rpc.go)

    static method AddInputs(env: Env, tx: MsgTx, used: seq<UTXO>) returns (rawTx: MsgTx, total: int, ok: bool)
      ensures ok <==> forall i :: 0 <= i < |used| ==> env.validTxid(used[i].txid)
      ensures ok ==> rawTx == tx.(ins := tx.ins + InputsFor(used)) && total == Sum(used)
    {
      rawTx, total, ok := tx, 0, true;
      var i := 0;
      while i < |used|
        invariant i <= |used| && ok
        invariant forall j :: 0 <= j < i ==> env.validTxid(used[j].txid)
        invariant total == Sum(used[..i]) && rawTx == tx.(ins := tx.ins + InputsFor(used[..i]))
      {
        ok := env.validTxid(used[i].txid);
        if !ok {
          break;
        }
        assert used[..i + 1] == used[..i] + [used[i]];
        SumPush(used[..i], used[i]);
        assert InputsFor(used[..i + 1]) == InputsFor(used[..i]) + [InputFor(used[i])];
        rawTx := rawTx.(ins := rawTx.ins + [InputFor(used[i])]);
        total := total + used[i].value;
        i := i + 1;
      }
      assert ok ==> used[..i] == used;
    }

    /** The change comes last, and pays the fee of the transaction it completes. */
    static method AddChange(tx: MsgTx, change: TxOut, feeRate: int) returns (rawTx: MsgTx)
      ensures var full := tx.(outs := tx.outs + [change]);
        rawTx == tx.(outs := tx.outs + [change.(value := change.value - EstimateFee(full, feeRate))])
    {
      rawTx := tx.(outs := tx.outs + [change]);
      var fee := EstimateFee(rawTx, feeRate);
      var last := |rawTx.outs| - 1;
      rawTx := rawTx.(outs := rawTx.outs[last := rawTx.outs[last].(value := rawTx.outs[last].value - fee)]);
    }

    /** The script of a new change key. */
    method DrawChange(env: Env, draw: KeyDraw) returns (change: Option<Script>)
      modifies this, db
      ensures State() == InternalKey(env, old(State()), draw).1
      ensures var key := InternalKey(env, old(State()), draw).0;
        change == if key.None? then None else env.payTo(key.value.address)
    {
      var key := GenerateNewInternalKeyPair(env, draw);
      change := if key.None? then None else env.payTo(key.value.address);
    }

    method CreateRawTransaction(env: Env, address: string, amountToSend: int, feeRate: int, used: seq<UTXO>,
                                draw: KeyDraw)
      returns (r: Result<MsgTx>)
      modifies this, db
      ensures (r, State()) == CreateRaw(env, old(State()), address, amountToSend, feeRate, used, draw)
      ensures r == Err(BadAddress) <==> env.payTo(address).None?
      ensures r == Err(BadInput) <==>
        env.payTo(address).Some? && exists i :: 0 <= i < |used| && !env.validTxid(used[i].txid)
      ensures r == Err(InsufficientAmount) <==>
        && env.payTo(address).Some? && (forall i :: 0 <= i < |used| ==> env.validTxid(used[i].txid))
        && Sum(used) <= amountToSend
      ensures r.Ok? || r.error in {BadAddress, BadInput, InsufficientAmount, NoChangeKey}
      ensures r.Err? && r.error in {BadAddress, BadInput, InsufficientAmount} ==> State() == old(State())
    {
      var target := env.payTo(address);
      if target.None? {
        return Err(BadAddress);
      }
      var rawTx, total, ok := AddInputs(env, MsgTx([], [TxOut(amountToSend, target.value)]), used);
      if !ok {
        return Err(BadInput);
      }
      if total <= amountToSend {
        return Err(InsufficientAmount);
      }
      RawWithChange(env, State(), address, amountToSend, feeRate, used, draw);
      var change := DrawChange(env, draw);
      if change.None? {
        return Err(NoChangeKey);
      }
      rawTx := AddChange(rawTx, TxOut(total - amountToSend, change.value), feeRate);
      AddedIsBuilt(target.value, amountToSend, used, change.value, feeRate, rawTx);
      r := Ok(rawTx);
    }

    method SignTransaction(env: Env, tx: MsgTx, used: seq<UTXO>) returns (r: Option<MsgTx>)
      requires |tx.ins| == |used|
      ensures r == Signed(env, db.keys, tx, used)
    {
      var ins := tx.ins;
      for i := 0 to |tx.ins|
        invariant SignInputs(env, db.keys, tx.ins, used, i) == Some(ins)
        invariant |ins| == |used|
      {
        var input := SignInput(env, db.keys, ins[i], used[i], i);
        if input.None? {
          StaysUnsigned(env, db.keys, tx.ins, used, i + 1, |used|);
          return None;
        }
        ins := ins[i := input.value];
      }
      r := Some(tx.(ins := ins));
    }

    /** What the three goroutines are given. */
    method UpdateWalletAfterTx(env: Env, tx: MsgTx, call: SendCall) returns (p: Plan)
      ensures p == PlanOf(env, State(), call, tx)
    {
      var info := ExtractTxInfo(tx, call.used, call.amount);
      p := Plan(call.used, env.txHash(tx), info.changeOutput, Index32(info.changeIdx),
                balance - call.amount - info.fee, call.markSaved, call.changeSaved, call.balanceSaved);
    }

    /** The first entry with the TxID, or the length of the list. */
    method FindByTxid(txid: string) returns (i: nat)
      ensures i == FirstWith(utxos, txid)
    {
      i := 0;
      while i < |utxos| && utxos[i].txid != txid
        invariant i <= |utxos|
        invariant forall k :: 0 <= k < i ==> utxos[k].txid != txid
      {
        i := i + 1;
      }
      FirstWithIs(utxos, txid, i);
    }

    /** The mark of one UTXO: its entry is flagged only if the store took the write. */
    method MarkOne(p: Plan, j: nat, ghost base: Books)
      requires j < |p.used|
      requires BooksOf(State()) == AfterMarks(p, base, j)
      modifies this, db
      ensures State() == WithBooks(old(State()), AfterMarks(p, base, j + 1))
    {
      NextMark(p, base, j);
      var i := FindByTxid(p.used[j].txid);
      if i < |utxos| {
        var ok := db.UpdateUTXO(Outpoint(p.used[j]), p.used[j], p.markSaved(j));
        if ok {
          utxos := utxos[i := utxos[i].(spent := true)];
        }
      }
    }

    method MarkSpentUTXOs(p: Plan)
      modifies this, db
      ensures State() == WithBooks(old(State()), AfterMarks(p, BooksOf(old(State())), |p.used|))
    {
      ghost var base := BooksOf(State());
      for j := 0 to |p.used|
        invariant State() == WithBooks(old(State()), AfterMarks(p, base, j))
      {
        MarkOne(p, j, base);
      }
    }

    /** `panicked` tells that the change output has no address. */
    method AddChangeUTXO(env: Env, p: Plan, cursor: seq<string>) returns (panicked: bool)
      modifies this, db
      ensures var look := LookAt(env, old(db.keys), cursor, p);
        && (panicked <==> look.Panics?)
        && State() == match Added(p, look) case Some(u) => WithUTXO(old(State()), u) case None => old(State())
      ensures panicked <==> env.info(p.changeOutput.script) == NoAddress
    {
      panicked := false;
      match env.info(p.changeOutput.script) {
        case Malformed =>
        case NoAddress => panicked := true;
        case Pays(_, address) =>
          var path := GetDerivationPathForAddress(address, cursor);
          if path != "" {
            AddUTXO(NewUTXO(p.txid, p.changeIdx, p.changeOutput.value, p.changeOutput.script, path), p.changeSaved);
          }
      }
    }

    /** `call` holds the request and how the outside will answer, `draws` the random numbers; the entries
        used are chosen here. On success `plan` is what the settlement tasks start from. */
    method SendToAddress(env: Env, call: SendCall, draws: Random)
      returns (r: Result<string>, used: seq<UTXO>, plan: Option<Plan>)
      modifies this, db
      ensures plan.Some? <==> r.Ok?
      ensures r == Err(Locked) <==> old(locked)
      ensures r == Err(InsufficientFunds) <==> !old(locked) && old(balance) < call.amount
      ensures r == Err(NoUTXOs) <==> !old(locked) && old(balance) >= call.amount && old(utxos) == []
      ensures r == Err(InsufficientAmount) ==> !old(locked) && old(balance) >= call.amount && old(utxos) != []
      ensures |old(utxos)| == 1 || NonNegative(old(utxos)) ==>
        (r.Err? && r.error in {Locked, InsufficientFunds, NoUTXOs, InsufficientAmount}
         <==> old(locked) || !PassesFundsChecks(old(State()), call.amount))
      ensures |old(utxos)| >= 2 && !(r.Err? && r.error in {Locked, InsufficientFunds}) ==>
        Decides(call.amount, old(utxos), draws, if r == Err(InsufficientAmount) then None else Some(used))
      ensures r.Err? && r.error in {Locked, InsufficientFunds, NoUTXOs, InsufficientAmount, BadAddress, BadInput} ==>
        State() == old(State())
      ensures r.Ok? || r.error !in {Locked, InsufficientFunds, NoUTXOs, InsufficientAmount} ==>
        && Selects(call.amount, old(utxos), used)
        && (r == Err(BadAddress) <==> env.payTo(call.address).None?)
        && (r == Err(BadInput)
            <==> env.payTo(call.address).Some? && exists i :: 0 <= i < |used| && !env.validTxid(used[i].txid))
        && Sends(env, old(State()), State(), call.(used := used), r, plan)
    {
      used, plan := [], None;
      if locked {
        return Err(Locked), used, plan;
      }
      if balance < call.amount {
        return Err(InsufficientFunds), used, plan;
      }
      var err, total;
      err, used, total := SelectFrom(call.amount, draws);
      if err.Some? {
        return Err(if err == Some(ErrNoUTXOs) then NoUTXOs else InsufficientAmount), used, plan;
      }
      r, plan := SendSelected(env, call.(used := used));
    }

    /** The rest of SendToAddress, once entries worth more than the amount are selected. */
    method SendSelected(env: Env, call: SendCall) returns (r: Result<string>, plan: Option<Plan>)
      requires !locked && balance >= call.amount && Selects(call.amount, utxos, call.used)
      modifies this, db
      ensures plan.Some? <==> r.Ok?
      ensures r == Err(BadAddress) <==> env.payTo(call.address).None?
      ensures r == Err(BadInput) <==>
        env.payTo(call.address).Some? && exists i :: 0 <= i < |call.used| && !env.validTxid(call.used[i].txid)
      ensures r.Ok? || r.error in {BadAddress, BadInput, NoChangeKey, NotSigned, Rejected}
      ensures r.Err? && r.error in {BadAddress, BadInput} ==> State() == old(State())
      ensures Sends(env, old(State()), State(), call, r, plan)
    {
      plan := None;
      var raw := CreateRawTransaction(env, call.address, call.amount, DEFAULT_FEE, call.used, call.draw);
      if raw.Err? {
        return Err(raw.error), plan;
      }
      var signed := SignTransaction(env, raw.value, call.used);
      if signed.None? {
        return Err(NotSigned), plan;
      }
      if !call.accepted {
        return Err(Rejected), plan;
      }
      var p := UpdateWalletAfterTx(env, signed.value, call);
      r, plan := Ok(env.txHash(signed.value)), Some(p);
    }

    /** Selection copies the wallet's own list. */
    method SelectFrom(amount: int, draws: Random) returns (err: Option<SelectError>, used: seq<UTXO>, total: int)
      ensures err == Some(ErrNoUTXOs) <==> utxos == []
      ensures err.None? ==> Selects(amount, utxos, used) && total == Sum(used)
      ensures |utxos| == 1 || NonNegative(utxos) ==> (err.None? <==> CanSelect(amount, utxos))
      ensures |utxos| >= 2 ==> Decides(amount, utxos, draws, if err.None? then Some(used) else None)
      ensures err.None? && DistinctOutpoints(utxos) ==> LastComesLast(utxos, used)
    {
      var list := new UTXO[|utxos|](i requires 0 <= i < |utxos| reads this => utxos[i]);
      assert list[..] == utxos;
      err, used, total := SelectUTXOs(amount, list, draws);
    }

    /// Locking

    method Lock()
      modifies `locked
      ensures State() == old(State()).(locked := true)
    {
      locked := true;
    }

    /** The relock timer's deadline, if the passphrase was right. */
    method WalletPassphrase(passphrase: seq<byte>, duration: int, now: int, argon2: Passphrase.KeyDerivation)
      returns (timer: Option<int>)
      modifies `locked
      ensures timer.Some? <==> Passphrase.VerifyPassphrase(old(db.encodedHash), passphrase, argon2)
      ensures timer.Some? ==> timer.value == if duration > 0 then now + duration else now
      ensures State() == if timer.Some? then old(State()).(locked := false) else old(State())
    {
      timer := None;
      if Passphrase.VerifyPassphrase(db.encodedHash, passphrase, argon2) {
        locked := false;
        timer := Some(Relock.WakeTime(now, duration));
      }
    }
  }

  /// What the methods are proved against, where it has no name yet

  /** The books after the first n marks. */
  function AfterMarks(p: Plan, base: Books, n: nat): Books
    requires n <= |p.used|
  {
    base.(utxos := Marked(p, base, n), storedUTXOs := Rewritten(p, base, n))
  }

  /** Run one after the other, the three tasks leave what every schedule leaves. */
  lemma TasksInTurnSettle(p: Plan, w: Ledger.Wallet, look: Look)
    ensures var w1 := WithBooks(w, AfterMarks(p, BooksOf(w), |p.used|));
      var w2 := match Added(p, look) case Some(u) => WithUTXO(w1, u) case None => w1;
      var w3 := if p.balanceSaved then WithBalance(w2, p.newBalance) else w2;
      w3 == WithBooks(w, Settled(p, BooksOf(w), look))
  {
  }

  /** Building, once the address and the inputs have passed. */
  lemma RawWithChange(env: Env, w: Ledger.Wallet, address: string, amount: int, feeRate: int, used: seq<UTXO>,
                      draw: KeyDraw)
    requires env.payTo(address).Some? && Sum(used) > amount
    requires forall i :: 0 <= i < |used| ==> env.validTxid(used[i].txid)
    ensures var (key, w1) := InternalKey(env, w, draw);
      var change := if key.None? then None else env.payTo(key.value.address);
      CreateRaw(env, w, address, amount, feeRate, used, draw)
      == (if change.None? then Err(NoChangeKey)
          else Ok(Built(env.payTo(address).value, amount, used, change.value, feeRate)), w1)
  {
  }

  lemma AddedIsBuilt(target: Script, amount: int, used: seq<UTXO>, change: Script, feeRate: int, rawTx: MsgTx)
    requires var tx := MsgTx([] + InputsFor(used), [TxOut(amount, target)]);
      var out := TxOut(Sum(used) - amount, change);
      rawTx == tx.(outs := tx.outs + [out.(value := out.value - EstimateFee(tx.(outs := tx.outs + [out]), feeRate))])
    ensures rawTx == Built(target, amount, used, change, feeRate)
  {
    assert [] + InputsFor(used) == InputsFor(used);
    assert [TxOut(amount, target)] + [TxOut(Sum(used) - amount, change)]
        == BeforeFee(target, amount, used, change).outs;
  }

  lemma FirstWithIs(us: seq<UTXO>, txid: string, i: nat)
    requires i <= |us| && (i < |us| ==> us[i].txid == txid)
    requires forall k :: 0 <= k < i ==> us[k].txid != txid
    ensures FirstWith(us, txid) == i
  {
  }

  lemma NextMark(p: Plan, base: Books, j: nat)
    requires j < |p.used|
    ensures FirstWith(Marked(p, base, j), p.used[j].txid) == FirstWith(base.utxos, p.used[j].txid)
    ensures Rewritten(p, base, j).Keys == base.storedUTXOs.Keys
  {
    MarkedIs(p, base, j);
    RewrittenKeys(p, base, j);
    FirstWithIs(Marked(p, base, j), p.used[j].txid, FirstWith(base.utxos, p.used[j].txid));
  }

  lemma {:induction false} StaysUnsigned(env: Env, keys: Keys, ins: seq<TxIn>, used: seq<UTXO>, n: nat, m: nat)
    requires n <= m <= |ins| && |ins| == |used|
    requires SignInputs(env, keys, ins, used, n).None?
    ensures SignInputs(env, keys, ins, used, m).None?
  {
    if n < m {
      StaysUnsigned(env, keys, ins, used, n, m - 1);
    }
  }

  /** A send past its funds checks is the send of the state machine: same state, same plan, and the
      outcome Prepared and the node give. */
  ghost predicate Sends(env: Env, w: Ledger.Wallet, w': Ledger.Wallet, call: SendCall, r: Result<string>,
                        plan: Option<Plan>)
  {
    var s := SendStep(env, Initial(w), call);
    var prepared := Prepared(env, w, call.address, call.amount, DEFAULT_FEE, call.used, call.draw).0;
    && w' == s.w
    && plan == (if s.flights != [] then Some(s.flights[0].plan) else None)
    && r == if prepared.Err? then Err(prepared.error)
            else if call.accepted then Ok(env.txHash(prepared.value)) else Err(Rejected)
  }
}
