/** The wallet's state and what each operation makes of it (wallet/wallet.go, db.go, keys.go, scan.go). */
module Ledger {
  import opened Text
  import opened StoreCodec
  import opened Coins
  import opened Node
  import opened KeyChain
  import opened Transactions

  type Bytes4 = b: seq<byte> | |b| == 4 witness [0, 0, 0, 0]
  type Bytes8 = b: seq<byte> | |b| == 8 witness [0, 0, 0, 0, 0, 0, 0, 0]

  /** The database: buckets as maps, metadata as the bytes stored. */
  datatype Store = Store(
    keys: Keys,
    utxos: map<string, UTXO>,
    balance: Bytes8,
    externalIdx: Bytes4,
    internalIdx: Bytes4,
    lastScanned: Bytes8,
    encodedHash: string)

  datatype Wallet = Wallet(
    utxos: seq<UTXO>,
    balance: int,
    externalIdx: uint32,
    internalIdx: uint32,
    lastScanned: int,
    addresses: map<string, string>,
    locked: bool,
    store: Store)

  /// The write-through setters, when the write succeeds

  function WithBalance(w: Wallet, balance: int): Wallet {
    w.(balance := balance, store := w.store.(balance := Int64ToBytes(balance)))
  }

  function WithLastScanned(w: Wallet, height: int): Wallet {
    w.(lastScanned := height, store := w.store.(lastScanned := Int64ToBytes(height)))
  }

  function WithExternalIdx(w: Wallet, idx: uint32): Wallet {
    w.(externalIdx := idx, store := w.store.(externalIdx := Uint32ToBytes(idx)))
  }

  function WithInternalIdx(w: Wallet, idx: uint32): Wallet {
    w.(internalIdx := idx, store := w.store.(internalIdx := Uint32ToBytes(idx)))
  }

  function WithUTXO(w: Wallet, u: UTXO): Wallet {
    w.(utxos := w.utxos + [u], store := w.store.(utxos := w.store.utxos[Outpoint(u) := u]))
  }

  function WithKeyPair(w: Wallet, path: string, key: KeyPair): Wallet {
    w.(store := w.store.(keys := w.store.keys[path := key]))
  }

  function WithKey(w: Wallet, path: string, key: KeyPair): Wallet {
    WithKeyPair(w, path, key).(addresses := w.addresses[key.address := path])
  }

  /// Key generation

  /** The nonce drawn for the new key, and whether the two writes succeed. */
  datatype KeyDraw = KeyDraw(nonce: nat, keySaved: bool, indexSaved: bool)

  function NewKeyPair(env: Env, wif: string, nonce: nat): KeyPair {
    KeyPair(env.seal(wif, nonce), env.addressOf(wif))
  }

  /** uint32 addition wraps. */
  function NextIdx(idx: uint32): uint32 {
    if idx == 0xffff_ffff then 0 else idx + 1
  }

  function ExternalKey(env: Env, w: Wallet, draw: KeyDraw): (Option<KeyPair>, Wallet) {
    match env.child(External, w.externalIdx)
    case None => (None, w)
    case Some(wif) =>
      var key := NewKeyPair(env, wif, draw.nonce);
      if !draw.keySaved then (None, w)
      else
        var w1 := WithKey(w, Path(External, w.externalIdx), key);
        if !draw.indexSaved then (None, w1)
        else (Some(key), WithExternalIdx(w1, NextIdx(w.externalIdx)))
  }

  function InternalKey(env: Env, w: Wallet, draw: KeyDraw): (Option<KeyPair>, Wallet) {
    match env.child(Internal, w.internalIdx)
    case None => (None, w)
    case Some(wif) =>
      var key := NewKeyPair(env, wif, draw.nonce);
      if !draw.keySaved then (None, w)
      else
        var w1 := WithKeyPair(w, Path(Internal, w.internalIdx), key);
        if !draw.indexSaved then (None, w1)
        else (Some(key), WithInternalIdx(w1, NextIdx(w.internalIdx)))
  }

  /// Scanning a block fetched from the node

  /** How far a scan got: the wallet, the writes tried, and whether it goes on. */
  datatype Scan = Scan(w: Wallet, writes: nat, running: bool)

  /** Whether the n-th write of an operation succeeds. */
  type Writes = nat -> bool

  ghost predicate AllSucceed(ok: Writes) {
    forall n :: ok(n)
  }

  /** The vout index of an output is a uint32. */
  function Index32(k: nat): (i: uint32)
    ensures k < 0x1_0000_0000 ==> i == k
  {
    k % 0x1_0000_0000
  }

  /** The classes scanBlock looks at, paying an address of the wallet. */
  predicate Owned(env: Env, addresses: map<string, string>, out: TxOut) {
    match env.info(out.script)
    case Pays(kind, address) => kind != OtherClass && address in addresses
    case _ => false
  }

  function Received(env: Env, addresses: map<string, string>, txid: string, k: nat, out: TxOut): UTXO
    requires Owned(env, addresses, out)
  {
    NewUTXO(txid, Index32(k), out.value, out.script, addresses[env.info(out.script).address])
  }

  /** A new UTXO is saved first, then the balance; the first failure ends the scan. */
  function Credit(s: Scan, u: UTXO, ok: Writes): Scan {
    if !ok(s.writes) then Scan(s.w, s.writes + 1, false)
    else
      var w1 := WithUTXO(s.w, u);
      if !ok(s.writes + 1) then Scan(w1, s.writes + 2, false)
      else Scan(WithBalance(w1, w1.balance + u.value), s.writes + 2, true)
  }

  function ScanOutput(env: Env, s: Scan, txid: string, k: nat, out: TxOut, ok: Writes): Scan {
    if env.info(out.script).Malformed? then s.(running := false)
    else if Owned(env, s.w.addresses, out) then Credit(s, Received(env, s.w.addresses, txid, k, out), ok)
    else s
  }

  function ScanOutputs(env: Env, s: Scan, tx: BlockTx, k: nat, ok: Writes): Scan
    requires k <= |tx.outs|
    decreases |tx.outs| - k
  {
    if !s.running || k == |tx.outs| then s
    else ScanOutputs(env, ScanOutput(env, s, tx.txid, k, tx.outs[k], ok), tx, k + 1, ok)
  }

  function ScanTxs(env: Env, s: Scan, block: Block, i: nat, ok: Writes): Scan
    requires i <= |block|
    decreases |block| - i
  {
    if !s.running || i == |block| then s
    else ScanTxs(env, ScanOutputs(env, s, block[i], 0, ok), block, i + 1, ok)
  }

  function ScanBlock(env: Env, w: Wallet, block: Block, ok: Writes): Wallet {
    var s := ScanTxs(env, Scan(w, 0, true), block, 0, ok);
    if s.running && ok(s.writes) then WithLastScanned(s.w, s.w.lastScanned + 1) else s.w
  }

  /// Scanning the transactions a btcd notification carries

  /** `running` is false once a script without an address has made the scan panic. */
  function NotifiedOutput(env: Env, s: Scan, txid: string, k: nat, out: TxOut, ok: Writes): Scan {
    match env.info(out.script)
    case Pays(_, address) =>
      if address in s.w.addresses then
        var u := NewUTXO(txid, Index32(k), out.value, out.script, s.w.addresses[address]);
        var w1 := if ok(s.writes) then WithUTXO(s.w, u) else s.w;
        var w2 := if ok(s.writes + 1) then WithBalance(w1, w1.balance + u.value) else w1;
        Scan(w2, s.writes + 2, true)
      else s
    case _ => s.(running := false)
  }

  function NotifiedOutputs(env: Env, s: Scan, tx: BlockTx, k: nat, ok: Writes): Scan
    requires k <= |tx.outs|
    decreases |tx.outs| - k
  {
    if !s.running || k == |tx.outs| then s
    else NotifiedOutputs(env, NotifiedOutput(env, s, tx.txid, k, tx.outs[k], ok), tx, k + 1, ok)
  }

  function NotifiedTxs(env: Env, s: Scan, txs: Block, i: nat, ok: Writes): Scan
    requires i <= |txs|
    decreases |txs| - i
  {
    if !s.running || i == |txs| then s
    else NotifiedTxs(env, NotifiedOutputs(env, s, txs[i], 0, ok), txs, i + 1, ok)
  }

  /** The result's `running` tells whether the scan came to its end. */
  function ScanBlockTxs(env: Env, w: Wallet, txs: Block, ok: Writes): Scan {
    var s := NotifiedTxs(env, Scan(w, 0, true), txs, 0, ok);
    if !s.running then s
    else if ok(s.writes) then Scan(WithLastScanned(s.w, s.w.lastScanned + 1), s.writes + 1, true)
    else s.(writes := s.writes + 1)
  }

  /// Sending, up to the broadcast

  datatype SendError =
    | Locked | InsufficientFunds | NoUTXOs | InsufficientAmount
    | BadAddress | BadInput | NoChangeKey | NotSigned | Rejected

  datatype Result<+T> = Ok(value: T) | Err(error: SendError)

  /** createRawTransaction: the change key is drawn only once the inputs are known to suffice. */
  function CreateRaw(env: Env, w: Wallet, address: string, amount: int, feeRate: int, used: seq<UTXO>, draw: KeyDraw)
    : (r: (Result<MsgTx>, Wallet))
    ensures r.0.Ok? ==> |r.0.value.ins| == |used|
  {
    match env.payTo(address)
    case None => (Err(BadAddress), w)
    case Some(target) =>
      if exists i :: 0 <= i < |used| && !env.validTxid(used[i].txid) then (Err(BadInput), w)
      else if Sum(used) <= amount then (Err(InsufficientAmount), w)
      else
        match InternalKey(env, w, draw)
        case (None, w1) => (Err(NoChangeKey), w1)
        case (Some(key), w1) =>
          match env.payTo(key.address)
          case None => (Err(NoChangeKey), w1)
          case Some(change) => (Ok(Built(target, amount, used, change, feeRate)), w1)
  }

  /** The signed transaction SendToAddress hands to the node for a given selection. */
  function Prepared(env: Env, w: Wallet, address: string, amount: int, feeRate: int, used: seq<UTXO>, draw: KeyDraw)
    : (Result<MsgTx>, Wallet)
  {
    match CreateRaw(env, w, address, amount, feeRate, used, draw)
    case (Err(e), w1) => (Err(e), w1)
    case (Ok(tx), w1) =>
      match Signed(env, w1.store.keys, tx, used)
      case None => (Err(NotSigned), w1)
      case Some(signed) => (Ok(signed), w1)
  }

  /// Reading buckets through a cursor

  /** A cursor visits every key of a bucket once. bbolt's order is one of the orders allowed here. */
  ghost predicate Visits<V>(cursor: seq<string>, bucket: map<string, V>) {
    && (forall i :: 0 <= i < |cursor| ==> cursor[i] in bucket)
    && (forall k :: k in bucket ==> k in cursor)
    && (forall i, j :: 0 <= i < j < |cursor| ==> cursor[i] != cursor[j])
  }

  /** The first path, in cursor order, of a key with the address; empty if there is none. */
  function PathFor(keys: Keys, cursor: seq<string>, address: string): string {
    if cursor == [] then ""
    else if cursor[0] in keys && keys[cursor[0]].address == address then cursor[0]
    else PathFor(keys, cursor[1..], address)
  }

  function ExternalAddresses(keys: Keys, cursor: seq<string>): map<string, string> {
    if cursor == [] then map[]
    else
      var k := cursor[|cursor| - 1];
      var before := ExternalAddresses(keys, cursor[..|cursor| - 1]);
      if k in keys && Contains(k, EXTERNAL_MARK) then before[keys[k].address := k] else before
  }

  function StoredUTXOs(bucket: map<string, UTXO>, cursor: seq<string>): seq<UTXO> {
    if cursor == [] then []
    else
      var k := cursor[|cursor| - 1];
      var before := StoredUTXOs(bucket, cursor[..|cursor| - 1]);
      if k in bucket then before + [bucket[k]] else before
  }

  /** LoadWallet: every field from the store, locked; a zero height becomes the chain's, less ten,
      if the node answers and the write succeeds. */
  function Loaded(store: Store, keyCursor: seq<string>, utxoCursor: seq<string>, height: Option<int>, saved: bool)
    : Option<Wallet>
  {
    var w := Wallet(StoredUTXOs(store.utxos, utxoCursor), BytesToInt64(store.balance),
                    BytesToUint32(store.externalIdx), BytesToUint32(store.internalIdx),
                    BytesToInt64(store.lastScanned), ExternalAddresses(store.keys, keyCursor), true, store);
    if w.lastScanned != 0 then Some(w)
    else if height.None? then None
    else if saved then Some(WithLastScanned(w, height.value - 10)) else Some(w)
  }
}
