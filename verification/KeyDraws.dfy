/** What drawing a key and building a transaction leave behind, written out (wallet/keys.go, wallet/tx.go). */
module KeyDraws {
  import opened Text
  import opened StoreCodec
  import opened Coins
  import opened Node
  import opened KeyChain
  import opened Transactions
  import opened Ledger

  /** The receiving key is child `externalIdx` of the external chain, saved under that path and listed; a
      failed index write leaves it saved, any earlier failure leaves nothing. */
  lemma ExternalDraw(env: Env, w: Wallet, draw: KeyDraw)
    ensures var (key, w1) := ExternalKey(env, w, draw);
      var child := env.child(External, w.externalIdx);
      && (key.Some? <==> child.Some? && draw.keySaved && draw.indexSaved)
      && (child.None? || !draw.keySaved ==> w1 == w)
      && (child.Some? && draw.keySaved ==>
            var path := "m/44'/1'/0'/0/" + Decimal(w.externalIdx);
            var pair := KeyPair(env.seal(child.value, draw.nonce), env.addressOf(child.value));
            var next := if w.externalIdx < 0xffff_ffff then w.externalIdx + 1 else 0;
            && (key.Some? ==> key.value == pair)
            && w1 == w.(externalIdx := if draw.indexSaved then next else w.externalIdx,
                        addresses := w.addresses[pair.address := path],
                        store := w.store.(
                          keys := w.store.keys[path := pair],
                          externalIdx := if draw.indexSaved then Uint32ToBytes(next) else w.store.externalIdx)))
  {
    PathTexts(w.externalIdx);
  }

  /** So is the change key, on the internal chain, except that its address is not listed. */
  lemma InternalDraw(env: Env, w: Wallet, draw: KeyDraw)
    ensures var (key, w1) := InternalKey(env, w, draw);
      var child := env.child(Internal, w.internalIdx);
      && (key.Some? <==> child.Some? && draw.keySaved && draw.indexSaved)
      && (child.None? || !draw.keySaved ==> w1 == w)
      && (child.Some? && draw.keySaved ==>
            var path := "m/44'/1'/0'/1/" + Decimal(w.internalIdx);
            var pair := KeyPair(env.seal(child.value, draw.nonce), env.addressOf(child.value));
            var next := if w.internalIdx < 0xffff_ffff then w.internalIdx + 1 else 0;
            && (key.Some? ==> key.value == pair)
            && w1 == w.(internalIdx := if draw.indexSaved then next else w.internalIdx,
                        store := w.store.(
                          keys := w.store.keys[path := pair],
                          internalIdx := if draw.indexSaved then Uint32ToBytes(next) else w.store.internalIdx)))
  {
    PathTexts(w.internalIdx);
  }

  /** Refusing is for free: building reports a bad address, an input whose TxID does not parse and inputs
      that do not exceed the amount, in this order and only then, and leaves the whole wallet as it was.
      Past these checks exactly one change key is drawn, whatever comes after. */
  lemma RawRefusals(env: Env, w: Wallet, address: string, amount: int, feeRate: int, used: seq<UTXO>, draw: KeyDraw)
    ensures var (r, w1) := CreateRaw(env, w, address, amount, feeRate, used, draw);
      var badAddress := env.payTo(address).None?;
      var badInput := !badAddress && exists i :: 0 <= i < |used| && !env.validTxid(used[i].txid);
      var tooLittle := !badAddress && !badInput && Sum(used) <= amount;
      && (r == Err(BadAddress) <==> badAddress)
      && (r == Err(BadInput) <==> badInput)
      && (r == Err(InsufficientAmount) <==> tooLittle)
      && (badAddress || badInput || tooLittle ==> w1 == w)
      && (!badAddress && !badInput && !tooLittle ==>
            w1 == InternalKey(env, w, draw).1 && (r.Ok? || r == Err(NoChangeKey)))
  {
  }

  /** What is handed to the node: the transaction built, if the key of every UTXO it spends is there and
      opens, signed as it then can be; otherwise nothing. */
  lemma PreparedExactly(env: Env, w: Wallet, address: string, amount: int, feeRate: int, used: seq<UTXO>, draw: KeyDraw)
    ensures var (raw, w1) := CreateRaw(env, w, address, amount, feeRate, used, draw);
      var prepared := Prepared(env, w, address, amount, feeRate, used, draw);
      && prepared.1 == w1
      && (raw.Err? ==> prepared.0 == raw)
      && (raw.Ok? && !(forall i :: 0 <= i < |used| ==> KeyOpens(env, w1.store.keys, used[i])) ==>
            prepared.0 == Err(NotSigned))
      && (raw.Ok? && (forall i :: 0 <= i < |used| ==> KeyOpens(env, w1.store.keys, used[i])) ==>
            && prepared.0.Ok? && prepared.0.value.outs == raw.value.outs && |prepared.0.value.ins| == |used|
            && forall i :: 0 <= i < |used| ==>
                 SignedWith(env, prepared.0.value.ins[i], used[i], i,
                            env.unseal(w1.store.keys[used[i].path].sealed).value))
  {
    var (raw, w1) := CreateRaw(env, w, address, amount, feeRate, used, draw);
    if raw.Ok? {
      var key := InternalKey(env, w, draw).0.value;
      SignsIffKeysOpen(env, w1.store.keys, env.payTo(address).value, amount, used, env.payTo(key.address).value,
                       feeRate);
    }
  }
}
