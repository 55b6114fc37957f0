/** What the wallet asks of the outside: key derivation, ciphers, scripts and transaction hashes. */
module Node {
  import opened Text
  import opened Coins

  datatype Branch = External | Internal

  datatype ScriptClass = PubKeyHash | WitnessV0PubKeyHash | OtherClass

  /** What a script parses to. Null data and bare multisig carry no single address. */
  datatype ScriptInfo = Malformed | NoAddress | Pays(kind: ScriptClass, address: string)

  datatype TxOut = TxOut(value: int, script: Script)

  datatype Signature =
    | Witness(input: nat, wif: string, value: int, script: Script)
    | ScriptSig(input: nat, wif: string, script: Script)

  datatype TxIn = TxIn(txid: string, vout: uint32, signature: Option<Signature>)

  datatype MsgTx = MsgTx(ins: seq<TxIn>, outs: seq<TxOut>)

  /** A block as its transactions, each with its hash; output `k` of a transaction has index `k`. */
  datatype BlockTx = BlockTx(txid: string, outs: seq<TxOut>)

  type Block = seq<BlockTx>

  /** Deterministic but otherwise arbitrary functions.
      `child`: BIP-32 child of a branch, as a WIF private key; None when derivation fails.
      `addressOf`: the witness address of a private key.
      `seal`, `unseal`: secretbox under the wallet's pass key, with the nonce as an input.
      `payTo`: the script paying an address; None when the address does not decode.
      `info`: what a script parses to.
      `validTxid`: whether a TxID parses as a hash.
      `txHash`: the TxID of a transaction. */
  datatype Env = Env(
    child: (Branch, uint32) -> Option<string>,
    addressOf: string -> string,
    seal: (string, nat) -> seq<byte>,
    unseal: seq<byte> -> Option<string>,
    payTo: string -> Option<Script>,
    info: Script -> ScriptInfo,
    validTxid: string -> bool,
    txHash: MsgTx -> string)

  /** Opening a sealed key gives it back. */
  ghost predicate CipherLaw(env: Env) {
    forall wif, nonce :: env.unseal(env.seal(wif, nonce)) == Some(wif)
  }

  /** A script made to pay an address parses to that address. */
  ghost predicate PayToLaw(env: Env) {
    forall a :: env.payTo(a).Some? ==>
      env.info(env.payTo(a).value).Pays? && env.info(env.payTo(a).value).address == a
  }

  /** A script paying the address of a wallet key is a witness script: the address is a witness one. */
  ghost predicate WitnessLaw(env: Env) {
    forall wif, script :: env.info(script).Pays? && env.info(script).address == env.addressOf(wif) ==>
      env.info(script).kind == WitnessV0PubKeyHash
  }

  /** The empty script, which a zero output carries, has no address. */
  ghost predicate EmptyScriptLaw(env: Env) {
    env.info([]) == NoAddress
  }
}
