/** Building a transaction, signing it, and reading back what it did (wallet/tx.go). */
module Transactions {
  import opened Text
  import opened Coins
  import opened Node

  datatype KeyPair = KeyPair(sealed: seq<byte>, address: string)

  type Keys = map<string, KeyPair>

  /// Sizes, as the wire format counts them before signing

  function VarIntSize(n: nat): nat {
    if n < 0xfd then 1 else if n <= 0xffff then 3 else if n <= 0xffff_ffff then 5 else 9
  }

  function OutputSize(out: TxOut): nat {
    8 + VarIntSize(|out.script|) + |out.script|
  }

  function OutputsSize(outs: seq<TxOut>): nat {
    if outs == [] then 0 else OutputsSize(outs[..|outs| - 1]) + OutputSize(outs[|outs| - 1])
  }

  /** An unsigned input is an outpoint, an empty script and a sequence number. */
  function SerializeSize(tx: MsgTx): nat {
    8 + VarIntSize(|tx.ins|) + VarIntSize(|tx.outs|) + 41 * |tx.ins| + OutputsSize(tx.outs)
  }

  function EstimateFee(tx: MsgTx, feeRate: int): int {
    SerializeSize(tx) * feeRate * 2
  }

  function OutputTotal(outs: seq<TxOut>): int {
    if outs == [] then 0 else OutputTotal(outs[..|outs| - 1]) + outs[|outs| - 1].value
  }

  /// Building

  function InputFor(u: UTXO): TxIn {
    TxIn(u.txid, u.vout, None)
  }

  function InputsFor(used: seq<UTXO>): (ins: seq<TxIn>)
    ensures |ins| == |used|
  {
    seq(|used|, i requires 0 <= i < |used| => InputFor(used[i]))
  }

  /** The transaction before the fee is taken from its change. */
  function BeforeFee(target: Script, amount: int, used: seq<UTXO>, change: Script): MsgTx {
    MsgTx(InputsFor(used), [TxOut(amount, target), TxOut(Sum(used) - amount, change)])
  }

  function Built(target: Script, amount: int, used: seq<UTXO>, change: Script, feeRate: int): MsgTx {
    var tx := BeforeFee(target, amount, used, change);
    tx.(outs := [tx.outs[0], TxOut(tx.outs[1].value - EstimateFee(tx, feeRate), change)])
  }

  /// Reading back

  datatype TxInfo = TxInfo(changeOutput: TxOut, changeIdx: nat, fee: int)

  /** The last output worth something else than the amount, or a zero output at index 0. */
  function ChangeOf(outs: seq<TxOut>, amount: int): (TxOut, nat) {
    if outs == [] then (TxOut(0, []), 0)
    else if outs[|outs| - 1].value != amount then (outs[|outs| - 1], |outs| - 1)
    else ChangeOf(outs[..|outs| - 1], amount)
  }

  function InfoOf(tx: MsgTx, used: seq<UTXO>, amount: int): TxInfo {
    TxInfo(ChangeOf(tx.outs, amount).0, ChangeOf(tx.outs, amount).1, Sum(used) - OutputTotal(tx.outs))
  }

  method ExtractTxInfo(tx: MsgTx, usedUTXOs: seq<UTXO>, amountToSend: int) returns (info: TxInfo)
    ensures info == InfoOf(tx, usedUTXOs, amountToSend)
  {
    var totalInput, totalOutput := 0, 0;
    for i := 0 to |usedUTXOs|
      invariant totalInput == Sum(usedUTXOs[..i])
    {
      assert usedUTXOs[..i + 1] == usedUTXOs[..i] + [usedUTXOs[i]];
      SumPush(usedUTXOs[..i], usedUTXOs[i]);
      totalInput := totalInput + usedUTXOs[i].value;
    }
    var changeOutput, changeIdx := TxOut(0, []), 0;
    for idx := 0 to |tx.outs|
      invariant totalOutput == OutputTotal(tx.outs[..idx])
      invariant (changeOutput, changeIdx) == ChangeOf(tx.outs[..idx], amountToSend)
    {
      assert tx.outs[..idx + 1][..idx] == tx.outs[..idx];
      totalOutput := totalOutput + tx.outs[idx].value;
      if tx.outs[idx].value != amountToSend {
        changeOutput, changeIdx := tx.outs[idx], idx;
      }
    }
    assert usedUTXOs[..|usedUTXOs|] == usedUTXOs && tx.outs[..|tx.outs|] == tx.outs;
    info := TxInfo(changeOutput, changeIdx, totalInput - totalOutput);
  }

  lemma OutputsPush(outs: seq<TxOut>, b: TxOut, amount: int)
    ensures OutputTotal(outs + [b]) == OutputTotal(outs) + b.value
    ensures OutputsSize(outs + [b]) == OutputsSize(outs) + OutputSize(b)
    ensures ChangeOf(outs + [b], amount) == if b.value != amount then (b, |outs|) else ChangeOf(outs, amount)
  {
    assert (outs + [b])[..|outs|] == outs;
  }

  lemma TwoOutputs(a: TxOut, b: TxOut, amount: int)
    ensures OutputTotal([a, b]) == a.value + b.value
    ensures OutputsSize([a, b]) == OutputSize(a) + OutputSize(b)
    ensures a.value == amount ==> ChangeOf([a, b], amount) == if b.value != amount then (b, 1) else (TxOut(0, []), 0)
  {
    OutputsPush([], a, amount);
    OutputsPush([a], b, amount);
    assert [] + [a] == [a] && [a] + [b] == [a, b];
  }

  /** Taking the fee from the change does not change the size. */
  lemma SizeIgnoresValues(ins: seq<TxIn>, a: TxOut, b: TxOut, value: int)
    ensures SerializeSize(MsgTx(ins, [a, b])) == SerializeSize(MsgTx(ins, [a, b.(value := value)]))
  {
    TwoOutputs(a, b, 0);
    TwoOutputs(a, b.(value := value), 0);
  }

  lemma FeeIsStable(target: Script, amount: int, used: seq<UTXO>, change: Script, feeRate: int)
    ensures var before := BeforeFee(target, amount, used, change);
      var fee := EstimateFee(before, feeRate);
      && fee == 2 * feeRate * SerializeSize(before)
      && EstimateFee(Built(target, amount, used, change, feeRate), feeRate) == fee
      && Built(target, amount, used, change, feeRate).outs
         == [TxOut(amount, target), TxOut(Sum(used) - amount - fee, change)]
  {
    var before := BeforeFee(target, amount, used, change);
    SizeIgnoresValues(before.ins, before.outs[0], before.outs[1],
                      before.outs[1].value - EstimateFee(before, feeRate));
  }

  /** Nothing is lost between inputs, outputs and the fee, and what was built is read back exactly:
      the fee always, the change output exactly when its value differs from the amount sent. */
  lemma BuiltIsReadBack(target: Script, amount: int, used: seq<UTXO>, change: Script, feeRate: int)
    ensures var tx := Built(target, amount, used, change, feeRate);
      var fee := EstimateFee(tx, feeRate);
      var info := InfoOf(tx, used, amount);
      && Sum(used) == OutputTotal(tx.outs) + fee
      && |tx.ins| == |used|
      && (forall i :: 0 <= i < |used| ==> tx.ins[i].txid == used[i].txid && tx.ins[i].vout == used[i].vout)
      && tx.outs == [TxOut(amount, target), TxOut(Sum(used) - amount - fee, change)]
      && info.fee == fee
      && (info.changeIdx == 1 <==> tx.outs[1].value != amount)
      && (info.changeIdx == 1 ==> info.changeOutput == tx.outs[1])
      && (info.changeIdx != 1 ==> info.changeIdx == 0 && info.changeOutput == TxOut(0, []))
  {
    var tx := Built(target, amount, used, change, feeRate);
    FeeIsStable(target, amount, used, change, feeRate);
    TwoOutputs(tx.outs[0], tx.outs[1], amount);
  }

  /// Signing

  /** Input `i` signed with the key stored under the path of the UTXO it spends; inputs of
      other script classes stay unsigned. */
  function SignInput(env: Env, keys: Keys, input: TxIn, u: UTXO, i: nat): Option<TxIn> {
    if u.path !in keys then None
    else
      match env.unseal(keys[u.path].sealed)
      case None => None
      case Some(wif) =>
        match env.info(u.script)
        case Pays(WitnessV0PubKeyHash, _) => Some(input.(signature := Some(Witness(i, wif, u.value, u.script))))
        case Pays(PubKeyHash, _) => Some(input.(signature := Some(ScriptSig(i, wif, u.script))))
        case _ => Some(input)
  }

  /** The first `n` inputs signed in order, or None at the first that cannot be. */
  function SignInputs(env: Env, keys: Keys, ins: seq<TxIn>, used: seq<UTXO>, n: nat): (r: Option<seq<TxIn>>)
    requires n <= |ins| && |ins| == |used|
    ensures r.Some? ==> |r.value| == |ins| && r.value[n..] == ins[n..]
  {
    if n == 0 then Some(ins)
    else
      match SignInputs(env, keys, ins, used, n - 1)
      case None => None
      case Some(done) =>
        match SignInput(env, keys, done[n - 1], used[n - 1], n - 1)
        case None => None
        case Some(input) => Some(done[n - 1 := input])
  }

  function Signed(env: Env, keys: Keys, tx: MsgTx, used: seq<UTXO>): Option<MsgTx>
    requires |tx.ins| == |used|
  {
    match SignInputs(env, keys, tx.ins, used, |used|)
    case None => None
    case Some(ins) => Some(tx.(ins := ins))
  }

  /** The key stored under the UTXO's path opens, and its address is the one the script pays. */
  ghost predicate Spendable(env: Env, keys: Keys, u: UTXO) {
    && u.path in keys
    && env.info(u.script).Pays?
    && env.info(u.script).address == keys[u.path].address
    && env.unseal(keys[u.path].sealed).Some?
    && env.addressOf(env.unseal(keys[u.path].sealed).value) == keys[u.path].address
  }

  /** Input `i` spends `u` and is signed over the script and, for a witness, the value of `u`, with a key
      whose address `u` pays; a script of neither class goes unsigned. */
  ghost predicate SignedFor(env: Env, input: TxIn, u: UTXO, i: nat) {
    && input.txid == u.txid && input.vout == u.vout
    && env.info(u.script).Pays?
    && (env.info(u.script).kind == WitnessV0PubKeyHash ==>
          && input.signature.Some? && input.signature.value.Witness?
          && input.signature.value.input == i && input.signature.value.value == u.value
          && input.signature.value.script == u.script
          && env.addressOf(input.signature.value.wif) == env.info(u.script).address)
    && (env.info(u.script).kind == PubKeyHash ==>
          && input.signature.Some? && input.signature.value.ScriptSig?
          && input.signature.value.input == i && input.signature.value.script == u.script
          && env.addressOf(input.signature.value.wif) == env.info(u.script).address)
    && (env.info(u.script).kind == OtherClass ==> input.signature.None?)
  }

  /** Input `i`, unsigned before, spends `u` and is signed with this key. */
  ghost predicate SignedWith(env: Env, input: TxIn, u: UTXO, i: nat, wif: string) {
    && input.txid == u.txid && input.vout == u.vout
    && input.signature == match env.info(u.script)
         case Pays(WitnessV0PubKeyHash, _) => Some(Witness(i, wif, u.value, u.script))
         case Pays(PubKeyHash, _) => Some(ScriptSig(i, wif, u.script))
         case _ => None
  }

  /** There is a key under the UTXO's path, and it opens. */
  ghost predicate KeyOpens(env: Env, keys: Keys, u: UTXO) {
    u.path in keys && env.unseal(keys[u.path].sealed).Some?
  }

  lemma InputSignsWithItsKey(env: Env, keys: Keys, u: UTXO, i: nat)
    ensures SignInput(env, keys, InputFor(u), u, i).Some? <==> KeyOpens(env, keys, u)
    ensures KeyOpens(env, keys, u) ==>
      SignedWith(env, SignInput(env, keys, InputFor(u), u, i).value, u, i, env.unseal(keys[u.path].sealed).value)
  {
  }

  lemma {:induction false} InputsSignWithTheirKeys(env: Env, keys: Keys, used: seq<UTXO>, n: nat)
    requires n <= |used|
    ensures SignInputs(env, keys, InputsFor(used), used, n).Some?
       <==> forall i :: 0 <= i < n ==> KeyOpens(env, keys, used[i])
    ensures SignInputs(env, keys, InputsFor(used), used, n).Some? ==>
      forall i :: 0 <= i < n ==>
        SignedWith(env, SignInputs(env, keys, InputsFor(used), used, n).value[i], used[i], i,
                   env.unseal(keys[used[i].path].sealed).value)
  {
    if n > 0 {
      InputsSignWithTheirKeys(env, keys, used, n - 1);
      InputSignsWithItsKey(env, keys, used[n - 1], n - 1);
      var before := SignInputs(env, keys, InputsFor(used), used, n - 1);
      if before.Some? {
        assert before.value[n - 1..][0] == InputsFor(used)[n - 1..][0];
        assert before.value[n - 1] == InputFor(used[n - 1]);
      }
    }
  }

  /** Signing what was built fails exactly when the key of some UTXO is missing or does not open; otherwise
      input i is signed, over the script of UTXO i, with the key stored under the path of UTXO i. */
  lemma SignsIffKeysOpen(env: Env, keys: Keys, target: Script, amount: int, used: seq<UTXO>, change: Script,
                         feeRate: int)
    ensures var tx := Built(target, amount, used, change, feeRate);
      var signed := Signed(env, keys, tx, used);
      && (signed.Some? <==> forall i :: 0 <= i < |used| ==> KeyOpens(env, keys, used[i]))
      && (signed.Some? ==>
            && signed.value.outs == tx.outs && |signed.value.ins| == |used|
            && forall i :: 0 <= i < |used| ==>
                 SignedWith(env, signed.value.ins[i], used[i], i, env.unseal(keys[used[i].path].sealed).value))
  {
    InputsSignWithTheirKeys(env, keys, used, |used|);
  }

  /** Signing what was built for spendable UTXOs never fails, changes no output, and signs each
      input, over its own script, with a key of the address paid. */
  lemma SpendableIsSigned(env: Env, keys: Keys, target: Script, amount: int, used: seq<UTXO>, change: Script,
                          feeRate: int)
    requires forall i :: 0 <= i < |used| ==> Spendable(env, keys, used[i])
    ensures var tx := Built(target, amount, used, change, feeRate);
      var signed := Signed(env, keys, tx, used);
      && signed.Some? && signed.value.outs == tx.outs && |signed.value.ins| == |used|
      && forall i :: 0 <= i < |used| ==> SignedFor(env, signed.value.ins[i], used[i], i)
  {
    SignsIffKeysOpen(env, keys, target, amount, used, change, feeRate);
    var signed := Signed(env, keys, Built(target, amount, used, change, feeRate), used);
    forall i | 0 <= i < |used| ensures signed.Some? && SignedFor(env, signed.value.ins[i], used[i], i) {
      assert Spendable(env, keys, used[i]);
      assert KeyOpens(env, keys, used[i]);
    }
  }
}
