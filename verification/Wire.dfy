/** The wire form of an unsigned transaction, whose length the fee is computed from (wallet/tx.go). */
module Wire {
  import opened Text
  import opened StoreCodec
  import opened Coins
  import opened Node
  import opened Transactions

  /** A transaction hash as the wire carries it. */
  type Hash32 = b: bytes | |b| == 32 witness seq(32, i => 0)

  /** What the TxID of an input is parsed to. */
  type HashOf = string -> Hash32

  /** A length, in one, three, five or nine bytes. */
  function VarInt(n: nat): bytes {
    if n < 0xfd then [n]
    else if n <= 0xffff then [0xfd] + LittleEndian(n, 2)
    else if n <= 0xffff_ffff then [0xfe] + LittleEndian(n, 4)
    else [0xff] + LittleEndian(n, 8)
  }

  /** The outpoint, an empty signature script and the final sequence number. */
  function InputBytes(hash: HashOf, input: TxIn): bytes {
    hash(input.txid) + Uint32ToBytes(input.vout) + VarInt(0) + Uint32ToBytes(0xffff_ffff)
  }

  function InputsBytes(hash: HashOf, ins: seq<TxIn>): bytes {
    if ins == [] then [] else InputsBytes(hash, ins[..|ins| - 1]) + InputBytes(hash, ins[|ins| - 1])
  }

  function OutputBytes(out: TxOut): bytes {
    Int64ToBytes(out.value) + VarInt(|out.script|) + out.script
  }

  function OutputsBytes(outs: seq<TxOut>): bytes {
    if outs == [] then [] else OutputsBytes(outs[..|outs| - 1]) + OutputBytes(outs[|outs| - 1])
  }

  /** Version one, the inputs, the outputs, and no lock time. */
  function Serialized(hash: HashOf, tx: MsgTx): bytes {
    Uint32ToBytes(1)
    + (VarInt(|tx.ins|) + InputsBytes(hash, tx.ins))
    + (VarInt(|tx.outs|) + OutputsBytes(tx.outs))
    + Uint32ToBytes(0)
  }

  lemma VarIntLength(n: nat)
    ensures |VarInt(n)| == VarIntSize(n)
  {
  }

  lemma {:induction false} InputsLength(hash: HashOf, ins: seq<TxIn>)
    ensures |InputsBytes(hash, ins)| == 41 * |ins|
  {
    if ins != [] {
      InputsLength(hash, ins[..|ins| - 1]);
      VarIntLength(0);
    }
  }

  lemma {:induction false} OutputsLength(outs: seq<TxOut>)
    ensures |OutputsBytes(outs)| == OutputsSize(outs)
  {
    if outs != [] {
      OutputsLength(outs[..|outs| - 1]);
      VarIntLength(|outs[|outs| - 1].script|);
    }
  }

  /** The size the fee is computed from is the length of the unsigned transaction on the wire. */
  lemma SizeIsWireLength(hash: HashOf, tx: MsgTx)
    ensures SerializeSize(tx) == |Serialized(hash, tx)|
  {
    VarIntLength(|tx.ins|);
    VarIntLength(|tx.outs|);
    InputsLength(hash, tx.ins);
    OutputsLength(tx.outs);
  }

  /** So the fee of a send is twice its rate for each byte of the transaction it completes. */
  lemma FeeIsPerWireByte(hash: HashOf, target: Script, amount: int, used: seq<UTXO>, change: Script, feeRate: int)
    ensures var tx := Built(target, amount, used, change, feeRate);
      Sum(used) - OutputTotal(tx.outs) == 2 * feeRate * |Serialized(hash, tx)|
  {
    var tx := Built(target, amount, used, change, feeRate);
    BuiltIsReadBack(target, amount, used, change, feeRate);
    SizeIsWireLength(hash, tx);
    FeeIs(tx, feeRate);
  }

  lemma FeeIs(tx: MsgTx, feeRate: int)
    ensures EstimateFee(tx, feeRate) == 2 * feeRate * SerializeSize(tx)
  {
  }
}
