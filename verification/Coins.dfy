/** Unspent outputs, their outpoint keys and their sums (tx/utxo.go). */
module Coins {
  import opened Text

  type Script = seq<byte>

  datatype UTXO = UTXO(txid: string, vout: uint32, value: int, script: Script, spent: bool, path: string)

  function NewUTXO(txid: string, vout: uint32, value: int, script: Script, path: string): UTXO {
    UTXO(txid, vout, value, script, false, path)
  }

  function OutpointKey(txid: string, vout: nat): string {
    txid + ":" + Decimal(vout)
  }

  function Outpoint(u: UTXO): string {
    OutpointKey(u.txid, u.vout)
  }

  function Outpoints(us: seq<UTXO>): set<string> {
    set u | u in us :: Outpoint(u)
  }

  /** Two outpoints share a bucket entry only if they are the same, whatever the TxIDs hold:
      the last colon is the one before the index. */
  lemma OutpointKeyInjective(t: string, i: nat, t': string, i': nat)
    requires OutpointKey(t, i) == OutpointKey(t', i')
    ensures t == t' && i == i'
  {
    var d, d' := Decimal(i), Decimal(i');
    var k := OutpointKey(t, i);
    assert forall j :: |t| < j < |k| ==> IsDigit(k[j]) by {
      assert forall j :: |t| < j < |k| ==> k[j] == d[j - |t| - 1];
    }
    assert forall j :: |t'| < j < |k| ==> IsDigit(k[j]) by {
      assert forall j :: |t'| < j < |k| ==> k[j] == d'[j - |t'| - 1];
    }
    assert k[|t|] == ':' && k[|t'|] == ':' && !IsDigit(':');
    assert |t| == |t'|;
    assert t == k[..|t|] && t' == k[..|t'|];
    assert d == k[|t| + 1..] && d' == k[|t'| + 1..];
    DecimalInjective(i, i');
  }

  /// Sums

  function Sum(us: seq<UTXO>): int {
    if us == [] then 0 else Sum(us[..|us| - 1]) + us[|us| - 1].value
  }

  function SumUnspent(us: seq<UTXO>): int {
    if us == [] then 0
    else SumUnspent(us[..|us| - 1]) + if us[|us| - 1].spent then 0 else us[|us| - 1].value
  }

  /** The value of the entries whose outpoint is not in `gone`. */
  function SumOutside(us: seq<UTXO>, gone: set<string>): int {
    if us == [] then 0
    else SumOutside(us[..|us| - 1], gone) + if Outpoint(us[|us| - 1]) in gone then 0 else us[|us| - 1].value
  }

  ghost predicate NonNegative(us: seq<UTXO>) {
    forall i :: 0 <= i < |us| ==> us[i].value >= 0
  }

  lemma {:induction false} SumConcat(us: seq<UTXO>, vs: seq<UTXO>)
    ensures Sum(us + vs) == Sum(us) + Sum(vs)
  {
    if vs == [] {
      assert us + vs == us;
    } else {
      assert (us + vs)[..|us + vs| - 1] == us + vs[..|vs| - 1];
      SumConcat(us, vs[..|vs| - 1]);
    }
  }

  lemma {:induction false} SumUnspentConcat(us: seq<UTXO>, vs: seq<UTXO>)
    ensures SumUnspent(us + vs) == SumUnspent(us) + SumUnspent(vs)
  {
    if vs == [] {
      assert us + vs == us;
    } else {
      assert (us + vs)[..|us + vs| - 1] == us + vs[..|vs| - 1];
      SumUnspentConcat(us, vs[..|vs| - 1]);
    }
  }

  lemma {:induction false} SumOutsideConcat(us: seq<UTXO>, vs: seq<UTXO>, gone: set<string>)
    ensures SumOutside(us + vs, gone) == SumOutside(us, gone) + SumOutside(vs, gone)
  {
    if vs == [] {
      assert us + vs == us;
    } else {
      assert (us + vs)[..|us + vs| - 1] == us + vs[..|vs| - 1];
      SumOutsideConcat(us, vs[..|vs| - 1], gone);
    }
  }

  lemma SumPush(us: seq<UTXO>, u: UTXO)
    ensures Sum(us + [u]) == Sum(us) + u.value
    ensures SumUnspent(us + [u]) == SumUnspent(us) + if u.spent then 0 else u.value
  {
    assert (us + [u])[..|us|] == us;
  }

  lemma SumFront(us: seq<UTXO>)
    requires us != []
    ensures Sum(us) == us[0].value + Sum(us[1..])
  {
    assert us == [us[0]] + us[1..];
    SumConcat([us[0]], us[1..]);
    SumPush([], us[0]);
    assert [] + [us[0]] == [us[0]];
  }

  lemma SumOutsidePush(us: seq<UTXO>, u: UTXO, gone: set<string>)
    ensures SumOutside(us + [u], gone) == SumOutside(us, gone) + if Outpoint(u) in gone then 0 else u.value
  {
    assert (us + [u])[..|us|] == us;
  }

  /** Changing one entry changes a sum by the difference it makes at that entry. */
  lemma {:induction false} SumUnspentUpdate(us: seq<UTXO>, i: nat, u: UTXO)
    requires i < |us|
    ensures SumUnspent(us[i := u])
         == SumUnspent(us) - (if us[i].spent then 0 else us[i].value) + (if u.spent then 0 else u.value)
  {
    var n := |us| - 1;
    if i == n {
      assert us[i := u][..n] == us[..n];
    } else {
      assert us[i := u][..n] == us[..n][i := u];
      SumUnspentUpdate(us[..n], i, u);
    }
  }

  lemma {:induction false} SumsAreNonNegative(us: seq<UTXO>, gone: set<string>)
    requires NonNegative(us)
    ensures Sum(us) >= 0 && SumUnspent(us) >= 0 && SumOutside(us, gone) >= 0
  {
    if us != [] {
      SumsAreNonNegative(us[..|us| - 1], gone);
    }
  }

  /** Sums only see outpoints and values: marks make no difference outside SumUnspent. */
  lemma {:induction false} SumOutsideIgnoresMarks(us: seq<UTXO>, vs: seq<UTXO>, gone: set<string>)
    requires |us| == |vs|
    requires forall i :: 0 <= i < |us| ==> us[i].(spent := false) == vs[i].(spent := false)
    ensures SumOutside(us, gone) == SumOutside(vs, gone)
  {
    if us != [] {
      var n := |us| - 1;
      assert us[n].(spent := false) == vs[n].(spent := false);
      SumOutsideIgnoresMarks(us[..n], vs[..n], gone);
    }
  }

  ghost predicate DistinctOutpoints(us: seq<UTXO>) {
    forall i, j :: 0 <= i < j < |us| ==> Outpoint(us[i]) != Outpoint(us[j])
  }

  ghost predicate DistinctTxids(us: seq<UTXO>) {
    forall i, j :: 0 <= i < j < |us| ==> us[i].txid != us[j].txid
  }
}
