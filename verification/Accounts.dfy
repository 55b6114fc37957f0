/** The law of the ledger: the balance is the value of the entries no accepted transaction has spent. */
module Accounts {
  import opened StoreCodec
  import opened Coins
  import opened CoinSelection
  import opened Ledger
  import opened Scanning
  import opened Settlement
  import opened Reload

  /** The books at rest, when the outpoints in `spent` have been consumed. */
  ghost predicate RealBooks(b: Books, spent: set<string>) {
    && NonNegative(b.utxos)
    && DistinctOutpoints(b.utxos)
    && ListStored(b.utxos, b.storedUTXOs)
    && b.storedBalance == Int64ToBytes(b.balance)
    && spent <= Outpoints(b.utxos)
    && b.balance == SumOutside(b.utxos, spent)
    && (|b.utxos| == 1 ==> spent == {} && !b.utxos[0].spent)
  }

  /// Sums over what is left

  lemma {:induction false} SumOutsideNothing(us: seq<UTXO>, gone: set<string>)
    requires forall i :: 0 <= i < |us| ==> Outpoint(us[i]) !in gone
    ensures SumOutside(us, gone) == Sum(us)
  {
    if us != [] {
      SumOutsideNothing(us[..|us| - 1], gone);
    }
  }

  /** One more outpoint gone takes the value of its entry. */
  lemma {:induction false} SpendOne(us: seq<UTXO>, gone: set<string>, i: nat)
    requires i < |us| && DistinctOutpoints(us) && Outpoint(us[i]) !in gone
    ensures SumOutside(us, gone + {Outpoint(us[i])}) == SumOutside(us, gone) - us[i].value
  {
    var n := |us| - 1;
    var more := gone + {Outpoint(us[i])};
    if i == n {
      SumOutsideSame(us[..n], gone, more);
    } else {
      SpendOne(us[..n], gone, i);
      assert Outpoint(us[n]) != Outpoint(us[i]);
    }
  }

  lemma {:induction false} SumOutsideSame(us: seq<UTXO>, gone: set<string>, gone': set<string>)
    requires forall i :: 0 <= i < |us| ==> (Outpoint(us[i]) in gone <==> Outpoint(us[i]) in gone')
    ensures SumOutside(us, gone) == SumOutside(us, gone')
  {
    if us != [] {
      SumOutsideSame(us[..|us| - 1], gone, gone');
    }
  }

  /** Spending a selection takes its sum. */
  lemma SpendMany(us: seq<UTXO>, gone: set<string>, used: seq<UTXO>)
    requires DistinctOutpoints(us) && DistinctOutpoints(used)
    requires forall j :: 0 <= j < |used| ==> used[j] in us && Outpoint(used[j]) !in gone
    ensures SumOutside(us, gone + Outpoints(used)) == SumOutside(us, gone) - Sum(used)
  {
    assert gone + Outpoints(used[..0]) == gone;
    for n := 0 to |used|
      invariant SumOutside(us, gone + Outpoints(used[..n])) == SumOutside(us, gone) - Sum(used[..n])
    {
      SpendNext(us, gone, used, n);
    }
    assert used[..|used|] == used;
  }

  lemma SpendNext(us: seq<UTXO>, gone: set<string>, used: seq<UTXO>, n: nat)
    requires n < |used| && DistinctOutpoints(us) && DistinctOutpoints(used)
    requires used[n] in us && Outpoint(used[n]) !in gone
    ensures SumOutside(us, gone + Outpoints(used[..n + 1]))
         == SumOutside(us, gone + Outpoints(used[..n])) - used[n].value
    ensures Sum(used[..n + 1]) == Sum(used[..n]) + used[n].value
  {
    NextOutpoint(gone, used, n);
    var i :| 0 <= i < |us| && us[i] == used[n];
    SpendOne(us, gone + Outpoints(used[..n]), i);
  }

  lemma NextOutpoint(gone: set<string>, used: seq<UTXO>, n: nat)
    requires n < |used| && DistinctOutpoints(used) && Outpoint(used[n]) !in gone
    ensures gone + Outpoints(used[..n + 1]) == gone + Outpoints(used[..n]) + {Outpoint(used[n])}
    ensures Outpoint(used[n]) !in gone + Outpoints(used[..n])
    ensures Sum(used[..n + 1]) == Sum(used[..n]) + used[n].value
  {
    assert used[..n + 1] == used[..n] + [used[n]];
    OutpointsPush(used[..n], used[n]);
    SumPush(used[..n], used[n]);
    NotAmongEarlier(used, n);
  }

  lemma NotAmongEarlier(used: seq<UTXO>, n: nat)
    requires n < |used| && DistinctOutpoints(used)
    ensures Outpoint(used[n]) !in Outpoints(used[..n])
  {
    forall u | u in used[..n] ensures Outpoint(u) != Outpoint(used[n]) {
      var j :| 0 <= j < n && used[..n][j] == u;
      assert Outpoint(used[j]) != Outpoint(used[n]);
    }
  }

  lemma OutpointsPush(us: seq<UTXO>, u: UTXO)
    ensures Outpoints(us + [u]) == Outpoints(us) + {Outpoint(u)}
  {
    assert u in us + [u];
    forall v | v in us ensures v in us + [u] {
    }
  }

  lemma OutpointsConcat(us: seq<UTXO>, vs: seq<UTXO>)
    ensures Outpoints(us + vs) == Outpoints(us) + Outpoints(vs)
  {
    forall u ensures u in us + vs <==> u in us || u in vs {
    }
  }

  lemma {:induction false} SumOutsidePermutes(us: seq<UTXO>, vs: seq<UTXO>, gone: set<string>)
    requires multiset(us) == multiset(vs)
    ensures SumOutside(us, gone) == SumOutside(vs, gone)
    decreases |us|
  {
    assert |multiset(us)| == |us| && |multiset(vs)| == |vs|;
    if us != [] {
      var n := |us| - 1;
      assert us == us[..n] + [us[n]];
      assert multiset(us) == multiset(us[..n]) + multiset{us[n]};
      assert us[n] in multiset(vs);
      var j :| 0 <= j < |vs| && vs[j] == us[n];
      WithoutKeepsTheRest(vs, j);
      assert multiset(us) - multiset{us[n]} == multiset(us[..n]);
      assert multiset(vs) - multiset{vs[j]} == multiset(Without(vs, j));
      SumOutsidePermutes(us[..n], Without(vs, j), gone);
      SumOutsideWithout(vs, j, gone);
    }
  }

  lemma SumOutsideWithout(vs: seq<UTXO>, j: nat, gone: set<string>)
    requires j < |vs|
    ensures SumOutside(vs, gone)
         == SumOutside(Without(vs, j), gone) + if Outpoint(vs[j]) in gone then 0 else vs[j].value
  {
    assert vs == (vs[..j] + [vs[j]]) + vs[j + 1..];
    SumOutsideConcat(vs[..j] + [vs[j]], vs[j + 1..], gone);
    SumOutsidePush(vs[..j], vs[j], gone);
    SumOutsideConcat(vs[..j], vs[j + 1..], gone);
  }

  /// Crediting keeps the law

  /** What a list and its sums become when unspent entries with outpoints of their own are appended. */
  lemma AppendedBooks(us: seq<UTXO>, bucket: map<string, UTXO>, spent: set<string>, more: seq<UTXO>)
    requires NonNegative(us) && ListStored(us, bucket) && spent <= Outpoints(us)
    requires DistinctOutpoints(us + more) && NonNegative(more)
    requires forall i :: 0 <= i < |more| ==> !more[i].spent
    ensures NonNegative(us + more) && ListStored(us + more, Stored(bucket, more))
    ensures spent <= Outpoints(us + more)
    ensures SumOutside(us + more, spent) == SumOutside(us, spent) + Sum(more)
  {
    StoredKeepsList(us, bucket, more);
    OutpointsConcat(us, more);
    SumOutsideConcat(us, more, spent);
    FreshAreNotSpent(us, more, spent);
    SumOutsideNothing(more, spent);
  }

  lemma CreditKeepsReal(w: Wallet, spent: set<string>, us: seq<UTXO>)
    requires RealBooks(BooksOf(w), spent)
    requires DistinctOutpoints(w.utxos + us) && NonNegative(us)
    requires forall i :: 0 <= i < |us| ==> !us[i].spent
    ensures RealBooks(BooksOf(Credited(w, us)), spent)
  {
    CreditedFields(w, us);
    AppendedBooks(w.utxos, w.store.utxos, spent, us);
    assert w.utxos == [] ==> spent == {};
  }

  lemma FreshAreNotSpent(us: seq<UTXO>, more: seq<UTXO>, spent: set<string>)
    requires DistinctOutpoints(us + more) && spent <= Outpoints(us)
    ensures forall i :: 0 <= i < |more| ==> Outpoint(more[i]) !in spent
  {
    forall i | 0 <= i < |more| ensures Outpoint(more[i]) !in Outpoints(us) {
      forall u | u in us ensures Outpoint(u) != Outpoint(more[i]) {
        var k :| 0 <= k < |us| && us[k] == u;
        assert (us + more)[k] == u && (us + more)[|us| + i] == more[i];
      }
    }
  }

  /// Settling keeps the law

  /** What a settlement needs of the send it ends: unspent entries of the list, each once, worth what
      the balance gives up plus the change; and change with a TxID of its own. */
  ghost predicate SettlesFairly(p: Plan, base: Books, look: Look, spent: set<string>) {
    && AllSaved(p) && p.used != []
    && Spends(p.used, base.utxos)
    && (forall j :: 0 <= j < |p.used| ==> Outpoint(p.used[j]) !in spent)
    && look.Change? && !look.u.spent && look.u.value >= 0
    && Sum(p.used) == base.balance - p.newBalance + look.u.value
    && (forall i :: 0 <= i < |base.utxos| ==> base.utxos[i].txid != look.u.txid)
  }

  lemma WritingAgain(us: seq<UTXO>, bucket: map<string, UTXO>, u: UTXO)
    requires ListStored(us, bucket) && u in us && !u.spent
    ensures bucket[Outpoint(u) := u] == bucket
  {
    var k :| 0 <= k < |us| && us[k] == u;
    assert bucket[Outpoint(us[k])] == u;
  }

  lemma RewritingChangesNothing(p: Plan, base: Books, n: nat)
    requires n <= |p.used| && ListStored(base.utxos, base.storedUTXOs)
    requires forall j :: 0 <= j < |p.used| ==> p.used[j] in base.utxos && !p.used[j].spent
    ensures Rewritten(p, base, n) == base.storedUTXOs
  {
    for k := 0 to n
      invariant Rewritten(p, base, k) == base.storedUTXOs
    {
      WritingAgain(base.utxos, base.storedUTXOs, p.used[k]);
    }
  }

  lemma FreshTxidFreshOutpoint(us: seq<UTXO>, u: UTXO)
    requires forall i :: 0 <= i < |us| ==> us[i].txid != u.txid
    ensures forall i :: 0 <= i < |us| ==> Outpoint(us[i]) != Outpoint(u)
    ensures Outpoint(u) !in Outpoints(us)
  {
    forall i | 0 <= i < |us| ensures Outpoint(us[i]) != Outpoint(u) {
      if Outpoint(us[i]) == Outpoint(u) {
        OutpointKeyInjective(us[i].txid, us[i].vout, u.txid, u.vout);
      }
    }
  }

  lemma MarkedOnlyFlags(p: Plan, base: Books)
    ensures var us := Marked(p, base, |p.used|);
      && (forall i :: 0 <= i < |us| ==> us[i].(spent := false) == base.utxos[i].(spent := false))
      && Outpoints(us) == Outpoints(base.utxos)
  {
    var us := Marked(p, base, |p.used|);
    MarkedIs(p, base, |p.used|);
    SameOutpoints(us, base.utxos);
  }

  /** Flags make no difference to what else is asked of a list. */
  lemma FlagsDoNotMatter(us: seq<UTXO>, vs: seq<UTXO>, bucket: map<string, UTXO>)
    requires |us| == |vs| && forall i :: 0 <= i < |us| ==> us[i].(spent := false) == vs[i].(spent := false)
    requires DistinctOutpoints(vs) && NonNegative(vs) && ListStored(vs, bucket)
    ensures DistinctOutpoints(us) && NonNegative(us) && ListStored(us, bucket)
  {
    forall i | 0 <= i < |us| ensures Outpoint(us[i]) == Outpoint(vs[i]) && us[i].value == vs[i].value {
      assert us[i].(spent := false) == vs[i].(spent := false);
    }
    SameOutpoints(us, vs);
  }

  lemma SameOutpoints(us: seq<UTXO>, vs: seq<UTXO>)
    requires |us| == |vs| && forall i :: 0 <= i < |us| ==> Outpoint(us[i]) == Outpoint(vs[i])
    ensures Outpoints(us) == Outpoints(vs)
  {
    forall k ensures k in Outpoints(us) <==> k in Outpoints(vs) {
      if k in Outpoints(us) {
        var i :| 0 <= i < |us| && Outpoint(us[i]) == k;
        assert vs[i] in vs;
      }
      if k in Outpoints(vs) {
        var i :| 0 <= i < |vs| && Outpoint(vs[i]) == k;
        assert us[i] in us;
      }
    }
  }

  /** The sum left after the send, the change included, is what the balance says. */
  lemma SettledSum(p: Plan, base: Books, look: Look, spent: set<string>)
    requires RealBooks(base, spent) && SettlesFairly(p, base, look, spent)
    ensures SumOutside(Marked(p, base, |p.used|) + [look.u], spent + Outpoints(p.used)) == p.newBalance
  {
    var us := Marked(p, base, |p.used|);
    var gone := spent + Outpoints(p.used);
    MarkedOnlyFlags(p, base);
    SumOutsideIgnoresMarks(us, base.utxos, gone);
    SpendMany(base.utxos, spent, p.used);
    FreshTxidFreshOutpoint(base.utxos, look.u);
    UsedAreListed(p.used, base.utxos);
    SumOutsidePush(us, look.u, gone);
  }

  lemma UsedAreListed(used: seq<UTXO>, us: seq<UTXO>)
    requires forall j :: 0 <= j < |used| ==> used[j] in us
    ensures Outpoints(used) <= Outpoints(us)
  {
  }

  lemma AppendedList(us: seq<UTXO>, bucket: map<string, UTXO>, u: UTXO)
    requires ListStored(us, bucket) && DistinctOutpoints(us) && NonNegative(us)
    requires !u.spent && u.value >= 0 && forall i :: 0 <= i < |us| ==> Outpoint(us[i]) != Outpoint(u)
    ensures ListStored(us + [u], bucket[Outpoint(u) := u]) && DistinctOutpoints(us + [u]) && NonNegative(us + [u])
  {
    StoreOne(us, bucket, u);
  }

  lemma SettlingKeepsReal(p: Plan, base: Books, look: Look, spent: set<string>)
    requires RealBooks(base, spent) && SettlesFairly(p, base, look, spent)
    ensures RealBooks(Settled(p, base, look), spent + Outpoints(p.used))
  {
    var us := Marked(p, base, |p.used|);
    MarkedOnlyFlags(p, base);
    FlagsDoNotMatter(us, base.utxos, base.storedUTXOs);
    RewritingChangesNothing(p, base, |p.used|);
    FreshTxidFreshOutpoint(base.utxos, look.u);
    AppendedList(us, base.storedUTXOs, look.u);
    SettledSum(p, base, look, spent);
    UsedAreListed(p.used, base.utxos);
    OutpointsPush(us, look.u);
    assert p.used[0] in base.utxos;
  }

  /// Restarting keeps the law

  lemma RestartKeepsReal(b: Books, spent: set<string>, cursor: seq<string>)
    requires RealBooks(b, spent) && Visits(cursor, b.storedUTXOs)
    ensures RealBooks(b.(utxos := StoredUTXOs(b.storedUTXOs, cursor)), spent)
  {
    var read := StoredUTXOs(b.storedUTXOs, cursor);
    var plain := Unflagged(b.utxos);
    ReadUTXOsExact(b.utxos, b.storedUTXOs, cursor);
    SumOutsidePermutes(read, plain, spent);
    SumOutsideIgnoresMarks(plain, b.utxos, spent);
    SameOutpoints(plain, b.utxos);
    ReadListStored(b.utxos, b.storedUTXOs, cursor);
    ReorderedKeeps(plain, read);
  }

  lemma ReorderedKeeps(us: seq<UTXO>, read: seq<UTXO>)
    requires multiset(read) == multiset(us) && NonNegative(us)
    ensures |read| == |us| && NonNegative(read)
  {
    assert |multiset(read)| == |read| && |multiset(us)| == |us|;
    forall i | 0 <= i < |read| ensures read[i].value >= 0 {
      assert read[i] in multiset(us);
    }
  }

  lemma ReadListStored(us: seq<UTXO>, bucket: map<string, UTXO>, cursor: seq<string>)
    requires ListStored(us, bucket) && Visits(cursor, bucket)
    ensures ListStored(StoredUTXOs(bucket, cursor), bucket)
    ensures Outpoints(StoredUTXOs(bucket, cursor)) == Outpoints(us)
  {
    var read := StoredUTXOs(bucket, cursor);
    ReadUTXOs(bucket, cursor);
    forall i | 0 <= i < |read|
      ensures Outpoint(read[i]) == cursor[i] && read[i] == read[i].(spent := false)
    {
      ReadEntry(us, bucket, cursor[i]);
    }
    forall k ensures k in Outpoints(read) <==> k in bucket {
      if k in bucket {
        assert k in cursor;
        var i :| 0 <= i < |cursor| && cursor[i] == k;
        assert read[i] in read;
      }
      if k in Outpoints(read) {
        var i :| 0 <= i < |read| && Outpoint(read[i]) == k;
        assert cursor[i] in bucket;
      }
    }
  }
}
