/** What a process that dies in the middle of a settlement finds when it is started again: the tasks are
    gone, and only what they had written to the store is there (wallet/tx.go, wallet/setup.go). */
module CrashRestart {
  import opened StoreCodec
  import opened Coins
  import opened Ledger
  import opened Settlement
  import opened Reload
  import opened Accounts

  /** The list the bucket stands for: the entries of before, and the change once it is saved. */
  function SavedList(base: Books, look: Look, t: Tasks): seq<UTXO> {
    if t.changes >= 1 && look.Change? then base.utxos + [look.u] else base.utxos
  }

  lemma SavedListIsStored(p: Plan, base: Books, look: Look, spent: set<string>, s: Settling)
    requires RealBooks(base, spent) && SettlesFairly(p, base, look, spent) && At(p, base, look, s)
    ensures var saved := SavedList(base, look, s.tasks);
      ListStored(saved, s.books.storedUTXOs) && DistinctOutpoints(saved)
  {
    RewritingChangesNothing(p, base, s.tasks.put);
    FreshTxidFreshOutpoint(base.utxos, look.u);
    AppendedList(base.utxos, base.storedUTXOs, look.u);
  }

  lemma SavedSum(p: Plan, base: Books, look: Look, spent: set<string>, t: Tasks)
    requires RealBooks(base, spent) && SettlesFairly(p, base, look, spent)
    ensures SumOutside(SavedList(base, look, t), spent + Outpoints(p.used))
         == base.balance - Sum(p.used) + if t.changes >= 1 then look.u.value else 0
  {
    var gone := spent + Outpoints(p.used);
    SpendMany(base.utxos, spent, p.used);
    FreshTxidFreshOutpoint(base.utxos, look.u);
    UsedAreListed(p.used, base.utxos);
    SumOutsidePush(base.utxos, look.u, gone);
  }

  lemma ReadSum(us: seq<UTXO>, bucket: map<string, UTXO>, cursor: seq<string>, gone: set<string>)
    requires ListStored(us, bucket) && DistinctOutpoints(us) && Visits(cursor, bucket)
    ensures SumOutside(StoredUTXOs(bucket, cursor), gone) == SumOutside(us, gone)
  {
    ReadUTXOsExact(us, bucket, cursor);
    SumOutsidePermutes(StoredUTXOs(bucket, cursor), Unflagged(us), gone);
    SumOutsideIgnoresMarks(Unflagged(us), us, gone);
  }

  lemma FairIsReady(p: Plan, base: Books, look: Look, spent: set<string>)
    requires SettlesFairly(p, base, look, spent)
    ensures Ready(p, base, look)
  {
    forall j | 0 <= j < |p.used| ensures FirstWith(base.utxos, p.used[j].txid) < |base.utxos| {
      HasFirst(base.utxos, p.used[j]);
    }
    FreshTxidFreshOutpoint(base.utxos, look.u);
    UsedAreListed(p.used, base.utxos);
  }

  /** How far the balance read back is from the entries no accepted transaction has spent. */
  function ReadDrift(b: Books, cursor: seq<string>, gone: set<string>): int {
    BytesToInt64(b.storedBalance) - SumOutside(StoredUTXOs(b.storedUTXOs, cursor), gone)
  }

  /** After any schedule, whole or not: the balance read back is off by what was spent, if its own write
      came too late, and by the change, if that was not saved in time; the marks make no difference. So it
      is right exactly when what the missing writes were worth is nothing: the change, amount and fee, or
      both together. For a send that costs something and has change, that is when both had been saved. */
  lemma CrashIsHarmlessIffBothSaved(p: Plan, base: Books, look: Look, spent: set<string>, schedule: seq<Task>,
                                    cursor: seq<string>)
    requires RealBooks(base, spent) && SettlesFairly(p, base, look, spent)
    requires Follow(p, look, Start(base), schedule).Some?
    requires IsInt64(base.balance) && IsInt64(p.newBalance)
    requires Visits(cursor, Follow(p, look, Start(base), schedule).value.books.storedUTXOs)
    ensures var s := Follow(p, look, Start(base), schedule).value;
      var change, paid := look.u.value, base.balance - p.newBalance;
      var changeSaved, balanceSaved := s.tasks.changes >= 1, s.tasks.balances >= 1;
      var drift := ReadDrift(s.books, cursor, spent + Outpoints(p.used));
      && drift == (if balanceSaved then change else Sum(p.used)) - (if changeSaved then change else 0)
      && (drift == 0
          <==> (if balanceSaved && changeSaved then true
                else if balanceSaved then change == 0
                else if changeSaved then paid == 0 else paid + change == 0))
      && (change > 0 && paid > 0 ==> (drift == 0 <==> balanceSaved && changeSaved))
  {
    FairIsReady(p, base, look, spent);
    RunKeepsAt(p, base, look, Start(base), schedule);
    CrashDrift(p, base, look, spent, Follow(p, look, Start(base), schedule).value, cursor);
  }

  lemma CrashDrift(p: Plan, base: Books, look: Look, spent: set<string>, s: Settling, cursor: seq<string>)
    requires RealBooks(base, spent) && SettlesFairly(p, base, look, spent) && At(p, base, look, s)
    requires IsInt64(base.balance) && IsInt64(p.newBalance) && Visits(cursor, s.books.storedUTXOs)
    ensures ReadDrift(s.books, cursor, spent + Outpoints(p.used))
         == (if s.tasks.balances >= 1 then look.u.value else Sum(p.used))
          - (if s.tasks.changes >= 1 then look.u.value else 0)
  {
    SavedListIsStored(p, base, look, spent, s);
    ReadSum(SavedList(base, look, s.tasks), s.books.storedUTXOs, cursor, spent + Outpoints(p.used));
    SavedSum(p, base, look, spent, s.tasks);
    Int64Survives(base.balance);
    Int64Survives(p.newBalance);
  }
}
