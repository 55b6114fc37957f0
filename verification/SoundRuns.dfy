/** Keys, addresses and ownership over every run, whatever fails and whenever the wallet restarts. */
module SoundRuns {
  import opened Text
  import opened StoreCodec
  import opened Node
  import opened KeyChain
  import opened Transactions
  import opened Ledger
  import opened Settlement
  import opened KeyInvariants
  import opened KeyDensity
  import CoinSelection
  import opened Scanning
  import opened Reload
  import opened Runs

  /** Every UTXO a settlement may still write is owned. */
  ghost predicate FlightOwned(env: Env, keys: Keys, f: Flight) {
    && (forall j :: 0 <= j < |f.plan.used| ==> OwnedBy(env, keys, f.plan.used[j]))
    && (f.look.Change? ==> OwnedBy(env, keys, f.look.u))
    && (f.tasks.added.Some? ==> OwnedBy(env, keys, f.tasks.added.value))
  }

  ghost predicate SystemSound(env: Env, s: System) {
    Sound(env, s.w) && forall i :: 0 <= i < |s.flights| ==> FlightOwned(env, s.w.store.keys, s.flights[i])
  }

  lemma GrowthKeepsFlights(env: Env, s: System, s1: System)
    requires SystemSound(env, s) && KeysGrow(s.w.store.keys, s1.w.store.keys)
    requires Sound(env, s1.w) && s1.flights == s.flights
    ensures SystemSound(env, s1)
  {
  }

  /** The change entry is owned, for the lookup only answers with a key of that address. */
  lemma LookIsOwned(env: Env, keys: Keys, cursor: seq<string>, p: Plan)
    ensures LookAt(env, keys, cursor, p).Change? ==> OwnedBy(env, keys, LookAt(env, keys, cursor, p).u)
  {
    if env.info(p.changeOutput.script).Pays? {
      PathForFound(keys, cursor, env.info(p.changeOutput.script).address);
    }
  }

  lemma MarkStepKeepsOwned(env: Env, w: Wallet, p: Plan, t: Tasks)
    requires AllOwned(env, w) && t.marked < |p.used|
    requires forall j :: 0 <= j < |p.used| ==> OwnedBy(env, w.store.keys, p.used[j])
    ensures AllOwned(env, WithBooks(w, MarkStep(p, Settling(BooksOf(w), t)).books))
  {
  }

  lemma ChangeStepKeepsOwned(env: Env, w: Wallet, p: Plan, look: Look, t: Tasks)
    requires AllOwned(env, w)
    requires look.Change? ==> OwnedBy(env, w.store.keys, look.u)
    requires t.added.Some? ==> OwnedBy(env, w.store.keys, t.added.value)
    ensures AllOwned(env, WithBooks(w, ChangeStep(p, look, Settling(BooksOf(w), t)).books))
  {
  }

  /** What is left to show of a settlement step is the wallet and the flight that moved. */
  lemma ResumedIsSound(env: Env, s: System, i: nat, f: Flight, r: Settling)
    requires SystemSound(env, s) && i < |s.flights|
    requires AllOwned(env, WithBooks(s.w, r.books)) && FlightOwned(env, s.w.store.keys, f.(tasks := r.tasks))
    ensures SystemSound(env, Resumed(s, i, f, r))
  {
    var s1 := Resumed(s, i, f, r);
    assert s1.w.store.keys == s.w.store.keys && s1.w.addresses == s.w.addresses;
    forall j | 0 <= j < |s1.flights| ensures FlightOwned(env, s1.w.store.keys, s1.flights[j]) {
      if Done(f.plan, r.tasks) {
        assert s1.flights[j] == s.flights[if j < i then j else j + 1];
      }
    }
  }

  lemma ChangeKeepsSound(env: Env, s: System, i: nat, f: Flight, look: Look)
    requires SystemSound(env, s) && i < |s.flights| && s.flights[i] == f
    requires look.Change? ==> OwnedBy(env, s.w.store.keys, look.u)
    ensures SystemSound(env, Resumed(s, i, f.(look := look), ChangeStep(f.plan, look, Settling(BooksOf(s.w), f.tasks))))
  {
    var r := ChangeStep(f.plan, look, Settling(BooksOf(s.w), f.tasks));
    ChangeStepKeepsOwned(env, s.w, f.plan, look, f.tasks);
    ResumedIsSound(env, s, i, f.(look := look), r);
  }

  lemma MarkKeepsSound(env: Env, s: System, i: nat, f: Flight)
    requires SystemSound(env, s) && i < |s.flights| && s.flights[i] == f && f.tasks.marked < |f.plan.used|
    ensures SystemSound(env, Resumed(s, i, f, MarkStep(f.plan, Settling(BooksOf(s.w), f.tasks))))
  {
    MarkStepKeepsOwned(env, s.w, f.plan, f.tasks);
    ResumedIsSound(env, s, i, f, MarkStep(f.plan, Settling(BooksOf(s.w), f.tasks)));
  }

  lemma BalanceKeepsSound(env: Env, s: System, i: nat, f: Flight)
    requires SystemSound(env, s) && i < |s.flights| && s.flights[i] == f
    ensures SystemSound(env, Resumed(s, i, f, BalanceStep(f.plan, Settling(BooksOf(s.w), f.tasks))))
  {
    ResumedIsSound(env, s, i, f, BalanceStep(f.plan, Settling(BooksOf(s.w), f.tasks)));
  }

  lemma SettlementKeepsSound(env: Env, s: System, i: nat, e: Event)
    requires SystemSound(env, s) && i < |s.flights|
    ensures SystemSound(env, SettlementStep(env, s, i, e))
  {
    var f := s.flights[i];
    match e
    case MarkNext(_) =>
      if Enabled(f.plan, f.tasks, MarkTask) { MarkKeepsSound(env, s, i, f); }
    case BalanceNext(_) => BalanceKeepsSound(env, s, i, f);
    case ChangeNext(_, cursor) =>
      if f.tasks.changes == 0 {
        LookIsOwned(env, s.w.store.keys, cursor, f.plan);
        ChangeKeepsSound(env, s, i, f, LookAt(env, s.w.store.keys, cursor, f.plan));
      } else {
        ChangeKeepsSound(env, s, i, f, f.look);
      }
    case _ =>
  }

  lemma LaunchKeepsSound(env: Env, s: System, w1: Wallet, call: SendCall, tx: MsgTx)
    requires SystemSound(env, s) && Sound(env, w1) && KeysGrow(s.w.store.keys, w1.store.keys)
    requires forall j :: 0 <= j < |call.used| ==> OwnedBy(env, w1.store.keys, call.used[j])
    ensures SystemSound(env, Launched(env, s, w1, call, tx))
  {
    var s1 := Launched(env, s, w1, call, tx);
    GrowthKeepsFlights(env, s, s.(w := w1));
    forall i | 0 <= i < |s1.flights| ensures FlightOwned(env, w1.store.keys, s1.flights[i]) {
      if i < |s.flights| { assert s1.flights[i] == s.flights[i]; }
    }
  }

  lemma SendKeepsSound(env: Env, s: System, call: SendCall)
    requires CipherLaw(env) && SystemSound(env, s)
    ensures SystemSound(env, SendStep(env, s, call))
    ensures KeysGrow(s.w.store.keys, SendStep(env, s, call).w.store.keys)
  {
    var s1 := SendStep(env, s, call);
    SendCases(env, s, call);
    if s1 != s {
      var (r, w1) := Prepared(env, s.w, call.address, call.amount, DEFAULT_FEE, call.used, call.draw);
      PreparedKeepsSound(env, s.w, call);
      if s1 == s.(w := w1) {
        GrowthKeepsFlights(env, s, s1);
      } else {
        UsedIsOwned(env, s.w, w1, call);
        LaunchKeepsSound(env, s, w1, call, r.value);
      }
    }
  }

  lemma PreparedKeepsSound(env: Env, w: Wallet, call: SendCall)
    requires CipherLaw(env) && Sound(env, w)
    ensures var w1 := Prepared(env, w, call.address, call.amount, DEFAULT_FEE, call.used, call.draw).1;
      Sound(env, w1) && KeysGrow(w.store.keys, w1.store.keys)
  {
    CreateRawKeepsSound(env, w, call.address, call.amount, DEFAULT_FEE, call.used, call.draw);
  }

  /** A send does nothing, or prepares a transaction and perhaps launches its settlement. */
  lemma SendCases(env: Env, s: System, call: SendCall)
    ensures var s1 := SendStep(env, s, call);
      var (r, w1) := Prepared(env, s.w, call.address, call.amount, DEFAULT_FEE, call.used, call.draw);
      s1 == s || (CoinSelection.Selects(call.amount, s.w.utxos, call.used)
                  && (s1 == s.(w := w1) || (r.Ok? && call.accepted && s1 == Launched(env, s, w1, call, r.value))))
  {
  }

  lemma UsedIsOwned(env: Env, w: Wallet, w1: Wallet, call: SendCall)
    requires AllOwned(env, w) && KeysGrow(w.store.keys, w1.store.keys)
    requires CoinSelection.Selects(call.amount, w.utxos, call.used)
    ensures forall j :: 0 <= j < |call.used| ==> OwnedBy(env, w1.store.keys, call.used[j])
  {
    forall j | 0 <= j < |call.used| ensures OwnedBy(env, w1.store.keys, call.used[j]) {
      assert call.used[j] in multiset(call.used);
      assert call.used[j] in w.utxos;
      GrowthKeepsOwned(env, w.store.keys, w1.store.keys, call.used[j]);
    }
  }

  lemma ScansKeepSound(env: Env, s: System, block: Block, ok: Writes)
    requires SystemSound(env, s)
    ensures SystemSound(env, s.(w := ScanBlock(env, s.w, block, ok), seen := s.seen + OutpointsIn(block)))
    ensures SystemSound(env, NotifyStep(env, s, block, ok))
  {
    ScanBlockKeepsSound(env, s.w, block, ok);
    ScanKeepsFrame(env, s.w, block, ok);
    ScanBlockTxsKeepsSound(env, s.w, block, ok);
    NotifiedKeepsFrame(env, s.w, block, ok);
  }

  lemma RestartKeepsSound(env: Env, s: System, e: Event)
    requires SystemSound(env, s) && e.Restart?
    ensures SystemSound(env, RestartStep(s, e))
  {
    if Visits(e.keyCursor, s.w.store.keys) && Visits(e.utxoCursor, s.w.store.utxos) {
      LoadKeepsSound(env, s.w, e.keyCursor, e.utxoCursor, e.height, e.saved);
    }
  }

  lemma ExecKeepsSound(env: Env, s: System, e: Event)
    requires CipherLaw(env) && SystemSound(env, s)
    ensures SystemSound(env, Exec(env, s, e))
  {
    match e
    case Restart(_, _, _, _) => RestartKeepsSound(env, s, e);
    case NewAddress(draw) =>
      ExternalKeyKeepsSound(env, s.w, draw);
      GrowthKeepsFlights(env, s, s.(w := ExternalKey(env, s.w, draw).1));
    case ScanNext(block, ok) => ScansKeepSound(env, s, block, ok);
    case NotifyBlock(txs, ok) => ScansKeepSound(env, s, txs, ok);
    case Send(call) => SendKeepsSound(env, s, call);
    case LockWallet =>
    case UnlockWallet =>
    case _ =>
      if e.i < |s.flights| { SettlementKeepsSound(env, s, e.i, e); }
  }

  lemma {:induction false} RunKeepsSound(env: Env, s: System, events: seq<Event>)
    requires CipherLaw(env) && SystemSound(env, s)
    ensures SystemSound(env, Run(env, s, events))
    decreases |events|
  {
    if events != [] {
      ExecKeepsSound(env, s, events[0]);
      RunKeepsSound(env, Exec(env, s, events[0]), events[1..]);
    }
  }

  /** Ownership in every reachable state: from a new wallet on, through any events with any failures
      and any restarts, every UTXO in memory and in the store has its key in the bucket, with the
      address its script pays. */
  lemma EveryUTXOIsOwned(env: Env, encodedHash: string, height: int, saved: bool, events: seq<Event>)
    requires CipherLaw(env)
    ensures SystemSound(env, Run(env, Initial(NewWallet(encodedHash, height, saved)), events))
  {
    RunKeepsSound(env, Initial(NewWallet(encodedHash, height, saved)), events);
  }

  /** No reachable state lists the address of an internal key, given that branches never share one. */
  lemma InternalAddressesNeverListed(env: Env, encodedHash: string, height: int, saved: bool, events: seq<Event>,
                                     j: uint32)
    requires CipherLaw(env) && AddressesDistinct(env) && env.child(Internal, j).Some?
    ensures env.addressOf(env.child(Internal, j).value)
      !in Run(env, Initial(NewWallet(encodedHash, height, saved)), events).w.addresses
  {
    var w := Run(env, Initial(NewWallet(encodedHash, height, saved)), events).w;
    EveryUTXOIsOwned(env, encodedHash, height, saved, events);
    var a := env.addressOf(env.child(Internal, j).value);
    if a in w.addresses {
      InternalNotBacked(env, w, j);
    }
  }

  lemma InternalNotBacked(env: Env, w: Wallet, j: uint32)
    requires KeysSound(env, w) && AddressesDistinct(env) && env.child(Internal, j).Some?
    ensures env.addressOf(env.child(Internal, j).value) !in w.addresses
  {
    var a := env.addressOf(env.child(Internal, j).value);
    if a in w.addresses {
      var i: uint32 :| w.addresses[a] == Path(External, i);
      var c, k: uint32 :| DerivedAt(env, w.store.keys, w.addresses[a], c, k);
      PathInjective(External, i, c, k);
      assert SameAddress(env, External, i, Internal, j);
    }
  }

  /// What follows in every reachable state

  lemma ListedAddressesAreWitness(env: Env, w: Wallet)
    requires KeysSound(env, w) && WitnessLaw(env)
    ensures WitnessOnly(env, w.addresses)
  {
    forall script | env.info(script).Pays? && env.info(script).address in w.addresses
      ensures env.info(script).kind != OtherClass
    {
      var a := env.info(script).address;
      var c, i: uint32 :| DerivedAt(env, w.store.keys, w.addresses[a], c, i);
    }
  }

  /** In every reachable state the two scanners agree on any block whose scripts parse, once each
      transaction passed on has an address in every output: the class filter of scanBlock drops nothing
      the wallet owns. */
  lemma ScannersAgreeInEveryState(env: Env, encodedHash: string, height: int, saved: bool, events: seq<Event>,
                                  block: Block, keep: seq<bool>, ok: Writes, ok': Writes)
    requires CipherLaw(env) && WitnessLaw(env) && AllSucceed(ok) && AllSucceed(ok') && |keep| == |block|
    requires WellFormed(env, block)
    requires forall j :: 0 <= j < |block| && keep[j] ==> AllPay(env, block[j])
    requires var w := Run(env, Initial(NewWallet(encodedHash, height, saved)), events).w;
      forall j :: 0 <= j < |block| && !keep[j] ==> !PaysWallet(env, w.addresses, block[j])
    ensures var w := Run(env, Initial(NewWallet(encodedHash, height, saved)), events).w;
      && ScanBlockTxs(env, w, Kept(block, keep), ok').running
      && ScanBlockTxs(env, w, Kept(block, keep), ok').w == ScanBlock(env, w, block, ok)
  {
    var w := Run(env, Initial(NewWallet(encodedHash, height, saved)), events).w;
    EveryUTXOIsOwned(env, encodedHash, height, saved, events);
    ListedAddressesAreWitness(env, w);
    ScannersAgree(env, w, block, keep, ok, ok');
  }

  lemma ResumedMovesBooks(s: System, i: nat, f: Flight, r: Settling, s1: System)
    requires i < |s.flights| && s1 == Resumed(s, i, f, r)
    ensures s1.w == WithBooks(s.w, BooksOf(s1.w))
  {
  }

  lemma MarkMovesBooks(env: Env, s: System, i: nat, e: Event, s1: System)
    requires i < |s.flights| && e.MarkNext? && s1 == SettlementStep(env, s, i, e)
    ensures s1.w == WithBooks(s.w, BooksOf(s1.w))
  {
    var f := s.flights[i];
    if Enabled(f.plan, f.tasks, MarkTask) {
      ResumedMovesBooks(s, i, f, MarkStep(f.plan, Settling(BooksOf(s.w), f.tasks)), s1);
    }
  }

  lemma ChangeMovesBooks(env: Env, s: System, i: nat, e: Event, s1: System)
    requires i < |s.flights| && e.ChangeNext? && s1 == SettlementStep(env, s, i, e)
    ensures s1.w == WithBooks(s.w, BooksOf(s1.w))
  {
    var f, now := s.flights[i], Settling(BooksOf(s.w), s.flights[i].tasks);
    if Enabled(f.plan, f.tasks, ChangeTask) {
      var look := if f.tasks.changes == 0 then LookAt(env, s.w.store.keys, e.cursor, f.plan) else f.look;
      if f.tasks.changes == 0 && look.Panics? {
        assert s1 == s.(panicked := true);
      } else if f.tasks.changes == 0 {
        ResumedMovesBooks(s, i, f.(look := look), ChangeStep(f.plan, look, now), s1);
      } else {
        ResumedMovesBooks(s, i, f, ChangeStep(f.plan, look, now), s1);
      }
    }
  }

  lemma BalanceMovesBooks(env: Env, s: System, i: nat, e: Event, s1: System)
    requires i < |s.flights| && e.BalanceNext? && s1 == SettlementStep(env, s, i, e)
    ensures s1.w == WithBooks(s.w, BooksOf(s1.w))
  {
    var f := s.flights[i];
    if Enabled(f.plan, f.tasks, BalanceTask) {
      ResumedMovesBooks(s, i, f, BalanceStep(f.plan, Settling(BooksOf(s.w), f.tasks)), s1);
    }
  }

  /** A settlement step moves nothing but the books: no key, no counter, no height. */
  lemma SettlementMovesBooks(env: Env, s: System, i: nat, e: Event, s1: System)
    requires i < |s.flights| && s1 == SettlementStep(env, s, i, e)
    ensures s1.w == WithBooks(s.w, BooksOf(s1.w))
  {
    match e
    case MarkNext(_) => MarkMovesBooks(env, s, i, e, s1);
    case ChangeNext(_, _) => ChangeMovesBooks(env, s, i, e, s1);
    case BalanceNext(_) => BalanceMovesBooks(env, s, i, e, s1);
    case _ =>
  }

  /** One step of a task, as an event. */
  lemma TaskMovesBooks(env: Env, s: System, e: Event, s1: System)
    requires (e.MarkNext? || e.ChangeNext? || e.BalanceNext?) && s1 == Exec(env, s, e)
    ensures s1.w == WithBooks(s.w, BooksOf(s1.w))
  {
    if !s.panicked && e.i < |s.flights| { SettlementMovesBooks(env, s, e.i, e, s1); }
  }

  lemma RestartLeavesKeys(s: System, e: Event)
    requires e.Restart?
    ensures RestartStep(s, e).w.store.keys == s.w.store.keys
  {
  }

  lemma DrawsGrowKeys(env: Env, s: System, e: Event, s1: System)
    requires CipherLaw(env) && SystemSound(env, s) && (e.NewAddress? || e.Send?) && s1 == Exec(env, s, e)
    ensures KeysGrow(s.w.store.keys, s1.w.store.keys)
  {
    if e.NewAddress? {
      ExternalKeyKeepsSound(env, s.w, e.draw);
    } else {
      SendKeepsSound(env, s, e.call);
    }
  }

  lemma ScansLeaveKeys(env: Env, s: System, e: Event, s1: System)
    requires (e.ScanNext? || e.NotifyBlock?) && s1 == Exec(env, s, e)
    ensures s1.w.store.keys == s.w.store.keys
  {
    if e.ScanNext? {
      ScanKeepsFrame(env, s.w, e.block, e.ok);
    } else {
      NotifiedKeepsFrame(env, s.w, e.txs, e.ok);
    }
  }

  lemma RestLeavesKeys(env: Env, s: System, e: Event, s1: System)
    requires (e.Restart? || e.LockWallet? || e.UnlockWallet?) && s1 == Exec(env, s, e)
    ensures s1.w.store.keys == s.w.store.keys
  {
    if e.Restart? { RestartLeavesKeys(s, e); }
  }

  lemma ExecGrowsKeys(env: Env, s: System, e: Event, s1: System)
    requires CipherLaw(env) && SystemSound(env, s) && s1 == Exec(env, s, e)
    ensures KeysGrow(s.w.store.keys, s1.w.store.keys)
  {
    match e
    case NewAddress(_) => DrawsGrowKeys(env, s, e, s1);
    case Send(_) => DrawsGrowKeys(env, s, e, s1);
    case ScanNext(_, _) => ScansLeaveKeys(env, s, e, s1);
    case NotifyBlock(_, _) => ScansLeaveKeys(env, s, e, s1);
    case MarkNext(_) => TaskMovesBooks(env, s, e, s1);
    case ChangeNext(_, _) => TaskMovesBooks(env, s, e, s1);
    case BalanceNext(_) => TaskMovesBooks(env, s, e, s1);
    case _ => RestLeavesKeys(env, s, e, s1);
  }

  /** No key is ever lost, and no path ever changes the address it maps to: not by a retried draw, a
      failed write, a wrapped counter or a restart. */
  lemma {:induction false} PathsKeepTheirAddresses(env: Env, s: System, events: seq<Event>)
    requires CipherLaw(env) && SystemSound(env, s)
    ensures KeysGrow(s.w.store.keys, Run(env, s, events).w.store.keys)
    decreases |events|
  {
    if events != [] {
      var s1 := Exec(env, s, events[0]);
      ExecKeepsSound(env, s, events[0]);
      ExecGrowsKeys(env, s, events[0], s1);
      PathsKeepTheirAddresses(env, s1, events[1..]);
      GrowthComposes(s.w.store.keys, s1.w.store.keys, Run(env, s1, events[1..]).w.store.keys);
    }
  }

  lemma GrowthComposes(keys: Keys, keys': Keys, keys'': Keys)
    requires KeysGrow(keys, keys') && KeysGrow(keys', keys'')
    ensures KeysGrow(keys, keys'')
  {
  }

  /// Density over runs

  ghost predicate DenseSystem(s: System) {
    KeysDense(s.w) && CountersStored(s.w)
  }

  /** No counter is at its last value. */
  predicate BelowWrap(w: Wallet) {
    w.externalIdx < 0xffff_ffff && w.internalIdx < 0xffff_ffff
  }

  ghost predicate NeverWraps(env: Env, s: System, events: seq<Event>)
    decreases |events|
  {
    BelowWrap(s.w) && (events == [] || NeverWraps(env, Exec(env, s, events[0]), events[1..]))
  }

  lemma RestartKeepsDense(s: System, e: Event)
    requires DenseSystem(s) && e.Restart?
    ensures DenseSystem(RestartStep(s, e))
  {
    Uint32Survives(s.w.externalIdx);
    Uint32Survives(s.w.internalIdx);
  }

  lemma DrawsKeepDense(env: Env, s: System, e: Event, s1: System)
    requires DenseSystem(s) && BelowWrap(s.w) && (e.NewAddress? || e.Send?) && s1 == Exec(env, s, e)
    ensures DenseSystem(s1)
  {
    if e.NewAddress? {
      ExternalKeepsDense(env, s.w, e.draw);
    } else {
      SendKeepsDense(env, s, e.call);
    }
  }

  lemma ScansKeepDense(env: Env, s: System, e: Event, s1: System)
    requires DenseSystem(s) && (e.ScanNext? || e.NotifyBlock?) && s1 == Exec(env, s, e)
    ensures DenseSystem(s1)
  {
    if e.ScanNext? {
      ScanKeepsFrame(env, s.w, e.block, e.ok);
    } else {
      NotifiedKeepsFrame(env, s.w, e.txs, e.ok);
    }
  }

  lemma RestKeepsDense(env: Env, s: System, e: Event, s1: System)
    requires DenseSystem(s) && (e.Restart? || e.LockWallet? || e.UnlockWallet?) && s1 == Exec(env, s, e)
    ensures DenseSystem(s1)
  {
    if e.Restart? { RestartKeepsDense(s, e); }
  }

  lemma ExecKeepsDense(env: Env, s: System, e: Event, s1: System)
    requires DenseSystem(s) && BelowWrap(s.w) && s1 == Exec(env, s, e)
    ensures DenseSystem(s1)
  {
    match e
    case NewAddress(_) => DrawsKeepDense(env, s, e, s1);
    case Send(_) => DrawsKeepDense(env, s, e, s1);
    case ScanNext(_, _) => ScansKeepDense(env, s, e, s1);
    case NotifyBlock(_, _) => ScansKeepDense(env, s, e, s1);
    case MarkNext(_) => TaskMovesBooks(env, s, e, s1);
    case ChangeNext(_, _) => TaskMovesBooks(env, s, e, s1);
    case BalanceNext(_) => TaskMovesBooks(env, s, e, s1);
    case _ => RestKeepsDense(env, s, e, s1);
  }

  lemma SendKeepsDense(env: Env, s: System, call: SendCall)
    requires DenseSystem(s) && BelowWrap(s.w)
    ensures DenseSystem(SendStep(env, s, call))
  {
    CreateRawOnlyDraws(env, s.w, call.address, call.amount, DEFAULT_FEE, call.used, call.draw);
    InternalKeepsDense(env, s.w, call.draw);
  }

  lemma {:induction false} RunKeepsDense(env: Env, s: System, events: seq<Event>)
    requires DenseSystem(s) && NeverWraps(env, s, events)
    ensures DenseSystem(Run(env, s, events))
    decreases |events|
  {
    if events != [] {
      ExecKeepsDense(env, s, events[0], Exec(env, s, events[0]));
      RunKeepsDense(env, Exec(env, s, events[0]), events[1..]);
    }
  }

  /** Density in every reachable state below wrap-around: each branch of the bucket holds exactly the
      indices drawn, plus at most the one whose counter write failed. */
  lemma NoIndexIsSkipped(env: Env, encodedHash: string, height: int, saved: bool, events: seq<Event>)
    requires NeverWraps(env, Initial(NewWallet(encodedHash, height, saved)), events)
    ensures DenseSystem(Run(env, Initial(NewWallet(encodedHash, height, saved)), events))
  {
    RunKeepsDense(env, Initial(NewWallet(encodedHash, height, saved)), events);
  }
}
