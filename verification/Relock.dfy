/** Unlocking for a while: relock timers on a clock, and when a send gets past the lock
    (wallet/wallet.go, wallet/rpc.go). */
module Relock {
  import opened Text
  import opened Node
  import opened Ledger
  import opened KeyInvariants
  import opened Runs
  import Passphrase

  /** A successful walletpassphrase call; `pending` holds the deadlines of the timers already running. */
  datatype Unlock = Unlock(passphrase: bytes, at: int, duration: int, pending: multiset<int>)

  /** When a sleep begun at a moment is over: at once, if its duration is not positive. */
  function WakeTime(now: int, duration: int): int {
    if duration > 0 then now + duration else now
  }

  function Deadline(u: Unlock): int {
    WakeTime(u.at, u.duration)
  }

  /** Every timer running once the call is over. */
  function Running(u: Unlock): multiset<int> {
    u.pending + multiset{Deadline(u)}
  }

  /** The system on a clock. `timers`: deadlines of the goroutines asleep. `latest`: the latest unlock of
      this process. `shut`: whether a walletlock call has come since. */
  datatype Timed = Timed(s: System, now: int, timers: multiset<int>, latest: Option<Unlock>, shut: bool)

  datatype TimedEvent =
    | WalletPassphrase(passphrase: bytes, duration: int)
    | WalletLock
    | Fire(deadline: int)
    | Tick(until: int)
    | Other(e: Event)

  /** The wallet comes up again as a new process. */
  ghost predicate Restarts(s: System, e: Event) {
    && e.Restart? && Visits(e.keyCursor, s.w.store.keys) && Visits(e.utxoCursor, s.w.store.utxos)
    && Loaded(s.w.store, e.keyCursor, e.utxoCursor, e.height, e.saved).Some?
  }

  function Moved(t: Timed, s: System, restarted: bool): Timed {
    if restarted then Timed(s, t.now, multiset{}, None, true) else t.(s := s)
  }

  /** Locks and unlocks happen only through the two calls and the timers. Timers die with their process;
      one that is due may still be late. */
  ghost function Advance(env: Env, argon2: Passphrase.KeyDerivation, t: Timed, e: TimedEvent): Timed {
    match e
    case Tick(until) => if t.now <= until then t.(now := until) else t
    case Other(o) =>
      if o.LockWallet? || o.UnlockWallet? then t
      else
        Moved(t, Exec(env, t.s, o), Restarts(t.s, o))
    case WalletPassphrase(passphrase, duration) =>
      if t.s.panicked || !Passphrase.VerifyPassphrase(t.s.w.store.encodedHash, passphrase, argon2) then t
      else
        var u := Unlock(passphrase, t.now, duration, t.timers);
        t.(s := Exec(env, t.s, UnlockWallet), timers := Running(u), latest := Some(u), shut := false)
    case WalletLock => if t.s.panicked then t else t.(s := Exec(env, t.s, LockWallet), shut := true)
    case Fire(deadline) =>
      if t.s.panicked || deadline !in t.timers || deadline > t.now then t
      else t.(s := Exec(env, t.s, LockWallet), timers := t.timers - multiset{deadline})
  }

  ghost function AdvanceAll(env: Env, argon2: Passphrase.KeyDerivation, t: Timed, events: seq<TimedEvent>): Timed
    decreases |events|
  {
    if events == [] then t else AdvanceAll(env, argon2, Advance(env, argon2, t, events[0]), events[1..])
  }

  /** A timed run is its events, one after the other. */
  lemma {:induction false} AdvanceAppends(env: Env, argon2: Passphrase.KeyDerivation, t: Timed,
                                          events: seq<TimedEvent>, e: TimedEvent)
    ensures AdvanceAll(env, argon2, t, []) == t
    ensures AdvanceAll(env, argon2, t, events + [e]) == Advance(env, argon2, AdvanceAll(env, argon2, t, events), e)
    decreases |events|
  {
    if events == [] {
      assert [] + [e] == [e] && [e][1..] == [];
    } else {
      assert (events + [e])[1..] == events[1..] + [e];
      AdvanceAppends(env, argon2, Advance(env, argon2, t, events[0]), events[1..], e);
    }
  }

  ghost function Booted(w: Wallet, now: int): Timed {
    Timed(Initial(w), now, multiset{}, None, true)
  }

  /// Timers on time

  ghost predicate TickOnTime(t: Timed, e: TimedEvent) {
    e.Tick? && !t.s.panicked ==> forall d :: d in t.timers ==> e.until <= d
  }

  /** Time does not pass a running timer before it has fired. */
  ghost predicate OnTime(env: Env, argon2: Passphrase.KeyDerivation, t: Timed, events: seq<TimedEvent>)
    decreases |events|
  {
    events == []
    || (TickOnTime(t, events[0]) && OnTime(env, argon2, Advance(env, argon2, t, events[0]), events[1..]))
  }

  /// Invariants

  ghost predicate Guarded(t: Timed) {
    && (t.latest.Some? ==> t.latest.value.at <= t.now)
    && (t.shut ==> t.s.w.locked)
    && (!t.shut ==> t.latest.Some?)
    && (!t.s.w.locked ==> t.timers == Running(t.latest.value))
    && (t.s.w.locked && !t.shut ==> exists d :: d in Running(t.latest.value) && d <= t.now)
  }

  /** The stored hash is the wallet's, and the latest unlock was made with a passphrase it accepts. */
  ghost predicate Admitted(argon2: Passphrase.KeyDerivation, encodedHash: string, t: Timed) {
    && t.s.w.store.encodedHash == encodedHash
    && (t.latest.Some? ==> Passphrase.VerifyPassphrase(encodedHash, t.latest.value.passphrase, argon2))
  }

  ghost predicate Punctual(t: Timed) {
    !t.s.panicked ==> forall d :: d in t.timers ==> t.now <= d
  }

  lemma ScansKeepLock(env: Env, w: Wallet, block: Block, ok: Writes)
    ensures ScanBlock(env, w, block, ok).locked == w.locked
    ensures ScanBlock(env, w, block, ok).store.encodedHash == w.store.encodedHash
    ensures ScanBlockTxs(env, w, block, ok).w.locked == w.locked
    ensures ScanBlockTxs(env, w, block, ok).w.store.encodedHash == w.store.encodedHash
  {
    ScanKeepsFrame(env, w, block, ok);
    NotifiedKeepsFrame(env, w, block, ok);
    FrameShowsLock(w, ScanBlock(env, w, block, ok));
    FrameShowsLock(w, ScanBlockTxs(env, w, block, ok).w);
  }

  lemma FrameShowsLock(w: Wallet, w': Wallet)
    requires Frame(w) == Frame(w')
    ensures w'.locked == w.locked && w'.store.encodedHash == w.store.encodedHash
  {
    assert Frame(w).store.encodedHash == w.store.encodedHash && Frame(w').store.encodedHash == w'.store.encodedHash;
  }

  lemma SettlementKeepsLock(env: Env, s: System, i: nat, e: Event)
    requires i < |s.flights|
    ensures SettlementStep(env, s, i, e).w.locked == s.w.locked
    ensures SettlementStep(env, s, i, e).w.store.encodedHash == s.w.store.encodedHash
  {
  }

  /** The lock moves only at a lock, an unlock or a restart; the stored hash never does. */
  ghost predicate LockKept(s: System, e: Event, s1: System) {
    && s1.w.store.encodedHash == s.w.store.encodedHash
    && (Restarts(s, e) ==> s1.w.locked && !s1.panicked)
    && (!Restarts(s, e) && !e.LockWallet? && !e.UnlockWallet? ==> s1.w.locked == s.w.locked)
  }

  lemma ScanExecKeepsLock(env: Env, s: System, e: Event)
    requires e.ScanNext? || e.NotifyBlock?
    ensures LockKept(s, e, Exec(env, s, e))
  {
    ScansKeepLock(env, s.w, if e.ScanNext? then e.block else e.txs, e.ok);
  }

  lemma TaskExecKeepsLock(env: Env, s: System, e: Event)
    requires e.MarkNext? || e.ChangeNext? || e.BalanceNext?
    ensures LockKept(s, e, Exec(env, s, e))
  {
    if e.i < |s.flights| { SettlementKeepsLock(env, s, e.i, e); }
  }

  lemma SendExecKeepsLock(env: Env, s: System, e: Event)
    requires e.Send?
    ensures LockKept(s, e, Exec(env, s, e))
  {
    CreateRawTouches(env, s.w, e.call.address, e.call.amount, DEFAULT_FEE, e.call.used, e.call.draw);
  }

  lemma RestartExecKeepsLock(env: Env, s: System, e: Event)
    requires e.Restart?
    ensures LockKept(s, e, Exec(env, s, e))
  {
  }

  lemma PlainExecKeepsLock(env: Env, s: System, e: Event)
    requires e.NewAddress? || e.LockWallet? || e.UnlockWallet?
    ensures LockKept(s, e, Exec(env, s, e))
  {
  }

  lemma ExecKeepsLock(env: Env, s: System, e: Event, s1: System)
    requires s1 == Exec(env, s, e)
    ensures LockKept(s, e, s1)
  {
    match e
    case ScanNext(_, _) => ScanExecKeepsLock(env, s, e);
    case NotifyBlock(_, _) => ScanExecKeepsLock(env, s, e);
    case Send(_) => SendExecKeepsLock(env, s, e);
    case MarkNext(_) => TaskExecKeepsLock(env, s, e);
    case ChangeNext(_, _) => TaskExecKeepsLock(env, s, e);
    case BalanceNext(_) => TaskExecKeepsLock(env, s, e);
    case Restart(_, _, _, _) => RestartExecKeepsLock(env, s, e);
    case _ => PlainExecKeepsLock(env, s, e);
  }

  lemma LockEffect(env: Env, s: System)
    requires !s.panicked
    ensures Exec(env, s, LockWallet) == s.(w := s.w.(locked := true))
    ensures Exec(env, s, UnlockWallet) == s.(w := s.w.(locked := false))
  {
  }

  lemma UnlockingKeepsGuard(env: Env, argon2: Passphrase.KeyDerivation, t: Timed, e: TimedEvent, t1: Timed)
    requires Guarded(t) && e.WalletPassphrase? && t1 == Advance(env, argon2, t, e)
    ensures Guarded(t1)
  {
    if !t.s.panicked { LockEffect(env, t.s); }
  }

  lemma LockingKeepsGuard(env: Env, argon2: Passphrase.KeyDerivation, t: Timed, t1: Timed)
    requires Guarded(t) && t1 == Advance(env, argon2, t, WalletLock)
    ensures Guarded(t1)
  {
    if !t.s.panicked { LockEffect(env, t.s); }
  }

  lemma FiringKeepsGuard(env: Env, argon2: Passphrase.KeyDerivation, t: Timed, deadline: int, t1: Timed)
    requires Guarded(t) && t1 == Advance(env, argon2, t, Fire(deadline))
    ensures Guarded(t1)
  {
    if !t.s.panicked && deadline in t.timers && deadline <= t.now {
      LockEffect(env, t.s);
      assert !t.s.w.locked ==> deadline in Running(t.latest.value);
    }
  }

  lemma TickingKeepsGuard(env: Env, argon2: Passphrase.KeyDerivation, t: Timed, until: int, t1: Timed)
    requires Guarded(t) && t1 == Advance(env, argon2, t, Tick(until))
    ensures Guarded(t1)
  {
  }

  lemma MovedKeepsGuard(t: Timed, e: Event, s1: System, t1: Timed)
    requires Guarded(t) && LockKept(t.s, e, s1) && !e.LockWallet? && !e.UnlockWallet?
    requires t1 == Moved(t, s1, Restarts(t.s, e))
    ensures Guarded(t1)
  {
  }

  lemma OtherKeepsGuard(env: Env, t: Timed, e: Event, s1: System, t1: Timed)
    requires Guarded(t) && s1 == Exec(env, t.s, e)
    requires t1 == if e.LockWallet? || e.UnlockWallet? then t else Moved(t, s1, Restarts(t.s, e))
    ensures Guarded(t1)
  {
    if !e.LockWallet? && !e.UnlockWallet? {
      ExecKeepsLock(env, t.s, e, s1);
      MovedKeepsGuard(t, e, s1, t1);
    }
  }

  lemma AdvanceKeepsGuard(env: Env, argon2: Passphrase.KeyDerivation, t: Timed, e: TimedEvent, t1: Timed)
    requires Guarded(t) && t1 == Advance(env, argon2, t, e)
    ensures Guarded(t1)
  {
    match e
    case Other(o) => OtherKeepsGuard(env, t, o, Exec(env, t.s, o), t1);
    case WalletPassphrase(_, _) => UnlockingKeepsGuard(env, argon2, t, e, t1);
    case WalletLock => LockingKeepsGuard(env, argon2, t, t1);
    case Fire(deadline) => FiringKeepsGuard(env, argon2, t, deadline, t1);
    case Tick(until) => TickingKeepsGuard(env, argon2, t, until, t1);
  }

  lemma ExecKeepsHash(env: Env, s: System, e: Event, s1: System)
    requires s1 == Exec(env, s, e)
    ensures s1.w.store.encodedHash == s.w.store.encodedHash
  {
    ExecKeepsLock(env, s, e, s1);
  }

  /** Only a walletpassphrase call makes a new latest unlock, and nothing writes the hash. */
  lemma AdvanceKeepsLatest(env: Env, argon2: Passphrase.KeyDerivation, t: Timed, e: TimedEvent, t1: Timed)
    requires !e.WalletPassphrase? && t1 == Advance(env, argon2, t, e)
    ensures t1.s.w.store.encodedHash == t.s.w.store.encodedHash
    ensures t1.latest == t.latest || t1.latest == None
  {
    match e
    case Other(o) => ExecKeepsHash(env, t.s, o, Exec(env, t.s, o));
    case WalletLock => ExecKeepsHash(env, t.s, LockWallet, Exec(env, t.s, LockWallet));
    case Fire(_) => ExecKeepsHash(env, t.s, LockWallet, Exec(env, t.s, LockWallet));
    case Tick(_) =>
  }

  lemma UnlockIsAdmitted(env: Env, argon2: Passphrase.KeyDerivation, encodedHash: string, t: Timed, e: TimedEvent,
                         t1: Timed)
    requires Admitted(argon2, encodedHash, t) && e.WalletPassphrase? && t1 == Advance(env, argon2, t, e)
    ensures Admitted(argon2, encodedHash, t1)
  {
    ExecKeepsHash(env, t.s, UnlockWallet, Exec(env, t.s, UnlockWallet));
  }

  lemma StillAdmitted(argon2: Passphrase.KeyDerivation, encodedHash: string, t: Timed, t1: Timed)
    requires Admitted(argon2, encodedHash, t) && t1.s.w.store.encodedHash == t.s.w.store.encodedHash
    requires t1.latest == t.latest || t1.latest == None
    ensures Admitted(argon2, encodedHash, t1)
  {
  }

  lemma AdvanceKeepsAdmitted(env: Env, argon2: Passphrase.KeyDerivation, encodedHash: string, t: Timed,
                             e: TimedEvent, t1: Timed)
    requires Admitted(argon2, encodedHash, t) && t1 == Advance(env, argon2, t, e)
    ensures Admitted(argon2, encodedHash, t1)
  {
    if e.WalletPassphrase? {
      UnlockIsAdmitted(env, argon2, encodedHash, t, e, t1);
    } else {
      AdvanceKeepsLatest(env, argon2, t, e, t1);
      StillAdmitted(argon2, encodedHash, t, t1);
    }
  }

  lemma {:induction false} RunKeepsGuard(env: Env, argon2: Passphrase.KeyDerivation, encodedHash: string, t: Timed,
                                         events: seq<TimedEvent>)
    requires Guarded(t) && Admitted(argon2, encodedHash, t)
    ensures var r := AdvanceAll(env, argon2, t, events); Guarded(r) && Admitted(argon2, encodedHash, r)
    decreases |events|
  {
    if events != [] {
      var t1 := Advance(env, argon2, t, events[0]);
      AdvanceKeepsGuard(env, argon2, t, events[0], t1);
      AdvanceKeepsAdmitted(env, argon2, encodedHash, t, events[0], t1);
      RunKeepsGuard(env, argon2, encodedHash, t1, events[1..]);
    }
  }

  lemma OnlyRestartRecovers(env: Env, s: System, e: Event)
    requires s.panicked && !Restarts(s, e)
    ensures Exec(env, s, e).panicked
  {
  }

  lemma AdvanceKeepsPunctual(env: Env, argon2: Passphrase.KeyDerivation, t: Timed, e: TimedEvent)
    requires Punctual(t) && TickOnTime(t, e)
    ensures Punctual(Advance(env, argon2, t, e))
  {
    if e.Other? && t.s.panicked && !Restarts(t.s, e.e) { OnlyRestartRecovers(env, t.s, e.e); }
    if !t.s.panicked { LockEffect(env, t.s); }
  }

  lemma {:induction false} RunKeepsPunctual(env: Env, argon2: Passphrase.KeyDerivation, t: Timed,
                                            events: seq<TimedEvent>)
    requires Punctual(t) && OnTime(env, argon2, t, events)
    ensures Punctual(AdvanceAll(env, argon2, t, events))
    decreases |events|
  {
    if events != [] {
      AdvanceKeepsPunctual(env, argon2, t, events[0]);
      RunKeepsPunctual(env, argon2, Advance(env, argon2, t, events[0]), events[1..]);
    }
  }

  /// Main results

  /** The wallet after any events, from its first start on. */
  ghost function TimedRun(env: Env, argon2: Passphrase.KeyDerivation, w: Wallet, now: int, events: seq<TimedEvent>)
    : Timed
  {
    AdvanceAll(env, argon2, Booted(w, now), events)
  }

  lemma GuardShowsTimers(t: Timed)
    requires Guarded(t) && !t.s.w.locked
    ensures t.latest.Some? && !t.shut
    ensures var u := t.latest.value;
      t.timers == u.pending + multiset{if u.duration > 0 then u.at + u.duration else u.at}
  {
  }

  lemma AdmittedShows(argon2: Passphrase.KeyDerivation, encodedHash: string, t: Timed)
    requires Admitted(argon2, encodedHash, t) && t.latest.Some?
    ensures Passphrase.VerifyPassphrase(encodedHash, t.latest.value.passphrase, argon2)
  {
  }

  lemma GuardShowsLock(t: Timed)
    requires Guarded(t) && forall d :: d in t.timers ==> t.now < d
    ensures !t.s.w.locked
       <==> !t.shut && t.latest.Some?
            && t.now < t.latest.value.at + t.latest.value.duration
            && forall d :: d in t.latest.value.pending ==> t.now < d
  {
    if t.latest.Some? {
      var u := t.latest.value;
      assert forall d :: d in Running(u) <==> d in u.pending || d == Deadline(u);
      assert Deadline(u) in Running(u);
    }
  }

  lemma GuardShowsWindow(t: Timed)
    requires Guarded(t) && Punctual(t) && !t.s.w.locked && !t.s.panicked
    ensures t.latest.Some?
    ensures var u := t.latest.value;
      u.at <= t.now && if u.duration > 0 then t.now <= u.at + u.duration else t.now == u.at
  {
    assert Deadline(t.latest.value) in t.timers;
  }

  /** However late timers are: while the wallet is unlocked, the latest unlock was made with a passphrase
      that derives the stored key, its timer is running, due `duration` after the call, and so is every
      timer that was running then. */
  lemma UnlockedHasATimerRunning(env: Env, argon2: Passphrase.KeyDerivation, encodedHash: string, height: int,
                                 saved: bool, now: int, events: seq<TimedEvent>)
    ensures var t := TimedRun(env, argon2, NewWallet(encodedHash, height, saved), now, events);
      !t.s.w.locked ==>
        && t.latest.Some? && !t.shut
        && var u := t.latest.value;
        && t.timers == u.pending + multiset{if u.duration > 0 then u.at + u.duration else u.at}
        && Passphrase.VerifyPassphrase(encodedHash, u.passphrase, argon2)
  {
    var t := TimedRun(env, argon2, NewWallet(encodedHash, height, saved), now, events);
    RunKeepsGuard(env, argon2, encodedHash, Booted(NewWallet(encodedHash, height, saved), now), events);
    if !t.s.w.locked {
      GuardShowsTimers(t);
      AdmittedShows(argon2, encodedHash, t);
    }
  }

  /** With timers on time, an unlocked wallet was unlocked at most `duration` ago: past that, without a
      further unlock, it is locked. A duration that is not positive opens it for no time at all. */
  lemma UnlockedOnlyUntilTheDeadline(env: Env, argon2: Passphrase.KeyDerivation, encodedHash: string, height: int,
                                     saved: bool, now: int, events: seq<TimedEvent>)
    requires OnTime(env, argon2, Booted(NewWallet(encodedHash, height, saved), now), events)
    ensures var t := TimedRun(env, argon2, NewWallet(encodedHash, height, saved), now, events);
      !t.s.w.locked && !t.s.panicked ==>
        && t.latest.Some?
        && var u := t.latest.value;
        && u.at <= t.now
        && (if u.duration > 0 then t.now <= u.at + u.duration else t.now == u.at)
  {
    var start := Booted(NewWallet(encodedHash, height, saved), now);
    RunKeepsGuard(env, argon2, encodedHash, start, events);
    RunKeepsPunctual(env, argon2, start, events);
    var t := AdvanceAll(env, argon2, start, events);
    if !t.s.w.locked && !t.s.panicked { GuardShowsWindow(t); }
  }

  /** Exactly how long an unlock lasts: at a moment when no timer is due, the wallet is unlocked if and
      only if no walletlock has come since the latest unlock, its duration is not over, and every timer
      running when it was made is still to fire. An earlier unlock still pending cuts a later one short. */
  lemma UnlockLastsToTheFirstDeadline(env: Env, argon2: Passphrase.KeyDerivation, encodedHash: string, height: int,
                                      saved: bool, now: int, events: seq<TimedEvent>)
    ensures var t := TimedRun(env, argon2, NewWallet(encodedHash, height, saved), now, events);
      (forall d :: d in t.timers ==> t.now < d) ==>
        (!t.s.w.locked
         <==> !t.shut && t.latest.Some?
              && t.now < t.latest.value.at + t.latest.value.duration
              && forall d :: d in t.latest.value.pending ==> t.now < d)
  {
    var start := Booted(NewWallet(encodedHash, height, saved), now);
    RunKeepsGuard(env, argon2, encodedHash, start, events);
    var t := AdvanceAll(env, argon2, start, events);
    if forall d :: d in t.timers ==> t.now < d { GuardShowsLock(t); }
  }

  lemma LockedSendDoesNothing(env: Env, argon2: Passphrase.KeyDerivation, t: Timed, call: SendCall)
    requires t.s.w.locked || t.s.panicked
    ensures Advance(env, argon2, t, Other(Send(call))) == t
  {
  }

  lemma SendOnlyWhenUnlocked(env: Env, argon2: Passphrase.KeyDerivation, encodedHash: string, height: int, saved: bool,
                             now: int, events: seq<TimedEvent>, call: SendCall)
    requires OnTime(env, argon2, Booted(NewWallet(encodedHash, height, saved), now), events)
    ensures var t := TimedRun(env, argon2, NewWallet(encodedHash, height, saved), now, events);
      Advance(env, argon2, t, Other(Send(call))) != t ==>
        && t.latest.Some?
        && var u := t.latest.value;
        && u.at <= t.now
        && (if u.duration > 0 then t.now <= u.at + u.duration else t.now == u.at)
        && Passphrase.VerifyPassphrase(encodedHash, u.passphrase, argon2)
  {
    var t := TimedRun(env, argon2, NewWallet(encodedHash, height, saved), now, events);
    if t.s.w.locked || t.s.panicked {
      LockedSendDoesNothing(env, argon2, t, call);
    } else {
      UnlockedHasATimerRunning(env, argon2, encodedHash, height, saved, now, events);
      UnlockedOnlyUntilTheDeadline(env, argon2, encodedHash, height, saved, now, events);
    }
  }

  /** A send that does anything was made at most the duration asked for after an unlock whose passphrase
      derives the key of the passphrase the wallet was created with. */
  lemma SendOnlyInsideAWindow(env: Env, argon2: Passphrase.KeyDerivation, own: bytes, salt: bytes, encodedHash: string,
                              height: int, saved: bool, now: int, events: seq<TimedEvent>, call: SendCall)
    requires |argon2(own, salt, 3, 65536, 2, 32)| == 32
    requires encodedHash == Passphrase.HashPassphrase(own, salt, argon2)
    requires OnTime(env, argon2, Booted(NewWallet(encodedHash, height, saved), now), events)
    ensures var t := TimedRun(env, argon2, NewWallet(encodedHash, height, saved), now, events);
      Advance(env, argon2, t, Other(Send(call))) != t ==>
        && t.latest.Some?
        && var u := t.latest.value;
        && u.at <= t.now
        && (if u.duration > 0 then t.now <= u.at + u.duration else t.now == u.at)
        && argon2(u.passphrase, salt, 3, 65536, 2, 32) == argon2(own, salt, 3, 65536, 2, 32)
  {
    var t := TimedRun(env, argon2, NewWallet(encodedHash, height, saved), now, events);
    SendOnlyWhenUnlocked(env, argon2, encodedHash, height, saved, now, events, call);
    if t.latest.Some? {
      Passphrase.VerifyHashed(own, t.latest.value.passphrase, salt, argon2);
    }
  }

  /// Earlier unlocks

  /** From here on no unlock succeeds at or after a moment, and the process is not restarted. */
  ghost predicate NoUnlockFrom(env: Env, argon2: Passphrase.KeyDerivation, t: Timed, events: seq<TimedEvent>,
                               moment: int)
    decreases |events|
  {
    events == []
    || (&& (events[0].WalletPassphrase? ==> t.now < moment)
        && (events[0].Other? ==> !Restarts(t.s, events[0].e))
        && NoUnlockFrom(env, argon2, Advance(env, argon2, t, events[0]), events[1..], moment))
  }

  /** The timer is still to fire, or has fired with no unlock since. */
  ghost predicate Pending(t: Timed, deadline: int) {
    deadline in t.timers || (t.s.w.locked && deadline <= t.now)
  }

  lemma OtherKeepsPending(env: Env, t: Timed, e: Event, s1: System, t1: Timed, deadline: int)
    requires Pending(t, deadline) && s1 == Exec(env, t.s, e) && !Restarts(t.s, e)
    requires t1 == if e.LockWallet? || e.UnlockWallet? then t else Moved(t, s1, false)
    ensures Pending(t1, deadline)
  {
    if !e.LockWallet? && !e.UnlockWallet? { ExecKeepsLock(env, t.s, e, s1); }
  }

  lemma AdvanceKeepsPending(env: Env, argon2: Passphrase.KeyDerivation, t: Timed, e: TimedEvent, t1: Timed,
                            deadline: int)
    requires Pending(t, deadline) && t1 == Advance(env, argon2, t, e)
    requires e.WalletPassphrase? ==> t.now < deadline
    requires e.Other? ==> !Restarts(t.s, e.e)
    ensures Pending(t1, deadline)
  {
    if e.Other? {
      OtherKeepsPending(env, t, e.e, Exec(env, t.s, e.e), t1, deadline);
    } else if !t.s.panicked {
      LockEffect(env, t.s);
    }
  }

  lemma {:induction false} RunKeepsPending(env: Env, argon2: Passphrase.KeyDerivation, t: Timed,
                                           events: seq<TimedEvent>, deadline: int)
    requires Pending(t, deadline) && NoUnlockFrom(env, argon2, t, events, deadline)
    ensures Pending(AdvanceAll(env, argon2, t, events), deadline)
    decreases |events|
  {
    if events != [] {
      var t1 := Advance(env, argon2, t, events[0]);
      AdvanceKeepsPending(env, argon2, t, events[0], t1, deadline);
      RunKeepsPending(env, argon2, t1, events[1..], deadline);
    }
  }

  /** What a walletlock call and a timer that is due do: lock, the call leaving the timers running. */
  lemma LockingLocks(env: Env, argon2: Passphrase.KeyDerivation, t: Timed, deadline: int)
    requires !t.s.panicked
    ensures var t1 := Advance(env, argon2, t, WalletLock);
      t1.s == t.s.(w := t.s.w.(locked := true)) && t1.timers == t.timers && t1.now == t.now
    ensures var t1 := Advance(env, argon2, t, Fire(deadline));
      if deadline in t.timers && deadline <= t.now
      then t1.s == t.s.(w := t.s.w.(locked := true)) && t1.timers == t.timers - multiset{deadline} && t1.now == t.now
      else t1 == t
  {
    LockEffect(env, t.s);
  }

  /** Time only goes on, and only by a tick; timers do not outlive their process. */
  lemma TimeAndProcesses(env: Env, argon2: Passphrase.KeyDerivation, t: Timed, until: int, e: Event, t1: Timed)
    requires t1 == Advance(env, argon2, t, Other(e))
    ensures Advance(env, argon2, t, Tick(until)) == t.(now := if t.now <= until then until else t.now)
    ensures t1.now == t.now
    ensures Restarts(t.s, e) ==> t1.timers == multiset{} && t1.latest == None && t1.s.w.locked
    ensures !Restarts(t.s, e) ==> t1.timers == t.timers && t1.latest == t.latest
    ensures !e.LockWallet? && !e.UnlockWallet? ==> t1.s == Exec(env, t.s, e)
  {
    ExecKeepsLock(env, t.s, e, Exec(env, t.s, e));
  }

  /** A walletpassphrase call does nothing, or unlocks and starts a timer of its own beside those running. */
  lemma UnlockStartsTimer(env: Env, argon2: Passphrase.KeyDerivation, t: Timed, passphrase: bytes, duration: int,
                          t1: Timed)
    requires t1 == Advance(env, argon2, t, WalletPassphrase(passphrase, duration))
    ensures t1 == t || (!t1.s.w.locked && t1.timers == t.timers + multiset{WakeTime(t.now, duration)})
    ensures WakeTime(t.now, duration) == if duration > 0 then t.now + duration else t.now
  {
    if !t.s.panicked { LockEffect(env, t.s); }
  }

  lemma PendingShows(t: Timed, deadline: int)
    requires Pending(t, deadline) && Punctual(t) && !t.s.panicked && t.now > deadline
    ensures t.s.w.locked
  {
  }

  /** No unlock is extended: once the deadline of a timer running has passed, the wallet is locked, however
      many unlocks came before that moment and however long they asked for. */
  lemma AnUnlockIsNotExtended(env: Env, argon2: Passphrase.KeyDerivation, t: Timed, deadline: int,
                              events: seq<TimedEvent>, r: Timed)
    requires Punctual(t) && deadline in t.timers
    requires OnTime(env, argon2, t, events) && NoUnlockFrom(env, argon2, t, events, deadline)
    requires r == AdvanceAll(env, argon2, t, events)
    ensures !r.s.panicked && r.now > deadline ==> r.s.w.locked
  {
    RunKeepsPunctual(env, argon2, t, events);
    RunKeepsPending(env, argon2, t, events, deadline);
    if !r.s.panicked && r.now > deadline { PendingShows(r, deadline); }
  }
}
