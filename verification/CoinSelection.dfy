/** Random coin selection over a private copy of the wallet's list (tx/utxo.go). */
module CoinSelection {
  import opened Text
  import opened Coins

  datatype SelectError = ErrNoUTXOs | ErrInsufficientAmount

  /** Exactly when selection succeeds. A single entry is taken without looking at its Spent flag. */
  predicate CanSelect(amount: int, us: seq<UTXO>) {
    if |us| == 0 then false
    else if |us| == 1 then us[0].value > amount
    else SumUnspent(us) > amount
  }

  /** What a successful selection returns, whichever entries the random choices hit. */
  ghost predicate Selects(amount: int, us: seq<UTXO>, selected: seq<UTXO>) {
    && Sum(selected) > amount
    && multiset(selected) <= multiset(us)
    && (|us| == 1 ==> selected == us)
    && (|us| != 1 ==> forall i :: 0 <= i < |selected| ==> !selected[i].spent)
    && (amount >= 0 ==> StopsEarly(amount, selected))
  }

  /** No proper prefix would have been enough. */
  ghost predicate StopsEarly(amount: int, selected: seq<UTXO>) {
    forall k :: 0 <= k < |selected| ==> Sum(selected[..k]) <= amount
  }

  function Without(s: seq<UTXO>, i: nat): (r: seq<UTXO>)
    requires i < |s|
    ensures |r| == |s| - 1
  {
    s[..i] + s[i + 1..]
  }

  lemma WithoutAt(s: seq<UTXO>, i: nat, k: nat)
    requires i < |s| && k < |s| - 1
    ensures Without(s, i)[k] == if k < i then s[k] else s[k + 1]
  {
  }

  lemma WithoutKeepsTheRest(s: seq<UTXO>, i: nat)
    requires i < |s|
    ensures multiset(s) == multiset(Without(s, i)) + multiset{s[i]}
    ensures NonNegative(s) ==> NonNegative(Without(s, i))
  {
    assert s == s[..i] + ([s[i]] + s[i + 1..]);
  }

  lemma {:induction false} WithoutKeepsTheSum(s: seq<UTXO>, i: nat)
    requires i < |s|
    ensures SumUnspent(s) == SumUnspent(Without(s, i)) + if s[i].spent then 0 else s[i].value
  {
    var n := |s| - 1;
    if i == n {
      assert Without(s, i) == s[..n];
    } else {
      assert Without(s, i)[..n - 1] == Without(s[..n], i);
      WithoutKeepsTheSum(s[..n], i);
    }
  }

  lemma StopsEarlyPush(amount: int, s: seq<UTXO>, u: UTXO)
    requires StopsEarly(amount, s) && Sum(s) <= amount
    ensures StopsEarly(amount, s + [u])
  {
    forall k | 0 <= k < |s + [u]| ensures Sum((s + [u])[..k]) <= amount {
      assert (s + [u])[..k] == s[..k];
      assert s[..|s|] == s;
    }
  }

  /** `selected` and `dropped` were taken out of `us`, `rest` is left; what was dropped was spent. */
  ghost predicate Parted(us: seq<UTXO>, selected: seq<UTXO>, dropped: seq<UTXO>, rest: seq<UTXO>) {
    && multiset(us) == multiset(selected) + multiset(dropped) + multiset(rest)
    && (forall u :: u in dropped ==> u.spent)
    && (NonNegative(us) ==> NonNegative(rest))
  }

  ghost predicate Accounted(amount: int, us: seq<UTXO>, selected: seq<UTXO>, rest: seq<UTXO>) {
    && SumUnspent(us) == Sum(selected) + SumUnspent(rest)
    && (forall i :: 0 <= i < |selected| ==> !selected[i].spent)
    && (amount >= 0 ==> StopsEarly(amount, selected))
  }

  function Take(selected: seq<UTXO>, u: UTXO): seq<UTXO> {
    if u.spent then selected else selected + [u]
  }

  function Drop(dropped: seq<UTXO>, u: UTXO): seq<UTXO> {
    if u.spent then dropped + [u] else dropped
  }

  lemma RoundParts(us: seq<UTXO>, selected: seq<UTXO>, dropped: seq<UTXO>, rest: seq<UTXO>, i: nat)
    requires Parted(us, selected, dropped, rest) && i < |rest|
    ensures Parted(us, Take(selected, rest[i]), Drop(dropped, rest[i]), Without(rest, i))
  {
    WithoutKeepsTheRest(rest, i);
  }

  lemma RoundAccounts(amount: int, us: seq<UTXO>, selected: seq<UTXO>, rest: seq<UTXO>, i: nat)
    requires Accounted(amount, us, selected, rest) && i < |rest|
    requires Sum(selected) <= amount || selected == []
    ensures Accounted(amount, us, Take(selected, rest[i]), Without(rest, i))
  {
    WithoutKeepsTheSum(rest, i);
    SumPush(selected, rest[i]);
    if amount >= 0 && !rest[i].spent { StopsEarlyPush(amount, selected, rest[i]); }
  }

  /// What a sequence of random choices leads to

  /** The numbers the random source gives, round by round. */
  type Random = nat -> nat

  /** rand.Intn: the remainder of the number. */
  function Intn(number: nat, max: nat): (idx: nat)
    requires max > 0
    ensures idx < max
  {
    if number < max then number else Intn(number - max, max)
  }

  /** The random indices drawn so far, the latest on the outside. */
  datatype Choices = Start | Then(before: Choices, idx: nat)

  datatype Picks = Picks(selected: seq<UTXO>, dropped: seq<UTXO>, rest: seq<UTXO>)

  function Rounds(choices: Choices): nat {
    if choices.Start? then 0 else 1 + Rounds(choices.before)
  }

  /** Every index is below what was left of `n` entries, less one: the last entry is never drawn. */
  predicate Playable(n: nat, choices: Choices) {
    choices.Start? || (Playable(n, choices.before) && choices.idx + 1 < n - Rounds(choices.before))
  }

  function Play(us: seq<UTXO>, choices: Choices): (p: Picks)
    requires Playable(|us|, choices)
    ensures |p.rest| == |us| - Rounds(choices)
    ensures us != [] ==> p.rest != [] && p.rest[|p.rest| - 1] == us[|us| - 1]
  {
    if choices.Start? then Picks([], [], us)
    else
      var p := Play(us, choices.before);
      var u := p.rest[choices.idx];
      Picks(Take(p.selected, u), Drop(p.dropped, u), Without(p.rest, choices.idx))
  }

  /** The indices of the first rounds over `n` entries. */
  function Drawn(draws: Random, n: nat, rounds: nat): (choices: Choices)
    requires rounds < n
    ensures Rounds(choices) == rounds && Playable(n, choices)
  {
    if rounds == 0 then Start else Then(Drawn(draws, n, rounds - 1), Intn(draws(rounds - 1), n - rounds))
  }

  /** No round so far has passed the amount. */
  predicate Running(amount: int, us: seq<UTXO>, choices: Choices)
    requires Playable(|us|, choices)
  {
    choices.Start? || (Running(amount, us, choices.before) && Sum(Play(us, choices).selected) <= amount)
  }

  lemma {:induction false} Played(amount: int, us: seq<UTXO>, choices: Choices)
    requires Playable(|us|, choices)
    requires choices.Start? || Running(amount, us, choices.before)
    ensures var p := Play(us, choices);
      Parted(us, p.selected, p.dropped, p.rest) && Accounted(amount, us, p.selected, p.rest)
  {
    if choices.Then? {
      Played(amount, us, choices.before);
      var p := Play(us, choices.before);
      RoundParts(us, p.selected, p.dropped, p.rest, choices.idx);
      RoundAccounts(amount, us, p.selected, p.rest, choices.idx);
    }
  }

  /** The last round passed the amount. */
  predicate Wins(amount: int, us: seq<UTXO>, choices: Choices)
    requires Playable(|us|, choices)
  {
    choices.Then? && Running(amount, us, choices.before) && Sum(Play(us, choices).selected) > amount
  }

  /** One entry is left, the last of the list, and no round has passed the amount. */
  predicate LastIsLeft(amount: int, us: seq<UTXO>, choices: Choices)
    requires Playable(|us|, choices)
  {
    Rounds(choices) == |us| - 1 && Running(amount, us, choices)
  }

  predicate LastHelps(amount: int, last: UTXO, selected: seq<UTXO>) {
    !last.spent && Sum(selected) + last.value > amount
  }

  /** What the play ends with, if it ends here: the entries drawn, with the one left over if only that
      passes the amount. */
  ghost predicate Yields(amount: int, us: seq<UTXO>, choices: Choices, selected: seq<UTXO>)
    requires |us| >= 2 && Playable(|us|, choices)
  {
    var p, last := Play(us, choices).selected, us[|us| - 1];
    || (Wins(amount, us, choices) && selected == p)
    || (LastIsLeft(amount, us, choices) && LastHelps(amount, last, p) && selected == p + [last])
  }

  /** The entry left over does not help. */
  predicate Loses(amount: int, us: seq<UTXO>, choices: Choices)
    requires |us| >= 2 && Playable(|us|, choices)
  {
    LastIsLeft(amount, us, choices) && !LastHelps(amount, us[|us| - 1], Play(us, choices).selected)
  }

  /** The play over these draws ends, with this selection or with none. */
  ghost predicate Decides(amount: int, us: seq<UTXO>, draws: Random, r: Option<seq<UTXO>>)
    requires |us| >= 2
  {
    exists rounds: nat :: rounds < |us| && EndsAfter(amount, us, draws, rounds, r)
  }

  ghost predicate EndsAfter(amount: int, us: seq<UTXO>, draws: Random, rounds: nat, r: Option<seq<UTXO>>)
    requires rounds < |us| && |us| >= 2
  {
    match r
    case Some(selected) => Yields(amount, us, Drawn(draws, |us|, rounds), selected)
    case None => Loses(amount, us, Drawn(draws, |us|, rounds))
  }

  lemma PartedSelects(amount: int, us: seq<UTXO>, p: Picks)
    requires |us| >= 2 && Sum(p.selected) > amount
    requires Parted(us, p.selected, p.dropped, p.rest) && Accounted(amount, us, p.selected, p.rest)
    ensures Selects(amount, us, p.selected)
    ensures NonNegative(us) ==> CanSelect(amount, us)
  {
    if NonNegative(us) { SumsAreNonNegative(p.rest, {}); }
  }

  /** The entry left over, taken. */
  lemma LastParts(amount: int, us: seq<UTXO>, p: Picks)
    requires Parted(us, p.selected, p.dropped, p.rest) && Accounted(amount, us, p.selected, p.rest)
    requires |p.rest| == 1 && !p.rest[0].spent && (Sum(p.selected) <= amount || p.selected == [])
    ensures Parted(us, p.selected + [p.rest[0]], p.dropped, [])
    ensures Accounted(amount, us, p.selected + [p.rest[0]], [])
  {
    RoundParts(us, p.selected, p.dropped, p.rest, 0);
    RoundAccounts(amount, us, p.selected, p.rest, 0);
    assert Without(p.rest, 0) == [];
  }

  lemma RunningSum(amount: int, us: seq<UTXO>, choices: Choices)
    requires Playable(|us|, choices) && Running(amount, us, choices)
    ensures Sum(Play(us, choices).selected) <= amount || Play(us, choices).selected == []
  {
  }

  lemma WinningSelects(amount: int, us: seq<UTXO>, choices: Choices, selected: seq<UTXO>)
    requires |us| >= 2 && Playable(|us|, choices) && Yields(amount, us, choices, selected)
    ensures Selects(amount, us, selected)
    ensures NonNegative(us) ==> CanSelect(amount, us)
  {
    var p := Play(us, choices);
    Played(amount, us, choices);
    if Wins(amount, us, choices) && selected == p.selected {
      PartedSelects(amount, us, p);
    } else {
      RunningSum(amount, us, choices);
      LastParts(amount, us, p);
      SumPush(p.selected, p.rest[0]);
      PartedSelects(amount, us, Picks(selected, p.dropped, []));
    }
  }

  lemma LastDoesNotHelp(amount: int, us: seq<UTXO>, p: Picks)
    requires |us| >= 2 && Accounted(amount, us, p.selected, p.rest) && |p.rest| == 1
    requires !LastHelps(amount, p.rest[0], p.selected) && (Sum(p.selected) <= amount || p.selected == [])
    requires p.rest[0].spent ==> Sum(p.selected) <= amount
    ensures !CanSelect(amount, us)
  {
    assert p.rest == [p.rest[0]];
    SumUnspentOne(p.rest[0]);
  }

  lemma LosingCannotSelect(amount: int, us: seq<UTXO>, choices: Choices)
    requires |us| >= 2 && Playable(|us|, choices) && Loses(amount, us, choices)
    ensures !CanSelect(amount, us)
  {
    Played(amount, us, choices);
    RunningSum(amount, us, choices);
    LastDoesNotHelp(amount, us, Play(us, choices));
  }

  lemma PlayThen(us: seq<UTXO>, choices: Choices, idx: nat)
    requires Playable(|us|, choices) && idx + 1 < |us| - Rounds(choices)
    ensures Playable(|us|, Then(choices, idx))
    ensures var p := Play(us, choices);
      var u := p.rest[idx];
      && Play(us, Then(choices, idx)).selected == (if u.spent then p.selected else p.selected + [u])
      && Sum(p.selected + [u]) == Sum(p.selected) + u.value
      && Play(us, Then(choices, idx)).rest == Without(p.rest, idx)
  {
    SumPush(Play(us, choices).selected, Play(us, choices).rest[idx]);
  }

  /** The list's last entry is only ever selected after every other unspent entry. */
  ghost predicate LastComesLast(us: seq<UTXO>, selected: seq<UTXO>)
    requires us != []
  {
    var last := us[|us| - 1];
    last in selected ==>
      && selected[|selected| - 1] == last
      && forall u :: u in us && !u.spent ==> u in selected
  }

  /** What was drawn before the last entry does not hold it; once it is the only one left, every other
      unspent entry has been drawn. */
  lemma LastIsNotDrawn(us: seq<UTXO>, p: Picks)
    requires us != [] && DistinctOutpoints(us) && Parted(us, p.selected, p.dropped, p.rest)
    requires p.rest != [] && p.rest[|p.rest| - 1] == us[|us| - 1]
    ensures us[|us| - 1] !in p.selected
    ensures |p.rest| == 1 ==> forall u :: u in us && !u.spent ==> u in p.selected + p.rest
  {
    var last := us[|us| - 1];
    OnceIn(us, last);
    assert last in multiset(p.rest);
    assert multiset(us)[last] == multiset(p.selected)[last] + multiset(p.dropped)[last] + multiset(p.rest)[last];
    if |p.rest| == 1 {
      forall u | u in us && !u.spent ensures u in p.selected + p.rest {
        assert u in multiset(us) && u !in p.dropped;
      }
    }
  }

  lemma LeftOverLast(us: seq<UTXO>, p: Picks)
    requires us != [] && p.rest == [us[|us| - 1]]
    requires forall u :: u in us && !u.spent ==> u in p.selected + p.rest
    ensures LastComesLast(us, p.selected + [us[|us| - 1]])
  {
  }

  lemma LastDrawnOrLeft(amount: int, us: seq<UTXO>, choices: Choices, p: Picks, selected: seq<UTXO>)
    requires |us| >= 2 && Playable(|us|, choices) && p == Play(us, choices) && Yields(amount, us, choices, selected)
    ensures selected == p.selected || (p.rest == [us[|us| - 1]] && selected == p.selected + [us[|us| - 1]])
    ensures p.rest != [] && p.rest[|p.rest| - 1] == us[|us| - 1]
    ensures Parted(us, p.selected, p.dropped, p.rest)
  {
    Played(amount, us, choices);
  }

  lemma YieldsLastLast(amount: int, us: seq<UTXO>, choices: Choices, selected: seq<UTXO>)
    requires |us| >= 2 && Playable(|us|, choices) && Yields(amount, us, choices, selected) && DistinctOutpoints(us)
    ensures LastComesLast(us, selected)
  {
    var p := Play(us, choices);
    LastDrawnOrLeft(amount, us, choices, p, selected);
    LastIsNotDrawn(us, p);
    if selected != p.selected { LeftOverLast(us, p); }
  }

  lemma SumUnspentOne(u: UTXO)
    ensures SumUnspent([u]) == if u.spent then 0 else u.value
    ensures Sum([u]) == u.value
  {
    SumPush([], u);
    assert [] + [u] == [u];
  }

  /** How far a play has got. */
  datatype Progress = Progress(rounds: nat, choices: Choices, picks: Picks)

  ghost predicate InPlay(us: seq<UTXO>, draws: Random, g: Progress) {
    g.rounds < |us| && g.choices == Drawn(draws, |us|, g.rounds) && g.picks == Play(us, g.choices)
  }

  /** What one more round makes of the play: it is won, or goes on. */
  lemma NextRound(amount: int, us: seq<UTXO>, draws: Random, g: Progress, idx: nat) returns (g': Progress)
    requires InPlay(us, draws, g) && Running(amount, us, g.choices)
    requires g.rounds + 1 < |us| && idx == Intn(draws(g.rounds), |us| - 1 - g.rounds)
    ensures InPlay(us, draws, g') && g'.rounds == g.rounds + 1
    ensures idx + 1 < |g.picks.rest| == |us| - g.rounds
    ensures g'.picks.selected == Take(g.picks.selected, g.picks.rest[idx])
    ensures g'.picks.rest == Without(g.picks.rest, idx)
    ensures if Sum(g'.picks.selected) > amount then Yields(amount, us, g'.choices, g'.picks.selected)
            else Running(amount, us, g'.choices)
  {
    var choices := Drawn(draws, |us|, g.rounds + 1);
    g' := Progress(g.rounds + 1, choices, Play(us, choices));
  }

  lemma LastDecides(amount: int, us: seq<UTXO>, choices: Choices, p: Picks)
    requires |us| >= 2 && Playable(|us|, choices) && p == Play(us, choices)
    requires |p.rest| == 1 && Running(amount, us, choices)
    ensures p.rest[0] == us[|us| - 1]
    ensures if LastHelps(amount, p.rest[0], p.selected) then Yields(amount, us, choices, p.selected + [p.rest[0]])
            else Loses(amount, us, choices)
  {
  }

  /** slices.Delete of one element: the tail moves one place down. */
  method DeleteAt(a: array<UTXO>, n: nat, idx: nat)
    requires idx < n <= a.Length
    modifies a
    ensures a[..n - 1] == Without(old(a[..n]), idx)
  {
    var i := idx;
    while i < n - 1
      invariant idx <= i <= n - 1
      invariant forall k :: 0 <= k < idx ==> a[k] == old(a[k])
      invariant forall k :: idx <= k < i ==> a[k] == old(a[k + 1])
      invariant forall k :: i < k < n ==> a[k] == old(a[k])
    {
      a[i] := a[i + 1];
      i := i + 1;
    }
    ghost var was := old(a[..n]);
    forall k | 0 <= k < n - 1 ensures a[..n - 1][k] == Without(was, idx)[k] {
      WithoutAt(was, idx, k);
    }
  }

  /** One round: entry `idx` leaves the copy, and is selected if it is unspent. */
  method DrawOne(utxosCopy: array<UTXO>, n: nat, idx: nat, selected: seq<UTXO>, selectedAmount: int)
    returns (selected': seq<UTXO>, selectedAmount': int)
    requires idx < n <= utxosCopy.Length && selectedAmount == Sum(selected)
    modifies utxosCopy
    ensures utxosCopy[..n - 1] == Without(old(utxosCopy[..n]), idx)
    ensures selected' == (if old(utxosCopy[idx]).spent then selected else selected + [old(utxosCopy[idx])])
    ensures selectedAmount' == Sum(selected')
  {
    selected', selectedAmount' := selected, selectedAmount;
    var utxo := utxosCopy[idx];
    if !utxo.spent {
      SumPush(selected, utxo);
      selected' := selected' + [utxo];
      selectedAmount' := selectedAmount' + utxo.value;
    }
    DeleteAt(utxosCopy, n, idx);
  }

  /** The round as one of a play. */
  method DrawRound(ghost amount: int, utxosCopy: array<UTXO>, n: nat, idx: nat, selected: seq<UTXO>,
                   selectedAmount: int, ghost draws: Random, ghost us: seq<UTXO>, ghost g: Progress)
    returns (selected': seq<UTXO>, selectedAmount': int, ghost g': Progress)
    requires InPlay(us, draws, g) && Running(amount, us, g.choices)
    requires 2 <= n <= utxosCopy.Length && g.rounds == |us| - n && idx == Intn(draws(g.rounds), n - 1)
    requires selected == g.picks.selected && utxosCopy[..n] == g.picks.rest && selectedAmount == Sum(selected)
    modifies utxosCopy
    ensures InPlay(us, draws, g') && g'.rounds == g.rounds + 1
    ensures selected' == g'.picks.selected && utxosCopy[..n - 1] == g'.picks.rest && selectedAmount' == Sum(selected')
    ensures if selectedAmount' > amount then Yields(amount, us, g'.choices, selected')
            else Running(amount, us, g'.choices)
  {
    g' := NextRound(amount, us, draws, g, idx);
    selected', selectedAmount' := DrawOne(utxosCopy, n, idx, selected, selectedAmount);
  }

  /** The entry left over is taken only if it is unspent and enough. */
  method TryLast(amountToSend: int, last: UTXO, selected: seq<UTXO>, selectedAmount: int)
    returns (ok: bool, selected': seq<UTXO>, selectedAmount': int)
    requires selectedAmount == Sum(selected)
    ensures ok <==> !last.spent && Sum(selected) + last.value > amountToSend
    ensures selected' == if ok then selected + [last] else selected
    ensures selectedAmount' == Sum(selected')
  {
    selected', selectedAmount' := selected, selectedAmount;
    ok := !last.spent && selectedAmount + last.value > amountToSend;
    if ok {
      SumPush(selected, last);
      selected', selectedAmount' := selected + [last], selectedAmount + last.value;
    }
  }

  /** The loop, over the private copy. The random index is below the length less one. */
  method SelectFromCopy(amountToSend: int, utxosCopy: array<UTXO>, draws: Random, ghost us: seq<UTXO>)
    returns (ok: bool, selected: seq<UTXO>, selectedAmount: int, ghost g: Progress)
    requires utxosCopy.Length >= 2 && utxosCopy[..] == us
    modifies utxosCopy
    ensures InPlay(us, draws, g)
    ensures ok ==> Yields(amountToSend, us, g.choices, selected) && selectedAmount == Sum(selected)
    ensures !ok ==> Loses(amountToSend, us, g.choices)
  {
    selected, selectedAmount := [], 0;
    var n := utxosCopy.Length;
    g := Progress(0, Start, Picks([], [], us));
    while true
      invariant 2 <= n <= utxosCopy.Length && g.rounds == |us| - n
      invariant InPlay(us, draws, g) && Running(amountToSend, us, g.choices)
      invariant selected == g.picks.selected && utxosCopy[..n] == g.picks.rest
      invariant selectedAmount == Sum(selected)
      decreases n
    {
      var idx := Intn(draws(utxosCopy.Length - n), n - 1);
      selected, selectedAmount, g := DrawRound(amountToSend, utxosCopy, n, idx, selected, selectedAmount, draws, us, g);
      n := n - 1;

      if selectedAmount > amountToSend {
        ok := true;
        break;
      } else if n == 1 {
        LastDecides(amountToSend, us, g.choices, g.picks);
        ok, selected, selectedAmount := TryLast(amountToSend, utxosCopy[0], selected, selectedAmount);
        break;
      }
    }
  }

  /** `draws` is what the random source gives in each round. */
  method SelectUTXOs(amountToSend: int, utxos: array<UTXO>, draws: Random)
    returns (err: Option<SelectError>, selected: seq<UTXO>, selectedAmount: int)
    ensures err == Some(ErrNoUTXOs) <==> utxos.Length == 0
    ensures err.Some? ==> selected == [] && selectedAmount == 0
    ensures err.None? ==> Selects(amountToSend, utxos[..], selected) && selectedAmount == Sum(selected)
    ensures utxos.Length == 1 || NonNegative(utxos[..]) ==> (err.None? <==> CanSelect(amountToSend, utxos[..]))
    ensures utxos.Length >= 2 ==>
      Decides(amountToSend, utxos[..], draws, if err.None? then Some(selected) else None)
    ensures err.None? && DistinctOutpoints(utxos[..]) ==> LastComesLast(utxos[..], selected)
  {
    var utxosCopy := new UTXO[utxos.Length](i requires 0 <= i < utxos.Length reads utxos => utxos[i]);
    if utxos.Length == 0 {
      return Some(ErrNoUTXOs), [], 0;
    } else if utxos.Length == 1 {
      SumUnspentOne(utxos[0]);
      assert utxos[..] == [utxos[0]] && [utxos[0]][..0] == [];
      if utxos[0].value > amountToSend {
        return None, utxosCopy[..], utxos[0].value;
      } else {
        return Some(ErrInsufficientAmount), [], 0;
      }
    }
    assert utxosCopy[..] == utxos[..];
    var ok: bool;
    ghost var g;
    ok, selected, selectedAmount, g := SelectFromCopy(amountToSend, utxosCopy, draws, utxos[..]);
    if ok {
      WinningSelects(amountToSend, utxos[..], g.choices, selected);
      if DistinctOutpoints(utxos[..]) { YieldsLastLast(amountToSend, utxos[..], g.choices, selected); }
      assert EndsAfter(amountToSend, utxos[..], draws, g.rounds, Some(selected));
      err := None;
    } else {
      LosingCannotSelect(amountToSend, utxos[..], g.choices);
      assert EndsAfter(amountToSend, utxos[..], draws, g.rounds, None);
      err, selected, selectedAmount := Some(ErrInsufficientAmount), [], 0;
    }
  }

  /** The one-entry shortcut selects a spent entry exactly when that entry is worth more than the amount. */
  lemma ShortcutIgnoresTheFlag(amount: int, u: UTXO)
    requires amount >= 0
    ensures SumUnspent([u]) > amount <==> CanSelect(amount, [u]) && !u.spent
    ensures CanSelect(amount, [u]) && u.spent ==> Selects(amount, [u], [u])
  {
    SumUnspentOne(u);
    assert [u][..0] == [];
  }

  /** Selected entries are entries of the list, each once. */
  lemma SelectedFromList(amount: int, us: seq<UTXO>, selected: seq<UTXO>)
    requires Selects(amount, us, selected) && DistinctOutpoints(us)
    ensures forall i :: 0 <= i < |selected| ==> selected[i] in us
    ensures DistinctOutpoints(selected)
  {
    forall i | 0 <= i < |selected| ensures selected[i] in us {
      assert selected[i] in multiset(selected);
    }
    forall i, j | 0 <= i < j < |selected| ensures Outpoint(selected[i]) != Outpoint(selected[j]) {
      if Outpoint(selected[i]) == Outpoint(selected[j]) {
        SameOutpointSameEntry(us, selected[i], selected[j]);
        TwiceIn(selected, i, j);
        OnceIn(us, selected[i]);
      }
    }
  }

  lemma SameOutpointSameEntry(us: seq<UTXO>, u: UTXO, v: UTXO)
    requires DistinctOutpoints(us) && u in us && v in us && Outpoint(u) == Outpoint(v)
    ensures u == v
  {
    var i :| 0 <= i < |us| && us[i] == u;
    var j :| 0 <= j < |us| && us[j] == v;
    assert i == j;
  }

  lemma {:induction false} OnceIn(us: seq<UTXO>, u: UTXO)
    requires DistinctOutpoints(us)
    ensures multiset(us)[u] <= 1
  {
    if us != [] {
      var n := |us| - 1;
      assert us == us[..n] + [us[n]];
      OnceIn(us[..n], u);
      assert us[n] !in us[..n];
    }
  }

  lemma TwiceIn(s: seq<UTXO>, i: nat, j: nat)
    requires i < j < |s| && s[i] == s[j]
    ensures multiset(s)[s[i]] >= 2
  {
    assert s == s[..j] + s[j..];
    assert s[i] in s[..j] && s[j] in s[j..];
  }
}
