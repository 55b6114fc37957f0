/** Which selections can arise: the random source decides, and never draws the last entry left (tx/utxo.go). */
module ArisingSelections {
  import opened Text
  import opened Coins
  import opened CoinSelection

  /// The random source decides

  lemma RanBefore(amount: int, us: seq<UTXO>, draws: Random, rounds: nat)
    requires 0 < rounds < |us| && Running(amount, us, Drawn(draws, |us|, rounds))
    ensures Running(amount, us, Drawn(draws, |us|, rounds - 1))
  {
  }

  /** Before its last round a play was running all along. */
  lemma {:induction false} EarlierRoundsRan(amount: int, us: seq<UTXO>, draws: Random, early: nat, late: nat)
    requires early <= late < |us| && Running(amount, us, Drawn(draws, |us|, late))
    ensures Running(amount, us, Drawn(draws, |us|, early))
  {
    if early < late {
      RanBefore(amount, us, draws, late);
      EarlierRoundsRan(amount, us, draws, early, late - 1);
    }
  }

  /** However it ends, a play was running the round before. */
  lemma EndsRunning(amount: int, us: seq<UTXO>, draws: Random, rounds: nat, r: Option<seq<UTXO>>)
    requires 0 < rounds < |us| && |us| >= 2 && EndsAfter(amount, us, draws, rounds, r)
    ensures Running(amount, us, Drawn(draws, |us|, rounds - 1))
  {
  }

  /** While rounds are left, a play that is running has not ended. */
  lemma RunningGoesOn(amount: int, us: seq<UTXO>, draws: Random, rounds: nat, r: Option<seq<UTXO>>)
    requires rounds + 1 < |us| && Running(amount, us, Drawn(draws, |us|, rounds))
    ensures !EndsAfter(amount, us, draws, rounds, r)
  {
  }

  lemma EndsOnce(amount: int, us: seq<UTXO>, draws: Random, early: nat, r: Option<seq<UTXO>>, late: nat,
                 r': Option<seq<UTXO>>)
    requires early <= late < |us| && |us| >= 2
    requires EndsAfter(amount, us, draws, early, r) && EndsAfter(amount, us, draws, late, r')
    ensures early == late && r == r'
  {
    if early < late {
      EndsRunning(amount, us, draws, late, r');
      EarlierRoundsRan(amount, us, draws, early, late - 1);
      RunningGoesOn(amount, us, draws, early, r);
    }
  }

  /** The draws alone decide what is selected. */
  lemma DrawsDecide(amount: int, us: seq<UTXO>, draws: Random, r: Option<seq<UTXO>>, r': Option<seq<UTXO>>)
    requires |us| >= 2 && Decides(amount, us, draws, r) && Decides(amount, us, draws, r')
    ensures r == r'
  {
    var i: nat :| i < |us| && EndsAfter(amount, us, draws, i, r);
    var j: nat :| j < |us| && EndsAfter(amount, us, draws, j, r');
    if i <= j {
      EndsOnce(amount, us, draws, i, r, j, r');
    } else {
      EndsOnce(amount, us, draws, j, r', i, r);
    }
  }

  /** Some random numbers lead to this selection. */
  ghost predicate Arises(amount: int, us: seq<UTXO>, selected: seq<UTXO>)
    requires |us| >= 2
  {
    exists draws: Random :: Decides(amount, us, draws, Some(selected))
  }

  function IndexIn(choices: Choices, round: nat): nat {
    if choices.Start? then 0
    else if round == Rounds(choices.before) then choices.idx
    else IndexIn(choices.before, round)
  }

  lemma {:induction false} DrawsFor(n: nat, choices: Choices, draws: Random)
    requires Playable(n, choices) && Rounds(choices) < n
    requires forall k :: 0 <= k < Rounds(choices) ==> draws(k) == IndexIn(choices, k)
    ensures Drawn(draws, n, Rounds(choices)) == choices
  {
    if choices.Then? {
      DrawsFor(n, choices.before, draws);
      IntnKeeps(choices.idx, n - Rounds(choices));
    }
  }

  lemma IntnKeeps(number: nat, max: nat)
    requires number < max
    ensures Intn(number, max) == number
  {
  }

  /** Every play there can be is drawn by some random numbers. */
  lemma PlaysArise(amount: int, us: seq<UTXO>, choices: Choices, selected: seq<UTXO>)
    requires |us| >= 2 && Playable(|us|, choices) && Rounds(choices) < |us| && Yields(amount, us, choices, selected)
    ensures Arises(amount, us, selected)
  {
    var draws: Random := k => IndexIn(choices, k);
    DrawsFor(|us|, choices, draws);
    assert EndsAfter(amount, us, draws, Rounds(choices), Some(selected));
    assert Decides(amount, us, draws, Some(selected));
  }

  /// Drawing a given selection in its order

  /** The next entry wanted is still there, and is not the last one. */
  lemma NextIsLeft(us: seq<UTXO>, s: seq<UTXO>, u: UTXO, rest: seq<UTXO>) returns (i: nat)
    requires us != [] && rest != [] && rest[|rest| - 1] == us[|us| - 1] != u
    requires multiset(us) == multiset(s) + multiset(rest) && multiset(s + [u]) <= multiset(us)
    ensures i + 1 < |rest| && rest[i] == u
  {
    assert multiset(s + [u])[u] == multiset(s)[u] + 1;
    assert u in multiset(rest);
    i :| 0 <= i < |rest| && rest[i] == u;
  }

  lemma StopsEarlyPrefix(amount: int, s: seq<UTXO>, u: UTXO)
    requires StopsEarly(amount, s + [u])
    ensures StopsEarly(amount, s) && Sum(s) <= amount
  {
    assert (s + [u])[..|s|] == s;
    forall k | 0 <= k < |s| ensures Sum(s[..k]) <= amount {
      assert (s + [u])[..k] == s[..k];
    }
  }

  lemma PrefixFits(us: seq<UTXO>, s: seq<UTXO>, u: UTXO)
    requires multiset(s + [u]) <= multiset(us)
    ensures multiset(s) <= multiset(us) && u in us
  {
    assert multiset(s + [u])[u] > 0;
    assert u in multiset(us);
  }

  /** A play drawing just these, and what it leaves. */
  ghost predicate Draws(amount: int, us: seq<UTXO>, choices: Choices, s: seq<UTXO>) {
    && Playable(|us|, choices) && Rounds(choices) == |s|
    && Play(us, choices).selected == s && Play(us, choices).dropped == []
    && (choices.Start? || Running(amount, us, choices.before))
  }

  lemma DrawsLeave(amount: int, us: seq<UTXO>, choices: Choices, s: seq<UTXO>)
    requires us != [] && Draws(amount, us, choices, s)
    ensures multiset(us) == multiset(s) + multiset(Play(us, choices).rest)
  {
    Played(amount, us, choices);
  }

  lemma DrawNext(amount: int, us: seq<UTXO>, before: Choices, s: seq<UTXO>, i: nat)
    requires us != [] && Draws(amount, us, before, s) && (Sum(s) <= amount || before.Start?)
    requires i + 1 < |Play(us, before).rest| && !Play(us, before).rest[i].spent
    ensures Draws(amount, us, Then(before, i), s + [Play(us, before).rest[i]])
  {
    PlayThen(us, before, i);
  }

  /** The entries of a selection that does not hold the last one, to be drawn in their order. */
  ghost predicate Drawable(amount: int, us: seq<UTXO>, s: seq<UTXO>) {
    && |us| >= 2 && us[|us| - 1] !in s && multiset(s) <= multiset(us)
    && StopsEarly(amount, s) && forall i :: 0 <= i < |s| ==> !s[i].spent
  }

  lemma DrawablePrefix(amount: int, us: seq<UTXO>, s: seq<UTXO>, u: UTXO)
    requires Drawable(amount, us, s + [u])
    ensures Drawable(amount, us, s) && Sum(s) <= amount && u != us[|us| - 1] && !u.spent
  {
    PrefixFits(us, s, u);
    StopsEarlyPrefix(amount, s, u);
    assert (s + [u])[|s|] == u && forall i :: 0 <= i < |s| ==> (s + [u])[i] == s[i];
  }

  lemma DrawOneMore(amount: int, us: seq<UTXO>, drawn: Choices, s: seq<UTXO>, u: UTXO) returns (choices: Choices)
    requires Draws(amount, us, drawn, s) && Drawable(amount, us, s + [u])
    ensures Draws(amount, us, choices, s + [u])
  {
    DrawablePrefix(amount, us, s, u);
    DrawsLeave(amount, us, drawn, s);
    var i := NextIsLeft(us, s, u, Play(us, drawn).rest);
    DrawNext(amount, us, drawn, s, i);
    choices := Then(drawn, i);
  }

  lemma {:induction false} InOrder(amount: int, us: seq<UTXO>, s: seq<UTXO>) returns (choices: Choices)
    requires Drawable(amount, us, s)
    ensures Draws(amount, us, choices, s)
    decreases |s|
  {
    if s == [] {
      choices := Start;
    } else {
      var before, u := s[..|s| - 1], s[|s| - 1];
      assert s == before + [u];
      DrawablePrefix(amount, us, before, u);
      var drawn := InOrder(amount, us, before);
      choices := DrawOneMore(amount, us, drawn, before, u);
    }
  }

  /** Spent entries are drawn and dropped until the last one is left. */
  lemma {:induction false} DropTheSpent(amount: int, us: seq<UTXO>, choices: Choices) returns (choices': Choices)
    requires |us| >= 2 && Playable(|us|, choices) && Running(amount, us, choices)
    requires Sum(Play(us, choices).selected) <= amount
    requires var rest := Play(us, choices).rest; forall i :: 0 <= i < |rest| - 1 ==> rest[i].spent
    ensures Playable(|us|, choices') && LastIsLeft(amount, us, choices')
    ensures Play(us, choices').selected == Play(us, choices).selected
    decreases |Play(us, choices).rest|
  {
    choices' := choices;
    if |Play(us, choices).rest| > 1 {
      choices' := DropTheSpent(amount, us, Then(choices, 0));
    }
  }

  lemma WithoutLastArises(amount: int, us: seq<UTXO>, selected: seq<UTXO>)
    requires |us| >= 2 && amount >= 0 && Selects(amount, us, selected) && us[|us| - 1] !in selected
    ensures Arises(amount, us, selected)
  {
    var choices := InOrder(amount, us, selected);
    PlaysArise(amount, us, choices, selected);
  }

  lemma OthersThenLast(us: seq<UTXO>, s: seq<UTXO>)
    requires us != [] && DistinctOutpoints(us) && multiset(s + [us[|us| - 1]]) <= multiset(us)
    ensures us[|us| - 1] !in s
  {
    var last := us[|us| - 1];
    OnceIn(us, last);
    assert multiset(s + [last])[last] == multiset(s)[last] + 1;
  }

  /** A play that has drawn all others, and will drop the spent ones, ends with the last entry. */
  lemma LastEndsThePlay(amount: int, us: seq<UTXO>, s: seq<UTXO>, drawn: Choices)
    requires |us| >= 2 && DistinctOutpoints(us) && Draws(amount, us, drawn, s) && Running(amount, us, drawn)
    requires Sum(s) <= amount && LastHelps(amount, us[|us| - 1], s)
    requires forall u :: u in us && !u.spent ==> u in s || u == us[|us| - 1]
    ensures Arises(amount, us, s + [us[|us| - 1]])
  {
    DrawsLeave(amount, us, drawn, s);
    OnlySpentAreLeft(us, s, Play(us, drawn).rest);
    var choices := DropTheSpent(amount, us, drawn);
    PlaysArise(amount, us, choices, s + [us[|us| - 1]]);
  }

  lemma DrawsRun(amount: int, us: seq<UTXO>, s: seq<UTXO>, drawn: Choices)
    requires Draws(amount, us, drawn, s) && Sum(s) <= amount
    ensures Running(amount, us, drawn)
  {
  }

  lemma FitForDrawing(amount: int, us: seq<UTXO>, s: seq<UTXO>)
    requires |us| >= 2 && DistinctOutpoints(us)
    requires Selects(amount, us, s + [us[|us| - 1]]) && amount >= 0
    ensures Drawable(amount, us, s)
    ensures Sum(s) <= amount && LastHelps(amount, us[|us| - 1], s)
  {
    var last := us[|us| - 1];
    OthersThenLast(us, s);
    PrefixFits(us, s, last);
    StopsEarlyPrefix(amount, s, last);
    SumPush(s, last);
    assert forall i :: 0 <= i < |s| ==> (s + [last])[i] == s[i];
    assert (s + [last])[|s|] == last;
  }

  lemma WithLastArises(amount: int, us: seq<UTXO>, s: seq<UTXO>)
    requires |us| >= 2 && amount >= 0 && DistinctOutpoints(us)
    requires Selects(amount, us, s + [us[|us| - 1]]) && LastComesLast(us, s + [us[|us| - 1]])
    ensures Arises(amount, us, s + [us[|us| - 1]])
  {
    FitForDrawing(amount, us, s);
    var drawn := InOrder(amount, us, s);
    DrawsRun(amount, us, s, drawn);
    OthersAreDrawn(us, s);
    LastEndsThePlay(amount, us, s, drawn);
  }

  lemma OthersAreDrawn(us: seq<UTXO>, s: seq<UTXO>)
    requires us != [] && LastComesLast(us, s + [us[|us| - 1]])
    ensures forall u :: u in us && !u.spent ==> u in s || u == us[|us| - 1]
  {
    assert (s + [us[|us| - 1]])[|s|] == us[|us| - 1];
  }

  lemma OnlySpentAreLeft(us: seq<UTXO>, s: seq<UTXO>, rest: seq<UTXO>)
    requires us != [] && rest != [] && rest[|rest| - 1] == us[|us| - 1] && DistinctOutpoints(us)
    requires multiset(us) == multiset(s) + multiset(rest)
    requires forall u :: u in us && !u.spent ==> u in s || u == us[|us| - 1]
    ensures forall i :: 0 <= i < |rest| - 1 ==> rest[i].spent
  {
    forall i | 0 <= i < |rest| - 1 ensures rest[i].spent {
      var u := rest[i];
      OnceIn(us, u);
      assert u in multiset(rest);
      assert u in multiset(us);
      if u == us[|us| - 1] { TwiceIn(rest, i, |rest| - 1); }
    }
  }

  /** Exactly these selections can arise: the correct ones in which the list's last entry, if it is there
      at all, comes after every other unspent entry. */
  lemma ExactlyTheseArise(amount: int, us: seq<UTXO>, selected: seq<UTXO>)
    requires |us| >= 2 && amount >= 0 && DistinctOutpoints(us)
    ensures Arises(amount, us, selected) <==> Selects(amount, us, selected) && LastComesLast(us, selected)
  {
    if Arises(amount, us, selected) {
      var draws: Random :| Decides(amount, us, draws, Some(selected));
      var rounds: nat :| rounds < |us| && EndsAfter(amount, us, draws, rounds, Some(selected));
      WinningSelects(amount, us, Drawn(draws, |us|, rounds), selected);
      YieldsLastLast(amount, us, Drawn(draws, |us|, rounds), selected);
    }
    if Selects(amount, us, selected) && LastComesLast(us, selected) {
      if us[|us| - 1] in selected {
        assert selected == selected[..|selected| - 1] + [us[|us| - 1]];
        WithLastArises(amount, us, selected[..|selected| - 1]);
      } else {
        WithoutLastArises(amount, us, selected);
      }
    }
  }
}
