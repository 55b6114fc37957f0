/** When the loop of scanMissingBlocks comes to its end (wallet/scan.go). */
module ScanTermination {
  import opened Text
  import opened Node
  import opened Ledger
  import opened Scanning
  import opened Runs

  /** Rounds in which no call fails but for want of a block. */
  function Rounds(env: Env, w: Wallet, chain: seq<Block>, n: nat): Wallet {
    if n == 0 then w else ScanRound(env, Rounds(env, w, chain, n - 1), chain, None)
  }

  ghost predicate Ends(env: Env, w: Wallet, chain: seq<Block>, height: int) {
    exists n :: Rounds(env, w, chain, n).lastScanned >= height
  }

  /** Nothing is missing, or there is a next block and every missing one parses. */
  ghost predicate Scannable(env: Env, w: Wallet, chain: seq<Block>, height: int)
    requires height < |chain|
  {
    || height <= w.lastScanned
    || (-1 <= w.lastScanned && ParsesBetween(env, chain, w.lastScanned, height))
  }

  lemma RoundAdvances(env: Env, w: Wallet, chain: seq<Block>)
    ensures var h := w.lastScanned + 1;
      ScanRound(env, w, chain, None).lastScanned
      == if 0 <= h < |chain| && WellFormed(env, chain[h]) then h else w.lastScanned
  {
    var h := w.lastScanned + 1;
    if 0 <= h < |chain| {
      BlockAdvancesIffWellFormed(env, w, chain[h], Working());
    }
  }

  lemma {:induction false} StuckBelowGenesis(env: Env, w: Wallet, chain: seq<Block>, n: nat)
    requires w.lastScanned < -1
    ensures Rounds(env, w, chain, n) == w
  {
    if n > 0 {
      StuckBelowGenesis(env, w, chain, n - 1);
    }
  }

  lemma {:induction false} StuckBeforeMalformed(env: Env, w: Wallet, chain: seq<Block>, h: nat, n: nat)
    requires w.lastScanned < h < |chain| && !WellFormed(env, chain[h])
    ensures Rounds(env, w, chain, n).lastScanned < h
  {
    if n > 0 {
      StuckBeforeMalformed(env, w, chain, h, n - 1);
      RoundAdvances(env, Rounds(env, w, chain, n - 1), chain);
    }
  }

  lemma {:induction false} EachRoundScansOne(env: Env, w: Wallet, chain: seq<Block>, height: int, n: nat)
    requires -1 <= w.lastScanned && w.lastScanned + n <= height < |chain|
    requires ParsesBetween(env, chain, w.lastScanned, height)
    ensures Rounds(env, w, chain, n).lastScanned == w.lastScanned + n
  {
    if n > 0 {
      EachRoundScansOne(env, w, chain, height, n - 1);
      RoundAdvances(env, Rounds(env, w, chain, n - 1), chain);
    }
  }

  /** Even with every call and write succeeding, the loop ends exactly when the scan starts at or above
      the genesis block and no missing block holds a script that does not parse. */
  lemma EndsIffScannable(env: Env, w: Wallet, chain: seq<Block>, height: int)
    requires height < |chain|
    ensures Ends(env, w, chain, height) <==> Scannable(env, w, chain, height)
  {
    if height <= w.lastScanned {
      assert Rounds(env, w, chain, 0).lastScanned >= height;
    } else if w.lastScanned < -1 {
      forall n ensures Rounds(env, w, chain, n).lastScanned < height {
        StuckBelowGenesis(env, w, chain, n);
      }
    } else if Scannable(env, w, chain, height) {
      EachRoundScansOne(env, w, chain, height, height - w.lastScanned);
      assert Rounds(env, w, chain, height - w.lastScanned).lastScanned >= height;
    } else {
      var h: nat :| w.lastScanned < h <= height && !WellFormed(env, chain[h]);
      forall n ensures Rounds(env, w, chain, n).lastScanned < height {
        StuckBeforeMalformed(env, w, chain, h, n);
      }
    }
  }

  /** A new wallet starts ten blocks down, so on a chain of height eight or less it never catches up. */
  lemma NewWalletNeedsHeightNine(env: Env, encodedHash: string, chain: seq<Block>)
    requires |chain| > 0
    ensures var height := |chain| - 1;
      Ends(env, NewWallet(encodedHash, height, true), chain, height)
      <==> height >= 9 && ParsesBetween(env, chain, height - 10, height)
  {
    EndsIffScannable(env, NewWallet(encodedHash, |chain| - 1, true), chain, |chain| - 1);
  }
}
