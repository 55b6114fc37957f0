/** Derivation paths of the two branches of account 0 (wallet/keys.go, wallet/hd.go). */
module KeyChain {
  import opened Text
  import opened Node

  const ACCOUNT: string := "m/44'/1'/0'/"
  const EXTERNAL_MARK: string := "m/44'/1'/0'/0"

  function BranchDigit(c: Branch): char {
    if c.External? then '0' else '1'
  }

  function Path(c: Branch, i: nat): string {
    ACCOUNT + ([BranchDigit(c), '/'] + Decimal(i))
  }

  /** The two formats of the source. */
  lemma PathTexts(i: nat)
    ensures Path(External, i) == "m/44'/1'/0'/0/" + Decimal(i)
    ensures Path(Internal, i) == "m/44'/1'/0'/1/" + Decimal(i)
  {
  }

  lemma PathShape(c: Branch, i: nat)
    ensures var p := Path(c, i);
      && |p| == 14 + |Decimal(i)|
      && p[12] == BranchDigit(c)
      && p[14..] == Decimal(i)
      && p[..12] == ACCOUNT
  {
    assert |ACCOUNT| == 12;
  }

  lemma PathInjective(c: Branch, i: nat, d: Branch, j: nat)
    requires Path(c, i) == Path(d, j)
    ensures c == d && i == j
  {
    PathShape(c, i);
    PathShape(d, j);
    DecimalInjective(i, j);
  }

  lemma NoSecondM(c: Branch, i: nat, k: nat)
    requires 0 < k < |Path(c, i)|
    ensures Path(c, i)[k] != 'm'
  {
    PathShape(c, i);
    var p := Path(c, i);
    if k < 12 {
      assert p[k] == p[..12][k];
    } else if k >= 14 {
      assert p[k] == p[14..][k - 14];
    }
  }

  /** The substring test of loadExternalAddresses tells the branches apart. */
  lemma MarkTellsBranch(c: Branch, i: nat)
    ensures Contains(Path(c, i), EXTERNAL_MARK) <==> c == External
  {
    var p := Path(c, i);
    PathShape(c, i);
    assert |EXTERNAL_MARK| == 13 && EXTERNAL_MARK[..12] == ACCOUNT && EXTERNAL_MARK[12] == '0';
    if c == External {
      assert p[0..0 + 13] == EXTERNAL_MARK by {
        assert p[0..13] == p[..12] + [p[12]];
        assert EXTERNAL_MARK == EXTERNAL_MARK[..12] + [EXTERNAL_MARK[12]];
      }
      assert OccursAt(p, EXTERNAL_MARK, 0);
    } else {
      forall k | 0 <= k <= |p| ensures !OccursAt(p, EXTERNAL_MARK, k) {
        if OccursAt(p, EXTERNAL_MARK, k) {
          assert p[k..k + 13][0] == 'm' && p[k..k + 13][12] == '0';
          if k > 0 { NoSecondM(c, i, k); }
        }
      }
    }
  }
}
