/** Sums over the whole ledger: lamports, and the tokens that accounts hold of one mint. */
module Totals {
  import opened Prelude
  import opened Ledger

  datatype Measure = Lamports | Tokens(mint: Pubkey)

  /** What one cell adds to a sum. An account's withheld fee still belongs to its mint's supply. */
  function Weigh(c: Cell, q: Measure): nat {
    match q
    case Lamports => c.lamports
    case Tokens(m) =>
      if Ours(c) && c.data.AccountData? && c.data.account.mint == m
      then c.data.account.amount + c.data.account.Withheld()
      else 0
  }

  ghost function Total(l: Ledger, q: Measure): nat
    decreases |l|
  {
    if l == map[] then 0
    else
      var k :| k in l;
      assert |l - {k}| < |l| by { assert (l - {k}).Keys == l.Keys - {k}; }
      Weigh(l[k], q) + Total(l - {k}, q)
  }

  lemma {:induction false} TotalRemove(l: Ledger, q: Measure, k: Pubkey)
    requires k in l
    ensures Total(l, q) == Weigh(l[k], q) + Total(l - {k}, q)
    decreases |l|
  {
    var j :| j in l && Total(l, q) == Weigh(l[j], q) + Total(l - {j}, q);
    if j != k {
      assert (l - {j}).Keys == l.Keys - {j};
      assert (l - {k}).Keys == l.Keys - {k};
      TotalRemove(l - {j}, q, k);
      TotalRemove(l - {k}, q, j);
      assert l - {j} - {k} == l - {k} - {j};
    }
  }

  /** Rewriting one cell changes a sum by the difference of that cell alone. */
  lemma TotalUpdate(l: Ledger, q: Measure, k: Pubkey, c: Cell)
    ensures Total(l[k := c], q) == Total(l, q) - Weigh(At(l, k), q) + Weigh(c, q)
  {
    TotalRemove(l[k := c], q, k);
    if k in l {
      TotalRemove(l, q, k);
      assert l[k := c] - {k} == l - {k};
    } else {
      assert l[k := c] - {k} == l;
    }
  }

  lemma WeighAtMostTotal(l: Ledger, q: Measure, k: Pubkey)
    ensures Weigh(At(l, k), q) <= Total(l, q)
  {
    if k in l {
      TotalRemove(l, q, k);
    }
  }

  lemma WeighPairAtMostTotal(l: Ledger, q: Measure, j: Pubkey, k: Pubkey)
    requires j != k
    ensures Weigh(At(l, j), q) + Weigh(At(l, k), q) <= Total(l, q)
  {
    if j in l {
      TotalRemove(l, q, j);
      WeighAtMostTotal(l - {j}, q, k);
    } else {
      WeighAtMostTotal(l, q, k);
    }
  }

  lemma AtRemove(l: Ledger, k: Pubkey, j: Pubkey)
    ensures At(l - {k}, j) == if j == k then EMPTY else At(l, j)
    ensures At(l[k := EMPTY], j) == if j == k then EMPTY else At(l, j)
  {
  }

  /** Ledgers that weigh the same everywhere have the same sum. */
  lemma {:induction false} TotalSame(l: Ledger, l': Ledger, q: Measure)
    requires forall k: Pubkey :: Weigh(At(l, k), q) == Weigh(At(l', k), q)
    ensures Total(l, q) == Total(l', q)
    decreases |l|
  {
    if l == map[] {
      forall k: Pubkey ensures Weigh(At(l', k), q) == 0 {
        assert At(l, k) == EMPTY;
        assert Weigh(At(l, k), q) == Weigh(At(l', k), q);
      }
      AllZero(l', q);
    } else {
      var k :| k in l;
      var r, r' := l - {k}, l'[k := EMPTY];
      assert Total(l, q) == Weigh(At(l, k), q) + Total(r, q) by { TotalRemove(l, q, k); }
      assert Total(r', q) == Total(l', q) - Weigh(At(l', k), q) by { TotalUpdate(l', q, k, EMPTY); }
      assert r.Keys == l.Keys - {k};
      assert Total(r, q) == Total(r', q) by {
        forall j: Pubkey ensures Weigh(At(r, j), q) == Weigh(At(r', j), q) {
          AtRemove(l, k, j);
          AtRemove(l', k, j);
          assert Weigh(At(l, j), q) == Weigh(At(l', j), q);
        }
        TotalSame(r, r', q);
      }
      assert Weigh(At(l, k), q) == Weigh(At(l', k), q);
    }
  }

  lemma {:induction false} AllZero(l: Ledger, q: Measure)
    requires forall k: Pubkey :: Weigh(At(l, k), q) == 0
    ensures Total(l, q) == 0
    decreases |l|
  {
    if l != map[] {
      var k :| k in l;
      TotalRemove(l, q, k);
      assert Weigh(At(l, k), q) == 0;
      assert (l - {k}).Keys == l.Keys - {k};
      forall j: Pubkey ensures Weigh(At(l - {k}, j), q) == 0 {
        AtRemove(l, k, j);
        assert Weigh(At(l, j), q) == 0;
      }
      AllZero(l - {k}, q);
    }
  }
}
