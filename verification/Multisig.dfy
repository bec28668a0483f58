/** `validate_owner`'s multisignature loop and the signer filters of `onchain.rs`. */
module Multisig {
  import opened Prelude

  /** One account listed by an instruction: its key and whether it signed. */
  datatype Meta = Meta(key: Pubkey, signer: bool)

  /** Position `i` is where the key is listed for the first time. */
  predicate IsFirst(key: Pubkey, metas: seq<Meta>, i: nat) {
    && i < |metas|
    && metas[i].key == key
    && (forall j :: 0 <= j < i ==> metas[j].key != key)
  }

  /** Whether the first listed account with this key signed. */
  predicate FirstSigns(key: Pubkey, metas: seq<Meta>) {
    exists i :: 0 <= i < |metas| && IsFirst(key, metas, i) && metas[i].signer
  }

  predicate Listed(key: Pubkey, metas: seq<Meta>) {
    exists i :: 0 <= i < |metas| && metas[i].key == key
  }

  /** The stored positions whose key is listed at least once. */
  function ListedPositions(keys: seq<Pubkey>, metas: seq<Meta>): set<nat> {
    set p: nat | p < |keys| && Listed(keys[p], metas)
  }

  /** The verdict of a multisignature account that stores `keys` and needs `m` of them. */
  predicate Accepts(keys: seq<Pubkey>, m: nat, metas: seq<Meta>) {
    && (forall p :: 0 <= p < |keys| && Listed(keys[p], metas) ==> FirstSigns(keys[p], metas))
    && m <= |ListedPositions(keys, metas)|
  }

  /** The nested loop of `validate_owner`: each listed account may mark every stored position
      that holds its key and is not yet marked, and must have signed to do so. */
  method ValidateSigners(keys: seq<Pubkey>, m: u8, metas: seq<Meta>) returns (accepted: bool)
    requires |keys| <= MAX_SIGNERS
    ensures accepted == Accepts(keys, m, metas)
  {
    var matched := new bool[MAX_SIGNERS](_ => false);
    var count: nat := 0;
    for i := 0 to |metas|
      invariant Tracks(keys, ListedPositions(keys, metas[..i]), matched[..], count)
      invariant FirstsSign(keys, metas, ListedPositions(keys, metas[..i]))
    {
      MarkedBounds(keys, metas, i);
      var signed;
      signed, count := MatchSigner(keys, metas, i, matched, count);
      if !signed {
        return false;
      }
    }
    assert metas[..|metas|] == metas;
    return count >= m;
  }

  /** The inner loop: compares listed account `i` with every stored position. */
  method MatchSigner(keys: seq<Pubkey>, metas: seq<Meta>, i: nat, matched: array<bool>, count: nat)
    returns (signed: bool, total: nat)
    requires |keys| <= matched.Length && i < |metas|
    requires Tracks(keys, Marked(keys, metas, i, 0), matched[..], count)
    requires FirstsSign(keys, metas, Marked(keys, metas, i, 0))
    modifies matched
    ensures signed ==> Tracks(keys, Marked(keys, metas, i, |keys|), matched[..], total)
    ensures signed ==> FirstsSign(keys, metas, Marked(keys, metas, i, |keys|))
    ensures !signed ==> exists p :: 0 <= p < |keys| && Listed(keys[p], metas) && !FirstSigns(keys[p], metas)
  {
    total := count;
    ghost var found := Marked(keys, metas, i, 0);
    for p := 0 to |keys|
      invariant found == Marked(keys, metas, i, p)
      invariant Tracks(keys, found, matched[..], total)
      invariant FirstsSign(keys, metas, found)
    {
      MarkedOneMore(keys, metas, i, p);
      if keys[p] == metas[i].key && !matched[p] {
        NewPosition(keys, metas, i, p);
        if !metas[i].signer {
          return false, total;
        }
        matched[p] := true;
        total := total + 1;
        found := found + {p};
      }
    }
    return true, total;
  }

  /** The loop's flags and counter describe the set of marked positions. */
  ghost predicate Tracks(keys: seq<Pubkey>, found: set<nat>, matched: seq<bool>, count: nat) {
    && |keys| <= |matched|
    && count == |found|
    && (forall p :: 0 <= p < |keys| ==> matched[p] == (p in found))
  }

  ghost predicate FirstsSign(keys: seq<Pubkey>, metas: seq<Meta>, positions: set<nat>) {
    forall p :: p in positions ==> p < |keys| && FirstSigns(keys[p], metas)
  }

  /** The positions marked once account `i` has been compared with the first `n` of them. */
  ghost function Marked(keys: seq<Pubkey>, metas: seq<Meta>, i: nat, n: nat): set<nat>
    requires i < |metas| && n <= |keys|
  {
    set q: nat | q < |keys| && (Listed(keys[q], metas[..i]) || (q < n && keys[q] == metas[i].key))
  }

  lemma MarkedOneMore(keys: seq<Pubkey>, metas: seq<Meta>, i: nat, p: nat)
    requires i < |metas| && p < |keys|
    ensures Marked(keys, metas, i, p + 1)
         == if keys[p] == metas[i].key then Marked(keys, metas, i, p) + {p} else Marked(keys, metas, i, p)
  {
  }

  /** An account that reaches an unmarked position is the first one listed with its key. */
  lemma NewPosition(keys: seq<Pubkey>, metas: seq<Meta>, i: nat, p: nat)
    requires i < |metas| && p < |keys| && keys[p] == metas[i].key
    requires !Listed(keys[p], metas[..i])
    ensures Listed(keys[p], metas)
    ensures FirstSigns(keys[p], metas) == metas[i].signer
  {
    forall j | 0 <= j < i ensures metas[j].key != keys[p] {
      assert metas[..i][j] == metas[j];
      assert !Listed(keys[p], metas[..i]);
    }
    assert IsFirst(keys[p], metas, i);
  }

  lemma MarkedBounds(keys: seq<Pubkey>, metas: seq<Meta>, i: nat)
    requires i < |metas|
    ensures Marked(keys, metas, i, 0) == ListedPositions(keys, metas[..i])
    ensures Marked(keys, metas, i, |keys|) == ListedPositions(keys, metas[..i + 1])
  {
    forall q: nat | q < |keys|
      ensures Listed(keys[q], metas[..i + 1]) <==> Listed(keys[q], metas[..i]) || keys[q] == metas[i].key
    {
      if Listed(keys[q], metas[..i]) {
        var j :| 0 <= j < |metas[..i]| && metas[..i][j].key == keys[q];
        assert metas[..i + 1][j].key == keys[q];
      }
      if Listed(keys[q], metas[..i + 1]) {
        var j :| 0 <= j < |metas[..i + 1]| && metas[..i + 1][j].key == keys[q];
        assert j == i || metas[..i][j].key == keys[q];
      }
      assert metas[..i + 1][i] == metas[i];
    }
  }

  /** Some list of accounts satisfies a multisignature exactly when it asks for no more keys than
      it stores: only stored positions count, and all of them can sign. */
  lemma Satisfiable(keys: seq<Pubkey>, m: nat)
    ensures (exists metas: seq<Meta> :: Accepts(keys, m, metas)) <==> m <= |keys|
  {
    if m <= |keys| {
      EverybodySigns(keys, m);
    }
    if metas: seq<Meta> :| Accepts(keys, m, metas) {
      PositionsBelow(ListedPositions(keys, metas), |keys|);
    }
  }

  lemma EverybodySigns(keys: seq<Pubkey>, m: nat)
    requires m <= |keys|
    ensures Accepts(keys, m, AllSign(keys))
  {
    var metas := AllSign(keys);
    forall p: nat | p < |keys| ensures FirstSigns(keys[p], metas) && Listed(keys[p], metas) {
      assert metas[p].key == keys[p];
      var i := FirstIndex(keys[p], metas);
      assert metas[i].signer;
    }
    assert ListedPositions(keys, metas) == Below(|keys|);
  }

  function AllSign(keys: seq<Pubkey>): seq<Meta> {
    seq(|keys|, i requires 0 <= i < |keys| => Meta(keys[i], true))
  }

  function Below(n: nat): (s: set<nat>)
    ensures |s| == n
    ensures forall p: nat :: p in s <==> p < n
  {
    if n == 0 then {} else Below(n - 1) + {n - 1}
  }

  lemma {:induction false} PositionsBelow(s: set<nat>, n: nat)
    requires forall p :: p in s ==> p < n
    ensures |s| <= n
  {
    if n > 0 {
      PositionsBelow(s - {n - 1}, n - 1);
    } else {
      assert s == {};
    }
  }

  /** What acceptance is worth: `m` different stored positions whose key really signed. */
  lemma AcceptedMeansSigned(keys: seq<Pubkey>, m: nat, metas: seq<Meta>)
    requires Accepts(keys, m, metas)
    ensures exists who: set<nat> :: |who| == m && AllSigned(keys, who, metas)
  {
    var all := ListedPositions(keys, metas);
    var who := TakeSome(all, m);
    forall p | p in who ensures p < |keys| && Meta(keys[p], true) in metas {
      assert FirstSigns(keys[p], metas);
    }
    assert AllSigned(keys, who, metas);
  }

  /** The stored keys at these positions are all listed as signers. */
  ghost predicate AllSigned(keys: seq<Pubkey>, who: set<nat>, metas: seq<Meta>) {
    forall p :: p in who ==> p < |keys| && Meta(keys[p], true) in metas
  }

  lemma {:induction false} TakeSome(s: set<nat>, n: nat) returns (t: set<nat>)
    requires n <= |s|
    ensures t <= s && |t| == n
  {
    if n == |s| {
      t := s;
    } else {
      var x :| x in s;
      t := TakeSome(s - {x}, n);
    }
  }

  /** The runtime gives every listing of one key the same signer flag. */
  predicate Consistent(metas: seq<Meta>) {
    forall i, j :: 0 <= i < |metas| && 0 <= j < |metas| && metas[i].key == metas[j].key
      ==> metas[i].signer == metas[j].signer
  }

  /** With consistent flags the verdict depends only on which (stored key, flag) pairs are
      listed: reordering, repeating or dropping unrelated accounts changes nothing. */
  lemma VerdictIgnoresOrder(keys: seq<Pubkey>, m: nat, a: seq<Meta>, b: seq<Meta>)
    requires Consistent(a) && Consistent(b)
    requires forall x: Meta :: x.key in keys ==> (x in a <==> x in b)
    ensures Accepts(keys, m, a) == Accepts(keys, m, b)
  {
    forall p: nat | p < |keys|
      ensures Listed(keys[p], a) == Listed(keys[p], b)
      ensures FirstSigns(keys[p], a) == FirstSigns(keys[p], b)
    {
      FirstSignsWhenConsistent(keys[p], a);
      FirstSignsWhenConsistent(keys[p], b);
      ListedFlag(keys[p], a);
      ListedFlag(keys[p], b);
    }
    assert ListedPositions(keys, a) == ListedPositions(keys, b);
  }

  /** With consistent flags the verdict is a plain count: no stored key is listed without having
      signed, and at least `m` stored positions hold a key that signed. */
  lemma AcceptsWhenConsistent(keys: seq<Pubkey>, m: nat, metas: seq<Meta>)
    requires Consistent(metas)
    ensures Accepts(keys, m, metas)
       <==> && (forall p :: 0 <= p < |keys| ==> Meta(keys[p], false) !in metas)
            && m <= |set p: nat | p < |keys| && Meta(keys[p], true) in metas|
  {
    forall p: nat | p < |keys|
      ensures Listed(keys[p], metas) && FirstSigns(keys[p], metas) <==> Meta(keys[p], true) in metas
      ensures Listed(keys[p], metas) && !FirstSigns(keys[p], metas) <==> Meta(keys[p], false) in metas
    {
      FirstSignsWhenConsistent(keys[p], metas);
      ListedFlag(keys[p], metas);
    }
    var signed := set p: nat | p < |keys| && Meta(keys[p], true) in metas;
    if forall p :: 0 <= p < |keys| ==> Meta(keys[p], false) !in metas {
      assert ListedPositions(keys, metas) == signed;
    }
  }

  lemma ListedFlag(key: Pubkey, metas: seq<Meta>)
    ensures Listed(key, metas) <==> Meta(key, true) in metas || Meta(key, false) in metas
  {
    if Listed(key, metas) {
      var i :| 0 <= i < |metas| && metas[i].key == key;
      assert metas[i] == Meta(key, metas[i].signer);
    }
  }

  lemma FirstSignsWhenConsistent(key: Pubkey, metas: seq<Meta>)
    requires Consistent(metas)
    ensures FirstSigns(key, metas) <==> Meta(key, true) in metas
  {
    if Meta(key, true) in metas {
      var i := FirstIndex(key, metas);
      assert metas[i].signer;
    }
  }

  lemma {:induction false} FirstIndex(key: Pubkey, metas: seq<Meta>) returns (i: nat)
    requires Listed(key, metas)
    ensures IsFirst(key, metas, i)
  {
    if metas[0].key == key {
      i := 0;
    } else {
      var j :| 0 <= j < |metas| && metas[j].key == key;
      assert metas[1..][j - 1].key == key;
      i := FirstIndex(key, metas[1..]);
      assert forall h :: 0 < h < |metas| ==> metas[h] == metas[1..][h - 1];
      i := i + 1;
    }
  }

  lemma ConsFirst(key: Pubkey, x: Meta, rest: seq<Meta>)
    ensures Listed(key, [x] + rest) == (x.key == key || Listed(key, rest))
    ensures FirstSigns(key, [x] + rest) == if x.key == key then x.signer else FirstSigns(key, rest)
  {
    var all := [x] + rest;
    assert all[0] == x && forall i :: 0 <= i < |rest| ==> all[i + 1] == rest[i];
    if x.key == key {
      assert IsFirst(key, all, 0);
    } else {
      forall i: nat ensures IsFirst(key, rest, i) <==> IsFirst(key, all, i + 1) {
        if IsFirst(key, all, i + 1) {
          assert forall j :: 0 <= j < i ==> rest[j] == all[j + 1];
        }
      }
      if FirstSigns(key, all) {
        var i :| 0 <= i < |all| && IsFirst(key, all, i) && all[i].signer;
        assert IsFirst(key, rest, i - 1);
      }
    }
  }

  /** Listing one more signed account, anywhere, never turns an acceptance into a refusal. */
  lemma SignersOnlyHelp(keys: seq<Pubkey>, m: nat, metas: seq<Meta>, i: nat, extra: Meta)
    requires i <= |metas| && extra.signer
    requires Accepts(keys, m, metas)
    ensures Accepts(keys, m, Insert(metas, i, extra))
  {
    forall p: nat | p < |keys|
      ensures Listed(keys[p], metas) ==> Listed(keys[p], Insert(metas, i, extra))
      ensures Listed(keys[p], Insert(metas, i, extra)) ==> FirstSigns(keys[p], Insert(metas, i, extra))
    {
      InsertFirst(keys[p], metas, i, extra);
    }
    SubsetCardinality(ListedPositions(keys, metas), ListedPositions(keys, Insert(metas, i, extra)));
  }

  function Insert(metas: seq<Meta>, i: nat, extra: Meta): seq<Meta>
    requires i <= |metas|
  {
    metas[..i] + [extra] + metas[i..]
  }

  lemma {:induction false} InsertFirst(key: Pubkey, metas: seq<Meta>, i: nat, extra: Meta)
    requires i <= |metas| && extra.signer
    ensures Listed(key, Insert(metas, i, extra)) == (key == extra.key || Listed(key, metas))
    ensures FirstSigns(key, metas) ==> FirstSigns(key, Insert(metas, i, extra))
    ensures key == extra.key && !Listed(key, metas) ==> FirstSigns(key, Insert(metas, i, extra))
  {
    if i == 0 {
      assert Insert(metas, 0, extra) == [extra] + metas;
      ConsFirst(key, extra, metas);
    } else {
      var rest := metas[1..];
      InsertFirst(key, rest, i - 1, extra);
      assert Insert(metas, i, extra) == [metas[0]] + Insert(rest, i - 1, extra);
      ConsFirst(key, metas[0], Insert(rest, i - 1, extra));
      assert metas == [metas[0]] + rest;
      ConsFirst(key, metas[0], rest);
    }
  }

  lemma {:induction false} SubsetCardinality(a: set<nat>, b: set<nat>)
    requires a <= b
    ensures |a| <= |b|
  {
    if a != {} {
      var x :| x in a;
      SubsetCardinality(a - {x}, b - {x});
    }
  }

  /** The listed accounts whose key is stored, in order. */
  function Keep(keys: seq<Pubkey>, metas: seq<Meta>): seq<Meta> {
    if metas == [] then []
    else if metas[0].key in keys then [metas[0]] + Keep(keys, metas[1..])
    else Keep(keys, metas[1..])
  }

  /** Filtering goes account by account. */
  lemma {:induction false} KeepSplits(keys: seq<Pubkey>, a: seq<Meta>, b: seq<Meta>, x: Meta)
    ensures Keep(keys, a + b) == Keep(keys, a) + Keep(keys, b)
    ensures Keep(keys, [x]) == if x.key in keys then [x] else []
  {
    if a == [] {
      assert a + b == b;
    } else {
      KeepSplits(keys, a[1..], b, x);
      assert (a + b)[1..] == a[1..] + b;
    }
  }

  /** The authority account as the helper sees it: its owning program, its size, and the first `n`
      signer keys if its bytes are read as a multisignature. */
  datatype Holder = Holder(key: Pubkey, program: Pubkey, length: nat, signers: seq<Pubkey>)

  predicate IsMultisigAccount(account: Holder) {
    (account.program == TOKEN_PROGRAM || account.program == LEGACY_TOKEN_PROGRAM) && account.length == 355
  }

  method ExtractMultisigAccounts(account: Holder, metas: seq<Meta>) returns (kept: seq<Meta>)
    ensures kept == if account.program in {TOKEN_PROGRAM, LEGACY_TOKEN_PROGRAM} && account.length == 355
                    then Keep(account.signers, metas) else []
  {
    kept := [];
    if !IsMultisigAccount(account) {
      return;
    }
    for i := 0 to |metas|
      invariant kept + Keep(account.signers, metas[i..]) == Keep(account.signers, metas)
    {
      assert metas[i..][0] == metas[i] && metas[i..][1..] == metas[i + 1..];
      if metas[i].key in account.signers {
        kept := kept + [metas[i]];
      }
    }
  }

  /** Every listed key, marked as a signer. */
  function Forced(metas: seq<Meta>): (forced: seq<Meta>)
    ensures |forced| == |metas|
    ensures forall i :: 0 <= i < |metas| ==> forced[i] == Meta(metas[i].key, true)
  {
    seq(|metas|, i requires 0 <= i < |metas| => Meta(metas[i].key, true))
  }

  /** The account list of an on-chain transfer: the authority signs unless it is a multisignature,
      in which case its flag is cleared and the stored keys among the extra accounts sign. */
  method TransferMetas(source: Pubkey, mint: Pubkey, destination: Pubkey, authority: Holder,
                       additional: seq<Meta>)
    returns (metas: seq<Meta>)
    ensures |metas| >= 4
    ensures metas[..3] == [Meta(source, false), Meta(mint, false), Meta(destination, false)]
    ensures metas[3..] == if authority.program in {TOKEN_PROGRAM, LEGACY_TOKEN_PROGRAM} && authority.length == 355
                          then [Meta(authority.key, false)] + Forced(Keep(authority.signers, additional))
                          else [Meta(authority.key, true)]
  {
    metas := [Meta(source, false), Meta(mint, false), Meta(destination, false), Meta(authority.key, true)];
    if IsMultisigAccount(authority) {
      metas := metas[3 := Meta(authority.key, false)];
      ghost var fixed, kept := metas, Keep(authority.signers, additional);
      assert additional[0..] == additional && metas + Forced(kept) == fixed + Forced(kept);
      for i := 0 to |additional|
        invariant |metas| >= 4
        invariant metas + Forced(Keep(authority.signers, additional[i..])) == fixed + Forced(kept)
      {
        var rest := additional[i..];
        assert rest[0] == additional[i] && rest[1..] == additional[i + 1..];
        if additional[i].key in authority.signers {
          ghost var others := Keep(authority.signers, rest[1..]);
          assert Forced([rest[0]] + others) == [Meta(rest[0].key, true)] + Forced(others);
          metas := metas + [Meta(additional[i].key, true)];
        }
      }
      assert additional[|additional|..] == [] && metas + [] == metas;
    }
  }

  /** Filtering the accounts before the call leaves the verdict as it was, for any flags. */
  lemma FilterKeepsVerdict(keys: seq<Pubkey>, m: nat, metas: seq<Meta>)
    ensures Accepts(keys, m, Keep(keys, metas)) == Accepts(keys, m, metas)
  {
    forall p: nat | p < |keys|
      ensures Listed(keys[p], Keep(keys, metas)) == Listed(keys[p], metas)
      ensures FirstSigns(keys[p], Keep(keys, metas)) == FirstSigns(keys[p], metas)
    {
      KeepFirst(keys, keys[p], metas);
    }
    assert ListedPositions(keys, Keep(keys, metas)) == ListedPositions(keys, metas);
  }

  lemma {:induction false} KeepFirst(keys: seq<Pubkey>, key: Pubkey, metas: seq<Meta>)
    requires key in keys
    ensures Listed(key, Keep(keys, metas)) == Listed(key, metas)
    ensures FirstSigns(key, Keep(keys, metas)) == FirstSigns(key, metas)
  {
    if metas != [] {
      KeepFirst(keys, key, metas[1..]);
      ConsFirst(key, metas[0], metas[1..]);
      assert metas == [metas[0]] + metas[1..];
      ConsFirst(key, metas[0], Keep(keys, metas[1..]));
    }
  }

  /** What the forced flags are worth: the program then counts the stored keys that were listed,
      and never refuses what it accepts with the caller's own flags. */
  lemma ForcedFlags(keys: seq<Pubkey>, m: nat, metas: seq<Meta>)
    ensures Accepts(keys, m, Forced(Keep(keys, metas))) <==> m <= |ListedPositions(keys, metas)|
    ensures Accepts(keys, m, metas) ==> Accepts(keys, m, Forced(Keep(keys, metas)))
  {
    var forced := Forced(Keep(keys, metas));
    forall p: nat | p < |keys|
      ensures Listed(keys[p], forced) == Listed(keys[p], metas)
      ensures Listed(keys[p], forced) ==> FirstSigns(keys[p], forced)
    {
      KeepFirst(keys, keys[p], metas);
      ForcedFirst(keys[p], Keep(keys, metas));
    }
    assert ListedPositions(keys, forced) == ListedPositions(keys, metas);
  }

  lemma ForcedFirst(key: Pubkey, metas: seq<Meta>)
    ensures Listed(key, Forced(metas)) == Listed(key, metas)
    ensures Listed(key, metas) ==> FirstSigns(key, Forced(metas))
  {
    var forced := Forced(metas);
    if Listed(key, metas) {
      var i :| 0 <= i < |metas| && metas[i].key == key;
      assert forced[i].key == key;
      i := FirstIndex(key, forced);
      assert forced[i].signer;
    }
    if Listed(key, forced) {
      var i :| 0 <= i < |forced| && forced[i].key == key;
      assert metas[i].key == key;
    }
  }
}
