/** What the balance computation promises: each entry's effect, the closed
    form of a member's balance as a sum over the ledger, independence of the
    ledger's order, the layout of the report, and how far the balances are
    from summing to zero. */
module SettlementFacts {
  import opened Domain
  import opened GroupStore
  import opened Settlement

  /** Distinct keys are pairwise different. */
  lemma {:induction false} DistinctIndex(ks: seq<int>, i: nat, j: nat)
    requires Distinct(ks) && i < j < |ks|
    ensures ks[i] != ks[j]
  {
    var front := ks[..|ks| - 1];
    if j < |ks| - 1 {
      assert front[i] == ks[i] && front[j] == ks[j];
      DistinctIndex(front, i, j);
    } else {
      assert ks[i] == front[i];
    }
  }

  ghost predicate Prefix(a: seq<int>, b: seq<int>) {
    |a| <= |b| && b[..|a|] == a
  }

  lemma PrefixTrans(a: seq<int>, b: seq<int>, c: seq<int>)
    requires Prefix(a, b) && Prefix(b, c)
    ensures Prefix(a, c)
  {
    assert c[..|a|] == c[..|b|][..|a|];
  }

  /** How many times `k` is listed among the members. */
  function Count(members: seq<Member>, k: int): (c: nat)
    ensures c <= |members|
  {
    if members == [] then 0
    else Count(members[..|members| - 1], k) + (if members[|members| - 1].id == k then 1 else 0)
  }

  /** The member ids, in member order. */
  function Ids(members: seq<Member>): (ids: seq<int>)
    ensures |ids| == |members|
    ensures forall i :: 0 <= i < |members| ==> ids[i] == members[i].id
  {
    if members == [] then [] else Ids(members[..|members| - 1]) + [members[|members| - 1].id]
  }

  /** `c` shares of `share`, that is `c * share`, written as repeated
      addition so that the proofs stay within linear arithmetic. */
  function Shares(c: nat, share: real): real {
    if c == 0 then 0.0 else Shares(c - 1, share) + share
  }

  /** The sum of the balances of the keys `ks`. */
  function Total(ks: seq<int>, bal: map<int, real>): real {
    if ks == [] then 0.0 else Total(ks[..|ks| - 1], bal) + Get(bal, ks[|ks| - 1])
  }

  function SumBalances(rows: seq<BalanceRow>): real {
    if rows == [] then 0.0 else SumBalances(rows[..|rows| - 1]) + rows[|rows| - 1].balance
  }

  /** What one entry of the group does to the balance of `k`: the payer loses
      the whole amount, everybody else gains one share per time they are
      listed among the members. */
  function Contribution(members: seq<Member>, e: Entry, k: int): real
    requires |members| > 0
  {
    if k == e.paidBy then -e.amount
    else Shares(Count(members, k), e.amount / (|members| as real))
  }

  /** The closed form of a balance: the sum, over the entries of the group,
      of their contributions to `k`. */
  function Owed(members: seq<Member>, groupId: int, entries: seq<Entry>, k: int): real
    requires |members| > 0
  {
    if entries == [] then 0.0
    else
      var e := entries[|entries| - 1];
      Owed(members, groupId, entries[..|entries| - 1], k) + (if e.groupId == groupId then Contribution(members, e, k) else 0.0)
  }

  /** The payers of the group's entries. */
  function Payers(entries: seq<Entry>, groupId: int): set<int> {
    set e | e in entries && e.groupId == groupId :: e.paidBy
  }

  /** The amount by which the balances fail to sum to zero: each entry of the
      group removes one share per time its payer is listed among the members. */
  function Drift(members: seq<Member>, groupId: int, entries: seq<Entry>): real
    requires |members| > 0
  {
    if entries == [] then 0.0
    else
      var e := entries[|entries| - 1];
      Drift(members, groupId, entries[..|entries| - 1])
        - (if e.groupId == groupId then Shares(Count(members, e.paidBy), e.amount / (|members| as real)) else 0.0)
  }

  /** With distinct member ids: the total of the shares that entries paid by
      members fail to return to anybody. */
  function Leak(members: seq<Member>, groupId: int, entries: seq<Entry>): real
    requires |members| > 0
  {
    if entries == [] then 0.0
    else
      var e := entries[|entries| - 1];
      Leak(members, groupId, entries[..|entries| - 1])
        + (if e.groupId == groupId && IsMember(members, e.paidBy) then e.amount / (|members| as real) else 0.0)
  }

  // ---------------------------------------------------------------------
  // Shares

  lemma {:induction false} SharesIsProduct(c: nat, share: real)
    ensures Shares(c, share) == (c as real) * share
  {
    if c > 0 {
      SharesIsProduct(c - 1, share);
    }
  }

  lemma {:induction false} SharesAdd(a: nat, b: nat, share: real)
    ensures Shares(a + b, share) == Shares(a, share) + Shares(b, share)
  {
    if b > 0 {
      SharesAdd(a, b - 1, share);
    }
  }

  /** Taking `c` of `n` shares away leaves `n - c` of them. */
  lemma SharesRest(n: nat, c: nat, share: real)
    requires c <= n
    ensures Shares(n - c, share) + Shares(c, share) == Shares(n, share)
  {
    var a := n - c;
    SharesAdd(a, c, share);
    assert a + c == n;
  }

  /** `n` shares of `amount / n` give back the amount. */
  lemma SharesOfSplit(n: nat, amount: real)
    requires n > 0
    ensures Shares(n, amount / (n as real)) == amount
  {
    SharesIsProduct(n, amount / (n as real));
  }

  // ---------------------------------------------------------------------
  // Members

  lemma {:induction false} CountIsMember(members: seq<Member>, k: int)
    ensures Count(members, k) > 0 <==> IsMember(members, k)
  {
    if members != [] {
      CountIsMember(members[..|members| - 1], k);
    }
  }

  /** With distinct ids the last member's id is not among the others. */
  lemma LastIsNew(members: seq<Member>)
    requires members != [] && UniqueIds(members)
    ensures UniqueIds(members[..|members| - 1])
    ensures !IsMember(members[..|members| - 1], members[|members| - 1].id)
  {
    var front := members[..|members| - 1];
    forall i | 0 <= i < |front| ensures front[i].id != members[|members| - 1].id {
      assert front[i] == members[i];
    }
    IsMemberIndex(front, members[|members| - 1].id);
  }

  /** With distinct ids each member is listed once. */
  lemma {:induction false} CountOfUnique(members: seq<Member>, k: int)
    requires UniqueIds(members)
    ensures Count(members, k) == if IsMember(members, k) then 1 else 0
  {
    if members != [] {
      var front := members[..|members| - 1];
      LastIsNew(members);
      CountOfUnique(front, k);
      CountIsMember(front, k);
    }
  }

  /** With distinct ids a member's row carries that member's own name. */
  lemma {:induction false} NameOfUnique(members: seq<Member>, i: nat)
    requires UniqueIds(members) && i < |members|
    ensures NameOf(members, members[i].id) == Some(members[i].name)
  {
    if i < |members| - 1 {
      var front := members[..|members| - 1];
      assert front[i] == members[i];
      NameOfUnique(front, i);
    }
  }

  // ---------------------------------------------------------------------
  // One write to the tally

  lemma AssignWellFormed(t: Tally, k: int, v: real)
    requires WellFormed(t)
    ensures WellFormed(Assign(t, k, v))
  {
  }

  lemma AssignPrefix(t: Tally, k: int, v: real)
    ensures Prefix(t.order, Assign(t, k, v).order)
  {
    assert (t.order + [k])[..|t.order|] == t.order;
  }

  // ---------------------------------------------------------------------
  // The inner loop

  /** Credit on a non-empty list of members, unfolded once. */
  lemma CreditUnfold(t: Tally, members: seq<Member>, payer: int, share: real)
    requires members != []
    ensures var t0 := Credit(t, members[..|members| - 1], payer, share);
            var m := members[|members| - 1];
            Credit(t, members, payer, share) == if m.id != payer then Assign(t0, m.id, Get(t0.bal, m.id) + share) else t0
  {
  }

  lemma {:induction false} CreditWellFormed(t: Tally, members: seq<Member>, payer: int, share: real)
    requires WellFormed(t)
    ensures WellFormed(Credit(t, members, payer, share))
  {
    if members != [] {
      var t0 := Credit(t, members[..|members| - 1], payer, share);
      var m := members[|members| - 1];
      CreditWellFormed(t, members[..|members| - 1], payer, share);
      CreditUnfold(t, members, payer, share);
      AssignWellFormed(t0, m.id, Get(t0.bal, m.id) + share);
    }
  }

  lemma {:induction false} CreditPrefix(t: Tally, members: seq<Member>, payer: int, share: real)
    ensures Prefix(t.order, Credit(t, members, payer, share).order)
  {
    if members != [] {
      var t0 := Credit(t, members[..|members| - 1], payer, share);
      var m := members[|members| - 1];
      CreditPrefix(t, members[..|members| - 1], payer, share);
      CreditUnfold(t, members, payer, share);
      AssignPrefix(t0, m.id, Get(t0.bal, m.id) + share);
      PrefixTrans(t.order, t0.order, Assign(t0, m.id, Get(t0.bal, m.id) + share).order);
    }
  }

  lemma {:induction false} CreditKeys(t: Tally, members: seq<Member>, payer: int, share: real)
    ensures forall k :: k in Credit(t, members, payer, share).bal <==> k in t.bal || (k != payer && IsMember(members, k))
  {
    if members != [] {
      CreditKeys(t, members[..|members| - 1], payer, share);
    }
  }

  /** Every key other than the payer gains one share per time it is listed. */
  lemma {:induction false} CreditAt(t: Tally, members: seq<Member>, payer: int, share: real, k: int)
    ensures Get(Credit(t, members, payer, share).bal, k)
            == Get(t.bal, k) + (if k == payer then 0.0 else Shares(Count(members, k), share))
  {
    if members != [] {
      CreditAt(t, members[..|members| - 1], payer, share, k);
    }
  }

  // ---------------------------------------------------------------------
  // One entry

  lemma ChargeWellFormed(t: Tally, members: seq<Member>, payer: int, amount: real, share: real)
    requires WellFormed(t)
    ensures WellFormed(Charge(t, members, payer, amount, share))
  {
    AssignWellFormed(t, payer, Get(t.bal, payer) - amount);
    CreditWellFormed(Assign(t, payer, Get(t.bal, payer) - amount), members, payer, share);
  }

  lemma ChargePrefix(t: Tally, members: seq<Member>, payer: int, amount: real, share: real)
    ensures Prefix(t.order, Charge(t, members, payer, amount, share).order)
  {
    var t1 := Assign(t, payer, Get(t.bal, payer) - amount);
    AssignPrefix(t, payer, Get(t.bal, payer) - amount);
    CreditPrefix(t1, members, payer, share);
    PrefixTrans(t.order, t1.order, Credit(t1, members, payer, share).order);
  }

  lemma ChargeKeys(t: Tally, members: seq<Member>, payer: int, amount: real, share: real)
    ensures forall k :: k in Charge(t, members, payer, amount, share).bal <==>
              k in t.bal || k == payer || IsMember(members, k)
  {
    CreditKeys(Assign(t, payer, Get(t.bal, payer) - amount), members, payer, share);
  }

  lemma ChargeAt(t: Tally, members: seq<Member>, payer: int, amount: real, share: real, k: int)
    ensures Get(Charge(t, members, payer, amount, share).bal, k)
            == if k == payer then Get(t.bal, k) - amount else Get(t.bal, k) + Shares(Count(members, k), share)
  {
    CreditAt(Assign(t, payer, Get(t.bal, payer) - amount), members, payer, share, k);
  }

  lemma ApplyWellFormed(t: Tally, members: seq<Member>, groupId: int, e: Entry)
    requires |members| > 0 && WellFormed(t)
    ensures WellFormed(Apply(t, members, groupId, e))
  {
    if e.groupId == groupId {
      ChargeWellFormed(t, members, e.paidBy, e.amount, e.amount / (|members| as real));
    }
  }

  lemma ApplyPrefix(t: Tally, members: seq<Member>, groupId: int, e: Entry)
    requires |members| > 0
    ensures Prefix(t.order, Apply(t, members, groupId, e).order)
  {
    if e.groupId == groupId {
      ChargePrefix(t, members, e.paidBy, e.amount, e.amount / (|members| as real));
    } else {
      assert t.order[..|t.order|] == t.order;
    }
  }

  lemma ApplyKeys(t: Tally, members: seq<Member>, groupId: int, e: Entry)
    requires |members| > 0
    ensures forall k :: k in Apply(t, members, groupId, e).bal <==>
              k in t.bal || (e.groupId == groupId && (k == e.paidBy || IsMember(members, k)))
  {
    if e.groupId == groupId {
      ChargeKeys(t, members, e.paidBy, e.amount, e.amount / (|members| as real));
    }
  }

  /** Per-entry update: an entry of another group changes nothing; an entry
      of the group takes its amount off the payer, and adds `amount / n` to
      every other key once per time it is listed among the members. */
  lemma ApplyAt(t: Tally, members: seq<Member>, groupId: int, e: Entry, k: int)
    requires |members| > 0
    ensures e.groupId != groupId ==> Apply(t, members, groupId, e) == t
    ensures e.groupId == groupId && k == e.paidBy ==>
              Get(Apply(t, members, groupId, e).bal, k) == Get(t.bal, k) - e.amount
    ensures e.groupId == groupId && k != e.paidBy ==>
              Get(Apply(t, members, groupId, e).bal, k)
              == Get(t.bal, k) + Shares(Count(members, k), e.amount / (|members| as real))
  {
    if e.groupId == groupId {
      ChargeAt(t, members, e.paidBy, e.amount, e.amount / (|members| as real), k);
    }
  }

  /** For a group whose member ids are distinct: an entry takes its amount
      off the payer, gives `amount / n` to every other member and nothing to
      anybody else. */
  lemma ContributionOfUnique(members: seq<Member>, e: Entry, k: int)
    requires |members| > 0 && UniqueIds(members)
    ensures Contribution(members, e, k)
            == if k == e.paidBy then -e.amount
               else if IsMember(members, k) then e.amount / (|members| as real)
               else 0.0
  {
    CountOfUnique(members, k);
    assert Shares(1, e.amount / (|members| as real)) == e.amount / (|members| as real);
  }

  /** The same update for a group whose member ids are distinct: the payer
      loses the amount, other members gain `amount / n`, and every other key
      keeps its balance. */
  lemma ApplyToUniqueMembers(t: Tally, members: seq<Member>, groupId: int, e: Entry, k: int)
    requires |members| > 0 && UniqueIds(members) && e.groupId == groupId
    ensures k == e.paidBy ==> Get(Apply(t, members, groupId, e).bal, k) == Get(t.bal, k) - e.amount
    ensures k != e.paidBy && IsMember(members, k) ==>
              Get(Apply(t, members, groupId, e).bal, k) == Get(t.bal, k) + e.amount / (|members| as real)
    ensures k != e.paidBy && !IsMember(members, k) ==>
              Get(Apply(t, members, groupId, e).bal, k) == Get(t.bal, k)
  {
    ApplyAt(t, members, groupId, e, k);
    CountOfUnique(members, k);
  }

  // ---------------------------------------------------------------------
  // Step 1

  /** Zeroed on a non-empty list of members, unfolded once. */
  lemma ZeroedUnfold(members: seq<Member>)
    requires members != []
    ensures Zeroed(members) == Assign(Zeroed(members[..|members| - 1]), members[|members| - 1].id, 0.0)
  {
  }

  /** Initial state: the zeroed tally is well formed. */
  lemma {:induction false} ZeroedWellFormed(members: seq<Member>)
    ensures WellFormed(Zeroed(members))
  {
    if members != [] {
      var front := members[..|members| - 1];
      ZeroedWellFormed(front);
      ZeroedUnfold(members);
      AssignWellFormed(Zeroed(front), members[|members| - 1].id, 0.0);
    }
  }

  /** Initial state and output order: with distinct ids the members are
      listed in member order. */
  lemma {:induction false} ZeroedOrder(members: seq<Member>)
    requires UniqueIds(members)
    ensures Zeroed(members).order == Ids(members)
  {
    if members != [] {
      var front := members[..|members| - 1];
      var m := members[|members| - 1];
      LastIsNew(members);
      ZeroedOrder(front);
      ZeroedUnfold(members);
      assert Ids(members) == Ids(front) + [m.id];
    }
  }

  // ---------------------------------------------------------------------
  // The whole ledger

  lemma PayersSnoc(entries: seq<Entry>, groupId: int)
    requires |entries| > 0
    ensures var e := entries[|entries| - 1];
            Payers(entries, groupId)
            == Payers(entries[..|entries| - 1], groupId) + (if e.groupId == groupId then {e.paidBy} else {})
  {
    var front := entries[..|entries| - 1];
    assert entries == front + [entries[|entries| - 1]];
    assert forall x :: x in entries <==> x in front || x == entries[|entries| - 1];
  }

  /** Replay on a non-empty ledger, unfolded once. */
  lemma ReplayUnfold(members: seq<Member>, groupId: int, entries: seq<Entry>)
    requires |members| > 0 && entries != []
    ensures Replay(members, groupId, entries)
            == Apply(Replay(members, groupId, entries[..|entries| - 1]), members, groupId, entries[|entries| - 1])
  {
  }

  lemma {:induction false} ReplayWellFormed(members: seq<Member>, groupId: int, entries: seq<Entry>)
    requires |members| > 0
    ensures WellFormed(Replay(members, groupId, entries))
  {
    if entries == [] {
      ZeroedWellFormed(members);
    } else {
      var front := entries[..|entries| - 1];
      ReplayWellFormed(members, groupId, front);
      ReplayUnfold(members, groupId, entries);
      ApplyWellFormed(Replay(members, groupId, front), members, groupId, entries[|entries| - 1]);
    }
  }

  /** Keys are only ever appended: the members come first. */
  lemma {:induction false} ReplayPrefix(members: seq<Member>, groupId: int, entries: seq<Entry>)
    requires |members| > 0
    ensures Prefix(Zeroed(members).order, Replay(members, groupId, entries).order)
  {
    if entries == [] {
      var o := Zeroed(members).order;
      assert o[..|o|] == o;
    } else {
      var front := entries[..|entries| - 1];
      ReplayPrefix(members, groupId, front);
      ReplayUnfold(members, groupId, entries);
      ApplyPrefix(Replay(members, groupId, front), members, groupId, entries[|entries| - 1]);
      PrefixTrans(Zeroed(members).order, Replay(members, groupId, front).order, Replay(members, groupId, entries).order);
    }
  }

  /** The keys of the final tally: the members and the payers of the group's entries. */
  lemma {:induction false} ReplayKeys(members: seq<Member>, groupId: int, entries: seq<Entry>)
    requires |members| > 0
    ensures forall k :: k in Replay(members, groupId, entries).bal <==> IsMember(members, k) || k in Payers(entries, groupId)
  {
    if entries != [] {
      var front := entries[..|entries| - 1];
      ReplayKeys(members, groupId, front);
      ReplayUnfold(members, groupId, entries);
      ApplyKeys(Replay(members, groupId, front), members, groupId, entries[|entries| - 1]);
      PayersSnoc(entries, groupId);
    }
  }

  /** Each key's final balance is the sum, over the group's entries, of what
      each entry contributes to it. */
  lemma {:induction false} ReplayAt(members: seq<Member>, groupId: int, entries: seq<Entry>, k: int)
    requires |members| > 0
    ensures Get(Replay(members, groupId, entries).bal, k) == Owed(members, groupId, entries, k)
  {
    if entries != [] {
      var front := entries[..|entries| - 1];
      ReplayAt(members, groupId, front, k);
      ReplayUnfold(members, groupId, entries);
      ApplyAt(Replay(members, groupId, front), members, groupId, entries[|entries| - 1], k);
    }
  }

  // ---------------------------------------------------------------------
  // Order does not matter

  lemma {:induction false} OwedConcat(members: seq<Member>, groupId: int, a: seq<Entry>, b: seq<Entry>, k: int)
    requires |members| > 0
    ensures Owed(members, groupId, a + b, k) == Owed(members, groupId, a, k) + Owed(members, groupId, b, k)
  {
    if b == [] {
      assert a + b == a;
    } else {
      var front := b[..|b| - 1];
      assert (a + b)[..|a + b| - 1] == a + front;
      OwedConcat(members, groupId, a, front, k);
    }
  }

  /** The last entry of `a` stands somewhere in its permutation `b`; the
      rest of `a` is a permutation of `b` without it. */
  lemma PickLast(a: seq<Entry>, b: seq<Entry>) returns (i: nat)
    requires a != [] && multiset(a) == multiset(b)
    ensures i < |b| && b[i] == a[|a| - 1]
    ensures multiset(a[..|a| - 1]) == multiset(b[..i] + b[i + 1..])
  {
    var x := a[|a| - 1];
    assert a == a[..|a| - 1] + [x];
    assert x in multiset(b);
    i :| 0 <= i < |b| && b[i] == x;
    assert b == b[..i] + [x] + b[i + 1..];
    assert multiset(a[..|a| - 1]) == multiset(a) - multiset{x};
    assert multiset(b[..i] + b[i + 1..]) == multiset(b) - multiset{x};
  }

  /** The contribution of one entry can be taken out of the sum wherever the
      entry stands. */
  lemma OwedRemove(members: seq<Member>, groupId: int, b: seq<Entry>, i: nat, k: int)
    requires |members| > 0 && i < |b|
    ensures Owed(members, groupId, b, k)
            == Owed(members, groupId, b[..i] + b[i + 1..], k)
               + (if b[i].groupId == groupId then Contribution(members, b[i], k) else 0.0)
  {
    var left, right := b[..i], b[i + 1..];
    assert b == (left + [b[i]]) + right;
    OwedConcat(members, groupId, left + [b[i]], right, k);
    OwedSnoc(members, groupId, left, b[i], k);
    OwedConcat(members, groupId, left, right, k);
  }

  /** One more entry at the end adds its contribution. */
  lemma OwedSnoc(members: seq<Member>, groupId: int, a: seq<Entry>, e: Entry, k: int)
    requires |members| > 0
    ensures Owed(members, groupId, a + [e], k)
            == Owed(members, groupId, a, k) + (if e.groupId == groupId then Contribution(members, e, k) else 0.0)
  {
    assert (a + [e])[..|a|] == a;
  }

  lemma {:induction false} OwedPermutation(members: seq<Member>, groupId: int, a: seq<Entry>, b: seq<Entry>, k: int)
    requires |members| > 0
    requires multiset(a) == multiset(b)
    ensures Owed(members, groupId, a, k) == Owed(members, groupId, b, k)
  {
    if a == [] {
      assert |multiset(b)| == 0;
    } else {
      var i := PickLast(a, b);
      OwedPermutation(members, groupId, a[..|a| - 1], b[..i] + b[i + 1..], k);
      OwedRemove(members, groupId, b, i, k);
    }
  }

  lemma PayersPermutation(a: seq<Entry>, b: seq<Entry>, groupId: int)
    requires multiset(a) == multiset(b)
    ensures Payers(a, groupId) == Payers(b, groupId)
  {
    forall e ensures e in a <==> e in b {
      assert e in a <==> e in multiset(a);
      assert e in b <==> e in multiset(b);
    }
  }

  /** Order does not matter: replaying a permutation of the ledger gives the
      same balance for every key. */
  lemma ReplayPermutation(members: seq<Member>, groupId: int, a: seq<Entry>, b: seq<Entry>)
    requires |members| > 0
    requires multiset(a) == multiset(b)
    ensures Replay(members, groupId, a).bal == Replay(members, groupId, b).bal
  {
    var ba, bb := Replay(members, groupId, a).bal, Replay(members, groupId, b).bal;
    ReplayKeys(members, groupId, a);
    ReplayKeys(members, groupId, b);
    PayersPermutation(a, b, groupId);
    assert forall k :: k in ba <==> k in bb;
    forall k | k in ba ensures ba[k] == bb[k] {
      ReplayAt(members, groupId, a, k);
      ReplayAt(members, groupId, b, k);
      OwedPermutation(members, groupId, a, b, k);
    }
  }

  // ---------------------------------------------------------------------
  // The report

  /** An unknown group is not found; a group without members reports that
      rather than a list; any other group gets a report. */
  lemma BalanceOutcomes(groups: seq<Group>, entries: seq<Entry>, groupId: int)
    ensures GroupBalances(groups, entries, groupId).GroupNotFound?
            <==> forall i :: 0 <= i < |groups| ==> groups[i].id != groupId
    ensures GroupBalances(groups, entries, groupId).NoMembers?
            <==> FirstGroup(groups, groupId).Some? && |FirstGroup(groups, groupId).value.members| == 0
  {
  }

  /** The rows of members, for a group with distinct member ids: row `i` is
      member `i`, with that member's name. */
  lemma MemberRows(members: seq<Member>, groupId: int, entries: seq<Entry>)
    requires |members| > 0 && UniqueIds(members)
    ensures var t := Replay(members, groupId, entries);
            && |members| <= |t.order|
            && forall i :: 0 <= i < |members| ==>
                 t.order[i] == members[i].id && NameOf(members, t.order[i]) == Some(members[i].name)
  {
    var t := Replay(members, groupId, entries);
    ReplayPrefix(members, groupId, entries);
    ZeroedOrder(members);
    forall i | 0 <= i < |members|
      ensures t.order[i] == members[i].id && NameOf(members, t.order[i]) == Some(members[i].name)
    {
      assert t.order[i] == t.order[..|members|][i];
      NameOfUnique(members, i);
    }
  }

  /** The rows after the members, for a group with distinct member ids: each
      is a payer of the group who is not a member, and has no name. */
  lemma PayerRows(members: seq<Member>, groupId: int, entries: seq<Entry>)
    requires |members| > 0 && UniqueIds(members)
    ensures var t := Replay(members, groupId, entries);
            forall i :: |members| <= i < |t.order| ==>
              !IsMember(members, t.order[i]) && t.order[i] in Payers(entries, groupId)
  {
    var t := Replay(members, groupId, entries);
    MemberRows(members, groupId, entries);
    ReplayWellFormed(members, groupId, entries);
    ReplayKeys(members, groupId, entries);
    forall i | |members| <= i < |t.order|
      ensures !IsMember(members, t.order[i]) && t.order[i] in Payers(entries, groupId)
    {
      IsMemberIndex(members, t.order[i]);
      forall j | 0 <= j < |members| ensures members[j].id != t.order[i] {
        DistinctIndex(t.order, j, i);
      }
    }
  }

  /** Conversely, for a group with distinct member ids, every payer of the
      group who is not a member has a key after the members. */
  lemma OutsiderKeys(members: seq<Member>, groupId: int, entries: seq<Entry>, k: int)
    requires |members| > 0 && UniqueIds(members)
    requires k in Payers(entries, groupId) && !IsMember(members, k)
    ensures var t := Replay(members, groupId, entries);
            exists i :: |members| <= i < |t.order| && t.order[i] == k
  {
    var t := Replay(members, groupId, entries);
    ReplayKeys(members, groupId, entries);
    ReplayWellFormed(members, groupId, entries);
    MemberRows(members, groupId, entries);
    IsMemberIndex(members, k);
    var i :| 0 <= i < |t.order| && t.order[i] == k;
    assert |members| <= i;
  }

  /** Every payer of the group who is not a member gets a row of its own
      after the member rows, with no name. */
  lemma OutsiderRows(groups: seq<Group>, entries: seq<Entry>, groupId: int, g: Group)
    requires FirstGroup(groups, groupId) == Some(g)
    requires |g.members| > 0 && UniqueIds(g.members)
    ensures GroupBalances(groups, entries, groupId).Report?
    ensures var rows := GroupBalances(groups, entries, groupId).rows;
            forall k :: k in Payers(entries, groupId) && !IsMember(g.members, k) ==>
              exists i :: |g.members| <= i < |rows| && rows[i].memberId == k && rows[i].memberName == None
  {
    var ms := g.members;
    var t := Replay(ms, groupId, entries);
    var rows := GroupBalances(groups, entries, groupId).rows;
    forall k | k in Payers(entries, groupId) && !IsMember(ms, k)
      ensures exists i :: |ms| <= i < |rows| && rows[i].memberId == k && rows[i].memberName == None
    {
      OutsiderKeys(ms, groupId, entries, k);
      var i :| |ms| <= i < |t.order| && t.order[i] == k;
      assert rows[i] == BalanceRow(k, NameOf(ms, k), Get(t.bal, k));
    }
  }

  /** The report of a group with distinct member ids: it begins with one row
      per member, in member order, with the member's name; after them come
      the payers who are not members, each once and with no name, and every
      such payer is among them; every row's balance is its closed-form sum
      over the ledger. */
  lemma ReportLayout(groups: seq<Group>, entries: seq<Entry>, groupId: int, g: Group)
    requires FirstGroup(groups, groupId) == Some(g)
    requires |g.members| > 0 && UniqueIds(g.members)
    ensures GroupBalances(groups, entries, groupId).Report?
    ensures var rows := GroupBalances(groups, entries, groupId).rows;
            && |g.members| <= |rows|
            && (forall i :: 0 <= i < |g.members| ==>
                  rows[i].memberId == g.members[i].id && rows[i].memberName == Some(g.members[i].name))
            && (forall i :: |g.members| <= i < |rows| ==>
                  rows[i].memberName == None && !IsMember(g.members, rows[i].memberId)
                  && rows[i].memberId in Payers(entries, groupId))
            && (forall i, j :: 0 <= i < j < |rows| ==> rows[i].memberId != rows[j].memberId)
            && (forall i :: 0 <= i < |rows| ==> rows[i].balance == Owed(g.members, groupId, entries, rows[i].memberId))
            && (forall k :: k in Payers(entries, groupId) && !IsMember(g.members, k) ==>
                  exists i :: |g.members| <= i < |rows| && rows[i].memberId == k && rows[i].memberName == None)
  {
    OutsiderRows(groups, entries, groupId, g);
    var ms := g.members;
    var t := Replay(ms, groupId, entries);
    MemberRows(ms, groupId, entries);
    PayerRows(ms, groupId, entries);
    ReplayWellFormed(ms, groupId, entries);
    forall i, j | 0 <= i < j < |t.order| ensures t.order[i] != t.order[j] {
      DistinctIndex(t.order, i, j);
    }
    forall k ensures Get(t.bal, k) == Owed(ms, groupId, entries, k) {
      ReplayAt(ms, groupId, entries, k);
    }
  }

  /** Two well-formed tallies with the same map list the same rows, whatever
      the order of their keys. */
  lemma SameRows(members: seq<Member>, ta: Tally, tb: Tally)
    requires WellFormed(ta) && WellFormed(tb) && ta.bal == tb.bal
    ensures forall row :: row in Rows(members, ta.order, ta.bal) <==> row in Rows(members, tb.order, tb.bal)
  {
    var ra, rb := Rows(members, ta.order, ta.bal), Rows(members, tb.order, tb.bal);
    forall row | row in ra ensures row in rb {
      var i :| 0 <= i < |ra| && ra[i] == row;
      assert ta.order[i] in tb.bal;
      var j :| 0 <= j < |tb.order| && tb.order[j] == ta.order[i];
      assert rb[j] == row;
    }
    forall row | row in rb ensures row in ra {
      var i :| 0 <= i < |rb| && rb[i] == row;
      assert tb.order[i] in ta.bal;
      var j :| 0 <= j < |ta.order| && ta.order[j] == tb.order[i];
      assert ra[j] == row;
    }
  }

  /** Order does not matter for the report: permuting the ledger keeps every
      row (only the order of the rows of non-member payers can change), and
      for a group with distinct member ids the member rows stay where they are. */
  lemma ReportPermutation(groups: seq<Group>, a: seq<Entry>, b: seq<Entry>, groupId: int, g: Group)
    requires FirstGroup(groups, groupId) == Some(g) && |g.members| > 0
    requires multiset(a) == multiset(b)
    ensures GroupBalances(groups, a, groupId).Report? && GroupBalances(groups, b, groupId).Report?
    ensures forall row :: row in GroupBalances(groups, a, groupId).rows <==> row in GroupBalances(groups, b, groupId).rows
    ensures UniqueIds(g.members) ==>
              && |g.members| <= |GroupBalances(groups, a, groupId).rows|
              && |g.members| <= |GroupBalances(groups, b, groupId).rows|
              && GroupBalances(groups, a, groupId).rows[..|g.members|] == GroupBalances(groups, b, groupId).rows[..|g.members|]
  {
    var ms := g.members;
    var ta, tb := Replay(ms, groupId, a), Replay(ms, groupId, b);
    ReplayPermutation(ms, groupId, a, b);
    ReplayWellFormed(ms, groupId, a);
    ReplayWellFormed(ms, groupId, b);
    SameRows(ms, ta, tb);
    var ra, rb := Rows(ms, ta.order, ta.bal), Rows(ms, tb.order, tb.bal);
    if UniqueIds(ms) {
      MemberRows(ms, groupId, a);
      MemberRows(ms, groupId, b);
      assert ra[..|ms|] == rb[..|ms|];
    }
  }
}
