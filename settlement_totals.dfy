/** How far the balances are from summing to zero: the sum of the tally
    after each step of the computation, and the sum of a report. */
module SettlementTotals {
  import opened Domain
  import opened GroupStore
  import opened Settlement
  import opened SettlementFacts

  // ---------------------------------------------------------------------
  // Sums over keys

  lemma {:induction false} TotalUpdate(ks: seq<int>, bal: map<int, real>, k: int, v: real)
    requires Distinct(ks)
    ensures Total(ks, bal[k := v]) == Total(ks, bal) + (if k in ks then v - Get(bal, k) else 0.0)
  {
    if ks != [] {
      var front := ks[..|ks| - 1];
      assert forall x :: x in ks <==> x in front || x == ks[|ks| - 1];
      TotalUpdate(front, bal, k, v);
    }
  }

  lemma TotalSnoc(ks: seq<int>, bal: map<int, real>, k: int)
    ensures Total(ks + [k], bal) == Total(ks, bal) + Get(bal, k)
  {
    assert (ks + [k])[..|ks|] == ks;
  }

  /** Writing `Get(k) + d` at `k` moves the sum by `d`, whether or not `k`
      was already a key. */
  lemma AssignTotal(t: Tally, k: int, d: real, v: real)
    requires WellFormed(t) && v == Get(t.bal, k) + d
    ensures Total(Assign(t, k, v).order, Assign(t, k, v).bal) == Total(t.order, t.bal) + d
  {
    TotalUpdate(t.order, t.bal, k, v);
    if k !in t.bal {
      TotalSnoc(t.order, t.bal[k := v], k);
    }
  }

  /** Initial state: the zeroed tally sums to 0. */
  lemma {:induction false} ZeroedTotal(members: seq<Member>)
    ensures Total(Zeroed(members).order, Zeroed(members).bal) == 0.0
  {
    if members != [] {
      var front := members[..|members| - 1];
      ZeroedTotal(front);
      ZeroedWellFormed(front);
      ZeroedUnfold(members);
      AssignTotal(Zeroed(front), members[|members| - 1].id, 0.0, 0.0);
    }
  }

  // ---------------------------------------------------------------------
  // The inner loop

  /** One more member adds one to the number of shares handed out, unless
      it is the payer. */
  lemma SharesStep(members: seq<Member>, payer: int, share: real)
    requires members != []
    ensures var front := members[..|members| - 1];
            Shares(|members| - Count(members, payer), share)
            == Shares(|front| - Count(front, payer), share) + (if members[|members| - 1].id != payer then share else 0.0)
  {
    var front := members[..|members| - 1];
    if members[|members| - 1].id != payer {
      assert |members| - Count(members, payer) == |front| - Count(front, payer) + 1;
    } else {
      assert |members| - Count(members, payer) == |front| - Count(front, payer);
    }
  }

  /** An iteration of the inner loop on a member other than the payer raises
      the sum by one share. */
  lemma CreditTotalOther(t: Tally, members: seq<Member>, payer: int, share: real)
    requires members != [] && members[|members| - 1].id != payer
    requires WellFormed(Credit(t, members[..|members| - 1], payer, share))
    ensures var t0 := Credit(t, members[..|members| - 1], payer, share);
            var t' := Credit(t, members, payer, share);
            Total(t'.order, t'.bal) == Total(t0.order, t0.bal) + share
  {
    var t0 := Credit(t, members[..|members| - 1], payer, share);
    var m := members[|members| - 1];
    assert Credit(t, members, payer, share) == Assign(t0, m.id, Get(t0.bal, m.id) + share);
    AssignTotal(t0, m.id, share, Get(t0.bal, m.id) + share);
  }

  /** The inner loop raises the sum by one share per listed member other
      than the payer. */
  lemma {:induction false} CreditTotal(t: Tally, members: seq<Member>, payer: int, share: real)
    requires WellFormed(t)
    ensures var t' := Credit(t, members, payer, share);
            Total(t'.order, t'.bal) == Total(t.order, t.bal) + Shares(|members| - Count(members, payer), share)
  {
    if members != [] {
      var front := members[..|members| - 1];
      CreditTotal(t, front, payer, share);
      CreditWellFormed(t, front, payer, share);
      SharesStep(members, payer, share);
      if members[|members| - 1].id != payer {
        CreditTotalOther(t, members, payer, share);
      }
    }
  }

  // ---------------------------------------------------------------------
  // One entry

  /** Sum is not zero: an entry of the group lowers the sum of all balances by
      one share per time its payer is listed among the members. */
  lemma ApplyTotal(t: Tally, members: seq<Member>, groupId: int, e: Entry)
    requires |members| > 0 && WellFormed(t)
    ensures var t' := Apply(t, members, groupId, e);
            Total(t'.order, t'.bal) == Total(t.order, t.bal)
              - (if e.groupId == groupId then Shares(Count(members, e.paidBy), e.amount / (|members| as real)) else 0.0)
  {
    if e.groupId == groupId {
      SplitTotal(t, members, e);
    }
  }

  /** The sum after one entry of the group, for the share the handler
      computes, `amount / n`. SplitTotal, SharesOfEntry and SettleTotal are
      one step, ChargeTotal at `share := amount / n`, split in three so that
      the division stays in a small proof obligation of its own. */
  lemma SplitTotal(t: Tally, members: seq<Member>, e: Entry)
    requires |members| > 0 && WellFormed(t)
    ensures var t2 := Charge(t, members, e.paidBy, e.amount, e.amount / (|members| as real));
            Total(t2.order, t2.bal) == Total(t.order, t.bal) - Shares(Count(members, e.paidBy), e.amount / (|members| as real))
  {
    SharesOfEntry(members, e);
    SettleTotal(t, members, e);
  }

  /** The `n` shares of an entry add up to its amount. */
  lemma SharesOfEntry(members: seq<Member>, e: Entry)
    requires |members| > 0
    ensures Shares(|members|, e.amount / (|members| as real)) == e.amount
  {
    SharesOfSplit(|members|, e.amount);
  }

  /** ChargeTotal at `share := amount / n`. It takes the entry whole, so that
      the division is one term; SplitTotal supplies its premise. */
  lemma SettleTotal(t: Tally, members: seq<Member>, e: Entry)
    requires |members| > 0 && WellFormed(t)
    requires Shares(|members|, e.amount / (|members| as real)) == e.amount
    ensures var t2 := Charge(t, members, e.paidBy, e.amount, e.amount / (|members| as real));
            Total(t2.order, t2.bal) == Total(t.order, t.bal) - Shares(Count(members, e.paidBy), e.amount / (|members| as real))
  {
    ChargeTotal(t, members, e.paidBy, e.amount, e.amount / (|members| as real));
  }

  /** The payer's debit is the whole amount, the credits are the shares of
      everybody but the payer; when all the shares together make up the
      amount, the sum drops by the payer's own shares. */
  lemma ChargeTotal(t: Tally, members: seq<Member>, payer: int, amount: real, share: real)
    requires WellFormed(t) && Shares(|members|, share) == amount
    ensures var t2 := Charge(t, members, payer, amount, share);
            Total(t2.order, t2.bal) == Total(t.order, t.bal) - Shares(Count(members, payer), share)
  {
    DebitThenCredit(t, members, payer, amount, share);
    SharesOfOthers(members, payer, share);
  }

  /** The payer's debit lowers the sum by the whole amount; the inner loop
      then raises it by one share per listed member other than the payer. */
  lemma DebitThenCredit(t: Tally, members: seq<Member>, payer: int, amount: real, share: real)
    requires WellFormed(t)
    ensures var t2 := Charge(t, members, payer, amount, share);
            Total(t2.order, t2.bal) == Total(t.order, t.bal) - amount + Shares(|members| - Count(members, payer), share)
  {
    DebitTotal(t, payer, amount);
    CreditAfterDebit(t, members, payer, amount, share);
  }

  /** The shares of the members other than the payer and the payer's own
      shares make up the shares of all the members. */
  lemma SharesOfOthers(members: seq<Member>, payer: int, share: real)
    ensures Shares(|members| - Count(members, payer), share) + Shares(Count(members, payer), share)
            == Shares(|members|, share)
  {
    SharesRest(|members|, Count(members, payer), share);
  }

  /** The payer's debit lowers the sum by the whole amount. */
  lemma DebitTotal(t: Tally, payer: int, amount: real)
    requires WellFormed(t)
    ensures var t1 := Assign(t, payer, Get(t.bal, payer) - amount);
            Total(t1.order, t1.bal) == Total(t.order, t.bal) - amount
  {
    AssignTotal(t, payer, -amount, Get(t.bal, payer) - amount);
  }

  /** After the debit, the inner loop adds the shares of everybody but the payer. */
  lemma CreditAfterDebit(t: Tally, members: seq<Member>, payer: int, amount: real, share: real)
    requires WellFormed(t)
    ensures var t1 := Assign(t, payer, Get(t.bal, payer) - amount);
            var t2 := Credit(t1, members, payer, share);
            Total(t2.order, t2.bal) == Total(t1.order, t1.bal) + Shares(|members| - Count(members, payer), share)
  {
    AssignWellFormed(t, payer, Get(t.bal, payer) - amount);
    CreditTotal(Assign(t, payer, Get(t.bal, payer) - amount), members, payer, share);
  }

  /** For a group with distinct member ids: an entry paid by a member lowers
      the sum by exactly `amount / n` (90 paid by one of three members gives
      -90, 30, 30); one paid by a non-member leaves the sum where it was. */
  lemma EntryShiftsTotal(t: Tally, members: seq<Member>, groupId: int, e: Entry)
    requires |members| > 0 && WellFormed(t) && UniqueIds(members) && e.groupId == groupId
    ensures var t' := Apply(t, members, groupId, e);
            Total(t'.order, t'.bal) == Total(t.order, t.bal)
              - (if IsMember(members, e.paidBy) then e.amount / (|members| as real) else 0.0)
  {
    ApplyTotal(t, members, groupId, e);
    CountOfUnique(members, e.paidBy);
  }

  // ---------------------------------------------------------------------
  // The whole ledger and the report

  lemma {:induction false} ReplayTotal(members: seq<Member>, groupId: int, entries: seq<Entry>)
    requires |members| > 0
    ensures var t := Replay(members, groupId, entries);
            Total(t.order, t.bal) == Drift(members, groupId, entries)
  {
    if entries == [] {
      ZeroedTotal(members);
    } else {
      var front := entries[..|entries| - 1];
      ReplayTotal(members, groupId, front);
      ReplayWellFormed(members, groupId, front);
      ReplayUnfold(members, groupId, entries);
      ApplyTotal(Replay(members, groupId, front), members, groupId, entries[|entries| - 1]);
    }
  }

  lemma {:induction false} SumOfRows(members: seq<Member>, order: seq<int>, bal: map<int, real>)
    ensures SumBalances(Rows(members, order, bal)) == Total(order, bal)
  {
    if order != [] {
      var front := order[..|order| - 1];
      SumOfRows(members, front, bal);
      var rows := Rows(members, order, bal);
      assert rows[..|rows| - 1] == Rows(members, front, bal);
    }
  }

  /** Sum is not zero: the balances of a report add up to the drift, minus one
      share per entry of the group per listing of its payer among the members. */
  lemma ReportTotal(groups: seq<Group>, entries: seq<Entry>, groupId: int, g: Group)
    requires FirstGroup(groups, groupId) == Some(g) && |g.members| > 0
    ensures GroupBalances(groups, entries, groupId).Report?
    ensures SumBalances(GroupBalances(groups, entries, groupId).rows) == Drift(g.members, groupId, entries)
  {
    var t := Replay(g.members, groupId, entries);
    SumOfRows(g.members, t.order, t.bal);
    ReplayTotal(g.members, groupId, entries);
  }

  /** With distinct member ids the drift is one share for each entry of the
      group whose payer is a member. */
  lemma {:induction false} DriftOfUnique(members: seq<Member>, groupId: int, entries: seq<Entry>)
    requires |members| > 0 && UniqueIds(members)
    ensures Drift(members, groupId, entries) == -Leak(members, groupId, entries)
  {
    if entries != [] {
      var e := entries[|entries| - 1];
      DriftOfUnique(members, groupId, entries[..|entries| - 1]);
      CountOfUnique(members, e.paidBy);
      assert Shares(1, e.amount / (|members| as real)) == e.amount / (|members| as real);
    }
  }
}
