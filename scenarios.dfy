/** Worked examples over the seeded groups: what the balance report says for
    small ledgers of Group 1 (members 1 Aliya, 2 Buhan, 3 Cheeti). */
module Scenarios {
  import opened Domain
  import opened GroupStore
  import opened Settlement
  import opened SettlementFacts

  function GroupOne(): seq<Member> { SeedGroups()[0].members }

  /** Group 1 has three members with the distinct ids 1, 2 and 3. */
  lemma GroupOneMembers(k: int)
    ensures |GroupOne()| == 3 && UniqueIds(GroupOne())
    ensures IsMember(GroupOne(), k) <==> 1 <= k <= 3
  {
    var ms := GroupOne();
    SeedLookup(1);
    assert ms[0].id == 1 && ms[1].id == 2 && ms[2].id == 3;
    IsMemberIndex(ms, k);
  }

  /** What one entry of Group 1 adds to the balance of `k`. */
  lemma GroupOneContribution(e: Entry, k: int)
    ensures Contribution(GroupOne(), e, k)
            == if k == e.paidBy then -e.amount
               else if 1 <= k <= 3 then e.amount / 3.0
               else 0.0
  {
    GroupOneMembers(k);
    ContributionOfUnique(GroupOne(), e, k);
  }

  /** The report of Group 1 when every payer of its entries is a member: one
      row per member, in member order, each holding its closed-form balance. */
  lemma GroupOneReport(entries: seq<Entry>)
    requires forall k :: k in Payers(entries, 1) ==> 1 <= k <= 3
    ensures GroupBalances(SeedGroups(), entries, 1)
            == Report([BalanceRow(1, Some("Aliya"), Owed(GroupOne(), 1, entries, 1)),
                       BalanceRow(2, Some("Buhan"), Owed(GroupOne(), 1, entries, 2)),
                       BalanceRow(3, Some("Cheeti"), Owed(GroupOne(), 1, entries, 3))])
  {
    var gs := SeedGroups();
    SeedLookup(1);
    ReportLayout(gs, entries, 1, gs[0]);
    var rows := GroupBalances(gs, entries, 1).rows;
    if |rows| > 3 {
      GroupOneMembers(rows[3].memberId);
    }
  }

  /** The keys of Group 1's tally when one payer of its entries, `x`, is not
      a member: the three members, then `x`. */
  lemma GroupOneOrderWith(entries: seq<Entry>, x: int)
    requires !(1 <= x <= 3) && x in Payers(entries, 1)
    requires forall k :: k in Payers(entries, 1) ==> 1 <= k <= 3 || k == x
    ensures Replay(GroupOne(), 1, entries).order == [1, 2, 3, x]
  {
    var ms := GroupOne();
    var t := Replay(ms, 1, entries);
    GroupOneMembers(x);
    MemberRows(ms, 1, entries);
    PayerRows(ms, 1, entries);
    ReplayKeys(ms, 1, entries);
    ReplayWellFormed(ms, 1, entries);
    var i :| 0 <= i < |t.order| && t.order[i] == x;
    forall j | 3 <= j < |t.order| ensures t.order[j] == x {
      GroupOneMembers(t.order[j]);
    }
    if |t.order| > 4 {
      DistinctIndex(t.order, 3, 4);
    }
  }

  /** The report of Group 1 when one payer of its entries, `x`, is not a
      member: the three member rows, then one row for `x`, with no name. */
  lemma GroupOneReportWith(entries: seq<Entry>, x: int)
    requires !(1 <= x <= 3) && x in Payers(entries, 1)
    requires forall k :: k in Payers(entries, 1) ==> 1 <= k <= 3 || k == x
    ensures GroupBalances(SeedGroups(), entries, 1)
            == Report([BalanceRow(1, Some("Aliya"), Owed(GroupOne(), 1, entries, 1)),
                       BalanceRow(2, Some("Buhan"), Owed(GroupOne(), 1, entries, 2)),
                       BalanceRow(3, Some("Cheeti"), Owed(GroupOne(), 1, entries, 3)),
                       BalanceRow(x, None, Owed(GroupOne(), 1, entries, x))])
  {
    var gs, ms := SeedGroups(), GroupOne();
    SeedLookup(1);
    GroupOneMembers(x);
    ReportLayout(gs, entries, 1, gs[0]);
    GroupOneOrderWith(entries, x);
  }

  /** The sum of a report of three rows. */
  lemma SumOfThree(a: BalanceRow, b: BalanceRow, c: BalanceRow)
    ensures SumBalances([a, b, c]) == a.balance + b.balance + c.balance
  {
    assert [a, b, c][..2] == [a, b] && [a, b][..1] == [a] && [a][..0] == [];
    assert SumBalances([a]) == a.balance;
    assert SumBalances([a, b]) == a.balance + b.balance;
  }

  /** 90 paid by Aliya: she is charged the whole 90 and gets no share back,
      the two others owe 30 each, and the report sums to -30, not to 0. */
  lemma AliyaPaysNinety()
    ensures GroupBalances(SeedGroups(), [Entry(1, 1, 90.0)], 1)
            == Report([BalanceRow(1, Some("Aliya"), -90.0),
                       BalanceRow(2, Some("Buhan"), 30.0),
                       BalanceRow(3, Some("Cheeti"), 30.0)])
    ensures SumBalances(GroupBalances(SeedGroups(), [Entry(1, 1, 90.0)], 1).rows) == -30.0
  {
    var es := [Entry(1, 1, 90.0)];
    assert Payers(es, 1) == {1};
    GroupOneReport(es);
    assert es[..0] == [];
    GroupOneContribution(es[0], 1);
    GroupOneContribution(es[0], 2);
    GroupOneContribution(es[0], 3);
    SumOfThree(BalanceRow(1, Some("Aliya"), -90.0), BalanceRow(2, Some("Buhan"), 30.0), BalanceRow(3, Some("Cheeti"), 30.0));
  }

  /** The ledger of the next example, and each member's closed-form balance. */
  function BuhanLedger(): seq<Entry> { [Entry(1, 1, 90.0), Entry(2, 4, 60.0), Entry(1, 2, 30.0)] }

  lemma BuhanLedgerOwed(k: int)
    requires 1 <= k <= 3
    ensures Owed(GroupOne(), 1, BuhanLedger(), k) == if k == 1 then -80.0 else if k == 2 then 0.0 else 40.0
  {
    var ms, es := GroupOne(), BuhanLedger();
    assert es[..2] == [Entry(1, 1, 90.0), Entry(2, 4, 60.0)];
    assert es[..2][..1] == [Entry(1, 1, 90.0)] && es[..2][..1][..0] == [];
    assert Owed(ms, 1, es[..2], k) == Owed(ms, 1, es[..2][..1], k);
    GroupOneContribution(es[0], k);
    GroupOneContribution(es[2], k);
  }

  /** Then an entry of Group 2, which Group 1 ignores, and 30 paid by Buhan:
      Aliya is at -80, Buhan at 0, Cheeti at 40. */
  lemma BuhanPaysThirty()
    ensures GroupBalances(SeedGroups(), BuhanLedger(), 1)
            == Report([BalanceRow(1, Some("Aliya"), -80.0),
                       BalanceRow(2, Some("Buhan"), 0.0),
                       BalanceRow(3, Some("Cheeti"), 40.0)])
  {
    var es := BuhanLedger();
    assert Payers(es, 1) == {1, 2};
    GroupOneReport(es);
    BuhanLedgerOwed(1);
    BuhanLedgerOwed(2);
    BuhanLedgerOwed(3);
  }

  /** A payment recorded in Group 1 from Harh (member 7 of Group 3): each of
      the three members gains 10, and the report has a fourth row, with no
      name, where Harh is charged 30. */
  lemma OutsiderPays()
    ensures GroupBalances(SeedGroups(), [Entry(1, 7, 30.0)], 1)
            == Report([BalanceRow(1, Some("Aliya"), 10.0),
                       BalanceRow(2, Some("Buhan"), 10.0),
                       BalanceRow(3, Some("Cheeti"), 10.0),
                       BalanceRow(7, None, -30.0)])
  {
    var es := [Entry(1, 7, 30.0)];
    assert Payers(es, 1) == {7};
    GroupOneReportWith(es, 7);
    assert es[..0] == [];
    GroupOneContribution(es[0], 1);
    GroupOneContribution(es[0], 2);
    GroupOneContribution(es[0], 3);
    GroupOneContribution(es[0], 7);
  }

  /** No group has id 4. */
  lemma NoGroupFour()
    ensures GroupBalances(SeedGroups(), [Entry(1, 1, 90.0)], 4) == GroupNotFound
  {
    SeedLookup(4);
  }
}
