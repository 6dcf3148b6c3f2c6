/** The state of the API (the seeded `$groups` and the growing `$expenses`)
    and the three handlers that use it: POST /expense, POST /payment and
    GET /group/{group_id}/balances. A `Ledger` object keeps `expenses` from
    one handler call to the next, as a runtime that keeps the script's
    globals alive between requests would; a plain PHP process starts every
    request from the top of the script, with `$expenses` empty again. */
module Api {
  import opened Domain
  import opened GroupStore
  import opened Settlement

  /** What POST /expense answers (index.php:142-153): the three fields must be
      present and non-zero, the group must exist, then the payer must be one
      of its members. */
  function ExpenseOutcome(groups: seq<Group>, groupId: Option<int>, paidBy: Option<int>, amount: Option<real>): (s: Status)
    ensures s == MissingFields <==> !(GivenId(groupId) && GivenId(paidBy) && GivenAmount(amount))
    ensures s == UnknownGroup <==>
              GivenId(groupId) && GivenId(paidBy) && GivenAmount(amount) && FirstGroup(groups, groupId.value).None?
    ensures s == MemberNotInGroup <==>
              && GivenId(groupId) && GivenId(paidBy) && GivenAmount(amount)
              && FirstGroup(groups, groupId.value).Some?
              && !IsMember(FirstGroup(groups, groupId.value).value.members, paidBy.value)
    ensures s == Recorded <==>
              && GivenId(groupId) && GivenId(paidBy) && GivenAmount(amount)
              && FirstGroup(groups, groupId.value).Some?
              && IsMember(FirstGroup(groups, groupId.value).value.members, paidBy.value)
  {
    if !(GivenId(groupId) && GivenId(paidBy) && GivenAmount(amount)) then MissingFields
    else
      match FirstGroup(groups, groupId.value)
      case None => UnknownGroup
      case Some(g) => if IsMember(g.members, paidBy.value) then Recorded else MemberNotInGroup
  }

  /** What POST /payment answers (index.php:117-124): the four fields must be
      present and non-zero and the group must exist; nobody's membership is
      checked, so a payment is never refused for that reason. */
  function PaymentOutcome(groups: seq<Group>, fromMember: Option<int>, toMember: Option<int>,
                          amount: Option<real>, groupId: Option<int>): (s: Status)
    ensures s != MemberNotInGroup
    ensures s == MissingFields <==>
              !(GivenId(fromMember) && GivenId(toMember) && GivenAmount(amount) && GivenId(groupId))
    ensures s == UnknownGroup <==>
              && GivenId(fromMember) && GivenId(toMember) && GivenAmount(amount) && GivenId(groupId)
              && FirstGroup(groups, groupId.value).None?
    ensures s == Recorded <==>
              && GivenId(fromMember) && GivenId(toMember) && GivenAmount(amount) && GivenId(groupId)
              && FirstGroup(groups, groupId.value).Some?
  {
    if !(GivenId(fromMember) && GivenId(toMember) && GivenAmount(amount) && GivenId(groupId)) then MissingFields
    else if FirstGroup(groups, groupId.value).None? then UnknownGroup
    else Recorded
  }

  /** An entry that one of the recording handlers can have appended: its
      group exists and none of its fields is zero. */
  ghost predicate Recordable(groups: seq<Group>, e: Entry) {
    && e.groupId != 0 && e.paidBy != 0 && e.amount != 0.0
    && FirstGroup(groups, e.groupId).Some?
  }

  class Ledger {
    /** `$groups`: the seeded list, never written. */
    const groups: seq<Group>
    /** `$expenses`: expenses and payments, in the order they were recorded. */
    var expenses: seq<Entry>

    ghost predicate Valid()
      reads this
    {
      forall i :: 0 <= i < |expenses| ==> Recordable(groups, expenses[i])
    }

    /** index.php:14-44: the three seeded groups and an empty ledger. */
    constructor()
      ensures groups == SeedGroups() && expenses == []
      ensures Valid()
    {
      groups := SeedGroups();
      expenses := [];
    }

    /** POST /expense (index.php:136-162): validate, then append one entry at
        the end; a refused request leaves the ledger as it was. */
    method RecordExpense(groupId: Option<int>, paidBy: Option<int>, amount: Option<real>) returns (s: Status)
      requires Valid()
      modifies this
      ensures Valid()
      ensures s == ExpenseOutcome(groups, groupId, paidBy, amount)
      ensures expenses == if s == Recorded then old(expenses) + [Entry(groupId.value, paidBy.value, amount.value)]
                          else old(expenses)
    {
      if !(GivenId(groupId) && GivenId(paidBy) && GivenAmount(amount)) {
        return MissingFields;
      }
      var group := FindGroupById(groupId.value, groups);
      if group.None? {
        return UnknownGroup;
      }
      if !IsMember(group.value.members, paidBy.value) {
        return MemberNotInGroup;
      }
      expenses := expenses + [Entry(groupId.value, paidBy.value, amount.value)];
      return Recorded;
    }

    /** POST /payment (index.php:110-133): validate, then append the payment
        as an entry paid by `fromMember`; `toMember` is checked for presence
        and otherwise ignored. */
    method RecordPayment(fromMember: Option<int>, toMember: Option<int>, amount: Option<real>, groupId: Option<int>)
      returns (s: Status)
      requires Valid()
      modifies this
      ensures Valid()
      ensures s == PaymentOutcome(groups, fromMember, toMember, amount, groupId)
      ensures expenses == if s == Recorded then old(expenses) + [Entry(groupId.value, fromMember.value, amount.value)]
                          else old(expenses)
    {
      if !(GivenId(fromMember) && GivenId(toMember) && GivenAmount(amount) && GivenId(groupId)) {
        return MissingFields;
      }
      var group := FindGroupById(groupId.value, groups);
      if group.None? {
        return UnknownGroup;
      }
      expenses := expenses + [Entry(groupId.value, fromMember.value, amount.value)];
      return Recorded;
    }

    /** GET /group/{group_id}/balances (index.php:69-107) over the current ledger. */
    method Balances(groupId: int) returns (r: BalanceOutcome)
      ensures r == GroupBalances(groups, expenses, groupId)
    {
      r := ComputeBalances(groups, expenses, groupId);
    }
  }

  /** Whatever was refused, the two handlers answer alike for the same
      group: a request with the fields present and a missing group is 404 for
      both, and a payment goes through wherever an expense with the same
      payer, amount and group does. */
  lemma PaymentAcceptsWhatExpenseAccepts(groups: seq<Group>, groupId: Option<int>, paidBy: Option<int>,
                                          toMember: Option<int>, amount: Option<real>)
    requires GivenId(toMember)
    ensures ExpenseOutcome(groups, groupId, paidBy, amount) == Recorded
            ==> PaymentOutcome(groups, paidBy, toMember, amount, groupId) == Recorded
    ensures ExpenseOutcome(groups, groupId, paidBy, amount) == UnknownGroup
            <==> PaymentOutcome(groups, paidBy, toMember, amount, groupId) == UnknownGroup
  {
  }

  /** The falsy test on request fields: an absent field and a zero field are
      refused alike, and any other number passes, a negative amount included. */
  lemma FalsyFields()
    ensures ExpenseOutcome(SeedGroups(), Some(1), Some(1), Some(-5.0)) == Recorded
    ensures ExpenseOutcome(SeedGroups(), Some(1), Some(1), Some(0.0)) == MissingFields
    ensures ExpenseOutcome(SeedGroups(), None, Some(1), Some(5.0)) == MissingFields
    ensures ExpenseOutcome(SeedGroups(), Some(1), Some(0), Some(5.0)) == MissingFields
    ensures PaymentOutcome(SeedGroups(), Some(7), Some(2), Some(-5.0), Some(1)) == Recorded
    ensures PaymentOutcome(SeedGroups(), Some(7), Some(0), Some(5.0), Some(1)) == MissingFields
    ensures PaymentOutcome(SeedGroups(), Some(7), None, Some(5.0), Some(1)) == MissingFields
  {
    var ms := SeedGroups()[0].members;
    SeedLookup(1);
    IsMemberIndex(ms, 1);
    assert ms[0].id == 1;
  }
}
