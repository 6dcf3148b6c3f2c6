/** The entities of the shared-expense API: groups and their members, the
    ledger entries that expenses and payments both become, the rows of a
    balance report, and the outcomes the HTTP handlers return. */
module Domain {

  datatype Option<T> = None | Some(value: T)

  /** A member of a group: `["id" => ..., "name" => ...]`. */
  datatype Member = Member(id: int, name: string)

  /** A group with its members in seeded order. */
  datatype Group = Group(id: int, name: string, members: seq<Member>)

  /** One element of `$expenses`. Recorded expenses and recorded payments
      have this same shape; nothing tells them apart afterwards. */
  datatype Entry = Entry(groupId: int, paidBy: int, amount: real)

  /** One element of the balance report; `memberName` is `null` (None)
      for a payer id that is not a member of the group. */
  datatype BalanceRow = BalanceRow(memberId: int, memberName: Option<string>, balance: real)

  /** Outcome of GET /group/{group_id}/balances. */
  datatype BalanceOutcome =
    | GroupNotFound               // 404 "Group not found"
    | NoMembers                   // 200 "Group has no members"
    | Report(rows: seq<BalanceRow>)

  /** Outcome of POST /expense and POST /payment. */
  datatype Status =
    | Recorded                    // 201
    | MissingFields               // 400 "Invalid input. Missing required fields."
    | UnknownGroup                // 404 "Group not found"
    | MemberNotInGroup            // 400 "Member not found in group"

  function StatusCode(s: Status): (code: int)
    ensures code == 201 <==> s == Recorded
    ensures code == 404 <==> s == UnknownGroup
    ensures code == 400 <==> s == MissingFields || s == MemberNotInGroup
  {
    match s
    case Recorded => 201
    case MissingFields => 400
    case UnknownGroup => 404
    case MemberNotInGroup => 400
  }

  function BalanceCode(r: BalanceOutcome): (code: int)
    ensures code == 404 <==> r.GroupNotFound?
    ensures code == 200 <==> !r.GroupNotFound?
  {
    if r.GroupNotFound? then 404 else 200
  }

  /** PHP's `!$x` on an optional request field: absent (`?? null`) and zero are
      both falsy, every other number is accepted. */
  predicate Given<T(==)>(x: Option<T>, zero: T) {
    x.Some? && x.value != zero
  }

  predicate GivenId(x: Option<int>) { Given(x, 0) }

  predicate GivenAmount(x: Option<real>) { Given(x, 0.0) }
}
