/** The balance computation of GET /group/{group_id}/balances: a
    specification by recursive functions over prefixes (one step of each
    function is one iteration of the corresponding PHP loop) and the
    looping method proved against it. Amounts are exact reals. */
module Settlement {
  import opened Domain
  import opened GroupStore

  /** PHP's `$balances`: an array keyed by member id that remembers the order
      in which keys were first written. */
  datatype Tally = Tally(order: seq<int>, bal: map<int, real>)

  /** No key is listed twice: each one is new when it is appended. */
  ghost predicate Distinct(ks: seq<int>) {
    ks == [] || (Distinct(ks[..|ks| - 1]) && ks[|ks| - 1] !in ks[..|ks| - 1])
  }

  /** Keys and order agree and no key is listed twice. */
  ghost predicate WellFormed(t: Tally) {
    && (forall k :: k in t.bal <==> k in t.order)
    && Distinct(t.order)
  }

  /** Reading a key; PHP treats a missing key as `null`, which is 0 in arithmetic. */
  function Get(bal: map<int, real>, k: int): real {
    if k in bal then bal[k] else 0.0
  }

  /** `$balances[$k] = $v`: overwrite in place, or append a new key at the end. */
  function Assign(t: Tally, k: int, v: real): Tally {
    Tally(if k in t.bal then t.order else t.order + [k], t.bal[k := v])
  }

  /** Step 1 (index.php:83-86): every member id set to 0, in member order. */
  function Zeroed(members: seq<Member>): (t: Tally)
    ensures forall k :: k in t.bal ==> t.bal[k] == 0.0
    ensures forall k :: k in t.bal <==> IsMember(members, k)
  {
    if members == [] then Tally([], map[])
    else
      var front := members[..|members| - 1];
      var t0 := Zeroed(front);
      Assign(t0, members[|members| - 1].id, 0.0)
  }

  /** The inner loop (index.php:92-96): every listed member other than the
      payer gains `share`, a member listed twice gaining it twice. */
  function Credit(t: Tally, members: seq<Member>, payer: int, share: real): Tally {
    if members == [] then t
    else
      var t0 := Credit(t, members[..|members| - 1], payer, share);
      var m := members[|members| - 1];
      if m.id != payer then Assign(t0, m.id, Get(t0.bal, m.id) + share) else t0
  }

  /** The body of the outer loop for an entry of the group (index.php:90-96):
      the payer is charged the whole amount, then every other member gains
      `share`. */
  function Charge(t: Tally, members: seq<Member>, payer: int, amount: real, share: real): Tally {
    Credit(Assign(t, payer, Get(t.bal, payer) - amount), members, payer, share)
  }

  /** One iteration of the outer loop (index.php:89-97): an entry of another
      group changes nothing; an entry of this group takes its full amount off
      the payer and gives `amount / n` to every other member. */
  function Apply(t: Tally, members: seq<Member>, groupId: int, e: Entry): Tally
    requires |members| > 0
  {
    if e.groupId != groupId then t
    else Charge(t, members, e.paidBy, e.amount, e.amount / (|members| as real))
  }

  /** The tally after the outer loop has visited `entries`. */
  function Replay(members: seq<Member>, groupId: int, entries: seq<Entry>): Tally
    requires |members| > 0
  {
    if entries == [] then Zeroed(members)
    else Apply(Replay(members, groupId, entries[..|entries| - 1]), members, groupId, entries[|entries| - 1])
  }

  /** `array_column($groupMembers, 'name', 'id')[$memberId] ?? null`:
      array_column keeps the last member with a given id. */
  function NameOf(members: seq<Member>, id: int): (r: Option<string>)
    ensures r.Some? <==> IsMember(members, id)
  {
    if members == [] then None
    else if members[|members| - 1].id == id then Some(members[|members| - 1].name)
    else
      var front := members[..|members| - 1];
      NameOf(front, id)
  }

  /** The report loop (index.php:100-104): one row per key, in key order. */
  function Rows(members: seq<Member>, order: seq<int>, bal: map<int, real>): (rows: seq<BalanceRow>)
    ensures |rows| == |order|
    ensures forall i :: 0 <= i < |order| ==>
              rows[i] == BalanceRow(order[i], NameOf(members, order[i]), Get(bal, order[i]))
  {
    if order == [] then []
    else
      var k := order[|order| - 1];
      Rows(members, order[..|order| - 1], bal) + [BalanceRow(k, NameOf(members, k), Get(bal, k))]
  }

  /** What GET /group/{group_id}/balances answers for the ledger `entries`. */
  function GroupBalances(groups: seq<Group>, entries: seq<Entry>, groupId: int): BalanceOutcome {
    match FirstGroup(groups, groupId)
    case None => GroupNotFound
    case Some(g) =>
      if |g.members| == 0 then NoMembers
      else
        var t := Replay(g.members, groupId, entries);
        Report(Rows(g.members, t.order, t.bal))
  }

  /** The balance handler: look the group up, reject an empty group, zero the
      members, replay the whole ledger, then list the tally. */
  method ComputeBalances(groups: seq<Group>, entries: seq<Entry>, groupId: int) returns (r: BalanceOutcome)
    ensures r == GroupBalances(groups, entries, groupId)
  {
    var group := FindGroupById(groupId, groups);
    if group.None? {
      return GroupNotFound;
    }
    var members := group.value.members;
    if |members| == 0 {
      return NoMembers;
    }
    var order, bal := ReplayLedger(members, groupId, entries);
    var rows := ListRows(members, order, bal);
    return Report(rows);
  }

  /** index.php:83-86: `$balances[$member['id']] = 0` for each member in turn. */
  method ZeroMembers(members: seq<Member>) returns (order: seq<int>, bal: map<int, real>)
    ensures Tally(order, bal) == Zeroed(members)
  {
    order, bal := [], map[];
    for i := 0 to |members|
      invariant Tally(order, bal) == Zeroed(members[..i])
    {
      assert members[..i + 1][..i] == members[..i];
      var id := members[i].id;
      if id !in bal { order := order + [id]; }
      bal := bal[id := 0.0];
    }
    assert members[..|members|] == members;
  }

  /** index.php:92-96: add `share` to every member whose id is not the payer's. */
  method CreditOthers(order0: seq<int>, bal0: map<int, real>, members: seq<Member>, payer: int, share: real)
    returns (order: seq<int>, bal: map<int, real>)
    ensures Tally(order, bal) == Credit(Tally(order0, bal0), members, payer, share)
  {
    order, bal := order0, bal0;
    for j := 0 to |members|
      invariant Tally(order, bal) == Credit(Tally(order0, bal0), members[..j], payer, share)
    {
      assert members[..j + 1][..j] == members[..j];
      var id := members[j].id;
      if id != payer {
        var cur := Get(bal, id);
        if id !in bal { order := order + [id]; }
        bal := bal[id := cur + share];
      }
    }
    assert members[..|members|] == members;
  }

  /** index.php:83-98: zero the members, then visit every entry of the ledger. */
  method ReplayLedger(members: seq<Member>, groupId: int, entries: seq<Entry>) returns (order: seq<int>, bal: map<int, real>)
    requires |members| > 0
    ensures Tally(order, bal) == Replay(members, groupId, entries)
  {
    var n := |members|;
    order, bal := ZeroMembers(members);
    for x := 0 to |entries|
      invariant Tally(order, bal) == Replay(members, groupId, entries[..x])
    {
      assert entries[..x + 1][..x] == entries[..x];
      var e := entries[x];
      if e.groupId == groupId {
        var share := e.amount / (n as real);
        var owed := Get(bal, e.paidBy);
        if e.paidBy !in bal { order := order + [e.paidBy]; }
        bal := bal[e.paidBy := owed - e.amount];
        order, bal := CreditOthers(order, bal, members, e.paidBy, share);
      }
    }
    assert entries[..|entries|] == entries;
  }

  /** index.php:100-104: one row per key of the tally, in key order. */
  method ListRows(members: seq<Member>, order: seq<int>, bal: map<int, real>) returns (rows: seq<BalanceRow>)
    ensures rows == Rows(members, order, bal)
  {
    rows := [];
    for i := 0 to |order|
      invariant rows == Rows(members, order[..i], bal)
    {
      assert order[..i + 1][..i] == order[..i];
      var id := order[i];
      rows := rows + [BalanceRow(id, NameOf(members, id), Get(bal, id))];
    }
    assert order[..|order|] == order;
  }
}
