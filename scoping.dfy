/**
 * The views App.tsx derives from the logged-in account: its landlord, its tenants, the
 * records it may see, their total, and the per-tenant summary of the summary view.
 * Scoping only filters what is shown; it guards nothing.
 */
module Scoping {
  import opened Wrappers
  import opened Types
  import opened Seqs
  import opened Ledger

  /** The logged-in account's id, absent when nobody is logged in. */
  function CurrentId(current: Option<User>): Option<string> {
    if current.Some? then Some(current.value.id) else None
  }

  /** The first account whose id is the logged-in account's owner id (App.tsx:192). */
  function MyLandlord(users: seq<User>, current: Option<User>): (r: Option<User>)
    ensures r.Some? <==> current.Some? && current.value.propertyOwnerId.Some? &&
                         exists i :: 0 <= i < |users| && users[i].id == current.value.propertyOwnerId.value
    ensures r.Some? ==> r.value in users && r.value.id == current.value.propertyOwnerId.value
  {
    var owner := if current.Some? then current.value.propertyOwnerId else None;
    Find((u: User) => Some(u.id) == owner, users)
  }

  /**
   * `users.filter(u => u.propertyOwnerId === currentUser?.id)`: the accounts owned by the
   * logged-in one. The comparison is of optional values, so when nobody is logged in it
   * keeps the accounts that have no owner.
   */
  function MyTenants(users: seq<User>, current: Option<User>): (r: seq<User>)
    ensures forall i :: 0 <= i < |r| ==> r[i] in users && r[i].propertyOwnerId == CurrentId(current)
    ensures forall i :: 0 <= i < |users| && users[i].propertyOwnerId == CurrentId(current) ==> users[i] in r
  {
    var me := CurrentId(current);
    Filter((u: User) => u.propertyOwnerId == me, users)
  }

  /** Whether the record was paid under the id of one of the tenants (App.tsx:195). */
  predicate PaidByOneOf(tenants: seq<User>, r: RentRecord) {
    Any((t: User) => t.id == r.userId, tenants)
  }

  /** The visible records (App.tsx:194-196): a landlord sees its tenants' records, anyone else only records under its own id. */
  function MyRecords(users: seq<User>, records: seq<RentRecord>, current: Option<User>): (r: seq<RentRecord>)
    ensures forall i :: 0 <= i < |r| ==> r[i] in records
    ensures current.Some? && current.value.role == Landlord ==>
              forall x :: x in records ==> (x in r <==> PaidByOneOf(MyTenants(users, current), x))
    ensures !(current.Some? && current.value.role == Landlord) ==>
              forall x :: x in records ==> (x in r <==> Some(x.userId) == CurrentId(current))
  {
    if current.Some? && current.value.role == Landlord then
      var tenants := MyTenants(users, current);
      Filter((r: RentRecord) => PaidByOneOf(tenants, r), records)
    else
      var me := CurrentId(current);
      Filter((r: RentRecord) => Some(r.userId) == me, records)
  }

  /** The total of the visible records (App.tsx:197). */
  function TotalCollected(users: seq<User>, records: seq<RentRecord>, current: Option<User>): (t: int)
    ensures current.None? ==> t == 0
    ensures NonNegativeAmounts(records) ==> t >= 0
    ensures NonNegativeAmounts(records) ==> forall x :: x in MyRecords(users, records, current) ==> x.rentAmount <= t
  {
    var mine := MyRecords(users, records, current);
    assert NonNegativeAmounts(records) ==> NonNegativeAmounts(mine);
    if current.None? then LoggedOutSeesNothing(users, records); TotalAmount(mine) else TotalAmount(mine)
  }

  /** What the summary view shows for one tenant. */
  datatype Summary = Summary(total: int, lastPayment: Option<RentRecord>)

  /** One tenant's summary (App.tsx:412-414): the total of its visible payments and the first, newest, of them. */
  function TenantSummary(myRecords: seq<RentRecord>, tenant: User): (s: Summary)
    ensures s.total == TotalAmount(RecordsOf(myRecords, tenant.id))
    ensures s.lastPayment.None? <==> forall i :: 0 <= i < |myRecords| ==> myRecords[i].userId != tenant.id
    ensures s.lastPayment.Some? ==> exists i :: 0 <= i < |myRecords| && myRecords[i] == s.lastPayment.value &&
                                       myRecords[i].userId == tenant.id &&
                                       forall j :: 0 <= j < i ==> myRecords[j].userId != tenant.id
  {
    var payments := RecordsOf(myRecords, tenant.id);
    FirstOfFilterIsFind((r: RentRecord) => r.userId == tenant.id, myRecords);
    Summary(TotalAmount(payments), if |payments| > 0 then Some(payments[0]) else None)
  }

  /** The head of a filter is the first element satisfying it. */
  lemma {:induction false} FirstOfFilterIsFind<T>(p: T -> bool, s: seq<T>)
    ensures Find(p, s) == if |Filter(p, s)| > 0 then Some(Filter(p, s)[0]) else None
    decreases |s|
  {
    if s != [] && !p(s[0]) {
      FirstOfFilterIsFind(p, s[1..]);
    }
  }

  /** A landlord sees exactly the records paid under the id of an account it owns, each as often as in the ledger. */
  lemma LandlordSeesTenantRecords(users: seq<User>, records: seq<RentRecord>, landlord: User, x: RentRecord)
    requires landlord.role == Landlord
    ensures var mine := MyRecords(users, records, Some(landlord));
            var owned := exists i :: 0 <= i < |users| && users[i].propertyOwnerId == Some(landlord.id) &&
                                     users[i].id == x.userId;
            && (x in mine <==> x in records && owned)
            && multiset(mine)[x] == if owned then multiset(records)[x] else 0
  {
    var tenants := MyTenants(users, Some(landlord));
    var p := (r: RentRecord) => PaidByOneOf(tenants, r);
    FilterCount(p, records, x);
    var owned := exists i :: 0 <= i < |users| && users[i].propertyOwnerId == Some(landlord.id) &&
                             users[i].id == x.userId;
    if owned {
      var i :| 0 <= i < |users| && users[i].propertyOwnerId == Some(landlord.id) && users[i].id == x.userId;
      var k :| 0 <= k < |tenants| && tenants[k] == users[i];
      assert p(x);
    }
    if p(x) {
      var k :| 0 <= k < |tenants| && tenants[k].id == x.userId;
      var i :| 0 <= i < |users| && users[i] == tenants[k];
    }
  }

  /** A tenant sees exactly the records under its own id. */
  lemma TenantSeesOwnRecords(users: seq<User>, records: seq<RentRecord>, tenant: User)
    requires tenant.role == Tenant
    ensures MyRecords(users, records, Some(tenant)) == RecordsOf(records, tenant.id)
  {
    FilterSameOn((r: RentRecord) => Some(r.userId) == CurrentId(Some(tenant)),
                 (r: RentRecord) => r.userId == tenant.id, records);
  }

  /** Logged out, no record is visible. */
  lemma LoggedOutSeesNothing(users: seq<User>, records: seq<RentRecord>)
    ensures MyRecords(users, records, None) == []
  {
    FilterKeepsNone((r: RentRecord) => Some(r.userId) == CurrentId(None), records);
  }

  /** A newly prepended record is the first visible one when it is visible at all; the rest keeps ledger order. */
  lemma MyRecordsAfterPrepend(users: seq<User>, records: seq<RentRecord>, current: Option<User>, x: RentRecord)
    ensures var before := MyRecords(users, records, current);
            var after := MyRecords(users, [x] + records, current);
            && (x in after ==> after == [x] + before)
            && (x !in after ==> after == before)
  {
    if current.Some? && current.value.role == Landlord {
      var tenants := MyTenants(users, current);
      FilterPrepend((r: RentRecord) => PaidByOneOf(tenants, r), x, records);
    } else {
      var me := CurrentId(current);
      FilterPrepend((r: RentRecord) => Some(r.userId) == me, x, records);
    }
  }

  /** For a landlord's own tenant, the summary covers that tenant's whole ledger history, and its last payment is the newest record. */
  lemma SummaryOfOwnTenant(users: seq<User>, records: seq<RentRecord>, landlord: User, tenant: User)
    requires landlord.role == Landlord
    requires tenant in MyTenants(users, Some(landlord))
    ensures var s := TenantSummary(MyRecords(users, records, Some(landlord)), tenant);
            && s.total == TotalAmount(RecordsOf(records, tenant.id))
            && s.lastPayment == Find((r: RentRecord) => r.userId == tenant.id, records)
  {
    var tenants := MyTenants(users, Some(landlord));
    var visible := (r: RentRecord) => PaidByOneOf(tenants, r);
    var own := (r: RentRecord) => r.userId == tenant.id;
    var k :| 0 <= k < |tenants| && tenants[k] == tenant;
    FilterAfterWeaker(own, visible, records);
    FirstOfFilterIsFind(own, records);
  }

  /** The ids of a list of accounts are pairwise distinct. */
  predicate DistinctIds(us: seq<User>) {
    forall i, j :: 0 <= i < j < |us| ==> us[i].id != us[j].id
  }

  /** The tenant totals of the summary view, added up. */
  function SumOfTenantTotals(tenants: seq<User>, records: seq<RentRecord>): int
    decreases |tenants|
  {
    if tenants == [] then 0
    else TotalAmount(RecordsOf(records, tenants[0].id)) + SumOfTenantTotals(tenants[1..], records)
  }

  lemma {:induction false} PaidByOneOfSplit(tenants: seq<User>, records: seq<RentRecord>)
    requires DistinctIds(tenants)
    ensures TotalAmount(Filter((r: RentRecord) => PaidByOneOf(tenants, r), records)) ==
            SumOfTenantTotals(tenants, records)
    decreases |tenants|
  {
    var all := (r: RentRecord) => PaidByOneOf(tenants, r);
    if tenants == [] {
      FilterKeepsNone(all, records);
    } else {
      var t, rest := tenants[0], tenants[1..];
      var first := (r: RentRecord) => r.userId == t.id;
      var others := (r: RentRecord) => PaidByOneOf(rest, r);
      forall i | 0 <= i < |records|
        ensures all(records[i]) == (first(records[i]) || others(records[i]))
        ensures !(first(records[i]) && others(records[i]))
      {
        var x := records[i];
        assert PaidByOneOf(tenants, x) == (t.id == x.userId || PaidByOneOf(rest, x)) by {
          assert forall k :: 0 < k < |tenants| ==> tenants[k] == rest[k - 1];
          if PaidByOneOf(rest, x) {
            var k :| 0 <= k < |rest| && rest[k].id == x.userId;
            assert tenants[k + 1].id == x.userId;
          }
        }
      }
      TotalAmountSplit(all, first, others, records);
      assert DistinctIds(rest);
      PaidByOneOfSplit(rest, records);
    }
  }

  /** When the tenants' ids are distinct, a landlord's total collected is the sum of its tenants' summary totals. */
  lemma TotalCollectedIsSumOfSummaries(users: seq<User>, records: seq<RentRecord>, landlord: User)
    requires landlord.role == Landlord
    requires DistinctIds(MyTenants(users, Some(landlord)))
    ensures TotalCollected(users, records, Some(landlord)) ==
            SumOfTenantTotals(MyTenants(users, Some(landlord)), records)
  {
    PaidByOneOfSplit(MyTenants(users, Some(landlord)), records);
  }
}
