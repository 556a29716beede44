/**
 * `GET /admin/overview`: behind `authenticate` only, a read-only snapshot of the whole
 * store: both table sizes, and the five newest users and customers in restricted
 * projections, each customer with its owning broker's name and address.
 */
module AdminRoutes {
  import opened Wrappers
  import opened Records
  import opened Ordering
  import opened AuthGate
  import opened CustomerRoutes

  /** `select { id, fullName, email, createdAt }` on a user: no password, no role. */
  datatype UserSummary = UserSummary(id: string, fullName: string, email: string, createdAt: int)

  /** `broker: { select: { fullName, email } }`. */
  datatype BrokerRef = BrokerRef(fullName: string, email: string)

  /** The customer projection, joined with its broker (`None` only for a dangling `brokerId`). */
  datatype CustomerSummary = CustomerSummary(id: string, fullName: string, email: string, gstin: string,
                                             entityType: string, createdAt: int, broker: Option<BrokerRef>)

  datatype Overview = Overview(totalUsers: nat, totalCustomers: nat,
                               recentUsers: seq<UserSummary>, recentCustomers: seq<CustomerSummary>)

  function UserSummaryOf(u: User): UserSummary {
    UserSummary(u.id, u.fullName, u.email, u.createdAt)
  }

  function CustomerSummaryOf(c: Customer, users: seq<User>): CustomerSummary {
    var broker := match FindUser(users, ById, c.brokerId)
      case None => None
      case Some(b) => Some(BrokerRef(b.fullName, b.email));
    CustomerSummary(c.id, c.fullName, c.email, c.gstin, c.entityType, c.createdAt, broker)
  }

  /** `select` applied to each user of a query result. */
  function UserSummaries(ru: seq<User>): (r: seq<UserSummary>)
    ensures |r| == |ru| && forall i :: 0 <= i < |ru| ==> r[i] == UserSummaryOf(ru[i])
  {
    Image(ru, UserSummaryOf)
  }

  /** `select` with the broker join applied to each customer of a query result. */
  function CustomerSummaries(rc: seq<Customer>, users: seq<User>): (r: seq<CustomerSummary>)
    ensures |r| == |rc| && forall i :: 0 <= i < |rc| ==> r[i] == CustomerSummaryOf(rc[i], users)
  {
    Image(rc, c => CustomerSummaryOf(c, users))
  }

  /** The body of the overview reply; a function of the two tables, so it changes nothing. */
  function OverviewFor(users: seq<User>, customers: seq<Customer>): Overview {
    var ru := Newest(users, UserCreatedAt, 5);
    var rc := Newest(customers, CustomerCreatedAt, 5);
    Overview(|users|, |customers|, UserSummaries(ru), CustomerSummaries(rc, users))
  }

  /** The route's reply: the authentication middleware's rejection, or the overview. */
  datatype OverviewReply = Denied(rejection: Rejection) | Served(overview: Overview)

  function OverviewRoute(header: Option<string>, jwt: Jwt, users: seq<User>, customers: seq<Customer>): OverviewReply {
    match AuthenticateOutcome(header, jwt)
    case Reject(r) => Denied(r)
    case Next(_) => Served(OverviewFor(users, customers))
  }

  function CountRole(users: seq<User>, role: Role): nat {
    if users == [] then 0
    else CountRole(users[1..], role) + (if users[0].role == role then 1 else 0)
  }

  /** Ids are unique in the user table. */
  ghost predicate IdsUnique(users: seq<User>) {
    forall i, j :: 0 <= i < j < |users| ==> users[i].id != users[j].id
  }

  /** Every user has one of the two roles, so the user count is the admins plus the brokers. */
  lemma {:induction false} UsersAreAdminsAndBrokers(users: seq<User>)
    ensures |users| == CountRole(users, Admin) + CountRole(users, Broker)
  {
    if users != [] {
      UsersAreAdminsAndBrokers(users[1..]);
    }
  }

  /** A broker's own customers are among all customers. */
  lemma {:induction false} OwnedAtMostAll(rows: seq<Customer>, brokerId: string)
    ensures |Owned(rows, brokerId)| <= |rows|
  {
    if rows != [] {
      OwnedAtMostAll(rows[..|rows| - 1], brokerId);
    }
  }

  /**
   * `totalUsers` counts admins and brokers alike; `totalCustomers` counts every broker's
   * customers, so no broker's own total exceeds it.
   */
  lemma OverviewTotals(users: seq<User>, customers: seq<Customer>, brokerId: string)
    ensures var o := OverviewFor(users, customers);
      && o.totalUsers == CountRole(users, Admin) + CountRole(users, Broker)
      && o.totalCustomers == |customers|
      && Stats(customers, brokerId).total <= o.totalCustomers
  {
    UsersAreAdminsAndBrokers(users);
    OwnedAtMostAll(customers, brokerId);
  }

  /**
   * `recentUsers`: min(5, users) summaries of stored users, newest first, and no user
   * left out is newer than one shown.
   */
  lemma RecentUsersSpec(users: seq<User>, customers: seq<Customer>)
    ensures var r := OverviewFor(users, customers).recentUsers;
      && |r| == (if |users| < 5 then |users| else 5)
      && multiset(r) <= multiset(UserSummaries(users))
      && (forall v :: v in r ==> v in UserSummaries(users))
      && (forall i, j :: 0 <= i < j < |r| ==> r[i].createdAt >= r[j].createdAt)
      && forall u :: u in users ==>
           UserSummaryOf(u) in r || forall k :: 0 <= k < |r| ==> r[k].createdAt >= u.createdAt
  {
    var ru := Newest(users, UserCreatedAt, 5);
    NewestSpec(users, UserCreatedAt, 5);
    UserSummariesFrom(ru, users);
    UserSummariesSorted(ru);
    UserSummariesCover(ru, users);
  }

  lemma UserSummariesFrom(ru: seq<User>, users: seq<User>)
    requires multiset(ru) <= multiset(users)
    ensures multiset(UserSummaries(ru)) <= multiset(UserSummaries(users))
    ensures forall v :: v in UserSummaries(ru) ==> v in UserSummaries(users)
  {
    ImageSubMultiset(ru, users, UserSummaryOf);
    forall v | v in UserSummaries(ru) ensures v in UserSummaries(users) {
      assert v in multiset(UserSummaries(ru));
    }
  }

  lemma UserSummariesSorted(ru: seq<User>)
    requires SortedDesc(ru, UserCreatedAt)
    ensures forall i, j :: 0 <= i < j < |ru| ==> UserSummaries(ru)[i].createdAt >= UserSummaries(ru)[j].createdAt
  {
    forall i, j | 0 <= i < j < |ru| ensures UserSummaries(ru)[i].createdAt >= UserSummaries(ru)[j].createdAt {
      assert UserCreatedAt(ru[i]) >= UserCreatedAt(ru[j]);
    }
  }

  lemma UserSummariesCover(ru: seq<User>, users: seq<User>)
    requires forall y :: y in users ==> y in ru || forall z :: z in ru ==> UserCreatedAt(z) >= UserCreatedAt(y)
    ensures var r := UserSummaries(ru);
      forall u :: u in users ==> UserSummaryOf(u) in r || forall k :: 0 <= k < |r| ==> r[k].createdAt >= u.createdAt
  {
    var r := UserSummaries(ru);
    forall u | u in users
      ensures UserSummaryOf(u) in r || forall k :: 0 <= k < |r| ==> r[k].createdAt >= u.createdAt
    {
      if u in ru {
        var k :| 0 <= k < |ru| && ru[k] == u;
        assert r[k] == UserSummaryOf(u);
      } else {
        forall k | 0 <= k < |r| ensures r[k].createdAt >= u.createdAt {
          assert ru[k] in ru;
        }
      }
    }
  }

  /**
   * `recentCustomers`: min(5, customers) summaries of stored customers across all
   * brokers, newest first, and no customer left out is newer than one shown.
   */
  lemma RecentCustomersSpec(users: seq<User>, customers: seq<Customer>)
    ensures var r := OverviewFor(users, customers).recentCustomers;
      && |r| == (if |customers| < 5 then |customers| else 5)
      && multiset(r) <= multiset(CustomerSummaries(customers, users))
      && (forall v :: v in r ==> v in CustomerSummaries(customers, users))
      && (forall i, j :: 0 <= i < j < |r| ==> r[i].createdAt >= r[j].createdAt)
      && forall c :: c in customers ==>
           CustomerSummaryOf(c, users) in r || forall k :: 0 <= k < |r| ==> r[k].createdAt >= c.createdAt
  {
    var rc := Newest(customers, CustomerCreatedAt, 5);
    NewestSpec(customers, CustomerCreatedAt, 5);
    CustomerSummariesFrom(rc, customers, users);
    CustomerSummariesSorted(rc, users);
    CustomerSummariesCover(rc, customers, users);
  }

  lemma CustomerSummariesFrom(rc: seq<Customer>, customers: seq<Customer>, users: seq<User>)
    requires multiset(rc) <= multiset(customers)
    ensures multiset(CustomerSummaries(rc, users)) <= multiset(CustomerSummaries(customers, users))
    ensures forall v :: v in CustomerSummaries(rc, users) ==> v in CustomerSummaries(customers, users)
  {
    ImageSubMultiset(rc, customers, c => CustomerSummaryOf(c, users));
    forall v | v in CustomerSummaries(rc, users) ensures v in CustomerSummaries(customers, users) {
      assert v in multiset(CustomerSummaries(rc, users));
    }
  }

  lemma CustomerSummariesSorted(rc: seq<Customer>, users: seq<User>)
    requires SortedDesc(rc, CustomerCreatedAt)
    ensures forall i, j :: 0 <= i < j < |rc| ==>
      CustomerSummaries(rc, users)[i].createdAt >= CustomerSummaries(rc, users)[j].createdAt
  {
    forall i, j | 0 <= i < j < |rc|
      ensures CustomerSummaries(rc, users)[i].createdAt >= CustomerSummaries(rc, users)[j].createdAt
    {
      assert CustomerCreatedAt(rc[i]) >= CustomerCreatedAt(rc[j]);
    }
  }

  lemma CustomerSummariesCover(rc: seq<Customer>, customers: seq<Customer>, users: seq<User>)
    requires forall y :: y in customers ==>
      y in rc || forall z :: z in rc ==> CustomerCreatedAt(z) >= CustomerCreatedAt(y)
    ensures var r := CustomerSummaries(rc, users);
      forall c :: c in customers ==>
        CustomerSummaryOf(c, users) in r || forall k :: 0 <= k < |r| ==> r[k].createdAt >= c.createdAt
  {
    var r := CustomerSummaries(rc, users);
    forall c | c in customers
      ensures CustomerSummaryOf(c, users) in r || forall k :: 0 <= k < |r| ==> r[k].createdAt >= c.createdAt
    {
      if c in rc {
        var k :| 0 <= k < |rc| && rc[k] == c;
        assert r[k] == CustomerSummaryOf(c, users);
      } else {
        forall k | 0 <= k < |r| ensures r[k].createdAt >= c.createdAt {
          assert rc[k] in rc;
        }
      }
    }
  }

  /** With unique ids, a customer's summary carries its owning broker's name and address. */
  lemma {:induction false} SummaryNamesOwner(c: Customer, users: seq<User>, owner: User)
    requires IdsUnique(users)
    requires owner in users && owner.id == c.brokerId
    ensures CustomerSummaryOf(c, users).broker == Some(BrokerRef(owner.fullName, owner.email))
  {
    var found := FindUser(users, ById, c.brokerId);
    var i :| 0 <= i < |users| && users[i] == owner;
    assert found.Some?;
    var j :| 0 <= j < |users| && users[j] == found.value;
    assert users[i].id == users[j].id;
    assert i == j;
  }

  /**
   * The overview is served to every authenticated identity, whatever its role, and its
   * content does not depend on who asked; an unauthenticated request gets the middleware's 401.
   */
  lemma OverviewGate(header: Option<string>, jwt: Jwt, users: seq<User>, customers: seq<Customer>)
    ensures OverviewRoute(header, jwt, users, customers).Served? <==> AuthenticateOutcome(header, jwt).Next?
    ensures OverviewRoute(header, jwt, users, customers).Served? ==>
      OverviewRoute(header, jwt, users, customers).overview == OverviewFor(users, customers)
    ensures OverviewRoute(header, jwt, users, customers).Denied? ==>
      OverviewRoute(header, jwt, users, customers).rejection.status == 401
    ensures (exists id, email :: AuthenticateOutcome(header, jwt) == Next(AuthPayload(id, email, "BROKER"))) ==>
      OverviewRoute(header, jwt, users, customers).Served?
  {
  }
}
