/**
 * The broker's customer routes, over the customer table held in memory:
 * `POST /customers` validates, checks the (brokerId, upper-cased GSTIN) key and inserts;
 * `GET /customers/stats` counts the caller's customers and lists the five newest.
 * Both run behind `authenticate`, so `brokerId` is the caller's `userId`.
 */
module CustomerRoutes {
  import opened Wrappers
  import opened Text
  import opened Validators
  import opened Records
  import opened Ordering

  /** The JSON body of `POST /customers`, every field read as a string. */
  datatype CustomerBody = CustomerBody(fullName: string, email: string, gstin: string, entityType: string)

  const MsgDuplicate: string := "A customer with this GSTIN already exists under your account."
  const MsgCreated: string := "Customer onboarded successfully."

  /** The three replies of `POST /customers` (the 500 path belongs to the database). */
  datatype CreateReply = Invalid(errors: seq<FieldError>) | Duplicate | Created(customer: Customer) {
    function Status(): nat {
      match this
      case Invalid(_) => 400
      case Duplicate => 409
      case Created(_) => 201
    }
    /** The `error` field of the reply body. */
    function Error(): Option<string> {
      if Duplicate? then Some(MsgDuplicate) else None
    }
    /** The `message` field of the reply body. */
    function Message(): Option<string> {
      if Created? then Some(MsgCreated) else None
    }
  }

  /** Some row has this (brokerId, gstin) pair: what `findUnique({ brokerId_gstin })` finds. */
  predicate HasKey(rows: seq<Customer>, brokerId: string, gstin: string) {
    exists i :: 0 <= i < |rows| && rows[i].brokerId == brokerId && rows[i].gstin == gstin
  }

  /** A key is present after appending `c` iff it was present before or is `c`'s own. */
  lemma HasKeyAppend(rows: seq<Customer>, c: Customer, brokerId: string, gstin: string)
    ensures HasKey(rows + [c], brokerId, gstin)
        <==> HasKey(rows, brokerId, gstin) || (c.brokerId == brokerId && c.gstin == gstin)
  {
    var t := rows + [c];
    assert forall i :: 0 <= i < |rows| ==> t[i] == rows[i];
    assert t[|rows|] == c;
  }

  /** The GSTIN as the handler stores and looks it up: sanitized (trimmed), then upper-cased. */
  function GstinKey(body: CustomerBody): string {
    ToUpper(Trim(body.gstin))
  }

  function BodyErrors(lib: EmailLib, body: CustomerBody): seq<FieldError> {
    CustomerErrors(lib, body.fullName, body.email, body.gstin, body.entityType)
  }

  /** The reply `POST /customers` gives on a table holding `rows`; the database supplies `id` and `now`. */
  function CreateReplyFor(rows: seq<Customer>, lib: EmailLib, brokerId: string, body: CustomerBody,
                          id: string, now: int): CreateReply
  {
    var errors := BodyErrors(lib, body);
    if errors != [] then Invalid(errors)
    else if HasKey(rows, brokerId, GstinKey(body)) then Duplicate
    else Created(Customer(id, brokerId, Trim(body.fullName), SanitizedEmail(lib, body.email),
                          GstinKey(body), body.entityType, now))
  }

  /** The table after that reply: one row more on success, unchanged otherwise. */
  function TableAfter(rows: seq<Customer>, reply: CreateReply): seq<Customer> {
    if reply.Created? then rows + [reply.customer] else rows
  }

  /** No two rows share a (brokerId, gstin) pair: the compound unique index. */
  ghost predicate KeysUnique(rows: seq<Customer>) {
    forall i, j :: 0 <= i < j < |rows| ==> rows[i].brokerId != rows[j].brokerId || rows[i].gstin != rows[j].gstin
  }

  /** A stored row holds an upper-case well-formed GSTIN and one of the two entity types. */
  ghost predicate WellFormedRow(c: Customer) {
    && GstinMatchesCI(c.gstin) && ToUpper(c.gstin) == c.gstin
    && (c.entityType == Exporter || c.entityType == Importer)
  }

  ghost predicate TableInvariant(rows: seq<Customer>) {
    KeysUnique(rows) && forall i :: 0 <= i < |rows| ==> WellFormedRow(rows[i])
  }

  // ---------------------------------------------------------------------------
  // POST /customers

  /** A validation failure is a 400 carrying the whole error list, and the table is unchanged. */
  lemma CreateInvalid(rows: seq<Customer>, lib: EmailLib, brokerId: string, body: CustomerBody, id: string, now: int)
    ensures var reply := CreateReplyFor(rows, lib, brokerId, body, id, now);
      && (reply.Invalid? <==> BodyErrors(lib, body) != [])
      && (reply.Invalid? ==> reply.errors == BodyErrors(lib, body) && reply.Status() == 400
                             && TableAfter(rows, reply) == rows)
  {
  }

  /** A valid body whose key is taken is a 409, and nothing is inserted. */
  lemma CreateDuplicate(rows: seq<Customer>, lib: EmailLib, brokerId: string, body: CustomerBody, id: string, now: int)
    ensures var reply := CreateReplyFor(rows, lib, brokerId, body, id, now);
      && (reply == Duplicate <==> BodyErrors(lib, body) == [] && HasKey(rows, brokerId, GstinKey(body)))
      && (reply == Duplicate ==>
            && reply.Status() == 409 && TableAfter(rows, reply) == rows
            && reply.Error() == Some("A customer with this GSTIN already exists under your account."))
  {
  }

  /**
   * On success exactly one row is appended: it belongs to the caller, its GSTIN is the
   * upper-cased trimmed input and is well formed, and its other fields are the sanitized body.
   */
  lemma {:induction false} CreateAppends(rows: seq<Customer>, lib: EmailLib, brokerId: string, body: CustomerBody,
                                         id: string, now: int)
    requires CreateReplyFor(rows, lib, brokerId, body, id, now).Created?
    ensures CreateReplyFor(rows, lib, brokerId, body, id, now).Message() == Some("Customer onboarded successfully.")
    ensures var c := CreateReplyFor(rows, lib, brokerId, body, id, now).customer;
      && TableAfter(rows, Created(c)) == rows + [c]
      && c.brokerId == brokerId && c.id == id && c.createdAt == now
      && c.gstin == ToUpper(Trim(body.gstin)) && ToUpper(c.gstin) == c.gstin && GstinMatchesCI(c.gstin)
      && c.fullName == Trim(body.fullName) && c.email == SanitizedEmail(lib, body.email)
      && c.entityType == body.entityType
      && (c.entityType == Exporter || c.entityType == Importer)
      && !HasKey(rows, brokerId, c.gstin)
  {
    CustomerAccepted(lib, body.fullName, body.email, body.gstin, body.entityType);
    GstinCaseInsensitive(Trim(body.gstin));
    ToUpperIdempotent(Trim(body.gstin));
  }

  /** Appending a well-formed row whose key is free keeps the table invariant. */
  lemma {:induction false} AppendPreservesInvariant(rows: seq<Customer>, c: Customer)
    requires TableInvariant(rows)
    requires WellFormedRow(c) && !HasKey(rows, c.brokerId, c.gstin)
    ensures TableInvariant(rows + [c])
  {
    var t := rows + [c];
    forall i, j | 0 <= i < j < |t| ensures t[i].brokerId != t[j].brokerId || t[i].gstin != t[j].gstin {
      if j == |rows| {
        assert t[i] == rows[i] && t[j] == c;
      } else {
        assert t[i] == rows[i] && t[j] == rows[j];
      }
    }
    forall i | 0 <= i < |t| ensures WellFormedRow(t[i]) {
      if i < |rows| {
        assert t[i] == rows[i];
      }
    }
  }

  /** Creation keeps the unique index and the row invariants. */
  lemma {:induction false} CreatePreservesInvariant(rows: seq<Customer>, lib: EmailLib, brokerId: string,
                                                    body: CustomerBody, id: string, now: int)
    requires TableInvariant(rows)
    ensures TableInvariant(TableAfter(rows, CreateReplyFor(rows, lib, brokerId, body, id, now)))
  {
    var reply := CreateReplyFor(rows, lib, brokerId, body, id, now);
    if reply.Created? {
      CreateAppends(rows, lib, brokerId, body, id, now);
      AppendPreservesInvariant(rows, reply.customer);
    }
  }

  /** Resubmitting a GSTIN that differs only in letter case, for the same broker, is a 409. */
  lemma {:induction false} SameGstinOtherCaseConflicts(rows: seq<Customer>, lib: EmailLib, brokerId: string,
                                                       first: CustomerBody, second: CustomerBody,
                                                       id1: string, now1: int, id2: string, now2: int)
    requires CreateReplyFor(rows, lib, brokerId, first, id1, now1).Created?
    requires BodyErrors(lib, second) == []
    requires ToUpper(Trim(second.gstin)) == ToUpper(Trim(first.gstin))
    ensures var after := TableAfter(rows, CreateReplyFor(rows, lib, brokerId, first, id1, now1));
      CreateReplyFor(after, lib, brokerId, second, id2, now2) == Duplicate
  {
    var c := CreateReplyFor(rows, lib, brokerId, first, id1, now1).customer;
    HasKeyAppend(rows, c, brokerId, GstinKey(second));
  }

  /** The key is the pair: another broker may still onboard the same GSTIN. */
  lemma {:induction false} OtherBrokerMayReuse(rows: seq<Customer>, lib: EmailLib, broker1: string, broker2: string,
                                               body: CustomerBody, id1: string, now1: int, id2: string, now2: int)
    requires broker1 != broker2
    requires CreateReplyFor(rows, lib, broker1, body, id1, now1).Created?
    requires !HasKey(rows, broker2, GstinKey(body))
    ensures var after := TableAfter(rows, CreateReplyFor(rows, lib, broker1, body, id1, now1));
      CreateReplyFor(after, lib, broker2, body, id2, now2).Created?
  {
    var c := CreateReplyFor(rows, lib, broker1, body, id1, now1).customer;
    HasKeyAppend(rows, c, broker2, GstinKey(body));
  }

  /** A lower-case GSTIN is stored upper-cased. */
  lemma LowerCaseGstinStoredUpper()
    ensures GstinKey(CustomerBody("Acme", "a@b.c", "27aaaaa0000a1z5", "EXPORTER")) == "27AAAAA0000A1Z5"
  {
    var g := "27aaaaa0000a1z5";
    TrimUnpadded(g);
    var u := ToUpper(g);
    forall i | 0 <= i < 15 ensures u[i] == "27AAAAA0000A1Z5"[i] {
      assert u[i] == UpperChar(g[i]);
    }
  }

  /** A malformed GSTIN such as "12345" is rejected with the format message. */
  lemma MalformedGstinRejected()
    ensures FieldError("gstin", MsgGstinFormat) in GstinErrors("12345")
  {
    TrimUnpadded("12345");
  }

  // ---------------------------------------------------------------------------
  // GET /customers/stats

  /** The caller's rows, in table order (`where: { brokerId }`). */
  function Owned(rows: seq<Customer>, brokerId: string): (r: seq<Customer>)
    ensures forall c :: c in r <==> c in rows && c.brokerId == brokerId
  {
    if rows == [] then []
    else
      var last := rows[|rows| - 1];
      assert rows == rows[..|rows| - 1] + [last];
      Owned(rows[..|rows| - 1], brokerId) + (if last.brokerId == brokerId then [last] else [])
  }

  /** `count({ where: { brokerId, entityType } })`. */
  function CountOfType(rows: seq<Customer>, brokerId: string, entityType: string): nat {
    if rows == [] then 0
    else
      var last := rows[|rows| - 1];
      CountOfType(rows[..|rows| - 1], brokerId, entityType)
      + (if last.brokerId == brokerId && last.entityType == entityType then 1 else 0)
  }

  datatype StatsReply = StatsReply(total: nat, exporters: nat, importers: nat, recentCustomers: seq<Customer>)

  /** `GET /customers/stats` for the caller `brokerId`; a function of the table, so it changes nothing. */
  function Stats(rows: seq<Customer>, brokerId: string): StatsReply {
    var mine := Owned(rows, brokerId);
    StatsReply(|mine|, CountOfType(rows, brokerId, Exporter), CountOfType(rows, brokerId, Importer),
               Newest(mine, CustomerCreatedAt, 5))
  }

  /** When every stored entity type is one of the two, the total splits into exporters and importers. */
  lemma {:induction false} StatsTotalSplits(rows: seq<Customer>, brokerId: string)
    requires forall i :: 0 <= i < |rows| ==> rows[i].entityType == Exporter || rows[i].entityType == Importer
    ensures Stats(rows, brokerId).total == Stats(rows, brokerId).exporters + Stats(rows, brokerId).importers
  {
    if rows != [] {
      var init := rows[..|rows| - 1];
      assert forall i :: 0 <= i < |init| ==> init[i] == rows[i];
      StatsTotalSplits(init, brokerId);
    }
  }

  /**
   * `recentCustomers`: min(5, total) entries, all the caller's, newest first, and none of the
   * caller's other customers is newer than any of them.
   */
  lemma StatsRecent(rows: seq<Customer>, brokerId: string)
    ensures var s := Stats(rows, brokerId);
      && |s.recentCustomers| == (if s.total < 5 then s.total else 5)
      && multiset(s.recentCustomers) <= multiset(Owned(rows, brokerId))
      && (forall c :: c in s.recentCustomers ==> c in rows && c.brokerId == brokerId)
      && SortedDesc(s.recentCustomers, CustomerCreatedAt)
      && forall c :: c in rows && c.brokerId == brokerId ==>
           c in s.recentCustomers || forall r :: r in s.recentCustomers ==> r.createdAt >= c.createdAt
  {
    var mine := Owned(rows, brokerId);
    NewestSpec(mine, CustomerCreatedAt, 5);
    var recent := Newest(mine, CustomerCreatedAt, 5);
    forall c | c in recent ensures c in rows && c.brokerId == brokerId {
      assert c in multiset(recent);
    }
  }

  /** Other brokers' customers do not show in the caller's stats. */
  lemma OtherBrokersInvisible(rows: seq<Customer>, brokerId: string, c: Customer)
    requires c.brokerId != brokerId
    ensures Stats(rows + [c], brokerId) == Stats(rows, brokerId)
  {
    var t := rows + [c];
    assert t[..|t| - 1] == rows && t[|t| - 1] == c;
    assert Owned(t, brokerId) == Owned(rows, brokerId);
    assert CountOfType(t, brokerId, Exporter) == CountOfType(rows, brokerId, Exporter);
    assert CountOfType(t, brokerId, Importer) == CountOfType(rows, brokerId, Importer);
  }

  /** A new customer adds one to the caller's total and to the count of its entity type. */
  lemma CreatedCounts(rows: seq<Customer>, lib: EmailLib, brokerId: string, body: CustomerBody, id: string, now: int)
    requires CreateReplyFor(rows, lib, brokerId, body, id, now).Created?
    ensures var before := Stats(rows, brokerId);
      var after := Stats(TableAfter(rows, CreateReplyFor(rows, lib, brokerId, body, id, now)), brokerId);
      && after.total == before.total + 1
      && after.exporters == before.exporters + (if body.entityType == Exporter then 1 else 0)
      && after.importers == before.importers + (if body.entityType == Importer then 1 else 0)
  {
    var c := CreateReplyFor(rows, lib, brokerId, body, id, now).customer;
    var t := rows + [c];
    assert t[..|t| - 1] == rows && t[|t| - 1] == c;
    assert Owned(t, brokerId) == Owned(rows, brokerId) + [c];
  }

  /** A broker with no customers sees zero counts and no recent customers. */
  lemma EmptyStats(brokerId: string)
    ensures Stats([], brokerId) == StatsReply(0, 0, 0, [])
  {
  }

  /** The customer table as the handlers use it. */
  class CustomerTable {
    var rows: seq<Customer>

    ghost predicate Valid()
      reads this
    {
      TableInvariant(rows)
    }

    constructor ()
      ensures Valid() && rows == []
    {
      rows := [];
    }

    /** `prisma.customer.findUnique({ where: { brokerId_gstin } })`. */
    method FindUnique(brokerId: string, gstin: string) returns (found: Option<Customer>)
      ensures found.Some? <==> HasKey(rows, brokerId, gstin)
      ensures found.Some? ==> found.value in rows && found.value.brokerId == brokerId && found.value.gstin == gstin
    {
      var i := 0;
      while i < |rows|
        invariant 0 <= i <= |rows|
        invariant forall k :: 0 <= k < i ==> rows[k].brokerId != brokerId || rows[k].gstin != gstin
      {
        if rows[i].brokerId == brokerId && rows[i].gstin == gstin {
          return Some(rows[i]);
        }
        i := i + 1;
      }
      return None;
    }

    /** `POST /customers` for the caller `brokerId`. */
    method Create(lib: EmailLib, brokerId: string, body: CustomerBody, id: string, now: int)
      returns (reply: CreateReply)
      requires Valid()
      modifies this
      ensures Valid()
      ensures reply == CreateReplyFor(old(rows), lib, brokerId, body, id, now)
      ensures rows == TableAfter(old(rows), reply)
    {
      CreatePreservesInvariant(rows, lib, brokerId, body, id, now);
      var errors := CustomerErrors(lib, body.fullName, body.email, body.gstin, body.entityType);
      if errors != [] {
        return Invalid(errors);
      }
      var gstin := ToUpper(Trim(body.gstin));
      var existing := FindUnique(brokerId, gstin);
      if existing.Some? {
        return Duplicate;
      }
      var customer := Customer(id, brokerId, Trim(body.fullName), SanitizedEmail(lib, body.email),
                               gstin, body.entityType, now);
      rows := rows + [customer];
      reply := Created(customer);
    }
  }
}
