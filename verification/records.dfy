/** The two database tables of the application, as row values. */
module Records {
  import opened Wrappers

  /** The `Role` enumeration of the user table. */
  datatype Role = Admin | Broker {
    /** The string the role is serialised as (in the token payload and in JSON replies). */
    function Name(): string {
      match this
      case Admin => "ADMIN"
      case Broker => "BROKER"
    }
  }

  /** A row of the user table; `password` holds the bcrypt hash. */
  datatype User = User(
    id: string,
    fullName: string,
    email: string,
    password: string,
    role: Role,
    createdAt: int)

  /** A row of the customer table, owned by the broker `brokerId`. */
  datatype Customer = Customer(
    id: string,
    brokerId: string,
    fullName: string,
    email: string,
    gstin: string,
    entityType: string,
    createdAt: int)

  const Exporter: string := "EXPORTER"
  const Importer: string := "IMPORTER"

  function UserCreatedAt(u: User): int { u.createdAt }
  function CustomerCreatedAt(c: Customer): int { c.createdAt }

  /** The unique columns of the user table that `findUnique` looks a user up by. */
  datatype UserKey = ById | ByEmail

  function KeyOf(u: User, key: UserKey): string {
    match key
    case ById => u.id
    case ByEmail => u.email
  }

  /** `prisma.user.findUnique({ where: { <key>: value } })`: the first row with that value. */
  function FindUser(users: seq<User>, key: UserKey, value: string): (found: Option<User>)
    ensures found.Some? ==> found.value in users && KeyOf(found.value, key) == value
    ensures found.None? <==> forall i :: 0 <= i < |users| ==> KeyOf(users[i], key) != value
  {
    if users == [] then None
    else if KeyOf(users[0], key) == value then Some(users[0])
    else
      var rest := FindUser(users[1..], key, value);
      assert forall i :: 1 <= i < |users| ==> users[i] == users[1..][i - 1];
      rest
  }
}
