/** User records, roles, statuses and the authenticated identity claim.
    The Roles and Status enumerations are not part of this model's sources;
    their members are the ones the services compare against. */
module UserModel {
  import opened Results

  /** Document id (a MongoDB ObjectId rendered as a string). */
  type Id = string

  /** A role value. Besides the three enum members, `role in Roles` also
      accepts the names every JavaScript object inherits from
      `Object.prototype`, and `changeRole` then stores that name as the role:
      `Inherited` carries such a value. */
  datatype Role = USER | ADMIN | SYS_ADMIN | Inherited(member: PrototypeMember)

  /** The properties of `Object.prototype`, which the `in` operator finds on
      any object, the Roles enumeration included. */
  datatype PrototypeMember =
    | Constructor | HasOwnProperty | IsPrototypeOf | PropertyIsEnumerable
    | ToLocaleString | ToString | ValueOf | Proto
    | DefineGetter | DefineSetter | LookupGetter | LookupSetter

  /** The three role keys the enumeration itself declares. */
  predicate IsEnumRole(r: Role) {
    !r.Inherited?
  }

  datatype Status = PASSIVE | ACTIVE | SUSPENDED | DELETED

  /** A stored user. `role` is optional because `changeRole` may write `null`.
      `password` is whatever the services wrote: normally a hash. */
  datatype User = User(username: string, email: string, password: string, role: Option<Role>, status: Status)

  /** A stored user together with its id, as a query returns it. */
  datatype UserDoc = UserDoc(id: Id, user: User)

  /** The caller's identity as carried in a token (src/core/types/TokenPayload.ts). */
  datatype TokenPayload = TokenPayload(id: Id, status: Status, username: string, email: string, role: Option<Role>)

  /** Schema defaults for a freshly created user (the user schema is not part
      of this model; a new account starts as a PASSIVE plain USER). */
  const DefaultRole: Option<Role> := Some(USER)
  const DefaultStatus: Status := PASSIVE

  /** The property name under which `role in Roles` finds a role. */
  function NameOf(r: Role): string {
    match r
    case USER => "USER"
    case ADMIN => "ADMIN"
    case SYS_ADMIN => "SYS_ADMIN"
    case Inherited(m) => MemberName(m)
  }

  function MemberName(m: PrototypeMember): string {
    match m
    case Constructor => "constructor"
    case HasOwnProperty => "hasOwnProperty"
    case IsPrototypeOf => "isPrototypeOf"
    case PropertyIsEnumerable => "propertyIsEnumerable"
    case ToLocaleString => "toLocaleString"
    case ToString => "toString"
    case ValueOf => "valueOf"
    case Proto => "__proto__"
    case DefineGetter => "__defineGetter__"
    case DefineSetter => "__defineSetter__"
    case LookupGetter => "__lookupGetter__"
    case LookupSetter => "__lookupSetter__"
  }

  /** The enumeration's own keys. */
  const EnumKeys: set<string> := {"USER", "ADMIN", "SYS_ADMIN"}

  /** The names inherited from `Object.prototype`. */
  const PrototypeNames: set<string> :=
    {"constructor", "hasOwnProperty", "isPrototypeOf", "propertyIsEnumerable",
     "toLocaleString", "toString", "valueOf", "__proto__",
     "__defineGetter__", "__defineSetter__", "__lookupGetter__", "__lookupSetter__"}

  /** The role `role in Roles` finds under `name`, if any. */
  function RoleOfName(name: string): (r: Option<Role>)
    ensures r.Some? <==> name in EnumKeys + PrototypeNames
    ensures r.Some? ==> NameOf(r.value) == name
    ensures r.Some? ==> (IsEnumRole(r.value) <==> name in EnumKeys)
  {
    if name == "USER" then Some(USER)
    else if name == "ADMIN" then Some(ADMIN)
    else if name == "SYS_ADMIN" then Some(SYS_ADMIN)
    else if name == "constructor" then Some(Inherited(Constructor))
    else if name == "hasOwnProperty" then Some(Inherited(HasOwnProperty))
    else if name == "isPrototypeOf" then Some(Inherited(IsPrototypeOf))
    else if name == "propertyIsEnumerable" then Some(Inherited(PropertyIsEnumerable))
    else if name == "toLocaleString" then Some(Inherited(ToLocaleString))
    else if name == "toString" then Some(Inherited(ToString))
    else if name == "valueOf" then Some(Inherited(ValueOf))
    else if name == "__proto__" then Some(Inherited(Proto))
    else if name == "__defineGetter__" then Some(Inherited(DefineGetter))
    else if name == "__defineSetter__" then Some(Inherited(DefineSetter))
    else if name == "__lookupGetter__" then Some(Inherited(LookupGetter))
    else if name == "__lookupSetter__" then Some(Inherited(LookupSetter))
    else None
  }

  /** Every role's name is recognised and maps back to that role. */
  lemma RoleNameRoundTrip(r: Role)
    ensures RoleOfName(NameOf(r)) == Some(r)
  {
  }

  /** Opaque password hashing: `hash` and `compare` of the encryption service. */
  datatype Crypto = Crypto(hash: string -> string, compare: (string, string) -> bool)

  /** The one property assumed of the encryption service: a password compares
      equal to its own hash. */
  ghost predicate Sound(c: Crypto) {
    forall p :: c.compare(p, c.hash(p))
  }
}
