/** Vocabulary shared by the two implementations of the user and organisation
    API: identifiers, the stored records and their public projections, the
    symbolic password hasher and token issuer, the tagged HTTP outcomes, and
    the queries both controller sets run against the identity store. */
module Identity {

  datatype Option<+T> = None | Some(value: T)

  type UserId = string
  type OrgId = string

  /** A value of a password column: the plaintext of a request, or a bcrypt
      digest of an earlier value. bcrypt is taken as an ideal hash: a digest
      is computed from exactly one value, and salting is abstracted away. */
  datatype Secret = Plain(text: string) | Digest(of: Secret)

  /** bcrypt.hash applied to a value. */
  function Hash(v: Secret): Secret
  {
    Digest(v)
  }

  /** bcrypt.compare(plaintext, stored). */
  function Compare(plaintext: string, stored: Secret): bool
  {
    stored == Digest(Plain(plaintext))
  }

  /** The one fact the controllers rely on: a plaintext matches its own digest. */
  lemma CompareHash(p: string)
    ensures Compare(p, Hash(Plain(p)))
  {
  }

  /** Every bcrypt digest is a 60-character string ("$2a$10$" and 53 more). */
  const DigestLength: nat := 60

  /** Length of the string a password column holds. */
  function SecretLength(v: Secret): nat
  {
    match v
    case Plain(t) => |t|
    case Digest(_) => DigestLength
  }

  /** A signed access token for a subject (jwt.sign of { userId }). */
  datatype Token = Issue(subject: UserId)

  datatype User = User(userId: UserId, firstName: string, lastName: string,
                       email: string, password: Secret, phone: Option<string>)

  datatype Org = Org(orgId: OrgId, name: string, description: Option<string>)

  /** The user fields a response may carry; there is no password field. */
  datatype UserView = UserView(userId: UserId, firstName: string, lastName: string,
                               email: string, phone: Option<string>)

  datatype OrgView = OrgView(orgId: OrgId, name: string, description: Option<string>)

  function PublicUser(u: User): UserView
  {
    UserView(u.userId, u.firstName, u.lastName, u.email, u.phone)
  }

  function PublicOrg(o: Org): OrgView
  {
    OrgView(o.orgId, o.name, o.description)
  }

  /** The body of a registration request; a missing or null field is None. */
  datatype Signup = Signup(firstName: Option<string>, lastName: Option<string>,
                           email: Option<string>, password: Option<string>,
                           phone: Option<string>)

  /** One entry of a Sequelize ValidationError: the attribute, the message and
      the validator that produced it. */
  datatype ValidationItem = ValidationItem(path: string, message: string, validatorKey: string)

  /** One `{ field, message }` entry of an error response. */
  datatype FieldError = FieldError(field: string, message: string)

  /** The response's error list, `error.errors.map(err => ({ field: err.path, message: err.message }))`. */
  function FieldErrors(items: seq<ValidationItem>): (r: seq<FieldError>)
    ensures |r| == |items|
    ensures forall i :: 0 <= i < |items| ==> r[i].field == items[i].path && r[i].message == items[i].message
  {
    if items == [] then []
    else [FieldError(items[0].path, items[0].message)] + FieldErrors(items[1..])
  }

  datatype Payload =
    | NoData
    | Auth(accessToken: Token, user: UserView)
    | UserRecord(user: UserView)
    | Organisation(org: OrgView)
    | Organisations(orgs: set<OrgView>)

  /** What a controller action answers. `bodyStatusCode` is the `statusCode`
      field some 401 bodies carry, which need not equal the HTTP status.
      NoResponse: the handler throws from its own catch block and never answers. */
  datatype Response =
    | Created(data: Payload)
    | Ok(data: Payload)
    | BadRequest(message: string, errors: seq<FieldError>)
    | Unauthorized(message: string, bodyStatusCode: Option<nat>)
    | Forbidden(message: string)
    | NotFound(message: string)
    | Invalid(errors: seq<FieldError>)
    | ServerError(message: string)
    | NoResponse

  /** The HTTP status of a response; 0 stands for "no response is sent". */
  function StatusCode(r: Response): nat
  {
    match r
    case Created(_) => 201
    case Ok(_) => 200
    case BadRequest(_, _) => 400
    case Unauthorized(_, _) => 401
    case Forbidden(_) => 403
    case NotFound(_) => 404
    case Invalid(_) => 422
    case ServerError(_) => 500
    case NoResponse => 0
  }

  // ---- the shape every store keeps ----

  /** A user is filed under its own userId. */
  ghost predicate UserKeysMatch(users: map<UserId, User>)
  {
    forall id :: id in users ==> users[id].userId == id
  }

  /** An organisation is filed under its own orgId. */
  ghost predicate OrgKeysMatch(orgs: map<OrgId, Org>)
  {
    forall oid :: oid in orgs ==> orgs[oid].orgId == oid
  }

  /** The unique constraint on the email column. */
  ghost predicate EmailsUnique(users: map<UserId, User>)
  {
    forall a, b :: a in users && b in users && users[a].email == users[b].email ==> a == b
  }

  /** Every membership row relates a stored user to a stored organisation. */
  ghost predicate MembersExist(users: map<UserId, User>, orgs: map<OrgId, Org>,
                               members: set<(UserId, OrgId)>)
  {
    forall m :: m in members ==> m.0 in users && m.1 in orgs
  }

  ghost predicate StoreShape(users: map<UserId, User>, orgs: map<OrgId, Org>,
                             members: set<(UserId, OrgId)>)
  {
    UserKeysMatch(users) && OrgKeysMatch(orgs) && EmailsUnique(users)
    && MembersExist(users, orgs, members)
  }

  // ---- queries ----

  predicate EmailTaken(users: map<UserId, User>, email: string)
  {
    exists id :: id in users && users[id].email == email
  }

  /** `User.findOne({ where: { email } })`. */
  function FindByEmail(users: map<UserId, User>, email: string): (r: Option<User>)
    requires EmailsUnique(users)
    ensures r.Some? <==> EmailTaken(users, email)
    ensures r.Some? ==> r.value.email == email
                        && exists id :: id in users && users[id] == r.value
  {
    if EmailTaken(users, email) then
      var id :| id in users && users[id].email == email;
      Some(users[id])
    else None
  }

  /** Under a unique email column, the lookup finds the one user with that email. */
  lemma FindByEmailFinds(users: map<UserId, User>, id: UserId)
    requires EmailsUnique(users) && id in users
    ensures FindByEmail(users, users[id].email) == Some(users[id])
  {
    var r := FindByEmail(users, users[id].email);
    var k :| k in users && users[k] == r.value;
    assert users[k].email == users[id].email;
  }

  /** Filing a user whose email is not yet taken keeps emails unique. */
  lemma NewEmailKeepsUnique(users: map<UserId, User>, id: UserId, u: User)
    requires EmailsUnique(users) && !EmailTaken(users, u.email)
    ensures EmailsUnique(users[id := u])
  {
    var after := users[id := u];
    forall a, b | a in after && b in after && after[a].email == after[b].email
      ensures a == b
    {
      if a != id && b != id {
        assert users[a].email == users[b].email;
      }
    }
  }

  /** A registration keeps the store's shape: a new user with an email not yet
      taken, a new organisation, and the one membership between them. */
  lemma SignupKeepsShape(users: map<UserId, User>, orgs: map<OrgId, Org>,
                         members: set<(UserId, OrgId)>, u: User, o: Org)
    requires StoreShape(users, orgs, members)
    requires u.userId !in users && o.orgId !in orgs && !EmailTaken(users, u.email)
    ensures StoreShape(users[u.userId := u], orgs[o.orgId := o], members + {(u.userId, o.orgId)})
  {
    NewEmailKeepsUnique(users, u.userId, u);
  }

  /** The organisations a user belongs to, each projected to orgId, name and description. */
  function MemberOrgs(orgs: map<OrgId, Org>, members: set<(UserId, OrgId)>, userId: UserId): (r: set<OrgView>)
    requires OrgKeysMatch(orgs)
    ensures forall oid :: oid in orgs ==> (PublicOrg(orgs[oid]) in r <==> (userId, oid) in members)
    ensures forall v :: v in r ==> v.orgId in orgs && PublicOrg(orgs[v.orgId]) == v
                                   && (userId, v.orgId) in members
  {
    set oid | oid in orgs && (userId, oid) in members :: PublicOrg(orgs[oid])
  }

  /** The users that some membership row places in an organisation. */
  function OrgUsers(members: set<(UserId, OrgId)>, orgId: OrgId): (r: set<UserId>)
    ensures forall u :: u in r <==> (u, orgId) in members
  {
    set m | m in members && m.1 == orgId :: m.0
  }
}
