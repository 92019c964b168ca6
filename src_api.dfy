/** The controllers of the `src/` implementation (src/controllers/auth.js,
    organisations.js and user.js) run against an abstract identity store.
    Actions that write to the store are methods of Store; the read-only ones
    are functions of the store's collections. */
module SrcApi {
  import opened Identity
  import SrcUserModel

  /** The pre-check of register: a user with this email already exists. */
  predicate Duplicate(users: map<UserId, User>, s: Signup)
  {
    s.email.Some? && EmailTaken(users, s.email.value)
  }

  class Store {
    var users: map<UserId, User>
    var orgs: map<OrgId, Org>
    var members: set<(UserId, OrgId)>
    /** validator.js isEmail, left uninterpreted. */
    const isEmail: string -> bool

    ghost predicate Valid()
      reads this
    {
      && StoreShape(users, orgs, members)
      && (forall id :: id in users ==> SrcUserModel.Conforms(users[id], isEmail))
      && (forall oid :: oid in orgs ==> orgs[oid].name != "")
    }

    constructor (isEmail: string -> bool)
      ensures Valid() && this.isEmail == isEmail
      ensures users == map[] && orgs == map[] && members == {}
    {
      this.isEmail := isEmail;
      users, orgs, members := map[], map[], {};
    }

    /** POST /auth/register. `newUserId` and `newOrgId` are the UUIDs the
        models' defaults generate; they are fresh. */
    method Register(s: Signup, newUserId: UserId, newOrgId: OrgId) returns (r: Response)
      requires Valid()
      requires newUserId !in users && newOrgId !in orgs
      modifies this
      ensures Valid()
      ensures Duplicate(old(users), s) ==>
        && r == BadRequest("User already exists", [])
        && users == old(users) && orgs == old(orgs) && members == old(members)
      ensures !Duplicate(old(users), s) && !SrcUserModel.Acceptable(s, isEmail) ==>
        && r == Invalid(FieldErrors(SrcUserModel.SignupItems(s, isEmail)))
        && users == old(users) && orgs == old(orgs) && members == old(members)
      ensures !Duplicate(old(users), s) && SrcUserModel.Acceptable(s, isEmail) ==>
        var u := User(newUserId, s.firstName.value, s.lastName.value, s.email.value,
                      Hash(Plain(s.password.value)), s.phone);
        && users == old(users)[newUserId := u]
        && orgs == old(orgs)[newOrgId := Org(newOrgId, s.firstName.value + "'s Organisation",
                                             Some(s.firstName.value + "'s default organisation"))]
        && members == old(members) + {(newUserId, newOrgId)}
        && r == Created(Auth(Issue(newUserId), PublicUser(u)))
    {
      if Duplicate(users, s) {
        return BadRequest("User already exists", []);
      }
      var items := SrcUserModel.SignupItems(s, isEmail);
      if items != [] {
        return Invalid(FieldErrors(items));
      }
      var user := SrcUserModel.Stored(newUserId, s, isEmail);
      var firstName := s.firstName.value;
      var org := Org(newOrgId, firstName + "'s Organisation", Some(firstName + "'s default organisation"));
      SignupKeepsShape(users, orgs, members, user, org);
      users := users[newUserId := user];
      orgs := orgs[newOrgId := org];
      members := members + {(newUserId, newOrgId)};
      r := Created(Auth(Issue(user.userId), PublicUser(user)));
    }

    /** POST /api/organisations. The `creatorId` the controller passes is not an
        attribute of the Organisation model, so nothing records it; the caller
        does not become a member either. */
    method CreateOrganisation(name: Option<string>, description: Option<string>, newOrgId: OrgId)
      returns (r: Response)
      requires Valid()
      requires newOrgId !in orgs
      modifies this
      ensures Valid()
      ensures name.None? || name.value == "" ==>
        && r == BadRequest("Name is required", [])
        && users == old(users) && orgs == old(orgs) && members == old(members)
      ensures name.Some? && name.value != "" ==>
        && orgs == old(orgs)[newOrgId := Org(newOrgId, name.value, description)]
        && users == old(users) && members == old(members)
        && r == Created(Organisation(OrgView(newOrgId, name.value, description)))
    {
      if name.None? || name.value == "" {
        return BadRequest("Name is required", []);
      }
      var org := Org(newOrgId, name.value, description);
      orgs := orgs[newOrgId := org];
      r := Created(Organisation(PublicOrg(org)));
    }

    /** POST /api/organisations/:orgId/users. The organisation is looked up
        first; the caller's own membership is not checked. */
    method AddUserToOrganisation(orgId: OrgId, userId: UserId) returns (r: Response)
      requires Valid()
      modifies this
      ensures Valid()
      ensures users == old(users) && orgs == old(orgs)
      ensures orgId !in orgs ==> r == NotFound("Organisation not found") && members == old(members)
      ensures orgId in orgs && userId !in users ==>
        r == NotFound("User not found") && members == old(members)
      ensures orgId in orgs && userId in users ==>
        r == Ok(NoData) && members == old(members) + {(userId, orgId)}
    {
      if orgId !in orgs {
        return NotFound("Organisation not found");
      }
      if userId !in users {
        return NotFound("User not found");
      }
      members := members + {(userId, orgId)};
      r := Ok(NoData);
    }
  }

  /** POST /auth/login. An unknown email is answered without consulting the
      hasher; the two failures carry the same message but different bodies. */
  function Login(users: map<UserId, User>, email: string, password: string): (r: Response)
    requires EmailsUnique(users)
    ensures !EmailTaken(users, email) ==> r == Unauthorized("Authentication failed", None)
    ensures r.Ok? <==> exists id :: id in users && users[id].email == email
                                    && Compare(password, users[id].password)
    ensures r.Ok? ==> exists id :: id in users && users[id].email == email
                                   && r == Ok(Auth(Issue(users[id].userId), PublicUser(users[id])))
    ensures EmailTaken(users, email) && !r.Ok? ==> r == Unauthorized("Authentication failed", Some(401))
  {
    match FindByEmail(users, email)
    case None => Unauthorized("Authentication failed", None)
    case Some(u) =>
      if !Compare(password, u.password) then Unauthorized("Authentication failed", Some(401))
      else Ok(Auth(Issue(u.userId), PublicUser(u)))
  }

  /** A user that register stored can log in with the password it registered. */
  lemma RegisteredUserCanLogIn(users: map<UserId, User>, s: Signup, id: UserId, isEmail: string -> bool)
    requires EmailsUnique(users) && id !in users
    requires !Duplicate(users, s) && SrcUserModel.Acceptable(s, isEmail)
    ensures var u := SrcUserModel.Stored(id, s, isEmail);
            && EmailsUnique(users[id := u])
            && Login(users[id := u], s.email.value, s.password.value) == Ok(Auth(Issue(id), PublicUser(u)))
  {
    var u := SrcUserModel.Stored(id, s, isEmail);
    NewEmailKeepsUnique(users, id, u);
    FindByEmailFinds(users[id := u], id);
  }

  /** GET /api/organisations, for the userId the request body names. */
  function GetAllOrganisations(users: map<UserId, User>, orgs: map<OrgId, Org>,
                               members: set<(UserId, OrgId)>, userId: UserId): (r: Response)
    requires OrgKeysMatch(orgs)
    ensures userId !in users ==> r == NotFound("User not found")
    ensures userId in users ==> r.Ok? && r.data.Organisations?
    ensures r.Ok? && r.data.Organisations? ==>
      forall oid :: oid in orgs ==> (PublicOrg(orgs[oid]) in r.data.orgs <==> (userId, oid) in members)
    ensures r.Ok? && r.data.Organisations? ==>
      forall v :: v in r.data.orgs ==> v.orgId in orgs && PublicOrg(orgs[v.orgId]) == v
                                        && (userId, v.orgId) in members
  {
    if userId !in users then NotFound("User not found")
    else Ok(Organisations(MemberOrgs(orgs, members, userId)))
  }

  /** An organisation created through createOrganisation is not among its
      creator's organisations: no membership row mentions it. */
  lemma CreatedOrganisationNotListed(users: map<UserId, User>, orgs: map<OrgId, Org>,
                                     members: set<(UserId, OrgId)>, caller: UserId, o: Org)
    requires StoreShape(users, orgs, members) && caller in users
    requires o.orgId !in orgs
    ensures var r := GetAllOrganisations(users, orgs[o.orgId := o], members, caller);
            r.Ok? && PublicOrg(o) !in r.data.orgs
  {
    var after := orgs[o.orgId := o];
    assert (caller, o.orgId) !in members;
    assert after[o.orgId] == o;
  }

  /** GET /api/organisations/:orgId: found or not, with no membership check. */
  function GetOrganisationById(orgs: map<OrgId, Org>, orgId: OrgId): (r: Response)
    ensures r.Ok? <==> orgId in orgs
    ensures r.Ok? ==> r.data == Organisation(PublicOrg(orgs[orgId]))
    ensures !r.Ok? ==> r == NotFound("Organisation not found")
  {
    if orgId in orgs then Ok(Organisation(PublicOrg(orgs[orgId])))
    else NotFound("Organisation not found")
  }

  /** GET /api/users/:id: any existing user, to any caller. */
  function GetUserById(users: map<UserId, User>, id: UserId): (r: Response)
    ensures r.Ok? <==> id in users
    ensures r.Ok? ==> r.data == UserRecord(PublicUser(users[id]))
    ensures !r.Ok? ==> r == NotFound("User not found")
  {
    if id in users then Ok(UserRecord(PublicUser(users[id])))
    else NotFound("User not found")
  }
}
