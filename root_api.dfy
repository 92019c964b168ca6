/** The controllers of the root implementation (controllers/authController.js,
    organisationController.js and userController.js) run against an abstract
    identity store. Actions that write to the store are methods of Store; the
    read-only ones are functions of the store's collections. */
module RootApi {
  import opened Identity
  import opened FieldRules
  import RootModels

  /** What register hands to `User.create`: the request's fields, with the
      password already hashed once by the controller. */
  function RegisterDraft(s: Signup, newUserId: UserId): (d: RootModels.Draft)
    requires s.password.Some?
    ensures d.password == Some(Hash(Plain(s.password.value)))
  {
    RootModels.Draft(newUserId, s.firstName, s.lastName, s.email, Some(Hash(Plain(s.password.value))), s.phone)
  }

  /** The same values with the plaintext password, or none, left for the
      model's validators and hook. */
  function PlainDraft(s: Signup, newUserId: UserId): (d: RootModels.Draft)
    ensures s.password.None? ==> d.password.None?
    ensures s.password.Some? ==> d.password == Some(Plain(s.password.value))
  {
    var password := match s.password
      case None => None
      case Some(p) => Some(Plain(p));
    RootModels.Draft(newUserId, s.firstName, s.lastName, s.email, password, s.phone)
  }

  class Store {
    var users: map<UserId, User>
    var orgs: map<OrgId, Org>
    var members: set<(UserId, OrgId)>
    /** validator.js isEmail, left uninterpreted. */
    const isEmail: string -> bool

    ghost predicate Valid()
      reads this
    {
      && StoreShape(users, orgs, members)
      && (forall id :: id in users ==> RootModels.Conforms(users[id], isEmail))
      && (forall oid :: oid in orgs ==> NotBlank(orgs[oid].name))
    }

    constructor (isEmail: string -> bool)
      ensures Valid() && this.isEmail == isEmail
      ensures users == map[] && orgs == map[] && members == {}
    {
      this.isEmail := isEmail;
      users, orgs, members := map[], map[], {};
    }

    /** Lines 13-29 of register: `User.create` (validators, then the unique
        email constraint, then the beforeCreate hook), the default
        organisation, and the membership. */
    method CreateAccount(d: RootModels.Draft, newOrgId: OrgId) returns (r: Response)
      requires Valid()
      requires d.userId !in users && newOrgId !in orgs
      modifies this
      ensures Valid()
      ensures !RootModels.Admissible(d, isEmail) ==>
        && r == BadRequest("Registration unsuccessful", FieldErrors(RootModels.UserItems(d, isEmail)))
        && users == old(users) && orgs == old(orgs) && members == old(members)
      ensures RootModels.Admissible(d, isEmail) && EmailTaken(old(users), d.email.value) ==>
        && r == BadRequest("Registration unsuccessful", [FieldError("email", "email must be unique")])
        && users == old(users) && orgs == old(orgs) && members == old(members)
      ensures RootModels.Admissible(d, isEmail) && !EmailTaken(old(users), d.email.value) ==>
        var u := User(d.userId, d.firstName.value, d.lastName.value, d.email.value, Hash(d.password.value), d.phone);
        && users == old(users)[d.userId := u]
        && orgs == old(orgs)[newOrgId := Org(newOrgId, d.firstName.value + "'s Organization",
                                             Some("Organization of " + d.firstName.value))]
        && members == old(members) + {(d.userId, newOrgId)}
        && r == Created(Auth(Issue(d.userId), PublicUser(u)))
    {
      var items := RootModels.UserItems(d, isEmail);
      if items != [] {
        return BadRequest("Registration unsuccessful", FieldErrors(items));
      }
      if EmailTaken(users, d.email.value) {
        return BadRequest("Registration unsuccessful", [FieldError("email", "email must be unique")]);
      }
      var user := RootModels.Stored(d, isEmail);
      var firstName := d.firstName.value;
      // Organization.create cannot fail here: the default name passes the
      // model's validators, and the orgId is fresh.
      RootModels.DefaultOrgNameAccepted(firstName);
      var org := Org(newOrgId, firstName + "'s Organization", Some("Organization of " + firstName));
      SignupKeepsShape(users, orgs, members, user, org);
      users := users[d.userId := user];
      orgs := orgs[newOrgId := org];
      members := members + {(d.userId, newOrgId)};
      r := Created(Auth(Issue(user.userId), PublicUser(user)));
    }

    /** POST /auth/register, as written: there is no pre-check of the email,
        the controller hashes the password and the model's hook hashes the
        result again. A missing password makes bcrypt throw, and the catch
        block then throws on `error.errors`, so no response is sent. */
    method Register(s: Signup, newUserId: UserId, newOrgId: OrgId) returns (r: Response)
      requires Valid()
      requires newUserId !in users && newOrgId !in orgs
      modifies this
      ensures Valid()
      ensures s.password.None? ==>
        r == NoResponse && users == old(users) && orgs == old(orgs) && members == old(members)
      ensures s.password.Some? && !RootModels.Admissible(RegisterDraft(s, newUserId), isEmail) ==>
        && r == BadRequest("Registration unsuccessful",
                           FieldErrors(RootModels.UserItems(RegisterDraft(s, newUserId), isEmail)))
        && users == old(users) && orgs == old(orgs) && members == old(members)
      ensures s.password.Some? && RootModels.Admissible(RegisterDraft(s, newUserId), isEmail)
              && EmailTaken(old(users), s.email.value) ==>
        && r == BadRequest("Registration unsuccessful", [FieldError("email", "email must be unique")])
        && users == old(users) && orgs == old(orgs) && members == old(members)
      ensures s.password.Some? && RootModels.Admissible(RegisterDraft(s, newUserId), isEmail)
              && !EmailTaken(old(users), s.email.value) ==>
        var u := User(newUserId, s.firstName.value, s.lastName.value, s.email.value,
                      Hash(Hash(Plain(s.password.value))), s.phone);
        && users == old(users)[newUserId := u]
        && orgs == old(orgs)[newOrgId := Org(newOrgId, s.firstName.value + "'s Organization",
                                             Some("Organization of " + s.firstName.value))]
        && members == old(members) + {(newUserId, newOrgId)}
        && r == Created(Auth(Issue(newUserId), PublicUser(u)))
    {
      if s.password.None? {
        return NoResponse;
      }
      r := CreateAccount(RegisterDraft(s, newUserId), newOrgId);
    }

    /** Register with the password hashed once, by the model's hook alone, so
        that the validators see the plaintext: a missing password draws the
        notNull item and a 400, and the length rule applies to the plaintext. */
    method RegisterHashedOnce(s: Signup, newUserId: UserId, newOrgId: OrgId) returns (r: Response)
      requires Valid()
      requires newUserId !in users && newOrgId !in orgs
      modifies this
      ensures Valid()
      ensures s.password.None? ==>
        && r.BadRequest? && FieldError("password", "User.password cannot be null") in r.errors
        && users == old(users) && orgs == old(orgs) && members == old(members)
      ensures s.password.Some? && !(8 <= |s.password.value| <= 100) ==>
        && r.BadRequest? && FieldError("password", "Validation len on password failed") in r.errors
        && users == old(users) && orgs == old(orgs) && members == old(members)
      ensures !RootModels.Admissible(PlainDraft(s, newUserId), isEmail) ==>
        && r == BadRequest("Registration unsuccessful",
                           FieldErrors(RootModels.UserItems(PlainDraft(s, newUserId), isEmail)))
        && users == old(users) && orgs == old(orgs) && members == old(members)
      ensures s.password.Some? && RootModels.Admissible(PlainDraft(s, newUserId), isEmail)
              && EmailTaken(old(users), s.email.value) ==>
        && r == BadRequest("Registration unsuccessful", [FieldError("email", "email must be unique")])
        && users == old(users) && orgs == old(orgs) && members == old(members)
      ensures s.password.Some? && RootModels.Admissible(PlainDraft(s, newUserId), isEmail)
              && !EmailTaken(old(users), s.email.value) ==>
        var u := User(newUserId, s.firstName.value, s.lastName.value, s.email.value,
                      Hash(Plain(s.password.value)), s.phone);
        && users == old(users)[newUserId := u]
        && orgs == old(orgs)[newOrgId := Org(newOrgId, s.firstName.value + "'s Organization",
                                             Some("Organization of " + s.firstName.value))]
        && members == old(members) + {(newUserId, newOrgId)}
        && r == Created(Auth(Issue(newUserId), PublicUser(u)))
    {
      var d := PlainDraft(s, newUserId);
      if s.password.None? {
        MissingPasswordReported(d, isEmail);
      } else if !(8 <= |s.password.value| <= 100) {
        LengthItemReported(d, isEmail);
      }
      r := CreateAccount(d, newOrgId);
    }

    /** POST /api/organisations. The organisation is created before the caller
        is looked up; a caller with no user record leaves the organisation
        behind without a member and gets the 400 of the catch block. */
    method CreateOrganization(name: Option<string>, description: Option<string>, caller: UserId,
                              newOrgId: OrgId) returns (r: Response)
      requires Valid()
      requires newOrgId !in orgs
      modifies this
      ensures Valid()
      ensures users == old(users)
      ensures !(name.Some? && NotBlank(name.value)) ==>
        r == BadRequest("Client error", []) && orgs == old(orgs) && members == old(members)
      ensures name.Some? && NotBlank(name.value) ==>
        orgs == old(orgs)[newOrgId := Org(newOrgId, name.value, description)]
      ensures name.Some? && NotBlank(name.value) && caller in users ==>
        && members == old(members) + {(caller, newOrgId)}
        && r == Created(Organisation(OrgView(newOrgId, name.value, description)))
      ensures name.Some? && NotBlank(name.value) && caller !in users ==>
        members == old(members) && r == BadRequest("Client error", [])
    {
      if RootModels.OrgItems(name) != [] {
        return BadRequest("Client error", []);
      }
      var org := Org(newOrgId, name.value, description);
      orgs := orgs[newOrgId := org];
      if caller !in users {
        return BadRequest("Client error", []);
      }
      members := members + {(caller, newOrgId)};
      r := Created(Organisation(PublicOrg(org)));
    }

    /** POST /api/organisations/:orgId/users. The organisation is looked up
        first; the caller's own membership is not checked. */
    method AddUserToOrganization(orgId: OrgId, userId: UserId) returns (r: Response)
      requires Valid()
      modifies this
      ensures Valid()
      ensures users == old(users) && orgs == old(orgs)
      ensures orgId !in orgs ==> r == NotFound("Organization not found") && members == old(members)
      ensures orgId in orgs && userId !in users ==>
        r == NotFound("User not found") && members == old(members)
      ensures orgId in orgs && userId in users ==>
        r == Ok(NoData) && members == old(members) + {(userId, orgId)}
    {
      if orgId !in orgs {
        return NotFound("Organization not found");
      }
      if userId !in users {
        return NotFound("User not found");
      }
      members := members + {(userId, orgId)};
      r := Ok(NoData);
    }
  }

  /** A plaintext outside 8..100 characters draws the len item of the password rule. */
  lemma LengthItemReported(d: RootModels.Draft, isEmail: string -> bool)
    requires d.password.Some? && d.password.value.Plain? && !(8 <= |d.password.value.text| <= 100)
    ensures FieldError("password", "Validation len on password failed")
            in FieldErrors(RootModels.UserItems(d, isEmail))
  {
    var before := RootModels.RequiredTextItems("User", "firstName", d.firstName)
                  + RootModels.RequiredTextItems("User", "lastName", d.lastName)
                  + RootModels.EmailItems(d.email, isEmail);
    var pw := RootModels.PasswordItems(d.password);
    var items := RootModels.UserItems(d, isEmail);
    var k := |before| + |pw| - 1;
    assert pw[|pw| - 1] == ValidationItem("password", "Validation len on password failed", "len");
    assert items[k] == pw[|pw| - 1];
    assert FieldErrors(items)[k] == FieldError("password", "Validation len on password failed");
  }

  /** A password that was never given draws the notNull item of the password rule. */
  lemma MissingPasswordReported(d: RootModels.Draft, isEmail: string -> bool)
    requires d.password.None?
    ensures FieldError("password", "User.password cannot be null")
            in FieldErrors(RootModels.UserItems(d, isEmail))
  {
    var before := RootModels.RequiredTextItems("User", "firstName", d.firstName)
                  + RootModels.RequiredTextItems("User", "lastName", d.lastName)
                  + RootModels.EmailItems(d.email, isEmail);
    var items := RootModels.UserItems(d, isEmail);
    assert items[|before|] == ValidationItem("password", "User.password cannot be null", "notNull");
    assert FieldErrors(items)[|before|] == FieldError("password", "User.password cannot be null");
  }

  /** POST /auth/login. An unknown email and a wrong password get the same answer. */
  function Login(users: map<UserId, User>, email: string, password: string): (r: Response)
    requires EmailsUnique(users)
    ensures r.Ok? <==> exists id :: id in users && users[id].email == email
                                    && Compare(password, users[id].password)
    ensures r.Ok? ==> exists id :: id in users && users[id].email == email
                                   && r == Ok(Auth(Issue(users[id].userId), PublicUser(users[id])))
    ensures !r.Ok? ==> r == Unauthorized("Login unsuccessful", Some(400))
  {
    match FindByEmail(users, email)
    case None => Unauthorized("Login unsuccessful", Some(400))
    case Some(u) =>
      if !Compare(password, u.password) then Unauthorized("Login unsuccessful", Some(400))
      else Ok(Auth(Issue(u.userId), PublicUser(u)))
  }

  /** A password stored hashed twice never matches the plaintext it came from,
      so a user that register created cannot log in with its password. */
  lemma DoubleHashedUserCannotLogIn(users: map<UserId, User>, id: UserId, p: string)
    requires EmailsUnique(users) && id in users
    requires users[id].password == Hash(Hash(Plain(p)))
    ensures Login(users, users[id].email, p) == Unauthorized("Login unsuccessful", Some(400))
  {
    FindByEmailFinds(users, id);
  }

  /** With the password hashed once, the registered user logs in. */
  lemma HashedOnceUserCanLogIn(users: map<UserId, User>, id: UserId, p: string)
    requires EmailsUnique(users) && id in users
    requires users[id].password == Hash(Plain(p))
    ensures Login(users, users[id].email, p) == Ok(Auth(Issue(users[id].userId), PublicUser(users[id])))
  {
    FindByEmailFinds(users, id);
  }

  /** GET /api/organisations: the caller's organisations, and no others. */
  function GetAllOrganizations(orgs: map<OrgId, Org>, members: set<(UserId, OrgId)>,
                               caller: UserId): (r: Response)
    requires OrgKeysMatch(orgs)
    ensures r.Ok? && r.data.Organisations?
    ensures forall oid :: oid in orgs ==> (PublicOrg(orgs[oid]) in r.data.orgs <==> (caller, oid) in members)
    ensures forall v :: v in r.data.orgs ==>
              v.orgId in orgs && PublicOrg(orgs[v.orgId]) == v && (caller, v.orgId) in members
  {
    Ok(Organisations(MemberOrgs(orgs, members, caller)))
  }

  /** GET /api/organisations/:orgId: found only for a member; an organisation
      the caller does not belong to is reported as missing. */
  function GetOrganization(orgs: map<OrgId, Org>, members: set<(UserId, OrgId)>,
                           caller: UserId, orgId: OrgId): (r: Response)
    ensures r.Ok? <==> orgId in orgs && (caller, orgId) in members
    ensures r.Ok? ==> r.data == Organisation(PublicOrg(orgs[orgId]))
    ensures !r.Ok? ==> r == NotFound("Organization not found")
  {
    if orgId in orgs && (caller, orgId) in members then Ok(Organisation(PublicOrg(orgs[orgId])))
    else NotFound("Organization not found")
  }

  /** A non-member cannot tell an existing organisation from a missing one. */
  lemma OrganizationExistenceNotLeaked(orgs: map<OrgId, Org>, members: set<(UserId, OrgId)>,
                                       caller: UserId, orgId: OrgId, missing: OrgId)
    requires (caller, orgId) !in members && missing !in orgs
    ensures GetOrganization(orgs, members, caller, orgId) == GetOrganization(orgs, members, caller, missing)
  {
  }

  /** An organisation createOrganization made for a stored caller is among the
      caller's organisations afterwards. */
  lemma CreatedOrganizationListed(orgs: map<OrgId, Org>, members: set<(UserId, OrgId)>,
                                  caller: UserId, o: Org)
    requires OrgKeysMatch(orgs) && o.orgId !in orgs
    ensures PublicOrg(o) in GetAllOrganizations(orgs[o.orgId := o], members + {(caller, o.orgId)}, caller).data.orgs
  {
    assert orgs[o.orgId := o][o.orgId] == o;
  }

  // ---- the user-read rule of getUser ----

  /** The query of getUser (lines 21-30): the organisations the caller belongs
      to, each with the users of its include, read here as all its members. */
  function CallerOrgsWithMembers(orgs: map<OrgId, Org>, members: set<(UserId, OrgId)>,
                                 caller: UserId): map<OrgId, set<UserId>>
  {
    map oid | oid in orgs && (caller, oid) in members :: OrgUsers(members, oid)
  }

  /** The same query if the include's `where` also narrows each `org.users`
      down to the rows it matches, that is to the caller. */
  function CallerOrgsFiltered(orgs: map<OrgId, Org>, members: set<(UserId, OrgId)>,
                              caller: UserId): map<OrgId, set<UserId>>
  {
    map oid | oid in orgs && (caller, oid) in members :: {caller}
  }

  /** `organizations.some(org => org.users.some(u => u.userId === userId))`. */
  predicate BelongsToOrganization(included: map<OrgId, set<UserId>>, target: UserId)
  {
    exists oid :: oid in included && target in included[oid]
  }

  /** Caller and target are members of one organisation. */
  ghost predicate SharesOrg(orgs: map<OrgId, Org>, members: set<(UserId, OrgId)>,
                            caller: UserId, target: UserId)
  {
    exists oid :: oid in orgs && (caller, oid) in members && (target, oid) in members
  }

  /** Read with full member sets, the check at lines 32-34 is "shares an organisation". */
  lemma BelongsIffSharesOrg(orgs: map<OrgId, Org>, members: set<(UserId, OrgId)>,
                            caller: UserId, target: UserId)
    ensures BelongsToOrganization(CallerOrgsWithMembers(orgs, members, caller), target)
            <==> SharesOrg(orgs, members, caller, target)
  {
    var included := CallerOrgsWithMembers(orgs, members, caller);
    if SharesOrg(orgs, members, caller, target) {
      var oid :| oid in orgs && (caller, oid) in members && (target, oid) in members;
      assert oid in included && target in included[oid];
    }
  }

  /** Read with filtered member sets, the same check only ever finds the
      caller, so the rule grants a user access to its own record alone. */
  lemma FilteredIncludeFindsOnlyCaller(orgs: map<OrgId, Org>, members: set<(UserId, OrgId)>,
                                       caller: UserId, target: UserId)
    ensures BelongsToOrganization(CallerOrgsFiltered(orgs, members, caller), target) ==> target == caller
  {
  }

  /** GET /api/users/:id with the rule the controller states: a missing user
      is reported first, then access is granted to the user itself or to a
      user sharing an organisation with it. */
  function GetUser(users: map<UserId, User>, orgs: map<OrgId, Org>, members: set<(UserId, OrgId)>,
                   caller: UserId, target: UserId): (r: Response)
    ensures target !in users ==> r == NotFound("User not found")
    ensures target in users ==> (r.Ok? <==> target == caller || SharesOrg(orgs, members, caller, target))
    ensures r.Ok? ==> r.data == UserRecord(PublicUser(users[target]))
    ensures target in users && !r.Ok? ==> r == Forbidden("You do not have access to this user")
  {
    if target !in users then NotFound("User not found")
    else
      BelongsIffSharesOrg(orgs, members, caller, target);
      if target != caller && !BelongsToOrganization(CallerOrgsWithMembers(orgs, members, caller), target)
      then Forbidden("You do not have access to this user")
      else Ok(UserRecord(PublicUser(users[target])))
  }

  /** GET /api/users/:id as written: line 2 binds `generateToken` to the module
      object rather than to its function, so the call at line 19 throws for
      every user that exists and the catch block answers 500. */
  function GetUserAsWritten(users: map<UserId, User>, target: UserId): (r: Response)
    ensures target !in users ==> r == NotFound("User not found")
    ensures target in users ==> r == ServerError("An error occurred while retrieving the user record")
  {
    if target !in users then NotFound("User not found")
    else ServerError("An error occurred while retrieving the user record")
  }

  /** The discrepancy: a stored user reading its own record is answered 200
      under the stated rule and 500 by the code as written. */
  lemma OwnRecordRefusedAsWritten(users: map<UserId, User>, orgs: map<OrgId, Org>,
                                  members: set<(UserId, OrgId)>, id: UserId)
    requires id in users
    ensures GetUser(users, orgs, members, id, id) == Ok(UserRecord(PublicUser(users[id])))
    ensures StatusCode(GetUserAsWritten(users, id)) == 500
  {
  }
}
