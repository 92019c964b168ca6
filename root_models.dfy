/** The User and Organization models of the root implementation
    (db/models/user.js, db/models/organisation.js): the attribute validators
    with Sequelize's default messages, and the beforeCreate hook of User. */
module RootModels {
  import opened Identity
  import opened FieldRules

  /** The values the register action hands to `User.create`; the password is
      whatever value the action passes (a digest, a plaintext, or nothing). */
  datatype Draft = Draft(userId: UserId, firstName: Option<string>, lastName: Option<string>,
                         email: Option<string>, password: Option<Secret>, phone: Option<string>)

  /** A non-null attribute with `notEmpty: true` and no message of its own. */
  function RequiredTextItems(model: string, field: string, v: Option<string>): (r: seq<ValidationItem>)
    ensures r == [] <==> v.Some? && NotBlank(v.value)
    ensures forall i :: 0 <= i < |r| ==> r[i].path == field
  {
    match v
    case None => [ValidationItem(field, model + "." + field + " cannot be null", "notNull")]
    case Some(s) =>
      if NotBlank(s) then [] else [ValidationItem(field, "Validation notEmpty on " + field + " failed", "notEmpty")]
  }

  /** email: non-null, notEmpty and isEmail. */
  function EmailItems(v: Option<string>, isEmail: string -> bool): (r: seq<ValidationItem>)
    ensures r == [] <==> v.Some? && NotBlank(v.value) && isEmail(v.value)
    ensures forall i :: 0 <= i < |r| ==> r[i].path == "email"
  {
    match v
    case None => [ValidationItem("email", "User.email cannot be null", "notNull")]
    case Some(s) =>
      (if NotBlank(s) then [] else [ValidationItem("email", "Validation notEmpty on email failed", "notEmpty")])
      + (if isEmail(s) then [] else [ValidationItem("email", "Validation isEmail on email failed", "isEmail")])
  }

  /** Whether the string a password column would hold is blank. A digest never is. */
  predicate SecretNotBlank(v: Secret)
  {
    match v
    case Plain(t) => NotBlank(t)
    case Digest(_) => true
  }

  /** password: non-null, notEmpty and `len: [8, 100]`, all applied to the value handed to create. */
  function PasswordItems(v: Option<Secret>): (r: seq<ValidationItem>)
    ensures r == [] <==> v.Some? && SecretNotBlank(v.value) && 8 <= SecretLength(v.value) <= 100
    ensures forall i :: 0 <= i < |r| ==> r[i].path == "password"
  {
    match v
    case None => [ValidationItem("password", "User.password cannot be null", "notNull")]
    case Some(s) =>
      (if SecretNotBlank(s) then [] else [ValidationItem("password", "Validation notEmpty on password failed", "notEmpty")])
      + (if 8 <= SecretLength(s) <= 100 then [] else [ValidationItem("password", "Validation len on password failed", "len")])
  }

  /** phone: may be absent; otherwise `/^[0-9]+$/i`, one digit or more. */
  function PhoneItems(v: Option<string>): (r: seq<ValidationItem>)
    ensures r == [] <==> (v.Some? ==> DigitsOnly(v.value))
    ensures forall i :: 0 <= i < |r| ==> r[i].path == "phone"
  {
    match v
    case None => []
    case Some(s) => if DigitsOnly(s) then [] else [ValidationItem("phone", "Validation is on phone failed", "is")]
  }

  /** The field rules of db/models/user.js, stated on their own. */
  ghost predicate Admissible(d: Draft, isEmail: string -> bool)
  {
    && d.firstName.Some? && NotBlank(d.firstName.value)
    && d.lastName.Some? && NotBlank(d.lastName.value)
    && d.email.Some? && NotBlank(d.email.value) && isEmail(d.email.value)
    && d.password.Some? && SecretNotBlank(d.password.value) && 8 <= SecretLength(d.password.value) <= 100
    && (d.phone.Some? ==> DigitsOnly(d.phone.value))
  }

  /** The items of a failed User validation, in attribute order. */
  function UserItems(d: Draft, isEmail: string -> bool): (r: seq<ValidationItem>)
    ensures r == [] <==> Admissible(d, isEmail)
  {
    RequiredTextItems("User", "firstName", d.firstName) + RequiredTextItems("User", "lastName", d.lastName)
    + EmailItems(d.email, isEmail) + PasswordItems(d.password) + PhoneItems(d.phone)
  }

  /** What every stored root user satisfies. */
  ghost predicate Conforms(u: User, isEmail: string -> bool)
  {
    && NotBlank(u.firstName) && NotBlank(u.lastName)
    && NotBlank(u.email) && isEmail(u.email)
    && (u.phone.Some? ==> DigitsOnly(u.phone.value))
    && u.password.Digest?
  }

  /** The inserted row: the beforeCreate hook has replaced the password by a
      salted digest of the value it received. */
  function Stored(d: Draft, ghost isEmail: string -> bool): (u: User)
    requires Admissible(d, isEmail)
    ensures Conforms(u, isEmail)
    ensures u.userId == d.userId && u.email == d.email.value
    ensures u.password == Hash(d.password.value) && u.password != d.password.value
  {
    User(d.userId, d.firstName.value, d.lastName.value, d.email.value, Hash(d.password.value), d.phone)
  }

  /** The length rule cannot reject a digest: every value handed over already
      hashed passes it, whatever the plaintext was. */
  lemma DigestPassesPasswordRules(v: Secret)
    ensures PasswordItems(Some(Hash(v))) == []
  {
  }

  /** On a plaintext the same rules demand 8 to 100 characters. */
  lemma PlainPasswordRules(p: string)
    ensures PasswordItems(Some(Plain(p))) == [] <==> NotBlank(p) && 8 <= |p| <= 100
  {
  }

  /** Organization.name: non-null and notEmpty; description is unconstrained. */
  function OrgItems(name: Option<string>): (r: seq<ValidationItem>)
    ensures r == [] <==> name.Some? && NotBlank(name.value)
  {
    RequiredTextItems("Organization", "name", name)
  }

  /** The default organisation of a registration always passes validation. */
  lemma DefaultOrgNameAccepted(firstName: string)
    ensures OrgItems(Some(firstName + "'s Organization")) == []
  {
    assert !IsJsSpace("'s Organization"[0]);
    NotBlankSuffix(firstName, "'s Organization");
  }
}
