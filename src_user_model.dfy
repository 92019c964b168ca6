/** The User model of the `src/` implementation: the attribute validators
    Sequelize runs on an instance before it is inserted, and the beforeCreate
    hook that replaces the plaintext password by its bcrypt digest. */
module SrcUserModel {
  import opened Identity
  import opened FieldRules

  /** firstName and lastName: notNull, notEmpty and `/^[a-zA-Z\s]*$/`. A null
      value yields the notNull item alone, because Sequelize runs no other
      validator on a null attribute that does not allow null. */
  function NameItems(field: string, v: Option<string>,
                     requiredMsg: string, emptyMsg: string, charsMsg: string): (r: seq<ValidationItem>)
    ensures r == [] <==> v.Some? && NotBlank(v.value) && OnlyLettersAndSpaces(v.value)
    ensures forall i :: 0 <= i < |r| ==> r[i].path == field
  {
    match v
    case None => [ValidationItem(field, requiredMsg, "notNull")]
    case Some(s) =>
      (if NotBlank(s) then [] else [ValidationItem(field, emptyMsg, "notEmpty")])
      + (if OnlyLettersAndSpaces(s) then [] else [ValidationItem(field, charsMsg, "is")])
  }

  function FirstNameItems(v: Option<string>): seq<ValidationItem>
  {
    NameItems("firstName", v, "First name is required", "First name cannot be empty",
              "First name must contain only letters and spaces")
  }

  function LastNameItems(v: Option<string>): seq<ValidationItem>
  {
    NameItems("lastName", v, "Last name is required", "Last name cannot be empty",
              "Last name must contain only letters and spaces")
  }

  /** email: notNull, notEmpty and isEmail (the unique constraint is the database's). */
  function EmailItems(v: Option<string>, isEmail: string -> bool): (r: seq<ValidationItem>)
    ensures r == [] <==> v.Some? && NotBlank(v.value) && isEmail(v.value)
    ensures forall i :: 0 <= i < |r| ==> r[i].path == "email"
  {
    match v
    case None => [ValidationItem("email", "Email is required", "notNull")]
    case Some(s) =>
      (if NotBlank(s) then [] else [ValidationItem("email", "Email cannot be empty", "notEmpty")])
      + (if isEmail(s) then [] else [ValidationItem("email", "Email must be a valid email address", "isEmail")])
  }

  /** password: notNull, notEmpty and `len: [3, 100]`, whose message speaks of six characters. */
  function PasswordItems(v: Option<string>): (r: seq<ValidationItem>)
    ensures r == [] <==> v.Some? && NotBlank(v.value) && 3 <= |v.value| <= 100
    ensures forall i :: 0 <= i < |r| ==> r[i].path == "password"
  {
    match v
    case None => [ValidationItem("password", "Password is required", "notNull")]
    case Some(s) =>
      (if NotBlank(s) then [] else [ValidationItem("password", "Password cannot be empty", "notEmpty")])
      + (if 3 <= |s| <= 100 then []
         else [ValidationItem("password", "Password must be at least 6 characters long", "len")])
  }

  /** phone: may be null; otherwise `/^[0-9+\-\s]*$/`. */
  function PhoneItems(v: Option<string>): (r: seq<ValidationItem>)
    ensures r == [] <==> (v.Some? ==> OnlyPhoneChars(v.value))
    ensures forall i :: 0 <= i < |r| ==> r[i].path == "phone"
  {
    match v
    case None => []
    case Some(s) =>
      if OnlyPhoneChars(s) then []
      else [ValidationItem("phone", "Phone number must contain only numbers, spaces, plus signs, and hyphens", "is")]
  }

  /** The field rules of the model, stated on their own. */
  ghost predicate Acceptable(s: Signup, isEmail: string -> bool)
  {
    && s.firstName.Some? && NotBlank(s.firstName.value) && OnlyLettersAndSpaces(s.firstName.value)
    && s.lastName.Some? && NotBlank(s.lastName.value) && OnlyLettersAndSpaces(s.lastName.value)
    && s.email.Some? && NotBlank(s.email.value) && isEmail(s.email.value)
    && s.password.Some? && NotBlank(s.password.value) && 3 <= |s.password.value| <= 100
    && (s.phone.Some? ==> OnlyPhoneChars(s.phone.value))
  }

  /** The items of a failed validation, attribute by attribute in declaration
      order (the userId attribute, filled from a fresh UUID, always passes). */
  function SignupItems(s: Signup, isEmail: string -> bool): (r: seq<ValidationItem>)
    ensures r == [] <==> Acceptable(s, isEmail)
  {
    FirstNameItems(s.firstName) + LastNameItems(s.lastName) + EmailItems(s.email, isEmail)
    + PasswordItems(s.password) + PhoneItems(s.phone)
  }

  /** The beforeCreate hook: the password the instance carries is replaced by its digest. */
  function BeforeCreate(u: User): (r: User)
    requires u.password.Plain?
    ensures Compare(u.password.text, r.password)
    ensures r.(password := u.password) == u
  {
    u.(password := Hash(u.password))
  }

  /** What a stored user satisfies: the field rules hold of the stored values,
      and the password column holds the digest of an acceptable plaintext. */
  ghost predicate Conforms(u: User, isEmail: string -> bool)
  {
    && NotBlank(u.firstName) && OnlyLettersAndSpaces(u.firstName)
    && NotBlank(u.lastName) && OnlyLettersAndSpaces(u.lastName)
    && NotBlank(u.email) && isEmail(u.email)
    && (u.phone.Some? ==> OnlyPhoneChars(u.phone.value))
    && u.password.Digest? && u.password.of.Plain?
    && NotBlank(u.password.of.text) && 3 <= |u.password.of.text| <= 100
  }

  /** `User.create(...)` of an accepted signup: the row that is inserted. */
  function Stored(id: UserId, s: Signup, ghost isEmail: string -> bool): (u: User)
    requires Acceptable(s, isEmail)
    ensures Conforms(u, isEmail)
    ensures u.userId == id && u.email == s.email.value
    ensures Compare(s.password.value, u.password)
  {
    BeforeCreate(User(id, s.firstName.value, s.lastName.value, s.email.value,
                      Plain(s.password.value), s.phone))
  }

  /** The length rule accepts five characters, although its message asks for six. */
  lemma FiveCharacterPasswordAccepted()
    ensures PasswordItems(Some("short")) == []
  {
    assert !IsJsSpace("short"[0]);
  }
}
