/**
 * The rule sets for registration and for changing a password
 * (`RegisterRequestValidator`, `ChangePasswordRequestValidator`).
 */
module AuthValidators {
  import opened Common
  import opened Text
  import opened Rules

  datatype RegisterRequest = RegisterRequest(
    name: Option<string>,
    email: Option<string>,
    password: Option<string>,
    confirmPassword: Option<string>,
    role: Option<string>)

  datatype ChangePasswordRequest = ChangePasswordRequest(
    oldPassword: Option<string>,
    newPassword: Option<string>,
    confirmNewPassword: Option<string>)

  const Roles: seq<string> := ["User", "Moderator", "Admin"]

  const WeakPasswordMessage: string :=
    "M\U{1EAD}t kh\U{1EA9}u ph\U{1EA3}i c\U{F3} k\U{FD} t\U{1EF1} hoa, th\U{1B0}\U{1EDD}ng, \U{111}\U{1EB7}c bi\U{1EC7}t v\U{E0} s\U{1ED1}!"
  const MismatchMessage: string := "M\U{1EAD}t kh\U{1EA9}u x\U{E1}c nh\U{1EAD}n kh\U{F4}ng kh\U{1EDB}p"

  function NameRule(name: Option<string>): (r: seq<string>)
    ensures r == [] <==> NotEmpty(name) && |name.value| >= 3 && PersonName(name.value)
  {
    Check(NotEmpty(name), "T\U{EA}n l\U{E0} b\U{1EAF}t bu\U{1ED9}c") +
    Check(MinimumLength(name, 3), "T\U{EA}n ph\U{1EA3}i c\U{F3} \U{ED}t nh\U{1EA5}t 3 k\U{FD} t\U{1EF1}") +
    Check(Matches(name, PersonName), "T\U{EA}n ch\U{1EC9} \U{111}\U{1B0}\U{1EE3}c ch\U{1EE9}a ch\U{1EEF} c\U{E1}i v\U{E0} kho\U{1EA3}ng tr\U{1EAF}ng")
  }

  function EmailRule(email: Option<string>, env: Oracles): (r: seq<string>)
    ensures r == [] <==> NotEmpty(email) && env.emailAddress(email.value) && LowerCaseEmail(email.value)
  {
    Check(NotEmpty(email), "Email l\U{E0} b\U{1EAF}t bu\U{1ED9}c") +
    Check(Matches(email, env.emailAddress), "\U{110}\U{1ECB}nh d\U{1EA1}ng email kh\U{F4}ng h\U{1EE3}p l\U{1EC7}") +
    Check(Matches(email, LowerCaseEmail), "Mail kh\U{F4}ng h\U{1EE3}p l\U{1EC7}!")
  }

  function PasswordRule(password: Option<string>): (r: seq<string>)
    ensures r == [] <==> NotEmpty(password) && StrongPassword(password.value)
  {
    Check(NotEmpty(password), "M\U{1EAD}t kh\U{1EA9}u l\U{E0} b\U{1EAF}t bu\U{1ED9}c") +
    Check(MinimumLength(password, 6), "M\U{1EAD}t kh\U{1EA9}u ph\U{1EA3}i c\U{F3} \U{ED}t nh\U{1EA5}t 6 k\U{FD} t\U{1EF1}") +
    Check(Matches(password, StrongPassword), WeakPasswordMessage)
  }

  function RegisterFailures(r: RegisterRequest, env: Oracles): seq<string>
  {
    NameRule(r.name) +
    EmailRule(r.email, env) +
    PasswordRule(r.password) +
    Check(NotEmpty(r.confirmPassword), "X\U{E1}c nh\U{1EAD}n m\U{1EAD}t kh\U{1EA9}u l\U{E0} b\U{1EAF}t bu\U{1ED9}c") +
    Check(r.confirmPassword == r.password, MismatchMessage) +
    RoleRule(r.role)
  }

  function RoleRule(role: Option<string>): (r: seq<string>)
    ensures r == [] <==> role.Some? && role.value in Roles
  {
    assert role.Some? && role.value in Roles ==> !NetSpace(role.value[0]);
    Check(NotEmpty(role), "Vai tr\U{F2} l\U{E0} b\U{1EAF}t bu\U{1ED9}c") +
    Check(role.Some? && role.value in Roles, "Vai tr\U{F2} kh\U{F4}ng h\U{1EE3}p l\U{1EC7}")
  }

  /** A registration passes exactly when each field has the shape the form asks for. */
  lemma RegisterValidIff(r: RegisterRequest, env: Oracles)
    ensures RegisterFailures(r, env) == [] <==>
      NotEmpty(r.name) && |r.name.value| >= 3 && PersonName(r.name.value) &&
      NotEmpty(r.email) && env.emailAddress(r.email.value) && LowerCaseEmail(r.email.value) &&
      NotEmpty(r.password) && StrongPassword(r.password.value) &&
      r.confirmPassword == r.password &&
      r.role.Some? && r.role.value in Roles
  {
  }

  /** The complexity pattern already demands six characters, so the length rule never fires alone. */
  lemma StrongPasswordIsLong(s: string)
    requires StrongPassword(s)
    ensures |s| >= 6
  {
  }

  /** An address with a capital letter is refused, whatever the framework thinks of it. */
  lemma RegisterRefusesUpperCaseEmail(r: RegisterRequest, env: Oracles, j: int)
    requires r.email.Some? && 0 <= j < |r.email.value| && AsciiUpper(r.email.value[j])
    ensures RegisterFailures(r, env) != []
  {
    UpperCaseEmailFails(r.email.value, j);
    RegisterValidIff(r, env);
  }

  function ChangePasswordFailures(r: ChangePasswordRequest): seq<string>
  {
    Check(NotEmpty(r.oldPassword), "M\U{1EAD}t kh\U{1EA9}u c\U{169} l\U{E0} b\U{1EAF}t bu\U{1ED9}c") +
    Check(NotEmpty(r.newPassword), "M\U{1EAD}t kh\U{1EA9}u m\U{1EDB}i l\U{E0} b\U{1EAF}t bu\U{1ED9}c") +
    Check(MinimumLength(r.newPassword, 6), "M\U{1EAD}t kh\U{1EA9}u m\U{1EDB}i ph\U{1EA3}i c\U{F3} \U{ED}t nh\U{1EA5}t 6 k\U{FD} t\U{1EF1}") +
    Check(Matches(r.newPassword, StrongPassword), WeakPasswordMessage) +
    Check(r.newPassword != r.oldPassword, "M\U{1EAD}t kh\U{1EA9}u m\U{1EDB}i kh\U{F4}ng \U{111}\U{1B0}\U{1EE3}c gi\U{1ED1}ng m\U{1EAD}t kh\U{1EA9}u c\U{169}") +
    Check(NotEmpty(r.confirmNewPassword), "X\U{E1}c nh\U{1EAD}n m\U{1EAD}t kh\U{1EA9}u m\U{1EDB}i l\U{E0} b\U{1EAF}t bu\U{1ED9}c") +
    Check(r.confirmNewPassword == r.newPassword, MismatchMessage)
  }

  /** A change passes exactly when the old password is given and the new one is strong, different and confirmed. */
  lemma ChangePasswordValidIff(r: ChangePasswordRequest)
    ensures ChangePasswordFailures(r) == [] <==>
      NotEmpty(r.oldPassword) &&
      r.newPassword.Some? && NotEmpty(r.newPassword) && StrongPassword(r.newPassword.value) &&
      r.newPassword != r.oldPassword &&
      r.confirmNewPassword == r.newPassword
  {
    if r.newPassword.Some? && StrongPassword(r.newPassword.value) {
      StrongPasswordIsLong(r.newPassword.value);
    }
  }

  /** Reusing the old password reports the reuse message. */
  lemma ReusedPasswordRefused(r: ChangePasswordRequest)
    requires r.newPassword == r.oldPassword
    ensures "M\U{1EAD}t kh\U{1EA9}u m\U{1EDB}i kh\U{F4}ng \U{111}\U{1B0}\U{1EE3}c gi\U{1ED1}ng m\U{1EAD}t kh\U{1EA9}u c\U{169}" in ChangePasswordFailures(r)
  {
  }
}
