/**
 * The sign-in dialog of the header (`UserIcon`): two tabs sharing one form
 * and one error map, the browser-side checks of each tab, and what a
 * submitted login or registration does to the dialog.
 */
module UserIconForm {
  import opened Common
  import opened Text
  import opened Forms
  import Rules

  datatype Tab = LoginTab | RegisterTab

  /** The inputs, by their `name` attribute. */
  datatype Field = Email | Password | ConfirmPassword | Name

  datatype FormData = FormData(email: string, password: string, confirmPassword: string, name: string)

  /** The form as first shown and as reset after a submission. */
  const EmptyForm: FormData := FormData("", "", "", "")

  /** The messages the checks can leave, and the blank one typing leaves. */
  datatype Message =
    | Blank | EmailRequired | EmailInvalid | PasswordRequired | PasswordTooShort | PasswordWeak
    | NameRequired | NameTooShort | NameInvalid | ConfirmRequired | ConfirmMismatch

  /** The Vietnamese text of each message, as the dialog shows it. */
  function MessageText(m: Message): string
  {
    match m
    case Blank => ""
    case EmailRequired => "Mail l\U{E0} b\U{1EAF}t bu\U{1ED9}c"
    case EmailInvalid => "Mail kh\U{F4}ng \U{111}\U{FA}ng \U{111}\U{1ECB}nh d\U{1EA1}ng"
    case PasswordRequired => "M\U{1EAD}t kh\U{1EA9}u l\U{E0} b\U{1EAF}t bu\U{1ED9}c"
    case PasswordTooShort => "M\U{1EAD}t kh\U{1EA9}u ph\U{1EA3}i c\U{F3} \U{ED}t nh\U{1EA5}t 6 k\U{FD} t\U{1EF1}"
    case PasswordWeak => "M\U{1EAD}t kh\U{1EA9}u ph\U{1EA3}i c\U{F3} k\U{FD} t\U{1EF1} hoa, th\U{1B0}\U{1EDD}ng, \U{111}\U{1EB7}c bi\U{1EC7}t v\U{E0} s\U{1ED1}!"
    case NameRequired => "T\U{EA}n l\U{E0} b\U{1EAF}t bu\U{1ED9}c"
    case NameTooShort => "T\U{EA}n ph\U{1EA3}i c\U{F3} \U{ED}t nh\U{1EA5}t 3 k\U{FD} t\U{1EF1}"
    case NameInvalid => "T\U{EA}n ch\U{1EC9} \U{111}\U{1B0}\U{1EE3}c ch\U{1EE9}a ch\U{1EEF} c\U{E1}i v\U{E0} kho\U{1EA3}ng tr\U{1EAF}ng"
    case ConfirmRequired => "X\U{E1}c nh\U{1EAD}n m\U{1EAD}t kh\U{1EA9}u l\U{E0} b\U{1EAF}t bu\U{1ED9}c"
    case ConfirmMismatch => "M\U{1EAD}t kh\U{1EA9}u x\U{E1}c nh\U{1EAD}n kh\U{F4}ng kh\U{1EDB}p"
  }

  function ValueOf(f: FormData, k: Field): string
  {
    match k
    case Email => f.email
    case Password => f.password
    case ConfirmPassword => f.confirmPassword
    case Name => f.name
  }

  /** `setFormData({...formData, [name]: value})`. */
  function WithValue(f: FormData, k: Field, value: string): (r: FormData)
    ensures ValueOf(r, k) == value
    ensures forall j :: j != k ==> ValueOf(r, j) == ValueOf(f, j)
  {
    match k
    case Email => f.(email := value)
    case Password => f.(password := value)
    case ConfirmPassword => f.(confirmPassword := value)
    case Name => f.(name := value)
  }

  // ---------------------------------------------------------------------
  // The checks of `validateForm`, field by field

  /** Both tabs: present, then the lower-case address pattern. */
  function EmailCheck(email: string): Option<Message>
  {
    if email == "" then Some(EmailRequired)
    else if !JsEmail(email) then Some(EmailInvalid)
    else None
  }

  /** Both tabs: present, then six characters once trimmed; the register tab adds the complexity pattern. */
  function PasswordCheck(tab: Tab, password: string): Option<Message>
  {
    if password == "" then Some(PasswordRequired)
    else if |JsTrim(password)| < 6 then Some(PasswordTooShort)
    else if tab == RegisterTab && !JsStrongPassword(password) then Some(PasswordWeak)
    else None
  }

  /** The register tab: present, three characters once trimmed, letters and spaces only. */
  function NameCheck(tab: Tab, name: string): Option<Message>
  {
    if tab == LoginTab then None
    else if name == "" then Some(NameRequired)
    else if |JsTrim(name)| < 3 then Some(NameTooShort)
    else if !JsPersonName(name) then Some(NameInvalid)
    else None
  }

  /** The register tab: present, then equal to the password. */
  function ConfirmCheck(tab: Tab, password: string, confirm: string): Option<Message>
  {
    if tab == LoginTab then None
    else if confirm == "" then Some(ConfirmRequired)
    else if password != confirm then Some(ConfirmMismatch)
    else None
  }

  function Check(tab: Tab, f: FormData, k: Field): Option<Message>
  {
    match k
    case Email => EmailCheck(f.email)
    case Password => PasswordCheck(tab, f.password)
    case Name => NameCheck(tab, f.name)
    case ConfirmPassword => ConfirmCheck(tab, f.password, f.confirmPassword)
  }

  /** Field `k` has an entry exactly when its check gives a message, and the entry is that message. */
  predicate Settles(errors: map<Field, Message>, tab: Tab, f: FormData, k: Field)
  {
    var c := Check(tab, f, k);
    (k in errors <==> c.Some?) && (c.Some? ==> errors[k] == c.value)
  }

  /** `errors` holds exactly the messages of the checks. */
  predicate Reports(errors: map<Field, Message>, tab: Tab, f: FormData)
  {
    Settles(errors, tab, f, Email) && Settles(errors, tab, f, Password) &&
    Settles(errors, tab, f, Name) && Settles(errors, tab, f, ConfirmPassword)
  }

  predicate Passes(tab: Tab, f: FormData)
  {
    Check(tab, f, Email).None? && Check(tab, f, Password).None? &&
    Check(tab, f, Name).None? && Check(tab, f, ConfirmPassword).None?
  }

  /** A reporting map is empty exactly when every check passes. */
  lemma ReportsEmptyIff(errors: map<Field, Message>, tab: Tab, f: FormData)
    requires Reports(errors, tab, f)
    ensures errors == map[] <==> Passes(tab, f)
  {
    EmptyIffNone(errors, Check(tab, f, Email), Check(tab, f, Password), Check(tab, f, Name),
                 Check(tab, f, ConfirmPassword));
  }

  lemma EmptyIffNone(errors: map<Field, Message>, email: Option<Message>, password: Option<Message>,
                     name: Option<Message>, confirm: Option<Message>)
    requires (Email in errors <==> email.Some?) && (Password in errors <==> password.Some?)
    requires (Name in errors <==> name.Some?) && (ConfirmPassword in errors <==> confirm.Some?)
    ensures errors == map[] <==> email.None? && password.None? && name.None? && confirm.None?
  {
    if email.None? && password.None? && name.None? && confirm.None? {
      forall k: Field
        ensures k !in errors
      {
        match k
        case Email =>
        case Password =>
        case Name =>
        case ConfirmPassword =>
      }
    }
  }

  /** `validateForm`'s error map, filled check by check from no entry. */
  method Validate(tab: Tab, f: FormData) returns (errors: map<Field, Message>)
    ensures Reports(errors, tab, f)
  {
    errors := map[];
    if tab == LoginTab {
      if f.email == "" {
        errors := errors[Email := EmailRequired];
      } else if !JsEmail(f.email) {
        errors := errors[Email := EmailInvalid];
      }
      if f.password == "" {
        errors := errors[Password := PasswordRequired];
      } else if |JsTrim(f.password)| < 6 {
        errors := errors[Password := PasswordTooShort];
      }
    }
    if tab == RegisterTab {
      errors := ValidateRegister(f);
    }
  }

  method ValidateRegister(f: FormData) returns (errors: map<Field, Message>)
    ensures Reports(errors, RegisterTab, f)
  {
    var e := ValidateNameAndEmail(f);
    errors := ValidatePasswords(f, e);
  }

  /** The register tab's first two checks, from no entry. */
  method ValidateNameAndEmail(f: FormData) returns (errors: map<Field, Message>)
    ensures Settles(errors, RegisterTab, f, Name) && Settles(errors, RegisterTab, f, Email)
    ensures errors.Keys <= {Name, Email}
  {
    errors := map[];
    if f.name == "" {
      errors := errors[Name := NameRequired];
    } else if |JsTrim(f.name)| < 3 {
      errors := errors[Name := NameTooShort];
    } else if !JsPersonName(f.name) {
      errors := errors[Name := NameInvalid];
    }
    if f.email == "" {
      errors := errors[Email := EmailRequired];
    } else if !JsEmail(f.email) {
      errors := errors[Email := EmailInvalid];
    }
  }

  /** The register tab's password and confirmation checks, after the first two. */
  method ValidatePasswords(f: FormData, e: map<Field, Message>) returns (errors: map<Field, Message>)
    requires Settles(e, RegisterTab, f, Name) && Settles(e, RegisterTab, f, Email)
    requires e.Keys <= {Name, Email}
    ensures Reports(errors, RegisterTab, f)
  {
    errors := e;
    if f.password == "" {
      errors := errors[Password := PasswordRequired];
    } else if |JsTrim(f.password)| < 6 {
      errors := errors[Password := PasswordTooShort];
    } else if !JsStrongPassword(f.password) {
      errors := errors[Password := PasswordWeak];
    }
    if f.confirmPassword == "" {
      errors := errors[ConfirmPassword := ConfirmRequired];
    } else if f.password != f.confirmPassword {
      errors := errors[ConfirmPassword := ConfirmMismatch];
    }
  }

  // ---------------------------------------------------------------------
  // What the checks accept

  /** The login tab accepts a well-formed address and a password of six characters once trimmed, and nothing else. */
  lemma LoginPassesIff(f: FormData)
    ensures Passes(LoginTab, f) <==> JsEmail(f.email) && |JsTrim(f.password)| >= 6
  {
    if |JsTrim(f.password)| >= 6 {
      JsTrimShorter(f.password);
    }
    if JsEmail(f.email) {
      assert f.email != "";
    }
  }

  /**
   * The register tab accepts a name of three characters once trimmed made of
   * letters and spaces, a well-formed address, a strong password and its exact
   * confirmation, and nothing else.
   */
  lemma RegisterPassesIff(f: FormData)
    ensures Passes(RegisterTab, f) <==>
      |JsTrim(f.name)| >= 3 && JsPersonName(f.name) && JsEmail(f.email) &&
      |JsTrim(f.password)| >= 6 && JsStrongPassword(f.password) && f.confirmPassword == f.password
  {
    if |JsTrim(f.password)| >= 6 {
      JsTrimShorter(f.password);
    }
    if |JsTrim(f.name)| >= 3 {
      JsTrimShorter(f.name);
    }
    if JsEmail(f.email) {
      assert f.email != "";
    }
  }

  /** What the register tab lets through, the server's password and address patterns accept too. */
  lemma RegisterPassMeetsServerPatterns(f: FormData)
    requires Passes(RegisterTab, f)
    ensures Rules.StrongPassword(f.password) && Rules.LowerCaseEmail(f.email)
  {
    RegisterPassesIff(f);
    JsStrongIsServerStrong(f.password);
    JsEmailIsServerEmail(f.email);
  }

  /** The login tab asks less than the register tab: whatever registers also logs in. */
  lemma RegisterPassImpliesLoginPass(f: FormData)
    requires Passes(RegisterTab, f)
    ensures Passes(LoginTab, f)
  {
    RegisterPassesIff(f);
    LoginPassesIff(f);
  }

  /** The login tab never reports on the name or the confirmation. */
  lemma LoginIgnoresRegisterFields(f: FormData, name: string, confirm: string)
    ensures Passes(LoginTab, f) <==> Passes(LoginTab, f.(name := name, confirmPassword := confirm))
    ensures Check(LoginTab, f, Name).None? && Check(LoginTab, f, ConfirmPassword).None?
  {
  }

  /** A password of six spaces is refused as too short: the length is taken after trimming. */
  lemma BlankPasswordTooShort()
    ensures PasswordCheck(LoginTab, "      ") == Some(PasswordTooShort)
  {
    JsTrimEmpty("      ");
  }

  // ---------------------------------------------------------------------
  // Signing in

  /** The user `login` and `register` may resolve to. */
  datatype SignedInUser = SignedInUser(userId: string, role: string)

  /** Where the dialog sends the browser once the submission settles: "/admin" for an administrator. */
  function Destination(resolved: Option<SignedInUser>): (r: Option<string>)
    ensures r.Some? <==> resolved.Some? && resolved.value.role == "Admin"
    ensures r.Some? ==> r.value == "/admin"
  {
    if resolved.Some? && resolved.value.role == "Admin" then Some("/admin") else None
  }

  /**
   * What the context's `login` and `register` resolve to when the server
   * answers with `userData`. As written both catch every failure and end
   * without a `return`, so they resolve to `undefined` whatever the answer;
   * the dialog evidently expects the signed-in user.
   */
  function Resolution(userData: Option<SignedInUser>, asWritten: bool): (r: Option<SignedInUser>)
    ensures asWritten ==> r.None?
    ensures !asWritten ==> r == userData
  {
    if asWritten then None else userData
  }

  /** So, as written, an administrator who signs in is never sent to "/admin". */
  lemma AdminNeverRedirected(u: SignedInUser)
    requires u.role == "Admin"
    ensures Destination(Resolution(Some(u), true)) == None
  {
  }

  /** With the user returned, exactly the administrators reach "/admin". */
  lemma CorrectedAdminRedirected(userData: Option<SignedInUser>)
    ensures Destination(Resolution(userData, false)) == Some("/admin") <==>
      userData.Some? && userData.value.role == "Admin"
  {
  }

  /** What a submission sends: the login credentials, or the registration with role "User". */
  datatype Request =
    | LoginRequest(email: string, password: string)
    | RegisterRequest(email: string, password: string, confirmPassword: string, role: string, name: string)

  class Dialog {
    var isModalOpen: bool
    var activeTab: Tab
    var formData: FormData
    var isLoading: bool
    var errors: map<Field, Message>
    /** The paths `navigate` was called with, in order. */
    var navigated: seq<string>

    constructor()
      ensures !isModalOpen && activeTab == LoginTab && formData == EmptyForm
      ensures !isLoading && errors == map[] && navigated == []
    {
      isModalOpen := false;
      activeTab := LoginTab;
      formData := EmptyForm;
      isLoading := false;
      errors := map[];
      navigated := [];
    }

    /**
     * The header's sign-in button (`open`) and the dialog's close button:
     * only the dialog's visibility changes; the form, its errors and the tab
     * are kept for the next opening.
     */
    method SetModalOpen(open: bool)
      modifies this
      ensures isModalOpen == open
      ensures activeTab == old(activeTab) && formData == old(formData) && isLoading == old(isLoading)
      ensures errors == old(errors) && navigated == old(navigated)
    {
      isModalOpen := open;
    }

    /** A tab button: only the tab changes; the form and its errors are shared by both tabs. */
    method SelectTab(tab: Tab)
      modifies this
      ensures activeTab == tab
      ensures isModalOpen == old(isModalOpen) && formData == old(formData) && isLoading == old(isLoading)
      ensures errors == old(errors) && navigated == old(navigated)
    {
      activeTab := tab;
    }

    /** `handleInputChange`: the field takes the value, and its shown error is blanked. */
    method HandleInputChange(name: Field, value: string)
      modifies this
      ensures formData == WithValue(old(formData), name, value)
      ensures errors == ClearError(old(errors), name, Blank)
      ensures isModalOpen == old(isModalOpen) && activeTab == old(activeTab) && isLoading == old(isLoading)
      ensures navigated == old(navigated)
    {
      formData := WithValue(formData, name, value);
      if name in errors && errors[name] != Blank {
        errors := errors[name := Blank];
      }
    }

    /** `validateForm`: the active tab's checks replace the error map; true when it is empty. */
    method ValidateForm() returns (ok: bool)
      modifies this
      ensures Reports(errors, activeTab, formData)
      ensures ok <==> Passes(activeTab, formData)
      ensures isModalOpen == old(isModalOpen) && activeTab == old(activeTab) && formData == old(formData)
      ensures isLoading == old(isLoading) && navigated == old(navigated)
    {
      var newErrors := Validate(activeTab, formData);
      errors := newErrors;
      ReportsEmptyIff(newErrors, activeTab, formData);
      ok := |newErrors| == 0;
      if !ok {
        var k :| k in newErrors;
      }
    }

    /**
     * `handleLogin` and `handleRegister`: nothing is sent when the checks
     * fail; otherwise the request goes out and, once it settles (it never
     * throws), the dialog closes, the form is reset, and the browser moves
     * to where `resolved`, the value the call resolved to, says.
     */
    method Submit(resolved: Option<SignedInUser>) returns (sent: Option<Request>)
      modifies this
      ensures Reports(errors, old(activeTab), old(formData))
      ensures sent.Some? <==> Passes(old(activeTab), old(formData))
      ensures sent.Some? && old(activeTab) == LoginTab ==>
        sent.value == LoginRequest(old(formData).email, old(formData).password)
      ensures sent.Some? && old(activeTab) == RegisterTab ==>
        sent.value == RegisterRequest(old(formData).email, old(formData).password,
                                      old(formData).confirmPassword, "User", old(formData).name)
      ensures sent.None? ==> isModalOpen == old(isModalOpen) && formData == old(formData) && navigated == old(navigated)
      ensures sent.Some? ==> (!isModalOpen && formData == EmptyForm && !isLoading &&
        navigated == old(navigated) + (if Destination(resolved).Some? then [Destination(resolved).value] else []))
      ensures sent.None? ==> isLoading == old(isLoading)
      ensures activeTab == old(activeTab)
    {
      var ok := ValidateForm();
      if !ok {
        return None;
      }
      isLoading := true;
      if activeTab == LoginTab {
        sent := Some(LoginRequest(formData.email, formData.password));
      } else {
        sent := Some(RegisterRequest(formData.email, formData.password, formData.confirmPassword, "User", formData.name));
      }
      isModalOpen := false;
      formData := EmptyForm;
      if resolved.Some? && resolved.value.role == "Admin" {
        navigated := navigated + ["/admin"];
      }
      isLoading := false;
    }
  }
}
