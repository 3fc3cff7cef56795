/**
 * The change-password dialog (`ChangePasswordForm`): three password inputs,
 * the browser-side checks written in its `validateForm`, and the submission
 * those checks guard.
 */
module ChangePasswordForm {
  import opened Common
  import opened Text
  import opened Forms
  import Rules
  import AuthValidators

  /** The inputs, by their `name` attribute. */
  datatype Field = OldPassword | NewPassword | ConfirmNewPassword

  datatype FormData = FormData(oldPassword: string, newPassword: string, confirmNewPassword: string)

  const EmptyForm: FormData := FormData("", "", "")

  /** The messages the checks can leave, and the blank one typing leaves. */
  datatype Message = Blank | OldRequired | NewRequired | NewTooShort | NewWeak | ConfirmRequired | ConfirmMismatch

  /** The Vietnamese text of each message, as the dialog shows it. */
  function MessageText(m: Message): string
  {
    match m
    case Blank => ""
    case OldRequired => "M\U{1EAD}t kh\U{1EA9}u c\U{169} l\U{E0} b\U{1EAF}t bu\U{1ED9}c"
    case NewRequired => "M\U{1EAD}t kh\U{1EA9}u m\U{1EDB}i l\U{E0} b\U{1EAF}t bu\U{1ED9}c"
    case NewTooShort => "M\U{1EAD}t kh\U{1EA9}u m\U{1EDB}i ph\U{1EA3}i c\U{F3} \U{ED}t nh\U{1EA5}t 6 k\U{FD} t\U{1EF1}"
    case NewWeak => "M\U{1EAD}t kh\U{1EA9}u ph\U{1EA3}i c\U{F3} k\U{FD} t\U{1EF1} hoa, th\U{1B0}\U{1EDD}ng, \U{111}\U{1EB7}c bi\U{1EC7}t v\U{E0} s\U{1ED1}!"
    case ConfirmRequired => "X\U{E1}c nh\U{1EAD}n m\U{1EAD}t kh\U{1EA9}u m\U{1EDB}i l\U{E0} b\U{1EAF}t bu\U{1ED9}c"
    case ConfirmMismatch => "M\U{1EAD}t kh\U{1EA9}u x\U{E1}c nh\U{1EAD}n kh\U{F4}ng kh\U{1EDB}p"
  }

  function ValueOf(f: FormData, k: Field): string
  {
    match k
    case OldPassword => f.oldPassword
    case NewPassword => f.newPassword
    case ConfirmNewPassword => f.confirmNewPassword
  }

  /** `setFormData((prev) => ({...prev, [name]: value}))`. */
  function WithValue(f: FormData, k: Field, value: string): (r: FormData)
    ensures ValueOf(r, k) == value
    ensures forall j :: j != k ==> ValueOf(r, j) == ValueOf(f, j)
  {
    match k
    case OldPassword => f.(oldPassword := value)
    case NewPassword => f.(newPassword := value)
    case ConfirmNewPassword => f.(confirmNewPassword := value)
  }

  // ---------------------------------------------------------------------
  // The checks

  /**
   * `newPassword.trim.length`: without the call, `trim` is the function
   * `String.prototype.trim`, and its `length` is its number of declared
   * parameters, which is 0.
   */
  const TrimArity: nat := 0

  /**
   * The new password's checks: present, then at least six characters, then
   * the complexity pattern. As written (`asWritten`) the length read is
   * `TrimArity` and the pattern test is not negated, so a password that
   * matches it is the one reported; otherwise the length is that of the
   * trimmed password and a password that does not match is reported.
   */
  function NewPasswordCheck(p: string, asWritten: bool): Option<Message>
  {
    if p == "" then Some(NewRequired)
    else if (if asWritten then TrimArity else |JsTrim(p)|) < 6 then Some(NewTooShort)
    else if (if asWritten then JsStrongPassword(p) else !JsStrongPassword(p)) then Some(NewWeak)
    else None
  }

  function Check(f: FormData, k: Field, asWritten: bool): Option<Message>
  {
    match k
    case OldPassword => if f.oldPassword == "" then Some(OldRequired) else None
    case NewPassword => NewPasswordCheck(f.newPassword, asWritten)
    case ConfirmNewPassword =>
      if f.confirmNewPassword == "" then Some(ConfirmRequired)
      else if f.newPassword != f.confirmNewPassword then Some(ConfirmMismatch)
      else None
  }

  predicate Settles(errors: map<Field, Message>, f: FormData, k: Field, asWritten: bool)
  {
    var c := Check(f, k, asWritten);
    (k in errors <==> c.Some?) && (c.Some? ==> errors[k] == c.value)
  }

  /** `errors` holds exactly the messages of the checks. */
  predicate Reports(errors: map<Field, Message>, f: FormData, asWritten: bool)
  {
    Settles(errors, f, OldPassword, asWritten) && Settles(errors, f, NewPassword, asWritten) &&
    Settles(errors, f, ConfirmNewPassword, asWritten)
  }

  predicate Passes(f: FormData, asWritten: bool)
  {
    Check(f, OldPassword, asWritten).None? && Check(f, NewPassword, asWritten).None? &&
    Check(f, ConfirmNewPassword, asWritten).None?
  }

  /** `validateForm`'s error map, filled check by check from no entry. */
  method Validate(f: FormData, asWritten: bool) returns (errors: map<Field, Message>)
    ensures Reports(errors, f, asWritten)
  {
    errors := map[];
    if f.oldPassword == "" {
      errors := errors[OldPassword := OldRequired];
    }
    if f.newPassword == "" {
      errors := errors[NewPassword := NewRequired];
    } else if (if asWritten then TrimArity else |JsTrim(f.newPassword)|) < 6 {
      errors := errors[NewPassword := NewTooShort];
    } else if JsStrongPassword(f.newPassword) == asWritten {
      errors := errors[NewPassword := NewWeak];
    }
    if f.confirmNewPassword == "" {
      errors := errors[ConfirmNewPassword := ConfirmRequired];
    } else if f.newPassword != f.confirmNewPassword {
      errors := errors[ConfirmNewPassword := ConfirmMismatch];
    }
  }

  /** A reporting map is empty exactly when every check passes. */
  lemma ReportsEmptyIff(errors: map<Field, Message>, f: FormData, asWritten: bool)
    requires Reports(errors, f, asWritten)
    ensures errors == map[] <==> Passes(f, asWritten)
  {
    EmptyIffNone(errors, Check(f, OldPassword, asWritten), Check(f, NewPassword, asWritten),
                 Check(f, ConfirmNewPassword, asWritten));
  }

  lemma EmptyIffNone(errors: map<Field, Message>, old_: Option<Message>, new_: Option<Message>,
                     confirm: Option<Message>)
    requires (OldPassword in errors <==> old_.Some?) && (NewPassword in errors <==> new_.Some?)
    requires ConfirmNewPassword in errors <==> confirm.Some?
    ensures errors == map[] <==> old_.None? && new_.None? && confirm.None?
  {
    if old_.None? && new_.None? && confirm.None? {
      forall k: Field
        ensures k !in errors
      {
        match k
        case OldPassword =>
        case NewPassword =>
        case ConfirmNewPassword =>
      }
    }
  }

  // ---------------------------------------------------------------------
  // What the checks accept

  /** As written, every new password is refused: an empty one as missing, any other as too short. */
  lemma NewPasswordAlwaysRefused(f: FormData)
    ensures Check(f, NewPassword, true) == Some(if f.newPassword == "" then NewRequired else NewTooShort)
    ensures !Passes(f, true)
  {
  }

  /** A strong password such as "Abcde1!" is reported too short as written, and accepted once corrected. */
  lemma StrongPasswordReportedShort()
    ensures NewPasswordCheck("Abcde1!", true) == Some(NewTooShort)
    ensures NewPasswordCheck("Abcde1!", false) == None
  {
    var p := "Abcde1!";
    JsTrimNoSpace(p);
    assert Rules.AsciiUpper(p[0]) && Rules.AsciiLower(p[1]) && Rules.AsciiDigit(p[5]) && Rules.PasswordSymbol(p[6]);
  }

  /**
   * Corrected, the dialog accepts an old password, a strong new password of
   * six characters once trimmed and its exact confirmation, and nothing else.
   */
  lemma CorrectedPassesIff(f: FormData)
    ensures Passes(f, false) <==>
      f.oldPassword != "" && |JsTrim(f.newPassword)| >= 6 && JsStrongPassword(f.newPassword) &&
      f.confirmNewPassword == f.newPassword
  {
    if |JsTrim(f.newPassword)| >= 6 {
      JsTrimShorter(f.newPassword);
    }
  }

  /** The request the dialog sends. */
  function RequestOf(f: FormData): AuthValidators.ChangePasswordRequest
  {
    AuthValidators.ChangePasswordRequest(Some(f.oldPassword), Some(f.newPassword), Some(f.confirmNewPassword))
  }

  /** What the corrected dialog lets through, the server's rules for the new password and its confirmation accept. */
  lemma CorrectedPassMeetsServerNewPassword(f: FormData)
    requires Passes(f, false)
    ensures Rules.StrongPassword(f.newPassword)
    ensures RequestOf(f).confirmNewPassword == RequestOf(f).newPassword
  {
    CorrectedPassesIff(f);
    JsStrongIsServerStrong(f.newPassword);
  }

  /** The dialog does not compare the new password with the old one; the server refuses a reused password. */
  lemma ReuseLeftToServer(f: FormData)
    requires f.newPassword == f.oldPassword
    ensures AuthValidators.ChangePasswordFailures(RequestOf(f)) != []
  {
    AuthValidators.ReusedPasswordRefused(RequestOf(f));
  }

  // ---------------------------------------------------------------------
  // The dialog

  class Dialog {
    var formData: FormData
    var errors: map<Field, Message>
    var isLoading: bool
    /** Whether `onClose` has been scheduled, two seconds after a request settles. */
    var closeScheduled: bool

    constructor()
      ensures formData == EmptyForm && errors == map[] && !isLoading && !closeScheduled
    {
      formData := EmptyForm;
      errors := map[];
      isLoading := false;
      closeScheduled := false;
    }

    /** `handleInputChange`: the field takes the value, and its shown error is blanked. */
    method HandleInputChange(name: Field, value: string)
      modifies this
      ensures formData == WithValue(old(formData), name, value)
      ensures errors == ClearError(old(errors), name, Blank)
      ensures isLoading == old(isLoading) && closeScheduled == old(closeScheduled)
    {
      formData := WithValue(formData, name, value);
      if name in errors && errors[name] != Blank {
        errors := errors[name := Blank];
      }
    }

    /** `validateForm`: the checks replace the error map; true when it is empty. */
    method ValidateForm(asWritten: bool) returns (ok: bool)
      modifies this
      ensures Reports(errors, formData, asWritten)
      ensures ok <==> Passes(formData, asWritten)
      ensures formData == old(formData) && isLoading == old(isLoading) && closeScheduled == old(closeScheduled)
    {
      var newErrors := Validate(formData, asWritten);
      errors := newErrors;
      ReportsEmptyIff(newErrors, formData, asWritten);
      ok := |newErrors| == 0;
      if !ok {
        var k :| k in newErrors;
      }
    }

    /**
     * `handleSubmit`: the request is sent only when `validateForm` passes,
     * and then the dialog's closing is scheduled (the context's
     * `changePassword` never throws). With the checks as written nothing is
     * ever sent.
     */
    method Submit(asWritten: bool) returns (sent: Option<AuthValidators.ChangePasswordRequest>)
      modifies this
      ensures Reports(errors, old(formData), asWritten)
      ensures sent.Some? <==> Passes(old(formData), asWritten)
      ensures sent.Some? ==> sent.value == RequestOf(old(formData)) && closeScheduled && !isLoading
      ensures sent.None? ==> closeScheduled == old(closeScheduled) && isLoading == old(isLoading)
      ensures asWritten ==> sent.None?
      ensures formData == old(formData)
    {
      NewPasswordAlwaysRefused(formData);
      var ok := ValidateForm(asWritten);
      if !ok {
        return None;
      }
      isLoading := true;
      sent := Some(RequestOf(formData));
      closeScheduled := true;
      isLoading := false;
    }
  }
}
