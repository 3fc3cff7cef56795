/**
 * The employer's "post a job" form (`PostJobForm`). Every input stores its
 * raw text under its name, so once edited a number field holds a string;
 * validation fills a fresh error map check by check, a later check on the
 * same field overwriting an earlier one, and a successful post resets the
 * form.
 */
module PostJobForm {
  import opened Common
  import opened Text
  import opened Forms

  /** The messages validation can leave on a field, and the blank one typing leaves. */
  datatype Message =
    | Blank | TitleRequired | TitleTooLong | DescriptionTooLong | EmploymentTypeTooLong | SalaryFromNegative
    | SalaryToNegative | SalaryOrder | PositionsTooFew | DeadlinePassed | MinAgeRange | MaxAgeRange
    | AgeOrder | ExperienceRange | DegreeTooLong | SkillsTooLong | CategoryRequired
    | CompanyRequired | CategoryInvalid | CompanyInvalid

  /** The Vietnamese text of each message, as the form shows it. */
  function MessageText(m: Message): string
  {
    match m
    case Blank => ""
    case TitleRequired => "Ti\U{EA}u \U{111}\U{1EC1} l\U{E0} b\U{1EAF}t bu\U{1ED9}c."
    case TitleTooLong => "Ti\U{EA}u \U{111}\U{1EC1} kh\U{F4}ng \U{111}\U{1B0}\U{1EE3}c v\U{1B0}\U{1EE3}t qu\U{E1} 400 k\U{FD} t\U{1EF1}."
    case DescriptionTooLong => "M\U{F4} t\U{1EA3} kh\U{F4}ng \U{111}\U{1B0}\U{1EE3}c v\U{1B0}\U{1EE3}t qu\U{E1} 4000 k\U{FD} t\U{1EF1}."
    case EmploymentTypeTooLong => "Lo\U{1EA1}i c\U{F4}ng vi\U{1EC7}c kh\U{F4}ng \U{111}\U{1B0}\U{1EE3}c v\U{1B0}\U{1EE3}t qu\U{E1} 50 k\U{FD} t\U{1EF1}."
    case SalaryFromNegative => "L\U{1B0}\U{1A1}ng t\U{1EEB} ph\U{1EA3}i l\U{E0} s\U{1ED1} d\U{1B0}\U{1A1}ng."
    case SalaryToNegative => "L\U{1B0}\U{1A1}ng \U{111}\U{1EBF}n ph\U{1EA3}i l\U{E0} s\U{1ED1} d\U{1B0}\U{1A1}ng."
    case SalaryOrder => "L\U{1B0}\U{1A1}ng \U{111}\U{1EBF}n ph\U{1EA3}i l\U{1EDB}n h\U{1A1}n l\U{1B0}\U{1A1}ng t\U{1EEB}."
    case PositionsTooFew => "S\U{1ED1} l\U{1B0}\U{1EE3}ng c\U{1EA7}n tuy\U{1EC3}n ph\U{1EA3}i \U{ED}t nh\U{1EA5}t l\U{E0} 1."
    case DeadlinePassed => "H\U{1EA1}n n\U{1ED9}p h\U{1ED3} s\U{1A1} ph\U{1EA3}i l\U{E0} ng\U{E0}y trong t\U{1B0}\U{1A1}ng lai."
    case MinAgeRange => "Tu\U{1ED5}i t\U{1ED1}i thi\U{1EC3}u ph\U{1EA3}i t\U{1EEB} 16 \U{111}\U{1EBF}n 100."
    case MaxAgeRange => "Tu\U{1ED5}i t\U{1ED1}i \U{111}a ph\U{1EA3}i t\U{1EEB} 16 \U{111}\U{1EBF}n 100."
    case AgeOrder => "Tu\U{1ED5}i t\U{1ED1}i \U{111}a ph\U{1EA3}i l\U{1EDB}n h\U{1A1}n tu\U{1ED5}i t\U{1ED1}i thi\U{1EC3}u."
    case ExperienceRange => "Kinh nghi\U{1EC7}m y\U{EA}u c\U{1EA7}u ph\U{1EA3}i t\U{1EEB} 0 \U{111}\U{1EBF}n 50 n\U{103}m."
    case DegreeTooLong => "B\U{1EB1}ng c\U{1EA5}p y\U{EA}u c\U{1EA7}u kh\U{F4}ng \U{111}\U{1B0}\U{1EE3}c v\U{1B0}\U{1EE3}t qu\U{E1} 100 k\U{FD} t\U{1EF1}."
    case SkillsTooLong => "K\U{1EF9} n\U{103}ng y\U{EA}u c\U{1EA7}u kh\U{F4}ng \U{111}\U{1B0}\U{1EE3}c v\U{1B0}\U{1EE3}t qu\U{E1} 500 k\U{FD} t\U{1EF1}."
    case CategoryRequired => "Danh m\U{1EE5}c l\U{E0} b\U{1EAF}t bu\U{1ED9}c."
    case CompanyRequired => "C\U{F4}ng ty ID l\U{E0} b\U{1EAF}t bu\U{1ED9}c."
    case CategoryInvalid => "ID danh m\U{1EE5}c kh\U{F4}ng h\U{1EE3}p l\U{1EC7}."
    case CompanyInvalid => "ID c\U{F4}ng ty kh\U{F4}ng h\U{1EE3}p l\U{1EC7}."
  }

  const NoGenderPreference: string := "Kh\U{F4}ng y\U{EA}u c\U{1EA7}u"
  const PostedMessage: string := "Job posted successfully! It will be reviewed by moderators."
  const PostFailedMessage: string := "Failed to post job."

  /** A company the form offers in its select. */
  datatype Company = Company(companyId: string, name: string)

  const OfferedIdPrefix: string := "550e8400-e29b-41d4-a716-44665544000"

  /** The form's fixed list of companies. */
  const OfferedCompanies: seq<Company> := [
    Company(OfferedIdPrefix + "0", "C\U{F4}ng ty TNHH ABC"),
    Company(OfferedIdPrefix + "1", "C\U{F4}ng ty CP XYZ"),
    Company(OfferedIdPrefix + "2", "C\U{F4}ng ty TNHH DEF")]

  /** The form's inputs, by their `name` attribute. */
  datatype Field =
    | Title | Description | EmploymentType | SalaryFrom | SalaryTo | PositionsNeeded
    | DeadlineDate | MinAge | MaxAge | RequiredExperienceYears | RequiredDegree
    | GenderPreference | SkillsRequired | CategoryId | CompanyId

  type Form = map<Field, JsValue>

  /** The fields that hold text and never a number. */
  predicate TextField(k: Field)
  {
    k in {Title, Description, EmploymentType, DeadlineDate, RequiredDegree, GenderPreference,
      SkillsRequired, CategoryId, CompanyId}
  }

  /** The fields validation may report on: all but the gender preference. */
  const CheckedFields: set<Field> := {Title, Description, EmploymentType, SalaryFrom, SalaryTo,
    PositionsNeeded, DeadlineDate, MinAge, MaxAge, RequiredExperienceYears,
    RequiredDegree, SkillsRequired, CategoryId, CompanyId}

  /** The form as first shown and as reset after a post. */
  const InitialForm: Form := map[
    Title := Str(""), Description := Str(""), EmploymentType := Str(""),
    SalaryFrom := Undefined, SalaryTo := Undefined, PositionsNeeded := Number(1),
    DeadlineDate := Str(""), MinAge := Undefined, MaxAge := Undefined,
    RequiredExperienceYears := Undefined, RequiredDegree := Str(""),
    GenderPreference := Str(NoGenderPreference), SkillsRequired := Str(""),
    CategoryId := Str(""), CompanyId := Str("")]

  /** Every text field is present and holds text. */
  predicate WellFormed(form: Form)
  {
    forall k: Field :: TextField(k) ==> k in form && form[k].Str?
  }

  lemma InitialFormWellFormed()
    ensures WellFormed(InitialForm)
  {
    forall k: Field | TextField(k)
      ensures k in InitialForm && InitialForm[k].Str?
    {
    }
  }

  function Get(form: Form, k: Field): JsValue
  {
    if k in form then form[k] else Undefined
  }

  function TextOf(form: Form, k: Field): string
  {
    match Get(form, k)
    case Str(s) => s
    case _ => ""
  }

  /** JavaScript's `a > b`. */
  predicate Greater(a: JsValue, b: JsValue)
  {
    Less(b, a)
  }

  /** `a > b` between the numbers the two values hold. */
  predicate NumericGreater(a: JsValue, b: JsValue)
  {
    NumericLess(b, a)
  }

  /** The comparison of the two cross-field checks: JavaScript's `>` as written, or `>` on numbers. */
  predicate OrderGreater(a: JsValue, b: JsValue, numeric: bool)
  {
    if numeric then NumericGreater(a, b) else Greater(a, b)
  }

  /** A truthy value outside `lo..hi`. */
  predicate OutOfRange(v: JsValue, lo: int, hi: int)
  {
    Truthy(v) && (Less(v, Number(lo)) || Greater(v, Number(hi)))
  }

  /** A non-empty text longer than `n`. */
  predicate TooLong(form: Form, k: Field, n: nat)
  {
    TextOf(form, k) != "" && |TextOf(form, k)| > n
  }

  function IfThen(cond: bool, message: Message): (r: Option<Message>)
    ensures r.Some? <==> cond
    ensures r.Some? ==> r.value == message
  {
    if cond then Some(message) else None
  }

  /** An identifier: required, then of the GUID form. */
  function IdCheck(id: string, required: Message, invalid: Message): (r: Option<Message>)
    ensures r.None? <==> GuidV1To5(id)
    ensures id == "" ==> r == Some(required)
    ensures id != "" && !GuidV1To5(id) ==> r == Some(invalid)
  {
    if id == "" then Some(required) else if !GuidV1To5(id) then Some(invalid) else None
  }

  function TitleCheck(title: string): (r: Option<Message>)
  {
    if |title| > 400 then Some(TitleTooLong)
    else if JsTrim(title) == "" then Some(TitleRequired) else None
  }

  /** The out-of-order message wins over the sign message. */
  function SalaryToCheck(salaryFrom: JsValue, salaryTo: JsValue, numeric: bool): Option<Message>
  {
    if Truthy(salaryFrom) && Truthy(salaryTo) && OrderGreater(salaryFrom, salaryTo, numeric) then Some(SalaryOrder)
    else IfThen(Truthy(salaryTo) && Less(salaryTo, Number(0)), SalaryToNegative)
  }

  /** The out-of-order message wins over the range message. */
  function MaxAgeCheck(minAge: JsValue, maxAge: JsValue, numeric: bool): Option<Message>
  {
    if Truthy(minAge) && Truthy(maxAge) && OrderGreater(minAge, maxAge, numeric) then Some(AgeOrder)
    else IfThen(OutOfRange(maxAge, 16, 100), MaxAgeRange)
  }

  function DeadlineCheck(deadline: string, now: int, parseDate: string -> Option<int>): Option<Message>
  {
    IfThen(deadline != "" && parseDate(deadline).Some? && parseDate(deadline).value <= now, DeadlinePassed)
  }

  /**
   * The message validation leaves on field `k`, the last of its failing
   * checks; `numeric` chooses the comparison of the two cross-field checks.
   */
  function Check(form: Form, k: Field, now: int, parseDate: string -> Option<int>, numeric: bool): Option<Message>
  {
    match k
    case Title => TitleCheck(TextOf(form, Title))
    case Description => IfThen(TooLong(form, k, 4000), DescriptionTooLong)
    case EmploymentType => IfThen(TooLong(form, k, 50), EmploymentTypeTooLong)
    case SalaryFrom => IfThen(Truthy(Get(form, k)) && Less(Get(form, k), Number(0)), SalaryFromNegative)
    case SalaryTo => SalaryToCheck(Get(form, SalaryFrom), Get(form, SalaryTo), numeric)
    case PositionsNeeded => IfThen(Less(Get(form, k), Number(1)), PositionsTooFew)
    case DeadlineDate => DeadlineCheck(TextOf(form, k), now, parseDate)
    case MinAge => IfThen(OutOfRange(Get(form, k), 16, 100), MinAgeRange)
    case MaxAge => MaxAgeCheck(Get(form, MinAge), Get(form, MaxAge), numeric)
    case RequiredExperienceYears => IfThen(OutOfRange(Get(form, k), 0, 50), ExperienceRange)
    case RequiredDegree => IfThen(TooLong(form, k, 100), DegreeTooLong)
    case GenderPreference => None
    case SkillsRequired => IfThen(TooLong(form, k, 500), SkillsTooLong)
    case CategoryId => IdCheck(TextOf(form, k), CategoryRequired, CategoryInvalid)
    case CompanyId => IdCheck(TextOf(form, k), CompanyRequired, CompanyInvalid)
  }

  /** Validation passes: no checked field has a message. */
  predicate Passes(form: Form, now: int, parseDate: string -> Option<int>, numeric: bool)
  {
    forall k :: k in CheckedFields ==> Check(form, k, now, parseDate, numeric).None?
  }

  /** `errors` holds exactly the messages of the checks as written. */
  predicate Reports(errors: map<Field, Message>, form: Form, now: int, parseDate: string -> Option<int>)
  {
    (forall k :: k in errors <==> k in CheckedFields && Check(form, k, now, parseDate, false).Some?) &&
    (forall k :: k in errors ==> errors[k] == Check(form, k, now, parseDate, false).value)
  }

  /**
   * `if (failed) newErrors[k] = message`: entry `k` becomes the message when
   * the test fails and stays as it was otherwise; no other entry changes.
   */
  method Flag(errors: map<Field, Message>, k: Field, failed: bool, message: Message) returns (r: map<Field, Message>)
    ensures forall j :: j != k ==> (j in r <==> j in errors) && (j in r ==> r[j] == errors[j])
    ensures k in r <==> failed || k in errors
    ensures failed ==> r[k] == message
    ensures !failed && k in errors ==> r[k] == errors[k]
  {
    r := errors;
    if failed {
      r := r[k := message];
    }
  }

  /** Field `k` has an entry exactly when its check gives a message, and the entry is that message. */
  predicate Settles(errors: map<Field, Message>, form: Form, k: Field, now: int, parseDate: string -> Option<int>)
  {
    var c := Check(form, k, now, parseDate, false);
    (k in errors <==> c.Some?) && (c.Some? ==> errors[k] == c.value)
  }

  /** Only the fields in `ks` differ between the two maps. */
  predicate OthersKept(r: map<Field, Message>, errors: map<Field, Message>, ks: set<Field>)
  {
    forall j :: j !in ks ==> (j in r <==> j in errors) && (j in r ==> r[j] == errors[j])
  }

  /** A stage that leaves field `k` alone keeps it settled. */
  lemma KeepSettled(before: map<Field, Message>, after: map<Field, Message>, form: Form, k: Field, ks: set<Field>,
                    now: int, parseDate: string -> Option<int>)
    requires Settles(before, form, k, now, parseDate) && OthersKept(after, before, ks) && k !in ks
    ensures Settles(after, form, k, now, parseDate)
  {
  }

  /** `validateForm`'s checks fall into three parts, in the order they are written. */
  const Part1: set<Field> := {Title, Description, EmploymentType, SalaryFrom, SalaryTo}
  const Part2: set<Field> := {PositionsNeeded, DeadlineDate, MinAge, MaxAge, RequiredExperienceYears}
  const Part3: set<Field> := {RequiredDegree, SkillsRequired, CategoryId, CompanyId}

  predicate Part1Settled(errors: map<Field, Message>, form: Form, now: int, parseDate: string -> Option<int>)
  {
    Settles(errors, form, Title, now, parseDate) &&
    Settles(errors, form, Description, now, parseDate) &&
    Settles(errors, form, EmploymentType, now, parseDate) &&
    Settles(errors, form, SalaryFrom, now, parseDate) &&
    Settles(errors, form, SalaryTo, now, parseDate)
  }

  predicate Part2Settled(errors: map<Field, Message>, form: Form, now: int, parseDate: string -> Option<int>)
  {
    Settles(errors, form, PositionsNeeded, now, parseDate) &&
    Settles(errors, form, DeadlineDate, now, parseDate) &&
    Settles(errors, form, MinAge, now, parseDate) &&
    Settles(errors, form, MaxAge, now, parseDate) &&
    Settles(errors, form, RequiredExperienceYears, now, parseDate)
  }

  predicate Part3Settled(errors: map<Field, Message>, form: Form, now: int, parseDate: string -> Option<int>)
  {
    Settles(errors, form, RequiredDegree, now, parseDate) &&
    Settles(errors, form, SkillsRequired, now, parseDate) &&
    Settles(errors, form, CategoryId, now, parseDate) &&
    Settles(errors, form, CompanyId, now, parseDate)
  }

  /** Once every checked field is settled and nothing else has an entry, the map reports the checks. */
  lemma SettledReports(errors: map<Field, Message>, form: Form, now: int, parseDate: string -> Option<int>)
    requires Part1Settled(errors, form, now, parseDate) && Part2Settled(errors, form, now, parseDate)
    requires Part3Settled(errors, form, now, parseDate)
    requires GenderPreference !in errors
    ensures Reports(errors, form, now, parseDate)
  {
    forall k
      ensures (k in errors <==> k in CheckedFields && Check(form, k, now, parseDate, false).Some?) &&
        (k in errors ==> errors[k] == Check(form, k, now, parseDate, false).value)
    {
      if k != GenderPreference {
        assert Settles(errors, form, k, now, parseDate);
      }
    }
  }

  // `validateForm` in stages, in the order its checks are written.

  method ValidateTexts(f: Form, now: int, parseDate: string -> Option<int>, errors: map<Field, Message>)
    returns (e: map<Field, Message>)
    requires Title !in errors && Description !in errors && EmploymentType !in errors
    ensures Settles(e, f, Title, now, parseDate)
    ensures Settles(e, f, Description, now, parseDate)
    ensures Settles(e, f, EmploymentType, now, parseDate)
    ensures OthersKept(e, errors, {Title, Description, EmploymentType})
  {
    var title := TextOf(f, Title);
    e := Flag(errors, Title, JsTrim(title) == "", TitleRequired);
    e := Flag(e, Title, |title| > 400, TitleTooLong);
    e := Flag(e, Description, TooLong(f, Description, 4000), DescriptionTooLong);
    e := Flag(e, EmploymentType, TooLong(f, EmploymentType, 50), EmploymentTypeTooLong);
  }

  method ValidateSalaries(f: Form, now: int, parseDate: string -> Option<int>, errors: map<Field, Message>)
    returns (e: map<Field, Message>)
    requires SalaryFrom !in errors && SalaryTo !in errors
    ensures Settles(e, f, SalaryFrom, now, parseDate)
    ensures Settles(e, f, SalaryTo, now, parseDate)
    ensures OthersKept(e, errors, {SalaryFrom, SalaryTo})
  {
    var salaryFrom, salaryTo := Get(f, SalaryFrom), Get(f, SalaryTo);
    e := Flag(errors, SalaryFrom, Truthy(salaryFrom) && Less(salaryFrom, Number(0)), SalaryFromNegative);
    e := Flag(e, SalaryTo, Truthy(salaryTo) && Less(salaryTo, Number(0)), SalaryToNegative);
    e := Flag(e, SalaryTo, Truthy(salaryFrom) && Truthy(salaryTo) && Greater(salaryFrom, salaryTo), SalaryOrder);
    SalaryToIsPairCheck(f, now, parseDate, false);
  }

  method ValidatePositionsAndDeadline(f: Form, now: int, parseDate: string -> Option<int>, errors: map<Field, Message>)
    returns (e: map<Field, Message>)
    requires PositionsNeeded !in errors && DeadlineDate !in errors
    ensures Settles(e, f, PositionsNeeded, now, parseDate)
    ensures Settles(e, f, DeadlineDate, now, parseDate)
    ensures OthersKept(e, errors, {PositionsNeeded, DeadlineDate})
  {
    e := Flag(errors, PositionsNeeded, Less(Get(f, PositionsNeeded), Number(1)), PositionsTooFew);
    var deadline := TextOf(f, DeadlineDate);
    e := Flag(e, DeadlineDate, deadline != "" && parseDate(deadline).Some? && parseDate(deadline).value <= now,
      DeadlinePassed);
  }

  method ValidateAges(f: Form, now: int, parseDate: string -> Option<int>, errors: map<Field, Message>)
    returns (e: map<Field, Message>)
    requires MinAge !in errors && MaxAge !in errors && RequiredExperienceYears !in errors
    ensures Settles(e, f, MinAge, now, parseDate)
    ensures Settles(e, f, MaxAge, now, parseDate)
    ensures Settles(e, f, RequiredExperienceYears, now, parseDate)
    ensures OthersKept(e, errors, {MinAge, MaxAge, RequiredExperienceYears})
  {
    var e1 := ValidateAgePair(f, now, parseDate, errors);
    e := Flag(e1, RequiredExperienceYears, OutOfRange(Get(f, RequiredExperienceYears), 0, 50), ExperienceRange);
    KeepSettled(e1, e, f, MinAge, {RequiredExperienceYears}, now, parseDate);
    KeepSettled(e1, e, f, MaxAge, {RequiredExperienceYears}, now, parseDate);
  }

  method ValidateAgePair(f: Form, now: int, parseDate: string -> Option<int>, errors: map<Field, Message>)
    returns (e: map<Field, Message>)
    requires MinAge !in errors && MaxAge !in errors
    ensures Settles(e, f, MinAge, now, parseDate)
    ensures Settles(e, f, MaxAge, now, parseDate)
    ensures OthersKept(e, errors, {MinAge, MaxAge})
  {
    var e1 := Flag(errors, MinAge, OutOfRange(Get(f, MinAge), 16, 100), MinAgeRange);
    e := ValidateMaxAge(f, now, parseDate, e1);
    KeepSettled(e1, e, f, MinAge, {MaxAge}, now, parseDate);
  }

  method ValidateMaxAge(f: Form, now: int, parseDate: string -> Option<int>, errors: map<Field, Message>)
    returns (e: map<Field, Message>)
    requires MaxAge !in errors
    ensures Settles(e, f, MaxAge, now, parseDate)
    ensures OthersKept(e, errors, {MaxAge})
  {
    var minAge, maxAge := Get(f, MinAge), Get(f, MaxAge);
    e := Flag(errors, MaxAge, OutOfRange(maxAge, 16, 100), MaxAgeRange);
    e := Flag(e, MaxAge, Truthy(minAge) && Truthy(maxAge) && Greater(minAge, maxAge), AgeOrder);
    MaxAgeIsPairCheck(f, now, parseDate, false);
  }

  method ValidateLengths(f: Form, now: int, parseDate: string -> Option<int>, errors: map<Field, Message>)
    returns (e: map<Field, Message>)
    requires RequiredDegree !in errors && SkillsRequired !in errors
    ensures Settles(e, f, RequiredDegree, now, parseDate)
    ensures Settles(e, f, SkillsRequired, now, parseDate)
    ensures OthersKept(e, errors, {RequiredDegree, SkillsRequired})
  {
    e := Flag(errors, RequiredDegree, TooLong(f, RequiredDegree, 100), DegreeTooLong);
    e := Flag(e, SkillsRequired, TooLong(f, SkillsRequired, 500), SkillsTooLong);
  }

  method ValidateIds(f: Form, now: int, parseDate: string -> Option<int>, errors: map<Field, Message>)
    returns (e: map<Field, Message>)
    requires CategoryId !in errors && CompanyId !in errors
    ensures Settles(e, f, CategoryId, now, parseDate)
    ensures Settles(e, f, CompanyId, now, parseDate)
    ensures OthersKept(e, errors, {CategoryId, CompanyId})
  {
    var categoryId, companyId := TextOf(f, CategoryId), TextOf(f, CompanyId);
    e := Flag(errors, CategoryId, categoryId == "", CategoryRequired);
    e := Flag(e, CompanyId, companyId == "", CompanyRequired);
    e := Flag(e, CategoryId, categoryId != "" && !GuidV1To5(categoryId), CategoryInvalid);
    e := Flag(e, CompanyId, companyId != "" && !GuidV1To5(companyId), CompanyInvalid);
  }

  /** The texts and the salaries, from no entry. */
  method ValidatePart1(f: Form, now: int, parseDate: string -> Option<int>) returns (e: map<Field, Message>)
    ensures Part1Settled(e, f, now, parseDate)
    ensures e.Keys <= Part1
  {
    var e1 := ValidateTexts(f, now, parseDate, map[]);
    e := ValidateSalaries(f, now, parseDate, e1);
    KeepSettled(e1, e, f, Title, {SalaryFrom, SalaryTo}, now, parseDate);
    KeepSettled(e1, e, f, Description, {SalaryFrom, SalaryTo}, now, parseDate);
    KeepSettled(e1, e, f, EmploymentType, {SalaryFrom, SalaryTo}, now, parseDate);
  }

  /** Positions, the deadline, the ages and the experience. */
  method ValidatePart2(f: Form, now: int, parseDate: string -> Option<int>, errors: map<Field, Message>)
    returns (e: map<Field, Message>)
    requires errors.Keys <= Part1
    ensures Part2Settled(e, f, now, parseDate)
    ensures OthersKept(e, errors, Part2)
  {
    var e1 := ValidatePositionsAndDeadline(f, now, parseDate, errors);
    e := ValidateAges(f, now, parseDate, e1);
    KeepSettled(e1, e, f, PositionsNeeded, {MinAge, MaxAge, RequiredExperienceYears}, now, parseDate);
    KeepSettled(e1, e, f, DeadlineDate, {MinAge, MaxAge, RequiredExperienceYears}, now, parseDate);
  }

  /** The lengths and the identifiers. */
  method ValidatePart3(f: Form, now: int, parseDate: string -> Option<int>, errors: map<Field, Message>)
    returns (e: map<Field, Message>)
    requires RequiredDegree !in errors && SkillsRequired !in errors && CategoryId !in errors && CompanyId !in errors
    ensures Part3Settled(e, f, now, parseDate)
    ensures OthersKept(e, errors, Part3)
  {
    var e1 := ValidateLengths(f, now, parseDate, errors);
    e := ValidateIds(f, now, parseDate, e1);
    KeepSettled(e1, e, f, RequiredDegree, {CategoryId, CompanyId}, now, parseDate);
    KeepSettled(e1, e, f, SkillsRequired, {CategoryId, CompanyId}, now, parseDate);
  }

  /** A later part leaves the first part's entries alone. */
  lemma KeepPart1(before: map<Field, Message>, after: map<Field, Message>, form: Form, ks: set<Field>,
                  now: int, parseDate: string -> Option<int>)
    requires Part1Settled(before, form, now, parseDate) && OthersKept(after, before, ks) && ks !! Part1
    ensures Part1Settled(after, form, now, parseDate)
  {
    KeepSettled(before, after, form, Title, ks, now, parseDate);
    KeepSettled(before, after, form, Description, ks, now, parseDate);
    KeepSettled(before, after, form, EmploymentType, ks, now, parseDate);
    KeepSettled(before, after, form, SalaryFrom, ks, now, parseDate);
    KeepSettled(before, after, form, SalaryTo, ks, now, parseDate);
  }

  /** The last part leaves the second part's entries alone. */
  lemma KeepPart2(before: map<Field, Message>, after: map<Field, Message>, form: Form,
                  now: int, parseDate: string -> Option<int>)
    requires Part2Settled(before, form, now, parseDate) && OthersKept(after, before, Part3)
    ensures Part2Settled(after, form, now, parseDate)
  {
    KeepSettled(before, after, form, PositionsNeeded, Part3, now, parseDate);
    KeepSettled(before, after, form, DeadlineDate, Part3, now, parseDate);
    KeepSettled(before, after, form, MinAge, Part3, now, parseDate);
    KeepSettled(before, after, form, MaxAge, Part3, now, parseDate);
    KeepSettled(before, after, form, RequiredExperienceYears, Part3, now, parseDate);
  }

  /** Which fields can have an entry after the second part, and after the third. */
  lemma PartKeys(p1: map<Field, Message>, p2: map<Field, Message>, p3: map<Field, Message>)
    requires p1.Keys <= Part1 && OthersKept(p2, p1, Part2) && OthersKept(p3, p2, Part3)
    ensures RequiredDegree !in p2 && SkillsRequired !in p2 && CategoryId !in p2 && CompanyId !in p2
    ensures GenderPreference !in p3
  {
    assert GenderPreference !in p1 && GenderPreference !in p2;
  }

  /** The error map `validateForm` builds: its checks in turn, from no entry. */
  method Validate(f: Form, now: int, parseDate: string -> Option<int>) returns (errors: map<Field, Message>)
    ensures Reports(errors, f, now, parseDate)
  {
    var p1 := ValidatePart1(f, now, parseDate);
    var p2 := ValidatePart2(f, now, parseDate, p1);
    PartKeys(p1, p2, p2);
    errors := ValidatePart3(f, now, parseDate, p2);
    PartKeys(p1, p2, errors);
    KeepPart1(p1, p2, f, Part2, now, parseDate);
    KeepPart1(p2, errors, f, Part3, now, parseDate);
    KeepPart2(p2, errors, f, now, parseDate);
    SettledReports(errors, f, now, parseDate);
  }

  class PostJob {
    var formData: Form
    var errors: map<Field, Message>

    predicate Valid()
      reads this
    {
      WellFormed(formData)
    }

    constructor()
      ensures Valid()
      ensures formData == InitialForm && errors == map[]
    {
      formData := InitialForm;
      errors := map[];
      InitialFormWellFormed();
    }

    /** `handleChange`: the field takes the input's text, and its shown error is blanked. */
    method HandleChange(name: Field, value: string)
      requires Valid()
      modifies this
      ensures Valid()
      ensures formData == old(formData)[name := Str(value)]
      ensures errors == ClearError(old(errors), name, Blank)
    {
      formData := formData[name := Str(value)];
      if name in errors && errors[name] != Blank {
        errors := errors[name := Blank];
      }
    }

    /** `validateForm`: the checks in the order written, each failing one setting its field's message. */
    method ValidateForm(now: int, parseDate: string -> Option<int>) returns (ok: bool)
      requires Valid()
      modifies this
      ensures Valid() && formData == old(formData)
      ensures Reports(errors, formData, now, parseDate)
      ensures ok <==> errors == map[]
      ensures ok <==> Passes(formData, now, parseDate, false)
    {
      var newErrors := Validate(formData, now, parseDate);
      errors := newErrors;
      ok := |newErrors| == 0;
      if !ok {
        var k :| k in newErrors;
      }
    }

    /**
     * `handleSubmit`: nothing is sent when validation fails; otherwise the
     * post's outcome is shown, and a successful post resets the form.
     * `failure` is the server's message when the post fails, `None` when it
     * succeeds.
     */
    method Submit(now: int, parseDate: string -> Option<int>, failure: Option<string>)
      returns (notice: Option<Notification>)
      requires Valid()
      modifies this
      ensures Valid()
      ensures Reports(errors, old(formData), now, parseDate)
      ensures notice.None? <==> !Passes(old(formData), now, parseDate, false)
      ensures notice.None? ==> formData == old(formData)
      ensures notice.Some? && failure.None? ==>
        formData == InitialForm && notice.value == Notification(PostedMessage, "success")
      ensures notice.Some? && failure.Some? ==>
        formData == old(formData) && notice.value == Notification(Or(failure.value, PostFailedMessage), "error")
    {
      var ok := ValidateForm(now, parseDate);
      if !ok {
        return None;
      }
      if failure.None? {
        notice := Some(Notification(PostedMessage, "success"));
        InitialFormWellFormed();
        formData := InitialForm;
      } else {
        notice := Some(Notification(Or(failure.value, PostFailedMessage), "error"));
      }
    }
  }

  // ---------------------------------------------------------------------
  // Properties of the check

  /** A blank title is required; a title over 400 characters is too long; nothing else is reported on it. */
  lemma TitleRules(form: Form, now: int, parseDate: string -> Option<int>, numeric: bool)
    ensures var c := Check(form, Title, now, parseDate, numeric);
      (|TextOf(form, Title)| > 400 ==> c == Some(TitleTooLong)) &&
      (|TextOf(form, Title)| <= 400 && JsTrim(TextOf(form, Title)) == "" ==> c == Some(TitleRequired)) &&
      (c.None? <==> JsTrim(TextOf(form, Title)) != "" && |TextOf(form, Title)| <= 400)
  {
  }

  /** A blank title is never over 400 characters, so the required message is the one it gets. */
  lemma BlankTitleRequired(form: Form, now: int, parseDate: string -> Option<int>, numeric: bool)
    requires forall i :: 0 <= i < |TextOf(form, Title)| ==> JsSpace(TextOf(form, Title)[i])
    requires |TextOf(form, Title)| <= 400
    ensures Check(form, Title, now, parseDate, numeric) == Some(TitleRequired)
  {
    JsTrimEmpty(TextOf(form, Title));
  }

  /** A "to" salary below the "from" salary is reported as out of order, even when it is also negative. */
  lemma SalaryOrderOverridesSign(form: Form, now: int, parseDate: string -> Option<int>)
    requires Truthy(Get(form, SalaryFrom)) && Truthy(Get(form, SalaryTo))
    requires Greater(Get(form, SalaryFrom), Get(form, SalaryTo))
    ensures Check(form, SalaryTo, now, parseDate, false) == Some(SalaryOrder)
  {
  }

  /** A maximum age below the minimum is reported as out of order, even when it is also out of range. */
  lemma AgeOrderOverridesRange(form: Form, now: int, parseDate: string -> Option<int>)
    requires Truthy(Get(form, MinAge)) && Truthy(Get(form, MaxAge))
    requires Greater(Get(form, MinAge), Get(form, MaxAge))
    ensures Check(form, MaxAge, now, parseDate, false) == Some(AgeOrder)
  {
  }

  /** Fewer than one position is refused; an emptied input counts as 0, a missing value as NaN. */
  lemma PositionsAtLeastOne(form: Form, now: int, parseDate: string -> Option<int>, numeric: bool)
    ensures Check(form, PositionsNeeded, now, parseDate, numeric).Some? <==> Less(Get(form, PositionsNeeded), Number(1))
    ensures Less(Str(""), Number(1)) && Less(Number(0), Number(1)) && !Less(Undefined, Number(1))
  {
    JsTrimEmpty("");
  }

  /** A falsy number (missing, 0, or an emptied input) is never range-checked. */
  lemma FalsyNumbersUnchecked(form: Form, now: int, parseDate: string -> Option<int>, numeric: bool)
    requires !Truthy(Get(form, SalaryFrom)) && !Truthy(Get(form, SalaryTo))
    requires !Truthy(Get(form, MinAge)) && !Truthy(Get(form, MaxAge))
    requires !Truthy(Get(form, RequiredExperienceYears))
    ensures forall k :: k in {SalaryFrom, SalaryTo, MinAge, MaxAge, RequiredExperienceYears} ==>
      Check(form, k, now, parseDate, numeric).None?
  {
  }

  /** The category and the company are required and must be version 1 to 5 GUIDs. */
  lemma IdsAreGuids(form: Form, now: int, parseDate: string -> Option<int>, numeric: bool)
    ensures Check(form, CategoryId, now, parseDate, numeric).None? <==> GuidV1To5(TextOf(form, CategoryId))
    ensures Check(form, CompanyId, now, parseDate, numeric).None? <==> GuidV1To5(TextOf(form, CompanyId))
    ensures TextOf(form, CategoryId) == "" ==> Check(form, CategoryId, now, parseDate, numeric) == Some(CategoryRequired)
    ensures TextOf(form, CompanyId) == "" ==> Check(form, CompanyId, now, parseDate, numeric) == Some(CompanyRequired)
  {
  }

  /** The untouched form fails on the title, the category and the company only. */
  lemma InitialFormErrors(now: int, parseDate: string -> Option<int>, numeric: bool)
    ensures forall k :: Check(InitialForm, k, now, parseDate, numeric).Some? <==> k in {Title, CategoryId, CompanyId}
    ensures Check(InitialForm, Title, now, parseDate, numeric) == Some(TitleRequired)
  {
    JsTrimEmpty("");
    assert !Less(Number(1), Number(1));
  }

  /** The check of the "to" salary is the two-salary check. */
  lemma SalaryToIsPairCheck(form: Form, now: int, parseDate: string -> Option<int>, numeric: bool)
    ensures Check(form, SalaryTo, now, parseDate, numeric) ==
      SalaryToCheck(Get(form, SalaryFrom), Get(form, SalaryTo), numeric)
  {
  }

  /** The check of the maximum age is the two-age check. */
  lemma MaxAgeIsPairCheck(form: Form, now: int, parseDate: string -> Option<int>, numeric: bool)
    ensures Check(form, MaxAge, now, parseDate, numeric) == MaxAgeCheck(Get(form, MinAge), Get(form, MaxAge), numeric)
  {
  }

  /**
   * Once typed, both salaries are strings and compare as text: a "from"
   * numeral shorter than the "to" numeral but with a larger first digit (say
   * 9 000 000 and 12 000 000) gets the out-of-order message.
   */
  lemma SalaryOrderComparesText(form: Form, now: int, parseDate: string -> Option<int>, a: string, b: string)
    requires |a| >= 1 && |b| >= 1 && AllDigits(a) && AllDigits(b)
    requires a[0] != '0' && b[0] != '0' && |a| < |b| && b[0] < a[0]
    requires Get(form, SalaryFrom) == Str(a) && Get(form, SalaryTo) == Str(b)
    ensures Check(form, SalaryTo, now, parseDate, false) == Some(SalaryOrder)
    ensures NumericLess(Get(form, SalaryFrom), Get(form, SalaryTo))
  {
    TextSalariesOutOfOrder(a, b);
    SalaryToIsPairCheck(form, now, parseDate, false);
  }

  lemma TextSalariesOutOfOrder(a: string, b: string)
    requires |a| >= 1 && |b| >= 1 && AllDigits(a) && AllDigits(b)
    requires a[0] != '0' && b[0] != '0' && |a| < |b| && b[0] < a[0]
    ensures SalaryToCheck(Str(a), Str(b), false) == Some(SalaryOrder)
    ensures NumericLess(Str(a), Str(b))
  {
    TextOrderIsNotNumericOrder(a, b);
  }

  /** With the comparison on numbers, such a range passes. */
  lemma SalaryOrderCorrected(form: Form, now: int, parseDate: string -> Option<int>, a: string, b: string)
    requires |a| >= 1 && |b| >= 1 && AllDigits(a) && AllDigits(b)
    requires a[0] != '0' && b[0] != '0' && |a| < |b| && b[0] < a[0]
    requires Get(form, SalaryFrom) == Str(a) && Get(form, SalaryTo) == Str(b)
    ensures Check(form, SalaryTo, now, parseDate, true).None?
  {
    NumericSalariesInOrder(a, b);
    SalaryToIsPairCheck(form, now, parseDate, true);
  }

  lemma NumericSalariesInOrder(a: string, b: string)
    requires |a| >= 1 && |b| >= 1 && AllDigits(a) && AllDigits(b)
    requires a[0] != '0' && b[0] != '0' && |a| < |b| && b[0] < a[0]
    ensures SalaryToCheck(Str(a), Str(b), true).None?
  {
    TextOrderIsNotNumericOrder(a, b);
    ParseDigits(b);
    DigitsValueBounds(b);
    assert !Less(Str(b), Number(0));
  }

  /** The corrected cross-field checks report an order error exactly when the numbers are out of order. */
  lemma CorrectedOrdersNumbers(form: Form, now: int, parseDate: string -> Option<int>)
    requires Truthy(Get(form, SalaryFrom)) && Truthy(Get(form, SalaryTo))
    requires Truthy(Get(form, MinAge)) && Truthy(Get(form, MaxAge))
    ensures Check(form, SalaryTo, now, parseDate, true) == Some(SalaryOrder) <==>
      NumericLess(Get(form, SalaryTo), Get(form, SalaryFrom))
    ensures Check(form, MaxAge, now, parseDate, true) == Some(AgeOrder) <==>
      NumericLess(Get(form, MaxAge), Get(form, MinAge))
  {
    SalaryToIsPairCheck(form, now, parseDate, true);
    MaxAgeIsPairCheck(form, now, parseDate, true);
  }

  /** For values that are not both strings, the two comparisons agree. */
  lemma CorrectedAgreesOnNumbers(form: Form, now: int, parseDate: string -> Option<int>)
    requires !(Get(form, SalaryFrom).Str? && Get(form, SalaryTo).Str?)
    requires !(Get(form, MinAge).Str? && Get(form, MaxAge).Str?)
    ensures forall k :: Check(form, k, now, parseDate, true) == Check(form, k, now, parseDate, false)
  {
  }

  /** The companies offered in the form have valid identifiers. */
  lemma OfferedCompaniesAreGuids()
    ensures forall c :: c in OfferedCompanies ==> GuidV1To5(c.companyId)
  {
    OfferedIdIsGuid('0');
    OfferedIdIsGuid('1');
    OfferedIdIsGuid('2');
  }

  /** The three identifiers differ only in their last digit. */
  lemma OfferedIdIsGuid(d: char)
    requires '0' <= d <= '9'
    ensures GuidV1To5(OfferedIdPrefix + [d])
  {
    var s := OfferedIdPrefix + [d];
    assert forall i :: 0 <= i < 35 ==> s[i] == OfferedIdPrefix[i];
  }
}
