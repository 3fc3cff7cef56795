/**
 * The rule sets for posting a job and for querying the job listing
 * (`JobCreateValidator`, `JobQueryValidator`).
 */
module JobValidators {
  import opened Common
  import opened Text
  import opened Rules

  // The validators' messages.
  const TitleRequired: string := "Title is required."
  const TitleOver400: string := "Title cannot exceed 400 characters."
  const DescriptionOver4000: string := "Description cannot exceed 4000 characters."
  const EmploymentTypeOver50: string := "EmploymentType cannot exceed 50 characters."
  const SalaryFromNegative: string := "SalaryFrom must be a positive number."
  const SalaryToNegative: string := "SalaryTo must be a positive number."
  const SalaryOrder: string := "SalaryTo must be greater than or equal to SalaryFrom."
  const PositionsTooFew: string := "PositionsNeeded must be at least 1."
  const DeadlinePassed: string := "DeadlineDate must be in the future."
  const MinAgeRange: string := "MinAge must be between 16 and 100."
  const MaxAgeRange: string := "MaxAge must be between 16 and 100."
  const AgeOrder: string := "MaxAge must be greater than or equal to MinAge."
  const RequiredExperienceYearsRange: string := "RequiredExperienceYears must be between 0 and 50."
  const RequiredDegreeOver100: string := "RequiredDegree cannot exceed 100 characters."
  const GenderPreferenceInvalid: string := "GenderPreference must be 'Nam', 'N\U{1EEF}', or 'Kh\U{F4}ng y\U{EA}u c\U{1EA7}u'."
  const SkillsRequiredOver500: string := "SkillsRequired cannot exceed 500 characters."
  const CategoryIdRequired: string := "CategoryId is required."
  const PageTooSmall: string := "Page must be greater than 0."
  const PageSizeRange: string := "PageSize must be between 1 and 50."
  const SearchTermOver100: string := "Search term cannot exceed 100 characters."
  const CategoryOver50: string := "Category cannot exceed 50 characters."

  /** `JobCreateDto`; times are instants, salaries are decimals. */
  datatype JobCreate = JobCreate(
    title: Option<string>,
    description: Option<string>,
    employmentType: Option<string>,
    salaryFrom: Option<real>,
    salaryTo: Option<real>,
    positionsNeeded: int,
    deadlineDate: Option<int>,
    minAge: Option<int>,
    maxAge: Option<int>,
    requiredExperienceYears: Option<int>,
    requiredDegree: Option<string>,
    genderPreference: Option<string>,
    skillsRequired: Option<string>,
    categoryId: Id)

  const GenderPreferences: seq<string> := ["Nam", "N\U{1EEF}", "Kh\U{F4}ng y\U{EA}u c\U{1EA7}u"]

  /** `^(Nam|Nữ|Không yêu cầu)$`. */
  predicate GenderPreference(s: string)
  {
    BeforeFinalNewline(s) in GenderPreferences
  }

  predicate AtLeast(o: Option<real>, bound: real)
  {
    o.None? || o.value >= bound
  }

  predicate AtLeastInt(o: Option<int>, bound: int)
  {
    o.None? || o.value >= bound
  }

  predicate After(o: Option<int>, instant: int)
  {
    o.None? || o.value > instant
  }

  function OptionalLength(o: Option<string>, n: nat, message: string): seq<string>
  {
    When(!IsNullOrEmpty(o), Check(MaximumLength(o, n), message))
  }

  /**
   * The messages of `JobCreateValidator` as written. On `SalaryTo` and
   * `MaxAge` the second `.When` also governs the first validator, so their
   * own bounds are checked only when both values of the pair are present.
   */
  function JobCreateFailures(d: JobCreate, now: int): seq<string>
  {
    Check(NotEmpty(d.title), TitleRequired) +
    Check(MaximumLength(d.title, 400), TitleOver400) +
    OptionalLength(d.description, 4000, DescriptionOver4000) +
    OptionalLength(d.employmentType, 50, EmploymentTypeOver50) +
    When(d.salaryFrom.Some?, Check(AtLeast(d.salaryFrom, 0.0), SalaryFromNegative)) +
    When(d.salaryFrom.Some? && d.salaryTo.Some?,
      When(d.salaryTo.Some?, Check(AtLeast(d.salaryTo, 0.0), SalaryToNegative)) +
      Check(AtLeast(d.salaryTo, OrElse(d.salaryFrom, 0.0)), SalaryOrder)) +
    Check(d.positionsNeeded > 0, PositionsTooFew) +
    When(d.deadlineDate.Some?, Check(After(d.deadlineDate, now), DeadlinePassed)) +
    When(d.minAge.Some?, Check(InclusiveBetween(d.minAge, 16, 100), MinAgeRange)) +
    When(d.minAge.Some? && d.maxAge.Some?,
      When(d.maxAge.Some?, Check(InclusiveBetween(d.maxAge, 16, 100), MaxAgeRange)) +
      Check(AtLeastInt(d.maxAge, OrElse(d.minAge, 16)), AgeOrder)) +
    When(d.requiredExperienceYears.Some?,
      Check(InclusiveBetween(d.requiredExperienceYears, 0, 50), RequiredExperienceYearsRange)) +
    OptionalLength(d.requiredDegree, 100, RequiredDegreeOver100) +
    When(!IsNullOrEmpty(d.genderPreference),
      Check(Matches(d.genderPreference, GenderPreference), GenderPreferenceInvalid)) +
    OptionalLength(d.skillsRequired, 500, SkillsRequiredOver500) +
    Check(d.categoryId != EmptyId, CategoryIdRequired)
  }

  /** The checks every job posting must pass, except the two pair-gated bounds. */
  predicate JobCreateCommon(d: JobCreate, now: int)
  {
    NotEmpty(d.title) && |d.title.value| <= 400 &&
    MaximumLength(d.description, 4000) &&
    MaximumLength(d.employmentType, 50) &&
    AtLeast(d.salaryFrom, 0.0) &&
    (d.salaryFrom.Some? && d.salaryTo.Some? ==> d.salaryTo.value >= d.salaryFrom.value) &&
    d.positionsNeeded >= 1 &&
    After(d.deadlineDate, now) &&
    InclusiveBetween(d.minAge, 16, 100) &&
    (d.minAge.Some? && d.maxAge.Some? ==> d.maxAge.value >= d.minAge.value) &&
    InclusiveBetween(d.requiredExperienceYears, 0, 50) &&
    MaximumLength(d.requiredDegree, 100) &&
    (IsNullOrEmpty(d.genderPreference) || GenderPreference(d.genderPreference.value)) &&
    MaximumLength(d.skillsRequired, 500) &&
    d.categoryId != EmptyId
  }

  /** A posting as the rules evidently mean it: every present bound holds. */
  predicate JobCreateIntended(d: JobCreate, now: int)
  {
    JobCreateCommon(d, now) && AtLeast(d.salaryTo, 0.0) && InclusiveBetween(d.maxAge, 16, 100)
  }

  /** The validator as written passes exactly the postings `JobCreateCommon` describes, plus the gated bounds. */
  lemma JobCreateValidIff(d: JobCreate, now: int)
    ensures JobCreateFailures(d, now) == [] <==>
      JobCreateCommon(d, now) &&
      (d.salaryFrom.Some? ==> AtLeast(d.salaryTo, 0.0)) &&
      (d.minAge.Some? ==> InclusiveBetween(d.maxAge, 16, 100))
  {
  }

  /** A negative `SalaryTo` without `SalaryFrom`, or a `MaxAge` of 200 without `MinAge`, passes as written. */
  lemma JobCreateUngatedBounds(now: int)
    ensures var d := JobCreate(Some("Dev"), None, None, None, Some(-5.0), 1, None, None, Some(200), None, None, None, None, 1);
      JobCreateFailures(d, now) == [] && !JobCreateIntended(d, now)
  {
    var d := JobCreate(Some("Dev"), None, None, None, Some(-5.0), 1, None, None, Some(200), None, None, None, None, 1);
    assert !NetSpace(d.title.value[0]);
  }

  /** The corrected rules: each `.When` governs only the validator just before it. */
  function JobCreateFailuresCorrected(d: JobCreate, now: int): seq<string>
  {
    Check(NotEmpty(d.title), TitleRequired) +
    Check(MaximumLength(d.title, 400), TitleOver400) +
    OptionalLength(d.description, 4000, DescriptionOver4000) +
    OptionalLength(d.employmentType, 50, EmploymentTypeOver50) +
    When(d.salaryFrom.Some?, Check(AtLeast(d.salaryFrom, 0.0), SalaryFromNegative)) +
    When(d.salaryTo.Some?, Check(AtLeast(d.salaryTo, 0.0), SalaryToNegative)) +
    When(d.salaryFrom.Some? && d.salaryTo.Some?,
      Check(AtLeast(d.salaryTo, OrElse(d.salaryFrom, 0.0)), SalaryOrder)) +
    Check(d.positionsNeeded > 0, PositionsTooFew) +
    When(d.deadlineDate.Some?, Check(After(d.deadlineDate, now), DeadlinePassed)) +
    When(d.minAge.Some?, Check(InclusiveBetween(d.minAge, 16, 100), MinAgeRange)) +
    When(d.maxAge.Some?, Check(InclusiveBetween(d.maxAge, 16, 100), MaxAgeRange)) +
    When(d.minAge.Some? && d.maxAge.Some?,
      Check(AtLeastInt(d.maxAge, OrElse(d.minAge, 16)), AgeOrder)) +
    When(d.requiredExperienceYears.Some?,
      Check(InclusiveBetween(d.requiredExperienceYears, 0, 50), RequiredExperienceYearsRange)) +
    OptionalLength(d.requiredDegree, 100, RequiredDegreeOver100) +
    When(!IsNullOrEmpty(d.genderPreference),
      Check(Matches(d.genderPreference, GenderPreference), GenderPreferenceInvalid)) +
    OptionalLength(d.skillsRequired, 500, SkillsRequiredOver500) +
    Check(d.categoryId != EmptyId, CategoryIdRequired)
  }

  /** The corrected rules pass exactly the intended postings. */
  lemma JobCreateCorrectedValidIff(d: JobCreate, now: int)
    ensures JobCreateFailuresCorrected(d, now) == [] <==> JobCreateIntended(d, now)
  {
  }

  /** The two rule sets differ only on the gated bounds: the corrected one is never laxer. */
  lemma CorrectedIsStricter(d: JobCreate, now: int)
    ensures JobCreateFailuresCorrected(d, now) == [] ==> JobCreateFailures(d, now) == []
  {
    JobCreateValidIff(d, now);
    JobCreateCorrectedValidIff(d, now);
  }

  /** The gender preference accepts the three listed values, and a trailing line break after one of them. */
  lemma GenderPreferenceValues()
    ensures GenderPreference("Nam") && GenderPreference("Nam\n")
    ensures !GenderPreference("nam") && !GenderPreference("Khac")
  {
    assert BeforeFinalNewline("Nam\n") == "Nam";
  }

  // ---------------------------------------------------------------------
  // JobQueryValidator

  /** `JobQueryDto`. */
  datatype JobQuery = JobQuery(page: int, pageSize: int, search: Option<string>, category: Option<string>)

  function JobQueryFailures(q: JobQuery): seq<string>
  {
    Check(q.page > 0, PageTooSmall) +
    Check(1 <= q.pageSize <= 50, PageSizeRange) +
    OptionalLength(q.search, 100, SearchTermOver100) +
    OptionalLength(q.category, 50, CategoryOver50)
  }

  /** A query is accepted exactly when its page is positive, its size in [1, 50] and its terms short enough. */
  lemma JobQueryValidIff(q: JobQuery)
    ensures JobQueryFailures(q) == [] <==>
      q.page >= 1 && 1 <= q.pageSize <= 50 &&
      (q.search.None? || |q.search.value| <= 100) &&
      (q.category.None? || |q.category.value| <= 50)
  {
  }

  /** Every failing check reports exactly one message. */
  lemma JobQueryOneMessagePerCheck(q: JobQuery)
    ensures |JobQueryFailures(q)| ==
      (if q.page > 0 then 0 else 1) + (if 1 <= q.pageSize <= 50 then 0 else 1) +
      (if MaximumLength(q.search, 100) then 0 else 1) + (if MaximumLength(q.category, 50) then 0 else 1)
  {
  }
}
