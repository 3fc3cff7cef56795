/**
 * The rule sets for candidate profiles, employer profiles and companies
 * (`CandidateProfileCreateValidator`, `CandidateProfileUpdateValidator`,
 * `EmployerProfileCreateValidator`, `EmployerProfileUpdateValidator`,
 * `CompanyCreateValidator`, `CompanyUpdateValidator`). The create and update
 * forms of an entity carry the same fields; the rules differ.
 */
module ProfileValidators {
  import opened Common
  import opened Text
  import opened Rules

  // The validators' messages.
  const InvalidPhoneNumberFormat: string := "Invalid phone number format."
  const FullNameRequired: string := "Full name is required."
  const FullNameOver200: string := "Full name cannot exceed 200 characters."
  const PhoneNumberOver50: string := "Phone number cannot exceed 50 characters."
  const HeadlineOver300: string := "Headline cannot exceed 300 characters."
  const TooYoung: string := "Must be at least 16 years old."
  const GenderInvalid: string := "Gender must be 'Nam', 'N\U{1EEF}', or 'Kh\U{E1}c'."
  const AddressOver500: string := "Address cannot exceed 500 characters."
  const EducationLevelOver100: string := "Education level cannot exceed 100 characters."
  const ExperienceYearsRange: string := "Experience years must be between 0 and 50."
  const SkillsOver2000: string := "Skills cannot exceed 2000 characters."
  const LinkedInProfileURLOver300: string := "LinkedIn profile URL cannot exceed 300 characters."
  const InvalidLinkedInProfileURL: string := "Invalid LinkedIn profile URL."
  const PortfolioURLOver300: string := "Portfolio URL cannot exceed 300 characters."
  const InvalidPortfolioURL: string := "Invalid portfolio URL."
  const DisplayNameRequired: string := "Display name is required."
  const DisplayNameOver200: string := "Display name cannot exceed 200 characters."
  const ContactPhoneOver50: string := "Contact phone cannot exceed 50 characters."
  const IndustryOver100: string := "Industry cannot exceed 100 characters."
  const PositionOver100: string := "Position cannot exceed 100 characters."
  const YearsOfExperienceRange: string := "Years of experience must be between 0 and 50."
  const WebsiteURLOver300: string := "Website URL cannot exceed 300 characters."
  const InvalidWebsiteURL: string := "Invalid website URL."
  const CompanyNameRequired: string := "Company name is required."
  const CompanyNameOver255: string := "Company name cannot exceed 255 characters."
  const CompanyCodeOver100: string := "Company code cannot exceed 100 characters."
  const WebsiteURLOver500: string := "Website URL cannot exceed 500 characters."
  const DescriptionOver4000: string := "Description cannot exceed 4000 characters."
  const IndustryOver255: string := "Industry cannot exceed 255 characters."
  const CompanySizeOver50: string := "Company size cannot exceed 50 characters."
  const LogoURLOver300: string := "Logo URL cannot exceed 300 characters."
  const InvalidLogoURL: string := "Invalid logo URL."
  const ContactEmailOver255: string := "Contact email cannot exceed 255 characters."
  const InvalidEmailAddress: string := "Invalid email address."
  const LogoURLRequired: string := "LogoURL is required."

  datatype CandidateFields = CandidateFields(
    fullName: Option<string>,
    phone: Option<string>,
    headline: Option<string>,
    dateOfBirth: Option<int>,
    gender: Option<string>,
    address: Option<string>,
    educationLevel: Option<string>,
    experienceYears: Option<int>,
    skills: Option<string>,
    linkedInProfile: Option<string>,
    portfolioUrl: Option<string>)

  datatype EmployerFields = EmployerFields(
    displayName: Option<string>,
    contactPhone: Option<string>,
    industry: Option<string>,
    position: Option<string>,
    yearsOfExperience: Option<int>,
    linkedInProfile: Option<string>,
    website: Option<string>)

  datatype CompanyFields = CompanyFields(
    name: Option<string>,
    companyCode: Option<string>,
    website: Option<string>,
    description: Option<string>,
    industry: Option<string>,
    companySize: Option<string>,
    foundedYear: Option<int>,
    logoUrl: Option<string>,
    address: Option<string>,
    contactEmail: Option<string>)

  const Genders: seq<string> := ["Nam", "N\U{1EEF}", "Kh\U{E1}c"]

  /** No gender, or one of the three the validator lists. */
  predicate GenderOk(g: Option<string>)
  {
    g.None? || g.value in Genders
  }

  /** A validator gated on the value being non-empty. */
  function IfGiven(o: Option<string>, failures: seq<string>): seq<string>
  {
    When(!IsNullOrEmpty(o), failures)
  }

  /** `MaximumLength(n)` then `Must(uri => uri == null || Uri.TryCreate(uri, Absolute))`. */
  function UrlRule(o: Option<string>, n: nat, env: Oracles, tooLong: string, invalid: string): seq<string>
  {
    Check(MaximumLength(o, n), tooLong) + Check(o.None? || env.absoluteUri(o.value), invalid)
  }

  /** `MaximumLength(50)` and the phone pattern, only for a non-empty number. */
  function PhoneRule(o: Option<string>, env: Oracles, tooLong: string): seq<string>
  {
    IfGiven(o, Check(MaximumLength(o, 50), tooLong) + Check(Matches(o, env.phone), InvalidPhoneNumberFormat))
  }

  predicate UrlOk(o: Option<string>, n: nat, env: Oracles)
  {
    o.None? || (|o.value| <= n && env.absoluteUri(o.value))
  }

  predicate PhoneOk(o: Option<string>, env: Oracles)
  {
    IsNullOrEmpty(o) || (|o.value| <= 50 && env.phone(o.value))
  }

  lemma UrlRuleIff(o: Option<string>, n: nat, env: Oracles, tooLong: string, invalid: string)
    ensures UrlRule(o, n, env, tooLong, invalid) == [] <==> UrlOk(o, n, env)
  {
  }

  lemma PhoneRuleIff(o: Option<string>, env: Oracles, tooLong: string)
    ensures PhoneRule(o, env, tooLong) == [] <==> PhoneOk(o, env)
  {
  }

  predicate BornBefore(o: Option<int>, cutoff: int)
  {
    o.None? || o.value < cutoff
  }

  // ---------------------------------------------------------------------
  // Candidate profiles

  function CandidateCreateFailures(d: CandidateFields, env: Oracles, clock: Clock): seq<string>
  {
    Check(NotEmpty(d.fullName), FullNameRequired) +
    Check(MaximumLength(d.fullName, 200), FullNameOver200) +
    CandidateCreateRest(d, env, clock)
  }

  /** The create rules after the name's, in the order they are declared. */
  function CandidateCreateRest(d: CandidateFields, env: Oracles, clock: Clock): seq<string>
  {
    PhoneRule(d.phone, env, PhoneNumberOver50) +
    Check(MaximumLength(d.headline, 300), HeadlineOver300) +
    When(d.dateOfBirth.Some?, Check(BornBefore(d.dateOfBirth, clock.sixteenYearsAgo), TooYoung)) +
    Check(GenderOk(d.gender), GenderInvalid) +
    Check(MaximumLength(d.address, 500), AddressOver500) +
    Check(MaximumLength(d.educationLevel, 100), EducationLevelOver100) +
    When(d.experienceYears.Some?, Check(InclusiveBetween(d.experienceYears, 0, 50), ExperienceYearsRange)) +
    Check(MaximumLength(d.skills, 2000), SkillsOver2000) +
    UrlRule(d.linkedInProfile, 300, env, LinkedInProfileURLOver300, InvalidLinkedInProfileURL) +
    UrlRule(d.portfolioUrl, 300, env, PortfolioURLOver300, InvalidPortfolioURL)
  }

  lemma CandidateCreateRestIff(d: CandidateFields, env: Oracles, clock: Clock)
    ensures CandidateCreateRest(d, env, clock) == [] <==> CandidateCommon(d, env, clock)
  {
    PhoneRuleIff(d.phone, env, PhoneNumberOver50);
    UrlRuleIff(d.linkedInProfile, 300, env, LinkedInProfileURLOver300, InvalidLinkedInProfileURL);
    UrlRuleIff(d.portfolioUrl, 300, env, PortfolioURLOver300, InvalidPortfolioURL);
  }

  /** The candidate rules both forms share once the name is settled. */
  predicate CandidateCommon(d: CandidateFields, env: Oracles, clock: Clock)
  {
    PhoneOk(d.phone, env) &&
    MaximumLength(d.headline, 300) &&
    BornBefore(d.dateOfBirth, clock.sixteenYearsAgo) &&
    GenderOk(d.gender) &&
    MaximumLength(d.address, 500) &&
    MaximumLength(d.educationLevel, 100) &&
    InclusiveBetween(d.experienceYears, 0, 50) &&
    MaximumLength(d.skills, 2000) &&
    UrlOk(d.linkedInProfile, 300, env) &&
    UrlOk(d.portfolioUrl, 300, env)
  }

  /** A new candidate profile needs a name of at most 200 characters; the other rules are shared. */
  lemma CandidateCreateValidIff(d: CandidateFields, env: Oracles, clock: Clock)
    ensures CandidateCreateFailures(d, env, clock) == [] <==>
      NotEmpty(d.fullName) && |d.fullName.value| <= 200 && CandidateCommon(d, env, clock)
  {
    CandidateCreateRestIff(d, env, clock);
  }

  function CandidateUpdateFailures(d: CandidateFields, env: Oracles, clock: Clock): seq<string>
  {
    IfGiven(d.fullName, Check(MaximumLength(d.fullName, 200), FullNameOver200)) +
    PhoneRule(d.phone, env, PhoneNumberOver50) +
    IfGiven(d.headline, Check(MaximumLength(d.headline, 300), HeadlineOver300)) +
    When(d.dateOfBirth.Some?, Check(BornBefore(d.dateOfBirth, clock.sixteenYearsAgo), TooYoung)) +
    Check(GenderOk(d.gender), GenderInvalid) +
    IfGiven(d.address, Check(MaximumLength(d.address, 500), AddressOver500)) +
    IfGiven(d.educationLevel, Check(MaximumLength(d.educationLevel, 100), EducationLevelOver100)) +
    When(d.experienceYears.Some?, Check(InclusiveBetween(d.experienceYears, 0, 50), ExperienceYearsRange)) +
    IfGiven(d.skills, Check(MaximumLength(d.skills, 2000), SkillsOver2000)) +
    UrlRule(d.linkedInProfile, 300, env, LinkedInProfileURLOver300, InvalidLinkedInProfileURL) +
    UrlRule(d.portfolioUrl, 300, env, PortfolioURLOver300, InvalidPortfolioURL)
  }

  /** An update may omit the name; every other rule is the create rule. */
  lemma CandidateUpdateValidIff(d: CandidateFields, env: Oracles, clock: Clock)
    ensures CandidateUpdateFailures(d, env, clock) == [] <==>
      MaximumLength(d.fullName, 200) && CandidateCommon(d, env, clock)
  {
  }

  /** Every profile a create accepts, an update accepts too. */
  lemma CandidateCreateImpliesUpdate(d: CandidateFields, env: Oracles, clock: Clock)
    ensures CandidateCreateFailures(d, env, clock) == [] ==> CandidateUpdateFailures(d, env, clock) == []
  {
    CandidateCreateValidIff(d, env, clock);
    CandidateUpdateValidIff(d, env, clock);
  }

  /** A given but empty profile link is refused on both forms. */
  lemma EmptyCandidateLinkFails(d: CandidateFields, env: Oracles, clock: Clock)
    requires Sane(env) && (d.linkedInProfile == Some("") || d.portfolioUrl == Some(""))
    ensures CandidateCreateFailures(d, env, clock) != []
    ensures CandidateUpdateFailures(d, env, clock) != []
  {
    CandidateCreateValidIff(d, env, clock);
    CandidateUpdateValidIff(d, env, clock);
  }

  // ---------------------------------------------------------------------
  // Employer profiles

  function EmployerCreateFailures(d: EmployerFields, env: Oracles): seq<string>
  {
    Check(NotEmpty(d.displayName), DisplayNameRequired) +
    Check(MaximumLength(d.displayName, 200), DisplayNameOver200) +
    PhoneRule(d.contactPhone, env, ContactPhoneOver50) +
    Check(MaximumLength(d.industry, 100), IndustryOver100) +
    Check(MaximumLength(d.position, 100), PositionOver100) +
    When(d.yearsOfExperience.Some?,
      Check(InclusiveBetween(d.yearsOfExperience, 0, 50), YearsOfExperienceRange)) +
    UrlRule(d.linkedInProfile, 300, env, LinkedInProfileURLOver300, InvalidLinkedInProfileURL) +
    UrlRule(d.website, 300, env, WebsiteURLOver300, InvalidWebsiteURL)
  }

  predicate EmployerCommon(d: EmployerFields, env: Oracles)
  {
    PhoneOk(d.contactPhone, env) &&
    MaximumLength(d.industry, 100) &&
    MaximumLength(d.position, 100) &&
    InclusiveBetween(d.yearsOfExperience, 0, 50) &&
    UrlOk(d.linkedInProfile, 300, env) &&
    UrlOk(d.website, 300, env)
  }

  lemma EmployerCreateValidIff(d: EmployerFields, env: Oracles)
    ensures EmployerCreateFailures(d, env) == [] <==>
      NotEmpty(d.displayName) && |d.displayName.value| <= 200 && EmployerCommon(d, env)
  {
  }

  function EmployerUpdateFailures(d: EmployerFields, env: Oracles): seq<string>
  {
    IfGiven(d.displayName, Check(MaximumLength(d.displayName, 200), DisplayNameOver200)) +
    PhoneRule(d.contactPhone, env, PhoneNumberOver50) +
    IfGiven(d.industry, Check(MaximumLength(d.industry, 100), IndustryOver100)) +
    IfGiven(d.position, Check(MaximumLength(d.position, 100), PositionOver100)) +
    When(d.yearsOfExperience.Some?,
      Check(InclusiveBetween(d.yearsOfExperience, 0, 50), YearsOfExperienceRange)) +
    UrlRule(d.linkedInProfile, 300, env, LinkedInProfileURLOver300, InvalidLinkedInProfileURL) +
    UrlRule(d.website, 300, env, WebsiteURLOver300, InvalidWebsiteURL)
  }

  lemma EmployerUpdateValidIff(d: EmployerFields, env: Oracles)
    ensures EmployerUpdateFailures(d, env) == [] <==>
      MaximumLength(d.displayName, 200) && EmployerCommon(d, env)
  {
  }

  lemma EmployerCreateImpliesUpdate(d: EmployerFields, env: Oracles)
    ensures EmployerCreateFailures(d, env) == [] ==> EmployerUpdateFailures(d, env) == []
  {
    EmployerCreateValidIff(d, env);
    EmployerUpdateValidIff(d, env);
  }

  // ---------------------------------------------------------------------
  // Companies

  function CompanyCreateFailures(d: CompanyFields, env: Oracles, clock: Clock): seq<string>
  {
    Check(NotEmpty(d.name), CompanyNameRequired) +
    Check(MaximumLength(d.name, 255), CompanyNameOver255) +
    Check(MaximumLength(d.companyCode, 100), CompanyCodeOver100) +
    Check(MaximumLength(d.website, 500), WebsiteURLOver500) +
    Check(IsNullOrEmpty(d.website) || env.absoluteUri(d.website.value), InvalidWebsiteURL) +
    Check(MaximumLength(d.description, 4000), DescriptionOver4000) +
    Check(MaximumLength(d.industry, 255), IndustryOver255) +
    Check(MaximumLength(d.companySize, 50), CompanySizeOver50) +
    When(d.foundedYear.Some?,
      Check(InclusiveBetween(d.foundedYear, 1800, clock.currentYear),
        "Founded year must be between 1800 and " + IntToString(clock.currentYear) + ".")) +
    Check(MaximumLength(d.logoUrl, 300), LogoURLOver300) +
    Check(IsNullOrEmpty(d.logoUrl) || env.absoluteUri(d.logoUrl.value), InvalidLogoURL) +
    Check(MaximumLength(d.address, 500), AddressOver500) +
    IfGiven(d.contactEmail,
      Check(MaximumLength(d.contactEmail, 255), ContactEmailOver255) +
      Check(Matches(d.contactEmail, env.emailAddress), InvalidEmailAddress))
  }

  predicate EmailOk(o: Option<string>, env: Oracles)
  {
    IsNullOrEmpty(o) || (|o.value| <= 255 && env.emailAddress(o.value))
  }

  /** A link that may be null or empty; anything else must be a short absolute URI. */
  predicate BlankOrUrl(o: Option<string>, n: nat, env: Oracles)
  {
    IsNullOrEmpty(o) || (|o.value| <= n && env.absoluteUri(o.value))
  }

  lemma CompanyCreateValidIff(d: CompanyFields, env: Oracles, clock: Clock)
    ensures CompanyCreateFailures(d, env, clock) == [] <==>
      NotEmpty(d.name) && |d.name.value| <= 255 &&
      MaximumLength(d.companyCode, 100) &&
      BlankOrUrl(d.website, 500, env) &&
      MaximumLength(d.description, 4000) &&
      MaximumLength(d.industry, 255) &&
      MaximumLength(d.companySize, 50) &&
      InclusiveBetween(d.foundedYear, 1800, clock.currentYear) &&
      BlankOrUrl(d.logoUrl, 300, env) &&
      MaximumLength(d.address, 500) &&
      EmailOk(d.contactEmail, env)
  {
  }

  function CompanyUpdateFailures(d: CompanyFields, env: Oracles, clock: Clock): seq<string>
  {
    IfGiven(d.name, Check(MaximumLength(d.name, 255), CompanyNameOver255)) +
    IfGiven(d.companyCode, Check(MaximumLength(d.companyCode, 100), CompanyCodeOver100)) +
    Check(MaximumLength(d.website, 500), WebsiteURLOver500) +
    Check(d.website.None? || env.absoluteUri(d.website.value), InvalidWebsiteURL) +
    IfGiven(d.industry, Check(MaximumLength(d.industry, 255), IndustryOver255)) +
    IfGiven(d.companySize, Check(MaximumLength(d.companySize, 50), CompanySizeOver50)) +
    When(d.foundedYear.Some?,
      Check(InclusiveBetween(d.foundedYear, 1800, clock.currentYear),
        "Founded year must be between 1800 and " + IntToString(clock.currentYear) + ".")) +
    IfGiven(d.logoUrl,
      Check(NotEmpty(d.logoUrl), LogoURLRequired) +
      Check(MaximumLength(d.logoUrl, 300), LogoURLOver300) +
      Check(Matches(d.logoUrl, env.absoluteUri), InvalidLogoURL)) +
    IfGiven(d.address, Check(MaximumLength(d.address, 500), AddressOver500)) +
    IfGiven(d.contactEmail,
      Check(MaximumLength(d.contactEmail, 255), ContactEmailOver255) +
      Check(Matches(d.contactEmail, env.emailAddress), InvalidEmailAddress))
  }

  /** An update checks no description, requires a non-blank logo when one is given, and refuses an empty website. */
  lemma CompanyUpdateValidIff(d: CompanyFields, env: Oracles, clock: Clock)
    ensures CompanyUpdateFailures(d, env, clock) == [] <==>
      MaximumLength(d.name, 255) &&
      MaximumLength(d.companyCode, 100) &&
      UrlOk(d.website, 500, env) &&
      MaximumLength(d.industry, 255) &&
      MaximumLength(d.companySize, 50) &&
      InclusiveBetween(d.foundedYear, 1800, clock.currentYear) &&
      (IsNullOrEmpty(d.logoUrl) || (NotEmpty(d.logoUrl) && |d.logoUrl.value| <= 300 && env.absoluteUri(d.logoUrl.value))) &&
      MaximumLength(d.address, 500) &&
      EmailOk(d.contactEmail, env)
  {
  }

  /** An empty website passes the create rules but not the update rules. */
  lemma EmptyWebsiteCreateOnly(d: CompanyFields, env: Oracles, clock: Clock)
    requires Sane(env) && d.website == Some("")
    ensures Check(IsNullOrEmpty(d.website) || env.absoluteUri(d.website.value), InvalidWebsiteURL) == []
    ensures CompanyUpdateFailures(d, env, clock) != []
  {
    CompanyUpdateValidIff(d, env, clock);
  }

  /** A blank logo (white space only) is refused on update as missing, though an empty one passes. */
  lemma BlankLogoOnUpdate(d: CompanyFields, env: Oracles, clock: Clock)
    requires d.logoUrl == Some(" ")
    ensures LogoURLRequired in CompanyUpdateFailures(d, env, clock)
  {
    assert !NotEmpty(d.logoUrl) by {
      assert forall i :: 0 <= i < |d.logoUrl.value| ==> NetSpace(d.logoUrl.value[i]);
    }
  }

  /** Any description passes the update rules: they carry no description rule. */
  lemma CompanyUpdateIgnoresDescription(d: CompanyFields, env: Oracles, clock: Clock, description: Option<string>)
    ensures CompanyUpdateFailures(d, env, clock) == CompanyUpdateFailures(d.(description := description), env, clock)
  {
  }
}
