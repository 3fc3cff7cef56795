# JobsViet, modelled in Dafny

JobsViet is a job portal. An ASP.NET Core server keeps accounts, candidate
and employer profiles, companies, job postings, applications, blogs,
notifications and messages. A small FastAPI service stores the images they
refer to. A React client shows all of it, with its own form checks and
realtime updates over SignalR.

This project models the parts of that system that carry rules, and proves
what those rules promise:

- **Image service** (`images.dfy`). The ordered upload guards, as they
  short-circuit and move the stream position. The upload, fetch and delete
  handlers over an owner-partitioned directory tree. The decoder, the WebP
  encoder, `mimetypes` and `uuid4` are parameters.
- **Applications** (`applications.dfy`, `statuses.dfy`). The rejection order
  of applying to a job. The status machine that keeps a job's filled
  positions in step with acceptances. The repository's queries and its
  mark-as-viewed loops.
- **Stores with ownership and merge rules**:
  - profiles (`profiles.dfy`), where a null field means "keep";
  - blogs (`blogs.dfy`), with at most one primary image per blog and
    author-only changes;
  - accounts and sessions (`auth.dfy`), with unique addresses, salted hashes
    and the controller's branch order;
  - the admin console (`admin.dfy`), with flag toggles, cascading deletes and
    paging.
- **Read state** (`notifications.dfy`). Per-user notification and message
  queries, and the mark-as-read loops.
- **Listing and caching** (`jobs.dfy`, `pagination.dfy`). The job query's
  filter, count, order and page, and the service's memo cache.
- **Middleware** (`ratelimit.dfy`, `domainblocking.dfy`). A per-address
  request counter and an origin/referer allow-list.
- **Validators** (`rules.dfy`, `authvalidators.dfy`, `jobvalidators.dfy`,
  `profilevalidators.dfy`). The FluentValidation rule sets, each as a list of
  failures with a lemma saying exactly when it is empty.
- **Client logic**:
  - the application-notification summary reducer (`appnotifications.dfy`);
  - the SignalR handler registry (`signalr.dfy`);
  - the manage-jobs realtime reducer (`managejobs.dfy`);
  - the admin job and user lists with their page window (`adminjobs.dfy`,
    `adminusers.dfy`, `pagewindow.dfy`);
  - the job-detail page (`jobdetail.dfy`);
  - the three forms: post a job, sign in or register, and change the
    password (`postjobform.dfy`, `usericon.dfy`, `changepassword.dfy`, with
    `forms.dfy`).

`common.dfy` and `text.dfy` hold the shared sequence and string functions:
filter, stable descending sort, skip and take, ASCII case folding, and the
.NET and JavaScript trims.

Code that changes state step by step is modelled as classes whose methods
state their whole new state. Those classes are the stores, the middleware
counters, the dialogs and the registry. Pure rules are functions with
lemmas. Identifiers are integers, times are integers, and "now" is always a
parameter.

The image service's handlers behave as follows, and the model follows them:

- The stream is rewound to its start by the size test (`Images/main.py`
  lines 68-70) and again only after the decoder has accepted the content
  (line 106). A failing decoder leaves the stream wherever it stopped.
- The size ceiling is checked before the empty-file test (lines 74-85). A
  missing file name is the only "missing input" case (lines 49-54): empty
  content is refused later, as an empty file.
- The owner's directory is created before the WebP conversion (lines
  150-162), so a failed conversion leaves it created.
- Only the company delete removes an owner's directory once it is empty
  (lines 396-426).
- All owner kinds share `uploads/<ownerId>` (lines 137, 352, 369, 386, 404).
- Write and unlink failures are not modelled.

One departure is a defect and is not followed. The owner id and the file name
are used as path segments without any traversal check, so "." and ".." leave
the owner's directory. `DiskPath` models where such a path leads, and the
model's handlers refuse those segments (see "## Findings").

## Model

| member | source | states |
|---|---|---|
| Rules.Check | Server/Server/Validators/Auth/RegisterRequestValidator.cs:11-14 | a validator reports nothing exactly when its check holds |
| Rules.When | Server/Server/Validators/Jobs/JobCreateValidator.cs:14-16 | a gated chain reports nothing exactly when its condition fails or the validators it governs all pass |
| Rules.BeforeFinalNewline | Server/Server/Validators/Auth/RegisterRequestValidator.cs:24 | what a pattern ending in `$` must match is the string itself or the string minus one final line break |
| Rules.UpperCaseEmailFails | Server/Server/Validators/Auth/RegisterRequestValidator.cs:19 | no address holding an upper-case ASCII letter fits the lower-case e-mail pattern |
| Rules.UpperBreaksSplit | Server/Server/Validators/Auth/RegisterRequestValidator.cs:19 | whichever `@` the address is split at, an upper-case letter fits neither the local part nor the domain |
| Rules.PersonNameExamples | Server/Server/Validators/Auth/RegisterRequestValidator.cs:14 | "Nguyễn Văn An" fits the name pattern; "An2" and the empty string do not |
| Rules.WeakWithoutSymbol | Server/Server/Validators/Auth/RegisterRequestValidator.cs:24 | a password with none of the listed symbols fails the complexity pattern, whatever its length |
| Rules.StrongPasswordExample | Server/Server/Validators/Auth/RegisterRequestValidator.cs:24 | "Abcde1!" fits the complexity pattern and "abcde1!" does not |
| Rules.NoUpperNotStrong | Server/Server/Validators/Auth/RegisterRequestValidator.cs:24 | a password without an upper-case letter fails the complexity pattern |
| AuthValidators.NameRule | Server/Server/Validators/Auth/RegisterRequestValidator.cs:11-14 | the name passes exactly when it is not blank, has at least 3 characters and only letters and white space |
| AuthValidators.EmailRule | Server/Server/Validators/Auth/RegisterRequestValidator.cs:16-19 | the e-mail passes exactly when it is not blank, the framework accepts it and it fits the lower-case pattern |
| AuthValidators.PasswordRule | Server/Server/Validators/Auth/RegisterRequestValidator.cs:21-24 | the password passes exactly when it is not blank and fits the complexity pattern |
| AuthValidators.RoleRule | Server/Server/Validators/Auth/RegisterRequestValidator.cs:30-33 | the role passes exactly when it is "User", "Moderator" or "Admin" |
| AuthValidators.RegisterFailures | Server/Server/Validators/Auth/RegisterRequestValidator.cs:9-34 | the messages of the registration validator, rule by rule; its meaning is stated by RegisterValidIff and RegisterRefusesUpperCaseEmail |
| AuthValidators.RegisterValidIff | Server/Server/Validators/Auth/RegisterRequestValidator.cs:9-34 | a registration passes exactly when name, e-mail, password and role pass and the confirmation equals the password |
| AuthValidators.StrongPasswordIsLong | Server/Server/Validators/Auth/RegisterRequestValidator.cs:23-24 | a password that fits the complexity pattern has at least six characters, so the length message never comes alone |
| AuthValidators.RegisterRefusesUpperCaseEmail | Server/Server/Validators/Auth/RegisterRequestValidator.cs:19 | a registration whose e-mail holds an upper-case letter is refused, whatever the framework's e-mail check says |
| AuthValidators.ChangePasswordFailures | Server/Server/Validators/Auth/ChangePasswordRequestValidator.cs:8-22 | the messages of the password-change validator; its meaning is stated by ChangePasswordValidIff and ReusedPasswordRefused |
| AuthValidators.ChangePasswordValidIff | Server/Server/Validators/Auth/ChangePasswordRequestValidator.cs:8-22 | a change passes exactly when the old password is not blank and the new one is not blank, strong, different from the old one and confirmed |
| AuthValidators.ReusedPasswordRefused | Server/Server/Validators/Auth/ChangePasswordRequestValidator.cs:17 | reusing the old password reports "Mật khẩu mới không được giống mật khẩu cũ" |
| Forms.ClearError | Client/app/pages/auth/PostJobForm.tsx:76-78 | typing blanks the field's shown error, keeps every key and every other entry, and changes nothing when no error was shown |
| Forms.Digits | Client/app/pages/auth/PostJobForm.tsx:91 | a run of characters has a decimal value exactly when it is non-empty and all digits |
| Forms.StringLessTotal | Client/app/pages/auth/PostJobForm.tsx:98 | JavaScript's string `<` is irreflexive, asymmetric and total on different strings |
| Forms.LessWithNumber | Client/app/pages/auth/PostJobForm.tsx:91-94 | a string compared with a number is read as a number, and NaN compares false |
| Forms.TextOrderIsNotNumericOrder | Client/app/pages/auth/PostJobForm.tsx:98-109 | a shorter numeral with a larger first digit comes after a longer one as text, though it is the smaller number |
| Forms.NineMillionAfterTwelveMillion | Client/app/pages/auth/PostJobForm.tsx:98 | "12000000" < "9000000" as text, though 9 000 000 < 12 000 000 |
| Forms.ParseDigits | Client/app/pages/auth/PostJobForm.tsx:91 | an unsigned numeral reads as its digits' value |
| Forms.JsStrongIsServerStrong | Client/app/components/UserIcon.tsx:80-84 | a password the browser's complexity pattern accepts, the server's pattern accepts too |
| Forms.ServerAllowsFinalNewline | Server/Server/Validators/Auth/RegisterRequestValidator.cs:24 | "Abcde1!" followed by a line break is strong for the server's `$` but not for the browser's |
| Forms.JsEmailIsServerEmail | Client/app/components/UserIcon.tsx:42-46 | an address the browser's e-mail pattern accepts, the server's lower-case pattern accepts too |
| Forms.NilGuidRefused | Client/app/pages/auth/PostJobForm.tsx:128-129 | the nil GUID has version 0 and is refused |
| JobListing.AllJobs | Server/Server/Data/Jobs/JobRepository.cs:15-21 | the full listing holds exactly as many jobs as are listed, and every one of them has IsActive 1 |
| JobListing.AllJobsMembers | Server/Server/Data/Jobs/JobRepository.cs:15-21 | a job is in the full listing exactly when it is stored and listed |
| JobListing.JobsPage | Server/Server/Data/Jobs/JobRepository.cs:23-47 | the count is the number of stored jobs that pass the three filters, and the page holds no more than that, each a stored job that passes them |
| JobListing.CountedIffMatches | Server/Server/Data/Jobs/JobRepository.cs:25-37 | a job is counted exactly when it is stored, listed, its title contains a non-empty search and its skills contain a non-empty category |
| JobListing.CountIgnoresPage | Server/Server/Data/Jobs/JobRepository.cs:37-44 | the count is taken before paging, so it is the same for every page and page size |
| JobListing.JobsPageIsWindow | Server/Server/Data/Jobs/JobRepository.cs:39-44 | the matches are ordered newest first, and the page is the run of at most pageSize of them that starts at (page-1)*pageSize |
| JobListing.TiesByAscendingId | Server/Server/Data/Jobs/JobRepository.cs:40-41 | of two ordered matches the earlier is newer, or equally new with the smaller id |
| JobListing.FreshResult | Server/Server/Services/Jobs/JobService.cs:32-43 | a cache miss echoes page and page size, counts the matches and sets the page count to the ceiling of the count over the page size |
| JobListing.TotalPagesIsCeiling | Server/Server/Services/Jobs/JobService.cs:42 | the page count is the least that holds every match, and zero exactly when nothing matches |
| JobListing.CacheKeyCollides | Server/Server/Services/Jobs/JobService.cs:26 | search "a_b" with no category and search "a" with category "b_" get the same cache key though their results differ |
| JobListing.JobService.GetJobs | Server/Server/Services/Jobs/JobService.cs:24-56 | a hit returns the stored result and changes nothing; a miss queries once and stores the fresh result under the interpolated key |
| JobListing.CollidingQueriesShareAResult | Server/Server/Services/Jobs/JobService.cs:26-55 | after the first of the two colliding queries, the second is answered with the first one's result, which is not its own |
| JobListing.QueryCache.GetJobs | Server/Server/Services/Jobs/JobService.cs:24-56 | keyed by the query itself, a coherent cache stays coherent and every answer is what a fresh query returns |
| JobListing.JobService.constructor | Server/Server/Services/Jobs/JobService.cs:16-22 | the service starts with an empty cache |
| JobListing.QueryCache.constructor | Server/Server/Services/Jobs/JobService.cs:16-22 | the corrected cache starts empty |
| JobValidators.JobCreateFailures | Server/Server/Validators/Jobs/JobCreateValidator.cs:10-66 | the messages of the job validator as written, each `.When` gating every earlier validator of its rule; its meaning is stated by JobCreateValidIff and JobCreateUngatedBounds |
| JobValidators.JobCreateValidIff | Server/Server/Validators/Jobs/JobCreateValidator.cs:10-66 | a posting passes as written exactly when the common checks hold, SalaryTo >= 0 when SalaryFrom is given and MaxAge is in [16, 100] when MinAge is given |
| JobValidators.JobCreateUngatedBounds | Server/Server/Validators/Jobs/JobCreateValidator.cs:26-47 | a posting with SalaryTo -5 and no SalaryFrom, and MaxAge 200 and no MinAge, passes as written though it breaks both bounds |
| JobValidators.JobCreateFailuresCorrected | Server/Server/Validators/Jobs/JobCreateValidator.cs:10-66 | the messages with each `.When` gating only the validator before it; its meaning is stated by JobCreateCorrectedValidIff and CorrectedIsStricter |
| JobValidators.JobCreateCorrectedValidIff | Server/Server/Validators/Jobs/JobCreateValidator.cs:10-66 | with each `.When` applied only to the validator before it, a posting passes exactly when every present value is within its bounds and the pairs are in order |
| JobValidators.CorrectedIsStricter | Server/Server/Validators/Jobs/JobCreateValidator.cs:26-47 | whatever the corrected rules pass, the rules as written pass too |
| JobValidators.GenderPreferenceValues | Server/Server/Validators/Jobs/JobCreateValidator.cs:57-59 | "Nam" passes, and so does "Nam" followed by one line break; "nam" and "Khac" fail |
| JobValidators.JobQueryFailures | Server/Server/Validators/Jobs/JobQueryValidator.cs:10-22 | the messages of the query validator; its meaning is stated by JobQueryValidIff and JobQueryOneMessagePerCheck |
| JobValidators.JobQueryValidIff | Server/Server/Validators/Jobs/JobQueryValidator.cs:10-22 | a query passes exactly when its page is positive, its size is in [1, 50], its search is at most 100 characters and its category at most 50 |
| JobValidators.JobQueryOneMessagePerCheck | Server/Server/Validators/Jobs/JobQueryValidator.cs:10-22 | each failing check adds exactly one message |
| PostJobForm.InitialFormWellFormed | Client/app/pages/auth/PostJobForm.tsx:26-42 | the initial form holds text in every text field |
| PostJobForm.IfThen | Client/app/pages/auth/PostJobForm.tsx:87-88 | a check leaves its message exactly when its condition holds |
| PostJobForm.IdCheck | Client/app/pages/auth/PostJobForm.tsx:124-135 | an identifier passes exactly when it is a version 1 to 5 GUID; an empty one is required, any other non-GUID invalid |
| PostJobForm.Flag | Client/app/pages/auth/PostJobForm.tsx:84-125 | one `if (...) newErrors.k = message`: entry k becomes the message when the test fails, keeps its value otherwise, and no other entry changes |
| PostJobForm.ValidateTexts | Client/app/pages/auth/PostJobForm.tsx:84-90 | after the title, description and employment-type checks those three entries hold exactly their checks' messages, the 400-character message winning over the required one; other entries are kept |
| PostJobForm.ValidateSalaries | Client/app/pages/auth/PostJobForm.tsx:91-100 | after the salary checks both salary entries hold exactly their checks' messages, the order message winning over the sign message; other entries are kept |
| PostJobForm.ValidatePositionsAndDeadline | Client/app/pages/auth/PostJobForm.tsx:101-104 | after the positions and deadline checks those entries hold exactly their checks' messages; other entries are kept |
| PostJobForm.ValidateAges | Client/app/pages/auth/PostJobForm.tsx:105-117 | after the age and experience checks those three entries hold exactly their checks' messages; other entries are kept |
| PostJobForm.ValidateAgePair | Client/app/pages/auth/PostJobForm.tsx:105-110 | after the two age checks both age entries hold exactly their checks' messages; other entries are kept |
| PostJobForm.ValidateMaxAge | Client/app/pages/auth/PostJobForm.tsx:107-110 | the maximum-age entry holds the order message when the ages are out of order, else the range message when out of range, else nothing |
| PostJobForm.ValidateLengths | Client/app/pages/auth/PostJobForm.tsx:118-123 | after the degree and skills checks those entries hold exactly their checks' messages; other entries are kept |
| PostJobForm.ValidateIds | Client/app/pages/auth/PostJobForm.tsx:124-135 | after the identifier checks the category and company entries hold exactly their checks' messages, the invalid message replacing none but its own field's; other entries are kept |
| PostJobForm.ValidatePart1 | Client/app/pages/auth/PostJobForm.tsx:82-100 | from an empty map, the text and salary entries are settled and no other field has an entry |
| PostJobForm.ValidatePart2 | Client/app/pages/auth/PostJobForm.tsx:101-117 | the positions, deadline, age and experience entries are settled and the rest are kept |
| PostJobForm.ValidatePart3 | Client/app/pages/auth/PostJobForm.tsx:118-135 | the degree, skills and identifier entries are settled and the rest are kept |
| PostJobForm.Validate | Client/app/pages/auth/PostJobForm.tsx:81-136 | the error map holds an entry for exactly the fields whose check fails, each with that check's message, and none for the gender preference |
| PostJobForm.PostJob.constructor | Client/app/pages/auth/PostJobForm.tsx:26-44 | the form starts as the initial form with no errors |
| PostJobForm.PostJob.HandleChange | Client/app/pages/auth/PostJobForm.tsx:65-79 | the field takes the input's text and its shown error is blanked; nothing else changes |
| PostJobForm.PostJob.ValidateForm | Client/app/pages/auth/PostJobForm.tsx:81-139 | the errors are replaced by the checks' report, and the result is true exactly when every check passes |
| PostJobForm.PostJob.Submit | Client/app/pages/auth/PostJobForm.tsx:141-196 | nothing is posted when validation fails; a successful post shows the success notice and resets the form; a failed one keeps the form and shows the server's message or "Failed to post job." |
| PostJobForm.TitleCheck | Client/app/pages/auth/PostJobForm.tsx:84-86 | the title's message, the length test before the blank test; its meaning is stated by TitleRules and BlankTitleRequired |
| PostJobForm.SalaryToCheck | Client/app/pages/auth/PostJobForm.tsx:93-100 | the "to" salary's message, the order test winning over the sign test; its meaning is stated by SalaryOrderOverridesSign, SalaryToIsPairCheck and SalaryOrderComparesText |
| PostJobForm.DeadlineCheck | Client/app/pages/auth/PostJobForm.tsx:103-104 | the deadline's message, given exactly when a non-empty deadline parses to a time not after now (an unparsable date compares false and passes); it is settled by ValidatePositionsAndDeadline |
| PostJobForm.MaxAgeCheck | Client/app/pages/auth/PostJobForm.tsx:107-110 | the maximum age's message, the order test winning over the range test; its meaning is stated by AgeOrderOverridesRange and MaxAgeIsPairCheck |
| PostJobForm.TitleRules | Client/app/pages/auth/PostJobForm.tsx:84-86 | over 400 characters gives the length message; otherwise a blank title is required; a title passes exactly when it is not blank and at most 400 characters |
| PostJobForm.BlankTitleRequired | Client/app/pages/auth/PostJobForm.tsx:84 | a title of white space only, at most 400 characters, is reported as required |
| PostJobForm.SalaryOrderOverridesSign | Client/app/pages/auth/PostJobForm.tsx:93-100 | out-of-order salaries get the order message even when the "to" salary is negative too |
| PostJobForm.AgeOrderOverridesRange | Client/app/pages/auth/PostJobForm.tsx:107-110 | out-of-order ages get the order message even when the maximum is out of range too |
| PostJobForm.PositionsAtLeastOne | Client/app/pages/auth/PostJobForm.tsx:101-102 | the positions check fails exactly when the value is below 1 in JavaScript's comparison; an emptied input reads as 0 and fails, a missing value is NaN and passes |
| PostJobForm.FalsyNumbersUnchecked | Client/app/pages/auth/PostJobForm.tsx:91-117 | salaries, ages and experience that are missing, 0 or emptied are never reported |
| PostJobForm.IdsAreGuids | Client/app/pages/auth/PostJobForm.tsx:124-135 | the category and the company pass exactly when they are version 1 to 5 GUIDs, and an empty one is reported as required |
| PostJobForm.InitialFormErrors | Client/app/pages/auth/PostJobForm.tsx:26-42 | the untouched form fails on the title, the category and the company and nowhere else (also lines 84, 124-125) |
| PostJobForm.SalaryToIsPairCheck | Client/app/pages/auth/PostJobForm.tsx:93-100 | the "to" salary's check depends only on the two salaries |
| PostJobForm.MaxAgeIsPairCheck | Client/app/pages/auth/PostJobForm.tsx:107-110 | the maximum age's check depends only on the two ages |
| PostJobForm.SalaryOrderComparesText | Client/app/pages/auth/PostJobForm.tsx:95-100 | two typed salaries compare as text, so a shorter "from" numeral with a larger first digit is reported out of order though it is the smaller number |
| PostJobForm.SalaryOrderCorrected | Client/app/pages/auth/PostJobForm.tsx:95-100 | compared as numbers, that same salary range passes |
| PostJobForm.CorrectedOrdersNumbers | Client/app/pages/auth/PostJobForm.tsx:95-110 | the corrected checks report the order message exactly when the numbers are out of order, for salaries and ages alike |
| PostJobForm.CorrectedAgreesOnNumbers | Client/app/pages/auth/PostJobForm.tsx:95-110 | when a pair is not two strings, the corrected and the written checks agree on every field |
| PostJobForm.OfferedCompaniesAreGuids | Client/app/pages/auth/PostJobForm.tsx:9-24 | each of the three companies the form offers has an identifier the GUID check accepts (also lines 128-135) |
| PostJobForm.OfferedIdIsGuid | Client/app/pages/auth/PostJobForm.tsx:13-21 | the offered identifier with any final decimal digit is a version 1 to 5 GUID |
| PostJobForm.TextSalariesOutOfOrder | Client/app/pages/auth/PostJobForm.tsx:95-100 | for any two positive numerals where the shorter one has the larger first digit, the check as written reports them out of order though the first is the smaller number |
| PostJobForm.NumericSalariesInOrder | Client/app/pages/auth/PostJobForm.tsx:95-100 | compared as numbers, every such pair passes the order check |
| Pagination.TotalPages | Client/app/components/Pagination.tsx:16 | the page count is the least whole number of pages that holds every item, and never negative for a non-negative item count |
| Pagination.HandlePageChange | Client/app/components/Pagination.tsx:20-24 | a page is passed on exactly when it is between 1 and the page count, and then unchanged |
| Pagination.RenderPageNumbers | Client/app/components/Pagination.tsx:26-44 | one button per page from 1 to the page count, in order, with exactly the current page highlighted |
| Pagination.ButtonsChangePage | Client/app/components/Pagination.tsx:28-32 | clicking any rendered page number passes that page on |
| Pagination.PreviousAndNextStayInRange | Client/app/components/Pagination.tsx:48-61 | from a page that exists, an enabled Previous or Next passes on the page before or after it |
| PageWindow.Pages | Client/app/pages/admin/Jobs.tsx:286-292 | the kept pages of a range are exactly the pages in it that the filter keeps, strictly increasing |
| PageWindow.Window | Client/app/pages/admin/Jobs.tsx:286-292 | the page numbers shown; its meaning is stated by SmallWindowShowsAll, LargeWindowMembers and LargeWindowIsSmall |
| PageWindow.SmallWindowShowsAll | Client/app/pages/admin/Jobs.tsx:289 | up to the threshold (5 for jobs, 7 for users) every page from 1 to the page count is shown, in order |
| PageWindow.LargeWindowMembers | Client/app/pages/admin/Jobs.tsx:290-291 | past the threshold a page is shown exactly when it is the first, the last or next to the current page |
| PageWindow.LargeWindowIsSmall | Client/app/pages/admin/Jobs.tsx:286-292 | past the threshold at most five page numbers are shown |
| PageWindow.EllipsisMarksAGap | Client/app/pages/admin/Jobs.tsx:294-296 | an ellipsis is drawn exactly where the previous shown page is not the one just below, and then the page just below it is missing from the window |
| PageWindow.NoEllipsisInFullWindow | Client/app/pages/admin/Users.tsx:190-197 | when every page is shown no ellipsis is drawn |
| PageWindow.Previous | Client/app/pages/admin/Jobs.tsx:278 | Previous never goes below page 1 and steps back one page from any later page |
| PageWindow.Next | Client/app/pages/admin/Jobs.tsx:313 | Next never passes the last page and steps on one page from any earlier page |
| PageWindow.ClampsStayInRange | Client/app/pages/admin/Users.tsx:179-214 | from a page that exists Previous and Next both land on pages that exist |
| PageWindow.RangeWithinTotal | Client/app/pages/admin/Jobs.tsx:273 | on a page that exists "showing a to b of n" has 1 <= a <= b <= n and spans at most one page |
| UserIconForm.WithValue | Client/app/components/UserIcon.tsx:25-28 | the named field takes the typed value and every other field keeps its value |
| UserIconForm.NameCheck | Client/app/components/UserIcon.tsx:58-64 | on the register tab only, the name's message: missing, then under three trimmed characters, then a character outside the name pattern; its meaning is stated by RegisterPassesIff |
| UserIconForm.EmailCheck | Client/app/components/UserIcon.tsx:40-48 | the address's message: missing, then not fitting the lower-case pattern; its meaning is stated by LoginPassesIff and RegisterPassesIff |
| UserIconForm.PasswordCheck | Client/app/components/UserIcon.tsx:50-87 | the password's message: missing, then under six trimmed characters, then on the register tab not strong; its meaning is stated by LoginPassesIff, RegisterPassesIff and BlankPasswordTooShort |
| UserIconForm.ConfirmCheck | Client/app/components/UserIcon.tsx:89-93 | on the register tab only, the confirmation's message: missing, then different from the password; its meaning is stated by RegisterPassesIff |
| UserIconForm.Validate | Client/app/components/UserIcon.tsx:36-97 | the error map holds exactly one message for each check of the active tab that fails, and nothing for the checks that pass |
| UserIconForm.ValidateRegister | Client/app/components/UserIcon.tsx:57-94 | on the register tab the map reports the name, address, password and confirmation checks exactly |
| UserIconForm.ValidateNameAndEmail | Client/app/components/UserIcon.tsx:58-74 | the name and address checks are reported exactly, and no other field gets an entry |
| UserIconForm.ValidatePasswords | Client/app/components/UserIcon.tsx:76-93 | after the name and address, the password and confirmation checks complete an exact report of the register tab |
| UserIconForm.ReportsEmptyIff | Client/app/components/UserIcon.tsx:96-97 | a reporting error map is empty exactly when every check of the tab passes |
| UserIconForm.LoginPassesIff | Client/app/components/UserIcon.tsx:39-55 | the login tab accepts a well-formed lower-case address and a password of at least six characters once trimmed, and nothing else |
| UserIconForm.RegisterPassesIff | Client/app/components/UserIcon.tsx:57-94 | the register tab accepts a trimmed name of at least three letters or spaces, a well-formed address, a strong password of six trimmed characters and its exact confirmation, and nothing else |
| UserIconForm.RegisterPassMeetsServerPatterns | Client/app/components/UserIcon.tsx:66-87 | what the register tab accepts, the server's strong-password and lower-case address patterns accept too |
| UserIconForm.RegisterPassImpliesLoginPass | Client/app/components/UserIcon.tsx:39-94 | every form the register tab accepts is accepted by the login tab |
| UserIconForm.LoginIgnoresRegisterFields | Client/app/components/UserIcon.tsx:39-55 | the login tab's verdict does not depend on the name or the confirmation, and it never reports on them |
| UserIconForm.BlankPasswordTooShort | Client/app/components/UserIcon.tsx:52 | a password of six spaces is refused as too short, its length being taken after trimming |
| UserIconForm.Destination | Client/app/components/UserIcon.tsx:113-115 | the browser is sent somewhere exactly when the resolved user is an administrator, and then to "/admin" |
| UserIconForm.Resolution | Client/app/contexts/AuthContext.tsx:80-137 | as written `login` and `register` resolve to no user whatever the server answers; corrected they resolve to the user the server returned |
| UserIconForm.AdminNeverRedirected | Client/app/components/UserIcon.tsx:109-115 | as written an administrator who signs in is never sent to "/admin" |
| UserIconForm.CorrectedAdminRedirected | Client/app/components/UserIcon.tsx:109-115 | once the user is returned, the dialog sends the browser to "/admin" exactly for administrators |
| UserIconForm.Dialog.constructor | Client/app/components/UserIcon.tsx:10-19 | the dialog starts closed, on the login tab, with an empty form, no errors, not loading |
| UserIconForm.Dialog.SetModalOpen | Client/app/components/UserIcon.tsx:159-191 | the sign-in and close buttons change only the dialog's visibility |
| UserIconForm.Dialog.SelectTab | Client/app/components/UserIcon.tsx:171-180 | a tab button changes only the tab; both tabs share the form and its errors |
| UserIconForm.Dialog.HandleInputChange | Client/app/components/UserIcon.tsx:23-34 | the field takes the value, its shown error is blanked, and the rest of the dialog is unchanged |
| UserIconForm.Dialog.ValidateForm | Client/app/components/UserIcon.tsx:36-98 | the error map is replaced by the active tab's exact report, and the answer is true exactly when every check passes |
| UserIconForm.Dialog.Submit | Client/app/components/UserIcon.tsx:100-146 | a request is sent exactly when the active tab's checks pass: the credentials on login, the registration with role "User" otherwise; then the dialog closes, the form is reset, loading ends and "/admin" is navigated to only for an administrator; a refused form leaves the dialog as it was apart from its errors |
| ChangePasswordForm.WithValue | Client/app/components/ChangePasswordForm.tsx:26 | the named field takes the typed value and every other field keeps its value |
| ChangePasswordForm.NewPasswordCheck | Client/app/components/ChangePasswordForm.tsx:44-55 | the new password's message as written and corrected; its meaning is stated by NewPasswordAlwaysRefused, StrongPasswordReportedShort and CorrectedPassesIff |
| ChangePasswordForm.Validate | Client/app/components/ChangePasswordForm.tsx:37-62 | the error map holds exactly one message for each failing check, as written or corrected, and nothing for the checks that pass |
| ChangePasswordForm.ReportsEmptyIff | Client/app/components/ChangePasswordForm.tsx:63-64 | a reporting error map is empty exactly when every check passes |
| ChangePasswordForm.NewPasswordAlwaysRefused | Client/app/components/ChangePasswordForm.tsx:44-47 | as written every new password is refused, an empty one as missing and any other as too short, so the form never passes |
| ChangePasswordForm.StrongPasswordReportedShort | Client/app/components/ChangePasswordForm.tsx:46-55 | the strong password "Abcde1!" is reported too short as written and accepted once corrected |
| ChangePasswordForm.CorrectedPassesIff | Client/app/components/ChangePasswordForm.tsx:37-62 | corrected, the form accepts an old password, a strong new password of six trimmed characters and its exact confirmation, and nothing else |
| ChangePasswordForm.CorrectedPassMeetsServerNewPassword | Client/app/components/ChangePasswordForm.tsx:46-61 | what the corrected form accepts, the server's strong-password rule and confirmation check accept too |
| ChangePasswordForm.ReuseLeftToServer | Client/app/components/ChangePasswordForm.tsx:37-62 | the form does not compare the new password with the old one; a request reusing it is refused by the server's validator |
| ChangePasswordForm.Dialog.constructor | Client/app/components/ChangePasswordForm.tsx:11-22 | the dialog starts with an empty form, no errors, not loading, and no close scheduled |
| ChangePasswordForm.Dialog.HandleInputChange | Client/app/components/ChangePasswordForm.tsx:24-31 | the field takes the value, its shown error is blanked, and the rest is unchanged |
| ChangePasswordForm.Dialog.ValidateForm | Client/app/components/ChangePasswordForm.tsx:37-65 | the error map is replaced by the exact report, and the answer is true exactly when every check passes |
| ChangePasswordForm.Dialog.Submit | Client/app/components/ChangePasswordForm.tsx:67-90 | the request carrying the three passwords is sent exactly when the checks pass, and then closing is scheduled and loading ends; as written nothing is ever sent |
| DomainBlocking.Decide | Server/Server/Middleware/DomainBlockingMiddleware.cs:22-50 | the origin is reported not allowed exactly when it is non-empty and unlisted; a forwarded request never carries an unlisted origin |
| DomainBlocking.ForwardedIffBothPass | Server/Server/Middleware/DomainBlockingMiddleware.cs:28-49 | a request is forwarded exactly when its origin is empty or listed, and its referer is empty or parses with a listed scheme and authority |
| DomainBlocking.NoHeadersForwarded | Server/Server/Middleware/DomainBlockingMiddleware.cs:28-49 | a request with neither header is forwarded whatever the configuration |
| DomainBlocking.MissingConfigBlocksOrigins | Server/Server/Middleware/DomainBlockingMiddleware.cs:19-34 | with no `Cors:AllowedOrigins` section, every request that carries an origin is refused |
| DomainBlocking.OriginCheckedFirst | Server/Server/Middleware/DomainBlockingMiddleware.cs:28-46 | a bad origin is the answer even when the referer is bad or malformed too |
| RateLimit.Bump | Server/Server/Middleware/RateLimitMiddleware.cs:24-26 | the key's live count goes up by one; a count that has just become 1 expires one minute later, and a later count keeps the expiry it had; every other key is unchanged |
| RateLimit.ReplayInWindow | Server/Server/Middleware/RateLimitMiddleware.cs:24-33 | inside one window every request adds one to the counter, the expiry stays where the window's first request put it, and only the requests that keep the count at or under 100 are forwarded |
| RateLimit.WindowAdmitsOneHundred | Server/Server/Middleware/RateLimitMiddleware.cs:21-33 | starting from no live counter, a burst inside one minute forwards min(n, 100) of its n requests, and the counter ends at n with a one-minute expiry |
| RateLimit.RateLimiter.Invoke | Server/Server/Middleware/RateLimitMiddleware.cs:17-36 | the counters become Bump of the old ones for the client's key, and the request is forwarded exactly when the live count before it was under 100 |
| RateLimit.UnknownClientsShareACounter | Server/Server/Middleware/RateLimitMiddleware.cs:19-20 | a request without a remote address is counted under "ratelimit:unknown" |
| RateLimit.CountersArePerAddress | Server/Server/Middleware/RateLimitMiddleware.cs:19-20 | two different addresses never share a counter key |
| RateLimit.Replay | Server/Server/Middleware/RateLimitMiddleware.cs:17-36 | replaying requests from one key forwards at most as many as were made |
| RateLimit.RateLimiter.constructor | Server/Server/Middleware/RateLimitMiddleware.cs:11-15 | the middleware starts with no counter |
| ApplicationStatuses.StatusesAreUpperCase | Server/Server/DTOs/Jobs/CandidateApplicationDto.cs:63-72 | each of the five stored statuses is its own upper-case form |
| ApplicationStatuses.ValidIffUpperListed | Server/Server/DTOs/Jobs/CandidateApplicationDto.cs:74-75 | a status is valid exactly when its upper-case form is APPLIED, REVIEWED, INTERVIEWING, ACCEPTED or REJECTED |
| ApplicationStatuses.ValidUpperIsListed | Server/Server/DTOs/Jobs/CandidateApplicationDto.cs:69-75 | the upper-case form of a valid status is one of the stored constants |
| ApplicationStatuses.ValidityIgnoresCase | Server/Server/DTOs/Jobs/CandidateApplicationDto.cs:74-75 | upper- or lower-casing a status does not change whether it is valid |
| ApplicationStatuses.PendingIsInvalid | Server/Server/DTOs/Jobs/CandidateApplicationDto.cs:69-75 | "PENDING" is refused in either casing |
| ApplicationStatuses.LowerCaseAccepted | Server/Server/DTOs/Jobs/CandidateApplicationDto.cs:74-75 | "accepted" and "Interviewing" are accepted |
| SignalR.Normalize | Client/app/contexts/SignalRContext.tsx:34-35 | an event name trimmed and lower-cased; its meaning is stated by NormalizeIdempotent, NormalizeIgnoresCase and NormalizeIgnoresSurroundingSpace |
| SignalR.NormalizeIdempotent | Client/app/contexts/SignalRContext.tsx:34-35 | normalising an event name twice gives the same name as normalising it once |
| SignalR.NormalizeIgnoresCase | Client/app/contexts/SignalRContext.tsx:34-35 | names that differ only in letter case normalise to one entry |
| SignalR.NormalizeIgnoresSurroundingSpace | Client/app/contexts/SignalRContext.tsx:34-35 | white space around a name does not change its normal form |
| SignalR.TrimStartAppendSpace | Client/app/contexts/SignalRContext.tsx:35 | a trailing white-space character is trimmed away with the rest |
| SignalR.JobEventIsNormal | Client/app/contexts/SignalRContext.tsx:119 | the job event name "receivenewjob" is already in normal form |
| SignalR.With | Client/app/contexts/SignalRContext.tsx:88 | adding a handler to an event's set gives the old handlers plus it, still without repetitions |
| SignalR.Without | Client/app/contexts/SignalRContext.tsx:95 | deleting a handler leaves exactly the other handlers, and nothing changes when it was absent |
| SignalR.WithoutDistinct | Client/app/contexts/SignalRContext.tsx:95 | deleting a handler keeps the set free of repetitions |
| SignalR.WithoutAppended | Client/app/contexts/SignalRContext.tsx:88-95 | deleting a handler just added restores the set |
| SignalR.SubscribeAdds | Client/app/contexts/SignalRContext.tsx:80-89 | subscribing puts the handler in its event's set after the ones already there and changes no other event |
| SignalR.UnsubscribeRemovesOnlyIt | Client/app/contexts/SignalRContext.tsx:91-105 | the unsubscribe closure removes that handler from that event alone and deletes the entry it leaves empty |
| SignalR.SubscribedWellFormed | Client/app/contexts/SignalRContext.tsx:84-88 | after a subscribe every entry still holds at least one handler and none twice, and the event has an entry |
| SignalR.FreshDispatcherFits | Client/app/contexts/SignalRContext.tsx:58-70 | a new event's dispatcher is a fresh closure and the table still covers exactly the events |
| SignalR.DroppedDispatcherFits | Client/app/contexts/SignalRContext.tsx:104 | dropping an event's dispatcher keeps the others distinct and covering the remaining events |
| SignalR.SubscribeFits | Client/app/contexts/SignalRContext.tsx:80-89 | after a subscribe the dispatchers cover exactly the events with handlers, with a fresh one for a new event |
| SignalR.UnsubscribeFits | Client/app/contexts/SignalRContext.tsx:91-105 | after an unsubscribe the dispatchers cover exactly the events with handlers |
| SignalR.UnsubscribeLastOk | Client/app/contexts/SignalRContext.tsx:97-105 | removing an event's last handler drops its entry, its dispatcher and, with a connection, its binding, and the registry stays consistent |
| SignalR.UnsubscribeOneOk | Client/app/contexts/SignalRContext.tsx:95-97 | removing one of several handlers changes only that event's set and keeps every dispatcher |
| SignalR.SubscribeUnsubscribeRoundTrip | Client/app/contexts/SignalRContext.tsx:80-106 | unsubscribing a fresh subscription restores the handler map exactly |
| SignalR.Registry.constructor | Client/app/contexts/SignalRContext.tsx:40-50 | the registry starts with no handlers, no dispatchers, no connection and no job subscription |
| SignalR.Registry.EnsureDispatcher | Client/app/contexts/SignalRContext.tsx:52-78 | an existing dispatcher is kept; otherwise a fresh one is registered and bound exactly when a connection exists |
| SignalR.Registry.Subscribe | Client/app/contexts/SignalRContext.tsx:80-109 | the handler joins its normalised event's set, a dispatcher exists for the event, the closure returned remembers the normalised name, and the registry stays consistent |
| SignalR.Registry.Unsubscribe | Client/app/contexts/SignalRContext.tsx:91-106 | the closure removes the handler and, when the event is left empty, its dispatcher and binding, keeping the registry consistent |
| SignalR.Registry.DropEvent | Client/app/contexts/SignalRContext.tsx:97-105 | the last handler's removal deletes the entry, the dispatcher and its binding |
| SignalR.Registry.DropHandler | Client/app/contexts/SignalRContext.tsx:95 | removing one of several handlers changes only that event's set |
| SignalR.Registry.Dispatch | Client/app/contexts/SignalRContext.tsx:58-68 | a dispatcher calls every handler of its event in order, and a handler that throws does not stop the rest |
| SignalR.Registry.Connect | Client/app/contexts/SignalRContext.tsx:167-195 | once the connection starts, exactly the registered dispatchers are bound to it |
| SignalR.Registry.SetJobCallback | Client/app/contexts/SignalRContext.tsx:111-123 | the previous job subscription is dropped and a given callback is subscribed to "receivenewjob", keeping the registry consistent |
| SignalR.Registry.JoinUserGroup | Client/app/contexts/SignalRContext.tsx:125-134 | "JoinUserGroup" is invoked with the user id exactly when a connection exists and the id is not empty |
| SignalR.Registry.InvokeForUser | Client/app/contexts/SignalRContext.tsx:125-145 | a hub method is invoked with the user id exactly when a connection exists and the id is not empty |
| SignalR.Registry.LeaveUserGroup | Client/app/contexts/SignalRContext.tsx:136-145 | "LeaveUserGroup" is invoked with the user id exactly when a connection exists and the id is not empty |
| SignalR.ReplacingJobCallback | Client/app/contexts/SignalRContext.tsx:111-123 | after a replacement the new job callback, and not the old one, is among the job event's handlers |
| SignalR.ClearingJobCallback | Client/app/contexts/SignalRContext.tsx:113-116 | clearing the job callback leaves no trace of it among the job event's handlers |
| ApplicationNotifications.Receive | Client/app/contexts/ApplicationNotificationsContext.tsx:145-189 | a notification without both ids, or whose id is already among the recent ones, changes nothing; otherwise the total grows by one and the notification heads a recent list of at most ten |
| ApplicationNotifications.ReceiveAccepts | Client/app/contexts/ApplicationNotificationsContext.tsx:160-188 | an accepted notification raises the total by one and is put in front of the recent list, cut to ten |
| ApplicationNotifications.ReceiveKnownJob | Client/app/contexts/ApplicationNotificationsContext.tsx:164-172 | a job already counted gains one application and one unread at its first entry, and no other entry changes |
| ApplicationNotifications.ReceiveUnknownJob | Client/app/contexts/ApplicationNotificationsContext.tsx:173-181 | a job not yet counted is appended with one application, unread |
| ApplicationNotifications.UnreadSumUpdate | Client/app/contexts/ApplicationNotificationsContext.tsx:168-172 | replacing one job entry changes the sum of unread counts by that entry's difference |
| ApplicationNotifications.UnreadSumAppend | Client/app/contexts/ApplicationNotificationsContext.tsx:175-180 | appending a job entry adds its unread count to the sum |
| ApplicationNotifications.ReceiveKeepsConsistent | Client/app/contexts/ApplicationNotificationsContext.tsx:146-189 | folding a notification in keeps the total equal to the sum of the per-job unread counts, each between 0 and its job's application count |
| ApplicationNotifications.Refresh | Client/app/contexts/ApplicationNotificationsContext.tsx:61-77 | a non-employer's summary is emptied without a request; a failed or non-200 reply keeps the summary; a 200 reply installs its summary, or the empty one |
| ApplicationNotifications.AfterMarkReply | Client/app/contexts/ApplicationNotificationsContext.tsx:89-128 | a failed or non-200 reply keeps the summary; a 200 reply carrying a summary installs it; a 200 reply without one triggers a refresh |
| ApplicationNotifications.MarkJobAsRead | Client/app/contexts/ApplicationNotificationsContext.tsx:79-108 | no request is sent and nothing changes for a non-employer or an empty job id; otherwise the reply is applied |
| ApplicationNotifications.MarkAllAsRead | Client/app/contexts/ApplicationNotificationsContext.tsx:110-129 | no request is sent and nothing changes for a non-employer; otherwise the reply is applied |
| ApplicationNotifications.MarkWithoutSummaryRefreshes | Client/app/contexts/ApplicationNotificationsContext.tsx:91-95 | a reply without a summary leaves the outcome to the refresh: kept on its failure, replaced on its success |
| ApplicationNotifications.GroupToJoin | Client/app/contexts/ApplicationNotificationsContext.tsx:136-140 | the user's group is joined exactly for a connected employer with a user id, and under that id |
| ManageJobs.FirstNonEmpty | Client/app/routes/manage-jobs.tsx:131-132 | an "or" chain gives the fallback or one of the values, a non-empty one unless it is the fallback, and the fallback when every value is empty |
| ManageJobs.MapJob | Client/app/routes/manage-jobs.tsx:126-146 | a payload maps to an entry whose id and jobId are the incoming id, whose status is "active" exactly when either hiring-status key is "OPEN" and "inactive" otherwise, and whose company and location are never empty (also lines 222-242) |
| ManageJobs.JobUpdated | Client/app/routes/manage-jobs.tsx:120-162 | a known job is replaced where it stands and nothing else moves; an unknown job is ignored off page 1 and on page 1 is put first, the list then cut back to its length once it exceeds ten |
| ManageJobs.ApplyJobUpdated | Client/app/routes/manage-jobs.tsx:150-161 | copying the list, then assigning the index or putting the job first and popping, computes the reducer's list |
| ManageJobs.JobUpdatedLosesAJob | Client/app/routes/manage-jobs.tsx:156-159 | with ten or more jobs listed, a new job on page 1 pushes the last job out of the list although the employer still has it |
| ManageJobs.JobUpdatedCorrected | Client/app/routes/manage-jobs.tsx:152-161 | corrected: a known job is replaced in place, an unknown one on page 1 is put first and nothing is dropped, other pages are unchanged |
| ManageJobs.JobUpdatedCorrectedKeepsJobs | Client/app/routes/manage-jobs.tsx:152-161 | the corrected reducer keeps every job of another id |
| ManageJobs.JobUpdatedAgreesOnShortLists | Client/app/routes/manage-jobs.tsx:158 | for lists shorter than ten jobs the reducer as written and the corrected one agree |
| ManageJobs.JobDeleted | Client/app/routes/manage-jobs.tsx:166-169 | exactly the entries with another id remain, and their number is the count of such entries (also lines 282) |
| ManageJobs.JobDeletedAbsent | Client/app/routes/manage-jobs.tsx:168 | a list without that id is left exactly as it was |
| ManageJobs.AfterDelete | Client/app/routes/manage-jobs.tsx:275-288 | a failed delete leaves the list alone; a successful one removes exactly that job's entries |
| ManageJobs.CurrentJobs | Client/app/routes/manage-jobs.tsx:308-310 | the jobs shown on a page, `slice((page - 1) * 10, page * 10)`; its meaning is stated by CurrentJobsIsPage and CurrentJobsPageZero |
| ManageJobs.CurrentJobsIsPage | Client/app/routes/manage-jobs.tsx:308-310 | from page 1 on, the shown jobs are the page's slice [(page-1)·10, page·10) of the list, in order |
| ManageJobs.CurrentJobsPageZero | Client/app/routes/manage-jobs.tsx:308-310 | page 0 shows no job |
| AdminJobs.MapNewJob | Client/app/pages/admin/Jobs.tsx:62-76 | a realtime payload keeps its id, title and status, gets a company name that is never empty, and the "just posted" category |
| AdminJobs.ReceiveNewJob | Client/app/pages/admin/Jobs.tsx:79-84 | on page 1 with no search the job is put first, the page is cut to its size and the total rises by one; otherwise only the count of unseen jobs rises |
| AdminJobs.ReceiveIntoShortPage | Client/app/pages/admin/Jobs.tsx:80 | a realtime job on a first page that is not full just grows the page by it |
| AdminJobs.Toggled | Client/app/pages/admin/Jobs.tsx:95-98 | after a toggle the rows keep their number and order; exactly the matching rows take the returned status |
| AdminJobs.ToggleTwice | Client/app/pages/admin/Jobs.tsx:98 | toggling twice leaves the rows as the second toggle alone would |
| AdminJobs.Deleted | Client/app/pages/admin/Jobs.tsx:111-117 | after a delete exactly the rows of other ids remain, the total drops by one and the unseen count is kept |
| AdminJobs.ButtonsShown | Client/app/pages/admin/Jobs.tsx:286-292 | up to five pages every page has a button; past five, exactly page 1, the last page and the current page's neighbours |
| AdminUsers.Filtered | Client/app/pages/admin/Users.tsx:56-59 | the shown users are exactly the loaded users whose lower-cased name or e-mail contains the lower-cased term |
| AdminUsers.FilterIgnoresCase | Client/app/pages/admin/Users.tsx:57-58 | the search gives the same users whatever the case of the term |
| AdminUsers.EmptyTermKeepsAll | Client/app/pages/admin/Users.tsx:56-59 | an empty search shows every loaded user, in order |
| AdminUsers.Toggled | Client/app/pages/admin/Users.tsx:47-50 | after a toggle exactly the matching users flip their state and no other user changes |
| AdminUsers.ToggleTwiceRestores | Client/app/pages/admin/Users.tsx:50 | toggling the same user twice restores the list |
| AdminUsers.ChoosePageSize | Client/app/pages/admin/Users.tsx:165-168 | choosing a page size sets it and goes back to page 1 |
| AdminUsers.ButtonsShown | Client/app/pages/admin/Users.tsx:187-193 | up to seven pages every page has a button; past seven, exactly page 1, the last page and the current page's neighbours |
| AdminUsers.NextWithoutUsers | Client/app/pages/admin/Users.tsx:214-215 | with no user Next would lead to page 0, and it is disabled |
| AdminUsers.EnabledNextMovesOn | Client/app/pages/admin/Users.tsx:214-215 | an enabled Next on an existing page leads to the following page, which exists |
| JobDetail.FormatSalary | Client/app/routes/job-detail.tsx:324-334 | a range is shown exactly when both amounts are given and not both zero; otherwise "from" a positive lower amount, else "up to" a positive upper amount, else negotiable, each showing the amount given |
| JobDetail.RenderSalary | Client/app/routes/job-detail.tsx:325-333 | each salary form prints as its Vietnamese text with the amounts formatted and "VND" |
| JobDetail.NoSalaryIsNegotiable | Client/app/routes/job-detail.tsx:325-328 | two missing, two null or two zero amounts are negotiable |
| JobDetail.OneSidedSalary | Client/app/routes/job-detail.tsx:331-333 | with a single amount given, its side is shown when positive and the salary is negotiable otherwise |
| JobDetail.SalaryShowsGivenAmounts | Client/app/routes/job-detail.tsx:327-332 | every amount shown is one of the given amounts, and a one-sided amount is positive |
| JobDetail.NegotiableIff | Client/app/routes/job-detail.tsx:324-334 | a salary is negotiable exactly when both are given and both zero, or when neither side is given and positive |
| JobDetail.StyleOf | Client/app/routes/job-detail.tsx:165-171 | the badge is styled closed or paused exactly for those statuses in any case, and open for every other status |
| JobDetail.LabelOf | Client/app/routes/job-detail.tsx:176 | "OPEN" and "CLOSED" get their Vietnamese labels and every other status is shown as it is |
| JobDetail.UnknownStatusStyledOpen | Client/app/routes/job-detail.tsx:171-176 | an unknown status is styled as open and shown verbatim |
| JobDetail.StyleIgnoresCase | Client/app/routes/job-detail.tsx:171-176 | the style ignores letter case but the label does not: "closed" is styled closed yet labelled "closed" |
| JobDetail.PrimaryImage | Client/app/routes/job-detail.tsx:394-395 | there is an image exactly when the list is present and not empty, and it is one of the listed images |
| JobDetail.PrimaryImageChoice | Client/app/routes/job-detail.tsx:395 | the first image marked primary is chosen, or the first image when none is marked |
| JobDetail.ImageUrl | Client/app/routes/job-detail.tsx:396-398 | the image address exists exactly when an image is chosen, and is the image service's base followed by its path |
| JobDetail.GalleryPrev | Client/app/routes/job-detail.tsx:976 | going back stays within the gallery and wraps from the first image to the last |
| JobDetail.GalleryNext | Client/app/routes/job-detail.tsx:977 | going forward stays within the gallery and wraps from the last image to the first |
| JobDetail.GalleryRoundTrip | Client/app/routes/job-detail.tsx:976-977 | going forward then back, or back then forward, returns to the same image |
| JobDetail.NextTimesIsModular | Client/app/routes/job-detail.tsx:977 | n steps forward from image i reach image (i + n) mod count |
| JobDetail.FullCycle | Client/app/routes/job-detail.tsx:977 | as many steps forward as there are images come back to the starting image |
| JobDetail.ApplyStart | Client/app/routes/job-detail.tsx:276-292 | the apply request is sent exactly for a job id and a signed-in user, to the job's apply address; nothing happens without a job id; without a user an "info" notice asks to log in |
| JobDetail.ApplyNotice | Client/app/routes/job-detail.tsx:299-318 | a reply's message gets the tracking hint and its kind or "success"; an HTTP error shows its body's message and kind or the defaults; another failure shows the connection notice; a notice is never empty |
| JobDetail.NoUserNoRequest | Client/app/routes/job-detail.tsx:279-285 | without a signed-in user no request is sent, and with a job id the user is told to log in |
| Admin.RecentCandidates | Server/Server/Controllers/AdminController.cs:38-70 | the candidates are at most five users, five jobs and five applications, fifteen in all |
| Admin.RecentActivities | Server/Server/Controllers/AdminController.cs:72-75 | the feed holds ten activities, or all the candidates when there are fewer |
| Admin.NewestTen | Server/Server/Controllers/AdminController.cs:73-74 | the first ten of any activity list sorted newest first are newest first, drawn from the list, and leave out nothing newer than their last |
| Admin.RecentActivitiesNewest | Server/Server/Controllers/AdminController.cs:72-75 | the feed is newest first, holds only candidates, holds all of them when there are at most ten, and leaves out no candidate newer than its last entry |
| Admin.RecentActivitiesFromTopFive | Server/Server/Controllers/AdminController.cs:38-75 | every user entry of the feed is one of the five newest users, and likewise for jobs and applications |
| Admin.Services | Server/Server/Controllers/AdminController.cs:176-212 | the database, the image service and the gateway are reported in that order; the database is Online exactly when its call returns (as written, whatever the bool) or returns true (corrected), the image service exactly when its probe succeeds, and the gateway always |
| Admin.DbStatus | Server/Server/Controllers/AdminController.cs:181-190 | as written the database is Offline exactly when the call throws, since the returned bool is discarded; corrected, also when it returns false |
| Admin.OverallStatus | Server/Server/Controllers/AdminController.cs:222 | the overall status is "Stable" exactly when every service is "Online", and "Warning" otherwise |
| Admin.HealthStableIff | Server/Server/Controllers/AdminController.cs:176-222 | as written the system is Stable exactly when the database call returns, whatever it returns, and the image probe succeeds |
| Admin.UnreachableDatabaseReportedOnline | Server/Server/Controllers/AdminController.cs:183 | as written a database whose call returns false is reported Online, and with a good image probe the system Stable |
| Admin.CorrectedHealthStableIff | Server/Server/Controllers/AdminController.cs:176-222 | corrected, the system is Stable exactly when the database call returns true and the image probe succeeds |
| Admin.UsersPageOf | Server/Server/Controllers/AdminController.cs:240-268 | page and size are echoed; the total counts the non-administrators before paging, and the page holds no more than that |
| Admin.UsersPageHasNoAdmins | Server/Server/Controllers/AdminController.cs:244-247 | every listed user comes from a stored account whose role is not "Admin" |
| Admin.UsersPageIsWindow | Server/Server/Controllers/AdminController.cs:249-253 | from page 1 on, the listing is the window of pageSize users at (page-1)·pageSize of the newest-first order |
| Admin.SearchedJobs | Server/Server/Controllers/AdminController.cs:491-495 | a blank term keeps every job; otherwise exactly the jobs whose lower-cased title or company name contains the lower-cased term |
| Admin.SearchIgnoresCase | Server/Server/Controllers/AdminController.cs:493-494 | the search selects the same jobs whatever the case of the term |
| Admin.ToJobDto | Server/Server/Controllers/AdminController.cs:520-535 | a row keeps the job's id, title, flag and date, and shows "N/A" for a missing company, category or poster |
| Admin.ToJobDtos | Server/Server/Controllers/AdminController.cs:520-535 | every stored job of the page maps to its row, in order |
| Admin.JobsPageOf | Server/Server/Controllers/AdminController.cs:483-540 | page and size are echoed; the total counts the matching jobs before paging, and the page holds no more than that |
| Admin.JobsPageMatches | Server/Server/Controllers/AdminController.cs:491-503 | every listed job is a stored job that the search matches |
| Admin.JobsPageIsWindow | Server/Server/Controllers/AdminController.cs:500-503 | from page 1 on, the listing is the window at (page-1)·pageSize of the newest-first matching jobs |
| Admin.Toggled | Server/Server/Controllers/AdminController.cs:639 | a job's flag 1 becomes 0 and any other value becomes 1 |
| Admin.ToggleTwice | Server/Server/Controllers/AdminController.cs:639 | toggling twice restores the flag exactly when it held 0 or 1 |
| Admin.CascadeKeepsKeys | Server/Server/Controllers/AdminController.cs:655-673 | removing a job together with its images and applications leaves every image and application naming a stored job |
| Admin.AdminStore.constructor | Server/Server/Controllers/AdminController.cs:28-35 | the store starts with no users, jobs, images, applications or categories |
| Admin.AdminStore.GetStats | Server/Server/Controllers/AdminController.cs:28-75 | the counters are the table sizes, the active jobs are among the jobs, and the feed holds at most ten activities |
| Admin.AdminStore.GetUsers | Server/Server/Controllers/AdminController.cs:240-268 | the users page of the stored accounts, with the non-administrators counted |
| Admin.AdminStore.GetJobs | Server/Server/Controllers/AdminController.cs:483-540 | the jobs page of the stored jobs, with the matching jobs counted |
| Admin.AdminStore.UpdateUserRole | Server/Server/Controllers/AdminController.cs:435-446 | an unknown id is reported not found and nothing changes; otherwise that account alone takes the new role |
| Admin.AdminStore.UpdateUserStatus | Server/Server/Controllers/AdminController.cs:454-475 | an unknown id changes nothing; otherwise that account's flag flips and the notice to its group is "userbanned" or "useractivated" by the new value |
| Admin.AdminStore.ToggleJobStatus | Server/Server/Controllers/AdminController.cs:632-643 | an unknown id changes nothing; otherwise that job's flag is toggled and returned, and no other row changes |
| Admin.AdminStore.DeleteJob | Server/Server/Controllers/AdminController.cs:651-673 | an unknown id changes nothing; otherwise the job, its images and its applications go together and the keys still hold |
| Admin.AdminStore.RemoveJob | Server/Server/Controllers/AdminController.cs:657-673 | the job at the index goes with exactly its images and its applications |
| Admin.ToggleKeepsKeys | Server/Server/Controllers/AdminController.cs:639-640 | changing a job's flag keeps every image and application naming a stored job |
| Admin.CascadeLeavesNoOrphans | Server/Server/Controllers/AdminController.cs:659-669 | after a delete no image or application names the deleted job |
| Applications.JobById | Server/Server/Services/Jobs/ApplicationService.cs:363-366 | the loaded job is a stored job with that id, and there is none exactly when no job has the id |
| Applications.JobByGuid | Server/Server/Services/Jobs/ApplicationService.cs:39-41 | the job found is a stored job with that GUID, and there is none exactly when no job has it |
| Applications.HasApplicationIff | Server/Server/Data/Jobs/ApplicationRepository.cs:29-33 | the check holds exactly when some stored application has this job and this candidate |
| Applications.LatestResumeIsNewest | Server/Server/Data/Jobs/ResumeRepository.cs:15-21 | there is no resume exactly when the candidate has none; otherwise it is the candidate's and none of theirs is newer |
| Applications.UnreadAtMostTotal | Server/Server/Data/Jobs/ApplicationRepository.cs:81-82 | a job never has more unread applications than applications |
| Applications.CountsWithUnreadBounded | Server/Server/Data/Jobs/ApplicationRepository.cs:73-87 | the summary holds one entry per job of the employer, each with unread at most total |
| Applications.Recent | Server/Server/Data/Jobs/ApplicationRepository.cs:97-106 | at most `take` applications, each stored and of one of the employer's jobs |
| Applications.RecentIsNewestFirst | Server/Server/Data/Jobs/ApplicationRepository.cs:100-104 | the recent list is newest first and is a prefix of all the employer's applications in that order |
| Applications.PendingAllIsTotalUnread | Server/Server/Data/Jobs/ApplicationRepository.cs:89-134 | across all jobs, the rows a mark-all call selects are exactly the employer's unread applications |
| Applications.PendingByJobIsUnread | Server/Server/Data/Jobs/ApplicationRepository.cs:110-113 | for its owner, the rows a mark-by-job call selects are the job's unread applications |
| Applications.PendingCountStep | Server/Server/Data/Jobs/ApplicationRepository.cs:115-120 | counting one more row adds one exactly when that row is selected |
| Applications.MarkedNonePending | Server/Server/Data/Jobs/ApplicationRepository.cs:115-120 | once every selected row is marked viewed, none remains selected |
| Applications.PositionsAfterSteps | Server/Server/Services/Jobs/ApplicationService.cs:379-389 | a move into ACCEPTED adds one position, a move out removes one without going below 0, and any other change leaves the count alone |
| Applications.StatusChangedViewing | Server/Server/Services/Jobs/ApplicationService.cs:376-397 | a status change marks the row viewed, keeps the first viewing time, stamps it, and changes neither its id, job or candidate |
| Applications.PositionsTrackAccepted | Server/Server/Services/Jobs/ApplicationService.cs:376-389 | if a job's filled positions equal its accepted applications, they still do after any status change of one of them |
| Applications.ApplyGuardAllows | Server/Server/Services/Jobs/ApplicationService.cs:37-80 | applying is allowed exactly for an existing job someone else posted, by a caller with a candidate profile who has not applied to it |
| Applications.ApplyRefusalPrecedence | Server/Server/Services/Jobs/ApplicationService.cs:41-80 | refusals come in order: a missing job hides every other reason, one's own job hides the profile and duplicate checks |
| Applications.AppendKeepsNoDuplicates | Server/Server/Services/Jobs/ApplicationService.cs:70-113 | appending an application for a new job and candidate pair keeps the table free of duplicate pairs |
| Applications.AvatarPath | Server/Server/Services/Jobs/ApplicationService.cs:508-518 | no images give no avatar, and an avatar is the path of one of the images |
| Applications.AvatarPrefersPrimary | Server/Server/Services/Jobs/ApplicationService.cs:516-517 | the first primary image's path wins; without one, or without its path, the first image's path is used |
| Applications.PortfolioPaths | Server/Server/Services/Jobs/ApplicationService.cs:496-506 | no images give no list; otherwise the paths of exactly the non-primary images that have a path, in order |
| Applications.ExcerptBounded | Server/Server/Services/Jobs/ApplicationService.cs:321 | a missing description stays missing, one of at most 200 characters is kept whole, and a longer one is cut to 200 followed by "..." |
| Applications.EntriesFewer | Server/Server/Services/Jobs/ApplicationService.cs:289-292 | there are no more history entries than application rows |
| Applications.EntryOrigin | Server/Server/Services/Jobs/ApplicationService.cs:289-292 | every history entry comes from an application row whose job exists |
| Applications.ByCandidateOwn | Server/Server/Data/Jobs/ApplicationRepository.cs:150-157 | the rows are exactly as many as the candidate's applications, and each is one of them |
| Applications.HistoryFewer | Server/Server/Services/Jobs/ApplicationService.cs:277-338 | the history has no more entries than the candidate has applications |
| Applications.HistoryRowOwn | Server/Server/Services/Jobs/ApplicationService.cs:286-292 | each history entry is one of the candidate's own applications, and its job exists |
| Applications.ApplyGuard | Server/Server/Services/Jobs/ApplicationService.cs:37-80 | the refusals of applying, in the order tested; its meaning is stated by ApplyGuardAllows and ApplyRefusalPrecedence |
| Applications.StatusGuard | Server/Server/Services/Jobs/ApplicationService.cs:341-373 | the refusals of a status change, in the order tested: an invalid status, then an unknown application, then a job the employer does not own |
| Applications.NewApplicationNotification | Server/Server/Services/Jobs/ApplicationService.cs:520-575 | no row exactly when the job has no poster (`Guid.Empty`) or no employer profile; otherwise an unread "NewApplication" row for the poster, naming the job and the application, stamped now |
| Applications.StatusLabel | Server/Server/Services/Jobs/ApplicationService.cs:449-456 | the four upper-case statuses REVIEWED, INTERVIEWING, ACCEPTED and REJECTED get their Vietnamese labels; any other status, a lower-case one included, is shown as typed |
| Applications.LowerCaseStatusLabelledAsTyped | Server/Server/Services/Jobs/ApplicationService.cs:376-462 | "reviewed" is a valid status stored as REVIEWED, yet its notification labels it "reviewed" where REVIEWED would read "Đã xem" |
| Applications.StatusNotification | Server/Server/Services/Jobs/ApplicationService.cs:416-474 | no row exactly when no candidate profile has the application's candidate id; otherwise an unread "ApplicationStatus" row for that profile's user, naming the job and the application, stamped now |
| Applications.ApplicationStore.constructor | Server/Server/Services/Jobs/ApplicationService.cs:37-125 | the store holds the given tables, notifications included, and no save has been made |
| Applications.ApplicationStore.CreateApplication | Server/Server/Data/Jobs/ApplicationRepository.cs:22-27 | the row is appended and saved once; nothing else changes |
| Applications.ApplicationStore.CreateResume | Server/Server/Data/Jobs/ResumeRepository.cs:23-28 | the resume is appended and saved once; nothing else changes |
| Applications.ApplicationStore.CreateNotification | Server/Server/Services/Notifications/NotificationService.cs:60-75 | the notification is appended; the other tables and the lifecycle's save count are unchanged, the notification service saving it with its own unit of work |
| Applications.ApplicationStore.UpdateApplication | Server/Server/Data/Jobs/ApplicationRepository.cs:166-172 | the row is stamped and written over the stored row with the same id, and saved once |
| Applications.ApplicationStore.AdjustPositions | Server/Server/Services/Jobs/ApplicationService.cs:379-389 | the job's filled positions follow the status change, and a save is made exactly when they move |
| Applications.ApplicationStore.MarkPending | Server/Server/Data/Jobs/ApplicationRepository.cs:108-147 | every selected row is marked viewed and no other row changes; the count returned is the number selected, none remains selected, and a save is made exactly when the count is positive |
| Applications.ApplicationStore.MarkApplicationsAsViewedByJob | Server/Server/Data/Jobs/ApplicationRepository.cs:108-127 | the job's unviewed applications of the employer are marked viewed and counted, none remains, and a save is made only when there were some |
| Applications.ApplicationStore.MarkAllApplicationsAsViewed | Server/Server/Data/Jobs/ApplicationRepository.cs:129-148 | the count is the employer's unread total, which becomes 0, and a save is made only when it was positive |
| Applications.ApplicationStore.ApplyToJob | Server/Server/Services/Jobs/ApplicationService.cs:37-125 | a refused application changes nothing and reports its refusal; otherwise the newest resume, or a new default one, is referenced by a new APPLIED application, the table stays free of duplicate pairs, and the poster's "NewApplication" notification is saved unless the job has no poster or no employer profile; no notification it saves goes to the applicant |
| Applications.ApplicationStore.UpdateApplicationStatus | Server/Server/Services/Jobs/ApplicationService.cs:341-414 | a refused change (invalid status, unknown application, another employer's job) changes nothing; otherwise the row takes the upper-cased status, is marked viewed and stamped, the job's filled positions follow, and the candidate's "ApplicationStatus" notification is saved unless no candidate profile has the application's candidate id |
| Applications.ApplicationStore.CandidateHistory | Server/Server/Services/Jobs/ApplicationService.cs:277-338 | the loop builds exactly the candidate's history: one entry per application whose job exists, newest first, or none without a profile |
| Auth.Split | Server/Server/Services/Auth/AuthService.cs:107 | splitting gives one more piece than there are separators, and no piece holds the separator |
| Auth.SplitJoin | Server/Server/Services/Auth/AuthService.cs:107 | joining the pieces with the separator gives the string back |
| Auth.SplitWithout | Server/Server/Services/Auth/AuthService.cs:107 | a string without the separator splits into itself alone |
| Auth.SplitAfter | Server/Server/Services/Auth/AuthService.cs:107 | a first piece free of the separator is split off in front of the rest's pieces |
| Auth.HashPassword | Server/Server/Services/Auth/AuthService.cs:97-103 | the stored hash: Base64 salt, ':', Base64 derived key; its meaning is stated by HashThenVerify and VerifyAgainstHash |
| Auth.VerifyPassword | Server/Server/Services/Auth/AuthService.cs:105-114 | a stored hash without exactly one ':' never verifies, and a verified one has exactly one |
| Auth.VerifyAgainstHash | Server/Server/Services/Auth/AuthService.cs:97-114 | against a hash made from a password and salt, a password verifies exactly when it derives the same key with that salt |
| Auth.HashThenVerify | Server/Server/Services/Auth/AuthService.cs:97-114 | a freshly hashed password verifies against its hash |
| Auth.TwoPartsIffOneColon | Server/Server/Services/Auth/AuthService.cs:107-108 | a stored hash splits into two parts exactly when it holds one ':' |
| Auth.UserExistsIn | Server/Server/Services/Auth/AuthService.cs:74-77 | an address exists exactly when some account has it |
| Auth.AuthenticateIn | Server/Server/Services/Auth/AuthService.cs:19-42 | an authenticated user is an active stored account with that address whose password verifies; without an active account of that address nobody is |
| Auth.AuthenticateComplete | Server/Server/Services/Auth/AuthService.cs:19-42 | with unique addresses, the active account of that address is found exactly when its password verifies |
| Auth.RegisterThenAuthenticate | Server/Server/Services/Auth/AuthService.cs:45-66 | after a registration the new account's password authenticates it |
| Auth.ChangeOutcome | Server/Server/Services/Auth/AuthService.cs:79-95 | without an active account of that id the change fails; it succeeds only for an active account whose old password verifies |
| Auth.RehashKeepsUnique | Server/Server/Services/Auth/AuthService.cs:91-93 | replacing one hash keeps every address, so they stay unique |
| Auth.ChangeThenAuthenticate | Server/Server/Services/Auth/AuthService.cs:79-95 | after a successful change the new password authenticates the account |
| Auth.UserStore.constructor | Server/Server/Services/Auth/AuthService.cs:14-17 | the store starts with no account |
| Auth.UserStore.UserExists | Server/Server/Services/Auth/AuthService.cs:74-77 | an address exists exactly when some stored account has it |
| Auth.UserStore.Authenticate | Server/Server/Services/Auth/AuthService.cs:19-42 | an authenticated user is an active stored account with that address |
| Auth.UserStore.Register | Server/Server/Services/Auth/AuthService.cs:45-66 | a taken address is refused and nothing changes; otherwise exactly one active account with a verifying hash is added and addresses stay unique |
| Auth.UserStore.ChangePassword | Server/Server/Services/Auth/AuthService.cs:79-95 | only an active account whose old password verifies gets the new hash; no other account changes, and a refused change changes nothing |
| Auth.CurrentUserOf | Server/Server/Controllers/AuthController.cs:142-159 | a current user is reported exactly when the three session keys hold non-empty values, and it carries those values |
| Auth.LoginThenCurrentUser | Server/Server/Controllers/AuthController.cs:54-59 | a session written by a login reports that user back (also lines 142-159) |
| Auth.SessionUserId | Server/Server/Controllers/AuthController.cs:173-174 | a missing or empty session id names nobody, and a named id parses from the stored text |
| Auth.LoginSessionNamesUser | Server/Server/Controllers/AuthController.cs:56 | when the id text parses back, a login session names its user (also lines 173-174) |
| Auth.BlacklistedKey | Server/Server/Controllers/AuthController.cs:211-217 | a key is blacklisted exactly when the header starts with "Bearer ", and it is "blacklist:" followed by the trimmed token |
| Auth.AuthController.constructor | Server/Server/Controllers/AuthController.cs:21-26 | the controller starts with an empty session and an empty blacklist |
| Auth.AuthController.Login | Server/Server/Controllers/AuthController.cs:30-83 | blank credentials are refused before the store is consulted; wrong ones are refused; a login replaces the session by the user's three keys and returns the user; the blacklist is not touched |
| Auth.AuthController.Register | Server/Server/Controllers/AuthController.cs:86-139 | a mismatched confirmation, then a taken address, are refused without change; otherwise a "User" account is added and the session gains its three keys |
| Auth.AuthController.GetCurrentUser | Server/Server/Controllers/AuthController.cs:142-159 | a reported user has a non-empty id, address and role |
| Auth.AuthController.ChangePassword | Server/Server/Controllers/AuthController.cs:169-202 | an invalid session, a mismatched confirmation and an unchanged password are refused in that order without change; otherwise the service's verdict decides, and only a success replaces that account's hash |
| Auth.AuthController.Logout | Server/Server/Controllers/AuthController.cs:206-221 | the session is cleared, and a bearer token is blacklisted for one hour |
| Blogs.PublishedNewestFirst | Server/Server/Services/Blogs/BlogService.cs:35-36 | the listing order holds as many blogs as are published |
| Blogs.PublishedMembers | Server/Server/Services/Blogs/BlogService.cs:35 | a blog is listed exactly when it is stored and published |
| Blogs.BlogPage | Server/Server/Services/Blogs/BlogService.cs:30-42 | a page holds only stored published blogs, and no more than are published |
| Blogs.BlogPageIsWindow | Server/Server/Services/Blogs/BlogService.cs:35-38 | the listing is newest first, and a page is the window of it that starts at (page - 1) * pageSize and holds at most pageSize blogs |
| Blogs.TotalBlogs | Server/Server/Services/Blogs/BlogService.cs:44-47 | the count is the number of published blogs, and never more than are stored |
| Blogs.ClearedPrimaries | Server/Server/Services/Blogs/BlogService.cs:136-145 | after the clearing loop the blog has no primary image, and every other blog keeps its number of primaries |
| Blogs.UploadKeepsOnePrimary | Server/Server/Services/Blogs/BlogService.cs:135-147 | a primary upload leaves its blog exactly one primary image; a plain upload keeps the count; at most one stays at most one; other blogs are untouched |
| Blogs.FindBlog | Server/Server/Services/Blogs/BlogService.cs:75-124 | the lookup finds a blog exactly when one has the id |
| Blogs.UpdateBlogKeepsKey | Server/Server/Services/Blogs/BlogService.cs:81-85 | rewriting a blog's fields keeps every image attached to a stored blog |
| Blogs.RemoveBlogKeepsKey | Server/Server/Services/Blogs/BlogService.cs:117-118 | removing a blog together with its images keeps every remaining image attached to a stored blog |
| Blogs.UploadKeepsKey | Server/Server/Services/Blogs/BlogService.cs:130-148 | an upload to a stored blog keeps every image attached to a stored blog |
| Blogs.RemoveImageKeepsKey | Server/Server/Services/Blogs/BlogService.cs:179-180 | removing an image keeps every image attached to a stored blog |
| Blogs.RequestDeletes | Server/Server/Services/Blogs/BlogService.cs:101-114 | one delete request per image of the blog, in order, each to the image service's URL followed by the image's path |
| Blogs.BlogStore.constructor | Server/Server/Services/Blogs/BlogService.cs:18-26 | the store starts with no blog and no image |
| Blogs.BlogStore.GetAllBlogs | Server/Server/Services/Blogs/BlogService.cs:30-42 | a page holds only stored published blogs |
| Blogs.BlogStore.GetTotalBlogsCount | Server/Server/Services/Blogs/BlogService.cs:44-47 | the count is the length of the published listing |
| Blogs.BlogStore.ClearPrimaries | Server/Server/Services/Blogs/BlogService.cs:138-145 | every image of the blog loses its primary mark, nothing else changes |
| Blogs.BlogStore.UpdateBlog | Server/Server/Services/Blogs/BlogService.cs:73-88 | a missing blog gives no result and a non-author an error, both without change; the author's update rewrites title, content, publication and update time of that blog only |
| Blogs.BlogStore.DeleteBlog | Server/Server/Services/Blogs/BlogService.cs:90-120 | a missing blog gives false and a non-author an error, both without change or request; otherwise one delete request per image, and the blog and exactly its images are removed |
| Blogs.BlogStore.RemoveBlog | Server/Server/Services/Blogs/BlogService.cs:117-118 | the blog and exactly its images are removed and the foreign key still holds |
| Blogs.BlogStore.UploadBlogImage | Server/Server/Services/Blogs/BlogService.cs:122-151 | a missing blog and a non-author are refused without change; otherwise the new image is added after the blog's other primaries are cleared when it is primary |
| Blogs.BlogStore.DeleteBlogImage | Server/Server/Services/Blogs/BlogService.cs:153-182 | a missing image gives false; anyone but its uploader or the blog's author gets an error, both without change; otherwise the delete request goes out and the record is removed whatever its outcome |
| Blogs.BlogStore.RemoveImage | Server/Server/Services/Blogs/BlogService.cs:179-180 | exactly that image record is removed and the foreign key still holds |
| Profiles.CandidateMergeLaws | Server/Server/Services/Profiles/ProfileService.cs:103-115 | the candidate update keeps identity and creation time and stamps the time; an empty request changes nothing else; applying a request twice is applying it once; two requests in a row act as their field-wise combination |
| Profiles.EmployerMergeLaws | Server/Server/Services/Profiles/ProfileService.cs:279-287 | the employer update keeps identity, treats a null field as "keep", stamps the time and is idempotent |
| Profiles.CompanyMergeLaws | Server/Server/Services/Profiles/ProfileService.cs:335-343 | the company update keeps identity, code and logo even when the request sets them, stamps the time and is idempotent |
| Profiles.View | Server/Server/Services/Profiles/ProfileService.cs:313-326 | the returned name is empty exactly when the stored one is null or empty, and otherwise is the stored name (also lines 347-360, 368-381) |
| Profiles.ImagesUpToShape | Server/Server/Services/Profiles/ProfileService.cs:233-264 | at most one image record per file, each of that company, non-primary, active and by the uploader; one per file when every upload succeeds |
| Profiles.CompaniesUpTo | Server/Server/Services/Profiles/ProfileService.cs:200-231 | one company row per company entry of the request |
| Profiles.LinksUpTo | Server/Server/Services/Profiles/ProfileService.cs:200-231 | one employer-company link per company entry of the request |
| Profiles.LinksPointAtNewCompanies | Server/Server/Services/Profiles/ProfileService.cs:200-231 | every link ties the new employer profile to the company created alongside it |
| Profiles.ProfileStore.constructor | Server/Server/Services/Profiles/ProfileService.cs:14-20 | the store starts empty |
| Profiles.ProfileStore.CreateCandidateProfile | Server/Server/Services/Profiles/ProfileService.cs:66-95 | a user who has a candidate profile gets an error and nothing changes; otherwise exactly the new profile is appended |
| Profiles.ProfileStore.UpdateCandidateProfile | Server/Server/Services/Profiles/ProfileService.cs:97-120 | without a profile an error and no change; otherwise the user's profile, and nothing else, is replaced by the merge |
| Profiles.ProfileStore.CreateEmployerProfile | Server/Server/Services/Profiles/ProfileService.cs:178-271 | with no existing-profile guard, the new profile, one company and one link per entry, and an image record per accepted upload are appended; the answer is the user's first employer profile read back, the new one when the user had none and the older one otherwise |
| Profiles.CreatedEmployerReadBackIff | Server/Server/Services/Profiles/ProfileService.cs:270 | read back after a create, the user's first employer profile is the created one exactly when the user had none before |
| Profiles.ProfileStore.AddCompany | Server/Server/Services/Profiles/ProfileService.cs:200-264 | one entry's company row, its link and its accepted images are appended, nothing else changes |
| Profiles.ProfileStore.UploadCompanyImages | Server/Server/Services/Profiles/ProfileService.cs:233-264 | an image record is appended for each file the image service accepts, in order; nothing else changes |
| Profiles.ProfileStore.UpdateEmployerProfile | Server/Server/Services/Profiles/ProfileService.cs:273-292 | without a profile an error and no change; otherwise the user's employer profile, and nothing else, is replaced by the merge |
| Profiles.ProfileStore.CreateCompany | Server/Server/Services/Profiles/ProfileService.cs:295-327 | exactly the new company is appended and returned with the request's name |
| Profiles.ProfileStore.UpdateCompany | Server/Server/Services/Profiles/ProfileService.cs:329-361 | a missing company gives an error and no change; otherwise only that company is replaced by the merge and its view returned |
| Profiles.ProfileStore.GetCompany | Server/Server/Services/Profiles/ProfileService.cs:363-382 | no company is returned exactly when none has that id; a returned one has it |
| ProfileValidators.UrlRuleIff | Server/Server/Validators/Profiles/CandidateProfileCreateValidator.cs:43-51 | a link rule passes exactly when the link is null, or is within its cap and an absolute URI |
| ProfileValidators.PhoneRuleIff | Server/Server/Validators/Profiles/CandidateProfileCreateValidator.cs:14-17 | a phone rule passes exactly when the number is null or empty, or is at most 50 characters and matches the phone pattern |
| ProfileValidators.CandidateCreateRestIff | Server/Server/Validators/Profiles/CandidateProfileCreateValidator.cs:14-51 | the rules after the name pass exactly when phone, caps, age, gender, experience and links are all acceptable |
| ProfileValidators.CandidateCreateFailures | Server/Server/Validators/Profiles/CandidateProfileCreateValidator.cs:10-51 | the messages of the candidate create validator; its meaning is stated by CandidateCreateValidIff |
| ProfileValidators.CandidateCreateValidIff | Server/Server/Validators/Profiles/CandidateProfileCreateValidator.cs:10-51 | a new candidate profile passes exactly when its name is present and at most 200 characters and the shared rules hold |
| ProfileValidators.CandidateUpdateFailures | Server/Server/Validators/Profiles/CandidateProfileUpdateValidator.cs:10-55 | the messages of the candidate update validator; its meaning is stated by CandidateUpdateValidIff and CandidateCreateImpliesUpdate |
| ProfileValidators.CandidateUpdateValidIff | Server/Server/Validators/Profiles/CandidateProfileUpdateValidator.cs:10-55 | a candidate update passes exactly when a given name is at most 200 characters and the shared rules hold |
| ProfileValidators.CandidateCreateImpliesUpdate | Server/Server/Validators/Profiles/CandidateProfileUpdateValidator.cs:10-55 | every candidate profile the create rules accept, the update rules accept |
| ProfileValidators.EmptyCandidateLinkFails | Server/Server/Validators/Profiles/CandidateProfileUpdateValidator.cs:47-55 | a given but empty LinkedIn or portfolio link is refused by both forms |
| ProfileValidators.EmployerCreateFailures | Server/Server/Validators/Profiles/EmployerProfileCreateValidator.cs:10-37 | the messages of the employer create validator; its meaning is stated by EmployerCreateValidIff |
| ProfileValidators.EmployerCreateValidIff | Server/Server/Validators/Profiles/EmployerProfileCreateValidator.cs:10-37 | a new employer profile passes exactly when its display name is present and at most 200 characters and phone, caps, experience and links are acceptable |
| ProfileValidators.EmployerUpdateFailures | Server/Server/Validators/Profiles/EmployerProfileUpdateValidator.cs:10-39 | the messages of the employer update validator; its meaning is stated by EmployerUpdateValidIff and EmployerCreateImpliesUpdate |
| ProfileValidators.EmployerUpdateValidIff | Server/Server/Validators/Profiles/EmployerProfileUpdateValidator.cs:10-39 | an employer update passes exactly when a given display name is at most 200 characters and the same shared rules hold |
| ProfileValidators.EmployerCreateImpliesUpdate | Server/Server/Validators/Profiles/EmployerProfileUpdateValidator.cs:10-39 | every employer profile the create rules accept, the update rules accept |
| ProfileValidators.CompanyCreateFailures | Server/Server/Validators/Profiles/CompanyCreateValidator.cs:10-46 | the messages of the company create validator; its meaning is stated by CompanyCreateValidIff |
| ProfileValidators.CompanyCreateValidIff | Server/Server/Validators/Profiles/CompanyCreateValidator.cs:10-46 | a new company passes exactly when its name is present and at most 255 characters, website and logo are null, empty or short absolute URIs, the founding year is from 1800 to this year, and caps and contact e-mail hold |
| ProfileValidators.CompanyUpdateFailures | Server/Server/Validators/Profiles/CompanyUpdateValidator.cs:10-49 | the messages of the company update validator; its meaning is stated by CompanyUpdateValidIff, EmptyWebsiteCreateOnly and BlankLogoOnUpdate |
| ProfileValidators.CompanyUpdateValidIff | Server/Server/Validators/Profiles/CompanyUpdateValidator.cs:10-49 | a company update passes exactly when its caps hold for given values, the website is null or a short absolute URI, a given logo is non-blank, short and absolute, and year and e-mail hold |
| ProfileValidators.EmptyWebsiteCreateOnly | Server/Server/Validators/Profiles/CompanyUpdateValidator.cs:18-21 | an empty website passes the create rule but fails the update rules |
| ProfileValidators.BlankLogoOnUpdate | Server/Server/Validators/Profiles/CompanyUpdateValidator.cs:35-40 | a logo of white space only is reported as missing on update |
| ProfileValidators.CompanyUpdateIgnoresDescription | Server/Server/Validators/Profiles/CompanyUpdateValidator.cs:8-50 | the update rules give the same failures whatever the description |
| ImageService.Split | Images/main.py:57 | splitting always yields at least one piece |
| ImageService.RFind | Images/main.py:57 | the index found holds the character and none after it does; -1 means the character does not occur |
| ImageService.Suffix | Images/main.py:57 | a suffix is empty, or a dot followed by at least one character and no further dot |
| ImageService.SuffixIsLastDotText | Images/main.py:57 | the suffix is non-empty exactly when the name has a last dot that is neither its first nor its final character, and then it is the text from that dot to the end |
| ImageService.Validation | Images/main.py:43-113 | the guard chain of the upload validation, first failure wins; its meaning is stated by ValidationAccepts, ExtensionRefusedWhateverTheBytes and OversizeRefusedEvenIfDecodable |
| ImageService.ValidationAccepts | Images/main.py:43-113 | an upload is accepted exactly when it has a name, an allowed lower-cased extension, a size from 1 byte to 5 MB, an allowed or unknown MIME type and decodable content; every refusal is a 400 |
| ImageService.ExtensionRefusedWhateverTheBytes | Images/main.py:57-66 | a disallowed extension is refused whatever the content |
| ImageService.OversizeRefusedEvenIfDecodable | Images/main.py:68-80 | a file over 5 MB with an allowed extension is refused as too large before any later test |
| ImageService.SplitWithoutSeparator | Images/main.py:57 | a string without the separator splits into itself alone |
| ImageService.PlainPathName | Images/main.py:57 | a plain file name is its own last path component |
| ImageService.PhotoSuffix | Images/main.py:57 | the suffix of "photo.PNG" is ".PNG" |
| ImageService.LowerPng | Images/main.py:57 | lower-casing ".PNG" gives ".png" |
| ImageService.UpperCaseExtensionAccepted | Images/main.py:57-60 | an upper-case extension is lower-cased before the allowed set is consulted |
| ImageService.DotfileHasNoExtension | Images/main.py:57-66 | a dotfile such as ".png" has no extension, and no extension is allowed |
| ImageService.UploadFile.constructor | Images/main.py:142-145 | an uploaded file starts with its stream at the beginning |
| ImageService.UploadFile.Read | Images/main.py:159 | reading yields the bytes from the current position to the end, and leaves the stream at the end |
| ImageService.Clamp | Images/main.py:68-70 | a stream position maps into the content's bounds |
| ImageService.ValidateImageFile | Images/main.py:43-113 | validation reports the outcome the guards define, in their order, and leaves the stream where the passed guards left it |
| ImageService.AcceptedStreamIsRewound | Images/main.py:102-107 | after a successful validation the stream is back at the beginning |
| ImageService.DecoderFailureIsNotRewound | Images/main.py:102-113 | when decoding fails, the stream is left where the decoder left it, not rewound |
| ImageService.WithDirectory | Images/main.py:135-139 | the owner's directory exists afterwards; an existing one and every other directory are kept |
| ImageService.UploadEffect | Images/main.py:141-291 | what an upload handler does to the tree and answers; its meaning is stated by RefusedUploadChangesNothing, SuccessfulUploadWritesOneFile, FailedConversionKeepsDirectory and UploadThenFetch |
| ImageService.RefusedUploadChangesNothing | Images/main.py:142-148 | an upload refused by validation is an error and writes nothing, not even a directory |
| ImageService.SuccessfulUploadWritesOneFile | Images/main.py:142-178 | a successful upload writes exactly the converted bytes under a fresh ".webp" name, changes no other file, and answers with the URL under the owner kind, that name, the converted size and "image/webp" |
| ImageService.DirectoryKeepsFiles | Images/main.py:135-139 | creating a directory adds no file and changes none |
| ImageService.WriteKeepsOtherFiles | Images/main.py:168-169 | writing one file stores its bytes and leaves every other path as it was |
| ImageService.FailedConversionKeepsDirectory | Images/main.py:150-162 | a failed conversion is an error but the owner's directory stays created |
| ImageService.DeleteEffect | Images/main.py:345-426 | what a delete handler does to the tree and answers; its meaning is stated by DeleteMissing, DeleteRemovesOnlyThatFile and DirectoryRemovedOnlyByCompanyWhenEmpty |
| ImageService.DeleteMissing | Images/main.py:352-406 | deleting a missing file, or (corrected) through a "." or ".." segment, is a 404 and changes nothing |
| ImageService.DeleteRemovesOnlyThatFile | Images/main.py:345-426 | after a delete the file is gone, a later fetch is a 404, and no other file changed |
| ImageService.DirectoryRemovedOnlyByCompanyWhenEmpty | Images/main.py:396-426 | a directory disappears exactly when the company handler deleted its last file, and then the answer says so |
| ImageService.Fetch | Images/main.py:293-343 | a fetch succeeds exactly when both segments name entries (corrected) and the owner's directory holds the name, returns its bytes, and is a 404 otherwise |
| ImageService.KindsShareTheDirectory | Images/main.py:296-335 | every owner kind reads and deletes the same directory, so fetch and plain delete agree across kinds, and after a delete a fetch under any kind is a 404 |
| ImageService.DotSegmentsEscape | Images/main.py:296-300 | as written an owner id of ".." reaches a file outside `uploads` (`main.py` itself), a name of ".." is the upload root, and a name of "." is the owner's directory |
| ImageService.SafeSegmentsStayInOwnerDirectory | Images/main.py:296-300 | with segments that name entries the file opened is `uploads/owner/name`, and two keys reach the same file exactly when they are equal |
| ImageService.UploadThenFetch | Images/main.py:142-343 | an uploaded image is fetched back under any kind with its converted bytes |
| ImageService.ImageStore.constructor | Images/main.py:34-35 | the upload root starts empty |
| ImageService.ImageStore.Upload | Images/main.py:142-291 | the store's new state and the reply are those of the upload effect |
| ImageService.ImageStore.Delete | Images/main.py:345-426 | the store's new state and the reply are those of the delete effect |
| Notifications.UserNotifications | Server/Server/Data/Notifications/NotificationRepository.cs:16-23 | the list holds only that user's stored notifications, at most limit of them |
| Notifications.UserNotificationsNewestFirst | Server/Server/Data/Notifications/NotificationRepository.cs:16-23 | the list is newest first and holds min(limit, the user's count) notifications, none for a non-positive limit |
| Notifications.MarkingOneLowersCount | Server/Server/Data/Notifications/NotificationRepository.cs:25-44 | marking one unread notification read lowers its user's unread count by exactly one |
| Notifications.UserMessages | Server/Server/Data/Notifications/MessageRepository.cs:16-23 | the list holds only stored messages the user sent or received, at most limit of them |
| Notifications.UserMessagesNewestFirst | Server/Server/Data/Notifications/MessageRepository.cs:16-23 | the list is newest first over both directions |
| Notifications.Conversation | Server/Server/Data/Notifications/MessageRepository.cs:25-33 | the conversation holds only stored messages between the two users, in either direction, at most limit of them |
| Notifications.ConversationOrderAndSymmetry | Server/Server/Data/Notifications/MessageRepository.cs:25-33 | the conversation is oldest first, and the same whichever participant asks |
| Notifications.SendingKeepsSenderCount | Server/Server/Data/Notifications/MessageRepository.cs:35-45 | a new message never changes its sender's unread count, and an unread one raises its receiver's count by one |
| Notifications.NotificationStore.constructor | Server/Server/Data/Notifications/NotificationRepository.cs:11-14 | the store holds the given table |
| Notifications.NotificationStore.Create | Server/Server/Data/Notifications/NotificationRepository.cs:32-35 | exactly one notification is appended |
| Notifications.NotificationStore.MarkAsRead | Server/Server/Data/Notifications/NotificationRepository.cs:37-44 | the notification with that id becomes read and nothing else changes; an unknown id changes nothing |
| Notifications.NotificationStore.MarkAllAsRead | Server/Server/Data/Notifications/NotificationRepository.cs:46-56 | exactly the user's unread notifications become read: the user has none unread afterwards, and every other user's count is unchanged |
| Notifications.CountIfSameOn | Server/Server/Data/Notifications/NotificationRepository.cs:46-56 | rewriting only one user's rows leaves another user's unread count alone |
| Notifications.MessageStore.constructor | Server/Server/Data/Notifications/MessageRepository.cs:11-14 | the store holds the given table |
| Notifications.MessageStore.Create | Server/Server/Data/Notifications/MessageRepository.cs:42-45 | exactly one message is appended |
| Notifications.MessageStore.MarkAsRead | Server/Server/Data/Notifications/MessageRepository.cs:47-54 | the message with that id becomes read and nothing else changes; an unknown id changes nothing |
| Notifications.MessageStore.MarkConversationAsRead | Server/Server/Data/Notifications/MessageRepository.cs:56-66 | exactly the unread messages from that sender to that receiver become read, so none remain; messages the other way and from others are unchanged |

## Left out

- Foreign libraries are parameters. PIL's decode check, the WebP encoder, `mimetypes` and `uuid4` form the image service's `Codec` and its fresh names. PBKDF2, Base64, the random salt and the GUID text format are parameters of the auth model. `Uri.TryCreate`, FluentValidation's `EmailAddress` and the phone pattern are oracles of the validators. `Uri.GetLeftPart` is a parameter of the origin check. Their properties are assumed only through the preconditions of the lemmas that need them.
- The client's HTTP requests are not made. Each reply is an input: a status and a body, or a failure.
- JWT creation, the Redis connection and SignalR transport, and the database round trips are left out. Every store is the table as it stands once its changes are saved.
- The two notification helpers of the application service (`Server/Server/Services/Jobs/ApplicationService.cs:416-474` and `520-575`) catch and log every exception. Their SignalR send comes before the save, so a failed send skips the notification row. Failures are not modelled: `ApplyToJob` and `UpdateApplicationStatus` save the row whenever its skip conditions do not hold. The SignalR payload and the lookups that feed only it (the candidate's user and avatar, the company) are left out.
- The image service's operating-system failures are left out: `mkdir`, the write and `unlink` raising, and the 500 answers they lead to. The optional bearer dependency checks nothing, so it is not modelled.
- HTTP routing, CORS, security headers, logging, the exception middleware and process start-up are left out. AutoMapper profiles are written out as the field copies they perform.
- There is no concurrency. Every handler awaits its steps one after another, and each operation is modelled as one atomic step.
- SQL `ORDER BY` leaves the order of equal keys open. The model uses a stable sort, so ties keep their table order.
- Numbers are integers. Decimal salaries and JavaScript's floating point are left out. Only signed decimal integers convert: any other text is NaN here, while JavaScript also reads decimals, exponents and hexadecimal. `toLocaleString('vi-VN')` digit grouping is left out: the salary text is a datatype naming the amounts.
- String lengths count characters. .NET and JavaScript count UTF-16 code units, so the two differ for characters outside the Basic Multilingual Plane.
- Case folding is ASCII-only. .NET's `ToUpper`/`ToLower` and JavaScript's `toLowerCase` also fold other letters.
- JobListing.JobService.GetJobs: the memory cache's ten-minute sliding expiration is not modelled, so an entry never expires.
- Auth.AuthController.Logout: the blacklist records each key with its one-hour lifetime in seconds. Redis's expiry itself is not modelled.
- `GetStats`'s chart data is left out: applications by status, daily registrations, application trends, role distribution and top categories (`Server/Server/Controllers/AdminController.cs:77-148`). The counters and the activity feed are modelled.
- The manage-jobs page's profile check and initial fetch are left out (`Client/app/routes/manage-jobs.tsx:177-259`). They are network effects around the list the reducers edit.
- The authentication context (`Client/app/contexts/AuthContext.tsx`) is modelled only by what its `login` and `register` resolve to.
- UI rendering is left out: password visibility toggles, modals, toasts and layout.
- ChangePasswordForm.Dialog.Submit: the two-second `onClose` timer is a flag meaning "closing scheduled".
- `markNotificationAsRead` has the same body as `markJobAsRead`, so ApplicationNotifications.MarkJobAsRead stands for both.
- JobListing.JobsPageIsWindow: the offset `(page - 1) * pageSize` is an unbounded integer here. In the source it is a 32-bit `int` that wraps, from page 42949674 at size 50. What the database does with a wrapped or negative offset is not modelled.
- Admin.UsersPageIsWindow: the same unbounded offset. Page and size are not validated, so page 3 with size 2147483647 wraps to -2 in the source. The model then gives an empty page.
- Admin.JobsPageIsWindow: the same unbounded offset, with the same unvalidated page and size.
- Blogs.BlogPageIsWindow: the same unbounded offset, which wraps in the source for large pages.
- ImageService.Fetch: it follows the corrected handler and answers 404 for a "." or ".." segment. Files outside `uploads`, which the source serves through such segments, are not part of the tree; `DotSegmentsEscape` states where the source's path leads.
- ImageService.DeleteMissing: it follows the corrected handler, so a ".." segment unlinks nothing. The source unlinks the file outside `uploads` that the path reaches.
- ImageService.UploadEffect: an owner id of "" or "." or ".." is refused with a 400, the corrected behaviour. The source writes into the directory that the path resolves to.
- ManageJobs.MapJob: the entry's salary text and image URL are left out. The salary needs `toLocaleString` grouping and the URL the build's environment variable, and neither takes part in the reducers' list edits.

## Findings

| source | as written | input that shows it | evidently intended | confidence | as-written member | corrected member |
|---|---|---|---|---|---|---|
| Server/Server/Services/Jobs/JobService.cs:26 | the cache key joins page, size, search and category with `_`, so different queries can share a key | search "a_b" with no category, then search "a" with category "b_" | each distinct query has its own cache entry | not executed | JobListing.CacheKeyCollides, JobListing.CollidingQueriesShareAResult | JobListing.QueryCache.GetJobs |
| Server/Server/Validators/Jobs/JobCreateValidator.cs:26-30 | `.When` gates every validator before it in the chain, so `SalaryTo >= 0` and the `MaxAge` range run only when both values of the pair are given; the DTO's `[Range]` attributes (`JobCreateDto.cs` lines 21 and 37) still reject such values when MVC model validation runs, so the gap is in the validator alone | SalaryTo -5 with no SalaryFrom; MaxAge 200 with no MinAge | the sign and range checks apply whenever the value is given | not executed | JobValidators.JobCreateUngatedBounds, JobValidators.JobCreateValidIff | JobValidators.JobCreateCorrectedValidIff, JobValidators.CorrectedIsStricter |
| Client/app/routes/manage-jobs.tsx:156-159 | a new job on page 1 is put first and the list is cut to ten, although the whole list is paged on the client | ten jobs listed on page 1 and a `JobUpdated` event for an eleventh | the new job is added and no job is dropped | not executed | ManageJobs.JobUpdatedLosesAJob | ManageJobs.JobUpdatedCorrected, ManageJobs.JobUpdatedCorrectedKeepsJobs |
| Client/app/pages/auth/PostJobForm.tsx:95-100 | typed salaries are strings, so `<` compares them as text | salary from "9000000" and to "12000000" | the salaries compare as numbers | not executed | PostJobForm.SalaryOrderComparesText, PostJobForm.TextSalariesOutOfOrder | PostJobForm.SalaryOrderCorrected, PostJobForm.CorrectedOrdersNumbers |
| Client/app/components/ChangePasswordForm.tsx:46-55 | `trim.length` is the arity of `trim` (0), so every non-empty new password is "too short"; and the strength test is not negated | new password "Abcde1!" | the trimmed length is at least 6, and a password that fails the pattern is reported | not executed | ChangePasswordForm.NewPasswordAlwaysRefused, ChangePasswordForm.StrongPasswordReportedShort | ChangePasswordForm.CorrectedPassesIff, ChangePasswordForm.CorrectedPassMeetsServerNewPassword |
| Client/app/components/UserIcon.tsx:109-115 | the admin redirect reads the role from the value `login`/`register` resolve to, which is always `undefined` | an administrator signs in successfully | an administrator is sent to the admin dashboard | not executed | UserIconForm.AdminNeverRedirected | UserIconForm.CorrectedAdminRedirected |
| Server/Server/Controllers/AdminController.cs:181-190 | the bool `CanConnectAsync` returns is discarded, so only a throw marks the database Offline | the database cannot be reached and the call returns false | an unreachable database is reported Offline and the system Warning | not executed | Admin.UnreachableDatabaseReportedOnline, Admin.HealthStableIff | Admin.CorrectedHealthStableIff, Admin.DbStatus |
| Images/main.py:296-404 | `UPLOAD_DIR / owner / filename` is built from percent-decoded route segments without a check, so "." and ".." leave the owner's directory | `DELETE /images/job/%2E%2E/main.py` unlinks the service's own `main.py` | only files inside `uploads/<owner>` are served or deleted | not executed | ImageService.DotSegmentsEscape | ImageService.SafeSegmentsStayInOwnerDirectory, ImageService.Fetch |
