/**
 * Candidate profiles, employer profiles and companies: the entities, the
 * request shapes that create and update them, and the profile service's
 * operations on the profile store.
 *
 * Updates follow one rule: a field the request leaves null keeps its stored
 * value, any other field is overwritten, and `UpdatedAt` is stamped. The
 * service's exceptions are `Err` results carrying their message. Fresh
 * identifiers and the clock reading are parameters; the image service call
 * made while creating an employer profile is the parameter `upload`, whose
 * `None` stands for a call that threw.
 */
module Profiles {
  import opened Common

  datatype CandidateProfile = CandidateProfile(
    candidateId: Id, userId: Id,
    fullName: Option<string>, phone: Option<string>, headline: Option<string>,
    dateOfBirth: Option<int>, gender: Option<string>, address: Option<string>,
    educationLevel: Option<string>, experienceYears: Option<int>, skills: Option<string>,
    linkedInProfile: Option<string>, portfolioUrl: Option<string>, bio: Option<string>,
    createdAt: int, updatedAt: Option<int>)

  datatype CandidateProfileCreate = CandidateProfileCreate(
    fullName: string, phone: Option<string>, headline: Option<string>,
    dateOfBirth: Option<int>, gender: Option<string>, address: Option<string>,
    educationLevel: Option<string>, experienceYears: Option<int>, skills: Option<string>,
    linkedInProfile: Option<string>, portfolioUrl: Option<string>, bio: Option<string>)

  datatype CandidateProfileUpdate = CandidateProfileUpdate(
    fullName: Option<string>, phone: Option<string>, headline: Option<string>,
    dateOfBirth: Option<int>, gender: Option<string>, address: Option<string>,
    educationLevel: Option<string>, experienceYears: Option<int>, skills: Option<string>,
    linkedInProfile: Option<string>, portfolioUrl: Option<string>, bio: Option<string>)

  datatype EmployerProfile = EmployerProfile(
    employerId: Id, userId: Id,
    displayName: Option<string>, contactPhone: Option<string>, bio: Option<string>,
    industry: Option<string>, position: Option<string>, yearsOfExperience: Option<int>,
    linkedInProfile: Option<string>, website: Option<string>,
    createdAt: int, updatedAt: Option<int>)

  /** An uploaded form file, identified by its name and size. */
  datatype FormFile = FormFile(fileName: string, length: int)

  datatype CompanyWithImages = CompanyWithImages(
    name: string, companyCode: Option<string>, website: Option<string>,
    description: Option<string>, industry: Option<string>, companySize: Option<string>,
    foundedYear: Option<int>, logoUrl: string, address: Option<string>,
    contactEmail: Option<string>, role: string, isPrimary: Option<bool>,
    images: Option<seq<FormFile>>)

  datatype EmployerProfileCreate = EmployerProfileCreate(
    displayName: string, contactPhone: Option<string>, bio: Option<string>,
    industry: Option<string>, position: string, yearsOfExperience: Option<int>,
    linkedInProfile: Option<string>, website: Option<string>,
    companies: Option<seq<CompanyWithImages>>)

  datatype EmployerProfileUpdate = EmployerProfileUpdate(
    displayName: Option<string>, contactPhone: Option<string>, bio: Option<string>,
    industry: Option<string>, position: Option<string>, yearsOfExperience: Option<int>,
    linkedInProfile: Option<string>, website: Option<string>)

  datatype Company = Company(
    companyId: Id, name: Option<string>, companyCode: Option<string>, website: Option<string>,
    description: Option<string>, industry: Option<string>, companySize: Option<string>,
    foundedYear: Option<int>, logoUrl: Option<string>, address: Option<string>,
    contactEmail: Option<string>, createdAt: int, updatedAt: Option<int>)

  datatype CompanyCreate = CompanyCreate(
    name: string, companyCode: Option<string>, website: Option<string>,
    description: Option<string>, industry: Option<string>, companySize: Option<string>,
    foundedYear: Option<int>, logoUrl: Option<string>, address: Option<string>,
    contactEmail: Option<string>)

  datatype CompanyUpdate = CompanyUpdate(
    name: Option<string>, companyCode: Option<string>, website: Option<string>,
    description: Option<string>, industry: Option<string>, companySize: Option<string>,
    foundedYear: Option<int>, logoUrl: Option<string>, address: Option<string>,
    contactEmail: Option<string>)

  /** The company as the service returns it: the name is never null. */
  datatype CompanyView = CompanyView(
    companyId: Id, name: string, website: Option<string>, description: Option<string>,
    industry: Option<string>, companySize: Option<string>, foundedYear: Option<int>,
    address: Option<string>, contactEmail: Option<string>, createdAt: int, updatedAt: Option<int>)

  datatype EmployerCompany = EmployerCompany(
    id: Id, employerProfileId: Id, companyId: Id, role: string, isPrimary: Option<bool>)

  datatype CompanyImage = CompanyImage(
    companyImageId: Id, companyId: Id, filePath: string, fileName: string, fileSize: int,
    fileType: string, isPrimary: bool, isActive: bool, uploadedByUserId: Id, createdAt: int)

  /** A profile image (candidate or employer): only its path and primary flag matter here. */
  datatype ProfileImage = ProfileImage(filePath: Option<string>, isPrimary: Option<bool>)

  /** The image service's answer to an upload. */
  datatype UploadReply = UploadReply(
    imageUrl: Option<string>, fileName: Option<string>, fileSize: Option<int>, mimeType: Option<string>)

  /** The fresh identifiers a call draws, by position. */
  datatype FreshIds = FreshIds(
    employerId: Id, companyId: int -> Id, linkId: int -> Id, imageId: (int, int) -> Id)

  // ---------------------------------------------------------------------
  // Merges

  function MergeCandidate(p: CandidateProfile, d: CandidateProfileUpdate, now: int): CandidateProfile
  {
    p.(fullName := Patch(p.fullName, d.fullName), phone := Patch(p.phone, d.phone),
       headline := Patch(p.headline, d.headline), dateOfBirth := Patch(p.dateOfBirth, d.dateOfBirth),
       gender := Patch(p.gender, d.gender), address := Patch(p.address, d.address),
       educationLevel := Patch(p.educationLevel, d.educationLevel),
       experienceYears := Patch(p.experienceYears, d.experienceYears),
       skills := Patch(p.skills, d.skills), linkedInProfile := Patch(p.linkedInProfile, d.linkedInProfile),
       portfolioUrl := Patch(p.portfolioUrl, d.portfolioUrl), bio := Patch(p.bio, d.bio),
       updatedAt := Some(now))
  }

  /** The request that applies `first` and then `second`: a field of `second` wins when it is set. */
  function ThenCandidate(first: CandidateProfileUpdate, second: CandidateProfileUpdate): CandidateProfileUpdate
  {
    CandidateProfileUpdate(
      Patch(first.fullName, second.fullName), Patch(first.phone, second.phone),
      Patch(first.headline, second.headline), Patch(first.dateOfBirth, second.dateOfBirth),
      Patch(first.gender, second.gender), Patch(first.address, second.address),
      Patch(first.educationLevel, second.educationLevel), Patch(first.experienceYears, second.experienceYears),
      Patch(first.skills, second.skills), Patch(first.linkedInProfile, second.linkedInProfile),
      Patch(first.portfolioUrl, second.portfolioUrl), Patch(first.bio, second.bio))
  }

  /**
   * The candidate merge: identity and creation time never change, an empty
   * request only stamps the time, a request applied twice is applied once,
   * and two requests in a row act as their combination.
   */
  lemma CandidateMergeLaws(p: CandidateProfile, d: CandidateProfileUpdate, e: CandidateProfileUpdate, t: int, u: int)
    ensures var m := MergeCandidate(p, d, t);
      m.candidateId == p.candidateId && m.userId == p.userId && m.createdAt == p.createdAt && m.updatedAt == Some(t)
    ensures MergeCandidate(p, CandidateProfileUpdate(None, None, None, None, None, None, None, None, None, None, None, None), t) ==
      p.(updatedAt := Some(t))
    ensures MergeCandidate(MergeCandidate(p, d, t), d, t) == MergeCandidate(p, d, t)
    ensures MergeCandidate(MergeCandidate(p, d, t), e, u) == MergeCandidate(p, ThenCandidate(d, e), u)
  {
  }

  function MergeEmployer(p: EmployerProfile, d: EmployerProfileUpdate, now: int): EmployerProfile
  {
    p.(displayName := Patch(p.displayName, d.displayName), contactPhone := Patch(p.contactPhone, d.contactPhone),
       bio := Patch(p.bio, d.bio), industry := Patch(p.industry, d.industry),
       position := Patch(p.position, d.position), yearsOfExperience := Patch(p.yearsOfExperience, d.yearsOfExperience),
       linkedInProfile := Patch(p.linkedInProfile, d.linkedInProfile), website := Patch(p.website, d.website),
       updatedAt := Some(now))
  }

  /** The employer merge keeps identity, treats null as "keep", and is idempotent. */
  lemma EmployerMergeLaws(p: EmployerProfile, d: EmployerProfileUpdate, t: int)
    ensures var m := MergeEmployer(p, d, t);
      m.employerId == p.employerId && m.userId == p.userId && m.createdAt == p.createdAt && m.updatedAt == Some(t)
    ensures MergeEmployer(p, EmployerProfileUpdate(None, None, None, None, None, None, None, None), t) ==
      p.(updatedAt := Some(t))
    ensures MergeEmployer(MergeEmployer(p, d, t), d, t) == MergeEmployer(p, d, t)
    ensures d.displayName.Some? ==> MergeEmployer(p, d, t).displayName == d.displayName
    ensures d.displayName.None? ==> MergeEmployer(p, d, t).displayName == p.displayName
  {
  }

  /** `UpdateCompanyAsync` copies eight fields; the code and the logo are never touched. */
  function MergeCompany(c: Company, d: CompanyUpdate, now: int): Company
  {
    c.(name := Patch(c.name, d.name), website := Patch(c.website, d.website),
       description := Patch(c.description, d.description), industry := Patch(c.industry, d.industry),
       companySize := Patch(c.companySize, d.companySize), foundedYear := Patch(c.foundedYear, d.foundedYear),
       address := Patch(c.address, d.address), contactEmail := Patch(c.contactEmail, d.contactEmail),
       updatedAt := Some(now))
  }

  /** The company merge keeps identity, code and logo even when the request sets them, and is idempotent. */
  lemma CompanyMergeLaws(c: Company, d: CompanyUpdate, t: int)
    ensures var m := MergeCompany(c, d, t);
      m.companyId == c.companyId && m.createdAt == c.createdAt && m.updatedAt == Some(t) &&
      m.companyCode == c.companyCode && m.logoUrl == c.logoUrl
    ensures MergeCompany(MergeCompany(c, d, t), d, t) == MergeCompany(c, d, t)
    ensures MergeCompany(c, CompanyUpdate(None, None, None, None, None, None, None, None, None, None), t) ==
      c.(updatedAt := Some(t))
  {
  }

  /** The returned company: `Name ?? string.Empty`, the other fields as stored. */
  function View(c: Company): (v: CompanyView)
    ensures v.name == "" <==> c.name.None? || c.name == Some("")
    ensures c.name.Some? ==> v.name == c.name.value
  {
    CompanyView(c.companyId, OrElse(c.name, ""), c.website, c.description, c.industry, c.companySize,
      c.foundedYear, c.address, c.contactEmail, c.createdAt, c.updatedAt)
  }

  // ---------------------------------------------------------------------
  // What a create writes

  function NewCandidate(userId: Id, d: CandidateProfileCreate, id: Id, now: int): CandidateProfile
  {
    CandidateProfile(id, userId, Some(d.fullName), d.phone, d.headline, d.dateOfBirth, d.gender, d.address,
      d.educationLevel, d.experienceYears, d.skills, d.linkedInProfile, d.portfolioUrl, d.bio, now, None)
  }

  /** `ep.UserId == userId`, the test the employer-profile lookup applies. */
  function EmployerOfUser(userId: Id): EmployerProfile -> bool
  {
    (p: EmployerProfile) => p.userId == userId
  }

  function NewEmployer(userId: Id, d: EmployerProfileCreate, id: Id, now: int): EmployerProfile
  {
    EmployerProfile(id, userId, Some(d.displayName), d.contactPhone, d.bio, d.industry, Some(d.position),
      d.yearsOfExperience, d.linkedInProfile, d.website, now, None)
  }

  /** Read back after a create, the user's first employer profile is the created one exactly when the user had none before. */
  lemma CreatedEmployerReadBackIff(es: seq<EmployerProfile>, e: EmployerProfile)
    ensures FindIndex(es + [e], EmployerOfUser(e.userId)) == |es| <==>
      forall k :: 0 <= k < |es| ==> es[k].userId != e.userId
  {
    FindIndexAppend(es, e, EmployerOfUser(e.userId));
  }

  /** The company written for one entry of the employer's request: code and logo are not copied. */
  function NewCompanyOf(c: CompanyWithImages, id: Id, now: int): Company
  {
    Company(id, Some(c.name), None, c.website, c.description, c.industry, c.companySize, c.foundedYear,
      None, c.address, c.contactEmail, now, None)
  }

  function NewCompany(d: CompanyCreate, id: Id, now: int): Company
  {
    Company(id, Some(d.name), None, d.website, d.description, d.industry, d.companySize, d.foundedYear,
      None, d.address, d.contactEmail, now, None)
  }

  function Files(c: CompanyWithImages): seq<FormFile>
  {
    if c.images.Some? then c.images.value else []
  }

  function CompanyEntries(d: EmployerProfileCreate): seq<CompanyWithImages>
  {
    if d.companies.Some? then d.companies.value else []
  }

  /** The image record for a successful upload; missing reply fields become empty. */
  function ImageRecord(id: Id, companyId: Id, reply: UploadReply, userId: Id, now: int): CompanyImage
  {
    CompanyImage(id, companyId, OrElse(reply.imageUrl, ""), OrElse(reply.fileName, ""),
      OrElse(reply.fileSize, 0), OrElse(reply.mimeType, ""), false, true, userId, now)
  }

  /** The image records written for the first `n` files of company entry `k`: failed uploads are skipped. */
  function ImagesUpTo(ids: FreshIds, k: int, companyId: Id, files: seq<FormFile>, n: nat,
                      upload: (Id, FormFile) -> Option<UploadReply>, userId: Id, now: int): seq<CompanyImage>
    requires n <= |files|
  {
    if n == 0 then []
    else
      ImagesUpTo(ids, k, companyId, files, n - 1, upload, userId, now) +
      (if upload(companyId, files[n - 1]).Some?
       then [ImageRecord(ids.imageId(k, n - 1), companyId, upload(companyId, files[n - 1]).value, userId, now)]
       else [])
  }

  /** At most one record per file, each non-primary, active, of that company and by the uploader. */
  lemma {:induction false} ImagesUpToShape(ids: FreshIds, k: int, companyId: Id, files: seq<FormFile>, n: nat,
                                           upload: (Id, FormFile) -> Option<UploadReply>, userId: Id, now: int)
    requires n <= |files|
    ensures |ImagesUpTo(ids, k, companyId, files, n, upload, userId, now)| <= n
    ensures forall m :: 0 <= m < |ImagesUpTo(ids, k, companyId, files, n, upload, userId, now)| ==>
      var img := ImagesUpTo(ids, k, companyId, files, n, upload, userId, now)[m];
      img.companyId == companyId && !img.isPrimary && img.isActive && img.uploadedByUserId == userId
    ensures (forall j :: 0 <= j < n ==> upload(companyId, files[j]).Some?) ==>
      |ImagesUpTo(ids, k, companyId, files, n, upload, userId, now)| == n
  {
    if n > 0 {
      ImagesUpToShape(ids, k, companyId, files, n - 1, upload, userId, now);
    }
  }

  /** Every image record written for the first `m` company entries. */
  function AllImagesUpTo(ids: FreshIds, cs: seq<CompanyWithImages>, m: nat,
                         upload: (Id, FormFile) -> Option<UploadReply>, userId: Id, now: int): seq<CompanyImage>
    requires m <= |cs|
  {
    if m == 0 then []
    else
      AllImagesUpTo(ids, cs, m - 1, upload, userId, now) +
      ImagesUpTo(ids, m - 1, ids.companyId(m - 1), Files(cs[m - 1]), |Files(cs[m - 1])|, upload, userId, now)
  }

  function CompaniesUpTo(ids: FreshIds, cs: seq<CompanyWithImages>, m: nat, now: int): (r: seq<Company>)
    requires m <= |cs|
    ensures |r| == m
  {
    if m == 0 then [] else CompaniesUpTo(ids, cs, m - 1, now) + [NewCompanyOf(cs[m - 1], ids.companyId(m - 1), now)]
  }

  function LinksUpTo(ids: FreshIds, cs: seq<CompanyWithImages>, m: nat): (r: seq<EmployerCompany>)
    requires m <= |cs|
    ensures |r| == m
  {
    if m == 0 then []
    else
      var c := cs[m - 1];
      LinksUpTo(ids, cs, m - 1) + [EmployerCompany(ids.linkId(m - 1), ids.employerId, ids.companyId(m - 1), c.role, c.isPrimary)]
  }

  /** Every link written ties the new employer profile to the company created alongside it. */
  lemma {:induction false} LinksPointAtNewCompanies(ids: FreshIds, cs: seq<CompanyWithImages>, m: nat, now: int)
    requires m <= |cs|
    ensures forall k :: 0 <= k < m ==>
      LinksUpTo(ids, cs, m)[k].employerProfileId == ids.employerId &&
      LinksUpTo(ids, cs, m)[k].companyId == CompaniesUpTo(ids, cs, m, now)[k].companyId
  {
    if m > 0 {
      LinksPointAtNewCompanies(ids, cs, m - 1, now);
      var ls := LinksUpTo(ids, cs, m);
      var cos := CompaniesUpTo(ids, cs, m, now);
      forall k | 0 <= k < m
        ensures ls[k].employerProfileId == ids.employerId && ls[k].companyId == cos[k].companyId
      {
        if k < m - 1 {
          assert ls[k] == LinksUpTo(ids, cs, m - 1)[k];
          assert cos[k] == CompaniesUpTo(ids, cs, m - 1, now)[k];
        }
      }
    }
  }

  // ---------------------------------------------------------------------
  // The store

  class ProfileStore {
    var candidates: seq<CandidateProfile>
    var employers: seq<EmployerProfile>
    var companies: seq<Company>
    var links: seq<EmployerCompany>
    var companyImages: seq<CompanyImage>

    constructor ()
      ensures candidates == [] && employers == [] && companies == [] && links == [] && companyImages == []
    {
      candidates, employers, companies, links, companyImages := [], [], [], [], [];
    }

    /** `CreateCandidateProfileAsync`: a user has at most one candidate profile. */
    method CreateCandidateProfile(userId: Id, d: CandidateProfileCreate, id: Id, now: int)
      returns (r: Result<CandidateProfile, string>)
      modifies this
      ensures FindIndex(old(candidates), (p: CandidateProfile) => p.userId == userId) >= 0 ==>
        r == Err("Candidate profile already exists for this user") && candidates == old(candidates)
      ensures FindIndex(old(candidates), (p: CandidateProfile) => p.userId == userId) < 0 ==>
        r == Ok(NewCandidate(userId, d, id, now)) && candidates == old(candidates) + [NewCandidate(userId, d, id, now)]
      ensures employers == old(employers) && companies == old(companies) &&
        links == old(links) && companyImages == old(companyImages)
    {
      var i := FindIndex(candidates, (p: CandidateProfile) => p.userId == userId);
      if i >= 0 {
        return Err("Candidate profile already exists for this user");
      }
      var profile := NewCandidate(userId, d, id, now);
      candidates := candidates + [profile];
      r := Ok(profile);
    }

    /** `UpdateCandidateProfileAsync`: the merge on the user's profile, or an error when there is none. */
    method UpdateCandidateProfile(userId: Id, d: CandidateProfileUpdate, now: int)
      returns (r: Result<CandidateProfile, string>)
      modifies this
      ensures var i := FindIndex(old(candidates), (p: CandidateProfile) => p.userId == userId);
        if i < 0 then r == Err("Candidate profile not found") && candidates == old(candidates)
        else (r == Ok(MergeCandidate(old(candidates)[i], d, now)) &&
          candidates == old(candidates)[i := MergeCandidate(old(candidates)[i], d, now)])
      ensures employers == old(employers) && companies == old(companies) &&
        links == old(links) && companyImages == old(companyImages)
    {
      var i := FindIndex(candidates, (p: CandidateProfile) => p.userId == userId);
      if i < 0 {
        return Err("Candidate profile not found");
      }
      var merged := MergeCandidate(candidates[i], d, now);
      candidates := candidates[i := merged];
      r := Ok(merged);
    }

    /**
     * `CreateEmployerProfileAsync`: there is no existing-profile check. The
     * profile, then for each company entry a company and a link, then one
     * image record per successful upload of that entry's files; a failed
     * upload is skipped and the loop goes on. The answer is the user's first
     * employer profile read back, which is an older one when the user had one.
     */
    method CreateEmployerProfile(userId: Id, d: EmployerProfileCreate, ids: FreshIds,
                                 upload: (Id, FormFile) -> Option<UploadReply>, now: int)
      returns (r: EmployerProfile)
      modifies this
      ensures employers == old(employers) + [NewEmployer(userId, d, ids.employerId, now)]
      ensures var i := FindIndex(old(employers), EmployerOfUser(userId));
        r == if i < 0 then NewEmployer(userId, d, ids.employerId, now) else old(employers)[i]
      ensures companies == old(companies) + CompaniesUpTo(ids, CompanyEntries(d), |CompanyEntries(d)|, now)
      ensures links == old(links) + LinksUpTo(ids, CompanyEntries(d), |CompanyEntries(d)|)
      ensures companyImages == old(companyImages) + AllImagesUpTo(ids, CompanyEntries(d), |CompanyEntries(d)|, upload, userId, now)
      ensures candidates == old(candidates)
    {
      var created := NewEmployer(userId, d, ids.employerId, now);
      employers := employers + [created];
      var cs := CompanyEntries(d);
      var k := 0;
      while k < |cs|
        invariant 0 <= k <= |cs|
        invariant employers == old(employers) + [created] && candidates == old(candidates)
        invariant companies == old(companies) + CompaniesUpTo(ids, cs, k, now)
        invariant links == old(links) + LinksUpTo(ids, cs, k)
        invariant companyImages == old(companyImages) + AllImagesUpTo(ids, cs, k, upload, userId, now)
      {
        AddCompany(ids, cs, k, upload, userId, now);
        AppendAssoc(old(companies), CompaniesUpTo(ids, cs, k, now), [NewCompanyOf(cs[k], ids.companyId(k), now)]);
        AppendAssoc(old(links), LinksUpTo(ids, cs, k),
          [EmployerCompany(ids.linkId(k), ids.employerId, ids.companyId(k), cs[k].role, cs[k].isPrimary)]);
        AppendAssoc(old(companyImages), AllImagesUpTo(ids, cs, k, upload, userId, now),
          ImagesUpTo(ids, k, ids.companyId(k), Files(cs[k]), |Files(cs[k])|, upload, userId, now));
        k := k + 1;
      }
      FindIndexAppend(old(employers), created, EmployerOfUser(userId));
      r := employers[FindIndex(employers, EmployerOfUser(userId))];
    }

    /** The company at index `k`: its row, its link to the new profile, and its images. */
    method AddCompany(ids: FreshIds, cs: seq<CompanyWithImages>, k: nat,
                      upload: (Id, FormFile) -> Option<UploadReply>, userId: Id, now: int)
      requires k < |cs|
      modifies this
      ensures companies == old(companies) + [NewCompanyOf(cs[k], ids.companyId(k), now)]
      ensures links == old(links) +
        [EmployerCompany(ids.linkId(k), ids.employerId, ids.companyId(k), cs[k].role, cs[k].isPrimary)]
      ensures companyImages == old(companyImages) +
        ImagesUpTo(ids, k, ids.companyId(k), Files(cs[k]), |Files(cs[k])|, upload, userId, now)
      ensures candidates == old(candidates) && employers == old(employers)
    {
      var companyId := ids.companyId(k);
      companies := companies + [NewCompanyOf(cs[k], companyId, now)];
      links := links + [EmployerCompany(ids.linkId(k), ids.employerId, companyId, cs[k].role, cs[k].isPrimary)];
      UploadCompanyImages(ids, k, companyId, Files(cs[k]), upload, userId, now);
    }

    /** One company's uploads in turn: a record for each file the image service accepts. */
    method UploadCompanyImages(ids: FreshIds, k: int, companyId: Id, files: seq<FormFile>,
                               upload: (Id, FormFile) -> Option<UploadReply>, userId: Id, now: int)
      modifies this
      ensures companyImages == old(companyImages) + ImagesUpTo(ids, k, companyId, files, |files|, upload, userId, now)
      ensures candidates == old(candidates) && employers == old(employers) && companies == old(companies) &&
        links == old(links)
    {
      var j := 0;
      while j < |files|
        invariant 0 <= j <= |files|
        invariant companyImages == old(companyImages) + ImagesUpTo(ids, k, companyId, files, j, upload, userId, now)
        invariant candidates == old(candidates) && employers == old(employers) && companies == old(companies) &&
          links == old(links)
      {
        var reply := upload(companyId, files[j]);
        if reply.Some? {
          companyImages := companyImages + [ImageRecord(ids.imageId(k, j), companyId, reply.value, userId, now)];
        }
        j := j + 1;
      }
    }

    /** `UpdateEmployerProfileAsync`. */
    method UpdateEmployerProfile(userId: Id, d: EmployerProfileUpdate, now: int)
      returns (r: Result<EmployerProfile, string>)
      modifies this
      ensures var i := FindIndex(old(employers), (p: EmployerProfile) => p.userId == userId);
        if i < 0 then r == Err("Employer profile not found") && employers == old(employers)
        else (r == Ok(MergeEmployer(old(employers)[i], d, now)) &&
          employers == old(employers)[i := MergeEmployer(old(employers)[i], d, now)])
      ensures candidates == old(candidates) && companies == old(companies) &&
        links == old(links) && companyImages == old(companyImages)
    {
      var i := FindIndex(employers, (p: EmployerProfile) => p.userId == userId);
      if i < 0 {
        return Err("Employer profile not found");
      }
      var merged := MergeEmployer(employers[i], d, now);
      employers := employers[i := merged];
      r := Ok(merged);
    }

    /** `CreateCompanyAsync`. */
    method CreateCompany(d: CompanyCreate, id: Id, now: int) returns (v: CompanyView)
      modifies this
      ensures companies == old(companies) + [NewCompany(d, id, now)]
      ensures v == View(NewCompany(d, id, now)) && v.name == d.name
      ensures candidates == old(candidates) && employers == old(employers) &&
        links == old(links) && companyImages == old(companyImages)
    {
      var c := NewCompany(d, id, now);
      companies := companies + [c];
      v := View(c);
    }

    /** `UpdateCompanyAsync`. */
    method UpdateCompany(companyId: Id, d: CompanyUpdate, now: int) returns (r: Result<CompanyView, string>)
      modifies this
      ensures var i := FindIndex(old(companies), (c: Company) => c.companyId == companyId);
        if i < 0 then r == Err("Company not found") && companies == old(companies)
        else (r == Ok(View(MergeCompany(old(companies)[i], d, now))) &&
          companies == old(companies)[i := MergeCompany(old(companies)[i], d, now)])
      ensures candidates == old(candidates) && employers == old(employers) &&
        links == old(links) && companyImages == old(companyImages)
    {
      var i := FindIndex(companies, (c: Company) => c.companyId == companyId);
      if i < 0 {
        return Err("Company not found");
      }
      var merged := MergeCompany(companies[i], d, now);
      companies := companies[i := merged];
      r := Ok(View(merged));
    }

    /** `GetCompanyByIdAsync`. */
    function GetCompany(companyId: Id): (r: Option<CompanyView>)
      reads this
      ensures r.None? <==> forall k :: 0 <= k < |companies| ==> companies[k].companyId != companyId
      ensures r.Some? ==> r.value.companyId == companyId
    {
      var c := First(companies, (c: Company) => c.companyId == companyId);
      if c.Some? then Some(View(c.value)) else None
    }
  }
}
