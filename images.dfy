/**
 * The image ingestion service (`Images/main.py`): it validates an uploaded
 * image, converts it to WebP and stores it under `uploads/<ownerId>/`, serves
 * stored files back and deletes them.
 *
 * The upload directory is the map `dirs` from owner id to that owner's
 * directory, a map from file name to bytes; an owner id absent from `dirs`
 * has no directory. The raster library, `mimetypes` and `uuid4` are foreign:
 * they are the `Codec` parameter and the fresh names passed to `Upload`.
 */
module ImageService {
  import opened Common
  import opened Text

  newtype byte = x: int | 0 <= x < 256

  const MaxFileSize: int := 5 * 1024 * 1024
  const AllowedExtensions: set<string> := {".png", ".jpg", ".jpeg", ".jfif", ".webp"}
  const AllowedMimeTypes: set<string> := {"image/png", "image/jpeg", "image/webp", "image/pjpeg"}
  const WebpQuality: int := 85

  /** The four URL families; the kind appears in returned URLs, never on disk. */
  datatype OwnerKind = Candidate | Employer | Company | Job

  function KindSegment(k: OwnerKind): string
  {
    match k
    case Candidate => "candidate"
    case Employer => "employer"
    case Company => "company"
    case Job => "job"
  }

  /** The foreign behaviour the service relies on. */
  datatype Codec = Codec(
    /** `mimetypes.guess_type(filename)[0]` */
    guessType: string -> Option<string>,
    /** `Image.open(stream)` followed by `verify()` raises nothing */
    decodes: seq<byte> -> bool,
    /** where the stream position is left when opening or verifying raised */
    failedProbePosition: seq<byte> -> int,
    /** `convert_to_webp(bytes, quality)`; `None` when it raises */
    toWebp: (seq<byte>, int) -> Option<seq<byte>>)

  /** The HTTP errors the handlers raise. */
  datatype ImageError =
    | NoFile              // 400 "No file provided or invalid file upload."
    | ExtensionNotAllowed // 400 "File type not allowed. ..."
    | TooLarge            // 400 "File size too large. ..."
    | EmptyFile           // 400 "File is empty. ..."
    | InvalidMime         // 400 "Invalid MIME type. ..."
    | NotAnImage          // 400 "Invalid image file. ..."
    | ConversionFailed    // 500 "Failed to convert image: ..."
    | NotFound            // 404 "Image not found"
    | InvalidSegment      // 400, the corrected refusal of an owner id of "" or "." or ".."

  function Status(e: ImageError): int
  {
    match e
    case ConversionFailed => 500
    case NotFound => 404
    case _ => 400
  }

  // ---------------------------------------------------------------------
  // pathlib: `Path(filename).suffix.lower()`

  /** `s.split(sep)` */
  function Split(s: string, sep: char): (r: seq<string>)
    ensures |r| >= 1
  {
    if s == [] then [""]
    else
      var rest := Split(s[1..], sep);
      if s[0] == sep then [""] + rest else [[s[0]] + rest[0]] + rest[1..]
  }

  /** `PurePosixPath(p).name`: the last component, ignoring empty and "." ones. */
  function PathName(p: string): string
  {
    var kept := Filter(Split(p, '/'), (c: string) => c != "" && c != ".");
    if kept == [] then "" else kept[|kept| - 1]
  }

  /** `name.rfind(c)` */
  function RFind(s: string, c: char): (r: int)
    ensures -1 <= r < |s|
    ensures r >= 0 ==> s[r] == c && forall i :: r < i < |s| ==> s[i] != c
    ensures r == -1 ==> forall i :: 0 <= i < |s| ==> s[i] != c
  {
    if s == [] then -1
    else if s[|s| - 1] == c then |s| - 1
    else RFind(s[..|s| - 1], c)
  }

  /** `PurePath.suffix`: from the last dot, unless it leads or ends the name. */
  function Suffix(name: string): (r: string)
    ensures r == "" || (r[0] == '.' && |r| >= 2 && forall i :: 1 <= i < |r| ==> r[i] != '.')
  {
    var i := RFind(name, '.');
    if 0 < i < |name| - 1 then name[i..] else ""
  }

  /**
   * The suffix is the text from the last dot of the name to its end, when
   * there is a last dot that is neither the first nor the final character.
   */
  lemma SuffixIsLastDotText(name: string)
    ensures Suffix(name) != "" <==>
      exists i :: 0 < i < |name| - 1 && name[i] == '.' && forall j :: i < j < |name| ==> name[j] != '.'
    ensures Suffix(name) != "" ==> 2 <= |Suffix(name)| < |name| && Suffix(name) == name[|name| - |Suffix(name)|..]
  {
    var k := RFind(name, '.');
    if 0 < k < |name| - 1 {
      assert name[k] == '.' && forall j :: k < j < |name| ==> name[j] != '.';
    }
  }

  function Extension(filename: string): string
  {
    Lower(Suffix(PathName(filename)))
  }

  // ---------------------------------------------------------------------
  // validate_image_file

  /**
   * The guard chain of `validate_image_file`, first failure wins: a file
   * name, an allowed extension, at most `MaxFileSize` bytes, then at least
   * one byte, an acceptable MIME guess, and content the decoder accepts.
   */
  function Validation(filename: Option<string>, content: seq<byte>, codec: Codec): Option<ImageError>
  {
    if filename.None? || filename.value == "" then Some(NoFile)
    else if Extension(filename.value) !in AllowedExtensions then Some(ExtensionNotAllowed)
    else if |content| > MaxFileSize then Some(TooLarge)
    else if |content| == 0 then Some(EmptyFile)
    else if codec.guessType(filename.value).Some? && codec.guessType(filename.value).value !in AllowedMimeTypes then Some(InvalidMime)
    else if !codec.decodes(content) then Some(NotAnImage)
    else None
  }

  /** An upload passes exactly when every guard passes. */
  lemma ValidationAccepts(filename: Option<string>, content: seq<byte>, codec: Codec)
    ensures Validation(filename, content, codec) == None <==>
      filename.Some? && filename.value != "" &&
      Extension(filename.value) in AllowedExtensions &&
      0 < |content| <= MaxFileSize &&
      (codec.guessType(filename.value).None? || codec.guessType(filename.value).value in AllowedMimeTypes) &&
      codec.decodes(content)
    ensures Validation(filename, content, codec) != None ==> Status(Validation(filename, content, codec).value) == 400
  {
  }

  /** A disallowed extension is refused whatever the bytes are. */
  lemma ExtensionRefusedWhateverTheBytes(name: string, content: seq<byte>, codec: Codec)
    requires name != "" && Extension(name) !in AllowedExtensions
    ensures Validation(Some(name), content, codec) == Some(ExtensionNotAllowed)
  {
  }

  /** The ceiling is checked before emptiness, MIME and decoding. */
  lemma OversizeRefusedEvenIfDecodable(name: string, content: seq<byte>, codec: Codec)
    requires name != "" && Extension(name) in AllowedExtensions && |content| > MaxFileSize
    ensures Validation(Some(name), content, codec) == Some(TooLarge)
  {
  }

  lemma {:induction false} SplitWithoutSeparator(s: string, sep: char)
    requires forall i :: 0 <= i < |s| ==> s[i] != sep
    ensures Split(s, sep) == [s]
  {
    if s != [] {
      SplitWithoutSeparator(s[1..], sep);
      assert [s[0]] + s[1..] == s;
    }
  }

  /** A plain file name (no '/', not "" or ".") is its own `name`. */
  lemma PlainPathName(s: string)
    requires forall i :: 0 <= i < |s| ==> s[i] != '/'
    requires s != "" && s != "."
    ensures PathName(s) == s
  {
    SplitWithoutSeparator(s, '/');
  }

  lemma PhotoSuffix()
    ensures Suffix("photo.PNG") == ".PNG"
  {
    assert "photo.PNG"[..8] == "photo.PN" && "photo.PN"[..7] == "photo.P" && "photo.P"[..6] == "photo.";
    assert RFind("photo.", '.') == 5;
    assert RFind("photo.PNG", '.') == 5;
  }

  lemma LowerPng()
    ensures Lower(".PNG") == ".png"
  {
    var l := Lower(".PNG");
    assert l[0] == '.' && l[1] == 'p' && l[2] == 'n' && l[3] == 'g';
  }

  /** The extension is a lower-cased suffix: an upper-case one is still accepted. */
  lemma UpperCaseExtensionAccepted()
    ensures Extension("photo.PNG") == ".png"
  {
    PlainPathName("photo.PNG");
    PhotoSuffix();
    LowerPng();
  }

  /** A dotfile such as ".png" has no suffix, so it is refused. */
  lemma DotfileHasNoExtension()
    ensures Extension(".png") == ""
    ensures "" !in AllowedExtensions
  {
    PlainPathName(".png");
    assert RFind(".png", '.') == 0;
  }

  /** An uploaded file: its name and bytes, and the stream position that moves. */
  class UploadFile {
    const filename: Option<string>
    const content: seq<byte>
    var position: int

    constructor(filename: Option<string>, content: seq<byte>)
      ensures this.filename == filename && this.content == content && position == 0
    {
      this.filename := filename;
      this.content := content;
      position := 0;
    }

    /** `file.read()`: the bytes from the position to the end. */
    method Read() returns (data: seq<byte>)
      modifies this
      ensures data == content[Clamp(old(position), |content|)..]
      ensures position == |content|
    {
      data := content[Clamp(position, |content|)..];
      position := |content|;
    }
  }

  /** A stream position as an offset into `n` bytes. */
  function Clamp(p: int, n: nat): (r: nat)
    ensures r <= n
  {
    if p < 0 then 0 else if p > n then n else p
  }

  /** Where `validate_image_file` leaves the stream. */
  function PositionAfterValidation(outcome: Option<ImageError>, before: int, content: seq<byte>, codec: Codec): int
  {
    match outcome
    case Some(NoFile) => before
    case Some(ExtensionNotAllowed) => before
    case Some(NotAnImage) => codec.failedProbePosition(content)
    case _ => 0
  }

  /**
   * `validate_image_file`: measures the size by seeking to the end and back
   * to 0, and rewinds again only after the decoder accepted the bytes.
   */
  method ValidateImageFile(file: UploadFile, codec: Codec) returns (outcome: Option<ImageError>)
    modifies file
    ensures outcome == Validation(file.filename, file.content, codec)
    ensures file.position == PositionAfterValidation(outcome, old(file.position), file.content, codec)
  {
    if file.filename.None? || file.filename.value == "" {
      return Some(NoFile);
    }
    var ext := Extension(file.filename.value);
    if ext !in AllowedExtensions {
      return Some(ExtensionNotAllowed);
    }
    file.position := |file.content|;
    var size := file.position;
    file.position := 0;
    if size > MaxFileSize {
      return Some(TooLarge);
    }
    if size == 0 {
      return Some(EmptyFile);
    }
    var mime := codec.guessType(file.filename.value);
    if mime.Some? && mime.value !in AllowedMimeTypes {
      return Some(InvalidMime);
    }
    if !codec.decodes(file.content) {
      file.position := codec.failedProbePosition(file.content);
      return Some(NotAnImage);
    }
    file.position := 0;
    return None;
  }

  /** A successful validation always leaves the stream rewound. */
  lemma AcceptedStreamIsRewound(filename: Option<string>, before: int, content: seq<byte>, codec: Codec)
    requires Validation(filename, content, codec) == None
    ensures PositionAfterValidation(None, before, content, codec) == 0
  {
  }

  /** A decoder failure leaves the stream wherever the decoder left it. */
  lemma DecoderFailureIsNotRewound(name: string, before: int, content: seq<byte>, codec: Codec)
    requires Validation(Some(name), content, codec) == Some(NotAnImage)
    requires codec.failedProbePosition(content) != 0
    ensures PositionAfterValidation(Validation(Some(name), content, codec), before, content, codec) != 0
  {
  }

  // ---------------------------------------------------------------------
  // Paths on disk: `UPLOAD_DIR / owner / name`

  const UploadDir: string := "uploads"

  /**
   * One step of resolving a relative path: "" and "." stay put, ".." goes up
   * one directory (or above the starting directory), a name goes down. This
   * is lexical resolution, which agrees with the kernel's when every
   * directory on the way exists and none is a symbolic link.
   */
  function Step(dir: seq<string>, segment: string): seq<string>
  {
    if segment == "" || segment == "." then dir
    else if segment == ".." then
      (if dir == [] || dir[|dir| - 1] == ".." then dir + [".."] else dir[..|dir| - 1])
    else dir + [segment]
  }

  function Resolve(segments: seq<string>): seq<string>
  {
    if segments == [] then [] else Step(Resolve(segments[..|segments| - 1]), segments[|segments| - 1])
  }

  /**
   * The file the handlers open for an owner id and a file name taken from the
   * URL. Route parameters match `[^/]+` after percent-decoding, so neither
   * holds a '/', but either may be "." or "..", and the source checks neither.
   */
  function DiskPath(owner: string, name: string): (r: seq<string>)
    ensures r == Step(Step([UploadDir], owner), name)
  {
    var p := [UploadDir, owner, name];
    assert p[..2] == [UploadDir, owner] && p[..2][..1] == [UploadDir] && p[..2][..1][..0] == [];
    assert Resolve([UploadDir]) == Step([], UploadDir) == [UploadDir];
    assert Resolve([UploadDir, owner]) == Step([UploadDir], owner);
    assert Resolve(p) == Step(Resolve([UploadDir, owner]), name);
    Resolve(p)
  }

  /** A path segment that names an entry: the corrected handlers accept only these. */
  predicate SafeSegment(s: string)
  {
    s != "" && s != "." && s != ".."
  }

  /**
   * As written, an owner id or a file name of ".." leaves the owner's
   * directory: `/images/job/%2E%2E/main.py` reaches the service's own
   * `main.py`, and a name of "." is the owner's directory itself.
   */
  lemma DotSegmentsEscape()
    ensures DiskPath("..", "main.py") == ["main.py"]
    ensures DiskPath("a", "..") == [UploadDir]
    ensures DiskPath("a", ".") == [UploadDir, "a"]
    ensures !SafeSegment("..") && !SafeSegment(".")
  {
    assert [UploadDir, "a"][..1] == [UploadDir];
  }

  /**
   * With segments that name entries, the file opened is `uploads/owner/name`,
   * so two different keys never reach the same file and the keyed tree
   * below is exactly what is on disk.
   */
  lemma SafeSegmentsStayInOwnerDirectory(owner: string, name: string, owner2: string, name2: string)
    requires SafeSegment(owner) && SafeSegment(name)
    requires SafeSegment(owner2) && SafeSegment(name2)
    ensures DiskPath(owner, name) == [UploadDir, owner, name]
    ensures DiskPath(owner, name) == DiskPath(owner2, name2) <==> owner == owner2 && name == name2
  {
    var p, p2 := DiskPath(owner, name), DiskPath(owner2, name2);
    if p == p2 {
      assert p[1] == p2[1] && p[2] == p2[2];
    }
  }

  // ---------------------------------------------------------------------
  // The directory tree

  type Tree = map<string, map<string, seq<byte>>>

  /** `create_user_directory`: `mkdir(exist_ok=True)` keeps an existing directory. */
  function WithDirectory(dirs: Tree, owner: string): (r: Tree)
    ensures owner in r && r.Keys == dirs.Keys + {owner}
    ensures owner in dirs ==> r == dirs
    ensures owner !in dirs ==> r[owner] == map[]
    ensures forall o :: o in dirs && o != owner ==> r[o] == dirs[o]
  {
    if owner in dirs then dirs else dirs[owner := map[]]
  }

  /** `(UPLOAD_DIR / owner / name).exists()` and the bytes found there. */
  function FileAt(dirs: Tree, owner: string, name: string): Option<seq<byte>>
  {
    if owner in dirs && name in dirs[owner] then Some(dirs[owner][name]) else None
  }

  datatype UploadResponse = UploadResponse(imageUrl: string, fileName: string, fileSize: int, mimeType: string)

  datatype UploadOutcome = UploadOutcome(dirs: Tree, result: Result<UploadResponse, ImageError>)

  /**
   * What an upload handler does to the tree and answers, given the name
   * `freshName` that `uuid4()` yields for the WebP file. An owner id that
   * does not name an entry is refused first (the corrected handler).
   */
  function UploadEffect(dirs: Tree, kind: OwnerKind, owner: string, filename: Option<string>,
                        content: seq<byte>, codec: Codec, freshName: string): UploadOutcome
  {
    var v := Validation(filename, content, codec);
    if !SafeSegment(owner) then UploadOutcome(dirs, Err(InvalidSegment))
    else if v.Some? then UploadOutcome(dirs, Err(v.value))
    else
      var withDir := WithDirectory(dirs, owner);
      var webp := codec.toWebp(content, WebpQuality);
      if webp.None? then UploadOutcome(withDir, Err(ConversionFailed))
      else
        var name := freshName + ".webp";
        UploadOutcome(withDir[owner := withDir[owner][name := webp.value]],
               Ok(UploadResponse("/images/" + KindSegment(kind) + "/" + owner + "/" + name,
                                 name, |webp.value|, "image/webp")))
  }

  /** A refused upload changes nothing on disk. */
  lemma RefusedUploadChangesNothing(dirs: Tree, kind: OwnerKind, owner: string, filename: Option<string>,
                                    content: seq<byte>, codec: Codec, freshName: string)
    requires Validation(filename, content, codec).Some?
    ensures UploadEffect(dirs, kind, owner, filename, content, codec, freshName).dirs == dirs
    ensures UploadEffect(dirs, kind, owner, filename, content, codec, freshName).result.Err?
  {
  }

  /**
   * A successful upload writes one file, `freshName.webp` under `owner`, with the
   * converted bytes, leaves every other file as it was, and answers with the
   * URL under the owner kind, the file name, the converted length and
   * "image/webp".
   */
  lemma SuccessfulUploadWritesOneFile(dirs: Tree, kind: OwnerKind, owner: string, filename: Option<string>,
                                      content: seq<byte>, codec: Codec, freshName: string)
    requires UploadEffect(dirs, kind, owner, filename, content, codec, freshName).result.Ok?
    ensures var u := UploadEffect(dirs, kind, owner, filename, content, codec, freshName);
      var name := freshName + ".webp";
      var webp := codec.toWebp(content, WebpQuality).value;
      SafeSegment(owner) && SafeSegment(name) && Validation(filename, content, codec) == None &&
      FileAt(u.dirs, owner, name) == Some(webp) &&
      (forall o, n :: (o != owner || n != name) ==> FileAt(u.dirs, o, n) == FileAt(dirs, o, n)) &&
      u.result.value == UploadResponse("/images/" + KindSegment(kind) + "/" + owner + "/" + name,
                                       name, |webp|, "image/webp")
  {
    var withDir := WithDirectory(dirs, owner);
    var name := freshName + ".webp";
    var webp := codec.toWebp(content, WebpQuality).value;
    DirectoryKeepsFiles(dirs, owner);
    WriteKeepsOtherFiles(withDir, owner, name, webp);
  }

  /** Creating a directory adds no file. */
  lemma DirectoryKeepsFiles(dirs: Tree, owner: string)
    ensures forall o, n :: FileAt(WithDirectory(dirs, owner), o, n) == FileAt(dirs, o, n)
  {
  }

  /** Writing one file leaves every other path as it was. */
  lemma WriteKeepsOtherFiles(t: Tree, owner: string, name: string, bytes: seq<byte>)
    requires owner in t
    ensures FileAt(t[owner := t[owner][name := bytes]], owner, name) == Some(bytes)
    ensures forall o, n :: (o != owner || n != name) ==>
      FileAt(t[owner := t[owner][name := bytes]], o, n) == FileAt(t, o, n)
  {
  }

  /** A failed conversion still leaves the owner's directory created. */
  lemma FailedConversionKeepsDirectory(dirs: Tree, kind: OwnerKind, owner: string, filename: Option<string>,
                                       content: seq<byte>, codec: Codec, freshName: string)
    requires SafeSegment(owner)
    requires Validation(filename, content, codec) == None && codec.toWebp(content, WebpQuality).None?
    ensures var u := UploadEffect(dirs, kind, owner, filename, content, codec, freshName);
      u.result == Err(ConversionFailed) && Status(u.result.error) == 500 &&
      owner in u.dirs && u.dirs == WithDirectory(dirs, owner)
  {
  }

  datatype DeleteOutcome = DeleteOutcome(dirs: Tree, result: Result<string, ImageError>)

  const DeletedMessage := "Image deleted successfully"
  const DeletedWithDirectoryMessage := "Image deleted successfully and directory removed"

  /**
   * A delete handler: 404 for a missing file, or (corrected) for a segment
   * that does not name an entry; otherwise the file is unlinked, and the
   * company handler alone also removes the directory when that left it
   * empty (a non-empty directory's `rmdir` error is swallowed).
   */
  function DeleteEffect(dirs: Tree, kind: OwnerKind, owner: string, name: string): DeleteOutcome
  {
    if !SafeSegment(owner) || !SafeSegment(name) || FileAt(dirs, owner, name).None? then
      DeleteOutcome(dirs, Err(NotFound))
    else
      var rest := dirs[owner] - {name};
      if kind == Company && rest == map[] then DeleteOutcome(dirs - {owner}, Ok(DeletedWithDirectoryMessage))
      else DeleteOutcome(dirs[owner := rest], Ok(DeletedMessage))
  }

  /** Deleting a missing file, or through a "." or ".." segment, is a 404 and changes nothing. */
  lemma DeleteMissing(dirs: Tree, kind: OwnerKind, owner: string, name: string)
    requires !SafeSegment(owner) || !SafeSegment(name) || FileAt(dirs, owner, name).None?
    ensures DeleteEffect(dirs, kind, owner, name) == DeleteOutcome(dirs, Err(NotFound))
  {
  }

  /** After a delete the file is gone (a later fetch is a 404) and no other file changed. */
  lemma DeleteRemovesOnlyThatFile(dirs: Tree, kind: OwnerKind, owner: string, name: string)
    requires SafeSegment(owner) && SafeSegment(name) && FileAt(dirs, owner, name).Some?
    ensures var d := DeleteEffect(dirs, kind, owner, name);
      d.result.Ok? && Fetch(d.dirs, kind, owner, name) == Err(NotFound) &&
      forall o, n :: (o != owner || n != name) ==> FileAt(d.dirs, o, n) == FileAt(dirs, o, n)
  {
    var d := DeleteEffect(dirs, kind, owner, name);
    forall o, n | o != owner || n != name
      ensures FileAt(d.dirs, o, n) == FileAt(dirs, o, n)
    {
      if o == owner && owner !in d.dirs {
        var rest := dirs[owner] - {name};
        assert n !in rest;
        assert n !in dirs[owner];
      }
    }
  }

  /**
   * Only the company handler removes a directory, and only when the deleted
   * file was its last one; the other kinds keep even an empty directory.
   */
  lemma DirectoryRemovedOnlyByCompanyWhenEmpty(dirs: Tree, kind: OwnerKind, owner: string, name: string)
    requires SafeSegment(owner) && SafeSegment(name) && FileAt(dirs, owner, name).Some?
    ensures var d := DeleteEffect(dirs, kind, owner, name);
      (owner !in d.dirs <==> kind == Company && dirs[owner].Keys == {name}) &&
      (owner !in d.dirs <==> d.result == Ok(DeletedWithDirectoryMessage)) &&
      d.dirs.Keys + {owner} == dirs.Keys
  {
    var rest := dirs[owner] - {name};
    assert rest == map[] <==> dirs[owner].Keys == {name} by {
      if dirs[owner].Keys == {name} {
        assert rest.Keys == {};
      }
      if rest == map[] {
        assert forall k :: k in dirs[owner] ==> k == name by {
          forall k | k in dirs[owner] ensures k == name {
            assert k != name ==> k in rest;
          }
        }
      }
    }
  }

  /**
   * A fetch handler: the file served as "image/webp", or 404. The kind in
   * the URL plays no part. Corrected, a "." or ".." segment is a 404 too.
   */
  function Fetch(dirs: Tree, kind: OwnerKind, owner: string, name: string): (r: Result<seq<byte>, ImageError>)
    ensures r.Ok? <==> SafeSegment(owner) && SafeSegment(name) && owner in dirs && name in dirs[owner]
    ensures r.Ok? ==> r.value == dirs[owner][name]
    ensures r.Err? ==> r.error == NotFound
  {
    var f := FileAt(dirs, owner, name);
    if SafeSegment(owner) && SafeSegment(name) && f.Some? then Ok(f.value) else Err(NotFound)
  }

  /** All owner kinds share `uploads/<ownerId>`: fetch and delete agree across kinds. */
  lemma KindsShareTheDirectory(dirs: Tree, k1: OwnerKind, k2: OwnerKind, owner: string, name: string)
    ensures Fetch(dirs, k1, owner, name) == Fetch(dirs, k2, owner, name)
    ensures k1 != Company && k2 != Company ==> DeleteEffect(dirs, k1, owner, name) == DeleteEffect(dirs, k2, owner, name)
    ensures Fetch(DeleteEffect(dirs, k1, owner, name).dirs, k2, owner, name) == Err(NotFound)
  {
  }

  /** An uploaded image can be fetched back under any kind until it is deleted. */
  lemma UploadThenFetch(dirs: Tree, kind: OwnerKind, other: OwnerKind, owner: string, filename: Option<string>,
                        content: seq<byte>, codec: Codec, freshName: string)
    requires UploadEffect(dirs, kind, owner, filename, content, codec, freshName).result.Ok?
    ensures var u := UploadEffect(dirs, kind, owner, filename, content, codec, freshName);
      Fetch(u.dirs, other, owner, u.result.value.fileName) == Ok(codec.toWebp(content, WebpQuality).value)
  {
  }

  /** The upload root: the state the handlers share. */
  class ImageStore {
    var dirs: Tree

    constructor()
      ensures dirs == map[]
    {
      dirs := map[];
    }

    /**
     * An upload handler: validate, create the owner's directory, read the
     * stream, convert, write `freshName.webp`. (The first `uuid4()` name, made
     * with the original extension, is unused by the source.)
     */
    method Upload(kind: OwnerKind, owner: string, file: UploadFile, codec: Codec, freshName: string)
      returns (r: Result<UploadResponse, ImageError>)
      modifies this, file
      ensures UploadOutcome(dirs, r) == UploadEffect(old(dirs), kind, owner, file.filename, file.content, codec, freshName)
    {
      if !SafeSegment(owner) {
        return Err(InvalidSegment);
      }
      var v := ValidateImageFile(file, codec);
      if v.Some? {
        return Err(v.value);
      }
      dirs := WithDirectory(dirs, owner);
      var data := file.Read();
      assert data == file.content;
      var webp := codec.toWebp(data, WebpQuality);
      if webp.None? {
        return Err(ConversionFailed);
      }
      var name := freshName + ".webp";
      dirs := dirs[owner := dirs[owner][name := webp.value]];
      r := Ok(UploadResponse("/images/" + KindSegment(kind) + "/" + owner + "/" + name,
                             name, |webp.value|, "image/webp"));
    }

    method Delete(kind: OwnerKind, owner: string, name: string) returns (r: Result<string, ImageError>)
      modifies this
      ensures DeleteOutcome(dirs, r) == DeleteEffect(old(dirs), kind, owner, name)
    {
      if !SafeSegment(owner) || !SafeSegment(name) || owner !in dirs || name !in dirs[owner] {
        return Err(NotFound);
      }
      dirs := dirs[owner := dirs[owner] - {name}];
      if kind == Company {
        if dirs[owner] == map[] {
          dirs := dirs - {owner};
          return Ok(DeletedWithDirectoryMessage);
        }
      }
      r := Ok(DeletedMessage);
    }
  }
}
