/**
 * The blog service: the published listing and its count, author-only
 * updates and deletes, and blog images, of which at most one per blog is
 * primary once a primary image has been uploaded.
 *
 * The database's foreign key says every image belongs to a stored blog
 * (`ImagesHaveBlogs`); each change the service makes keeps it. Deleting a
 * blog removes its images with it, as the required foreign key cascades. The image service's delete requests are
 * returned as the list of URLs requested; their outcome only reaches the
 * log, so it is not an input of the model.
 */
module Blogs {
  import opened Common

  datatype Blog = Blog(
    blogId: Id, authorUserId: Id, title: string, content: string,
    isPublished: bool, createdAt: int, updatedAt: Option<int>)

  datatype BlogImage = BlogImage(
    blogImageId: Id, blogId: Id, filePath: string, fileName: Option<string>,
    fileType: Option<string>, fileSize: Option<int>, caption: Option<string>,
    sortOrder: int, isPrimary: bool, isActive: bool, uploadedByUserId: Option<Id>, createdAt: int)

  datatype BlogUpdate = BlogUpdate(title: string, content: string, isPublished: bool)

  datatype BlogImageCreate = BlogImageCreate(
    filePath: string, fileName: Option<string>, fileType: Option<string>, fileSize: Option<int>,
    caption: Option<string>, sortOrder: int, isPrimary: bool)

  /** The exceptions the service throws. */
  datatype BlogError = NotAuthor | BlogNotFound | NoImagePermission

  /** The exception type and message of each error. */
  function Describe(e: BlogError): (string, string)
  {
    match e
    case NotAuthor => ("UnauthorizedAccessException", "You are not the author of this blog.")
    case BlogNotFound => ("KeyNotFoundException", "Blog not found")
    case NoImagePermission => ("UnauthorizedAccessException", "You don't have permission to delete this image.")
  }

  const DefaultImagesServiceUrl: string := "http://127.0.0.1:8000"

  /** The image service's base URL: the configured one, else the local default. */
  function ImagesServiceUrl(configured: Option<string>): string
  {
    OrElse(configured, DefaultImagesServiceUrl)
  }

  // ---------------------------------------------------------------------
  // Listing

  predicate IsPublished(b: Blog) { b.isPublished }

  function CreatedKey(b: Blog): Key { Key(b.createdAt, 0) }

  /** The published blogs, newest first: the order the listing pages through. */
  function PublishedNewestFirst(blogs: seq<Blog>): (r: seq<Blog>)
    ensures |r| == CountIf(blogs, IsPublished)
  {
    CountIfIsFilterLength(blogs, IsPublished);
    SortDesc(Filter(blogs, IsPublished), CreatedKey)
  }

  /** The listing holds exactly the published blogs. */
  lemma PublishedMembers(blogs: seq<Blog>, b: Blog)
    ensures b in PublishedNewestFirst(blogs) <==> b in blogs && b.isPublished
  {
    SortDescMembers(Filter(blogs, IsPublished), CreatedKey, b);
  }

  /** `GetAllBlogsAsync`: one page of the published blogs, newest first. */
  function BlogPage(blogs: seq<Blog>, page: int, pageSize: int): (r: seq<Blog>)
    ensures |r| <= CountIf(blogs, IsPublished)
    ensures forall k :: 0 <= k < |r| ==> r[k] in blogs && r[k].isPublished
  {
    var r := PageOf(PublishedNewestFirst(blogs), page, pageSize);
    PageOfWithin(PublishedNewestFirst(blogs), page, pageSize);
    forall k | 0 <= k < |r|
      ensures r[k] in blogs && r[k].isPublished
    {
      PublishedMembers(blogs, r[k]);
    }
    r
  }

  /**
   * The listing is in newest-first order, and a page is the window of it of
   * at most `pageSize` blogs starting at `(page - 1) * pageSize`.
   */
  lemma BlogPageIsWindow(blogs: seq<Blog>, page: int, pageSize: int)
    requires page >= 1 && pageSize >= 1
    ensures SortedDesc(PublishedNewestFirst(blogs), CreatedKey)
    ensures |BlogPage(blogs, page, pageSize)| == Min(pageSize, Max(0, |PublishedNewestFirst(blogs)| - Offset(page, pageSize)))
    ensures forall k :: 0 <= k < |BlogPage(blogs, page, pageSize)| ==>
      0 <= Offset(page, pageSize) + k < |PublishedNewestFirst(blogs)| &&
      BlogPage(blogs, page, pageSize)[k] == PublishedNewestFirst(blogs)[Offset(page, pageSize) + k]
  {
    SortDescSorted(Filter(blogs, IsPublished), CreatedKey);
    var sorted := PublishedNewestFirst(blogs);
    PageOfAt(sorted, page, pageSize);
  }

  /** `GetTotalBlogsCountAsync` counts the same set the listing pages through. */
  function TotalBlogs(blogs: seq<Blog>): (n: nat)
    ensures n == |Filter(blogs, IsPublished)|
    ensures n <= |blogs|
  {
    CountIfIsFilterLength(blogs, IsPublished);
    CountIf(blogs, IsPublished)
  }

  // ---------------------------------------------------------------------
  // Images

  function OfBlog(blogId: Id): BlogImage -> bool
  {
    (img: BlogImage) => img.blogId == blogId
  }

  function NotOfBlog(blogId: Id): BlogImage -> bool
  {
    (img: BlogImage) => img.blogId != blogId
  }

  function PrimaryOf(blogId: Id): BlogImage -> bool
  {
    (img: BlogImage) => img.blogId == blogId && img.isPrimary
  }

  /** The number of primary images a blog has. */
  function PrimaryCount(images: seq<BlogImage>, blogId: Id): nat
  {
    CountIf(images, PrimaryOf(blogId))
  }

  /** The change the clearing loop makes to one image. */
  function ClearFor(blogId: Id): BlogImage -> BlogImage
  {
    (img: BlogImage) => if img.blogId == blogId && img.isPrimary then img.(isPrimary := false) else img
  }

  /** After clearing, the blog has no primary image, and every other blog keeps its count. */
  lemma {:induction false} ClearedPrimaries(images: seq<BlogImage>, blogId: Id, other: Id)
    ensures PrimaryCount(Map(images, ClearFor(blogId)), blogId) == 0
    ensures other != blogId ==> PrimaryCount(Map(images, ClearFor(blogId)), other) == PrimaryCount(images, other)
  {
    if images != [] {
      ClearedPrimaries(images[1..], blogId, other);
      assert Map(images, ClearFor(blogId))[1..] == Map(images[1..], ClearFor(blogId));
    }
  }

  /** The record an upload adds. */
  function NewImage(d: BlogImageCreate, id: Id, blogId: Id, userId: Id, now: int): BlogImage
  {
    BlogImage(id, blogId, d.filePath, d.fileName, d.fileType, d.fileSize, d.caption, d.sortOrder,
      d.isPrimary, true, Some(userId), now)
  }

  /** The images after an upload: a primary upload first clears the blog's other primaries. */
  function AfterUpload(images: seq<BlogImage>, blogId: Id, added: BlogImage): seq<BlogImage>
  {
    (if added.isPrimary then Map(images, ClearFor(blogId)) else images) + [added]
  }

  /**
   * After a primary upload the new image is the blog's only primary one; a
   * non-primary upload changes no count. So a blog with at most one primary
   * image keeps at most one.
   */
  lemma UploadKeepsOnePrimary(images: seq<BlogImage>, blogId: Id, added: BlogImage, other: Id)
    requires added.blogId == blogId
    ensures added.isPrimary ==> PrimaryCount(AfterUpload(images, blogId, added), blogId) == 1
    ensures !added.isPrimary ==> PrimaryCount(AfterUpload(images, blogId, added), blogId) == PrimaryCount(images, blogId)
    ensures PrimaryCount(images, blogId) <= 1 ==> PrimaryCount(AfterUpload(images, blogId, added), blogId) <= 1
    ensures other != blogId ==> PrimaryCount(AfterUpload(images, blogId, added), other) == PrimaryCount(images, other)
  {
    var base := if added.isPrimary then Map(images, ClearFor(blogId)) else images;
    ClearedPrimaries(images, blogId, other);
    CountIfAppend(base, added, PrimaryOf(blogId));
    CountIfAppend(base, added, PrimaryOf(other));
  }

  /** Some stored blog has this id. */
  predicate HasBlog(blogs: seq<Blog>, blogId: Id)
  {
    exists j :: 0 <= j < |blogs| && blogs[j].blogId == blogId
  }

  /** The foreign key from images to blogs. */
  predicate ImagesHaveBlogs(blogs: seq<Blog>, images: seq<BlogImage>)
  {
    forall k :: 0 <= k < |images| ==> HasBlog(blogs, images[k].blogId)
  }

  /** `FindAsync` finds a blog exactly when one has the id. */
  lemma FindBlog(blogs: seq<Blog>, blogId: Id)
    ensures FindIndex(blogs, HasId(blogId)) >= 0 <==> HasBlog(blogs, blogId)
  {
    if HasBlog(blogs, blogId) {
      var j :| 0 <= j < |blogs| && blogs[j].blogId == blogId;
      assert HasId(blogId)(blogs[j]);
    }
  }

  /** Rewriting a blog's fields other than its id keeps the foreign key. */
  lemma UpdateBlogKeepsKey(blogs: seq<Blog>, images: seq<BlogImage>, i: int, b: Blog)
    requires ImagesHaveBlogs(blogs, images) && 0 <= i < |blogs| && b.blogId == blogs[i].blogId
    ensures ImagesHaveBlogs(blogs[i := b], images)
  {
    forall k | 0 <= k < |images|
      ensures HasBlog(blogs[i := b], images[k].blogId)
    {
      var j :| 0 <= j < |blogs| && blogs[j].blogId == images[k].blogId;
      assert blogs[i := b][j].blogId == images[k].blogId;
    }
  }

  /** Removing a blog together with its images keeps the foreign key. */
  lemma RemoveBlogKeepsKey(blogs: seq<Blog>, images: seq<BlogImage>, i: int)
    requires ImagesHaveBlogs(blogs, images) && 0 <= i < |blogs|
    ensures ImagesHaveBlogs(RemoveAt(blogs, i), Filter(images, NotOfBlog(blogs[i].blogId)))
  {
    var kept := Filter(images, NotOfBlog(blogs[i].blogId));
    var rest := RemoveAt(blogs, i);
    forall m | 0 <= m < |kept|
      ensures HasBlog(rest, kept[m].blogId)
    {
      var j :| 0 <= j < |images| && images[j] == kept[m];
      var n :| 0 <= n < |blogs| && blogs[n].blogId == kept[m].blogId;
      var q := if n < i then n else n - 1;
      RemoveAtIndex(blogs, i, q);
    }
  }

  /** An upload to a stored blog keeps the foreign key. */
  lemma UploadKeepsKey(blogs: seq<Blog>, images: seq<BlogImage>, blogId: Id, added: BlogImage)
    requires ImagesHaveBlogs(blogs, images) && HasBlog(blogs, blogId) && added.blogId == blogId
    ensures ImagesHaveBlogs(blogs, AfterUpload(images, blogId, added))
  {
    var after := AfterUpload(images, blogId, added);
    forall k | 0 <= k < |after|
      ensures HasBlog(blogs, after[k].blogId)
    {
      if k < |images| {
        assert after[k].blogId == images[k].blogId;
      }
    }
  }

  /** Removing an image keeps the foreign key. */
  lemma RemoveImageKeepsKey(blogs: seq<Blog>, images: seq<BlogImage>, k: int)
    requires ImagesHaveBlogs(blogs, images) && 0 <= k < |images|
    ensures ImagesHaveBlogs(blogs, RemoveAt(images, k))
  {
    var rest := RemoveAt(images, k);
    forall m | 0 <= m < |rest|
      ensures HasBlog(blogs, rest[m].blogId)
    {
      RemoveAtIndex(images, k, m);
    }
  }


  function HasId(blogId: Id): Blog -> bool
  {
    (b: Blog) => b.blogId == blogId
  }

  function ImageHasId(imageId: Id): BlogImage -> bool
  {
    (img: BlogImage) => img.blogImageId == imageId
  }

  /**
   * `DeleteBlogImageAsync`'s permission: the uploader, or the author of the
   * image's blog. (The store's foreign key guarantees that blog exists.)
   */
  predicate MayDeleteImage(blogs: seq<Blog>, img: BlogImage, userId: Id)
  {
    img.uploadedByUserId == Some(userId) ||
    (var j := FindIndex(blogs, HasId(img.blogId)); j >= 0 && blogs[j].authorUserId == userId)
  }

  /** One delete request per image, in order, each to the image service's URL for the image's path. */
  predicate DeleteRequests(requested: seq<string>, own: seq<BlogImage>, configuredUrl: Option<string>)
  {
    |requested| == |own| &&
    forall k :: 0 <= k < |own| ==> requested[k] == ImagesServiceUrl(configuredUrl) + own[k].filePath
  }

  /** The delete requests of `DeleteBlogAsync`, one per image, in order. */
  method RequestDeletes(own: seq<BlogImage>, configuredUrl: Option<string>) returns (requested: seq<string>)
    ensures DeleteRequests(requested, own, configuredUrl)
  {
    requested := [];
    var k := 0;
    while k < |own|
      invariant 0 <= k <= |own| && |requested| == k
      invariant forall m :: 0 <= m < k ==> requested[m] == ImagesServiceUrl(configuredUrl) + own[m].filePath
    {
      requested := requested + [ImagesServiceUrl(configuredUrl) + own[k].filePath];
      k := k + 1;
    }
  }

  class BlogStore {
    var blogs: seq<Blog>
    var images: seq<BlogImage>

    /** The foreign key: every image belongs to a stored blog. */
    predicate Valid()
      reads this
    {
      ImagesHaveBlogs(blogs, images)
    }

    constructor ()
      ensures Valid() && blogs == [] && images == []
    {
      blogs, images := [], [];
    }

    /** `GetAllBlogsAsync`. */
    function GetAllBlogs(page: int, pageSize: int): (r: seq<Blog>)
      reads this
      ensures forall k :: 0 <= k < |r| ==> r[k] in blogs && r[k].isPublished
    {
      BlogPage(blogs, page, pageSize)
    }

    /** `GetTotalBlogsCountAsync`. */
    function GetTotalBlogsCount(): (n: nat)
      reads this
      ensures n == |PublishedNewestFirst(blogs)|
    {
      TotalBlogs(blogs)
    }

    /** The loop that unsets `IsPrimary` on every primary image of a blog. */
    method ClearPrimaries(blogId: Id)
      modifies this
      ensures images == Map(old(images), ClearFor(blogId)) && blogs == old(blogs)
    {
      var k := 0;
      while k < |images|
        invariant 0 <= k <= |images| && |images| == |old(images)|
        invariant forall m :: 0 <= m < k ==> images[m] == ClearFor(blogId)(old(images)[m])
        invariant forall m :: k <= m < |images| ==> images[m] == old(images)[m]
        invariant blogs == old(blogs)
      {
        if images[k].blogId == blogId && images[k].isPrimary {
          images := images[k := images[k].(isPrimary := false)];
        }
        k := k + 1;
      }
    }

    /** `UpdateBlogAsync`: `None` for a missing blog, an error for anyone but the author. */
    method UpdateBlog(blogId: Id, userId: Id, d: BlogUpdate, now: int) returns (r: Result<Option<Blog>, BlogError>)
      requires Valid()
      modifies this
      ensures Valid()
      ensures images == old(images)
      ensures var i := FindIndex(old(blogs), HasId(blogId));
        if i < 0 then r == Ok(None) && blogs == old(blogs)
        else if old(blogs)[i].authorUserId != userId then r == Err(NotAuthor) && blogs == old(blogs)
        else
          var b := old(blogs)[i].(title := d.title, content := d.content, isPublished := d.isPublished, updatedAt := Some(now));
          r == Ok(Some(b)) && blogs == old(blogs)[i := b]
    {
      var i := FindIndex(blogs, HasId(blogId));
      if i < 0 {
        return Ok(None);
      }
      if blogs[i].authorUserId != userId {
        return Err(NotAuthor);
      }
      var b := blogs[i].(title := d.title, content := d.content, isPublished := d.isPublished, updatedAt := Some(now));
      UpdateBlogKeepsKey(blogs, images, i, b);
      blogs := blogs[i := b];
      r := Ok(Some(b));
    }

    /**
     * `DeleteBlogAsync`: `false` for a missing blog, an error for anyone but
     * the author; otherwise one delete request per image of the blog, whose
     * failures are swallowed, and the blog and its images are removed.
     */
    method DeleteBlog(blogId: Id, userId: Id, configuredUrl: Option<string>)
      returns (r: Result<bool, BlogError>, requested: seq<string>)
      requires Valid()
      modifies this
      ensures Valid()
      ensures var i := FindIndex(old(blogs), HasId(blogId));
        if i < 0 then r == Ok(false) && requested == [] && blogs == old(blogs) && images == old(images)
        else if old(blogs)[i].authorUserId != userId then
          r == Err(NotAuthor) && requested == [] && blogs == old(blogs) && images == old(images)
        else
          r == Ok(true) && blogs == RemoveAt(old(blogs), i) &&
          images == Filter(old(images), NotOfBlog(blogId)) &&
          DeleteRequests(requested, Filter(old(images), OfBlog(blogId)), configuredUrl)
    {
      var i := FindIndex(blogs, HasId(blogId));
      if i < 0 {
        return Ok(false), [];
      }
      if blogs[i].authorUserId != userId {
        return Err(NotAuthor), [];
      }
      requested := RequestDeletes(Filter(images, OfBlog(blogId)), configuredUrl);
      assert blogs[i].blogId == blogId;
      RemoveBlog(i);
      r := Ok(true);
    }

    /** Removes the blog at index `i` and its image records; the foreign key still holds. */
    method RemoveBlog(i: int)
      requires Valid() && 0 <= i < |blogs|
      modifies this
      ensures Valid()
      ensures blogs == RemoveAt(old(blogs), i) && images == Filter(old(images), NotOfBlog(old(blogs)[i].blogId))
    {
      RemoveBlogKeepsKey(blogs, images, i);
      images := Filter(images, NotOfBlog(blogs[i].blogId));
      blogs := RemoveAt(blogs, i);
    }

    /**
     * `UploadBlogImageAsync`: a missing blog and a caller who is not its
     * author are refused before any change; a primary upload clears the
     * blog's other primary images first.
     */
    method UploadBlogImage(blogId: Id, userId: Id, d: BlogImageCreate, id: Id, now: int)
      returns (r: Result<BlogImage, BlogError>)
      requires Valid()
      modifies this
      ensures Valid()
      ensures blogs == old(blogs)
      ensures var i := FindIndex(old(blogs), HasId(blogId));
        if i < 0 then r == Err(BlogNotFound) && images == old(images)
        else if old(blogs)[i].authorUserId != userId then r == Err(NotAuthor) && images == old(images)
        else
          r == Ok(NewImage(d, id, blogId, userId, now)) &&
          images == AfterUpload(old(images), blogId, NewImage(d, id, blogId, userId, now))
    {
      var i := FindIndex(blogs, HasId(blogId));
      if i < 0 {
        return Err(BlogNotFound);
      }
      if blogs[i].authorUserId != userId {
        return Err(NotAuthor);
      }
      var img := NewImage(d, id, blogId, userId, now);
      FindBlog(blogs, blogId);
      UploadKeepsKey(blogs, images, blogId, img);
      if d.isPrimary {
        ClearPrimaries(blogId);
      }
      images := images + [img];
      r := Ok(img);
    }

    /**
     * `DeleteBlogImageAsync`: `false` for a missing image; the uploader or the
     * blog's author may delete it; the delete request's outcome is ignored and
     * the record is removed.
     */
    method DeleteBlogImage(imageId: Id, userId: Id, configuredUrl: Option<string>)
      returns (r: Result<bool, BlogError>, requested: Option<string>)
      requires Valid()
      modifies this
      ensures Valid()
      ensures blogs == old(blogs)
      ensures FindIndex(old(images), ImageHasId(imageId)) < 0 ==>
        r == Ok(false) && requested == None && images == old(images)
      ensures var k := FindIndex(old(images), ImageHasId(imageId));
        k >= 0 && !MayDeleteImage(blogs, old(images)[k], userId) ==>
        r == Err(NoImagePermission) && requested == None && images == old(images)
      ensures var k := FindIndex(old(images), ImageHasId(imageId));
        k >= 0 && MayDeleteImage(blogs, old(images)[k], userId) ==>
        r == Ok(true) && requested == Some(ImagesServiceUrl(configuredUrl) + old(images)[k].filePath) &&
        images == RemoveAt(old(images), k)
    {
      var k := FindIndex(images, ImageHasId(imageId));
      if k < 0 {
        return Ok(false), None;
      }
      var img := images[k];
      if !MayDeleteImage(blogs, img, userId) {
        return Err(NoImagePermission), None;
      }
      requested := Some(ImagesServiceUrl(configuredUrl) + img.filePath);
      RemoveImage(k);
      r := Ok(true);
    }

    /** Removes the image record at index `k`; the foreign key still holds. */
    method RemoveImage(k: int)
      requires Valid() && 0 <= k < |images|
      modifies this
      ensures Valid()
      ensures blogs == old(blogs) && images == RemoveAt(old(images), k)
    {
      RemoveImageKeepsKey(blogs, images, k);
      images := RemoveAt(images, k);
    }
  }
}
