/**
 * The "add product" page (`admin/products/new/page.tsx`): its category
 * fetch, and the submit pipeline that uploads the selected files one at a
 * time, builds the row to insert and maps the insert's error codes.
 */
module NewProductPage {
  import opened Wrappers
  import opened Js
  import opened Types
  import opened Backend
  import ProductForm

  const ProductsRoute := "/admin/products"
  const AddedMessage := "Product added successfully"
  const UploadFailedPrefix := "Failed to upload image: "
  const MissingUrlMessage := "Failed to get image URL"
  /** Postgres `insufficient_privilege`. */
  const InsufficientPrivilege := "42501"
  const PermissionDeniedMessage := "Permission denied: You do not have access to add products"
  const AddFailedPrefix := "Failed to add product: "
  const LoadFailedMessage := "Failed to load categories"

  // ---------------------------------------------------------------------------
  // Uploads

  /**
   * What storage answers for one file: the upload's error, or the public URL
   * it then hands out (`""` when there is none), or an exception.
   */
  datatype UploadOutcome = UploadFailed(message: string) | UploadSucceeded(publicUrl: string) | UploadThrew(message: string)

  /** Where the upload loop ends: every URL in file order, a reported failure, or the catch. */
  datatype UploadResult = AllUploaded(paths: seq<string>) | UploadAborted(message: string) | UploadCrashed

  predicate Good(o: UploadOutcome) {
    o.UploadSucceeded? && o.publicUrl != ""
  }

  /** The public URLs of uploads that all succeeded, in order. */
  function Urls(os: seq<UploadOutcome>): (r: seq<string>)
    requires forall i :: 0 <= i < |os| ==> Good(os[i])
    ensures |r| == |os| && forall i :: 0 <= i < |os| ==> Good(os[i]) && r[i] == os[i].publicUrl
  {
    assert os != [] ==> Good(os[0]);
    if os == [] then [] else [os[0].publicUrl] + Urls(os[1..])
  }

  /** Put URLs gathered so far in front of the rest's result. */
  function Prepend(paths: seq<string>, r: UploadResult): UploadResult {
    if r.AllUploaded? then AllUploaded(paths + r.paths) else r
  }

  /** Prepending in two steps is prepending once. */
  lemma PrependTwice(a: seq<string>, b: seq<string>, r: UploadResult)
    ensures Prepend(a, Prepend(b, r)) == Prepend(a + b, r)
  {
    if r.AllUploaded? {
      assert a + (b + r.paths) == (a + b) + r.paths;
    }
  }

  /** The uploads as a reference definition: the first bad outcome decides, otherwise all URLs. */
  function Uploads(os: seq<UploadOutcome>): (r: UploadResult)
    ensures r.AllUploaded? ==>
      |r.paths| == |os| && forall i :: 0 <= i < |os| ==> Good(os[i]) && r.paths[i] == os[i].publicUrl
  {
    if os == [] then AllUploaded([])
    else match os[0]
      case UploadFailed(m) => UploadAborted(UploadFailedPrefix + m)
      case UploadThrew(_) => UploadCrashed
      case UploadSucceeded(url) =>
        if url == "" then UploadAborted(MissingUrlMessage) else Prepend([url], Uploads(os[1..]))
  }

  /**
   * The uploads succeed iff every file uploads and has a URL, and then the
   * paths are the URLs in file order; otherwise the result is decided by the
   * first file that does not.
   */
  lemma {:induction false} UploadsCharacterized(os: seq<UploadOutcome>)
    ensures Uploads(os).AllUploaded? <==> forall i :: 0 <= i < |os| ==> Good(os[i])
    ensures (forall i :: 0 <= i < |os| ==> Good(os[i])) ==> Uploads(os) == AllUploaded(Urls(os))
    ensures !Uploads(os).AllUploaded? ==>
      exists k :: 0 <= k < |os| && !Good(os[k]) && (forall i :: 0 <= i < k ==> Good(os[i]))
        && Uploads(os) == FirstBad(os[k])
  {
    if os != [] {
      UploadsCharacterized(os[1..]);
      if Good(os[0]) {
        assert forall i :: 1 <= i < |os| ==> os[1..][i - 1] == os[i];
        if !Uploads(os).AllUploaded? {
          var k :| 0 <= k < |os[1..]| && !Good(os[1..][k]) && (forall i :: 0 <= i < k ==> Good(os[1..][i]))
            && Uploads(os[1..]) == FirstBad(os[1..][k]);
          assert forall i :: 0 <= i < k + 1 ==> Good(os[i]) by {
            forall i | 0 <= i < k + 1 ensures Good(os[i]) {
              if i > 0 { assert os[i] == os[1..][i - 1]; }
            }
          }
          assert !Good(os[k + 1]) && Uploads(os) == FirstBad(os[k + 1]);
        }
      } else {
        assert !Good(os[0]) && Uploads(os) == FirstBad(os[0]);
      }
    }
  }

  /** How a bad outcome ends the loop. */
  function FirstBad(o: UploadOutcome): UploadResult
    requires !Good(o)
  {
    match o
    case UploadFailed(m) => UploadAborted(UploadFailedPrefix + m)
    case UploadThrew(_) => UploadCrashed
    case UploadSucceeded(_) => UploadAborted(MissingUrlMessage)
  }

  /** One unfolding of `Uploads` at position `i`. */
  lemma UploadsStep(os: seq<UploadOutcome>, i: nat)
    requires i < |os|
    ensures os[i].UploadFailed? ==> Uploads(os[i..]) == UploadAborted(UploadFailedPrefix + os[i].message)
    ensures os[i].UploadThrew? ==> Uploads(os[i..]) == UploadCrashed
    ensures os[i].UploadSucceeded? && os[i].publicUrl == "" ==> Uploads(os[i..]) == UploadAborted(MissingUrlMessage)
    ensures os[i].UploadSucceeded? && os[i].publicUrl != "" ==>
      Uploads(os[i..]) == Prepend([os[i].publicUrl], Uploads(os[i + 1..]))
  {
    assert os[i..][0] == os[i] && os[i..][1..] == os[i + 1..];
  }

  /** The `for` loop over the files, returning at the first failure. */
  method UploadImages(os: seq<UploadOutcome>) returns (r: UploadResult)
    ensures r == Uploads(os)
  {
    var imagePaths: seq<string> := [];
    var i := 0;
    while i < |os|
      invariant 0 <= i <= |os|
      invariant Uploads(os) == Prepend(imagePaths, Uploads(os[i..]))
    {
      UploadsStep(os, i);
      match os[i] {
        case UploadFailed(m) =>
          return UploadAborted(UploadFailedPrefix + m);
        case UploadThrew(_) =>
          return UploadCrashed;
        case UploadSucceeded(url) =>
          if url == "" {
            return UploadAborted(MissingUrlMessage);
          }
          PrependTwice(imagePaths, [url], Uploads(os[i + 1..]));
          imagePaths := imagePaths + [url];
      }
      i := i + 1;
    }
    assert os[i..] == [];
    r := AllUploaded(imagePaths);
  }

  // ---------------------------------------------------------------------------
  // The row to insert

  datatype InsertRow = InsertRow(
    name: string,
    description: Option<string>,
    price: real,
    soldPrice: Option<real>,
    images: Option<seq<string>>,
    totalQuantity: int,
    totalOrders: int,
    slug: string,
    meta: JsValue,
    metaDescription: Option<string>,
    categoryId: string)

  /**
   * `insertData`. Empty description and meta description become `null`; the
   * sale price stays `null` when the form dropped it; the quantity defaults
   * to 0; orders start at 0; the images are the uploaded URLs, `null` when
   * none; a truthy meta is parsed once more, and when that throws there is
   * no row.
   */
  function BuildInsertRow(data: ProductForm.SubmitPayload, imagePaths: seq<string>, host: Host): (r: Option<InsertRow>)
    ensures r.None? <==> Truthy(data.meta) && host.reparseJson(data.meta).None?
    ensures r.Some? ==>
      var row := r.value;
      && row.name == data.name && row.price == data.price && row.slug == data.slug && row.categoryId == data.categoryId
      && (row.description.None? <==> data.description == "")
      && (row.description.Some? ==> row.description.value == data.description)
      && (row.metaDescription.None? <==> data.metaDescription == "")
      && (row.metaDescription.Some? ==> row.metaDescription.value == data.metaDescription)
      && row.soldPrice == data.soldPrice
      && row.totalQuantity == data.totalQuantity.GetOr(0)
      && row.totalOrders == 0
      && (row.images.None? <==> imagePaths == [])
      && (row.images.Some? ==> row.images.value == imagePaths)
      && (!Truthy(data.meta) ==> row.meta == Null)
      && (Truthy(data.meta) ==> host.reparseJson(data.meta) == Some(row.meta))
  {
    var meta := if Truthy(data.meta) then host.reparseJson(data.meta) else Some(Null);
    if meta.None? then None
    else Some(InsertRow(
      name := data.name,
      description := if data.description != "" then Some(data.description) else None,
      price := data.price,
      soldPrice := data.soldPrice,
      images := if |imagePaths| > 0 then Some(imagePaths) else None,
      totalQuantity := data.totalQuantity.GetOr(0),
      totalOrders := 0,
      slug := data.slug,
      meta := meta.value,
      metaDescription := if data.metaDescription != "" then Some(data.metaDescription) else None,
      categoryId := data.categoryId))
  }

  /** A failed insert: code `42501` is a permission problem; any other code reports the backend's message. */
  function InsertErrorMessage(e: DbError): (m: string)
    ensures e.code == InsufficientPrivilege ==> m == PermissionDeniedMessage
    ensures e.code != InsufficientPrivilege ==> m == AddFailedPrefix + e.message
    ensures m != PermissionDeniedMessage ==> m[..|AddFailedPrefix|] == AddFailedPrefix
  {
    if e.code == InsufficientPrivilege then PermissionDeniedMessage else AddFailedPrefix + e.message
  }

  // ---------------------------------------------------------------------------
  // The page

  class NewProductPage {
    var categories: seq<Category>
    var error: Option<string>
    var loading: bool
    /** The route the page has pushed, if any. */
    var navigation: Option<string>

    constructor ()
      ensures categories == [] && error == None && loading && navigation == None
    {
      categories := [];
      error := None;
      loading := true;
      navigation := None;
    }

    /** `fetchCategories`: a `null` list is empty; an error leaves the list; loading ends on every path. */
    method FetchCategories(response: QueryResponse<seq<Category>>)
      modifies this`categories, this`error, this`loading
      ensures !loading
      ensures response.QueryResult? && response.error.None? ==>
        categories == response.data.GetOr([]) && error == old(error)
      ensures response.QueryResult? && response.error.Some? ==>
        categories == old(categories) && error == Some(LoadFailedMessage)
      ensures response.QueryThrew? ==> categories == old(categories) && error == Some(UnexpectedError)
    {
      match response {
        case QueryResult(data, err) =>
          if err.Some? {
            error := Some(LoadFailedMessage);
          } else {
            categories := data.GetOr([]);
          }
        case QueryThrew(_) =>
          error := Some(UnexpectedError);
      }
      loading := false;
    }

    /**
     * `handleSubmit`: `uploads[i]` is what storage answers for `data.files[i]`.
     * It uploads first; the row is built and inserted only when
     * every upload succeeded; only a successful insert navigates to the
     * products list. The error slot is set on every failure and never cleared.
     */
    method HandleSubmit(data: ProductForm.SubmitPayload, uploads: seq<UploadOutcome>, host: Host, insert: MutationResponse)
      returns (inserted: Option<InsertRow>, notice: Notice)
      requires |uploads| == |data.files|
      modifies this`error, this`navigation
      ensures inserted.Some? ==> (inserted.value.images.None? <==> data.files == [])
      ensures inserted.Some? && inserted.value.images.Some? ==>
        |inserted.value.images.value| == |data.files|
        && forall i :: 0 <= i < |data.files| ==> Good(uploads[i]) && inserted.value.images.value[i] == uploads[i].publicUrl
      ensures inserted.Some? <==> Uploads(uploads).AllUploaded? && BuildInsertRow(data, Uploads(uploads).paths, host).Some?
      ensures inserted.Some? ==> inserted == BuildInsertRow(data, Uploads(uploads).paths, host)
      ensures Uploads(uploads).UploadAborted? ==>
        error == Some(Uploads(uploads).message) && notice == ErrorToast(Uploads(uploads).message)
      ensures Uploads(uploads).UploadCrashed? || (Uploads(uploads).AllUploaded? && inserted.None?) ==>
        error == Some(UnexpectedError) && notice == ErrorToast(UnexpectedError)
      ensures inserted.Some? && insert == MutationResult(None) ==>
        error == old(error) && navigation == Some(ProductsRoute) && notice == SuccessToast(AddedMessage)
      ensures inserted.Some? && insert.MutationResult? && insert.error.Some? ==>
        error == Some(InsertErrorMessage(insert.error.value)) && notice == ErrorToast(InsertErrorMessage(insert.error.value))
      ensures inserted.Some? && insert.MutationThrew? ==>
        error == Some(UnexpectedError) && notice == ErrorToast(UnexpectedError)
      ensures navigation != old(navigation) ==> inserted.Some? && insert == MutationResult(None)
    {
      inserted := None;
      var uploaded := UploadImages(uploads);
      match uploaded {
        case UploadAborted(m) =>
          error := Some(m);
          notice := ErrorToast(m);
        case UploadCrashed =>
          error := Some(UnexpectedError);
          notice := ErrorToast(UnexpectedError);
        case AllUploaded(paths) =>
          var row := BuildInsertRow(data, paths, host);
          if row.None? {
            // JSON.parse threw inside the try
            error := Some(UnexpectedError);
            notice := ErrorToast(UnexpectedError);
          } else {
            inserted := row;
            match insert {
              case MutationResult(None) =>
                notice := SuccessToast(AddedMessage);
                navigation := Some(ProductsRoute);
              case MutationResult(Some(e)) =>
                var m := InsertErrorMessage(e);
                error := Some(m);
                notice := ErrorToast(m);
              case MutationThrew(_) =>
                error := Some(UnexpectedError);
                notice := ErrorToast(UnexpectedError);
            }
          }
      }
    }
  }
}
