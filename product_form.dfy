/**
 * The admin product form (`productform.tsx`): field updates, the slug
 * derived from the name, the submit-time checks run in a fixed order where
 * the first failure wins, and the payload handed to `onSubmit`.
 */
module ProductForm {
  import opened Wrappers
  import opened Js
  import opened Types

  // ---------------------------------------------------------------------------
  // Slug

  /** The characters JavaScript's `\s` matches. */
  predicate IsJsWhitespace(c: char) {
    c == ' ' || c == '\t' || c == '\n' || c == '\r' || c == '\U{000B}' || c == '\U{000C}' ||
    c == '\U{00A0}' || c == '\U{1680}' || ('\U{2000}' <= c <= '\U{200A}') ||
    c == '\U{2028}' || c == '\U{2029}' || c == '\U{202F}' || c == '\U{205F}' ||
    c == '\U{3000}' || c == '\U{FEFF}'
  }

  predicate IsUpper(c: char) { 'A' <= c <= 'Z' }

  /** `toLowerCase` on one character, for the ASCII letters. */
  function LowerChar(c: char): char {
    if IsUpper(c) then (c as int + 32) as char else c
  }

  function ToLower(s: string): (r: string)
    ensures |r| == |s|
    ensures forall i :: 0 <= i < |s| ==> r[i] == LowerChar(s[i])
  {
    if s == [] then [] else [LowerChar(s[0])] + ToLower(s[1..])
  }

  predicate NoWhitespace(s: string) { forall i :: 0 <= i < |s| ==> !IsJsWhitespace(s[i]) }
  predicate NoUpper(s: string) { forall i :: 0 <= i < |s| ==> !IsUpper(s[i]) }

  /** The rest of `s` after its leading whitespace. */
  function DropWhitespace(s: string): (r: string)
    ensures |r| <= |s| && r == s[|s| - |r|..]
    ensures r == [] || !IsJsWhitespace(r[0])
  {
    if s != [] && IsJsWhitespace(s[0]) then DropWhitespace(s[1..]) else s
  }

  /** `replace(/\s+/g, '-')`: each maximal run of whitespace becomes one `-`. */
  function CollapseWhitespace(s: string): string
    decreases |s|
  {
    if s == [] then []
    else if IsJsWhitespace(s[0]) then "-" + CollapseWhitespace(DropWhitespace(s[1..]))
    else [s[0]] + CollapseWhitespace(s[1..])
  }

  /** `name.toLowerCase().replace(/\s+/g, '-')`: a slug contains no whitespace and no upper-case ASCII letter. */
  function Slug(name: string): (r: string)
    ensures NoWhitespace(r) && NoUpper(r)
  {
    CollapseRemovesWhitespace(ToLower(name));
    CollapseKeepsNoUpper(ToLower(name));
    CollapseWhitespace(ToLower(name))
  }

  lemma {:induction false} CollapseRemovesWhitespace(s: string)
    ensures NoWhitespace(CollapseWhitespace(s))
    decreases |s|
  {
    if s != [] {
      if IsJsWhitespace(s[0]) {
        CollapseRemovesWhitespace(DropWhitespace(s[1..]));
      } else {
        CollapseRemovesWhitespace(s[1..]);
      }
    }
  }

  lemma {:induction false} CollapseKeepsNoUpper(s: string)
    requires NoUpper(s)
    ensures NoUpper(CollapseWhitespace(s))
    decreases |s|
  {
    if s != [] {
      if IsJsWhitespace(s[0]) {
        var d := DropWhitespace(s[1..]);
        assert forall i :: 0 <= i < |d| ==> d[i] == s[1..][|s| - 1 - |d| + i];
        CollapseKeepsNoUpper(d);
      } else {
        CollapseKeepsNoUpper(s[1..]);
      }
    }
  }

  lemma {:induction false} CollapseIdentityWithoutWhitespace(s: string)
    requires NoWhitespace(s)
    ensures CollapseWhitespace(s) == s
  {
    if s != [] {
      CollapseIdentityWithoutWhitespace(s[1..]);
    }
  }

  lemma LowerIdentityWithoutUpper(s: string)
    requires NoUpper(s)
    ensures ToLower(s) == s
  {}

  /** Deriving the slug of a slug gives the same slug. */
  lemma SlugIdempotent(name: string)
    ensures Slug(Slug(name)) == Slug(name)
  {
    var s := Slug(name);
    LowerIdentityWithoutUpper(s);
    CollapseIdentityWithoutWhitespace(s);
  }

  /** A name without whitespace only has its letters lowered. */
  lemma SlugOfSingleWord(name: string)
    requires NoWhitespace(name)
    ensures Slug(name) == ToLower(name)
  {
    CollapseIdentityWithoutWhitespace(ToLower(name));
  }

  predicate AllWhitespace(s: string) { forall i :: 0 <= i < |s| ==> IsJsWhitespace(s[i]) }

  lemma {:induction false} DropWhitespaceRun(w: string, b: string)
    requires AllWhitespace(w)
    requires b == [] || !IsJsWhitespace(b[0])
    ensures DropWhitespace(w + b) == b
  {
    if w != [] {
      assert (w + b)[1..] == w[1..] + b;
      DropWhitespaceRun(w[1..], b);
    }
  }

  /** Two words separated by any run of whitespace are joined by a single `-`. */
  lemma {:induction false} CollapseJoinsWords(a: string, w: string, b: string)
    requires NoWhitespace(a) && w != [] && AllWhitespace(w)
    requires b == [] || !IsJsWhitespace(b[0])
    ensures CollapseWhitespace(a + w + b) == a + "-" + CollapseWhitespace(b)
  {
    if a == [] {
      assert a + w + b == w + b;
      assert (w + b)[1..] == w[1..] + b;
      DropWhitespaceRun(w[1..], b);
    } else {
      assert (a + w + b)[1..] == a[1..] + w + b;
      CollapseJoinsWords(a[1..], w, b);
    }
  }

  lemma {:induction false} LowerDistributes(a: string, b: string)
    ensures ToLower(a + b) == ToLower(a) + ToLower(b)
  {
    var l := ToLower(a + b);
    assert forall i :: 0 <= i < |a| ==> l[i] == LowerChar(a[i]);
  }

  lemma LowerKeepsNoWhitespace(s: string)
    requires NoWhitespace(s)
    ensures NoWhitespace(ToLower(s))
  {
    var l := ToLower(s);
    forall i | 0 <= i < |s| ensures !IsJsWhitespace(l[i]) {
      assert l[i] == s[i] || 'a' <= l[i] <= 'z';
    }
  }

  /** Two words separated by a space give the lowered words joined by `-`. */
  lemma SlugOfTwoWords(a: string, b: string)
    requires NoWhitespace(a) && NoWhitespace(b) && b != []
    ensures Slug(a + " " + b) == ToLower(a) + "-" + ToLower(b)
  {
    LowerDistributes(a + " ", b);
    LowerDistributes(a, " ");
    assert ToLower(" ") == " ";
    LowerKeepsNoWhitespace(a);
    LowerKeepsNoWhitespace(b);
    assert !IsJsWhitespace(ToLower(b)[0]);
    assert AllWhitespace(" ");
    CollapseJoinsWords(ToLower(a), " ", ToLower(b));
    CollapseIdentityWithoutWhitespace(ToLower(b));
  }

  lemma SlugExample(name: string)
    requires name == "Red Shoes"
    ensures Slug(name) == "red-shoes"
  {
    var a, b := name[..3], name[4..];
    assert name == a + " " + b;
    SlugOfTwoWords(a, b);
    assert ToLower(a) == "red" && ToLower(b) == "shoes";
  }

  // ---------------------------------------------------------------------------
  // Field updates

  /** The fields bound to `handleInputChange` and `handleSelectChange`. */
  datatype TextField = Name | Description | Price | SoldPrice | TotalQuantity | Meta | MetaDescription | CategoryId

  function TextOf(d: ProductFormData, f: TextField): string {
    match f
    case Name => d.name
    case Description => d.description
    case Price => d.price
    case SoldPrice => d.soldPrice
    case TotalQuantity => d.totalQuantity
    case Meta => d.meta
    case MetaDescription => d.metaDescription
    case CategoryId => d.categoryId
  }

  /** `{ ...prev, [name]: value }`. */
  function WithText(d: ProductFormData, f: TextField, v: string): ProductFormData {
    match f
    case Name => d.(name := v)
    case Description => d.(description := v)
    case Price => d.(price := v)
    case SoldPrice => d.(soldPrice := v)
    case TotalQuantity => d.(totalQuantity := v)
    case Meta => d.(meta := v)
    case MetaDescription => d.(metaDescription := v)
    case CategoryId => d.(categoryId := v)
  }

  /** An update sets the named field and leaves every other field, and the images, as they were. */
  lemma UpdateTouchesOnlyItsField(d: ProductFormData, f: TextField, v: string, g: TextField)
    ensures TextOf(WithText(d, f, v), g) == if g == f then v else TextOf(d, g)
    ensures WithText(d, f, v).images == d.images
  {}

  const EmptyForm := ProductFormData("", "", "", "", ImagesText(""), "", "", "", "")

  function FileNames(files: seq<File>): (r: seq<string>)
    ensures |r| == |files|
    ensures forall i :: 0 <= i < |files| ==> r[i] == files[i].name
  {
    if files == [] then [] else [files[0].name] + FileNames(files[1..])
  }

  // ---------------------------------------------------------------------------
  // Submit

  /** Why a submit stops before `onSubmit`; each reason has its own notification. */
  datatype Rejection = MissingRequired | InvalidPrice | InvalidSoldPrice | InvalidQuantity | InvalidMeta {
    function Message(): string {
      match this
      case MissingRequired => "Please fill in all required fields (name, price, category)"
      case InvalidPrice => "Price must be a valid positive number"
      case InvalidSoldPrice => "Sold price must be a valid non-negative number"
      case InvalidQuantity => "Total quantity must be a valid non-negative integer"
      case InvalidMeta => "Meta must be valid JSON"
    }
  }

  /**
   * What `onSubmit` receives. `soldPrice` and `totalQuantity` are `None`
   * where the source sends `''`; `images` is `None` for `null`; `meta` is
   * `Null` when the field was empty.
   */
  datatype SubmitPayload = SubmitPayload(
    name: string,
    description: string,
    price: real,
    soldPrice: Option<real>,
    images: Option<seq<string>>,
    totalQuantity: Option<int>,
    meta: JsValue,
    metaDescription: string,
    categoryId: string,
    slug: string,
    files: seq<File>)

  datatype SubmitOutcome = Rejected(reason: Rejection) | Submitted(payload: SubmitPayload)

  predicate RequiredPresent(d: ProductFormData) {
    d.name != "" && d.price != "" && d.categoryId != ""
  }

  predicate PriceAccepted(d: ProductFormData, host: Host) {
    host.parseFloat(d.price).Some? && host.parseFloat(d.price).value > 0.0
  }

  predicate SoldPriceAccepted(d: ProductFormData, host: Host) {
    d.soldPrice == "" || (host.parseFloat(d.soldPrice).Some? && host.parseFloat(d.soldPrice).value >= 0.0)
  }

  predicate QuantityAccepted(d: ProductFormData, host: Host) {
    d.totalQuantity == "" || (host.parseInt(d.totalQuantity).Some? && host.parseInt(d.totalQuantity).value >= 0)
  }

  predicate MetaAccepted(d: ProductFormData, host: Host) {
    d.meta == "" || host.parseJson(d.meta).Some?
  }

  /** The submit checks in the order the handler runs them, each with the rejection it raises. */
  function Checks(d: ProductFormData, host: Host): (r: seq<(bool, Rejection)>)
    ensures |r| == 5
    ensures r[0].1 == MissingRequired && r[1].1 == InvalidPrice && r[2].1 == InvalidSoldPrice
      && r[3].1 == InvalidQuantity && r[4].1 == InvalidMeta
    ensures (forall i :: 0 <= i < |r| ==> r[i].0) <==>
      RequiredPresent(d) && PriceAccepted(d, host) && SoldPriceAccepted(d, host)
      && QuantityAccepted(d, host) && MetaAccepted(d, host)
  {
    [ (RequiredPresent(d), MissingRequired),
      (PriceAccepted(d, host), InvalidPrice),
      (SoldPriceAccepted(d, host), InvalidSoldPrice),
      (QuantityAccepted(d, host), InvalidQuantity),
      (MetaAccepted(d, host), InvalidMeta) ]
  }

  /** The rejection of the first failing check, if any. */
  function FirstFailure(checks: seq<(bool, Rejection)>): (r: Option<Rejection>)
    ensures r.None? <==> forall i :: 0 <= i < |checks| ==> checks[i].0
    ensures |checks| > 0 && !checks[0].0 ==> r == Some(checks[0].1)
  {
    if checks == [] then None
    else if !checks[0].0 then Some(checks[0].1)
    else FirstFailure(checks[1..])
  }

  /** `FirstFailure` names a failing check all of whose predecessors passed, and is `None` exactly when all pass. */
  lemma {:induction false} FirstFailureIsFirst(checks: seq<(bool, Rejection)>)
    ensures FirstFailure(checks).None? <==> forall i :: 0 <= i < |checks| ==> checks[i].0
    ensures FirstFailure(checks).Some? ==>
      exists j :: 0 <= j < |checks| && !checks[j].0 && checks[j].1 == FirstFailure(checks).value &&
        forall i :: 0 <= i < j ==> checks[i].0
  {
    if checks != [] && checks[0].0 {
      FirstFailureIsFirst(checks[1..]);
      if FirstFailure(checks).Some? {
        var j :| 0 <= j < |checks[1..]| && !checks[1..][j].0 && checks[1..][j].1 == FirstFailure(checks).value &&
          forall i :: 0 <= i < j ==> checks[1..][i].0;
        assert !checks[j + 1].0 && forall i :: 0 <= i < j + 1 ==> checks[i].0;
      } else {
        forall i | 0 <= i < |checks| ensures checks[i].0 {
          if i > 0 { assert checks[i] == checks[1..][i - 1]; }
        }
      }
    } else if checks != [] {
      assert !checks[0].0;
    }
  }

  /** A form is sent to `onSubmit` only when every check passes, and any missing required field is reported first. */
  lemma SubmitGate(d: ProductFormData, host: Host)
    ensures FirstFailure(Checks(d, host)).None? <==>
      RequiredPresent(d) && PriceAccepted(d, host) && SoldPriceAccepted(d, host) &&
      QuantityAccepted(d, host) && MetaAccepted(d, host)
    ensures !RequiredPresent(d) ==> FirstFailure(Checks(d, host)) == Some(MissingRequired)
    ensures RequiredPresent(d) && !PriceAccepted(d, host) ==> FirstFailure(Checks(d, host)) == Some(InvalidPrice)
  {
    FirstFailureIsFirst(Checks(d, host));
    var cs := Checks(d, host);
    if FirstFailure(cs).None? {
      assert cs[0].0 && cs[1].0 && cs[2].0 && cs[3].0 && cs[4].0;
    }
  }

  /** The price `"0"` is refused; a named, categorised product priced `"19.99"` passes the price check. */
  lemma PriceExamples(d: ProductFormData, host: Host)
    requires host.parseFloat("0") == Some(0.0) && host.parseFloat("19.99") == Some(19.99)
    ensures RequiredPresent(d.(price := "0")) ==> FirstFailure(Checks(d.(price := "0"), host)) == Some(InvalidPrice)
    ensures d.name != "" && d.categoryId != "" ==>
      FirstFailure(Checks(d.(price := "19.99"), host)) != Some(MissingRequired) &&
      FirstFailure(Checks(d.(price := "19.99"), host)) != Some(InvalidPrice)
  {
    SubmitGate(d.(price := "0"), host);
    var d' := d.(price := "19.99");
    FirstFailureIsFirst(Checks(d', host));
  }

  /** The component's `formData` and `selectedFiles` state. */
  class Form {
    var formData: ProductFormData
    var selectedFiles: seq<File>

    /** `initialData || { ...all fields empty }`, no files. */
    constructor (initialData: Option<ProductFormData>)
      ensures formData == initialData.GetOr(EmptyForm) && selectedFiles == []
    {
      formData := initialData.GetOr(EmptyForm);
      selectedFiles := [];
    }

    /** `handleInputChange`: set the named text field. */
    method HandleInputChange(field: TextField, value: string)
      modifies this`formData
      ensures formData == WithText(old(formData), field, value)
    {
      formData := WithText(formData, field, value);
    }

    /** `handleSelectChange`: set the category. */
    method HandleSelectChange(value: string)
      modifies this`formData
      ensures formData == WithText(old(formData), CategoryId, value)
    {
      formData := formData.(categoryId := value);
    }

    /** `handleFileChange`: with a file list, keep the files and record their names; without one, nothing changes. */
    method HandleFileChange(files: Option<seq<File>>)
      modifies this
      ensures files.None? ==> formData == old(formData) && selectedFiles == old(selectedFiles)
      ensures files.Some? ==>
        (selectedFiles == files.value && formData == old(formData).(images := FileNameList(FileNames(files.value))))
    {
      if files.Some? {
        selectedFiles := files.value;
        formData := formData.(images := FileNameList(FileNames(files.value)));
      }
    }

    /**
     * `handleSubmit`: the checks run in order and the first failure stops
     * the submit; otherwise exactly one payload goes to `onSubmit`, with the
     * parsed price, a sale price and a quantity that are dropped when empty
     * or zero, the selected file names (or none), the parsed meta and the slug.
     */
    method HandleSubmit(host: Host) returns (outcome: SubmitOutcome)
      ensures outcome.Rejected? <==> FirstFailure(Checks(formData, host)).Some?
      ensures outcome.Rejected? ==> outcome.reason == FirstFailure(Checks(formData, host)).value
      ensures outcome.Submitted? ==>
        var p := outcome.payload;
        && host.parseFloat(formData.price) == Some(p.price) && p.price > 0.0
        && (p.soldPrice.Some? ==> host.parseFloat(formData.soldPrice) == p.soldPrice && p.soldPrice.value > 0.0)
        && (p.soldPrice.None? ==> formData.soldPrice == "" || host.parseFloat(formData.soldPrice) == Some(0.0))
        && (p.totalQuantity.Some? ==> host.parseInt(formData.totalQuantity) == p.totalQuantity && p.totalQuantity.value > 0)
        && (p.totalQuantity.None? ==> formData.totalQuantity == "" || host.parseInt(formData.totalQuantity) == Some(0))
        && (p.images.None? <==> selectedFiles == [])
        && (p.images.Some? ==> p.images.value == FileNames(selectedFiles))
        && (formData.meta == "" ==> p.meta == Null)
        && (formData.meta != "" ==> host.parseJson(formData.meta) == Some(p.meta))
        && p.slug == Slug(formData.name)
        && p.name == formData.name && p.description == formData.description
        && p.metaDescription == formData.metaDescription && p.categoryId == formData.categoryId
        && p.files == selectedFiles
    {
      var d := formData;
      var slug := Slug(d.name);
      FirstFailureIsFirst(Checks(d, host));
      var checks := Checks(d, host);

      if d.name == "" || d.price == "" || d.categoryId == "" {
        return Rejected(MissingRequired);
      }

      var priceValue := host.parseFloat(d.price);
      if priceValue.None? || priceValue.value <= 0.0 {
        return Rejected(InvalidPrice);
      }

      var soldPriceValue: Option<real> := None;
      if d.soldPrice != "" {
        soldPriceValue := host.parseFloat(d.soldPrice);
        if soldPriceValue.None? || soldPriceValue.value < 0.0 {
          assert checks[0].0 && checks[1].0 && !checks[2].0;
          return Rejected(InvalidSoldPrice);
        }
      }

      var totalQuantityValue: Option<int> := None;
      if d.totalQuantity != "" {
        totalQuantityValue := host.parseInt(d.totalQuantity);
        if totalQuantityValue.None? || totalQuantityValue.value < 0 {
          assert checks[0].0 && checks[1].0 && checks[2].0 && !checks[3].0;
          return Rejected(InvalidQuantity);
        }
      }

      var metaValue := Null;
      if d.meta != "" {
        var parsed := host.parseJson(d.meta);
        if parsed.None? {
          assert checks[0].0 && checks[1].0 && checks[2].0 && checks[3].0 && !checks[4].0;
          return Rejected(InvalidMeta);
        }
        metaValue := parsed.value;
      }

      assert checks[0].0 && checks[1].0 && checks[2].0 && checks[3].0 && checks[4].0;
      outcome := Submitted(SubmitPayload(
        d.name,
        d.description,
        priceValue.value,
        if soldPriceValue.Some? && soldPriceValue.value != 0.0 then soldPriceValue else None,
        if |selectedFiles| > 0 then Some(FileNames(selectedFiles)) else None,
        if totalQuantityValue.Some? && totalQuantityValue.value != 0 then totalQuantityValue else None,
        metaValue,
        d.metaDescription,
        d.categoryId,
        slug,
        selectedFiles));
    }
  }
}
