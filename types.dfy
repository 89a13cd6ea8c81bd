/**
 * Record shapes shared by the admin and storefront pages (`types/index.ts`),
 * with `null`/`undefined` fields as `Option` and untyped JSON columns as
 * `JsValue`.
 */
module Types {
  import opened Wrappers
  import opened Js

  /** A category row. */
  datatype Category = Category(id: string, name: string, createdAt: string)

  /**
   * A product row as the admin list reads it. `totalQuantity` and
   * `totalOrders` are declared numbers but the list guards them with `|| 0`,
   * so a missing value is `None`.
   */
  datatype Product = Product(
    id: string,
    name: string,
    price: real,
    slug: string,
    images: JsValue,
    totalQuantity: Option<int>,
    totalOrders: Option<int>)

  /** `images` in the form: the text typed or loaded, or the JSON list of selected file names. */
  datatype FormImages = ImagesText(text: string) | FileNameList(names: seq<string>)

  /** The product form's fields; every field is held as the text the user entered. */
  datatype ProductFormData = ProductFormData(
    name: string,
    description: string,
    price: string,
    soldPrice: string,
    images: FormImages,
    totalQuantity: string,
    meta: string,
    metaDescription: string,
    categoryId: string)

  /** A file picked in the form's file input. */
  datatype File = File(name: string)

  /** A product as the storefront fetches and shows it. */
  datatype StoreProduct = StoreProduct(
    id: string,
    name: string,
    price: real,
    soldPrice: Option<real>,
    images: JsValue,
    category: Option<string>)
}
