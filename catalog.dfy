// The records the client receives from the catalog server and keeps in its
// caches. Keys the server may leave out are `Option`s; ids that the client
// passes through untouched may be strings or numbers.

module Catalog {
  import opened Js

  /** A JavaScript primitive used as an id: a string or an integer-valued number. */
  datatype Scalar = Str(s: string) | Num(n: int)

  /** A category as the server embeds it in a product (`category_id` populated). */
  datatype CategoryDoc = CategoryDoc(categoryId: Option<Scalar>, categoryName: Option<string>)

  /** A product's `category_id`: the populated category, or a bare id. */
  datatype CategoryField = PopulatedCategory(doc: CategoryDoc) | CategoryRef(ref: Scalar)

  /** A material as the server embeds it in a product; `id` is its `_id`. */
  datatype MaterialDoc = MaterialDoc(id: Option<string>, materialId: Option<Scalar>, materialName: Option<string>)

  /** One entry of a product's `material_ids`: a populated material, or a bare id. */
  datatype MaterialEntry = PopulatedMaterial(doc: MaterialDoc) | MaterialRef(ref: Scalar)

  /** A product record; `id` is its `_id` and `sku` its `SKU`. Prices are integers
      (hundredths of the currency unit). */
  datatype Product = Product(
    id: string,
    sku: string,
    productName: string,
    categoryId: Option<CategoryField>,
    materialIds: Option<seq<MaterialEntry>>,
    price: Option<int>,
    status: string,
    mediaUrl: Option<string>)

  /** An entry of the category list (`{category_id, category_name}`). */
  datatype Category = Category(categoryId: Scalar, categoryName: string)

  /** An entry of the material list (`{material_id, material_name}`). */
  datatype Material = Material(materialId: Scalar, materialName: string)
}
