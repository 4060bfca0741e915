// The product form: its SKU duplicate check, the guard and normalisation on
// submit, the guards on adding a category or material, and the values it
// fills in when a product is edited.

module ProductForm {
  import opened Js
  import opened Text
  import opened Catalog

  const DuplicateSkuMessage := "This SKU already exists"

  /** `p` clashes with the SKU being typed: same SKU, exactly (case included),
      and not the product being edited. */
  function Conflicts(p: Product, sku: string, editedId: Option<string>): (b: bool)
    ensures b <==> p.sku == sku && (editedId.None? || p.id != editedId.value)
    ensures editedId == Some(p.id) ==> !b
  {
    p.sku == sku && Some(p.id) != editedId
  }

  /** `ps.find(p => p.SKU === sku && p._id !== editedId)`: the first clash. */
  function FirstConflict(ps: seq<Product>, sku: string, editedId: Option<string>): (found: Option<Product>)
    ensures found.None? <==> forall k :: 0 <= k < |ps| ==> !Conflicts(ps[k], sku, editedId)
    ensures found.Some? ==>
      exists k :: (0 <= k < |ps| && ps[k] == found.value && Conflicts(ps[k], sku, editedId)
        && forall j :: 0 <= j < k ==> !Conflicts(ps[j], sku, editedId))
  {
    if ps == [] then None
    else if Conflicts(ps[0], sku, editedId) then Some(ps[0])
    else
      var found := FirstConflict(ps[1..], sku, editedId);
      assert forall k :: 1 <= k < |ps| ==> ps[k] == ps[1..][k - 1];
      found
  }

  /** `productsData?.find(...)`: no clash when the product list is absent. */
  function FindSkuConflict(productsData: Option<seq<Product>>, sku: string, editedId: Option<string>): (found: Option<Product>)
    ensures found.Some? <==> productsData.Some? && exists k :: 0 <= k < |productsData.value| && Conflicts(productsData.value[k], sku, editedId)
    ensures found.Some? ==> found.value in productsData.value && found.value.sku == sku && Some(found.value.id) != editedId
  {
    match productsData
    case None => None
    case Some(ps) => FirstConflict(ps, sku, editedId)
  }

  /** `product?._id`. */
  function EditedId(product: Option<Product>): (id: Option<string>)
    ensures id.Some? <==> product.Some?
    ensures product.Some? ==> id.value == product.value.id
  {
    if product.Some? then Some(product.value.id) else None
  }

  /** A value held by a form field: a primitive id, or a whole material record
      left there by the edit prefill. */
  datatype FieldValue = Value(v: Scalar) | Doc(doc: MaterialDoc)

  /** `String(v)`. */
  function FieldString(v: FieldValue): (s: string)
    ensures v.Value? && v.v.Str? ==> s == v.v.s
    ensures v.Value? && v.v.Num? ==> s == NumberString(v.v.n)
    ensures v.Doc? ==> s == "[object Object]"
  {
    match v
    case Value(Str(s)) => s
    case Value(Num(n)) => NumberString(n)
    case Doc(_) => "[object Object]"
  }

  /** The values the form holds when it is submitted. */
  datatype FormValues = FormValues(
    sku: string,
    productName: string,
    categoryId: Option<Scalar>,
    materialIds: Option<seq<FieldValue>>,
    price: Option<int>,
    status: string,
    mediaUrl: Option<string>)

  /** The payload sent to the server. */
  datatype FormData = FormData(
    sku: string,
    productName: string,
    categoryId: Option<Scalar>,
    materialIds: seq<string>,
    price: int,
    status: string,
    mediaUrl: Option<string>)

  /** `{...values, material_ids: values.material_ids?.map(String) || [],
      price: Number(values.price || 0)}`. */
  function NormalizeFormData(values: FormValues): (d: FormData)
    ensures d.sku == values.sku && d.productName == values.productName && d.categoryId == values.categoryId
    ensures d.status == values.status && d.mediaUrl == values.mediaUrl
    ensures values.materialIds.None? ==> d.materialIds == []
    ensures values.materialIds.Some? ==>
      |d.materialIds| == |values.materialIds.value|
      && forall i :: 0 <= i < |d.materialIds| ==> d.materialIds[i] == FieldString(values.materialIds.value[i])
    ensures d.price == (if values.price.Some? then values.price.value else 0)
  {
    var ms := ListOr(values.materialIds, []);
    FormData(values.sku, values.productName, values.categoryId,
      seq(|ms|, i requires 0 <= i < |ms| => FieldString(ms[i])),
      NumberOr(values.price, 0), values.status, values.mediaUrl)
  }

  /** Material ids that are already strings reach the server unchanged and in order. */
  lemma NormalizeKeepsStringIds(values: FormValues)
    requires values.materialIds.Some?
    requires forall i :: 0 <= i < |values.materialIds.value| ==> values.materialIds.value[i].Value? && values.materialIds.value[i].v.Str?
    ensures |NormalizeFormData(values).materialIds| == |values.materialIds.value|
    ensures forall i :: 0 <= i < |values.materialIds.value| ==> NormalizeFormData(values).materialIds[i] == values.materialIds.value[i].v.s
  {
  }

  /** `m._id || m`. */
  function PrefillMaterial(m: MaterialEntry): (v: FieldValue)
    ensures m.PopulatedMaterial? && m.doc.id.Some? && m.doc.id.value != "" ==> v == Value(Str(m.doc.id.value))
    ensures m.PopulatedMaterial? && (m.doc.id.None? || m.doc.id.value == "") ==> v == Doc(m.doc)
    ensures m.MaterialRef? ==> v == Value(m.ref)
  {
    match m
    case PopulatedMaterial(doc) => if doc.id.Some? && doc.id.value != "" then Value(Str(doc.id.value)) else Doc(doc)
    case MaterialRef(ref) => Value(ref)
  }

  /** The values filled in when an existing product is edited: its own fields,
      with the category flattened to the nested `category_id` (absent unless the
      category is populated) and each material mapped by PrefillMaterial. */
  function Prefill(p: Product): (v: FormValues)
    ensures v.sku == p.sku && v.productName == p.productName && v.price == p.price
    ensures v.status == p.status && v.mediaUrl == p.mediaUrl
    ensures v.categoryId == (if p.categoryId.Some? && p.categoryId.value.PopulatedCategory? then p.categoryId.value.doc.categoryId else None)
    ensures p.materialIds.None? ==> v.materialIds.None?
    ensures p.materialIds.Some? ==>
      v.materialIds.Some? && |v.materialIds.value| == |p.materialIds.value|
      && forall i :: 0 <= i < |p.materialIds.value| ==> v.materialIds.value[i] == PrefillMaterial(p.materialIds.value[i])
  {
    var category := match p.categoryId
      case Some(PopulatedCategory(doc)) => doc.categoryId
      case _ => None;
    var materials := match p.materialIds
      case None => None
      case Some(ms) => Some(seq(|ms|, i requires 0 <= i < |ms| => PrefillMaterial(ms[i])));
    FormValues(p.sku, p.productName, category, materials, p.price, p.status, p.mediaUrl)
  }

  /** Editing a product whose materials are populated records with ids, and
      submitting without touching them, sends back exactly those ids, in order. */
  lemma {:induction false} ResubmitKeepsMaterialIds(p: Product)
    requires p.materialIds.Some?
    requires forall i :: 0 <= i < |p.materialIds.value| ==>
      p.materialIds.value[i].PopulatedMaterial? && p.materialIds.value[i].doc.id.Some? && p.materialIds.value[i].doc.id.value != ""
    ensures var sent := NormalizeFormData(Prefill(p)).materialIds;
      |sent| == |p.materialIds.value|
      && forall i :: 0 <= i < |sent| ==> sent[i] == p.materialIds.value[i].doc.id.value
  {
    var v := Prefill(p);
    forall i | 0 <= i < |p.materialIds.value|
      ensures FieldString(v.materialIds.value[i]) == p.materialIds.value[i].doc.id.value
    {
      assert v.materialIds.value[i] == Value(Str(p.materialIds.value[i].doc.id.value));
    }
  }

  /** Editing a product and submitting it unchanged keeps its category id,
      provided the category came populated. */
  lemma ResubmitKeepsCategory(p: Product)
    requires p.categoryId.Some? && p.categoryId.value.PopulatedCategory?
    ensures NormalizeFormData(Prefill(p)).categoryId == p.categoryId.value.doc.categoryId
  {
  }

  /** What submitting the form dispatches. */
  datatype Submission = Blocked | CreateRequest(data: FormData) | UpdateRequest(id: string, data: FormData)

  /** The form's own state and the props it was given. */
  class ProductFormComponent {
    const product: Option<Product>
    const productsData: Option<seq<Product>>
    var newCategoryName: string
    var newMaterialName: string
    var skuError: string

    constructor (product: Option<Product>, productsData: Option<seq<Product>>)
      ensures this.product == product && this.productsData == productsData
      ensures newCategoryName == "" && newMaterialName == "" && skuError == ""
    {
      this.product := product;
      this.productsData := productsData;
      newCategoryName, newMaterialName, skuError := "", "", "";
    }

    /** The SKU input changed to `sku`: the error is set exactly when another
        product already has that SKU, and cleared for an empty input. */
    method HandleSkuChange(sku: string)
      modifies this`skuError
      ensures sku == [] ==> skuError == ""
      ensures sku != [] ==> (skuError == DuplicateSkuMessage <==> FindSkuConflict(productsData, sku, EditedId(product)).Some?)
      ensures skuError == "" || skuError == DuplicateSkuMessage
    {
      if sku == [] {
        skuError := "";
        return;
      }
      var existing := FindSkuConflict(productsData, sku, EditedId(product));
      if existing.Some? {
        skuError := DuplicateSkuMessage;
      } else {
        skuError := "";
      }
    }

    /** The form was submitted with `values`: nothing is dispatched while the
        SKU error shows; otherwise an update of the edited product, or a create. */
    method HandleFinish(values: FormValues) returns (submitted: Submission)
      ensures skuError != "" ==> submitted == Blocked
      ensures skuError == "" && product.Some? ==> submitted == UpdateRequest(product.value.id, NormalizeFormData(values))
      ensures skuError == "" && product.None? ==> submitted == CreateRequest(NormalizeFormData(values))
    {
      if skuError != "" {
        return Blocked;
      }
      var formData := NormalizeFormData(values);
      if product.Some? {
        submitted := UpdateRequest(product.value.id, formData);
      } else {
        submitted := CreateRequest(formData);
      }
    }

    method SetNewCategoryName(name: string)
      modifies this`newCategoryName
      ensures newCategoryName == name
    {
      newCategoryName := name;
    }

    method SetNewMaterialName(name: string)
      modifies this`newMaterialName
      ensures newMaterialName == name
    {
      newMaterialName := name;
    }

    /** "Add Category" was pressed. A blank name dispatches nothing; otherwise
        the name as typed is dispatched, and the input is cleared once the
        server has `created` it. */
    method AddNewCategory(created: bool) returns (request: Option<string>)
      modifies this`newCategoryName
      ensures request.None? <==> IsBlank(old(newCategoryName))
      ensures request.Some? ==> request.value == old(newCategoryName)
      ensures newCategoryName == (if request.Some? && created then "" else old(newCategoryName))
    {
      if IsBlank(newCategoryName) {
        return None;
      }
      request := Some(newCategoryName);
      if created {
        newCategoryName := "";
      }
    }

    /** "Add Material" was pressed; the same guard as for categories. */
    method AddNewMaterial(created: bool) returns (request: Option<string>)
      modifies this`newMaterialName
      ensures request.None? <==> IsBlank(old(newMaterialName))
      ensures request.Some? ==> request.value == old(newMaterialName)
      ensures newMaterialName == (if request.Some? && created then "" else old(newMaterialName))
    {
      if IsBlank(newMaterialName) {
        return None;
      }
      request := Some(newMaterialName);
      if created {
        newMaterialName := "";
      }
    }
  }
}
