/**
 * The records the dashboard exchanges with its REST API (src/types/index.ts).
 * Only the shapes the modelled code touches are given; timestamps are opaque text
 * and prices are carried as numbers without arithmetic.
 */
module Types {
  import opened Wrappers

  /** A merchant storefront. `logo` is absent when the store has none. */
  datatype Store = Store(id: int, name: string, logo: Option<string>, createdAt: string, updatedAt: string)

  datatype Category = Category(id: int, name: string, createdAt: string, updatedAt: string)

  /** The three kinds of attribute a category can declare. */
  datatype AttributeType = Text | Number | Select

  /** A predefined value of a category attribute, `{ value: string }`. */
  datatype ValueRecord = ValueRecord(value: string)

  datatype CategoryAttribute = CategoryAttribute(
    id: int,
    categoryId: int,
    name: string,
    attrType: AttributeType,
    unit: Option<string>,
    isRequired: bool,
    displayOrder: int,
    predefinedValues: Option<seq<ValueRecord>>,
    createdAt: Option<string>)

  /** The body sent to create or update a category attribute: the editor's form with its values wrapped as records. */
  datatype AttributePayload = AttributePayload(
    name: string,
    attrType: AttributeType,
    unit: string,
    isRequired: bool,
    displayOrder: int,
    predefinedValues: seq<ValueRecord>,
    categoryId: int)

  datatype Addon = Addon(id: int, storeId: int, categoryId: int, name: string, price: real, createdAt: string, updatedAt: string)

  /** The `Pick<Addon, "name" | "price">` body of addon create and update. */
  datatype AddonForm = AddonForm(name: string, price: real)

  /** A predefined value of a variant attribute. */
  datatype AttributeValue = AttributeValue(value: string, displayOrder: int)

  datatype VariantAttribute = VariantAttribute(
    id: Option<int>,
    categoryId: Option<int>,
    name: string,
    attrType: AttributeType,
    unit: Option<string>,
    displayOrder: int,
    predefinedValues: Option<seq<AttributeValue>>)

  /** A file chosen in a file input: its size in bytes and its MIME type. */
  datatype File = File(fileName: string, size: int, mimeType: string)

  /** A JSON value; `JSON.stringify` of it is what a form field carries. */
  datatype Json = JNull | JNum(num: real) | JStr(str: string) | JArr(items: seq<Json>) | JObj(members: seq<(string, Json)>)

  /** One value of a multipart form: text, a file, or the JSON text of a value. */
  datatype FormValue = FieldText(text: string) | FieldFile(file: File) | FieldJson(json: Json)

  /** A `FormData`: its entries in the order they were appended. */
  type FormData = seq<(string, FormValue)>

  /** The keys of a form, in order. */
  function FormKeys(form: FormData): (r: seq<string>)
    ensures |r| == |form|
    ensures forall i :: 0 <= i < |form| ==> r[i] == form[i].0
  {
    if form == [] then [] else [form[0].0] + FormKeys(form[1..])
  }

  /** The keys of two forms appended one after the other are the keys of the first, then those of the second. */
  lemma FormKeysConcat(a: FormData, b: FormData)
    ensures FormKeys(a + b) == FormKeys(a) + FormKeys(b)
  {
    var whole, parts := FormKeys(a + b), FormKeys(a) + FormKeys(b);
    forall i | 0 <= i < |whole| ensures whole[i] == parts[i] {
      if i < |a| {
        assert (a + b)[i] == a[i];
      } else {
        assert (a + b)[i] == b[i - |a|];
      }
    }
  }
}
