/**
 * The product form (src/components/features/ProductForm.tsx): tag entry, the
 * non-numeric validation rules, and the multipart payload `onSubmit` builds.
 */
module ProductForm {
  import opened Wrappers
  import opened Seqs
  import opened Types
  import opened Http
  import opened AxiosConfig

  /** One variant as entered in the variants list. */
  datatype Variant = Variant(
    width: real, height: real, depth: real, weight: real,
    fabricCost: real, chaineCost: real, electricalCost: real, shippingCost: real,
    sellingPrice: real, costOfRevenue: real)

  /** The ten product-level measurements; each may be left empty. */
  datatype Measures = Measures(
    width: Option<real>, height: Option<real>, depth: Option<real>, weight: Option<real>,
    fabricCost: Option<real>, chaineCost: Option<real>, electricalCost: Option<real>, shippingCost: Option<real>,
    sellingPrice: Option<real>, costOfRevenue: Option<real>)

  /** The form's values as handed to `onSubmit`, once the schema has accepted them. */
  datatype ProductValues = ProductValues(
    reference: string,
    name: string,
    description: string,
    tags: seq<string>,
    picture: Option<File>,
    hasVariants: bool,
    variants: seq<Variant>,
    measures: Measures)

  /**
   * The picture field before validation: never written (the default values leave it
   * undefined), explicitly null, or a chosen file.
   */
  datatype PictureInput = PictureUnset | PictureNull | PictureFile(file: File)

  /**
   * The form's values as the schema sees them. A text field that was never typed into
   * is `None` (undefined); tags, the variants switch and the variants list have defaults.
   */
  datatype FormInput = FormInput(
    reference: Option<string>,
    name: Option<string>,
    description: Option<string>,
    tags: seq<string>,
    picture: PictureInput,
    hasVariants: bool,
    variants: seq<Variant>,
    measures: Measures)

  /** The values before the user touches anything. */
  function DefaultInput(): FormInput {
    FormInput(None, None, None, [], PictureUnset, false, [],
              Measures(None, None, None, None, None, None, None, None, None, None))
  }

  // ---------------------------------------------------------------- validation

  /** The fields with non-numeric rules, in schema order. */
  datatype Field = ReferenceField | NameField | DescriptionField | TagsField | PictureField

  /** A message the schema reports, with the field it is shown under. */
  datatype Issue = Issue(field: Field, message: string)

  const Required: string := "Required"
  const NotAFile: string := "Input not instance of File"
  const ReferenceRequired: string := "Reference is required"
  const NameRequired: string := "Name is required"
  const DescriptionTooShort: string := "Description must be at least 10 characters"
  const TagRequired: string := "At least one tag is required"

  /**
   * The length of a string as JavaScript counts it, in UTF-16 code units: a character
   * outside the Basic Multilingual Plane counts twice.
   */
  function Utf16Length(s: string): (r: nat)
    ensures |s| <= r <= 2 * |s|
    ensures r == 0 <==> s == []
    ensures (forall i :: 0 <= i < |s| ==> s[i] as int < 0x1_0000) ==> r == |s|
  {
    if s == [] then 0
    else (if s[0] as int < 0x1_0000 then 1 else 2) + Utf16Length(s[1..])
  }

  /** Five emoji are five characters but ten code units, so they make a long enough description. */
  lemma EmojiDescriptionLength()
    ensures var emoji := "\U{1F600}\U{1F600}\U{1F600}\U{1F600}\U{1F600}";
            |emoji| == 5 && Utf16Length(emoji) == 10
  {
    var emoji := "\U{1F600}\U{1F600}\U{1F600}\U{1F600}\U{1F600}";
    assert emoji[1..][1..][1..][1..][1..] == [];
  }

  /** The non-numeric schema rules: reference and name non-empty, a description of 10 code units or more, at least one tag, a picture that is a file or null. */
  predicate RulesHold(d: FormInput) {
    && d.reference.Some? && Utf16Length(d.reference.value) >= 1
    && d.name.Some? && Utf16Length(d.name.value) >= 1
    && d.description.Some? && Utf16Length(d.description.value) >= 10
    && |d.tags| >= 1
    && !d.picture.PictureUnset?
  }

  lemma MessagesDistinct()
    ensures Required != ReferenceRequired && Required != NameRequired && Required != DescriptionTooShort
  {
    assert |Required| == 8 && |ReferenceRequired| == 21 && |NameRequired| == 16 && |DescriptionTooShort| == 42;
  }

  /** A required string field: "Required" when undefined, `message` when shorter than `min` code units. */
  function StringIssues(field: Field, value: Option<string>, min: nat, message: string): (r: seq<Issue>)
    requires message != Required
    ensures |r| <= 1
    ensures r == [] <==> value.Some? && Utf16Length(value.value) >= min
    ensures Issue(field, Required) in r <==> value.None?
    ensures Issue(field, message) in r <==> value.Some? && Utf16Length(value.value) < min
    ensures forall i :: 0 <= i < |r| ==> r[i].field == field
    ensures forall x :: x in r ==> x.field == field
  {
    if value.None? then [Issue(field, Required)]
    else if Utf16Length(value.value) < min then [Issue(field, message)]
    else []
  }

  /** The messages the schema reports for the non-numeric fields, in field order, at most one per field. */
  function Issues(d: FormInput): (r: seq<Issue>)
    ensures r == [] <==> RulesHold(d)
    ensures Issue(TagsField, TagRequired) in r <==> d.tags == []
    ensures Issue(PictureField, NotAFile) in r <==> d.picture.PictureUnset?
  {
    MessagesDistinct();
    var reference := StringIssues(ReferenceField, d.reference, 1, ReferenceRequired);
    var name := StringIssues(NameField, d.name, 1, NameRequired);
    var description := StringIssues(DescriptionField, d.description, 10, DescriptionTooShort);
    var tags := if |d.tags| < 1 then [Issue(TagsField, TagRequired)] else [];
    var picture := if d.picture.PictureUnset? then [Issue(PictureField, NotAFile)] else [];
    reference + name + description + tags + picture
  }

  /** The string fields' issues: "Required" exactly when undefined, the field's own message exactly when too short. */
  lemma ReferenceIssues(d: FormInput)
    ensures Issue(ReferenceField, Required) in Issues(d) <==> d.reference.None?
    ensures Issue(ReferenceField, ReferenceRequired) in Issues(d) <==> d.reference == Some("")
  {
    MessagesDistinct();
  }

  lemma NameIssues(d: FormInput)
    ensures Issue(NameField, Required) in Issues(d) <==> d.name.None?
    ensures Issue(NameField, NameRequired) in Issues(d) <==> d.name == Some("")
  {
    MessagesDistinct();
  }

  lemma DescriptionIssues(d: FormInput)
    ensures Issue(DescriptionField, Required) in Issues(d) <==> d.description.None?
    ensures Issue(DescriptionField, DescriptionTooShort) in Issues(d) <==> d.description.Some? && Utf16Length(d.description.value) < 10
  {
    MessagesDistinct();
  }

  /** No two issues share a field. */
  predicate OnePerField(r: seq<Issue>) {
    forall i, j :: 0 <= i < j < |r| ==> r[i].field != r[j].field
  }

  lemma OnePerFieldConcat(a: seq<Issue>, b: seq<Issue>)
    requires OnePerField(a) && OnePerField(b)
    requires forall i, j :: 0 <= i < |a| && 0 <= j < |b| ==> a[i].field != b[j].field
    ensures OnePerField(a + b)
  {
    forall i, j | 0 <= i < j < |a + b| ensures (a + b)[i].field != (a + b)[j].field {
      if j < |a| {
      } else if i < |a| {
        assert (a + b)[j] == b[j - |a|];
      } else {
        assert (a + b)[i] == b[i - |a|] && (a + b)[j] == b[j - |a|];
      }
    }
  }

  /** The schema reports at most one issue per field, so no message is repeated. */
  lemma IssuesOnePerField(d: FormInput)
    ensures OnePerField(Issues(d))
    ensures NoDuplicates(Issues(d))
  {
    var reference := StringIssues(ReferenceField, d.reference, 1, ReferenceRequired);
    var name := StringIssues(NameField, d.name, 1, NameRequired);
    var description := StringIssues(DescriptionField, d.description, 10, DescriptionTooShort);
    var tags := if |d.tags| < 1 then [Issue(TagsField, TagRequired)] else [];
    var picture := if d.picture.PictureUnset? then [Issue(PictureField, NotAFile)] else [];
    OnePerFieldConcat(reference, name);
    OnePerFieldConcat(reference + name, description);
    OnePerFieldConcat(reference + name + description, tags);
    OnePerFieldConcat(reference + name + description + tags, picture);
    assert Issues(d) == reference + name + description + tags + picture;
  }

  /** What the schema hands to `onSubmit`: the values when every rule holds, nothing otherwise. */
  function Validate(d: FormInput): (r: Option<ProductValues>)
    ensures r.None? <==> !RulesHold(d)
    ensures r.Some? ==> r.value.reference == d.reference.value && r.value.name == d.name.value
    ensures r.Some? ==> r.value.description == d.description.value && r.value.tags == d.tags
    ensures r.Some? ==> (r.value.picture.None? <==> d.picture.PictureNull?)
    ensures r.Some? && d.picture.PictureFile? ==> r.value.picture == Some(d.picture.file)
    ensures r.Some? ==> r.value.hasVariants == d.hasVariants && r.value.variants == d.variants && r.value.measures == d.measures
  {
    if Issues(d) != [] then None
    else
      var picture := if d.picture.PictureFile? then Some(d.picture.file) else None;
      Some(ProductValues(d.reference.value, d.name.value, d.description.value, d.tags, picture,
                         d.hasVariants, d.variants, d.measures))
  }

  /** The file input's change handler: a chosen file replaces the value; an empty selection leaves it. */
  function PictureAfterChange(current: PictureInput, chosen: Option<File>): (r: PictureInput)
    ensures chosen.Some? ==> r == PictureFile(chosen.value)
    ensures chosen.None? ==> r == current
  {
    if chosen.Some? then PictureFile(chosen.value) else current
  }

  /** The picture value after a series of selections in the file input. */
  function PictureAfterChanges(start: PictureInput, selections: seq<Option<File>>): PictureInput
    decreases |selections|
  {
    if selections == [] then start
    else PictureAfterChanges(PictureAfterChange(start, selections[0]), selections[1..])
  }

  /**
   * The file input never writes null: from the default value, the picture is either still
   * unset (no file was ever chosen) or the last file chosen.
   */
  lemma {:induction false} PictureNeverNull(start: PictureInput, selections: seq<Option<File>>)
    requires !start.PictureNull?
    decreases |selections|
    ensures !PictureAfterChanges(start, selections).PictureNull?
    ensures PictureAfterChanges(start, selections).PictureUnset? <==>
              start.PictureUnset? && forall i :: 0 <= i < |selections| ==> selections[i].None?
  {
    if selections != [] {
      var next := PictureAfterChange(start, selections[0]);
      PictureNeverNull(next, selections[1..]);
      if next.PictureUnset? {
        assert forall i :: 1 <= i < |selections| ==> selections[i] == selections[1..][i - 1];
      }
    }
  }

  /**
   * Through the form's own inputs the picture is never null, so every submission the
   * schema accepts carries a file: the branch that leaves the picture out cannot be reached.
   */
  lemma AcceptedFormCarriesPicture(d: FormInput, selections: seq<Option<File>>)
    requires d.picture == PictureAfterChanges(PictureUnset, selections)
    requires RulesHold(d)
    ensures Validate(d).Some? && Validate(d).value.picture.Some?
  {
    PictureNeverNull(PictureUnset, selections);
  }

  // ---------------------------------------------------------------- payload

  function VariantJson(v: Variant): Json {
    JObj([("width", JNum(v.width)), ("height", JNum(v.height)), ("depth", JNum(v.depth)), ("weight", JNum(v.weight)),
          ("fabric_cost", JNum(v.fabricCost)), ("chaine_cost", JNum(v.chaineCost)),
          ("electrical_cost", JNum(v.electricalCost)), ("shipping_cost", JNum(v.shippingCost)),
          ("selling_price", JNum(v.sellingPrice)), ("cost_of_revenue", JNum(v.costOfRevenue))])
  }

  function VariantsJson(vs: seq<Variant>): (r: seq<Json>)
    ensures |r| == |vs|
    ensures forall i :: 0 <= i < |vs| ==> r[i] == VariantJson(vs[i])
  {
    if vs == [] then [] else [VariantJson(vs[0])] + VariantsJson(vs[1..])
  }

  /** An object member that `JSON.stringify` writes only when the value is defined. */
  function Member(key: string, value: Option<real>): seq<(string, Json)> {
    if value.Some? then [(key, JNum(value.value))] else []
  }

  /** The single variant built from the product-level fields; undefined fields are left out, as `JSON.stringify` does. */
  function MeasuresJson(m: Measures): Json {
    JObj(Member("width", m.width) + Member("height", m.height) + Member("depth", m.depth) + Member("weight", m.weight) +
         Member("fabric_cost", m.fabricCost) + Member("chaine_cost", m.chaineCost) +
         Member("electrical_cost", m.electricalCost) + Member("shipping_cost", m.shippingCost) +
         Member("selling_price", m.sellingPrice) + Member("cost_of_revenue", m.costOfRevenue))
  }

  /** The value of the `variants` entry: the list as entered, or exactly one variant built from the product-level fields. */
  function SubmittedVariants(d: ProductValues): (r: seq<Json>)
    ensures d.hasVariants ==> |r| == |d.variants| && forall i :: 0 <= i < |r| ==> r[i] == VariantJson(d.variants[i])
    ensures !d.hasVariants ==> r == [MeasuresJson(d.measures)]
  {
    if d.hasVariants then VariantsJson(d.variants) else [MeasuresJson(d.measures)]
  }

  function TagsJson(tags: seq<string>): (r: seq<Json>)
    ensures |r| == |tags|
    ensures forall i :: 0 <= i < |tags| ==> r[i] == JStr(tags[i])
  {
    if tags == [] then [] else [JStr(tags[0])] + TagsJson(tags[1..])
  }

  /**
   * The multipart form `onSubmit` builds: reference, name, description and the tags
   * always; the picture only when one was chosen; the variants last.
   */
  function BuildProductForm(d: ProductValues): (r: FormData)
    ensures FormKeys(r) == ["reference", "name", "description", "tags"]
                           + (if d.picture.Some? then ["picture"] else []) + ["variants"]
    ensures r[0].1 == FieldText(d.reference) && r[1].1 == FieldText(d.name) && r[2].1 == FieldText(d.description)
    ensures r[3].1 == FieldJson(JArr(TagsJson(d.tags)))
    ensures d.picture.Some? ==> r[4].1 == FieldFile(d.picture.value)
    ensures r[|r| - 1].1 == FieldJson(JArr(SubmittedVariants(d)))
  {
    var head: FormData := [("reference", FieldText(d.reference)),
                           ("name", FieldText(d.name)),
                           ("description", FieldText(d.description)),
                           ("tags", FieldJson(JArr(TagsJson(d.tags))))];
    var picture: FormData := if d.picture.Some? then [("picture", FieldFile(d.picture.value))] else [];
    var tail: FormData := [("variants", FieldJson(JArr(SubmittedVariants(d))))];
    assert FormKeys(head) == ["reference", "name", "description", "tags"];
    assert FormKeys(picture) == if d.picture.Some? then ["picture"] else [];
    assert FormKeys(tail) == ["variants"];
    FormKeysConcat(head, picture);
    FormKeysConcat(head + picture, tail);
    head + picture + tail
  }

  /** Reading a variant back from the JSON it was written as. */
  function VariantFromJson(j: Json): Option<Variant> {
    if j.JObj? && |j.members| == 10
       && j.members[0].0 == "width" && j.members[0].1.JNum?
       && j.members[1].0 == "height" && j.members[1].1.JNum?
       && j.members[2].0 == "depth" && j.members[2].1.JNum?
       && j.members[3].0 == "weight" && j.members[3].1.JNum?
       && j.members[4].0 == "fabric_cost" && j.members[4].1.JNum?
       && j.members[5].0 == "chaine_cost" && j.members[5].1.JNum?
       && j.members[6].0 == "electrical_cost" && j.members[6].1.JNum?
       && j.members[7].0 == "shipping_cost" && j.members[7].1.JNum?
       && j.members[8].0 == "selling_price" && j.members[8].1.JNum?
       && j.members[9].0 == "cost_of_revenue" && j.members[9].1.JNum?
    then Some(Variant(j.members[0].1.num, j.members[1].1.num, j.members[2].1.num, j.members[3].1.num,
                      j.members[4].1.num, j.members[5].1.num, j.members[6].1.num, j.members[7].1.num,
                      j.members[8].1.num, j.members[9].1.num))
    else None
  }

  /** Every entered variant is sent in full: it can be read back from what was sent. */
  lemma VariantRoundTrip(v: Variant)
    ensures VariantFromJson(VariantJson(v)) == Some(v)
  {
  }

  /**
   * Without the variants switch exactly one variant is sent; when all ten product-level
   * fields are filled in it is the variant those fields describe.
   */
  lemma SingleVariantFromMeasures(d: ProductValues, v: Variant)
    requires !d.hasVariants
    requires d.measures == Measures(Some(v.width), Some(v.height), Some(v.depth), Some(v.weight),
                                    Some(v.fabricCost), Some(v.chaineCost), Some(v.electricalCost), Some(v.shippingCost),
                                    Some(v.sellingPrice), Some(v.costOfRevenue))
    ensures |SubmittedVariants(d)| == 1
    ensures VariantFromJson(SubmittedVariants(d)[0]) == Some(v)
  {
    assert MeasuresJson(d.measures) == VariantJson(v);
  }

  /**
   * What submitting sends: nothing when a rule fails (the form library does not call
   * `onSubmit`); otherwise one multipart POST to `/products` of the validated values.
   */
  function Submission(d: FormInput): (r: Option<(Request, Headers)>)
    ensures r.None? <==> !RulesHold(d)
    ensures r.Some? ==> r.value.0 == Request(Post, [Lit("products")], Multipart(BuildProductForm(Validate(d).value)))
    ensures r.Some? ==> r.value.1 == map["Content-Type" := HeaderText("multipart/form-data")]
  {
    match Validate(d)
    case None => None
    case Some(values) =>
      Some((Request(Post, [Lit("products")], Multipart(BuildProductForm(values))),
            map["Content-Type" := HeaderText("multipart/form-data")]))
  }

  /** The untouched form is refused: the text fields are undefined, there is no tag and no picture. */
  lemma DefaultFormRefused()
    ensures Submission(DefaultInput()).None?
    ensures Issues(DefaultInput()) == [Issue(ReferenceField, Required), Issue(NameField, Required), Issue(DescriptionField, Required),
                                       Issue(TagsField, TagRequired), Issue(PictureField, NotAFile)]
  {
  }

  // ---------------------------------------------------------------- tags

  /** The tag list, the form's `tags` value, and the text being typed. */
  class TagEditor {
    var tags: seq<string>
    var formTags: seq<string>
    var currentTag: string

    constructor ()
      ensures tags == [] && formTags == [] && currentTag == ""
    {
      tags, formTags, currentTag := [], [], "";
    }

    method TypeTag(text: string)
      modifies this`currentTag
      ensures currentTag == text
    {
      currentTag := text;
    }

    /**
     * `handleAddTag`: on Enter with text that is not all white space, append the trimmed
     * text to the tags and to the form value and clear the input; otherwise nothing.
     */
    method HandleAddTag(key: string)
      modifies this
      ensures var t := Trim(old(currentTag));
              if key == "Enter" && t != "" then
                tags == old(tags) + [t] && formTags == old(tags) + [t] && currentTag == ""
              else
                tags == old(tags) && formTags == old(formTags) && currentTag == old(currentTag)
    {
      if key == "Enter" && Trim(currentTag) != "" {
        var t := Trim(currentTag);
        var updated := tags + [t];
        tags := updated;
        formTags := updated;
        currentTag := "";
      }
    }

    /** `handleRemoveTag`: drop every tag equal to the given one, keeping the rest in order, in both places. */
    method HandleRemoveTag(tag: string)
      modifies this`tags, this`formTags
      ensures tags == RemoveAll(old(tags), tag)
      ensures formTags == tags
    {
      var updated := RemoveAll(tags, tag);
      tags := updated;
      formTags := updated;
    }
  }
}
