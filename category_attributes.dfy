/**
 * The category attribute editor (src/components/features/categoryAttributes.tsx):
 * a dialog form whose predefined values are edited as plain strings and sent as
 * `{ value }` records, and handlers that create, update, edit and delete attributes.
 */
module CategoryAttributes {
  import opened Wrappers
  import opened Seqs
  import opened Types
  import opened Http
  import opened CategoryService

  /** The dialog form's state. */
  datatype AttributeFormData = AttributeFormData(
    name: string,
    attrType: AttributeType,
    unit: string,
    isRequired: bool,
    displayOrder: int,
    predefinedValues: seq<string>,
    categoryId: int)

  /** The empty form: name "", type text, unit "", not required, order 0, no values. */
  function DefaultForm(categoryId: int): AttributeFormData {
    AttributeFormData("", Text, "", false, 0, [], categoryId)
  }

  /** `values.map(value => ({ value }))`. */
  function FormatValues(values: seq<string>): (r: seq<ValueRecord>)
    ensures |r| == |values|
    ensures forall i :: 0 <= i < |values| ==> r[i].value == values[i]
  {
    if values == [] then [] else [ValueRecord(values[0])] + FormatValues(values[1..])
  }

  /** `records.map(v => v.value)`. */
  function ValueStrings(records: seq<ValueRecord>): (r: seq<string>)
    ensures |r| == |records|
    ensures forall i :: 0 <= i < |records| ==> r[i] == records[i].value
  {
    if records == [] then [] else [records[0].value] + ValueStrings(records[1..])
  }

  /** Formatting and then reading back gives the strings that were entered. */
  lemma {:induction false} FormatRoundTrip(values: seq<string>)
    ensures ValueStrings(FormatValues(values)) == values
  {
    if values != [] {
      FormatRoundTrip(values[1..]);
    }
  }

  /** Reading the records of a stored attribute and formatting them again gives the same records. */
  lemma {:induction false} RecordsRoundTrip(records: seq<ValueRecord>)
    ensures FormatValues(ValueStrings(records)) == records
  {
    if records != [] {
      RecordsRoundTrip(records[1..]);
    }
  }

  /** The body `handleSubmit` sends: the form with its values wrapped as records, every other field copied. */
  function Formatted(form: AttributeFormData): (p: AttributePayload)
    ensures p.name == form.name && p.attrType == form.attrType && p.unit == form.unit
    ensures p.isRequired == form.isRequired && p.displayOrder == form.displayOrder && p.categoryId == form.categoryId
    ensures ValueStrings(p.predefinedValues) == form.predefinedValues
  {
    FormatRoundTrip(form.predefinedValues);
    AttributePayload(form.name, form.attrType, form.unit, form.isRequired, form.displayOrder,
                     FormatValues(form.predefinedValues), form.categoryId)
  }

  /** The service call of a submit: update the attribute being edited, or create one under the category. */
  function SubmitOp(editing: Option<CategoryAttribute>, categoryId: int, form: AttributeFormData): (op: CategoryOp)
    ensures Route(op).verb == (if editing.Some? then Put else Post)
    ensures Route(op).path == if editing.Some? then ItemPath("attributes", editing.value.id) else AttributesPath(categoryId)
    ensures Route(op).body == AttributeBody(Formatted(form))
  {
    if editing.Some? then UpdateAttribute(editing.value.id, Formatted(form)) else CreateAttribute(categoryId, Formatted(form))
  }

  /** The form `handleEdit` fills in: a missing unit becomes "", missing values become none, the category is the editor's. */
  function EditForm(a: CategoryAttribute, categoryId: int): (f: AttributeFormData)
    ensures f.name == a.name && f.attrType == a.attrType && f.isRequired == a.isRequired && f.displayOrder == a.displayOrder
    ensures f.unit == a.unit.GetOr("")
    ensures a.predefinedValues.None? ==> f.predefinedValues == []
    ensures a.predefinedValues.Some? ==> |f.predefinedValues| == |a.predefinedValues.value|
    ensures a.predefinedValues.Some? ==>
      forall i :: 0 <= i < |f.predefinedValues| ==> f.predefinedValues[i] == a.predefinedValues.value[i].value
    ensures a.predefinedValues.Some? ==> FormatValues(f.predefinedValues) == a.predefinedValues.value
    ensures f.categoryId == categoryId
  {
    RecordsRoundTrip(a.predefinedValues.GetOr([]));
    AttributeFormData(a.name, a.attrType, a.unit.GetOr(""), a.isRequired, a.displayOrder,
                      ValueStrings(a.predefinedValues.GetOr([])), categoryId)
  }

  /** Editing an attribute and submitting it unchanged sends back its own values as stored. */
  lemma EditThenSubmitKeepsValues(a: CategoryAttribute, categoryId: int)
    ensures Formatted(EditForm(a, categoryId)).predefinedValues == a.predefinedValues.GetOr([])
  {
    RecordsRoundTrip(a.predefinedValues.GetOr([]));
  }

  /** The editor's state. */
  class AttributesEditor {
    const categoryId: int
    var attributes: seq<CategoryAttribute>
    var isDialogOpen: bool
    var editingAttribute: Option<CategoryAttribute>
    var isLoading: bool
    var formData: AttributeFormData

    constructor (categoryId: int)
      ensures this.categoryId == categoryId && attributes == [] && !isDialogOpen
      ensures editingAttribute.None? && !isLoading && formData == DefaultForm(categoryId)
    {
      this.categoryId := categoryId;
      attributes, isDialogOpen, editingAttribute, isLoading := [], false, None, false;
      formData := DefaultForm(categoryId);
    }

    /** `loadAttributes`: a successful load replaces the list; a failed one leaves it. */
    method LoadAttributes(loaded: Option<seq<CategoryAttribute>>)
      modifies this`attributes
      ensures attributes == if loaded.Some? then loaded.value else old(attributes)
    {
      if loaded.Some? {
        attributes := loaded.value;
      }
    }

    /** `resetForm`: the default form, nothing being edited. */
    method ResetForm()
      modifies this`formData, this`editingAttribute
      ensures formData == DefaultForm(categoryId) && editingAttribute.None?
    {
      formData := DefaultForm(categoryId);
      editingAttribute := None;
    }

    /**
     * `handleSubmit`. `succeeded` is the outcome of the service call, `reloaded` that of
     * the list reload after it. On success the dialog closes and the form resets; on
     * failure only the loading flag changes back. The flag is set while the call is out.
     */
    method HandleSubmit(succeeded: bool, reloaded: Option<seq<CategoryAttribute>>) returns (call: CategoryOp, loadingDuringCall: bool)
      modifies this
      ensures call == SubmitOp(old(editingAttribute), categoryId, old(formData))
      ensures loadingDuringCall && !isLoading
      ensures succeeded ==> !isDialogOpen && formData == DefaultForm(categoryId) && editingAttribute.None?
                            && attributes == (if reloaded.Some? then reloaded.value else old(attributes))
      ensures !succeeded ==> isDialogOpen == old(isDialogOpen) && formData == old(formData)
                             && editingAttribute == old(editingAttribute) && attributes == old(attributes)
    {
      isLoading := true;
      var payload := Formatted(formData);
      if editingAttribute.Some? {
        call := UpdateAttribute(editingAttribute.value.id, payload);
      } else {
        call := CreateAttribute(categoryId, payload);
      }
      loadingDuringCall := isLoading;
      if succeeded {
        LoadAttributes(reloaded);
        isDialogOpen := false;
        ResetForm();
      }
      isLoading := false;
    }

    /** `handleDelete`: a declined confirmation issues nothing and changes nothing. */
    method HandleDelete(id: int, confirmed: bool, succeeded: bool, reloaded: Option<seq<CategoryAttribute>>)
      returns (call: Option<CategoryOp>)
      modifies this`attributes
      ensures call == if confirmed then Some(DeleteAttribute(id)) else None
      ensures attributes == if confirmed && succeeded && reloaded.Some? then reloaded.value else old(attributes)
    {
      if !confirmed {
        return None;
      }
      call := Some(DeleteAttribute(id));
      if succeeded {
        LoadAttributes(reloaded);
      }
    }

    /** `handleEdit`: remember the attribute, load it into the form, open the dialog. */
    method HandleEdit(a: CategoryAttribute)
      modifies this`editingAttribute, this`formData, this`isDialogOpen
      ensures editingAttribute == Some(a) && formData == EditForm(a, categoryId) && isDialogOpen
    {
      editingAttribute := Some(a);
      formData := EditForm(a, categoryId);
      isDialogOpen := true;
    }

    /** Typing into the value at position `i` changes that position only. */
    method EditValue(i: nat, text: string)
      requires i < |formData.predefinedValues|
      modifies this`formData
      ensures formData == old(formData).(predefinedValues := old(formData.predefinedValues)[i := text])
    {
      formData := formData.(predefinedValues := formData.predefinedValues[i := text]);
    }

    /** The remove button of position `i` drops exactly that value. */
    method RemoveValue(i: nat)
      requires i < |formData.predefinedValues|
      modifies this`formData
      ensures formData == old(formData).(predefinedValues := RemoveAt(old(formData.predefinedValues), i))
    {
      formData := formData.(predefinedValues := RemoveAt(formData.predefinedValues, i));
    }

    /** "Add Value" appends an empty value. */
    method AddValue()
      modifies this`formData
      ensures formData == old(formData).(predefinedValues := old(formData.predefinedValues) + [""])
    {
      formData := formData.(predefinedValues := formData.predefinedValues + [""]);
    }
  }
}
