/**
 * The add-ons panel of one category in one store (src/components/features/categoryAddons.tsx):
 * list, create, edit and delete priced add-ons through the category service.
 */
module CategoryAddons {
  import opened Wrappers
  import opened Types
  import opened Http
  import opened CategoryService

  /** The form's empty state: no name, price 0. */
  const EmptyForm := AddonForm("", 0.0)

  /** The service call a submit issues: update the add-on being edited, otherwise create one under the store and category. */
  function SubmitOp(editing: Option<Addon>, storeId: int, categoryId: int, form: AddonForm): (op: CategoryOp)
    ensures Route(op).verb == (if editing.Some? then Put else Post)
    ensures Route(op).path == if editing.Some? then ItemPath("addons", editing.value.id) else AddonsPath(storeId, categoryId)
    ensures Route(op).body == AddonBody(form)
  {
    if editing.Some? then UpdateAddon(editing.value.id, form) else CreateAddon(storeId, categoryId, form)
  }

  /** The form `handleEdit` starts from: the add-on's own name and price. */
  function EditForm(a: Addon): (f: AddonForm)
    ensures f.name == a.name && f.price == a.price
  {
    AddonForm(a.name, a.price)
  }

  /** Submitting straight after an edit click sends the add-on's own name and price back to its own id. */
  lemma EditThenSubmit(a: Addon, storeId: int, categoryId: int)
    ensures Route(SubmitOp(Some(a), storeId, categoryId, EditForm(a)))
            == Request(Put, ItemPath("addons", a.id), AddonBody(AddonForm(a.name, a.price)))
  {
  }

  class AddonsPanel {
    const storeId: int
    const categoryId: int
    var addons: seq<Addon>
    var isDialogOpen: bool
    var editingAddon: Option<Addon>
    var isLoading: bool
    var formData: AddonForm

    constructor (storeId: int, categoryId: int)
      ensures this.storeId == storeId && this.categoryId == categoryId
      ensures addons == [] && !isDialogOpen && editingAddon.None? && !isLoading && formData == EmptyForm
    {
      this.storeId, this.categoryId := storeId, categoryId;
      addons, isDialogOpen, editingAddon, isLoading, formData := [], false, None, false, EmptyForm;
    }

    /** `loadAddons`: a successful load replaces the list; a failed one leaves it. */
    method LoadAddons(loaded: Option<seq<Addon>>)
      modifies this`addons
      ensures addons == if loaded.Some? then loaded.value else old(addons)
    {
      if loaded.Some? {
        addons := loaded.value;
      }
    }

    /** `resetForm`: empty form, nothing being edited. */
    method ResetForm()
      modifies this`formData, this`editingAddon
      ensures formData == EmptyForm && editingAddon.None?
    {
      formData := EmptyForm;
      editingAddon := None;
    }

    /**
     * `handleSubmit`. On success the dialog closes and the form resets; on failure dialog, form
     * and edited add-on stay. The loading flag is up while the call is out and down afterwards.
     */
    method HandleSubmit(succeeded: bool, reloaded: Option<seq<Addon>>) returns (call: CategoryOp, loadingDuringCall: bool)
      modifies this`addons, this`isDialogOpen, this`editingAddon, this`isLoading, this`formData
      ensures call == SubmitOp(old(editingAddon), storeId, categoryId, old(formData))
      ensures loadingDuringCall && !isLoading
      ensures succeeded ==> !isDialogOpen && formData == EmptyForm && editingAddon.None?
                            && addons == (if reloaded.Some? then reloaded.value else old(addons))
      ensures !succeeded ==> isDialogOpen == old(isDialogOpen) && formData == old(formData)
                             && editingAddon == old(editingAddon) && addons == old(addons)
    {
      isLoading := true;
      if editingAddon.Some? {
        call := UpdateAddon(editingAddon.value.id, formData);
      } else {
        call := CreateAddon(storeId, categoryId, formData);
      }
      loadingDuringCall := isLoading;
      if succeeded {
        LoadAddons(reloaded);
        isDialogOpen := false;
        ResetForm();
      }
      isLoading := false;
    }

    /** `handleDelete`: a declined confirmation issues nothing and changes nothing. */
    method HandleDelete(id: int, confirmed: bool, succeeded: bool, reloaded: Option<seq<Addon>>)
      returns (call: Option<CategoryOp>)
      modifies this`addons
      ensures call == if confirmed then Some(DeleteAddon(id)) else None
      ensures addons == if confirmed && succeeded && reloaded.Some? then reloaded.value else old(addons)
    {
      if !confirmed {
        return None;
      }
      call := Some(DeleteAddon(id));
      if succeeded {
        LoadAddons(reloaded);
      }
    }

    /** `handleEdit`: edit this add-on, start from its name and price, open the dialog. */
    method HandleEdit(a: Addon)
      modifies this`editingAddon, this`formData, this`isDialogOpen
      ensures editingAddon == Some(a) && formData == EditForm(a) && isDialogOpen
    {
      editingAddon := Some(a);
      formData := EditForm(a);
      isDialogOpen := true;
    }
  }
}
