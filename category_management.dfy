/**
 * The category list page (src/components/features/categoryManagement.tsx): create, rename
 * and delete categories through the category service, and select one for the panels beside it.
 */
module CategoryManagement {
  import opened Wrappers
  import opened Types
  import opened Http
  import opened CategoryService

  /** The service call a submit issues: rename the category being edited, otherwise create one. */
  function SubmitOp(editing: Option<Category>, name: string): (op: CategoryOp)
    ensures Route(op).verb == (if editing.Some? then Put else Post)
    ensures Route(op).path == if editing.Some? then ItemPath("categories", editing.value.id) else CategoriesPath()
    ensures Route(op).body == NameBody(name)
  {
    if editing.Some? then UpdateCategory(editing.value.id, name) else CreateCategory(name)
  }

  /** The selection after a delete: cleared exactly when the deleted category was the selected one. */
  function SelectionAfterDelete(selected: Option<int>, deleted: int): (r: Option<int>)
    ensures r.None? <==> selected.None? || selected.value == deleted
    ensures r.Some? ==> r == selected
  {
    if selected == Some(deleted) then None else selected
  }

  class Management {
    var categories: seq<Category>
    var isAddDialogOpen: bool
    var editingCategory: Option<Category>
    var categoryName: string
    var isLoading: bool
    var selectedCategoryId: Option<int>

    constructor ()
      ensures categories == [] && !isAddDialogOpen && editingCategory.None? && categoryName == ""
      ensures !isLoading && selectedCategoryId.None?
    {
      categories, isAddDialogOpen, editingCategory, categoryName := [], false, None, "";
      isLoading, selectedCategoryId := false, None;
    }

    /** `loadCategories`: a successful load replaces the list; a failed one leaves it. */
    method LoadCategories(loaded: Option<seq<Category>>)
      modifies this`categories
      ensures categories == if loaded.Some? then loaded.value else old(categories)
    {
      if loaded.Some? {
        categories := loaded.value;
      }
    }

    /**
     * `handleSubmit`. `succeeded` is the service call's outcome and `reloaded` the reload's.
     * On success the name and the edited category are cleared and the dialog closes; on failure
     * they stay. The loading flag is up while the call is out and down afterwards.
     */
    method HandleSubmit(succeeded: bool, reloaded: Option<seq<Category>>) returns (call: CategoryOp, loadingDuringCall: bool)
      modifies this`categories, this`isAddDialogOpen, this`editingCategory, this`categoryName, this`isLoading
      ensures call == SubmitOp(old(editingCategory), old(categoryName))
      ensures loadingDuringCall && !isLoading
      ensures succeeded ==> categoryName == "" && editingCategory.None? && !isAddDialogOpen
                            && categories == (if reloaded.Some? then reloaded.value else old(categories))
      ensures !succeeded ==> categoryName == old(categoryName) && editingCategory == old(editingCategory)
                             && isAddDialogOpen == old(isAddDialogOpen) && categories == old(categories)
    {
      isLoading := true;
      if editingCategory.Some? {
        call := UpdateCategory(editingCategory.value.id, categoryName);
      } else {
        call := CreateCategory(categoryName);
      }
      loadingDuringCall := isLoading;
      if succeeded {
        LoadCategories(reloaded);
        categoryName := "";
        editingCategory := None;
        isAddDialogOpen := false;
      }
      isLoading := false;
    }

    /**
     * `handleDelete`: a declined confirmation issues nothing and changes nothing; a successful
     * delete reloads and clears the selection if it was the deleted category.
     */
    method HandleDelete(id: int, confirmed: bool, succeeded: bool, reloaded: Option<seq<Category>>)
      returns (call: Option<CategoryOp>)
      modifies this`categories, this`selectedCategoryId
      ensures call == if confirmed then Some(DeleteCategory(id)) else None
      ensures categories == if confirmed && succeeded && reloaded.Some? then reloaded.value else old(categories)
      ensures selectedCategoryId == if confirmed && succeeded then SelectionAfterDelete(old(selectedCategoryId), id)
                                    else old(selectedCategoryId)
    {
      if !confirmed {
        return None;
      }
      call := Some(DeleteCategory(id));
      if succeeded {
        LoadCategories(reloaded);
        if selectedCategoryId == Some(id) {
          selectedCategoryId := None;
        }
      }
    }

    /** `handleEdit`: edit this category, start from its name, open the dialog. */
    method HandleEdit(c: Category)
      modifies this`editingCategory, this`categoryName, this`isAddDialogOpen
      ensures editingCategory == Some(c) && categoryName == c.name && isAddDialogOpen
    {
      editingCategory := Some(c);
      categoryName := c.name;
      isAddDialogOpen := true;
    }

    /** `handleCategorySelect`: record the id and hand id and name on to the parent's callback. */
    method HandleCategorySelect(id: int, name: string) returns (forwarded: (int, string))
      modifies this`selectedCategoryId
      ensures selectedCategoryId == Some(id) && forwarded == (id, name)
    {
      selectedCategoryId := Some(id);
      forwarded := (id, name);
    }
  }
}
