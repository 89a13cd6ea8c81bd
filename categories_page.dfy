/**
 * The admin categories page (`admin/categories/page.tsx`): the fetched list
 * and the delete-with-confirmation state, with its own message for a
 * category that products still reference.
 */
module CategoriesPage {
  import opened Wrappers
  import opened Types
  import opened Backend
  import opened Collections

  /** Postgres `foreign_key_violation`. */
  const ForeignKeyViolation := "23503"

  const DeletedMessage := "Category deleted successfully"
  const ReferencedMessage := "Cannot delete category because it is referenced by products"
  const DeleteFailedMessage := "Failed to delete category"
  const LoadFailedMessage := "Failed to load categories"

  /** The notification for a failed delete: code `23503` has its own message, every other code the generic one. */
  function DeleteFailureMessage(e: DbError): (m: string)
    ensures m == ReferencedMessage <==> e.code == ForeignKeyViolation
    ensures m == DeleteFailedMessage <==> e.code != ForeignKeyViolation
  {
    if e.code == ForeignKeyViolation then ReferencedMessage else DeleteFailedMessage
  }

  function IdIsNot(id: string): Category -> bool {
    (c: Category) => c.id != id
  }

  /** `categories.filter((c) => c.id !== id)`. */
  function WithoutId(cs: seq<Category>, id: string): seq<Category> {
    Filter(cs, IdIsNot(id))
  }

  /** Removing an id keeps exactly the other categories, and keeps them in order. */
  lemma WithoutIdRemovesExactly(cs: seq<Category>, id: string, c: Category, rest: seq<Category>)
    ensures c in WithoutId(cs, id) <==> c in cs && c.id != id
    ensures WithoutId(cs + rest, id) == WithoutId(cs, id) + WithoutId(rest, id)
  {
    FilterMembership(cs, IdIsNot(id), c);
    FilterAppend(cs, rest, IdIsNot(id));
  }

  /** The page's state. */
  class CategoriesPage {
    var categories: seq<Category>
    var error: Option<string>
    var loading: bool
    var isModalOpen: bool
    var selectedCategory: Option<Category>

    /** The modal is open exactly while a category is selected. */
    ghost predicate Valid()
      reads this
    {
      isModalOpen <==> selectedCategory.Some?
    }

    constructor ()
      ensures Valid()
      ensures categories == [] && error == None && loading && !isModalOpen && selectedCategory == None
    {
      categories := [];
      error := None;
      loading := true;
      isModalOpen := false;
      selectedCategory := None;
    }

    /** `fetchCategories`: a `null` list is empty; an error leaves the list; loading ends on every path. */
    method FetchCategories(response: QueryResponse<seq<Category>>) returns (notice: Notice)
      modifies this`categories, this`error, this`loading
      ensures !loading
      ensures response.QueryResult? && response.error.None? ==>
        categories == response.data.GetOr([]) && error == old(error) && notice == NoToast
      ensures response.QueryResult? && response.error.Some? ==>
        categories == old(categories) && error == Some(LoadFailedMessage) && notice == ErrorToast(LoadFailedMessage)
      ensures response.QueryThrew? ==>
        categories == old(categories) && error == Some(UnexpectedError) && notice == ErrorToast(UnexpectedError)
    {
      notice := NoToast;
      match response {
        case QueryResult(data, err) =>
          if err.Some? {
            error := Some(LoadFailedMessage);
            notice := ErrorToast(LoadFailedMessage);
          } else {
            categories := data.GetOr([]);
          }
        case QueryThrew(_) =>
          error := Some(UnexpectedError);
          notice := ErrorToast(UnexpectedError);
      }
      loading := false;
    }

    /** `openDeleteModal`: select the row's category and open the modal. */
    method OpenDeleteModal(category: Category)
      modifies this`isModalOpen, this`selectedCategory
      ensures Valid() && isModalOpen && selectedCategory == Some(category)
    {
      selectedCategory := Some(category);
      isModalOpen := true;
    }

    /** `closeModal`: close the modal and drop the selection. */
    method CloseModal()
      modifies this`isModalOpen, this`selectedCategory
      ensures Valid() && !isModalOpen && selectedCategory == None
    {
      isModalOpen := false;
      selectedCategory := None;
    }

    /**
     * `handleDeleteCategory`: without a selection, nothing happens. Otherwise
     * only a success removes the selected id; a failure keeps the list and
     * is reported by its code; the modal is closed and the selection dropped
     * on every outcome.
     */
    method HandleDeleteCategory(response: MutationResponse) returns (notice: Notice)
      requires Valid()
      modifies this`categories, this`isModalOpen, this`selectedCategory
      ensures Valid()
      ensures old(selectedCategory).None? ==>
        categories == old(categories) && !isModalOpen && selectedCategory == None && notice == NoToast
      ensures old(selectedCategory).Some? ==> !isModalOpen && selectedCategory == None
      ensures old(selectedCategory).Some? && response == MutationResult(None) ==>
        categories == WithoutId(old(categories), old(selectedCategory).value.id) && notice == SuccessToast(DeletedMessage)
      ensures old(selectedCategory).Some? && response.MutationResult? && response.error.Some? ==>
        categories == old(categories) && notice == ErrorToast(DeleteFailureMessage(response.error.value))
      ensures old(selectedCategory).Some? && response.MutationThrew? ==>
        categories == old(categories) && notice == ErrorToast(UnexpectedError)
    {
      if selectedCategory.None? {
        return NoToast;
      }
      var id := selectedCategory.value.id;
      match response {
        case MutationResult(err) =>
          if err.Some? {
            notice := ErrorToast(DeleteFailureMessage(err.value));
          } else {
            categories := WithoutId(categories, id);
            notice := SuccessToast(DeletedMessage);
          }
        case MutationThrew(_) =>
          notice := ErrorToast(UnexpectedError);
      }
      // finally
      isModalOpen := false;
      selectedCategory := None;
    }
  }
}
