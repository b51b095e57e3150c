/** The menu screen: the search and category filter over the catalogue, and the handlers
    that route the form and the delete dialog to the store. */
module MenuManagement {
  import opened Wrappers
  import opened Text
  import Seqs
  import Validation
  import opened MenuStore

  const AllCategories := "all"

  /** The item's name contains the search term, ignoring ASCII case, and the category
      filter is `all` or the item's category exactly. */
  predicate Matches(item: MenuItem, searchTerm: string, category: string) {
    && Contains(ToLower(item.name), ToLower(searchTerm))
    && (category == AllCategories || item.category == category)
  }

  /** Matching ignores ASCII case: lower-casing the name and the term first changes nothing. */
  lemma MatchesIgnoresCase(item: MenuItem, searchTerm: string, category: string)
    ensures Matches(item, searchTerm, category)
      <==> Matches(item.(name := ToLower(item.name)), ToLower(searchTerm), category)
  {
    ToLowerIdempotent(item.name);
    ToLowerIdempotent(searchTerm);
  }

  /** A search term inside the name matches in any case, filtered by the category. */
  lemma MatchExamples(item: MenuItem)
    requires item.name == "Butter Chicken" && item.category == "Main Course"
    ensures Matches(item, "CHICK", AllCategories)
    ensures Matches(item, "chick", "Main Course")
    ensures !Matches(item, "chick", "Desserts")
  {
    assert ToLower("CHICK") == "chick" == ToLower("chick");
    assert ToLower(item.name) == "butter chicken";
    assert OccursAt("butter chicken", "chick", 7);
  }

  /** `filteredItems`. */
  function FilteredItems(items: seq<MenuItem>, searchTerm: string, category: string): (r: seq<MenuItem>)
    ensures forall i :: 0 <= i < |r| ==> r[i] in items && Matches(r[i], searchTerm, category)
    ensures forall i :: 0 <= i < |items| && Matches(items[i], searchTerm, category) ==> items[i] in r
  {
    Seqs.Filter(items, (m: MenuItem) => Matches(m, searchTerm, category))
  }

  /** The filter keeps the order of the list and every matching duplicate. */
  lemma FilterPreservesOrder(items: seq<MenuItem>, searchTerm: string, category: string, m: MenuItem)
    ensures Seqs.IsSubsequence(FilteredItems(items, searchTerm, category), items)
    ensures multiset(FilteredItems(items, searchTerm, category))[m]
      == if Matches(m, searchTerm, category) then multiset(items)[m] else 0
  {
    Seqs.FilterIsSubsequence(items, (x: MenuItem) => Matches(x, searchTerm, category));
    Seqs.FilterMultiplicity(items, (x: MenuItem) => Matches(x, searchTerm, category), m);
  }

  /** With no search term and the `all` category the whole list is shown. */
  lemma NoFilterShowsAll(items: seq<MenuItem>)
    ensures FilteredItems(items, "", AllCategories) == items
  {
    forall i | 0 <= i < |items| ensures Matches(items[i], "", AllCategories) {
      ContainsEmpty(ToLower(items[i].name));
    }
    Seqs.FilterKeepsAll(items, (x: MenuItem) => Matches(x, "", AllCategories));
  }

  datatype FormMode = AddMode | EditMode

  datatype PendingDelete = PendingDelete(id: string, name: string)

  /** What `handleFormSubmit` returns: the store's reply, or `{success: false}` when the
      form is in edit mode with no item being edited. */
  datatype SubmitResult = Dispatched(reply: MutationReply) | NothingToEdit

  class MenuScreen {
    const store: MenuItemStore
    var searchTerm: string
    var selectedCategory: string
    var formOpen: bool
    var formMode: FormMode
    var editingItem: Option<MenuItem>
    var deleteDialogOpen: bool
    var itemToDelete: Option<PendingDelete>

    constructor (store: MenuItemStore)
      ensures this.store == store
      ensures searchTerm == "" && selectedCategory == AllCategories && !formOpen && formMode == AddMode
      ensures editingItem == None && !deleteDialogOpen && itemToDelete == None
    {
      this.store := store;
      searchTerm := "";
      selectedCategory := AllCategories;
      formOpen := false;
      formMode := AddMode;
      editingItem := None;
      deleteDialogOpen := false;
      itemToDelete := None;
    }

    /** The search box and the category buttons. */
    method SetSearchTerm(term: string)
      modifies this`searchTerm
      ensures searchTerm == term
    {
      searchTerm := term;
    }

    method SelectCategory(category: string)
      modifies this`selectedCategory
      ensures selectedCategory == category
    {
      selectedCategory := category;
    }

    method HandleAddNewItem()
      modifies this`formMode, this`editingItem, this`formOpen
      ensures formMode == AddMode && editingItem == None && formOpen
    {
      formMode := AddMode;
      editingItem := None;
      formOpen := true;
    }

    method HandleEditItem(item: MenuItem)
      modifies this`formMode, this`editingItem, this`formOpen
      ensures formMode == EditMode && editingItem == Some(item) && formOpen
    {
      formMode := EditMode;
      editingItem := Some(item);
      formOpen := true;
    }

    method HandleDeleteClick(id: string, name: string)
      modifies this`itemToDelete, this`deleteDialogOpen
      ensures itemToDelete == Some(PendingDelete(id, name)) && deleteDialogOpen
    {
      itemToDelete := Some(PendingDelete(id, name));
      deleteDialogOpen := true;
    }

    /** `handleDeleteConfirm`: deletes the pending item, then clears it and closes the
        dialog whatever the delete answered; does nothing when no item is pending. */
    method HandleDeleteConfirm(remove: string -> bool)
      modifies this`itemToDelete, this`deleteDialogOpen, store`items
      ensures old(itemToDelete).None? ==>
        store.items == old(store.items) && itemToDelete == None && deleteDialogOpen == old(deleteDialogOpen)
      ensures old(itemToDelete).Some? ==>
        && store.items == DeleteStep(old(store.items), old(itemToDelete).value.id, remove(old(itemToDelete).value.id)).items
        && itemToDelete == None && !deleteDialogOpen
    {
      if itemToDelete.Some? {
        var _ := store.Delete(itemToDelete.value.id, remove);
        deleteDialogOpen := false;
        itemToDelete := None;
      }
    }

    /** `handleFormSubmit`: add mode adds, edit mode updates the item being edited with
        every field of the form; otherwise nothing is sent. */
    method HandleFormSubmit(data: Validation.MenuItemInput, isUrl: string -> bool,
                            insert: Validation.ValidItem -> RowResult,
                            update: (string, MenuItemPatch) -> RowResult) returns (r: SubmitResult)
      modifies store`items
      ensures formMode == AddMode ==>
        (r.Dispatched? && Step(store.items, r.reply) == AddStep(old(store.items), data, isUrl, insert))
      ensures formMode == EditMode && editingItem.Some? ==>
        (r.Dispatched? &&
         Step(store.items, r.reply) == UpdateStep(old(store.items), editingItem.value.id, PatchOf(data), update))
      ensures formMode == EditMode && editingItem.None? ==> r == NothingToEdit && store.items == old(store.items)
    {
      if formMode == AddMode {
        var reply := store.Add(data, isUrl, insert);
        r := Dispatched(reply);
      } else if editingItem.Some? {
        var reply := store.Update(editingItem.value.id, PatchOf(data), update);
        r := Dispatched(reply);
      } else {
        r := NothingToEdit;
      }
    }

    method HandleToggleAvailability(id: string, currentStatus: bool,
                                    update: (string, MenuItemPatch) -> RowResult)
      modifies store`items
      ensures store.items == UpdateStep(old(store.items), id, AvailabilityPatch(currentStatus), update).items
    {
      var _ := store.ToggleAvailability(id, currentStatus, update);
    }
  }
}
