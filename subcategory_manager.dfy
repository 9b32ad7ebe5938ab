/** `src/components/common/SubcategoryManager.js` without its markup: the
    subcategory modal's submit, the component's selection toggle and delete
    confirmation, the `useSubcategoryManager` hook and the
    `SubcategoryDisplay` lookup. The selected id belongs to the parent; the
    component's field stands for it, assuming the parent stores what
    `onSubcategorySelect` hands it. */
module SubcategoryManager {
  import opened Wrappers
  import opened Text
  import Api
  import Helpers
  import opened Subcategories

  /** The modal's form. */
  datatype ModalForm = ModalForm(name: string, categoryId: Option<int>)

  /** The modal's checks, in the hook's order: the name, then the category. */
  function ValidateModal(form: ModalForm): (r: Option<Message>)
    ensures r == Some(NameRequired) <==> IsBlank(form.name)
    ensures r == Some(CategoryRequired) <==> !IsBlank(form.name) && !Helpers.Present(form.categoryId)
    ensures r.None? <==> !IsBlank(form.name) && Helpers.Present(form.categoryId)
  {
    ValidateSubcategory(SubcategoryData(Some(form.name), form.categoryId, None))
  }

  /** What the modal hands to `onSave`: the trimmed name, the category, and
      the id only when editing. */
  function ModalPayload(form: ModalForm, editingId: Option<int>): (r: SubcategoryData)
    ensures r.name == Some(Trim(form.name)) && r.categoryId == form.categoryId && r.id == editingId
  {
    SubcategoryData(Some(Trim(form.name)), form.categoryId, editingId)
  }

  /** A payload built from a form that passed the modal's checks also passes
      the store's checks, so saving it reaches the service. */
  lemma ModalPayloadPassesStoreValidation(form: ModalForm, editingId: Option<int>)
    requires ValidateModal(form).None?
    ensures ValidateSubcategory(ModalPayload(form, editingId)).None?
  {
    TrimIdempotent(form.name);
  }

  /** The subcategory modal. `editingId` is the edited subcategory's id, or
      `None` when creating. */
  class SubcategoryModal {
    var form: ModalForm
    var error: Option<Message>
    const editingId: Option<int>

    constructor (form0: ModalForm, editingId: Option<int>)
      ensures form == form0 && error.None? && this.editingId == editingId
    {
      form := form0;
      error := None;
      this.editingId := editingId;
    }

    /** `handleSubmit`: `onSave` is called only when the form passes, and the
        modal closes only when `onSave` succeeds. */
    method HandleSubmit(saveOutcome: Result<(), Api.Thrown>)
      returns (saved: Option<SubcategoryData>, closed: bool)
      modifies this`error
      ensures ValidateModal(form).Some? ==> saved.None? && !closed && error == ValidateModal(form)
      ensures ValidateModal(form).None? ==> saved == Some(ModalPayload(form, editingId))
      ensures closed <==> saved.Some? && saveOutcome.Success?
      ensures closed ==> error.None?
      ensures saved.Some? && saveOutcome.Failure? ==>
                error == Some(ErrorText(saveOutcome.error, Raw("Erro ao salvar subcategoria")))
    {
      error := None;
      var invalid := ValidateModal(form);
      if invalid.Some? {
        error := invalid;
        return None, false;
      }
      saved := Some(ModalPayload(form, editingId));
      match saveOutcome {
        case Success(_) =>
          closed := true;
        case Failure(err) =>
          error := Some(ErrorText(err, Raw("Erro ao salvar subcategoria")));
          closed := false;
      }
    }
  }

  /** The id `handleSelect` hands to `onSubcategorySelect` when a subcategory
      with id `clicked` is clicked. */
  function HandleSelect(selected: Option<int>, clicked: int): (r: Option<int>)
    ensures r.None? <==> selected == Some(clicked)
    ensures r.Some? ==> r.value == clicked
  {
    if selected == Some(clicked) then None else Some(clicked)
  }

  /** Clicking the same subcategory twice toggles it back: from no selection
      or from that subcategory, the selection returns to where it was; from
      another subcategory it ends cleared. */
  lemma HandleSelectTwice(selected: Option<int>, clicked: int)
    ensures HandleSelect(HandleSelect(selected, clicked), clicked) ==
            if selected == Some(clicked) then selected else None
  {
  }

  /** The state of the `SubcategoryManager` component that its selection and
      delete handlers touch. */
  class ManagerView {
    var selected: Option<int>
    var toDelete: Option<Subcategory>
    var showDeleteModal: bool
    var saving: bool
    /** Whether the parent passed `onSubcategorySelect`. */
    const canSelect: bool

    constructor (selected: Option<int>, canSelect: bool)
      ensures this.selected == selected && this.canSelect == canSelect
      ensures toDelete.None? && !showDeleteModal && !saving
    {
      this.selected := selected;
      this.canSelect := canSelect;
      toDelete := None;
      showDeleteModal := false;
      saving := false;
    }

    /** `handleSelect`. */
    method Select(clicked: Subcategory)
      modifies this`selected
      ensures selected == if canSelect then HandleSelect(old(selected), clicked.id) else old(selected)
    {
      if canSelect {
        selected := HandleSelect(selected, clicked.id);
      }
    }

    /** `handleDelete`: ask for confirmation. */
    method AskDelete(s: Subcategory)
      modifies this`toDelete, this`showDeleteModal
      ensures toDelete == Some(s) && showDeleteModal
    {
      toDelete := Some(s);
      showDeleteModal := true;
    }

    /** `handleConfirmDelete`. The delete and the refresh report failures
        through the hooks' own state and never throw here, so the dialog
        closes whatever the delete's result, and the selection is cleared
        exactly when it is the deleted subcategory. Returns the id that was
        sent to the delete, if any. */
    method HandleConfirmDelete() returns (deleted: Option<int>)
      modifies this`selected, this`toDelete, this`showDeleteModal, this`saving
      ensures old(toDelete).None? ==>
                deleted.None? && selected == old(selected) && toDelete.None? &&
                showDeleteModal == old(showDeleteModal) && saving == old(saving)
      ensures old(toDelete).Some? ==>
                deleted == Some(old(toDelete).value.id) && toDelete.None? && !showDeleteModal && !saving
      ensures selected.None? <==>
                old(selected).None? || (canSelect && deleted.Some? && old(selected) == deleted)
      ensures selected.Some? ==> selected == old(selected)
    {
      if toDelete.None? {
        return None;
      }
      saving := true;
      var id := toDelete.value.id;
      deleted := Some(id);
      showDeleteModal := false;
      toDelete := None;
      if selected == Some(id) && canSelect {
        selected := None;
      }
      saving := false;
    }
  }

  /** What `SubcategoryDisplay` renders. */
  datatype Display = Chip(name: Option<string>) | EmptyNotice | Nothing

  const EmptyNoticeText := "Nenhuma subcategoria"

  /** `SubcategoryDisplay`: the found subcategory's name (`name`, else
      `nome`), else the empty notice when `showEmpty`, else nothing. */
  function SubcategoryDisplay(subcategoryId: Option<int>, list: seq<Subcategory>, showEmpty: bool): (r: Display)
    ensures r.Chip? <==> subcategoryId.Some? && exists i :: 0 <= i < |list| && list[i].id == subcategoryId.value
    ensures r.EmptyNotice? <==> showEmpty && !r.Chip?
    ensures r.Chip? && r.name.Some? ==> r.name.value != ""
    ensures r.Chip? ==>
              exists k :: FirstWithId(list, subcategoryId.value, k) &&
                          (Helpers.Truthy(list[k].name) ==> r.name == list[k].name) &&
                          (!Helpers.Truthy(list[k].name) && Helpers.Truthy(list[k].nome) ==> r.name == list[k].nome) &&
                          (!Helpers.Truthy(list[k].name) && !Helpers.Truthy(list[k].nome) ==> r.name.None?)
  {
    var found := if subcategoryId.Some? then FindById(list, subcategoryId.value) else None;
    if found.Some? then
      Chip(if Helpers.Truthy(found.value.name) then found.value.name
           else if Helpers.Truthy(found.value.nome) then found.value.nome
           else None)
    else if showEmpty then EmptyNotice
    else Nothing
  }

  /** The `useSubcategoryManager` hook: a selection over the category's list
      (`scoped`), with the mutations going through the shared store. */
  class ManagerHook {
    var categoryId: Option<int>
    var selected: Option<int>
    const store: SubcategoryStore
    const scoped: CategorySubcategories

    constructor (categoryId: Option<int>, store: SubcategoryStore, scoped: CategorySubcategories)
      ensures this.categoryId == categoryId && selected.None?
      ensures this.store == store && this.scoped == scoped
    {
      this.categoryId := categoryId;
      selected := None;
      this.store := store;
      this.scoped := scoped;
    }

    /** The hook is rendered with another `categoryId`: the selection is
        reset when the category changes. */
    method ChangeCategory(newCategoryId: Option<int>)
      modifies this`categoryId, this`selected
      ensures categoryId == newCategoryId
      ensures selected == if newCategoryId != old(categoryId) then None else old(selected)
    {
      if newCategoryId != categoryId {
        selected := None;
      }
      categoryId := newCategoryId;
    }

    /** `setSelectedSubcategoryId`. */
    method SetSelected(id: Option<int>)
      modifies this`selected
      ensures selected == id
    {
      selected := id;
    }

    /** `getSelectedSubcategory`. */
    function GetSelectedSubcategory(): (r: Option<Subcategory>)
      reads this, scoped
      ensures r.Some? ==> selected == Some(r.value.id) && r.value in scoped.subcategories
      ensures r.Some? ==> exists k :: FirstWithId(scoped.subcategories, r.value.id, k) && scoped.subcategories[k] == r.value
      ensures r.None? <==>
                selected.None? || forall i :: 0 <= i < |scoped.subcategories| ==> scoped.subcategories[i].id != selected.value
    {
      if selected.None? then None else FindById(scoped.subcategories, selected.value)
    }

    /** `createSubcategory` of the hook: the hook's category is forced into
        the payload, and the category's list is refreshed only on success. */
    method HandleCreate(data: SubcategoryData, service: Result<(), Api.Thrown>,
                        storeRefetch: Result<seq<Subcategory>, Api.Thrown>,
                        refreshOutcome: Result<seq<Subcategory>, Api.Thrown>, now: int, completedAt: int)
      returns (result: MutationResult, refreshed: bool)
      modifies store, scoped
      ensures result.Succeeded? <==> ValidateSubcategory(data.(categoryId := categoryId)).None? && service.Success?
      ensures result.Failed? ==> result.error == (var invalid := ValidateSubcategory(data.(categoryId := categoryId));
                                   if invalid.Some? then invalid.value else ErrorText(service.error, CreateError))
      ensures result.Failed? ==>
                store.subcategories == old(store.subcategories) && store.loading == old(store.loading) &&
                store.error == old(store.error) && store.lastFetch == old(store.lastFetch) &&
                store.notices == old(store.notices) + [Notice(Toast.ErrorToast, result.error)]
      ensures result.Succeeded? && storeRefetch.Success? ==>
                !store.loading && store.subcategories == storeRefetch.value &&
                store.lastFetch == Some(completedAt) && store.error.None? &&
                store.notices == old(store.notices) + [Notice(Toast.SuccessToast, CreateSuccess)]
      ensures result.Succeeded? && storeRefetch.Failure? ==>
                !store.loading && store.subcategories == old(store.subcategories) &&
                store.lastFetch == old(store.lastFetch) &&
                store.error == Some(ErrorText(storeRefetch.error, LoadError)) &&
                store.notices == old(store.notices) + [Notice(Toast.SuccessToast, CreateSuccess),
                                                       Notice(Toast.ErrorToast, store.error.value)]
      ensures refreshed <==> result.Succeeded?
      ensures !refreshed ==>
                scoped.subcategories == old(scoped.subcategories) && scoped.loading == old(scoped.loading) &&
                scoped.error == old(scoped.error) && scoped.notices == old(scoped.notices)
      ensures !Helpers.Present(categoryId) ==> !refreshed
      ensures refreshed && Helpers.Present(categoryId) && refreshOutcome.Success? ==>
                scoped.subcategories == refreshOutcome.value && !scoped.loading && scoped.error.None? &&
                scoped.notices == old(scoped.notices)
      ensures refreshed && Helpers.Present(categoryId) && refreshOutcome.Failure? ==>
                scoped.subcategories == old(scoped.subcategories) && !scoped.loading &&
                scoped.error == Some(ErrorText(refreshOutcome.error, ScopedLoadError)) &&
                scoped.notices == old(scoped.notices) + [Notice(Toast.ErrorToast, scoped.error.value)]
    {
      var serviceCalled;
      result, serviceCalled := store.CreateSubcategory(data.(categoryId := categoryId), service, storeRefetch, now, completedAt);
      refreshed := false;
      if result.Succeeded? {
        var _ := scoped.Fetch(categoryId, refreshOutcome);
        refreshed := true;
      }
    }

    /** `updateSubcategory` of the hook: refreshes only on success. */
    method HandleUpdate(data: SubcategoryData, service: Result<(), Api.Thrown>,
                        storeRefetch: Result<seq<Subcategory>, Api.Thrown>,
                        refreshOutcome: Result<seq<Subcategory>, Api.Thrown>, now: int, completedAt: int)
      returns (result: MutationResult, refreshed: bool)
      modifies store, scoped
      ensures result.Succeeded? <==> ValidateSubcategory(data).None? && service.Success?
      ensures result.Failed? ==> result.error == (var invalid := ValidateSubcategory(data);
                                   if invalid.Some? then invalid.value else ErrorText(service.error, UpdateError))
      ensures result.Failed? ==>
                store.subcategories == old(store.subcategories) && store.loading == old(store.loading) &&
                store.error == old(store.error) && store.lastFetch == old(store.lastFetch) &&
                store.notices == old(store.notices) + [Notice(Toast.ErrorToast, result.error)]
      ensures result.Succeeded? && storeRefetch.Success? ==>
                !store.loading && store.subcategories == storeRefetch.value &&
                store.lastFetch == Some(completedAt) && store.error.None? &&
                store.notices == old(store.notices) + [Notice(Toast.SuccessToast, UpdateSuccess)]
      ensures result.Succeeded? && storeRefetch.Failure? ==>
                !store.loading && store.subcategories == old(store.subcategories) &&
                store.lastFetch == old(store.lastFetch) &&
                store.error == Some(ErrorText(storeRefetch.error, LoadError)) &&
                store.notices == old(store.notices) + [Notice(Toast.SuccessToast, UpdateSuccess),
                                                       Notice(Toast.ErrorToast, store.error.value)]
      ensures refreshed <==> result.Succeeded?
      ensures !refreshed ==>
                scoped.subcategories == old(scoped.subcategories) && scoped.loading == old(scoped.loading) &&
                scoped.error == old(scoped.error) && scoped.notices == old(scoped.notices)
      ensures refreshed && !Helpers.Present(categoryId) ==>
                scoped.subcategories == [] && scoped.loading == old(scoped.loading) &&
                scoped.error == old(scoped.error) && scoped.notices == old(scoped.notices)
      ensures refreshed && Helpers.Present(categoryId) && refreshOutcome.Success? ==>
                scoped.subcategories == refreshOutcome.value && !scoped.loading && scoped.error.None? &&
                scoped.notices == old(scoped.notices)
      ensures refreshed && Helpers.Present(categoryId) && refreshOutcome.Failure? ==>
                scoped.subcategories == old(scoped.subcategories) && !scoped.loading &&
                scoped.error == Some(ErrorText(refreshOutcome.error, ScopedLoadError)) &&
                scoped.notices == old(scoped.notices) + [Notice(Toast.ErrorToast, scoped.error.value)]
    {
      var serviceCalled;
      result, serviceCalled := store.UpdateSubcategory(data, service, storeRefetch, now, completedAt);
      refreshed := false;
      if result.Succeeded? {
        var _ := scoped.Fetch(categoryId, refreshOutcome);
        refreshed := true;
      }
    }

    /** `deleteSubcategory` of the hook: on success the selection is cleared
        when it is the deleted id, then the list is refreshed; on failure
        nothing of the hook changes. */
    method HandleDelete(id: int, service: Result<(), Api.Thrown>,
                        storeRefetch: Result<seq<Subcategory>, Api.Thrown>,
                        refreshOutcome: Result<seq<Subcategory>, Api.Thrown>, now: int, completedAt: int)
      returns (result: MutationResult, refreshed: bool)
      modifies this`selected, store, scoped
      ensures result.Succeeded? <==> service.Success?
      ensures selected == if result.Succeeded? && old(selected) == Some(id) then None else old(selected)
      ensures result.Failed? ==> result.error == DeleteErrorMessage(service.error)
      ensures result.Failed? ==>
                store.subcategories == old(store.subcategories) && store.loading == old(store.loading) &&
                store.error == old(store.error) && store.lastFetch == old(store.lastFetch) &&
                store.notices == old(store.notices) + [Notice(Toast.ErrorToast, result.error)]
      ensures result.Succeeded? && storeRefetch.Success? ==>
                !store.loading && store.subcategories == storeRefetch.value &&
                store.lastFetch == Some(completedAt) && store.error.None? &&
                store.notices == old(store.notices) + [Notice(Toast.SuccessToast, DeleteSuccess)]
      ensures result.Succeeded? && storeRefetch.Failure? ==>
                !store.loading && store.subcategories == old(store.subcategories) &&
                store.lastFetch == old(store.lastFetch) &&
                store.error == Some(ErrorText(storeRefetch.error, LoadError)) &&
                store.notices == old(store.notices) + [Notice(Toast.SuccessToast, DeleteSuccess),
                                                       Notice(Toast.ErrorToast, store.error.value)]
      ensures refreshed <==> result.Succeeded?
      ensures !refreshed ==>
                scoped.subcategories == old(scoped.subcategories) && scoped.loading == old(scoped.loading) &&
                scoped.error == old(scoped.error) && scoped.notices == old(scoped.notices)
      ensures refreshed && !Helpers.Present(categoryId) ==>
                scoped.subcategories == [] && scoped.loading == old(scoped.loading) &&
                scoped.error == old(scoped.error) && scoped.notices == old(scoped.notices)
      ensures refreshed && Helpers.Present(categoryId) && refreshOutcome.Success? ==>
                scoped.subcategories == refreshOutcome.value && !scoped.loading && scoped.error.None? &&
                scoped.notices == old(scoped.notices)
      ensures refreshed && Helpers.Present(categoryId) && refreshOutcome.Failure? ==>
                scoped.subcategories == old(scoped.subcategories) && !scoped.loading &&
                scoped.error == Some(ErrorText(refreshOutcome.error, ScopedLoadError)) &&
                scoped.notices == old(scoped.notices) + [Notice(Toast.ErrorToast, scoped.error.value)]
    {
      result := store.DeleteSubcategory(id, service, storeRefetch, now, completedAt);
      refreshed := false;
      if result.Succeeded? {
        if selected == Some(id) {
          selected := None;
        }
        var _ := scoped.Fetch(categoryId, refreshOutcome);
        refreshed := true;
      }
    }
  }
}
