/** `src/hooks/useSubcategories.js`: the subcategory store with its
    30-second freshness guard, the mutations that validate first and re-fetch
    after success, and the category-scoped variant. Service calls are inputs:
    each operation receives the outcome its call would have. */
module Subcategories {
  import opened Wrappers
  import opened Seqs
  import opened Text
  import Api
  import Toast
  import Helpers

  /** A subcategory as the backend sends it (either `categoryId` or
      `categoria_id` names the parent). */
  datatype Subcategory = Subcategory(id: int, name: Option<string>, nome: Option<string>,
                                     categoryId: Option<int>, categoriaId: Option<int>)

  /** The payload of create and update: `{ name, categoryId, id? }`. */
  datatype SubcategoryData = SubcategoryData(name: Option<string>, categoryId: Option<int>, id: Option<int>)

  /** What the hooks show the user. `Raw` is a text taken from an error; the
      other values are the subcategory message keys, whose texts are not part
      of this model. */
  datatype Message =
    | Raw(text: string)
    | NameRequired
    | CategoryRequired
    | LoadError
    | CreateSuccess
    | CreateError
    | UpdateSuccess
    | UpdateError
    | DeleteSuccess
    | DeleteError
    | DeleteWithProducts

  /** A toast the hook emitted. */
  datatype Notice = Notice(kind: Toast.ToastType, message: Message)

  /** `{ success: true }` or `{ success: false, error }`. */
  datatype MutationResult = Succeeded | Failed(error: Message)

  /** How long a successful fetch stays fresh, in milliseconds. */
  const FreshnessWindow := 30000

  /** `shouldFetch`: no usable previous stamp, or more than 30 s since it. */
  function ShouldFetch(lastFetch: Option<int>, now: int): (r: bool)
    ensures !Helpers.Present(lastFetch) ==> r
    ensures Helpers.Present(lastFetch) ==> (r <==> now > lastFetch.value + FreshnessWindow)
  {
    !Helpers.Present(lastFetch) || now - lastFetch.value > FreshnessWindow
  }

  /** Within 30 s of a stamped fetch, exactly 30 s included, the cache is fresh. */
  lemma FreshWithinWindow(stamp: int, now: int)
    requires stamp != 0 && now <= stamp + FreshnessWindow
    ensures !ShouldFetch(Some(stamp), now)
  {
  }

  /** `err.message || fallback`. */
  function ErrorText(err: Api.Thrown, fallback: Message): (m: Message)
    ensures err.Message() != "" ==> m == Raw(err.Message())
    ensures err.Message() == "" ==> m == fallback
  {
    if err.Message() != "" then Raw(err.Message()) else fallback
  }

  /** The checks create and update make before calling the service: the
      name first, then the category. */
  function ValidateSubcategory(data: SubcategoryData): (r: Option<Message>)
    ensures r.None? <==> data.name.Some? && !IsBlank(data.name.value) && Helpers.Present(data.categoryId)
    ensures data.name.None? || IsBlank(data.name.value) ==> r == Some(NameRequired)
    ensures data.name.Some? && !IsBlank(data.name.value) && !Helpers.Present(data.categoryId) ==>
              r == Some(CategoryRequired)
  {
    if data.name.None? || Trim(data.name.value) == "" then Some(NameRequired)
    else if !Helpers.Present(data.categoryId) then Some(CategoryRequired)
    else None
  }

  const SubcategoryWithProductsCode := "S.ITDx0001"

  /** The message `deleteSubcategory` reports for a failed service call. */
  function DeleteErrorMessage(err: Api.Thrown): (m: Message)
    ensures m == DeleteWithProducts <==> err.Code() == Some(SubcategoryWithProductsCode)
    ensures m == DeleteError <==> err.Code() != Some(SubcategoryWithProductsCode) && err.Message() == ""
    ensures m.Raw? <==> err.Code() != Some(SubcategoryWithProductsCode) && err.Message() != ""
    ensures m.Raw? ==> m.text == err.Message()
  {
    if err.Code() == Some(SubcategoryWithProductsCode) then DeleteWithProducts
    else if err.Message() != "" then Raw(err.Message())
    else DeleteError
  }

  /** `subcategories.find(s => s.id === id)`. */
  function FindById(list: seq<Subcategory>, id: int): (r: Option<Subcategory>)
    ensures r.None? <==> forall i :: 0 <= i < |list| ==> list[i].id != id
    ensures r.Some? ==> exists k :: FirstWithId(list, id, k) && list[k] == r.value
  {
    Find(list, (s: Subcategory) => s.id == id)
  }

  /** Position `k` holds the first entry of `list` with this id. */
  predicate FirstWithId(list: seq<Subcategory>, id: int, k: int)
  {
    0 <= k < |list| && list[k].id == id && forall i :: 0 <= i < k ==> list[i].id != id
  }

  /** The parent test of `getSubcategoriesByCategory`: either field equals
      the argument (an absent argument matches an absent field). */
  predicate InCategory(s: Subcategory, categoryId: Option<int>)
  {
    s.categoryId == categoryId || s.categoriaId == categoryId
  }

  /** `getSubcategoriesByCategory`, on a given list. */
  function ByCategory(list: seq<Subcategory>, categoryId: Option<int>): (r: seq<Subcategory>)
    ensures IsSubsequence(r, list)
    ensures forall i :: 0 <= i < |r| ==> InCategory(r[i], categoryId)
    ensures forall i :: 0 <= i < |list| && InCategory(list[i], categoryId) ==> list[i] in r
    ensures forall i :: 0 <= i < |list| ==>
              multiset(r)[list[i]] == if InCategory(list[i], categoryId) then multiset(list)[list[i]] else 0
  {
    var p := (s: Subcategory) => InCategory(s, categoryId);
    FilterMultiplicity(list, p);
    Filter(list, p)
  }

  /** The state of one `useSubcategories` instance. */
  class SubcategoryStore {
    var subcategories: seq<Subcategory>
    var loading: bool
    var error: Option<Message>
    /** The time of the last successful fetch. */
    var lastFetch: Option<int>
    /** The toasts this instance emitted, oldest first. */
    var notices: seq<Notice>

    constructor ()
      ensures subcategories == [] && !loading && error.None? && lastFetch.None? && notices == []
    {
      subcategories := [];
      loading := false;
      error := None;
      lastFetch := None;
      notices := [];
    }

    /** `fetchSubcategories(force)`. `now` is when it is called and
        `completedAt` when the service answered. */
    method FetchSubcategories(force: bool, now: int, outcome: Result<seq<Subcategory>, Api.Thrown>,
                              completedAt: int)
      returns (called: bool)
      modifies this
      ensures called <==> force || ShouldFetch(old(lastFetch), now)
      ensures !called ==>
                subcategories == old(subcategories) && loading == old(loading) && error == old(error) &&
                lastFetch == old(lastFetch) && notices == old(notices)
      ensures called ==> !loading
      ensures called && outcome.Success? ==>
                subcategories == outcome.value && lastFetch == Some(completedAt) && error.None? &&
                notices == old(notices)
      ensures called && outcome.Failure? ==>
                subcategories == old(subcategories) && lastFetch == old(lastFetch) &&
                error == Some(ErrorText(outcome.error, LoadError)) &&
                notices == old(notices) + [Notice(Toast.ErrorToast, ErrorText(outcome.error, LoadError))]
    {
      if !force && !ShouldFetch(lastFetch, now) {
        return false;
      }
      called := true;
      loading := true;
      error := None;
      match outcome {
        case Success(data) =>
          subcategories := data;
          lastFetch := Some(completedAt);
        case Failure(err) =>
          var message := ErrorText(err, LoadError);
          error := Some(message);
          notices := notices + [Notice(Toast.ErrorToast, message)];
      }
      loading := false;
    }

    /** `fetchSubcategoriesByCategory`: the list for one category, or the
        empty list when there is no category or the call fails. */
    method FetchSubcategoriesByCategory(categoryId: Option<int>, outcome: Result<seq<Subcategory>, Api.Thrown>)
      returns (data: seq<Subcategory>, called: bool)
      modifies this`notices
      ensures called <==> Helpers.Present(categoryId)
      ensures called && outcome.Success? ==> data == outcome.value && notices == old(notices)
      ensures !(called && outcome.Success?) ==> data == []
      ensures called && outcome.Failure? ==>
                notices == old(notices) + [Notice(Toast.ErrorToast, Raw("Erro ao carregar subcategorias da categoria"))]
      ensures !called ==> notices == old(notices)
    {
      if !Helpers.Present(categoryId) {
        return [], false;
      }
      called := true;
      match outcome
      case Success(list) =>
        data := list;
      case Failure(_) =>
        notices := notices + [Notice(Toast.ErrorToast, Raw("Erro ao carregar subcategorias da categoria"))];
        data := [];
    }

    /** The shared body of `createSubcategory` and `updateSubcategory`:
        validate, call the service, then toast and force a re-fetch. */
    method Save(data: SubcategoryData, successMessage: Message, errorMessage: Message,
                service: Result<(), Api.Thrown>, refetch: Result<seq<Subcategory>, Api.Thrown>,
                now: int, completedAt: int)
      returns (result: MutationResult, serviceCalled: bool)
      modifies this
      ensures serviceCalled <==> ValidateSubcategory(data).None?
      ensures !serviceCalled ==>
                result == Failed(ValidateSubcategory(data).value) &&
                notices == old(notices) + [Notice(Toast.ErrorToast, result.error)] &&
                subcategories == old(subcategories) && loading == old(loading) &&
                error == old(error) && lastFetch == old(lastFetch)
      ensures serviceCalled && service.Failure? ==>
                result == Failed(ErrorText(service.error, errorMessage)) &&
                notices == old(notices) + [Notice(Toast.ErrorToast, result.error)] &&
                subcategories == old(subcategories) && loading == old(loading) &&
                error == old(error) && lastFetch == old(lastFetch)
      ensures serviceCalled && service.Success? ==> result == Succeeded && !loading
      ensures serviceCalled && service.Success? && refetch.Success? ==>
                subcategories == refetch.value && lastFetch == Some(completedAt) && error.None? &&
                notices == old(notices) + [Notice(Toast.SuccessToast, successMessage)]
      ensures serviceCalled && service.Success? && refetch.Failure? ==>
                subcategories == old(subcategories) && lastFetch == old(lastFetch) &&
                error == Some(ErrorText(refetch.error, LoadError)) &&
                notices == old(notices) + [Notice(Toast.SuccessToast, successMessage),
                                           Notice(Toast.ErrorToast, ErrorText(refetch.error, LoadError))]
    {
      var invalid := ValidateSubcategory(data);
      if invalid.Some? {
        notices := notices + [Notice(Toast.ErrorToast, invalid.value)];
        return Failed(invalid.value), false;
      }
      serviceCalled := true;
      match service
      case Failure(err) =>
        var message := ErrorText(err, errorMessage);
        notices := notices + [Notice(Toast.ErrorToast, message)];
        result := Failed(message);
      case Success(_) =>
        notices := notices + [Notice(Toast.SuccessToast, successMessage)];
        var _ := FetchSubcategories(true, now, refetch, completedAt);
        result := Succeeded;
    }

    /** `createSubcategory`. */
    method CreateSubcategory(data: SubcategoryData, service: Result<(), Api.Thrown>,
                             refetch: Result<seq<Subcategory>, Api.Thrown>, now: int, completedAt: int)
      returns (result: MutationResult, serviceCalled: bool)
      modifies this
      ensures serviceCalled <==> ValidateSubcategory(data).None?
      ensures !serviceCalled ==>
                result == Failed(ValidateSubcategory(data).value) &&
                notices == old(notices) + [Notice(Toast.ErrorToast, result.error)] &&
                subcategories == old(subcategories) && loading == old(loading) &&
                error == old(error) && lastFetch == old(lastFetch)
      ensures serviceCalled && service.Failure? ==>
                result == Failed(ErrorText(service.error, CreateError)) &&
                notices == old(notices) + [Notice(Toast.ErrorToast, result.error)] &&
                subcategories == old(subcategories) && loading == old(loading) &&
                error == old(error) && lastFetch == old(lastFetch)
      ensures serviceCalled && service.Success? ==> result == Succeeded && !loading
      ensures serviceCalled && service.Success? && refetch.Success? ==>
                subcategories == refetch.value && lastFetch == Some(completedAt) && error.None? &&
                notices == old(notices) + [Notice(Toast.SuccessToast, CreateSuccess)]
      ensures serviceCalled && service.Success? && refetch.Failure? ==>
                subcategories == old(subcategories) && lastFetch == old(lastFetch) &&
                error == Some(ErrorText(refetch.error, LoadError)) &&
                notices == old(notices) + [Notice(Toast.SuccessToast, CreateSuccess),
                                           Notice(Toast.ErrorToast, ErrorText(refetch.error, LoadError))]
    {
      result, serviceCalled := Save(data, CreateSuccess, CreateError, service, refetch, now, completedAt);
    }

    /** `updateSubcategory`. */
    method UpdateSubcategory(data: SubcategoryData, service: Result<(), Api.Thrown>,
                             refetch: Result<seq<Subcategory>, Api.Thrown>, now: int, completedAt: int)
      returns (result: MutationResult, serviceCalled: bool)
      modifies this
      ensures serviceCalled <==> ValidateSubcategory(data).None?
      ensures !serviceCalled ==>
                result == Failed(ValidateSubcategory(data).value) &&
                notices == old(notices) + [Notice(Toast.ErrorToast, result.error)] &&
                subcategories == old(subcategories) && loading == old(loading) &&
                error == old(error) && lastFetch == old(lastFetch)
      ensures serviceCalled && service.Failure? ==>
                result == Failed(ErrorText(service.error, UpdateError)) &&
                notices == old(notices) + [Notice(Toast.ErrorToast, result.error)] &&
                subcategories == old(subcategories) && loading == old(loading) &&
                error == old(error) && lastFetch == old(lastFetch)
      ensures serviceCalled && service.Success? ==> result == Succeeded && !loading
      ensures serviceCalled && service.Success? && refetch.Success? ==>
                subcategories == refetch.value && lastFetch == Some(completedAt) && error.None? &&
                notices == old(notices) + [Notice(Toast.SuccessToast, UpdateSuccess)]
      ensures serviceCalled && service.Success? && refetch.Failure? ==>
                subcategories == old(subcategories) && lastFetch == old(lastFetch) &&
                error == Some(ErrorText(refetch.error, LoadError)) &&
                notices == old(notices) + [Notice(Toast.SuccessToast, UpdateSuccess),
                                           Notice(Toast.ErrorToast, ErrorText(refetch.error, LoadError))]
    {
      result, serviceCalled := Save(data, UpdateSuccess, UpdateError, service, refetch, now, completedAt);
    }

    /** `deleteSubcategory`: no validation; a failure is reported through
        `DeleteErrorMessage`. */
    method DeleteSubcategory(id: int, service: Result<(), Api.Thrown>,
                             refetch: Result<seq<Subcategory>, Api.Thrown>, now: int, completedAt: int)
      returns (result: MutationResult)
      modifies this
      ensures service.Failure? ==>
                result == Failed(DeleteErrorMessage(service.error)) &&
                notices == old(notices) + [Notice(Toast.ErrorToast, result.error)] &&
                subcategories == old(subcategories) && loading == old(loading) &&
                error == old(error) && lastFetch == old(lastFetch)
      ensures service.Success? ==> result == Succeeded && !loading
      ensures service.Success? && refetch.Success? ==>
                subcategories == refetch.value && lastFetch == Some(completedAt) && error.None? &&
                notices == old(notices) + [Notice(Toast.SuccessToast, DeleteSuccess)]
      ensures service.Success? && refetch.Failure? ==>
                subcategories == old(subcategories) && lastFetch == old(lastFetch) &&
                error == Some(ErrorText(refetch.error, LoadError)) &&
                notices == old(notices) + [Notice(Toast.SuccessToast, DeleteSuccess),
                                           Notice(Toast.ErrorToast, ErrorText(refetch.error, LoadError))]
    {
      match service
      case Failure(err) =>
        var message := DeleteErrorMessage(err);
        notices := notices + [Notice(Toast.ErrorToast, message)];
        result := Failed(message);
      case Success(_) =>
        notices := notices + [Notice(Toast.SuccessToast, DeleteSuccess)];
        var _ := FetchSubcategories(true, now, refetch, completedAt);
        result := Succeeded;
    }

    /** `getSubcategoryById`. */
    function GetSubcategoryById(id: int): (r: Option<Subcategory>)
      reads this
      ensures r.Some? ==> r.value in subcategories && r.value.id == id
      ensures r.Some? ==> exists k :: FirstWithId(subcategories, id, k) && subcategories[k] == r.value
      ensures r.None? <==> forall i :: 0 <= i < |subcategories| ==> subcategories[i].id != id
    {
      FindById(subcategories, id)
    }

    /** `getSubcategoriesByCategory`. */
    function GetSubcategoriesByCategory(categoryId: Option<int>): (r: seq<Subcategory>)
      reads this
      ensures IsSubsequence(r, subcategories)
      ensures forall s :: s in r <==> s in subcategories && InCategory(s, categoryId)
      ensures forall i :: 0 <= i < |subcategories| ==>
                multiset(r)[subcategories[i]] ==
                if InCategory(subcategories[i], categoryId) then multiset(subcategories)[subcategories[i]] else 0
    {
      ByCategory(subcategories, categoryId)
    }

    /** `isEmpty`: not loading and nothing listed. */
    function IsEmpty(): (r: bool)
      reads this
      ensures r <==> !loading && |subcategories| == 0
    {
      !loading && subcategories == []
    }
  }

  /** The fallback message of the category-scoped fetch. */
  const ScopedLoadError := Raw("Erro ao carregar subcategorias")

  /** The state of one `useSubcategoriesByCategory` instance. */
  class CategorySubcategories {
    var subcategories: seq<Subcategory>
    var loading: bool
    var error: Option<Message>
    var notices: seq<Notice>

    constructor ()
      ensures subcategories == [] && !loading && error.None? && notices == []
    {
      subcategories := [];
      loading := false;
      error := None;
      notices := [];
    }

    /** Its `fetchSubcategories` (also `refresh`) for the hook's category. */
    method Fetch(categoryId: Option<int>, outcome: Result<seq<Subcategory>, Api.Thrown>)
      returns (called: bool)
      modifies this
      ensures called <==> Helpers.Present(categoryId)
      ensures !called ==>
                subcategories == [] && loading == old(loading) && error == old(error) && notices == old(notices)
      ensures called ==> !loading
      ensures called && outcome.Success? ==>
                subcategories == outcome.value && error.None? && notices == old(notices)
      ensures called && outcome.Failure? ==>
                subcategories == old(subcategories) &&
                error == Some(ErrorText(outcome.error, ScopedLoadError)) &&
                notices == old(notices) + [Notice(Toast.ErrorToast, error.value)]
    {
      if !Helpers.Present(categoryId) {
        subcategories := [];
        return false;
      }
      called := true;
      loading := true;
      error := None;
      match outcome {
        case Success(data) =>
          subcategories := data;
        case Failure(err) =>
          var message := ErrorText(err, ScopedLoadError);
          error := Some(message);
          notices := notices + [Notice(Toast.ErrorToast, message)];
      }
      loading := false;
    }

    /** `isEmpty`. */
    function IsEmpty(): (r: bool)
      reads this
      ensures r <==> !loading && |subcategories| == 0
    {
      !loading && subcategories == []
    }
  }
}
