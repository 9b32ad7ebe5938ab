/** `src/utils/helpers.js`: string and file validation, the category list
    filter and the category statistics. */
module Helpers {
  import opened Wrappers
  import opened Text
  import opened Seqs

  /** `isEmpty(str)`: the string is absent, empty or only white space. */
  function IsEmpty(str: Option<string>): (r: bool)
    ensures r <==> str.None? || IsBlank(str.value)
  {
    str.None? || str.value == "" || |Trim(str.value)| == 0
  }

  // ---------------------------------------------------------------- images

  /** The part of a browser `File` that the validation looks at. */
  datatype ImageFile = ImageFile(mimeType: string, size: nat)

  /** `{ valid: true }` or `{ valid: false, error }`. */
  datatype Validation = Valid | Invalid(error: string)

  const ValidImageTypes: seq<string> := ["image/jpeg", "image/jpg", "image/png", "image/gif"]
  const MaxImageSize: nat := 10 * 1024 * 1024
  const NoFileError := "Nenhum arquivo selecionado"
  const ImageTypeError := "Tipo de arquivo inválido. Use JPG, PNG ou GIF"
  const ImageSizeError := "Arquivo muito grande. Máximo 10MB"

  /** `validateImageFile`: presence first, then the MIME type, then the size. */
  function ValidateImageFile(file: Option<ImageFile>): (r: Validation)
    ensures r.Valid? <==> file.Some? && file.value.mimeType in ValidImageTypes &&
                          file.value.size <= MaxImageSize
    ensures file.None? ==> r == Invalid(NoFileError)
    ensures file.Some? && file.value.mimeType !in ValidImageTypes ==> r == Invalid(ImageTypeError)
    ensures file.Some? && file.value.mimeType in ValidImageTypes && file.value.size > MaxImageSize ==>
              r == Invalid(ImageSizeError)
  {
    if file.None? then Invalid(NoFileError)
    else if file.value.mimeType !in ValidImageTypes then Invalid(ImageTypeError)
    else if file.value.size > MaxImageSize then Invalid(ImageSizeError)
    else Valid
  }

  // ------------------------------------------------------------ categories

  /** A category as the list holds it: the backend sends Portuguese (`nome`)
      or English (`name`) field names, and `ativo` may be missing. */
  datatype Category = Category(id: int, nome: Option<string>, name: Option<string>, ativo: Option<bool>)

  /** A JavaScript string value that is truthy: present and non-empty. */
  predicate Truthy(s: Option<string>)
  {
    s.Some? && s.value != ""
  }

  /** A JavaScript number value that is truthy: present and not 0. */
  predicate Present(n: Option<int>)
  {
    n.Some? && n.value != 0
  }

  /** `category?.nome || category?.name || ''`. */
  function CategoryName(c: Category): string
  {
    if Truthy(c.nome) then c.nome.value
    else if Truthy(c.name) then c.name.value
    else ""
  }

  const StatusAll := "all"
  const StatusActive := "active"
  const StatusInactive := "inactive"

  /** The search half of the filter: case-insensitive substring of the name. */
  predicate MatchesSearch(c: Category, searchTerm: string)
  {
    Includes(ToLower(CategoryName(c)), ToLower(searchTerm))
  }

  /** The status half of the filter; any other filter value keeps everything. */
  predicate MatchesStatus(c: Category, statusFilter: string)
  {
    if statusFilter == StatusActive then c.ativo == Some(true)
    else if statusFilter == StatusInactive then c.ativo == Some(false)
    else true
  }

  predicate MatchesFilter(c: Category, searchTerm: string, statusFilter: string)
  {
    MatchesSearch(c, searchTerm) && MatchesStatus(c, statusFilter)
  }

  /** `filterCategories`: the categories that match both the search term and
      the status filter, in their original order. */
  function FilterCategories(categories: seq<Category>, searchTerm: string, statusFilter: string)
    : (r: seq<Category>)
    ensures IsSubsequence(r, categories)
    ensures forall i :: 0 <= i < |r| ==>
              MatchesSearch(r[i], searchTerm) && MatchesStatus(r[i], statusFilter)
    ensures forall i :: 0 <= i < |categories| && MatchesFilter(categories[i], searchTerm, statusFilter) ==>
              categories[i] in r
    ensures statusFilter == StatusActive ==> forall i :: 0 <= i < |r| ==> r[i].ativo == Some(true)
    ensures statusFilter == StatusInactive ==> forall i :: 0 <= i < |r| ==> r[i].ativo == Some(false)
    ensures forall i :: 0 <= i < |categories| ==>
              multiset(r)[categories[i]] ==
              if MatchesFilter(categories[i], searchTerm, statusFilter) then multiset(categories)[categories[i]] else 0
  {
    var p := c => MatchesFilter(c, searchTerm, statusFilter);
    FilterMultiplicity(categories, p);
    Filter(categories, p)
  }

  /** An empty search with no status constraint returns the list unchanged. */
  lemma {:induction false} FilterCategoriesEmptySearch(categories: seq<Category>, statusFilter: string)
    requires statusFilter != StatusActive && statusFilter != StatusInactive
    ensures FilterCategories(categories, "", statusFilter) == categories
  {
    forall i | 0 <= i < |categories|
      ensures MatchesFilter(categories[i], "", statusFilter)
    {
      IncludesEmpty(ToLower(CategoryName(categories[i])));
    }
  }

  /** A category without `ativo` is shown by neither status filter. */
  lemma MissingStatusMatchesNoStatusFilter(categories: seq<Category>, searchTerm: string, c: Category)
    requires c.ativo.None?
    ensures c !in FilterCategories(categories, searchTerm, StatusActive)
    ensures c !in FilterCategories(categories, searchTerm, StatusInactive)
  {
  }

  /** The search ignores the letter case of the search term. */
  lemma {:induction false} FilterCategoriesIgnoresCase(categories: seq<Category>, searchTerm: string,
                                                       statusFilter: string)
    ensures FilterCategories(categories, ToLower(searchTerm), statusFilter) ==
            FilterCategories(categories, searchTerm, statusFilter)
  {
    ToLowerIdempotent(searchTerm);
    FilterAgree(categories, c => MatchesFilter(c, ToLower(searchTerm), statusFilter),
                c => MatchesFilter(c, searchTerm, statusFilter));
  }

  // ------------------------------------------------------------ statistics

  /** The result of `calculateCategoryStats`. */
  datatype CategoryStats = CategoryStats(total: nat, active: nat, inactive: nat, activePercentage: nat)

  predicate IsActive(c: Category)
  {
    c.ativo == Some(true)
  }

  /** `Math.round(part / whole * 100)` on exact rationals: the nearest whole
      percentage, halves rounded up; 0 for an empty whole. */
  function RoundedPercentage(part: nat, whole: nat): (p: nat)
    requires part <= whole
    ensures p <= 100
    ensures whole == 0 ==> p == 0
    ensures whole > 0 ==> 2 * whole * p <= 200 * part + whole < 2 * whole * (p + 1)
    ensures whole > 0 && part == whole ==> p == 100
  {
    if whole == 0 then 0
    else
      var p := (200 * part + whole) / (2 * whole);
      RoundedPercentageBounds(part, whole, p);
      p
  }

  /** The arithmetic behind `RoundedPercentage`, kept apart so that the solver
      sees only the facts it needs. */
  lemma RoundedPercentageBounds(part: nat, whole: nat, p: nat)
    requires 0 < whole && part <= whole
    requires p == (200 * part + whole) / (2 * whole)
    ensures 2 * whole * p <= 200 * part + whole < 2 * whole * (p + 1)
    ensures p <= 100
    ensures part == whole ==> p == 100
  {
    var x, d := 200 * part + whole, 2 * whole;
    QuotientBounds(x, d);
    assert d * p <= x < d * (p + 1);
    assert x < d * 101 by {
      assert x <= 201 * whole;
      assert d * 101 == 202 * whole;
    }
    if p > 100 {
      MultiplyMonotone(d, 101, p);
    }
    if part == whole {
      assert x == d * 100 + whole;
      if p < 100 {
        MultiplyMonotone(d, p + 1, 100);
      }
    }
  }

  lemma QuotientBounds(x: nat, d: nat)
    requires d > 0
    ensures d * (x / d) <= x < d * (x / d + 1)
  {
    assert x == d * (x / d) + x % d;
  }

  lemma MultiplyMonotone(d: nat, a: nat, b: nat)
    requires a <= b
    ensures d * a <= d * b
  {
    assert d * b == d * a + d * (b - a);
  }

  /** `calculateCategoryStats`. */
  function CalculateCategoryStats(categories: seq<Category>): (r: CategoryStats)
    ensures r.total == |categories|
    ensures r.active + r.inactive == r.total
    ensures r.active == |Filter(categories, IsActive)|
    ensures r.activePercentage <= 100
    ensures r.total == 0 ==> r.activePercentage == 0
    ensures r.total > 0 ==> 2 * r.total * r.activePercentage <= 200 * r.active + r.total <
                            2 * r.total * (r.activePercentage + 1)
    ensures r.total > 0 && (forall i :: 0 <= i < |categories| ==> categories[i].ativo == Some(true)) ==>
              r.activePercentage == 100
  {
    var total := |categories|;
    var active := |Filter(categories, IsActive)|;
    CategoryStats(total, active, total - active, RoundedPercentage(active, total))
  }

  /** The active count is the number of rows the 'active' filter shows for an
      empty search. */
  lemma {:induction false} StatsAgreeWithActiveFilter(categories: seq<Category>)
    ensures CalculateCategoryStats(categories).active == |FilterCategories(categories, "", StatusActive)|
  {
    forall c: Category
      ensures IsActive(c) == MatchesFilter(c, "", StatusActive)
    {
      IncludesEmpty(ToLower(CategoryName(c)));
    }
    FilterAgree(categories, IsActive, c => MatchesFilter(c, "", StatusActive));
  }
}
