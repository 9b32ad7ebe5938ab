/** `src/pages/ProductsPage.js` without its markup: what a table row derives
    from a product, the ingredient and tag lists of the product form, and the
    form's submit guard chain. Prices are integer cents. */
module ProductsPage {
  import opened Wrappers
  import opened Text
  import opened Seqs
  import Helpers
  import Api

  /** A product as the list holds it (Portuguese and English field names). */
  datatype Product = Product(
    id: int,
    nome: Option<string>, name: Option<string>,
    ativo: Option<bool>,
    preco: Option<int>, price: Option<int>,
    precoDesconto: Option<int>, discountPrice: Option<int>)

  /** The row's name: `nome`, else `name`, else "Sem nome". */
  function DisplayName(p: Product): (r: string)
    ensures Helpers.Truthy(p.nome) ==> r == p.nome.value
    ensures !Helpers.Truthy(p.nome) && Helpers.Truthy(p.name) ==> r == p.name.value
    ensures !Helpers.Truthy(p.nome) && !Helpers.Truthy(p.name) ==> r == "Sem nome"
    ensures r != ""
  {
    if Helpers.Truthy(p.nome) then p.nome.value
    else if Helpers.Truthy(p.name) then p.name.value
    else "Sem nome"
  }

  /** A row is active unless `ativo` is exactly false. */
  function RowIsActive(p: Product): (r: bool)
    ensures !r <==> p.ativo == Some(false)
    ensures p.ativo.None? ==> r
  {
    p.ativo != Some(false)
  }

  /** `preco || price || 0`. */
  function RowPrice(p: Product): (r: int)
    ensures Helpers.Present(p.preco) ==> r == p.preco.value
    ensures !Helpers.Present(p.preco) && Helpers.Present(p.price) ==> r == p.price.value
    ensures !Helpers.Present(p.preco) && !Helpers.Present(p.price) ==> r == 0
  {
    if Helpers.Present(p.preco) then p.preco.value
    else if Helpers.Present(p.price) then p.price.value
    else 0
  }

  /** `precoDesconto || discountPrice`; an absent or zero price means none. */
  function RowDiscount(p: Product): (r: Option<int>)
    ensures Helpers.Present(p.precoDesconto) ==> r == p.precoDesconto
    ensures !Helpers.Present(p.precoDesconto) ==> r == p.discountPrice
  {
    if Helpers.Present(p.precoDesconto) then p.precoDesconto else p.discountPrice
  }

  /** Whether the row shows a discount. */
  function HasDiscount(p: Product): (r: bool)
    ensures r <==> RowDiscount(p).Some? && 0 < RowDiscount(p).value < RowPrice(p)
  {
    Helpers.Present(RowDiscount(p)) && RowDiscount(p).value > 0 && RowDiscount(p).value < RowPrice(p)
  }

  /** A shown discount implies a positive price strictly above it, and a
      product without any discount field never shows one. */
  lemma DiscountNeedsHigherPrice(p: Product)
    ensures HasDiscount(p) ==> RowPrice(p) > 1 && RowPrice(p) > RowDiscount(p).value > 0
    ensures p.precoDesconto.None? && p.discountPrice.None? ==> !HasDiscount(p)
  {
  }

  /** The list an add leaves: the trimmed input is appended when it is not
      blank and not already listed; otherwise the list is unchanged. */
  function AddEntry(list: seq<string>, input: string): (r: seq<string>)
    ensures !IsBlank(input) && Trim(input) !in list ==> r == list + [Trim(input)]
    ensures IsBlank(input) || Trim(input) in list ==> r == list
    ensures Trim(input) != "" ==> Trim(input) in r
  {
    var entry := Trim(input);
    if entry != "" && entry !in list then list + [entry] else list
  }

  /** Adding keeps a duplicate-free list duplicate-free. */
  lemma AddEntryKeepsNoDuplicates(list: seq<string>, input: string)
    requires NoDuplicates(list)
    ensures NoDuplicates(AddEntry(list, input))
  {
    var r := AddEntry(list, input);
    if r != list {
      forall i, j | 0 <= i < j < |r|
        ensures r[i] != r[j]
      {
        if j == |list| {
          assert r[i] == list[i];
        }
      }
    }
  }

  /** `list.filter((_, i) => i !== index)`, element by element. */
  function RemoveAt<T>(list: seq<T>, index: int): (r: seq<T>)
    ensures 0 <= index < |list| ==> r == list[..index] + list[index + 1..]
    ensures !(0 <= index < |list|) ==> r == list
    decreases |list|
  {
    if list == [] then []
    else (if index == 0 then [] else [list[0]]) + RemoveAt(list[1..], index - 1)
  }

  /** Where an entry of `RemoveAt` comes from in the original list. */
  lemma RemoveAtEntry<T>(list: seq<T>, index: int, k: int)
    requires 0 <= index < |list| && 0 <= k < |list| - 1
    ensures |RemoveAt(list, index)| == |list| - 1
    ensures RemoveAt(list, index)[k] == list[if k < index then k else k + 1]
  {
    var r := list[..index] + list[index + 1..];
    assert RemoveAt(list, index) == r;
    if k < index {
      assert r[k] == list[..index][k];
    } else {
      assert r[k] == list[index + 1..][k - index];
    }
  }

  /** Removing keeps a duplicate-free list duplicate-free, and deletes the
      entry at the index from the list entirely. */
  lemma RemoveAtKeepsNoDuplicates<T>(list: seq<T>, index: int)
    requires NoDuplicates(list)
    ensures NoDuplicates(RemoveAt(list, index))
    ensures 0 <= index < |list| ==> list[index] !in RemoveAt(list, index)
  {
    var r := RemoveAt(list, index);
    if 0 <= index < |list| {
      forall i, j | 0 <= i < j < |r|
        ensures r[i] != r[j]
      {
        RemoveAtEntry(list, index, i);
        RemoveAtEntry(list, index, j);
      }
      forall k | 0 <= k < |r|
        ensures r[k] != list[index]
      {
        RemoveAtEntry(list, index, k);
      }
    }
  }

  /** The fields of the product form that submit reads or forwards.
      `preco`, `precoDesconto` and `categoriaId` are `None` when the input is
      left empty. */
  datatype FormFields = FormFields(
    nome: string, descricao: string, descricaoCompleta: string, modoUso: string,
    preco: Option<int>, precoDesconto: Option<int>, categoriaId: Option<int>,
    ingredientes: seq<string>, tags: seq<string>, ativo: bool)

  const NameRequired := "Nome do produto é obrigatório"
  const DescriptionRequired := "Descrição do produto é obrigatória"
  const CategoryRequired := "Categoria é obrigatória"
  const PriceRequired := "Preço é obrigatório e deve ser maior que zero"
  const ImageRequired := "Imagem é obrigatória para novos produtos"
  const SaveFallback := "Erro ao salvar produto"

  /** The guard chain of submit: the message of the first failing check, or
      `None` when the form may be saved. */
  function ValidateProductForm(form: FormFields, isEditing: bool, hasImage: bool): (r: Option<string>)
    ensures r == Some(NameRequired) <==> IsBlank(form.nome)
    ensures r == Some(DescriptionRequired) <==> !IsBlank(form.nome) && IsBlank(form.descricao)
    ensures r == Some(CategoryRequired) <==>
              !IsBlank(form.nome) && !IsBlank(form.descricao) && form.categoriaId.None?
    ensures r == Some(PriceRequired) <==>
              !IsBlank(form.nome) && !IsBlank(form.descricao) && form.categoriaId.Some? &&
              (form.preco.None? || form.preco.value <= 0)
    ensures r == Some(ImageRequired) <==>
              !IsBlank(form.nome) && !IsBlank(form.descricao) && form.categoriaId.Some? &&
              form.preco.Some? && form.preco.value > 0 && !isEditing && !hasImage
    ensures r.None? <==>
              !IsBlank(form.nome) && !IsBlank(form.descricao) && form.categoriaId.Some? &&
              form.preco.Some? && form.preco.value > 0 && (isEditing || hasImage)
  {
    if Trim(form.nome) == "" then Some(NameRequired)
    else if Trim(form.descricao) == "" then Some(DescriptionRequired)
    else if form.categoriaId.None? then Some(CategoryRequired)
    else if form.preco.None? || form.preco.value <= 0 then Some(PriceRequired)
    else if !isEditing && !hasImage then Some(ImageRequired)
    else None
  }

  /** What submit hands to `onSave`: the form with the price and category
      parsed, the discount null when empty, and the id only when editing. */
  datatype ProductPayload = ProductPayload(
    nome: string, descricao: string, descricaoCompleta: string, modoUso: string,
    preco: int, precoDesconto: Option<int>, categoriaId: int,
    ingredientes: seq<string>, tags: seq<string>, ativo: bool,
    id: Option<int>)

  function BuildPayload(form: FormFields, editingId: Option<int>): (r: ProductPayload)
    requires form.preco.Some? && form.categoriaId.Some?
    ensures r.id == editingId
    ensures r.precoDesconto == form.precoDesconto
    ensures r.preco == form.preco.value && r.categoriaId == form.categoriaId.value
    ensures r.nome == form.nome && r.descricao == form.descricao &&
            r.descricaoCompleta == form.descricaoCompleta && r.modoUso == form.modoUso &&
            r.ingredientes == form.ingredientes && r.tags == form.tags && r.ativo == form.ativo
  {
    ProductPayload(form.nome, form.descricao, form.descricaoCompleta, form.modoUso,
                   form.preco.value, form.precoDesconto, form.categoriaId.value,
                   form.ingredientes, form.tags, form.ativo, editingId)
  }

  /** A form that passes validation can always be turned into a payload, and
      that payload carries a positive price. */
  lemma ValidFormHasPositivePrice(form: FormFields, isEditing: bool, hasImage: bool, editingId: Option<int>)
    requires ValidateProductForm(form, isEditing, hasImage).None?
    ensures form.preco.Some? && form.categoriaId.Some?
    ensures BuildPayload(form, editingId).preco > 0
  {
  }

  /** The modal's form state. `editingId` is the product's id when a product
      is being edited and `None` when creating. */
  class ProductModal {
    var form: FormFields
    var newIngredient: string
    var newTag: string
    var selectedImage: Option<Helpers.ImageFile>
    var error: string
    const editingId: Option<int>

    /** The form is loaded as given: a product's lists are not checked for
        duplicates on the way in. */
    constructor (form0: FormFields, editingId: Option<int>)
      ensures form == form0 && this.editingId == editingId
      ensures newIngredient == "" && newTag == "" && selectedImage.None? && error == ""
    {
      form := form0;
      this.editingId := editingId;
      newIngredient := "";
      newTag := "";
      selectedImage := None;
      error := "";
    }

    /** `addIngredient`: the input field is cleared only when the entry was added. */
    method AddIngredient()
      modifies this`form, this`newIngredient
      ensures old(NoDuplicates(form.ingredientes)) ==> NoDuplicates(form.ingredientes)
      ensures form == old(form).(ingredientes := AddEntry(old(form).ingredientes, old(newIngredient)))
      ensures newIngredient == if form.ingredientes != old(form).ingredientes then "" else old(newIngredient)
    {
      if NoDuplicates(form.ingredientes) {
        AddEntryKeepsNoDuplicates(form.ingredientes, newIngredient);
      }
      var entry := Trim(newIngredient);
      if entry != "" && entry !in form.ingredientes {
        form := form.(ingredientes := form.ingredientes + [entry]);
        newIngredient := "";
      }
    }

    /** `removeIngredient(index)`. */
    method RemoveIngredient(index: int)
      modifies this`form
      ensures old(NoDuplicates(form.ingredientes)) ==> NoDuplicates(form.ingredientes)
      ensures form == old(form).(ingredientes := RemoveAt(old(form).ingredientes, index))
    {
      if NoDuplicates(form.ingredientes) {
        RemoveAtKeepsNoDuplicates(form.ingredientes, index);
      }
      form := form.(ingredientes := RemoveAt(form.ingredientes, index));
    }

    /** `addTag`: the input field is cleared only when the tag was added. */
    method AddTag()
      modifies this`form, this`newTag
      ensures old(NoDuplicates(form.tags)) ==> NoDuplicates(form.tags)
      ensures form == old(form).(tags := AddEntry(old(form).tags, old(newTag)))
      ensures newTag == if form.tags != old(form).tags then "" else old(newTag)
    {
      if NoDuplicates(form.tags) {
        AddEntryKeepsNoDuplicates(form.tags, newTag);
      }
      var entry := Trim(newTag);
      if entry != "" && entry !in form.tags {
        form := form.(tags := form.tags + [entry]);
        newTag := "";
      }
    }

    /** `removeTag(index)`. */
    method RemoveTag(index: int)
      modifies this`form
      ensures old(NoDuplicates(form.tags)) ==> NoDuplicates(form.tags)
      ensures form == old(form).(tags := RemoveAt(old(form).tags, index))
    {
      if NoDuplicates(form.tags) {
        RemoveAtKeepsNoDuplicates(form.tags, index);
      }
      form := form.(tags := RemoveAt(form.tags, index));
    }

    /** `handleSubmit`: run the guard chain, then save. `saveOutcome` is what
        the parent's `onSave` does; the modal closes only when it succeeds. */
    method HandleSubmit(saveOutcome: Result<(), Api.Thrown>)
      returns (saved: Option<ProductPayload>, closed: bool)
      modifies this`error
      ensures var invalid := ValidateProductForm(form, editingId.Some?, selectedImage.Some?);
              (invalid.Some? ==> saved.None? && !closed && error == invalid.value) &&
              (invalid.None? ==> saved == Some(BuildPayload(form, editingId)))
      ensures closed <==> saved.Some? && saveOutcome.Success?
      ensures closed ==> error == ""
      ensures saved.Some? && saveOutcome.Failure? ==>
                error == (if saveOutcome.error.Message() != "" then saveOutcome.error.Message() else SaveFallback)
    {
      error := "";
      var invalid := ValidateProductForm(form, editingId.Some?, selectedImage.Some?);
      if invalid.Some? {
        error := invalid.value;
        return None, false;
      }
      saved := Some(BuildPayload(form, editingId));
      match saveOutcome {
        case Success(_) =>
          closed := true;
        case Failure(err) =>
          error := if err.Message() != "" then err.Message() else SaveFallback;
          closed := false;
      }
    }
  }

  const NoSearchResults := "Nenhum produto encontrado para sua busca"
  const NoProducts := "Nenhum produto cadastrado"

  /** The empty-state text under the table, shown only when nothing is
      listed and nothing is loading. */
  function EmptyStateText(searchTerm: string, shownCount: nat, loading: bool): (r: Option<string>)
    ensures r.Some? <==> shownCount == 0 && !loading
    ensures r.Some? ==> (r.value == NoSearchResults <==> searchTerm != "")
    ensures r.Some? ==> (r.value == NoProducts <==> searchTerm == "")
  {
    if shownCount == 0 && !loading then
      Some(if searchTerm != "" then NoSearchResults else NoProducts)
    else None
  }
}
