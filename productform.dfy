/**
 * The product form (`src/components/ProductForm.jsx`): whether it edits or creates, the
 * submit guard, the field rules, and the optimistic create and update mutations with their
 * rollback on failure and their reconciliation on success. The temporary id's clock value
 * and the creation time stamp are parameters.
 */
module ProductForm {
  import opened Wrappers
  import opened Cache
  import Validation

  // ---------------------------------------------------------------------------------------
  // Mode, submit guard and field rules

  /** `Boolean(productToEdit?._id)`. */
  predicate IsEdit(productToEdit: Option<Record>) {
    productToEdit.Some? && Truthy(Field(productToEdit.value, "_id"))
  }

  /** The form values; `price` is `None` when the number field is empty, a file list may be null. */
  datatype FormData = FormData(
    name: string,
    description: string,
    price: Option<real>,
    category: string,
    imageCover: Option<seq<string>>,
    images: Option<seq<string>>)

  /** `data.imageCover && data.imageCover.length > 0`. */
  predicate HasCover(d: FormData) {
    d.imageCover.Some? && |d.imageCover.value| > 0
  }

  /** What `onSubmit` does: nothing, an update of the edited product, or a create. */
  datatype SubmitAction = NoCoverRejected | UpdateRequest(productId: Json, data: FormData) | CreateRequest(data: FormData)

  /** `onSubmit(data)`. */
  function Submit(productToEdit: Option<Record>, data: FormData): (r: SubmitAction)
    ensures r.NoCoverRejected? <==> !IsEdit(productToEdit) && !HasCover(data)
    ensures r.UpdateRequest? <==> IsEdit(productToEdit)
    ensures r.UpdateRequest? ==> r.productId == Field(productToEdit.value, "_id") && r.data == data
    ensures r.CreateRequest? ==> r.data == data && HasCover(data)
  {
    if !IsEdit(productToEdit) && !HasCover(data) then NoCoverRejected
    else if IsEdit(productToEdit) then UpdateRequest(Field(productToEdit.value, "_id"), data)
    else CreateRequest(data)
  }

  /** The name rule: required, 3 to 100 characters. */
  function NameError(name: string): (r: Option<string>)
    ensures r.None? <==> 3 <= |name| <= 100
    ensures name == "" ==> r == Some("Product name is required")
  {
    Validation.LengthError(name, "Product name is required", 3, "Minimum 3 characters", 100, "Maximum 100 characters")
  }

  /** The description rule: required, 10 to 1000 characters. */
  function DescriptionError(description: string): (r: Option<string>)
    ensures r.None? <==> 10 <= |description| <= 1000
    ensures description == "" ==> r == Some("Description is required")
  {
    Validation.LengthError(description, "Description is required", 10, "Minimum 10 characters", 1000, "Maximum 1000 characters")
  }

  /** The category rule: a category must be chosen. */
  function CategoryError(category: string): (r: Option<string>)
    ensures r.None? <==> category != ""
  {
    if category == "" then Some("Category is required") else None
  }

  /** The price rule: required, at least 0.01. */
  function PriceError(price: Option<real>): (r: Option<string>)
    ensures r.None? <==> price.Some? && price.value >= 0.01
    ensures price.None? ==> r == Some("Price is required")
  {
    if price.None? then Some("Price is required")
    else if price.value < 0.01 then Some("Price must be positive")
    else None
  }

  /** The form passes its field rules. */
  predicate FieldsValid(d: FormData) {
    NameError(d.name).None? && CategoryError(d.category).None?
    && PriceError(d.price).None? && DescriptionError(d.description).None?
  }

  /** The field rules in plain terms. */
  lemma FieldsValidMeans(d: FormData)
    ensures FieldsValid(d) <==>
      3 <= |d.name| <= 100 && d.category != "" && d.price.Some? && d.price.value >= 0.01
      && 10 <= |d.description| <= 1000
  {
  }

  // ---------------------------------------------------------------------------------------
  // The list transforms

  /** `old ? [record, ...old] : [record]`, the cached array being `list`. */
  function Prepend(list: Option<seq<Record>>, record: Record): (r: seq<Record>)
    ensures |r| >= 1 && r[0] == record
    ensures r[1..] == if list.Some? then list.value else []
  {
    [record] + (if list.Some? then list.value else [])
  }

  /** `old ? old.map(p => p.__isOptimistic ? created : p) : [created]`, the cached array being `list`. */
  function ReplaceFlagged(list: Option<seq<Record>>, created: Record): (r: seq<Record>)
    ensures list.None? ==> r == [created]
    ensures list.Some? ==> |r| == |list.value|
    ensures list.Some? ==> forall i :: 0 <= i < |r| ==> r[i] == if IsOptimistic(list.value[i]) then created else list.value[i]
  {
    if list.None? then [created]
    else seq(|list.value|, i requires 0 <= i < |list.value| => if IsOptimistic(list.value[i]) then created else list.value[i])
  }

  /** `s.map(p => p._id === id ? record : p)`. */
  function ReplaceById(s: seq<Record>, id: Json, record: Record): (r: seq<Record>)
    ensures |r| == |s|
    ensures forall i :: 0 <= i < |r| ==> r[i] == if HasId(s[i], id) then record else s[i]
  {
    seq(|s|, i requires 0 <= i < |s| => if HasId(s[i], id) then record else s[i])
  }

  /** `old ? old.map(...) : old`: an absent array stays absent. */
  function ReplaceInList(list: Option<seq<Record>>, id: Json, record: Record): Option<seq<Record>> {
    if list.Some? then Some(ReplaceById(list.value, id, record)) else None
  }

  /** Replacing twice by the same id, the first time with a record that keeps the id, is replacing once. */
  lemma ReplaceByIdTwice(s: seq<Record>, id: Json, first: Record, second: Record)
    requires HasId(first, id)
    ensures ReplaceById(ReplaceById(s, id, first), id, second) == ReplaceById(s, id, second)
  {
  }

  // ---------------------------------------------------------------------------------------
  // Optimistic records

  /**
   * The optimistic record of a create: a `temp-` id, the submitted fields (which win over
   * that id), then the creation time, zero ratings and the optimistic flag.
   */
  function OptimisticCreate(newProduct: Record, clock: string, createdAt: string): (r: Record)
    ensures IsOptimistic(r)
    ensures Field(r, "ratingsAverage") == JNum(0.0) && Field(r, "ratingsQuantity") == JNum(0.0)
    ensures Field(r, "createdAt") == JStr(createdAt)
    ensures Field(r, "_id") == if "_id" in newProduct then newProduct["_id"] else JStr("temp-" + clock)
    ensures forall k :: k in newProduct && k !in FixedCreateFields ==> Field(r, k) == newProduct[k]
  {
    map["_id" := JStr("temp-" + clock)] + newProduct
      + map["createdAt" := JStr(createdAt), "ratingsAverage" := JNum(0.0), "ratingsQuantity" := JNum(0.0),
            "__isOptimistic" := JBool(true)]
  }

  const FixedCreateFields: set<string> := {"createdAt", "ratingsAverage", "ratingsQuantity", "__isOptimistic"}

  /** `{...productToEdit, ...productData, __isOptimistic: true}`: the patch fields win. */
  function OptimisticUpdate(productToEdit: Record, productData: Record): (r: Record)
    ensures IsOptimistic(r)
    ensures forall k :: k != "__isOptimistic" ==>
      Field(r, k) == if k in productData then productData[k] else Field(productToEdit, k)
  {
    productToEdit + productData + map["__isOptimistic" := JBool(true)]
  }

  /** A patch without an `_id` keeps the edited product's id on the optimistic record. */
  lemma OptimisticUpdateKeepsId(productToEdit: Record, productData: Record)
    requires "_id" !in productData
    ensures HasId(OptimisticUpdate(productToEdit, productData), Field(productToEdit, "_id"))
  {
  }

  // ---------------------------------------------------------------------------------------
  // The cache transitions as functions of the cache contents

  /** `onMutate` of a create: the optimistic record is put in front of the list. */
  function CreateMutate(m: map<Key, Entry>, optimistic: Record): map<Key, Entry> {
    WriteList(m, Some(Prepend(ListOf(Snapshot(m, ProductsKey)), optimistic)))
  }

  /** `onSuccess` of a create: flagged records become the server's product. */
  function CreateSucceed(m: map<Key, Entry>, created: Record): map<Key, Entry> {
    WriteList(m, Some(ReplaceFlagged(ListOf(Snapshot(m, ProductsKey)), created)))
  }

  /** `onMutate` and `onSuccess` of an update: the record under `id` in the list and in `['product', id]`. */
  function UpdateWrite(m: map<Key, Entry>, id: string, record: Record): map<Key, Entry> {
    WriteList(m, ReplaceInList(ListOf(Snapshot(m, ProductsKey)), JStr(id), record))[ProductKey(id) := RecordEntry(record)]
  }

  /**
   * A failed create restores the list when there was one; when the list was absent the
   * optimistic record stays as a one-element list.
   */
  lemma CreateRollback(m: map<Key, Entry>, optimistic: Record)
    ensures ProductsKey in m ==> Restore(CreateMutate(m, optimistic), ProductsKey, Snapshot(m, ProductsKey)) == m
    ensures ProductsKey !in m ==>
      Restore(CreateMutate(m, optimistic), ProductsKey, Snapshot(m, ProductsKey)) == m[ProductsKey := ListEntry([optimistic])]
  {
    if ProductsKey in m {
      RestoreUndoes(m, CreateMutate(m, optimistic), ProductsKey);
    } else {
      assert Prepend(ListOf(Snapshot(m, ProductsKey)), optimistic) == [optimistic];
    }
  }

  /**
   * A create that succeeds after its optimistic write leaves the server's product in front
   * of the list that was there before (or alone), provided nothing else was flagged.
   */
  lemma CreateThenSucceed(m: map<Key, Entry>, optimistic: Record, created: Record)
    requires IsOptimistic(optimistic)
    requires var l := ListOf(Snapshot(m, ProductsKey)); l.Some? ==> forall i :: 0 <= i < |l.value| ==> !IsOptimistic(l.value[i])
    ensures var l := ListOf(Snapshot(m, ProductsKey));
      CreateSucceed(CreateMutate(m, optimistic), created)
        == m[ProductsKey := ListEntry([created] + if l.Some? then l.value else [])]
  {
    var l := ListOf(Snapshot(m, ProductsKey));
    var written := Prepend(l, optimistic);
    assert ListOf(Snapshot(CreateMutate(m, optimistic), ProductsKey)) == Some(written);
    assert ReplaceFlagged(Some(written), created) == [created] + if l.Some? then l.value else [];
  }

  /** An update leaves an absent product list absent and other entries untouched. */
  lemma UpdateKeepsOthers(m: map<Key, Entry>, id: string, record: Record)
    ensures ProductsKey !in m ==> ProductsKey !in UpdateWrite(m, id, record)
    ensures forall k :: k != ProductsKey && k != ProductKey(id) ==> Snapshot(UpdateWrite(m, id, record), k) == Snapshot(m, k)
    ensures Snapshot(UpdateWrite(m, id, record), ProductKey(id)) == Some(RecordEntry(record))
  {
  }

  /** A failed update restores both entries when both snapshots existed. */
  lemma UpdateRollback(m: map<Key, Entry>, id: string, optimistic: Record)
    requires ProductsKey in m && ProductKey(id) in m
    ensures Restore(Restore(UpdateWrite(m, id, optimistic), ProductsKey, Snapshot(m, ProductsKey)),
      ProductKey(id), Snapshot(m, ProductKey(id))) == m
  {
    var m1 := Restore(UpdateWrite(m, id, optimistic), ProductsKey, Snapshot(m, ProductsKey));
    assert forall k :: k != ProductKey(id) ==> Snapshot(m1, k) == Snapshot(m, k);
    RestoreUndoes(m, m1, ProductKey(id));
  }

  /** A successful update after its optimistic write is the same as writing the server's product once. */
  lemma UpdateThenSucceed(m: map<Key, Entry>, id: string, optimistic: Record, updated: Record)
    requires HasId(optimistic, JStr(id))
    ensures UpdateWrite(UpdateWrite(m, id, optimistic), id, updated) == UpdateWrite(m, id, updated)
  {
    var l := ListOf(Snapshot(m, ProductsKey));
    if l.Some? {
      ReplaceByIdTwice(l.value, JStr(id), optimistic, updated);
    }
  }

  // ---------------------------------------------------------------------------------------
  // The mutation handlers on the cache

  datatype CreateContext = CreateContext(previousProducts: Option<Entry>, optimistic: Record)

  datatype UpdateContext = UpdateContext(previousProducts: Option<Entry>, previousProduct: Option<Entry>, optimistic: Record)

  /** The create mutation's `onMutate`. */
  method CreateOnMutate(cache: QueryCache, newProduct: Record, clock: string, createdAt: string) returns (ctx: CreateContext)
    requires cache.Valid()
    modifies cache
    ensures cache.Valid()
    ensures ctx == CreateContext(old(cache.Get(ProductsKey)), OptimisticCreate(newProduct, clock, createdAt))
    ensures cache.entries == CreateMutate(old(cache.entries), ctx.optimistic)
  {
    var previous := cache.Get(ProductsKey);
    var optimistic := OptimisticCreate(newProduct, clock, createdAt);
    cache.SetList(Some(Prepend(ListOf(previous), optimistic)));
    ctx := CreateContext(previous, optimistic);
  }

  /** The create mutation's `onError`. */
  method CreateOnError(cache: QueryCache, ctx: CreateContext)
    requires cache.Valid() && (ctx.previousProducts.Some? ==> ctx.previousProducts.value.ListEntry?)
    modifies cache
    ensures cache.Valid()
    ensures cache.entries == Restore(old(cache.entries), ProductsKey, ctx.previousProducts)
  {
    cache.RestoreFrom(ProductsKey, ctx.previousProducts);
  }

  /** The create mutation's `onSuccess`. */
  method CreateOnSuccess(cache: QueryCache, created: Record)
    requires cache.Valid()
    modifies cache
    ensures cache.Valid()
    ensures cache.entries == CreateSucceed(old(cache.entries), created)
  {
    var current := cache.Get(ProductsKey);
    cache.SetList(Some(ReplaceFlagged(ListOf(current), created)));
  }

  /** The update mutation's `onMutate`. */
  method UpdateOnMutate(cache: QueryCache, productToEdit: Record, productId: string, productData: Record) returns (ctx: UpdateContext)
    requires cache.Valid()
    modifies cache
    ensures cache.Valid()
    ensures ctx == UpdateContext(old(cache.Get(ProductsKey)), old(cache.Get(ProductKey(productId))),
      OptimisticUpdate(productToEdit, productData))
    ensures cache.entries == UpdateWrite(old(cache.entries), productId, ctx.optimistic)
  {
    var previousProducts := cache.Get(ProductsKey);
    var previousProduct := cache.Get(ProductKey(productId));
    var optimistic := OptimisticUpdate(productToEdit, productData);
    cache.SetList(ReplaceInList(ListOf(previousProducts), JStr(productId), optimistic));
    cache.Set(ProductKey(productId), RecordEntry(optimistic));
    ctx := UpdateContext(previousProducts, previousProduct, optimistic);
  }

  /** The update mutation's `onError`. */
  method UpdateOnError(cache: QueryCache, productId: string, ctx: UpdateContext)
    requires cache.Valid()
    requires ctx.previousProducts.Some? ==> ctx.previousProducts.value.ListEntry?
    requires ctx.previousProduct.Some? ==> ctx.previousProduct.value.RecordEntry?
    modifies cache
    ensures cache.Valid()
    ensures cache.entries == Restore(Restore(old(cache.entries), ProductsKey, ctx.previousProducts),
      ProductKey(productId), ctx.previousProduct)
  {
    cache.RestoreFrom(ProductsKey, ctx.previousProducts);
    cache.RestoreFrom(ProductKey(productId), ctx.previousProduct);
  }

  /** The update mutation's `onSuccess`. */
  method UpdateOnSuccess(cache: QueryCache, productId: string, updated: Record)
    requires cache.Valid()
    modifies cache
    ensures cache.Valid()
    ensures cache.entries == UpdateWrite(old(cache.entries), productId, updated)
  {
    var current := cache.Get(ProductsKey);
    cache.SetList(ReplaceInList(ListOf(current), JStr(productId), updated));
    cache.Set(ProductKey(productId), RecordEntry(updated));
  }
}
