/**
 * The request building of `src/services/apiProduct.js`: the query parameters of the
 * product list, the page count of its response, and the multipart form of a create or
 * update. `URLSearchParams` and `FormData` are their entries in append order; the
 * percent-encoding of the query string and the decimal rendering of the price are not
 * modelled.
 */
module ProductApi {
  import opened Wrappers
  import opened Text
  import opened Tally
  import opened Numbers

  /** The query parameters of `getProducts`, appended in the order page, limit, category, sort. */
  function QueryParams(page: int, category: string, sort: string, limit: int): Assoc<string> {
    var p1 := AppendIf([], page > 1, "page", IntToString(page));
    var p2 := AppendIf(p1, limit != 10, "limit", IntToString(limit));
    var p3 := AppendIf(p2, category != "" && category != "all", "category", category);
    AppendIf(p3, sort != "", "sort", sort)
  }

  /** `if (cond) params.append(k, v)`. */
  function AppendIf(params: Assoc<string>, cond: bool, k: string, v: string): Assoc<string> {
    if cond then params + [(k, v)] else params
  }

  lemma KeysAppendIf(params: Assoc<string>, cond: bool, k: string, v: string)
    ensures Keys(AppendIf(params, cond, k, v)) == Keys(params) + (if cond then [k] else [])
  {
    if cond {
      KeysAppend(params, [(k, v)]);
    }
  }

  /** `const params = new URLSearchParams(); if (...) params.append(...)`, one step at a time. */
  method BuildQuery(page: int, category: string, sort: string, limit: int) returns (params: Assoc<string>)
    ensures params == QueryParams(page, category, sort, limit)
  {
    params := [];
    if page > 1 {
      params := params + [("page", IntToString(page))];
    }
    if limit != 10 {
      params := params + [("limit", IntToString(limit))];
    }
    if category != "" && category != "all" {
      params := params + [("category", category)];
    }
    if sort != "" {
      params := params + [("sort", sort)];
    }
  }

  /** The position of a parameter name in the append order. */
  function KeyRank(k: string): int {
    if k == "page" then 0 else if k == "limit" then 1 else if k == "category" then 2 else 3
  }

  /** The parameter names sent, in order, given which of them differ from the server's default. */
  function QueryKeys(sendPage: bool, sendLimit: bool, sendCategory: bool, sendSort: bool): seq<string> {
    (if sendPage then ["page"] else []) + (if sendLimit then ["limit"] else [])
    + (if sendCategory then ["category"] else []) + (if sendSort then ["sort"] else [])
  }

  /** Which parameters differ from the server's default: page beyond 1, a limit other than 10, a real category, a sort. */
  function Sent(page: int, category: string, sort: string, limit: int): (bool, bool, bool, bool) {
    (page > 1, limit != 10, category != "" && category != "all", sort != "")
  }

  lemma QueryParamsKeys(page: int, category: string, sort: string, limit: int)
    ensures var (b1, b2, b3, b4) := Sent(page, category, sort, limit);
      Keys(QueryParams(page, category, sort, limit)) == QueryKeys(b1, b2, b3, b4)
  {
    var p1 := AppendIf([], page > 1, "page", IntToString(page));
    var p2 := AppendIf(p1, limit != 10, "limit", IntToString(limit));
    var p3 := AppendIf(p2, category != "" && category != "all", "category", category);
    KeysAppendIf([], page > 1, "page", IntToString(page));
    KeysAppendIf(p1, limit != 10, "limit", IntToString(limit));
    KeysAppendIf(p2, category != "" && category != "all", "category", category);
    KeysAppendIf(p3, sort != "", "sort", sort);
  }

  /** Each name is in the list exactly when its flag is set; "search" never is. */
  lemma QueryKeysMembers(b1: bool, b2: bool, b3: bool, b4: bool)
    ensures "page" in QueryKeys(b1, b2, b3, b4) <==> b1
    ensures "limit" in QueryKeys(b1, b2, b3, b4) <==> b2
    ensures "category" in QueryKeys(b1, b2, b3, b4) <==> b3
    ensures "sort" in QueryKeys(b1, b2, b3, b4) <==> b4
    ensures "search" !in QueryKeys(b1, b2, b3, b4)
  {
    var k1: seq<string> := if b1 then ["page"] else [];
    var k2: seq<string> := if b2 then ["limit"] else [];
    var k3: seq<string> := if b3 then ["category"] else [];
    var k4: seq<string> := if b4 then ["sort"] else [];
    assert QueryKeys(b1, b2, b3, b4) == k1 + k2 + k3 + k4;
    assert forall k :: k in k1 + k2 + k3 + k4 <==> k in k1 || k in k2 || k in k3 || k in k4;
  }

  /** The names are in the fixed order page, limit, category, sort. */
  lemma QueryKeysOrdered(b1: bool, b2: bool, b3: bool, b4: bool)
    ensures forall i, j :: 0 <= i < j < |QueryKeys(b1, b2, b3, b4)| ==>
      KeyRank(QueryKeys(b1, b2, b3, b4)[i]) < KeyRank(QueryKeys(b1, b2, b3, b4)[j])
  {
  }

  /**
   * A parameter is sent exactly when it differs from the server's default: page beyond 1,
   * a limit other than 10, a real category, a sort. The search text is never sent.
   */
  lemma QueryParamsSent(page: int, category: string, sort: string, limit: int)
    ensures HasKey(QueryParams(page, category, sort, limit), "page") <==> page > 1
    ensures HasKey(QueryParams(page, category, sort, limit), "limit") <==> limit != 10
    ensures HasKey(QueryParams(page, category, sort, limit), "category") <==> category != "" && category != "all"
    ensures HasKey(QueryParams(page, category, sort, limit), "sort") <==> sort != ""
    ensures !HasKey(QueryParams(page, category, sort, limit), "search")
  {
    QueryParamsKeys(page, category, sort, limit);
    QueryKeysMembers(page > 1, limit != 10, category != "" && category != "all", sort != "");
  }

  /** The names come in the fixed order page, limit, category, sort. */
  lemma QueryParamsOrder(page: int, category: string, sort: string, limit: int)
    ensures forall i, j :: 0 <= i < j < |QueryParams(page, category, sort, limit)| ==>
      KeyRank(QueryParams(page, category, sort, limit)[i].0) < KeyRank(QueryParams(page, category, sort, limit)[j].0)
  {
    var q := QueryParams(page, category, sort, limit);
    QueryParamsKeys(page, category, sort, limit);
    QueryKeysOrdered(page > 1, limit != 10, category != "" && category != "all", sort != "");
    forall i, j | 0 <= i < j < |q|
      ensures KeyRank(q[i].0) < KeyRank(q[j].0)
    {
      assert Keys(q)[i] == q[i].0 && Keys(q)[j] == q[j].0;
    }
  }

  /** A page beyond the first is sent first, as digits the server reads back as that page. */
  lemma QueryPageReadsBack(page: int, category: string, sort: string, limit: int)
    requires page > 1
    ensures QueryParams(page, category, sort, limit)[0] == ("page", NatToString(page))
    ensures DecimalValue(NatToString(page)) == page
  {
    DecimalRoundTrip(page);
  }

  /** `Math.ceil(total / limit)`; `None` when it is not a finite number (no total, or a zero limit). */
  function TotalPages(total: Option<int>, limit: int): (r: Option<int>)
    ensures r.None? <==> total.None? || limit == 0
    ensures r.Some? && limit > 0 ==> limit * (r.value - 1) < total.value <= limit * r.value
  {
    if total.None? || limit == 0 then None
    else if limit > 0 then Some(CeilDiv(total.value, limit))
    else Some(CeilDiv(-total.value, -limit))
  }

  /** What `getProducts` returns besides the products: the totals, the page asked for, the page count. */
  datatype ListPage = ListPage(total: Option<int>, results: Option<int>, page: int, totalPages: Option<int>)

  function ProductsResponse(total: Option<int>, results: Option<int>, page: int, limit: int): ListPage {
    ListPage(total, results, page, TotalPages(total, limit))
  }

  /**
   * The response echoes the page asked for, and its page count is just enough: every
   * product lies on one of the pages, and the last page is not empty.
   */
  lemma PagesCoverAll(total: int, results: Option<int>, page: int, limit: int, i: int)
    requires limit > 0 && 0 <= i < total
    ensures ProductsResponse(Some(total), results, page, limit).page == page
    ensures 1 <= i / limit + 1 <= ProductsResponse(Some(total), results, page, limit).totalPages.value
    ensures (ProductsResponse(Some(total), results, page, limit).totalPages.value - 1) * limit < total
  {
    var r := CeilDiv(total, limit);
    var q := i / limit;
    assert q * limit <= i;
    assert limit * r == r * limit;
    MulCancel(q, r, limit);
  }

  // ---------------------------------------------------------------------------------------
  // Multipart form of create and update

  /** A form entry's value: text, a number sent as its text, or a file. */
  datatype FormValue = FText(text: string) | FNumber(number: real) | FFile(file: string)

  /** The product form's data as the mutations pass it; files are named by a string. */
  datatype ProductInput = ProductInput(
    name: string,
    description: string,
    price: real,
    category: string,
    imageCover: Option<seq<string>>,
    images: Option<seq<string>>)

  type Form = seq<(string, FormValue)>

  function BasicFields(data: ProductInput): Form {
    [("name", FText(data.name)), ("description", FText(data.description)),
     ("price", FNumber(data.price)), ("category", FText(data.category))]
  }

  /** `if (imageCover && imageCover[0])`: only the first cover file. */
  function CoverField(data: ProductInput): Form {
    if data.imageCover.Some? && |data.imageCover.value| > 0 then [("imageCover", FFile(data.imageCover.value[0]))] else []
  }

  /** One "images" entry per file, in order. */
  function ImageFields(files: seq<string>): (r: Form)
    ensures |r| == |files|
  {
    if files == [] then [] else ImageFields(files[..|files| - 1]) + [("images", FFile(files[|files| - 1]))]
  }

  function ImagesOf(data: ProductInput): seq<string> {
    if data.images.Some? then data.images.value else []
  }

  /** The form `createProduct` and `updateProduct` send. */
  function FormFields(data: ProductInput): Form {
    BasicFields(data) + CoverField(data) + ImageFields(ImagesOf(data))
  }

  /** The `FormData` built by successive `append` calls. */
  method BuildForm(data: ProductInput) returns (form: Form)
    ensures form == FormFields(data)
  {
    form := [];
    form := form + [("name", FText(data.name))];
    form := form + [("description", FText(data.description))];
    form := form + [("price", FNumber(data.price))];
    form := form + [("category", FText(data.category))];
    if data.imageCover.Some? && |data.imageCover.value| > 0 {
      form := form + [("imageCover", FFile(data.imageCover.value[0]))];
    }
    if data.images.Some? && |data.images.value| > 0 {
      var files := data.images.value;
      var head := form;
      for k := 0 to |files|
        invariant form == head + ImageFields(files[..k])
      {
        assert files[..k + 1][..k] == files[..k];
        form := form + [("images", FFile(files[k]))];
      }
      assert files[..|files|] == files;
    }
  }

  /** The files sent under a field name, in order. */
  function FilesUnder(form: Form, key: string): seq<string> {
    if form == [] then []
    else
      var last := form[|form| - 1];
      FilesUnder(form[..|form| - 1], key) + (if last.0 == key && last.1.FFile? then [last.1.file] else [])
  }

  lemma {:induction false} FilesUnderAppend(a: Form, b: Form, key: string)
    ensures FilesUnder(a + b, key) == FilesUnder(a, key) + FilesUnder(b, key)
    decreases |b|
  {
    if b == [] {
      assert a + b == a;
    } else {
      assert (a + b)[..|a + b| - 1] == a + b[..|b| - 1];
      FilesUnderAppend(a, b[..|b| - 1], key);
    }
  }

  lemma {:induction false} ImageFieldsFiles(files: seq<string>)
    ensures FilesUnder(ImageFields(files), "images") == files
    ensures FilesUnder(ImageFields(files), "imageCover") == []
  {
    if files != [] {
      var init := files[..|files| - 1];
      ImageFieldsFiles(init);
      FilesUnderAppend(ImageFields(init), [("images", FFile(files[|files| - 1]))], "images");
      FilesUnderAppend(ImageFields(init), [("images", FFile(files[|files| - 1]))], "imageCover");
    }
  }

  /** A form without file entries sends no file under any name. */
  lemma {:induction false} NoFilesUnder(form: Form, key: string)
    requires forall i :: 0 <= i < |form| ==> !form[i].1.FFile?
    ensures FilesUnder(form, key) == []
  {
    if form != [] {
      NoFilesUnder(form[..|form| - 1], key);
    }
  }

  /**
   * The form always starts with name, description, price and category; it carries the
   * first cover file (if any) as its only cover, and every additional image in order.
   */
  lemma FormFieldsSpec(data: ProductInput)
    ensures FormFields(data)[..4] == BasicFields(data)
    ensures FilesUnder(FormFields(data), "imageCover") ==
      if data.imageCover.Some? && |data.imageCover.value| > 0 then [data.imageCover.value[0]] else []
    ensures FilesUnder(FormFields(data), "images") == ImagesOf(data)
  {
    var basic := BasicFields(data);
    var cover := CoverField(data);
    var imgs := ImageFields(ImagesOf(data));
    ImageFieldsFiles(ImagesOf(data));
    FilesUnderAppend(basic + cover, imgs, "imageCover");
    FilesUnderAppend(basic + cover, imgs, "images");
    FilesUnderAppend(basic, cover, "imageCover");
    FilesUnderAppend(basic, cover, "images");
    NoFilesUnder(basic, "imageCover");
    NoFilesUnder(basic, "images");
  }
}
