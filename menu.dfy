/** The menu flattener: from the decoded restaurant page to one row per menu
    item, visiting menus, then their categories, then their items, in list
    order. */
module Menu {
  import opened Wrappers
  import opened Json

  /** One output row: the six item fields in column order. */
  type Row = seq<Json>

  /** The placeholder written for a field the item does not have. */
  const NotAvailable: Json := JStr("N/A")

  /** The keys read from each item, in column order. */
  const RowFields: seq<string> := ["name", "price", "desc", "item_image_url", "item_state", "rating"]

  // ---------------------------------------------------------------------
  // Traversal, stated as functions
  // ---------------------------------------------------------------------

  /** Run `a`, then `b`, concatenating their rows; the first exception wins. */
  function Then(a: Result<seq<Row>, PyError>, b: Result<seq<Row>, PyError>): Result<seq<Row>, PyError>
  {
    if a.Err? then a else if b.Err? then b else Ok(a.value + b.value)
  }

  /** A `for x in xs` loop whose body appends the rows `f(x)` to the output
      list; an exception in a body ends the loop and propagates. */
  function ConcatRows(xs: seq<Json>, f: Json -> Result<seq<Row>, PyError>): (r: Result<seq<Row>, PyError>)
    decreases |xs|
    ensures r.Ok? <==> forall k :: 0 <= k < |xs| ==> f(xs[k]).Ok?
    ensures r.Err? ==>
      exists k :: 0 <= k < |xs| && f(xs[k]) == Err(r.error) && forall j :: 0 <= j < k ==> f(xs[j]).Ok?
  {
    if xs == [] then Ok([])
    else
      var init := xs[..|xs| - 1];
      assert forall k :: 0 <= k < |init| ==> init[k] == xs[k];
      Then(ConcatRows(init, f), f(xs[|xs| - 1]))
  }

  /** The row of one element of a category's `items` list: the element's
      `"item"` dict, read field by field with `"N/A"` for a missing field. */
  function ItemRow(item: Json): (r: Result<Row, PyError>)
    ensures r.Ok? <==> Index(item, "item").Ok? && Index(item, "item").value.JObj?
    ensures Index(item, "item").Err? ==> r == Err(Index(item, "item").error)
    ensures Index(item, "item").Ok? && !Index(item, "item").value.JObj? ==> r == Err(AttributeError)
    ensures r.Ok? ==>
      |r.value| == |RowFields|
      && forall k :: 0 <= k < |RowFields| ==>
           r.value[k] == Find(Index(item, "item").value.entries, RowFields[k]).GetOr(NotAvailable)
  {
    var data :- Index(item, "item");
    match data
    case JObj(entries) =>
      Ok([Find(entries, "name").GetOr(NotAvailable),
          Find(entries, "price").GetOr(NotAvailable),
          Find(entries, "desc").GetOr(NotAvailable),
          Find(entries, "item_image_url").GetOr(NotAvailable),
          Find(entries, "item_state").GetOr(NotAvailable),
          Find(entries, "rating").GetOr(NotAvailable)])
    case _ => Err(AttributeError)  // raised by the first `.get`
  }

  /** Every row has the six columns. */
  predicate SixFields(rows: seq<Row>)
  {
    forall i :: 0 <= i < |rows| ==> |rows[i]| == |RowFields|
  }

  /** The rows one item appends: exactly one, or the item's exception. */
  function ItemAsRows(item: Json): (r: Result<seq<Row>, PyError>)
    ensures r.Ok? <==> ItemRow(item).Ok?
    ensures r.Ok? ==> |r.value| == 1 && SixFields(r.value)
    ensures r.Err? ==> r.error == ItemRow(item).error
  {
    var row :- ItemRow(item);
    Ok([row])
  }

  /** `category["category"].get("items", [])`: the items list, an empty list
      when the key is missing, and an exception when the `category` dict is. */
  function ItemsOf(category: Json): (r: Result<Json, PyError>)
    ensures r.Ok? <==> Index(category, "category").Ok? && Index(category, "category").value.JObj?
    ensures r.Ok? ==> r.value == Find(Index(category, "category").value.entries, "items").GetOr(JArr([]))
  {
    var data :- Index(category, "category");
    Get(data, "items", JArr([]))
  }

  /** `menu["menu"].get("categories", [])`: the categories list, an empty
      list when the key is missing, and an exception when the `menu` dict is. */
  function CategoriesOf(menu: Json): (r: Result<Json, PyError>)
    ensures r.Ok? <==> Index(menu, "menu").Ok? && Index(menu, "menu").value.JObj?
    ensures r.Ok? ==> r.value == Find(Index(menu, "menu").value.entries, "categories").GetOr(JArr([]))
  {
    var data :- Index(menu, "menu");
    Get(data, "categories", JArr([]))
  }

  /** The rows of one category: one per element of its items. */
  function CategoryRows(category: Json): (r: Result<seq<Row>, PyError>)
    ensures r.Ok? ==> SixFields(r.value)
  {
    var items :- ItemsOf(category);
    var elems :- Iter(items);
    ConcatRowsSixFields(elems, ItemAsRows);
    ConcatRows(elems, ItemAsRows)
  }

  /** The rows of one menu: those of its categories, in order. */
  function MenuRows(menu: Json): (r: Result<seq<Row>, PyError>)
    ensures r.Ok? ==> SixFields(r.value)
  {
    var categories :- CategoriesOf(menu);
    var elems :- Iter(categories);
    ConcatRowsSixFields(elems, CategoryRows);
    ConcatRows(elems, CategoryRows)
  }

  /** `data["pages"]["restaurant"]`: both keys are required. */
  function Restaurants(doc: Json): (r: Result<Json, PyError>)
    ensures r.Ok? <==> doc.JObj? && Find(doc.entries, "pages").Some? && Find(doc.entries, "pages").value.JObj?
                       && Find(Find(doc.entries, "pages").value.entries, "restaurant").Some?
    ensures r.Ok? ==> r.value == Find(Find(doc.entries, "pages").value.entries, "restaurant").value
    ensures r.Err? ==> r.error.KeyError? || r.error == TypeError
  {
    var pages :- Index(doc, "pages");
    Index(pages, "restaurant")
  }

  /** The menus list of the one restaurant, after the check that there is
      exactly one restaurant id. */
  function MenusOf(doc: Json): (r: Result<Json, PyError>)
    ensures r == Err(ValueError) <==>
      Restaurants(doc).Ok? && Restaurants(doc).value.JObj? && |Restaurants(doc).value.entries| != 1
    ensures r.Ok? ==> Restaurants(doc).Ok? && Restaurants(doc).value.JObj? && |Restaurants(doc).value.entries| == 1
  {
    var restaurants :- Restaurants(doc);
    var ids :- Keys(restaurants);
    if |ids| != 1 then Err(ValueError)
    else
      match Index(restaurants, ids[0])
      case Err(e) => Err(e)  // cannot happen: the id is a key of the map
      case Ok(restaurant) =>
        var order :- Index(restaurant, "order");
        var menuList :- Index(order, "menuList");
        Index(menuList, "menus")
  }

  /** All rows of the document: six fields each, or the exception the first
      failing step raises, `ValueError` when the restaurant map does not hold
      exactly one id. */
  function Flatten(doc: Json): (r: Result<seq<Row>, PyError>)
    ensures r.Ok? ==> SixFields(r.value)
    ensures Restaurants(doc).Ok? && Restaurants(doc).value.JObj? && |Restaurants(doc).value.entries| != 1 ==>
      r == Err(ValueError)
    ensures r.Ok? ==> MenusOf(doc).Ok? && Iter(MenusOf(doc).value).Ok?
  {
    var menus :- MenusOf(doc);
    var elems :- Iter(menus);
    ConcatRowsSixFields(elems, MenuRows);
    ConcatRows(elems, MenuRows)
  }

  /** A loop whose bodies each append six-field rows appends six-field rows. */
  lemma {:induction false} ConcatRowsSixFields(xs: seq<Json>, f: Json -> Result<seq<Row>, PyError>)
    requires forall k :: 0 <= k < |xs| && f(xs[k]).Ok? ==> SixFields(f(xs[k]).value)
    ensures ConcatRows(xs, f).Ok? ==> SixFields(ConcatRows(xs, f).value)
    decreases |xs|
  {
    if xs != [] {
      var init := xs[..|xs| - 1];
      assert forall k :: 0 <= k < |init| ==> init[k] == xs[k];
      ConcatRowsSixFields(init, f);
    }
  }

  // ---------------------------------------------------------------------
  // The extractor object
  // ---------------------------------------------------------------------

  class MenuExtractor {
    /** The document the constructor loaded. */
    var data: Json

    constructor (data: Json)
      ensures this.data == data
    {
      this.data := data;
    }

    /** The nested loops that append one row per item. */
    method ExtractMenuData() returns (r: Result<seq<Row>, PyError>)
      ensures r == Flatten(data)
    {
      var restaurants :- Restaurants(data);
      var restaurantKeys :- Keys(restaurants);
      if |restaurantKeys| != 1 {
        return Err(ValueError);
      }
      var restaurantId := restaurantKeys[0];
      var restaurant :- Index(restaurants, restaurantId);
      var order :- Index(restaurant, "order");
      var menuList :- Index(order, "menuList");
      var menuValue :- Index(menuList, "menus");
      var menus :- Iter(menuValue);

      var extracted: seq<Row> := [];
      var i := 0;
      while i < |menus|
        invariant 0 <= i <= |menus|
        invariant ConcatRows(menus[..i], MenuRows) == Ok(extracted)
      {
        var categoriesValue := CategoriesOf(menus[i]);
        if categoriesValue.Err? {
          ErrAt(menus, MenuRows, i);
          return Err(categoriesValue.error);
        }
        var categories := Iter(categoriesValue.value);
        if categories.Err? {
          ErrAt(menus, MenuRows, i);
          return Err(categories.error);
        }
        var rows := CategoryLoop(categories.value);
        if rows.Err? {
          ErrAt(menus, MenuRows, i);
          return Err(rows.error);
        }
        ConcatRowsStep(menus, MenuRows, i);
        extracted := extracted + rows.value;
        i := i + 1;
      }
      assert menus[..i] == menus;
      return Ok(extracted);
    }
  }

  /** The loop over the categories of one menu, appending the rows of each. */
  method CategoryLoop(cats: seq<Json>) returns (r: Result<seq<Row>, PyError>)
    ensures r == ConcatRows(cats, CategoryRows)
  {
    var extracted: seq<Row> := [];
    var j := 0;
    while j < |cats|
      invariant 0 <= j <= |cats|
      invariant ConcatRows(cats[..j], CategoryRows) == Ok(extracted)
    {
      var itemsValue := ItemsOf(cats[j]);
      if itemsValue.Err? {
        ErrAt(cats, CategoryRows, j);
        return Err(itemsValue.error);
      }
      var items := Iter(itemsValue.value);
      if items.Err? {
        ErrAt(cats, CategoryRows, j);
        return Err(items.error);
      }
      var rows := ItemLoop(items.value);
      if rows.Err? {
        ErrAt(cats, CategoryRows, j);
        return Err(rows.error);
      }
      ConcatRowsStep(cats, CategoryRows, j);
      extracted := extracted + rows.value;
      j := j + 1;
    }
    assert cats[..j] == cats;
    return Ok(extracted);
  }

  /** The loop over the items of one category, appending one row each. */
  method ItemLoop(elems: seq<Json>) returns (r: Result<seq<Row>, PyError>)
    ensures r == ConcatRows(elems, ItemAsRows)
  {
    var extracted: seq<Row> := [];
    var k := 0;
    while k < |elems|
      invariant 0 <= k <= |elems|
      invariant ConcatRows(elems[..k], ItemAsRows) == Ok(extracted)
    {
      var row := ItemRow(elems[k]);
      if row.Err? {
        ErrAt(elems, ItemAsRows, k);
        return Err(row.error);
      }
      ConcatRowsStep(elems, ItemAsRows, k);
      extracted := extracted + [row.value];
      k := k + 1;
    }
    assert elems[..k] == elems;
    return Ok(extracted);
  }
  // ---------------------------------------------------------------------
  // Lemmas about the traversal
  // ---------------------------------------------------------------------

  /** One more loop iteration: the rows of the next element are appended. */
  lemma ConcatRowsStep(xs: seq<Json>, f: Json -> Result<seq<Row>, PyError>, k: nat)
    requires k < |xs|
    ensures ConcatRows(xs[..k + 1], f) == Then(ConcatRows(xs[..k], f), f(xs[k]))
  {
    assert xs[..k + 1][..k] == xs[..k];
  }

  lemma ThenAssociative(a: Result<seq<Row>, PyError>, b: Result<seq<Row>, PyError>, c: Result<seq<Row>, PyError>)
    ensures Then(Then(a, b), c) == Then(a, Then(b, c))
  {
    if a.Ok? && b.Ok? && c.Ok? {
      assert (a.value + b.value) + c.value == a.value + (b.value + c.value);
    }
  }

  /** Depth-first order: the rows of `xs + ys` are those of `xs` followed by
      those of `ys`, and an exception in `xs` is raised before `ys` is
      looked at. */
  lemma {:induction false} ConcatRowsAppend(xs: seq<Json>, ys: seq<Json>, f: Json -> Result<seq<Row>, PyError>)
    ensures ConcatRows(xs + ys, f) == Then(ConcatRows(xs, f), ConcatRows(ys, f))
    decreases |ys|
  {
    if ys == [] {
      assert xs + ys == xs;
      var a := ConcatRows(xs, f);
      if a.Ok? {
        assert a.value + [] == a.value;
      }
    } else {
      var zs := xs + ys;
      var ys' := ys[..|ys| - 1];
      assert zs[..|zs| - 1] == xs + ys';
      assert zs[|zs| - 1] == ys[|ys| - 1];
      ConcatRowsAppend(xs, ys', f);
      ThenAssociative(ConcatRows(xs, f), ConcatRows(ys', f), f(ys[|ys| - 1]));
    }
  }

  /** A one-element loop yields the rows of its element. */
  lemma ConcatRowsSingle(x: Json, f: Json -> Result<seq<Row>, PyError>)
    ensures ConcatRows([x], f) == f(x)
  {
    assert [x][..0] == [];
    if f(x).Ok? {
      assert [] + f(x).value == f(x).value;
    }
  }

  /** An exception in the body for element `k`, after every earlier element
      succeeded, is the exception of the whole loop. */
  lemma ErrAt(xs: seq<Json>, f: Json -> Result<seq<Row>, PyError>, k: nat)
    requires k < |xs|
    requires ConcatRows(xs[..k], f).Ok?
    requires f(xs[k]).Err?
    ensures ConcatRows(xs, f) == Err(f(xs[k]).error)
  {
    var head, tail := xs[..k + 1], xs[k + 1..];
    ConcatRowsStep(xs, f, k);
    assert ConcatRows(head, f) == Err(f(xs[k]).error);
    assert xs == head + tail;
    ConcatRowsAppend(head, tail, f);
  }

  /** Items: exactly one row per item, in order; there is no sorting and no
      removal of duplicates. */
  lemma {:induction false} OneRowPerItem(elems: seq<Json>)
    requires ConcatRows(elems, ItemAsRows).Ok?
    ensures |ConcatRows(elems, ItemAsRows).value| == |elems|
    ensures forall k :: 0 <= k < |elems| ==> ItemRow(elems[k]) == Ok(ConcatRows(elems, ItemAsRows).value[k])
    decreases |elems|
  {
    if elems != [] {
      var init := elems[..|elems| - 1];
      assert forall k :: 0 <= k < |init| ==> init[k] == elems[k];
      OneRowPerItem(init);
    }
  }

  /** `xs` summed under `g`, in the shape of `ConcatRows`. */
  function SumOver(xs: seq<Json>, g: Json -> nat): nat
    decreases |xs|
  {
    if xs == [] then 0 else SumOver(xs[..|xs| - 1], g) + g(xs[|xs| - 1])
  }

  /** If each element's rows number `g` of it, the loop's rows number the
      sum of `g`. */
  lemma {:induction false} ConcatRowsCount(xs: seq<Json>, f: Json -> Result<seq<Row>, PyError>, g: Json -> nat)
    requires forall k :: 0 <= k < |xs| ==> f(xs[k]).Ok? ==> |f(xs[k]).value| == g(xs[k])
    requires ConcatRows(xs, f).Ok?
    ensures |ConcatRows(xs, f).value| == SumOver(xs, g)
    decreases |xs|
  {
    if xs != [] {
      var init := xs[..|xs| - 1];
      assert forall k :: 0 <= k < |init| ==> init[k] == xs[k];
      ConcatRowsCount(init, f, g);
    }
  }

  /** The number of items of a category (0 where the traversal would fail). */
  function CategoryItemCount(category: Json): nat
  {
    match ItemsOf(category)
    case Ok(items) => (match Iter(items) case Ok(elems) => |elems| case Err(_) => 0)
    case Err(_) => 0
  }

  /** The number of items over all categories of a menu. */
  function MenuItemCount(menu: Json): nat
  {
    match CategoriesOf(menu)
    case Ok(cats) => (match Iter(cats) case Ok(elems) => SumOver(elems, CategoryItemCount) case Err(_) => 0)
    case Err(_) => 0
  }

  /** The number of items over all categories of all menus of the document. */
  function TotalItemCount(doc: Json): nat
  {
    match MenusOf(doc)
    case Ok(menus) => (match Iter(menus) case Ok(elems) => SumOver(elems, MenuItemCount) case Err(_) => 0)
    case Err(_) => 0
  }

  lemma CategoryRowsCount(category: Json)
    requires CategoryRows(category).Ok?
    ensures |CategoryRows(category).value| == CategoryItemCount(category)
  {
    var elems := Iter(ItemsOf(category).value).value;
    OneRowPerItem(elems);
  }

  lemma MenuRowsCount(menu: Json)
    requires MenuRows(menu).Ok?
    ensures |MenuRows(menu).value| == MenuItemCount(menu)
  {
    var elems := Iter(CategoriesOf(menu).value).value;
    forall k | 0 <= k < |elems| && CategoryRows(elems[k]).Ok?
      ensures |CategoryRows(elems[k]).value| == CategoryItemCount(elems[k])
    {
      CategoryRowsCount(elems[k]);
    }
    ConcatRowsCount(elems, CategoryRows, CategoryItemCount);
  }

  /** The number of rows is the number of items over all categories of all
      menus. */
  lemma FlattenRowCount(doc: Json)
    requires Flatten(doc).Ok?
    ensures |Flatten(doc).value| == TotalItemCount(doc)
  {
    var elems := Iter(MenusOf(doc).value).value;
    forall k | 0 <= k < |elems| && MenuRows(elems[k]).Ok?
      ensures |MenuRows(elems[k]).value| == MenuItemCount(elems[k])
    {
      MenuRowsCount(elems[k]);
    }
    ConcatRowsCount(elems, MenuRows, MenuItemCount);
  }

  /** The traversal below the restaurant never raises `ValueError`. */
  lemma MenuRowsNoValueError(menu: Json)
    ensures MenuRows(menu) != Err(ValueError)
  {
    var c := CategoriesOf(menu);
    if c.Ok? && Iter(c.value).Ok? {
      var elems := Iter(c.value).value;
      forall k | 0 <= k < |elems| ensures CategoryRows(elems[k]) != Err(ValueError) {
        var i := ItemsOf(elems[k]);
        if i.Ok? && Iter(i.value).Ok? {
          var items := Iter(i.value).value;
          assert forall m :: 0 <= m < |items| ==> ItemAsRows(items[m]) != Err(ValueError);
        }
      }
    }
  }

  /** The restaurant-id check: with the restaurant map reachable, the
      flattener raises `ValueError` exactly when the map does not have
      exactly one key, whatever lies below the ids. */
  lemma RestaurantCardinality(doc: Json)
    requires Restaurants(doc).Ok? && Restaurants(doc).value.JObj?
    ensures Flatten(doc) == Err(ValueError) <==> |Restaurants(doc).value.entries| != 1
  {
    var menus := MenusOf(doc);
    if menus.Ok? && Iter(menus.value).Ok? {
      var elems := Iter(menus.value).value;
      forall k | 0 <= k < |elems| ensures MenuRows(elems[k]) != Err(ValueError) {
        MenuRowsNoValueError(elems[k]);
      }
    }
  }

  /** The path from the one restaurant down to its menus is required: a
      missing `order`, `menuList` or `menus` raises `KeyError`. */
  lemma RequiredPath(doc: Json, id: string, restaurant: Json)
    requires Restaurants(doc) == Ok(JObj([Entry(id, restaurant)]))
    ensures !restaurant.JObj? ==> Flatten(doc) == Err(TypeError)
    ensures restaurant.JObj? && Find(restaurant.entries, "order").None? ==>
      Flatten(doc) == Err(KeyError("order"))
    ensures Index(restaurant, "order").Ok? && Index(restaurant, "order").value.JObj?
            && Find(Index(restaurant, "order").value.entries, "menuList").None? ==>
      Flatten(doc) == Err(KeyError("menuList"))
    ensures Index(restaurant, "order").Ok? && Index(Index(restaurant, "order").value, "menuList").Ok?
            && Index(Index(restaurant, "order").value, "menuList").value.JObj?
            && Find(Index(Index(restaurant, "order").value, "menuList").value.entries, "menus").None? ==>
      Flatten(doc) == Err(KeyError("menus"))
  {
  }

  /** A menu without `"categories"`, or a category without `"items"`,
      contributes no rows and raises nothing. */
  lemma MissingListsContributeNothing(menu: Json, category: Json)
    ensures (Index(menu, "menu").Ok? && Index(menu, "menu").value.JObj?
             && Find(Index(menu, "menu").value.entries, "categories").None?) ==> MenuRows(menu) == Ok([])
    ensures (Index(category, "category").Ok? && Index(category, "category").value.JObj?
             && Find(Index(category, "category").value.entries, "items").None?) ==> CategoryRows(category) == Ok([])
  {
  }

  /** The wrapper keys `menu`, `category` and `item` are required: their
      absence raises `KeyError`, it is not defaulted. */
  lemma WrapperKeysRequired(menu: Json, category: Json, item: Json)
    ensures menu.JObj? && Find(menu.entries, "menu").None? ==> MenuRows(menu) == Err(KeyError("menu"))
    ensures category.JObj? && Find(category.entries, "category").None? ==>
      CategoryRows(category) == Err(KeyError("category"))
    ensures item.JObj? && Find(item.entries, "item").None? ==> ItemRow(item) == Err(KeyError("item"))
  {
  }

  // ---------------------------------------------------------------------
  // A worked example: two menus of one category each, three items in all
  // ---------------------------------------------------------------------

  /** An item entry with all six fields. */
  function SampleItem(name: string): Json
  {
    JObj([Entry("item", JObj([
      Entry("name", JStr(name)), Entry("price", JNum(1.0)), Entry("desc", JStr("d")),
      Entry("item_image_url", JStr("u")), Entry("item_state", JStr("s")), Entry("rating", JNum(4.0))]))])
  }

  /** An item entry with a name only. */
  const SampleBareItem: Json := JObj([Entry("item", JObj([Entry("name", JStr("c"))]))])

  /** A menu entry holding one category with the given items. */
  function SampleMenu(items: seq<Json>): Json
  {
    JObj([Entry("menu", JObj([Entry("categories", JArr([
      JObj([Entry("category", JObj([Entry("items", JArr(items))]))])]))]))])
  }

  /** A page of one restaurant whose menus are the given list. */
  function SampleDoc(menus: seq<Json>): Json
  {
    JObj([Entry("pages", JObj([Entry("restaurant", JObj([Entry("42", JObj([Entry("order",
      JObj([Entry("menuList", JObj([Entry("menus", JArr(menus))]))]))]))]))]))])
  }

  function SampleRow(name: string): Row
  {
    [JStr(name), JNum(1.0), JStr("d"), JStr("u"), JStr("s"), JNum(4.0)]
  }

  lemma SampleMenuRows(items: seq<Json>)
    ensures MenuRows(SampleMenu(items)) == ConcatRows(items, ItemAsRows)
  {
    var cat := JObj([Entry("category", JObj([Entry("items", JArr(items))]))]);
    assert CategoryRows(cat) == ConcatRows(items, ItemAsRows);
    ConcatRowsSingle(cat, CategoryRows);
  }

  lemma SampleItemRow(name: string)
    ensures ItemAsRows(SampleItem(name)) == Ok([SampleRow(name)])
  {
    var entries := Index(SampleItem(name), "item").value.entries;
    FindAt(entries, "name", 0);
    FindAt(entries, "price", 1);
    FindAt(entries, "desc", 2);
    FindAt(entries, "item_image_url", 3);
    FindAt(entries, "item_state", 4);
    FindAt(entries, "rating", 5);
  }

  lemma SampleBareItemRow()
    ensures ItemAsRows(SampleBareItem) == Ok([[JStr("c"), NotAvailable, NotAvailable, NotAvailable, NotAvailable, NotAvailable]])
  {
    var entries := [Entry("name", JStr("c"))];
    assert Find(entries, "price") == None;
    assert Find(entries, "desc") == None;
    assert Find(entries, "item_image_url") == None;
    assert Find(entries, "item_state") == None;
    assert Find(entries, "rating") == None;
  }

  lemma SampleFlatten(menus: seq<Json>)
    ensures Flatten(SampleDoc(menus)) == ConcatRows(menus, MenuRows)
  {
    SampleMenus(menus);
  }

  lemma SampleMenus(menus: seq<Json>)
    ensures MenusOf(SampleDoc(menus)) == Ok(JArr(menus))
  {
    var restaurant := JObj([Entry("42", JObj([Entry("order",
      JObj([Entry("menuList", JObj([Entry("menus", JArr(menus))]))]))]))]);
    assert Restaurants(SampleDoc(menus)) == Ok(restaurant);
    var ids := Keys(restaurant).value;
    assert |ids| == 1 && ids[0] == "42";
    assert ids == ["42"];
  }

  lemma SampleItemRows(a: string, b: string)
    ensures ConcatRows([SampleItem(a), SampleItem(b)], ItemAsRows) == Ok([SampleRow(a), SampleRow(b)])
  {
    SampleItemRow(a);
    SampleItemRow(b);
    ConcatRowsSingle(SampleItem(a), ItemAsRows);
    ConcatRowsSingle(SampleItem(b), ItemAsRows);
    ConcatRowsAppend([SampleItem(a)], [SampleItem(b)], ItemAsRows);
    assert [SampleItem(a)] + [SampleItem(b)] == [SampleItem(a), SampleItem(b)];
    assert [SampleRow(a)] + [SampleRow(b)] == [SampleRow(a), SampleRow(b)];
  }

  lemma SampleFirstMenuRows()
    ensures MenuRows(SampleMenu([SampleItem("a"), SampleItem("b")])) == Ok([SampleRow("a"), SampleRow("b")])
  {
    SampleMenuRows([SampleItem("a"), SampleItem("b")]);
    SampleItemRows("a", "b");
  }

  lemma SampleSecondMenuRows()
    ensures MenuRows(SampleMenu([SampleBareItem]))
         == Ok([[JStr("c"), NotAvailable, NotAvailable, NotAvailable, NotAvailable, NotAvailable]])
  {
    SampleMenuRows([SampleBareItem]);
    SampleBareItemRow();
    ConcatRowsSingle(SampleBareItem, ItemAsRows);
  }

  /** Three rows, menu by menu and item by item, with `"N/A"` only in the
      slots of the fields the third item lacks. */
  lemma FlattenExample()
    ensures Flatten(SampleDoc([SampleMenu([SampleItem("a"), SampleItem("b")]), SampleMenu([SampleBareItem])]))
         == Ok([SampleRow("a"), SampleRow("b"),
                [JStr("c"), NotAvailable, NotAvailable, NotAvailable, NotAvailable, NotAvailable]])
  {
    var m1, m2 := SampleMenu([SampleItem("a"), SampleItem("b")]), SampleMenu([SampleBareItem]);
    var bare: Row := [JStr("c"), NotAvailable, NotAvailable, NotAvailable, NotAvailable, NotAvailable];
    SampleFirstMenuRows();
    SampleSecondMenuRows();
    ConcatRowsSingle(m1, MenuRows);
    ConcatRowsSingle(m2, MenuRows);
    ConcatRowsAppend([m1], [m2], MenuRows);
    assert [m1] + [m2] == [m1, m2];
    assert [SampleRow("a"), SampleRow("b")] + [bare] == [SampleRow("a"), SampleRow("b"), bare];
    SampleFlatten([m1, m2]);
  }
}
