/** The product detail page (`ProductList/src/pages/ProductDetail/ProductDetail.tsx`): the
    initial spec selection, the SKU lookup behind the shown stock and price, the quantity
    control, the image list and the button states. */
module ProductDetail {
  import opened Base
  import opened Text
  import opened ProductTypes
  import Catalogue

  // ---------------------------------------------------------------------------------------
  // Spec selection

  /** The record `initialSpecs` after the `forEach`: each spec with values maps its name to its
      first value, a later spec of the same name overriding an earlier one. */
  function InitialSelection(specs: seq<ProductSpec>): map<string, string>
    decreases |specs|
  {
    if specs == [] then map[]
    else
      var m := InitialSelection(specs[..|specs| - 1]);
      var s := specs[|specs| - 1];
      if |s.values| > 0 then m[s.name := s.values[0]] else m
  }

  /** A name is selected exactly when some spec of that name has a value, and specs without
      values are skipped. */
  lemma {:induction false} InitialSelectionKeys(specs: seq<ProductSpec>, name: string)
    ensures name in InitialSelection(specs) <==> exists k | 0 <= k < |specs| :: specs[k].name == name && specs[k].values != []
    decreases |specs|
  {
    if specs != [] {
      var init := specs[..|specs| - 1];
      InitialSelectionKeys(init, name);
      assert forall k | 0 <= k < |init| :: init[k] == specs[k];
      if name in InitialSelection(init) {
        var k :| 0 <= k < |init| && init[k].name == name && init[k].values != [];
        assert specs[k].name == name && specs[k].values != [];
      }
    }
  }

  /** With distinct names, every spec that has values is preselected at its first value. */
  lemma {:induction false} InitialSelectionFirstValues(specs: seq<ProductSpec>, k: nat)
    requires forall x, y | 0 <= x < y < |specs| :: specs[x].name != specs[y].name
    requires k < |specs| && specs[k].values != []
    ensures specs[k].name in InitialSelection(specs)
    ensures InitialSelection(specs)[specs[k].name] == specs[k].values[0]
    decreases |specs|
  {
    var init := specs[..|specs| - 1];
    if k < |specs| - 1 {
      InitialSelectionFirstValues(init, k);
      assert init[k] == specs[k];
      assert specs[|specs| - 1].name != specs[k].name;
    }
  }

  /** The `forEach` loop that fills `initialSpecs`. */
  method InitialSpecs(specs: seq<ProductSpec>) returns (m: map<string, string>)
    ensures m == InitialSelection(specs)
  {
    m := map[];
    var i := 0;
    while i < |specs|
      invariant 0 <= i <= |specs|
      invariant m == InitialSelection(specs[..i])
    {
      assert specs[..i + 1][..i] == specs[..i];
      if |specs[i].values| > 0 {
        m := m[specs[i].name := specs[i].values[0]];
      }
      i := i + 1;
    }
    assert specs[..i] == specs;
  }

  // ---------------------------------------------------------------------------------------
  // SKU lookup, stock and price

  /** `Object.keys(selected).every(name => sku.specs[name] === selected[name])`; a missing key
      reads as `undefined`, which equals no string. */
  predicate SkuMatches(sku: ProductSku, selected: map<string, string>) {
    forall name | name in selected :: name in sku.specs && sku.specs[name] == selected[name]
  }

  /** `skus.find(...)`, as the index of the first matching SKU. */
  function FindSku(skus: seq<ProductSku>, selected: map<string, string>): (r: Option<nat>)
    ensures r.Some? ==> r.value < |skus| && SkuMatches(skus[r.value], selected)
    ensures r.Some? ==> forall k | 0 <= k < r.value :: !SkuMatches(skus[k], selected)
    ensures r.None? ==> forall k | 0 <= k < |skus| :: !SkuMatches(skus[k], selected)
    decreases |skus|
  {
    if skus == [] then None
    else if SkuMatches(skus[0], selected) then Some(0)
    else
      match FindSku(skus[1..], selected)
      case None => None
      case Some(k) => Some(k + 1)
  }

  predicate HasSkus(p: Product) {
    p.skus.Some? && p.skus.value != []
  }

  /** `getCurrentStock`. */
  function CurrentStock(product: Option<Product>, selected: map<string, string>): int {
    match product
    case None => 0
    case Some(p) =>
      if !HasSkus(p) then p.stock
      else
        match FindSku(p.skus.value, selected)
        case None => 0
        case Some(i) => p.skus.value[i].stock
  }

  /** `getCurrentPrice`; a matched price of 0 is falsy and falls back to the product price. */
  function CurrentPrice(product: Option<Product>, selected: map<string, string>): int {
    match product
    case None => 0
    case Some(p) =>
      if !HasSkus(p) then p.price
      else
        match FindSku(p.skus.value, selected)
        case None => p.price
        case Some(i) => if p.skus.value[i].price != 0 then p.skus.value[i].price else p.price
  }

  /** `find` stops at the first SKU that matches. */
  lemma {:induction false} FirstMatchFound(skus: seq<ProductSku>, selected: map<string, string>, i: nat)
    requires i < |skus| && SkuMatches(skus[i], selected)
    requires forall k | 0 <= k < i :: !SkuMatches(skus[k], selected)
    ensures FindSku(skus, selected) == Some(i)
    decreases i
  {
    if i > 0 {
      assert !SkuMatches(skus[0], selected);
      assert forall k | 0 <= k < i - 1 :: skus[1..][k] == skus[k + 1];
      FirstMatchFound(skus[1..], selected, i - 1);
    }
  }

  /** Stock comes from the first SKU that agrees with every selected value; without SKUs it is the
      product's own stock, and without a match it is 0. */
  lemma StockLookup(p: Product, selected: map<string, string>)
    ensures !HasSkus(p) ==> CurrentStock(Some(p), selected) == p.stock
    ensures HasSkus(p) ==>
      (forall k | 0 <= k < |p.skus.value| :: !SkuMatches(p.skus.value[k], selected)) ==> CurrentStock(Some(p), selected) == 0
    ensures HasSkus(p) ==> forall i | 0 <= i < |p.skus.value| ::
      SkuMatches(p.skus.value[i], selected) && (forall k | 0 <= k < i :: !SkuMatches(p.skus.value[k], selected)) ==>
        CurrentStock(Some(p), selected) == p.skus.value[i].stock
  {
    if HasSkus(p) {
      forall i | 0 <= i < |p.skus.value| &&
        SkuMatches(p.skus.value[i], selected) && (forall k | 0 <= k < i :: !SkuMatches(p.skus.value[k], selected))
        ensures CurrentStock(Some(p), selected) == p.skus.value[i].stock
      {
        FirstMatchFound(p.skus.value, selected, i);
      }
    }
  }

  /** With nothing selected every SKU matches, so the first SKU decides stock and price. */
  lemma EmptySelectionTakesFirstSku(p: Product)
    requires HasSkus(p)
    ensures CurrentStock(Some(p), map[]) == p.skus.value[0].stock
    ensures CurrentPrice(Some(p), map[]) == if p.skus.value[0].price != 0 then p.skus.value[0].price else p.price
  {
    assert SkuMatches(p.skus.value[0], map[]);
  }

  /** The shown price is the matched SKU's price, and the product price when there are no SKUs,
      no match, or the match has price 0. */
  lemma PriceFallback(p: Product, selected: map<string, string>)
    ensures var price := CurrentPrice(Some(p), selected);
      (price == p.price ||
        (HasSkus(p) && FindSku(p.skus.value, selected).Some? && price == p.skus.value[FindSku(p.skus.value, selected).value].price && price != 0))
    ensures !HasSkus(p) || FindSku(p.skus.value, selected).None? ==> CurrentPrice(Some(p), selected) == p.price
  {
  }

  /** On a generated product the preselected values are exactly the record of its first SKU,
      so the page opens on that SKU's stock and price (the enriched product carries these specs
      and SKUs by `Catalogue.EnrichedParts`). */
  lemma InitialSelectionPicksFirstSku(p: Product, d: Catalogue.DetailDraws)
    requires Catalogue.WellDrawn(d) && d.hasSpecs
    ensures |Catalogue.DrawnSkus(p, d)| > 0
    ensures InitialSelection(Catalogue.DrawnSpecs(d)) == Catalogue.DrawnSkus(p, d)[0].specs
    ensures FindSku(Catalogue.DrawnSkus(p, d), InitialSelection(Catalogue.DrawnSpecs(d))) == Some(0)
  {
    InitialMatchesFirstPair(d);
    FirstDrawnSku(p, d);
    FirstSkuFound(Catalogue.DrawnSkus(p, d), InitialSelection(Catalogue.DrawnSpecs(d)));
  }

  /** The first SKU drawn is the one of the first colour and the first size. */
  lemma FirstDrawnSku(p: Product, d: Catalogue.DetailDraws)
    requires d.hasSpecs && |Catalogue.ColourValuesOf(d)| > 0 && |Catalogue.SizeValuesOf(d)| > 0
    ensures |Catalogue.DrawnSkus(p, d)| > 0
    ensures Catalogue.DrawnSkus(p, d)[0].specs ==
      Catalogue.SkuSpecs(Catalogue.ColourValuesOf(d)[0], Catalogue.SizeValuesOf(d)[0])
  {
    Catalogue.EnrichedSkuOfPair(p, d, 0, 0);
    assert 0 * |Catalogue.SizeValuesOf(d)| + 0 == 0;
  }

  /** A first SKU whose record is the selection is the one found. */
  lemma FirstSkuFound(skus: seq<ProductSku>, selected: map<string, string>)
    requires |skus| > 0 && skus[0].specs == selected
    ensures FindSku(skus, selected) == Some(0)
  {
    assert SkuMatches(skus[0], selected);
  }

  lemma InitialMatchesFirstPair(d: Catalogue.DetailDraws)
    requires Catalogue.WellDrawn(d)
    ensures |Catalogue.ColourValuesOf(d)| > 0 && |Catalogue.SizeValuesOf(d)| > 0
    ensures InitialSelection(Catalogue.DrawnSpecs(d)) ==
      Catalogue.SkuSpecs(Catalogue.ColourValuesOf(d)[0], Catalogue.SizeValuesOf(d)[0])
  {
    Catalogue.DrawnLengths(d);
    Catalogue.DimensionValues(d);
    Catalogue.PaletteValues(d);
    var colours := Catalogue.OfferedColours(d);
    var sizes := Catalogue.OfferedSizes(d);
    assert |colours| >= 2 && |sizes| >= 2;
    assert colours[0] in colours && sizes[0] in sizes;
    SelectionOfDrawnSpecs(d.hasColour, d.hasSize, colours, sizes);
  }

  /** The selection for the one or two specs the enrichment pushes. */
  lemma SelectionOfDrawnSpecs(hasColour: bool, hasSize: bool, colours: seq<string>, sizes: seq<string>)
    requires colours != [] && sizes != [] && colours[0] != [] && sizes[0] != []
    ensures var colour := if hasColour then [ProductSpec(Catalogue.ColourSpec, colours)] else [];
      var specs := colour + (if hasSize || colour == [] then [ProductSpec(Catalogue.SizeSpec, sizes)] else []);
      InitialSelection(specs) ==
        Catalogue.SkuSpecs(if hasColour then colours[0] else "", if hasSize || !hasColour then sizes[0] else "")
  {
    var colour := ProductSpec(Catalogue.ColourSpec, colours);
    var size := ProductSpec(Catalogue.SizeSpec, sizes);
    if hasColour && hasSize {
      assert [colour, size][..1] == [colour];
      assert [colour][..0] == [];
      assert [colour] + [size] == [colour, size];
      assert InitialSelection([colour]) == map[Catalogue.ColourSpec := colours[0]];
      assert map[Catalogue.ColourSpec := colours[0]][Catalogue.SizeSpec := sizes[0]] ==
        map[Catalogue.ColourSpec := colours[0]] + map[Catalogue.SizeSpec := sizes[0]];
    } else if hasColour {
      assert [colour][..0] == [];
      assert [colour] + [] == [colour];
    } else {
      assert [size][..0] == [];
      assert [] + [size] == [size];
    }
  }

  // ---------------------------------------------------------------------------------------
  // Quantity, images and buttons

  /** `Math.max(1, Math.min(stock, q))`. */
  function Clamp(q: int, stock: int): (r: int)
    ensures r >= 1
    ensures stock >= 1 ==> r <= stock
    ensures r == q || r == 1 || r == stock
  {
    Max(1, Min(stock, q))
  }

  /** A quantity within the stock is kept, one above it is cut to the stock, and with stock 0
      the quantity is still 1. */
  lemma ClampCases(q: int, stock: int)
    ensures 1 <= q <= stock ==> Clamp(q, stock) == q
    ensures q > stock >= 1 ==> Clamp(q, stock) == stock
    ensures stock <= 1 ==> Clamp(q, stock) == 1
    ensures q <= 1 ==> Clamp(q, stock) == 1
  {
  }

  /** `parseInt(text) || 1`: no number, or 0, counts as 1. The call passes no radix, so
      JavaScript would read a `0x` prefix as hexadecimal; a number input only ever yields decimal
      text, so that case does not arise and `ParseInt` reads decimal digits only. */
  function TypedQuantity(text: string): (r: int)
    ensures r != 0
    ensures ParseInt(text).None? ==> r == 1
    ensures ParseInt(text).Some? && ParseInt(text).value != 0 ==> r == ParseInt(text).value
  {
    match ParseInt(text)
    case None => 1
    case Some(v) => if v == 0 then 1 else v
  }

  /** Typing the decimal form of a quantity enters that quantity. */
  lemma TypedQuantityOfNumber(q: int)
    requires q != 0
    ensures TypedQuantity(IntToString(q)) == q
  {
    ParseIntOfIntToString(q);
  }

  /** `images`: the product's images, or else the main image (or `''`) alone; never empty. */
  function DisplayImages(product: Option<Product>): (r: seq<string>)
    ensures |r| >= 1
    ensures product.Some? && product.value.images.Some? && product.value.images.value != [] ==> r == product.value.images.value
    ensures !(product.Some? && product.value.images.Some? && product.value.images.value != []) ==>
      r == [if product.Some? then product.value.image else ""]
  {
    if product.Some? && product.value.images.Some? && |product.value.images.value| > 0 then product.value.images.value
    else [if product.Some? then product.value.image else ""]
  }

  /** The images of a generated detail: the main image first, then the drawn detail images. */
  lemma DetailImagesShown(p: Product, d: Catalogue.DetailDraws)
    requires Catalogue.WellDrawn(d)
    ensures DisplayImages(Some(Catalogue.Enriched(p, d))) == [p.image] + d.extraImages
  {
    Catalogue.EnrichedImages(p, d);
  }

  /** Which controls are disabled. */
  datatype Controls = Controls(minusDisabled: bool, plusDisabled: bool, addToCartDisabled: bool, buyDisabled: bool)

  function ControlsFor(quantity: int, stock: int): (c: Controls)
    ensures c.addToCartDisabled <==> stock == 0
    ensures c.buyDisabled <==> stock == 0
    ensures c.minusDisabled <==> quantity <= 1
    ensures c.plusDisabled <==> quantity >= stock
  {
    Controls(quantity <= 1, quantity >= stock, stock == 0, stock == 0)
  }

  /** The buttons do what they promise: an enabled minus lowers the quantity by one and an
      enabled plus raises it by one while within stock; a disabled minus (quantity 1) would
      change nothing, and with stock 0 the plus stays disabled while purchase is off. */
  lemma QuantityButtons(q: int, stock: int)
    requires 1 <= q
    ensures !ControlsFor(q, stock).minusDisabled && q <= stock ==> Clamp(q - 1, stock) == q - 1
    ensures !ControlsFor(q, stock).plusDisabled ==> Clamp(q + 1, stock) == q + 1
    ensures ControlsFor(q, stock).minusDisabled ==> Clamp(q - 1, stock) == q
    ensures stock == 0 ==> ControlsFor(q, stock).plusDisabled && ControlsFor(q, stock).addToCartDisabled
  {
  }

  /** The page state of `ProductDetailPage`. */
  class DetailPage {
    var product: Option<Product>
    var loading: bool
    var selectedSpecs: map<string, string>
    var quantity: int
    var selectedImage: nat
    var showCartModal: bool

    /** The quantity is never below 1. */
    predicate Valid()
      reads this`quantity
    {
      quantity >= 1
    }

    constructor()
      ensures product == None && loading && selectedSpecs == map[] && quantity == 1
      ensures selectedImage == 0 && !showCartModal && Valid()
    {
      product := None;
      loading := true;
      selectedSpecs := map[];
      quantity := 1;
      selectedImage := 0;
      showCartModal := false;
    }

    /** `fetchProduct` with the response of `getProductDetail` passed in: nothing happens
        without an id; a product is stored and, when it has specs, preselected; a failure
        keeps the previous state; loading ends either way. */
    method FetchProduct(id: string, response: Result<Product, string>)
      modifies this`product, this`loading, this`selectedSpecs
      ensures id == [] ==> product == old(product) && loading == old(loading) && selectedSpecs == old(selectedSpecs)
      ensures id != [] ==> !loading
      ensures id != [] && response.Failure? ==> product == old(product) && selectedSpecs == old(selectedSpecs)
      ensures id != [] && response.Success? ==> product == Some(response.value)
      ensures (id != [] && response.Success? ==>
        var specs := response.value.specs;
        selectedSpecs == if specs.Some? && |specs.value| > 0 then InitialSelection(specs.value) else old(selectedSpecs))
    {
      if id == [] {
        return;
      }
      loading := true;
      if response.Success? {
        var data := response.value;
        product := Some(data);
        if data.specs.Some? && |data.specs.value| > 0 {
          var initial := InitialSpecs(data.specs.value);
          selectedSpecs := initial;
        }
      }
      loading := false;
    }

    /** `handleSpecChange`: sets one name and keeps every other selection. */
    method HandleSpecChange(name: string, value: string)
      modifies this`selectedSpecs
      ensures selectedSpecs == old(selectedSpecs)[name := value]
      ensures selectedSpecs.Keys == old(selectedSpecs).Keys + {name}
      ensures forall other | other in old(selectedSpecs) && other != name :: selectedSpecs[other] == old(selectedSpecs)[other]
    {
      selectedSpecs := selectedSpecs[name := value];
    }

    /** `handleQuantityChange`: without a product nothing happens. */
    method HandleQuantityChange(delta: int)
      requires Valid()
      modifies this`quantity
      ensures Valid()
      ensures product.None? ==> quantity == old(quantity)
      ensures product.Some? ==> quantity == Clamp(old(quantity) + delta, CurrentStock(product, selectedSpecs))
    {
      if product.None? {
        return;
      }
      var maxStock := CurrentStock(product, selectedSpecs);
      quantity := Clamp(quantity + delta, maxStock);
    }

    /** The quantity field's `onChange`. */
    method HandleQuantityInput(text: string)
      modifies this`quantity
      ensures Valid()
      ensures quantity == Clamp(TypedQuantity(text), CurrentStock(product, selectedSpecs))
    {
      var val := TypedQuantity(text);
      var maxStock := CurrentStock(product, selectedSpecs);
      quantity := Clamp(val, maxStock);
    }

    /** `handleAddToCart`: opens the cart dialog when a product is shown. */
    method HandleAddToCart()
      modifies this`showCartModal
      ensures showCartModal == (old(showCartModal) || product.Some?)
    {
      if product.Some? {
        showCartModal := true;
      }
    }

    method CloseCartModal()
      modifies this`showCartModal
      ensures !showCartModal
    {
      showCartModal := false;
    }

    /** A thumbnail click selects that image. */
    method SelectImage(index: nat)
      modifies this`selectedImage
      ensures selectedImage == index
    {
      selectedImage := index;
    }

    /** The disabled flags as rendered. */
    function Buttons(): (c: Controls)
      reads this`product, this`selectedSpecs, this`quantity
    {
      ControlsFor(quantity, CurrentStock(product, selectedSpecs))
    }
  }

  /** Changing a spec does not re-clamp the quantity: after switching to a SKU with less stock
      the quantity can exceed the shown stock. */
  lemma SpecChangeKeepsQuantity()
    ensures var p := Product("p", "n", 100, None, "i", None, "c", 0, None, None, 0, None,
      Some([ProductSku("a", map["颜色" := "红色"], 100, 5, None), ProductSku("b", map["颜色" := "蓝色"], 100, 1, None)]));
      var before := map["颜色" := "红色"];
      var after := before["颜色" := "蓝色"];
      Clamp(4, CurrentStock(Some(p), before)) == 4 && CurrentStock(Some(p), after) == 1
  {
    var p := Product("p", "n", 100, None, "i", None, "c", 0, None, None, 0, None,
      Some([ProductSku("a", map["颜色" := "红色"], 100, 5, None), ProductSku("b", map["颜色" := "蓝色"], 100, 1, None)]));
    var after := map["颜色" := "蓝色"];
    assert "红色" != "蓝色";
    assert "颜色" in after && p.skus.value[0].specs["颜色"] != after["颜色"];
    assert !SkuMatches(p.skus.value[0], after);
    assert SkuMatches(p.skus.value[1], after);
    assert FindSku(p.skus.value[1..], after) == Some(0);
  }
}
