/** The price of a configured product: its base price plus, for each of the
    four dimensions the customer selected, the price of the matching option
    in the product's own option list, times the quantity. An unknown label,
    a non-numeric base or option price, or a quantity below one is an error
    and yields no price. */
module TotalPrice {
  import opened Wrappers

  datatype Dimension = Software | Ram | Storage | Processor

  /** One option of a product. Each dimension names its option by its own
      field: software by `name`, RAM by `size`, storage by `type` (here
      `kind`) and processor by `model`. A `None` price is a price that is not
      a number. */
  datatype ProductOption = ProductOption(
    name: Option<string>,
    size: Option<string>,
    kind: Option<string>,
    model: Option<string>,
    price: Option<int>)

  /** The product's option lists; a `None` list is an absent one. */
  datatype ProductOptions = ProductOptions(
    software: Option<seq<ProductOption>>,
    ram: Option<seq<ProductOption>>,
    storage: Option<seq<ProductOption>>,
    processor: Option<seq<ProductOption>>)

  /** What the calculator reads of a product; a `None` base price is one
      that is not a number. */
  datatype Product = Product(basePrice: Option<int>, options: ProductOptions)

  /** The customer's selection; `None` is an absent field. */
  datatype SelectedOptions = SelectedOptions(
    software: Option<string>,
    ram: Option<string>,
    storage: Option<string>,
    processor: Option<string>,
    quantity: Option<int>)

  datatype PriceError =
    | InvalidBasePrice
    | OptionNotFound(dimension: Dimension, selected: string)
    | InvalidOptionPrice(dimension: Dimension, selected: string)
    | InvalidQuantity

  /** The order in which the dimensions are priced. */
  const Dimensions: seq<Dimension> := [Software, Ram, Storage, Processor]

  /** The field an option of dimension `d` is matched on. */
  function LabelOf(o: ProductOption, d: Dimension): (r: Option<string>) {
    match d
    case Software => o.name
    case Ram => o.size
    case Storage => o.kind
    case Processor => o.model
  }

  function OptionList(options: ProductOptions, d: Dimension): (r: Option<seq<ProductOption>>) {
    match d
    case Software => options.software
    case Ram => options.ram
    case Storage => options.storage
    case Processor => options.processor
  }

  function SelectedFor(sel: SelectedOptions, d: Dimension): (r: Option<string>) {
    match d
    case Software => sel.software
    case Ram => sel.ram
    case Storage => sel.storage
    case Processor => sel.processor
  }

  /** Whether dimension `d` takes part in the price: a non-empty selection
      and an option list on the product (`!selectedValue || !list` skips it). */
  predicate Priced(p: Product, sel: SelectedOptions, d: Dimension) {
    SelectedFor(sel, d).Some? && SelectedFor(sel, d).value != "" && OptionList(p.options, d).Some?
  }

  /** `list.find(opt => opt[field] === value)`, as the index of the first
      option whose label field equals `value`. */
  function FindOption(list: seq<ProductOption>, d: Dimension, value: string): (r: Option<nat>)
    ensures r.Some? ==> r.value < |list| && LabelOf(list[r.value], d) == Some(value)
    ensures r.Some? ==> forall j :: 0 <= j < r.value ==> LabelOf(list[j], d) != Some(value)
    ensures r.None? <==> forall j :: 0 <= j < |list| ==> LabelOf(list[j], d) != Some(value)
  {
    if list == [] then None
    else if LabelOf(list[0], d) == Some(value) then Some(0)
    else match FindOption(list[1..], d, value)
      case None => None
      case Some(i) => Some(i + 1)
  }

  /** What `addOptionPrice` adds for dimension `d`. */
  function Surcharge(p: Product, sel: SelectedOptions, d: Dimension): (r: Result<int, PriceError>)
    ensures !Priced(p, sel, d) ==> r == Ok(0)
    ensures r.Err? ==> Priced(p, sel, d)
  {
    if !Priced(p, sel, d) then Ok(0)
    else
      var value := SelectedFor(sel, d).value;
      var list := OptionList(p.options, d).value;
      match FindOption(list, d, value)
      case None => Err(OptionNotFound(d, value))
      case Some(i) =>
        if list[i].price.None? then Err(InvalidOptionPrice(d, value))
        else Ok(list[i].price.value)
  }

  /** Adds the surcharges of `dims` in order to `total`, stopping at the first
      error. */
  function AddSurcharges(p: Product, sel: SelectedOptions, dims: seq<Dimension>, total: int): (r: Result<int, PriceError>) {
    if dims == [] then Ok(total)
    else match Surcharge(p, sel, dims[0])
      case Err(e) => Err(e)
      case Ok(x) => AddSurcharges(p, sel, dims[1..], total + x)
  }

  /** `selectedOptions.quantity || 1` */
  function EffectiveQuantity(q: Option<int>): (r: int)
    ensures q == None || q == Some(0) ==> r == 1
    ensures q.Some? && q.value != 0 ==> r == q.value
  {
    match q
    case None => 1
    case Some(n) => if n == 0 then 1 else n
  }

  /** The specification of `calculateTotalPrice`. */
  function TotalPriceOf(p: Product, sel: SelectedOptions): (r: Result<int, PriceError>) {
    if p.basePrice.None? then Err(InvalidBasePrice)
    else match AddSurcharges(p, sel, Dimensions, p.basePrice.value)
      case Err(e) => Err(e)
      case Ok(total) =>
        var q := EffectiveQuantity(sel.quantity);
        if q < 1 then Err(InvalidQuantity) else Ok(total * q)
  }

  /** `addOptionPrice(optionType, selectedValue, optionField)`: returns the
      new running total, or the error it throws. */
  method AddOptionPrice(p: Product, sel: SelectedOptions, d: Dimension, total: int)
    returns (r: Result<int, PriceError>)
    ensures r == match Surcharge(p, sel, d) case Ok(x) => Ok(total + x) case Err(e) => Err(e)
  {
    var value := SelectedFor(sel, d);
    var list := OptionList(p.options, d);
    if value.None? || value.value == "" || list.None? {
      return Ok(total);
    }
    var i := FindOption(list.value, d, value.value);
    if i.None? {
      return Err(OptionNotFound(d, value.value));
    }
    var option := list.value[i.value];
    if option.price.None? {
      return Err(InvalidOptionPrice(d, value.value));
    }
    r := Ok(total + option.price.value);
  }

  /** `calculateTotalPrice(product, selectedOptions)`: a running total that
      each dimension adds to, then the quantity. */
  method CalculateTotalPrice(p: Product, sel: SelectedOptions) returns (r: Result<int, PriceError>)
    ensures r == TotalPriceOf(p, sel)
  {
    if p.basePrice.None? {
      return Err(InvalidBasePrice);
    }
    var total := p.basePrice.value;
    UnfoldDimensions(p, sel, total);
    var step := AddOptionPrice(p, sel, Software, total);
    if step.Err? { return Err(step.error); }
    total := step.value;
    step := AddOptionPrice(p, sel, Ram, total);
    if step.Err? { return Err(step.error); }
    total := step.value;
    step := AddOptionPrice(p, sel, Storage, total);
    if step.Err? { return Err(step.error); }
    total := step.value;
    step := AddOptionPrice(p, sel, Processor, total);
    if step.Err? { return Err(step.error); }
    total := step.value;
    var quantity := EffectiveQuantity(sel.quantity);
    if quantity < 1 {
      return Err(InvalidQuantity);
    }
    r := Ok(total * quantity);
  }

  // ---------------------------------------------------------------------
  // Properties

  /** The price of the option at index `i` of dimension `d`'s list. */
  function PriceAt(p: Product, d: Dimension, i: nat): int
    requires OptionList(p.options, d).Some? && i < |OptionList(p.options, d).value|
    requires OptionList(p.options, d).value[i].price.Some?
  {
    OptionList(p.options, d).value[i].price.value
  }

  lemma {:induction false} ResolvedSurcharge(p: Product, sel: SelectedOptions, d: Dimension, i: nat)
    requires Priced(p, sel, d)
    requires i < |OptionList(p.options, d).value|
    requires LabelOf(OptionList(p.options, d).value[i], d) == SelectedFor(sel, d)
    requires OptionList(p.options, d).value[i].price.Some?
    requires forall j :: 0 <= j < i ==> LabelOf(OptionList(p.options, d).value[j], d) != SelectedFor(sel, d)
    ensures Surcharge(p, sel, d) == Ok(PriceAt(p, d, i))
  {
    var list := OptionList(p.options, d).value;
    var found := FindOption(list, d, SelectedFor(sel, d).value);
    assert found.Some?;
  }

  /** When every selected label is found with a numeric price, the result is
      (base price + the first matching option's price in each priced
      dimension) times the quantity; the options of unpriced dimensions play
      no part. */
  lemma {:induction false} AllMatchedTotal(
    p: Product, sel: SelectedOptions, iSoftware: nat, iRam: nat, iStorage: nat, iProcessor: nat)
    requires p.basePrice.Some?
    requires EffectiveQuantity(sel.quantity) >= 1
    requires Matched(p, sel, Software, iSoftware) && Matched(p, sel, Ram, iRam)
    requires Matched(p, sel, Storage, iStorage) && Matched(p, sel, Processor, iProcessor)
    ensures TotalPriceOf(p, sel) == Ok(
      (p.basePrice.value
        + MatchedPrice(p, sel, Software, iSoftware) + MatchedPrice(p, sel, Ram, iRam)
        + MatchedPrice(p, sel, Storage, iStorage) + MatchedPrice(p, sel, Processor, iProcessor))
      * EffectiveQuantity(sel.quantity))
  {
    MatchedSurcharge(p, sel, Software, iSoftware);
    MatchedSurcharge(p, sel, Ram, iRam);
    MatchedSurcharge(p, sel, Storage, iStorage);
    MatchedSurcharge(p, sel, Processor, iProcessor);
    var t0 := p.basePrice.value;
    var t1 := t0 + MatchedPrice(p, sel, Software, iSoftware);
    var t2 := t1 + MatchedPrice(p, sel, Ram, iRam);
    var t3 := t2 + MatchedPrice(p, sel, Storage, iStorage);
    var t4 := t3 + MatchedPrice(p, sel, Processor, iProcessor);
    UnfoldDimensions(p, sel, t0);
    assert AddSurcharges(p, sel, Dimensions, t0) == Ok(t4);
  }

  /** The four-step chain `AddSurcharges` runs over `Dimensions`. */
  lemma UnfoldDimensions(p: Product, sel: SelectedOptions, total: int)
    ensures AddSurcharges(p, sel, Dimensions, total) ==
      match Surcharge(p, sel, Software)
      case Err(e) => Err(e)
      case Ok(a) => match Surcharge(p, sel, Ram)
        case Err(e) => Err(e)
        case Ok(b) => match Surcharge(p, sel, Storage)
          case Err(e) => Err(e)
          case Ok(c) => match Surcharge(p, sel, Processor)
            case Err(e) => Err(e)
            case Ok(d) => Ok(total + a + b + c + d)
  {
    AddSurchargesStep(p, sel, Software, [Ram, Storage, Processor], total);
    match Surcharge(p, sel, Software)
    case Err(_) =>
    case Ok(a) =>
      AddSurchargesStep(p, sel, Ram, [Storage, Processor], total + a);
      match Surcharge(p, sel, Ram)
      case Err(_) =>
      case Ok(b) =>
        AddSurchargesStep(p, sel, Storage, [Processor], total + a + b);
        match Surcharge(p, sel, Storage)
        case Err(_) =>
        case Ok(c) =>
          AddSurchargesStep(p, sel, Processor, [], total + a + b + c);
  }

  /** One step of `AddSurcharges`: the first dimension's surcharge, then the
      rest. */
  lemma AddSurchargesStep(p: Product, sel: SelectedOptions, d: Dimension, rest: seq<Dimension>, total: int)
    ensures AddSurcharges(p, sel, [d] + rest, total) ==
      match Surcharge(p, sel, d)
      case Err(e) => Err(e)
      case Ok(x) => AddSurcharges(p, sel, rest, total + x)
  {
    assert ([d] + rest)[0] == d;
    assert ([d] + rest)[1..] == rest;
  }

  /** Index `i` is the first option of dimension `d` carrying the selected
      label, and its price is a number (or `d` is not priced at all). */
  predicate Matched(p: Product, sel: SelectedOptions, d: Dimension, i: nat) {
    Priced(p, sel, d) ==>
      i < |OptionList(p.options, d).value| &&
      LabelOf(OptionList(p.options, d).value[i], d) == SelectedFor(sel, d) &&
      OptionList(p.options, d).value[i].price.Some? &&
      forall j :: 0 <= j < i ==> LabelOf(OptionList(p.options, d).value[j], d) != SelectedFor(sel, d)
  }

  function MatchedPrice(p: Product, sel: SelectedOptions, d: Dimension, i: nat): int
    requires Matched(p, sel, d, i)
  {
    if Priced(p, sel, d) then PriceAt(p, d, i) else 0
  }

  lemma MatchedSurcharge(p: Product, sel: SelectedOptions, d: Dimension, i: nat)
    requires Matched(p, sel, d, i)
    ensures Surcharge(p, sel, d) == Ok(MatchedPrice(p, sel, d, i))
  {
    if Priced(p, sel, d) {
      ResolvedSurcharge(p, sel, d, i);
    }
  }

  /** A selected label that no option of its (present) list carries makes
      the calculation fail, whatever the other dimensions are; when the
      earlier dimensions are fine the error names this dimension and label. */
  lemma {:induction false} UnknownLabelFails(p: Product, sel: SelectedOptions, k: nat)
    requires k < |Dimensions|
    requires Priced(p, sel, Dimensions[k])
    requires forall j :: 0 <= j < |OptionList(p.options, Dimensions[k]).value| ==>
      LabelOf(OptionList(p.options, Dimensions[k]).value[j], Dimensions[k]) != SelectedFor(sel, Dimensions[k])
    ensures TotalPriceOf(p, sel).Err?
    ensures p.basePrice.Some? && (forall j :: 0 <= j < k ==> Surcharge(p, sel, Dimensions[j]).Ok?) ==>
      TotalPriceOf(p, sel) == Err(OptionNotFound(Dimensions[k], SelectedFor(sel, Dimensions[k]).value))
  {
    if p.basePrice.Some? {
      AddSurchargesFails(p, sel, Dimensions, k, p.basePrice.value);
    }
  }

  lemma {:induction false} AddSurchargesFails(p: Product, sel: SelectedOptions, dims: seq<Dimension>, k: nat, total: int)
    requires k < |dims|
    requires Surcharge(p, sel, dims[k]).Err?
    ensures AddSurcharges(p, sel, dims, total).Err?
    ensures (forall j :: 0 <= j < k ==> Surcharge(p, sel, dims[j]).Ok?) ==>
      AddSurcharges(p, sel, dims, total) == Surcharge(p, sel, dims[k])
  {
    if k == 0 {
    } else if Surcharge(p, sel, dims[0]).Ok? {
      assert dims[1..][k - 1] == dims[k];
      AddSurchargesFails(p, sel, dims[1..], k - 1, total + Surcharge(p, sel, dims[0]).value);
      if forall j :: 0 <= j < k ==> Surcharge(p, sel, dims[j]).Ok? {
        assert forall j :: 0 <= j < k - 1 ==> dims[1..][j] == dims[j + 1];
      }
    }
  }

  /** A base price that is not a number fails first, before any option. */
  lemma InvalidBaseFailsFirst(p: Product, sel: SelectedOptions)
    requires p.basePrice.None?
    ensures TotalPriceOf(p, sel) == Err(InvalidBasePrice)
  {
  }

  /** A negative quantity is refused; a missing or zero quantity counts as
      one, so the result is then the unit price. */
  lemma QuantityRules(p: Product, sel: SelectedOptions)
    requires TotalPriceOf(p, sel.(quantity := None)).Ok?
    ensures sel.quantity.Some? && sel.quantity.value < 0 ==> TotalPriceOf(p, sel) == Err(InvalidQuantity)
    ensures sel.quantity == Some(0) ==> TotalPriceOf(p, sel) == TotalPriceOf(p, sel.(quantity := None))
    ensures sel.quantity.Some? && sel.quantity.value >= 1 ==>
      TotalPriceOf(p, sel) == Ok(TotalPriceOf(p, sel.(quantity := None)).value * sel.quantity.value)
  {
    AddSurchargesIgnoresQuantity(p, sel, sel.(quantity := None), Dimensions, p.basePrice.value);
  }

  lemma {:induction false} AddSurchargesIgnoresQuantity(p: Product, s1: SelectedOptions, s2: SelectedOptions, dims: seq<Dimension>, total: int)
    requires s1.(quantity := None) == s2.(quantity := None)
    ensures AddSurcharges(p, s1, dims, total) == AddSurcharges(p, s2, dims, total)
  {
    if dims != [] {
      assert Surcharge(p, s1, dims[0]) == Surcharge(p, s2, dims[0]) by {
        assert SelectedFor(s1, dims[0]) == SelectedFor(s2, dims[0]);
      }
      if Surcharge(p, s1, dims[0]).Ok? {
        AddSurchargesIgnoresQuantity(p, s1, s2, dims[1..], total + Surcharge(p, s1, dims[0]).value);
      }
    }
  }

  /** Matching uses each dimension's own label field: a RAM option whose
      `name` (not its `size`) is "32GB" does not match a "32GB" selection. */
  lemma LabelFieldPerDimension()
    ensures TotalPriceOf(
      Product(Some(500), ProductOptions(None, Some([ProductOption(Some("32GB"), Some("16GB"), None, None, Some(100))]), None, None)),
      SelectedOptions(None, Some("32GB"), None, None, None))
      == Err(OptionNotFound(Ram, "32GB"))
  {
    assert Dimensions[1..] == [Ram, Storage, Processor];
  }

  /** Base price 500 with RAM options 16GB/0, 32GB/100, 64GB/300 and RAM
      "32GB" selected costs 600; two units cost 1200. */
  lemma RamExample()
    ensures TotalPriceOf(ExampleProduct(), SelectedOptions(None, Some("32GB"), None, None, None)) == Ok(600)
    ensures TotalPriceOf(ExampleProduct(), SelectedOptions(None, Some("32GB"), None, None, Some(2))) == Ok(1200)
  {
    var p := ExampleProduct();
    var list := p.options.ram.value;
    assert LabelOf(list[0], Ram) != Some("32GB");
    AllMatchedTotal(p, SelectedOptions(None, Some("32GB"), None, None, None), 0, 1, 0, 0);
    AllMatchedTotal(p, SelectedOptions(None, Some("32GB"), None, None, Some(2)), 0, 1, 0, 0);
  }

  function RamOption(size: string, price: int): (r: ProductOption) {
    ProductOption(None, Some(size), None, None, Some(price))
  }

  function ExampleProduct(): (r: Product) {
    Product(Some(500), ProductOptions(None,
      Some([RamOption("16GB", 0), RamOption("32GB", 100), RamOption("64GB", 300)]), None, None))
  }
}
