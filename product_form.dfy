/** The editing handlers of the admin product form. Each handler takes the
    current form state and yields the next one: a field or default-spec
    change, appending a default option row to one of the four option lists,
    removing or editing the row at an index, and the submit guard. */
module ProductForm {
  import opened Wrappers
  import opened Js
  import opened FormValidator

  /** The top-level fields the field handler is used for. */
  datatype FormField = NameField | DescriptionField | BasePriceField | ImageField

  datatype SpecField = ProcessorSpec | RamSpec | StorageSpec

  /** The two fields of an option row: its label and its price. */
  datatype OptionField = OptionLabel | OptionPrice

  /** What a submit hands to the product store. */
  datatype SubmitAction =
    | AddProduct(data: ProductFormData)
    | UpdateProduct(id: string, data: ProductFormData)

  /** The options with list `l` replaced by `list`. */
  function WithList(o: FormOptions, l: OptionList, list: seq<FormOption>): (r: FormOptions)
    ensures ListOf(r, l) == list
    ensures forall m :: m != l ==> ListOf(r, m) == ListOf(o, m)
  {
    match l
    case SoftwareList => o.(software := list)
    case ProcessorList => o.(processor := list)
    case RamList => o.(ram := list)
    case StorageList => o.(storage := list)
  }

  /** The base-price branch of the field handler applied to a text value:
      a value "" is stored as "", any other text is read with `Number`. The
      form's own price input never passes text; it goes through
      HandlePriceInput. */
  function BasePriceInput(value: string): (r: PriceField)
    ensures r.EmptyText? <==> value == ""
  {
    if value == "" then EmptyText else Amount(StringToNumber(value))
  }

  /** `handleFieldChange(field, value)` */
  function HandleFieldChange(s: ProductFormData, field: FormField, value: string): (r: ProductFormData) {
    match field
    case NameField => s.(name := value)
    case DescriptionField => s.(description := value)
    case BasePriceField => s.(basePrice := BasePriceInput(value))
    case ImageField => s.(image := value)
  }

  /** Handing the field handler the text of a whole number stores that
      number; handing it "" stores "", which the validator accepts. */
  lemma BasePriceRoundTrip(s: ProductFormData, n: nat)
    ensures HandleFieldChange(s, BasePriceField, DecimalString(n)).basePrice == Amount(Num(n))
    ensures HandleFieldChange(s, BasePriceField, "").basePrice == EmptyText
    ensures !NegativeBase(HandleFieldChange(s, BasePriceField, DecimalString(n)).basePrice)
    ensures !NegativeBase(HandleFieldChange(s, BasePriceField, "").basePrice)
  {
    StringToNumberOfDecimal(n);
  }

  /** What the base price input passes to the field handler for the text
      typed: `parseInt(text) || 0`. */
  function PriceInputValue(text: string): (r: int) {
    ParseIntOr(Some(text), 0)
  }

  /** Typing `text` into the base price input. The handler receives a
      number, which is never "" and which `Number` leaves as it is, so the
      field always ends up holding an integer. */
  function HandlePriceInput(s: ProductFormData, text: string): (r: ProductFormData)
    ensures r.basePrice.Amount? && r.basePrice.num.Num?
    ensures r.(basePrice := s.basePrice) == s
  {
    s.(basePrice := Amount(Num(PriceInputValue(text))))
  }

  /** Typing the digits of n stores n, and with a minus sign -n. */
  lemma PriceInputOfDecimal(n: nat)
    ensures PriceInputValue(DecimalString(n)) == n
    ensures PriceInputValue("-" + DecimalString(n)) == -(n as int)
  {
    var t := DecimalString(n);
    var m := "-" + t;
    ParseIntOfDecimal(n);
    assert ParseInt(Some(t)) == Some(n as int);
    assert ParseInt(Some(m)) == Some(-(n as int));
    if n == 0 {
      assert PriceInputValue(t) == 0 && PriceInputValue(m) == 0;
    } else {
      assert PriceInputValue(t) == n && PriceInputValue(m) == -(n as int);
    }
  }

  /** Typing the digits of n stores n, with a minus sign -n; a cleared or
      blank input stores 0, and a negative number makes the form
      unacceptable. */
  lemma PriceInputRoundTrip(s: ProductFormData, n: nat, blank: string)
    requires IsBlank(blank)
    ensures HandlePriceInput(s, DecimalString(n)).basePrice == Amount(Num(n))
    ensures HandlePriceInput(s, "-" + DecimalString(n)).basePrice == Amount(Num(-(n as int)))
    ensures HandlePriceInput(s, blank).basePrice == Amount(Num(0))
    ensures n > 0 ==> !Acceptable(HandlePriceInput(s, "-" + DecimalString(n)))
  {
    PriceInputOfDecimal(n);
    ParseIntBlank(blank);
    var neg := HandlePriceInput(s, "-" + DecimalString(n));
    if n > 0 {
      assert NegativeBase(neg.basePrice);
      assert !FieldsFilled(neg);
    }
  }

  /** A fraction is cut at its point: "1.5" stores 1, and "-1.5" stores -1,
      which the validator rejects. */
  lemma PriceInputFraction(s: ProductFormData)
    ensures HandlePriceInput(s, "1.5").basePrice == Amount(Num(1))
    ensures HandlePriceInput(s, "-1.5").basePrice == Amount(Num(-1))
    ensures !Acceptable(HandlePriceInput(s, "-1.5"))
  {
    ParseIntFraction();
    assert !FieldsFilled(HandlePriceInput(s, "-1.5"));
  }

  /** A field change replaces that field only: changing it twice keeps the
      last value, changes to different fields commute, and the option lists
      and defaults are never touched. */
  lemma FieldChangeEffect(s: ProductFormData, f: FormField, g: FormField, v: string, w: string)
    ensures HandleFieldChange(HandleFieldChange(s, f, v), f, w) == HandleFieldChange(s, f, w)
    ensures f != g ==>
      HandleFieldChange(HandleFieldChange(s, f, v), g, w) == HandleFieldChange(HandleFieldChange(s, g, w), f, v)
    ensures HandleFieldChange(s, f, v).options == s.options
    ensures HandleFieldChange(s, f, v).defaults == s.defaults
    ensures HandleFieldChange(s, f, v).software == s.software
    ensures f != BasePriceField ==> HandleFieldChange(s, f, v).basePrice == s.basePrice
  {
  }

  /** `handleDefaultSpecChange(field, value)` */
  function HandleDefaultSpecChange(s: ProductFormData, field: SpecField, value: string): (r: ProductFormData) {
    match field
    case ProcessorSpec => s.(defaults := s.defaults.(processor := value))
    case RamSpec => s.(defaults := s.defaults.(ram := value))
    case StorageSpec => s.(defaults := s.defaults.(storage := value))
  }

  /** The option list a default spec has to be found in. */
  function SpecList(field: SpecField): (r: OptionList) {
    match field
    case ProcessorSpec => ProcessorList
    case RamSpec => RamList
    case StorageSpec => StorageList
  }

  function SpecValue(d: DefaultSpecs, field: SpecField): (r: string) {
    match field
    case ProcessorSpec => d.processor
    case RamSpec => d.ram
    case StorageSpec => d.storage
  }

  /** A default-spec change sets that default and leaves the other two and
      every other part of the form as they were. */
  lemma DefaultSpecChangeEffect(s: ProductFormData, field: SpecField, value: string)
    ensures SpecValue(HandleDefaultSpecChange(s, field, value).defaults, field) == value
    ensures forall g :: g != field ==>
      SpecValue(HandleDefaultSpecChange(s, field, value).defaults, g) == SpecValue(s.defaults, g)
    ensures HandleDefaultSpecChange(s, field, value).(defaults := s.defaults) == s
  {
  }

  /** Choosing a non-blank default that its list offers keeps an acceptable
      form acceptable. */
  lemma DefaultSpecChangeKeepsValid(s: ProductFormData, field: SpecField, value: string)
    requires Acceptable(s)
    requires !IsBlank(value) && Offers(ListOf(s.options, SpecList(field)), value)
    ensures Acceptable(HandleDefaultSpecChange(s, field, value))
  {
    var t := HandleDefaultSpecChange(s, field, value);
    assert t.options == s.options && t.name == s.name && t.description == s.description;
    assert t.basePrice == s.basePrice && t.software == s.software;
    match field
    case ProcessorSpec =>
      assert t.defaults == DefaultSpecs(value, s.defaults.ram, s.defaults.storage);
    case RamSpec =>
      assert t.defaults == DefaultSpecs(s.defaults.processor, value, s.defaults.storage);
    case StorageSpec =>
      assert t.defaults == DefaultSpecs(s.defaults.processor, s.defaults.ram, value);
  }

  /** The row appended by the add handler of each list. */
  function NewOption(l: OptionList): (r: FormOption) {
    match l
    case SoftwareList => FormOption("", Num(0))
    case ProcessorList => FormOption("Core i3", Num(0))
    case RamList => FormOption("16GB", Num(0))
    case StorageList => FormOption("2TB SSD", Num(0))
  }

  /** Some CPU row has a blank model or a price that is NaN. */
  predicate HasIncompleteCpu(s: ProductFormData) {
    exists i :: 0 <= i < |s.options.processor| &&
      (Trim(s.options.processor[i].caption) == "" || s.options.processor[i].price.NaN?)
  }

  /** `handleAdd...Option()` for list `l`. Only the CPU handler first checks
      the existing rows and refuses to add while one is incomplete. */
  function AddOption(s: ProductFormData, l: OptionList): (r: ProductFormData)
    ensures l != ProcessorList || !HasIncompleteCpu(s) ==>
      ListOf(r.options, l) == ListOf(s.options, l) + [NewOption(l)]
    ensures l == ProcessorList && HasIncompleteCpu(s) ==> r == s
    ensures forall m :: m != l ==> ListOf(r.options, m) == ListOf(s.options, m)
    ensures r.(options := s.options) == s
  {
    if l == ProcessorList && HasIncompleteCpu(s) then s
    else s.(options := WithList(s.options, l, ListOf(s.options, l) + [NewOption(l)]))
  }

  /** The form after the row at `index` of list `l` is spliced out. */
  function RemovedOption(s: ProductFormData, l: OptionList, index: int): (r: ProductFormData) {
    s.(options := WithList(s.options, l, SpliceOne(ListOf(s.options, l), index)))
  }

  /** `const copy = [...opts]; copy.splice(index, 1)`: the row at the relative
      index is removed by shifting the later rows down one place. */
  method SpliceOption(opts: seq<FormOption>, index: int) returns (r: seq<FormOption>)
    ensures RelativeIndex(index, |opts|) == |opts| ==> r == opts
    ensures RelativeIndex(index, |opts|) < |opts| ==>
      |r| == |opts| - 1 &&
      (forall j :: 0 <= j < RelativeIndex(index, |opts|) ==> r[j] == opts[j]) &&
      (forall j :: RelativeIndex(index, |opts|) <= j < |r| ==> r[j] == opts[j + 1])
    ensures r == SpliceOne(opts, index)
  {
    var copy := new FormOption[|opts|](i requires 0 <= i < |opts| => opts[i]);
    var at := RelativeIndex(index, copy.Length);
    if at == copy.Length {
      r := copy[..];
      return;
    }
    var k := at;
    while k < copy.Length - 1
      invariant at <= k <= copy.Length - 1
      invariant forall j :: 0 <= j < at ==> copy[j] == opts[j]
      invariant forall j :: at <= j < k ==> copy[j] == opts[j + 1]
      invariant forall j :: k <= j < copy.Length ==> copy[j] == opts[j]
      modifies copy
    {
      copy[k] := copy[k + 1];
      k := k + 1;
    }
    r := copy[..copy.Length - 1];
    assert forall j :: 0 <= j < at ==> r[j] == opts[j];
    assert forall j :: at <= j < |r| ==> r[j] == opts[j + 1];
    SpliceOnePointwise(opts, index, r);
  }

  /** A sequence one shorter that agrees with `opts` before the relative
      index and with the later rows shifted down after it is the splice. */
  lemma SpliceOnePointwise(opts: seq<FormOption>, index: int, r: seq<FormOption>)
    requires RelativeIndex(index, |opts|) < |opts| && |r| == |opts| - 1
    requires forall j :: 0 <= j < RelativeIndex(index, |opts|) ==> r[j] == opts[j]
    requires forall j :: RelativeIndex(index, |opts|) <= j < |r| ==> r[j] == opts[j + 1]
    ensures r == SpliceOne(opts, index)
  {
    var at := RelativeIndex(index, |opts|);
    var s := opts[..at] + opts[at + 1..];
    assert |s| == |r|;
    forall j | 0 <= j < |r| ensures r[j] == s[j] {
      if j < at {
        assert s[j] == opts[j];
      } else {
        assert s[j] == opts[at + 1..][j - at];
      }
    }
  }

  /** `handleRemove...Option(index)` */
  method HandleRemoveOption(s: ProductFormData, l: OptionList, index: int) returns (r: ProductFormData)
    ensures r == RemovedOption(s, l, index)
  {
    var list := SpliceOption(ListOf(s.options, l), index);
    r := s.(options := WithList(s.options, l, list));
  }

  /** Adding a row and then removing the last one, by its index or by -1,
      gives back the form as it was. */
  lemma AddThenRemoveRestores(s: ProductFormData, l: OptionList)
    requires l != ProcessorList || !HasIncompleteCpu(s)
    ensures RemovedOption(AddOption(s, l), l, |ListOf(s.options, l)|) == s
    ensures RemovedOption(AddOption(s, l), l, -1) == s
  {
    var list := ListOf(s.options, l);
    var added := ListOf(AddOption(s, l).options, l);
    assert added == list + [NewOption(l)];
    assert added[..|list|] + added[|list| + 1..] == list;
    assert WithList(s.options, l, list) == s.options;
  }

  /** Removing an index past the end, or below minus the length, has the
      effect of a negative index clamped to the first row or of no change. */
  lemma RemoveOutOfRange(s: ProductFormData, l: OptionList, index: int)
    ensures index >= |ListOf(s.options, l)| ==> RemovedOption(s, l, index) == s
    ensures index < -|ListOf(s.options, l)| && |ListOf(s.options, l)| > 0 ==>
      ListOf(RemovedOption(s, l, index).options, l) == ListOf(s.options, l)[1..]
  {
    assert WithList(s.options, l, ListOf(s.options, l)) == s.options;
  }

  /** A row after field `field` is set from the input text `value`; a price
      goes through `Number(value)`. */
  function EditedOption(o: FormOption, field: OptionField, value: string): (r: FormOption) {
    match field
    case OptionLabel => o.(caption := value)
    case OptionPrice => o.(price := StringToNumber(value))
  }

  /** The form after row `index` of list `l` is edited. */
  function ChangedOption(s: ProductFormData, l: OptionList, index: nat, field: OptionField, value: string): ProductFormData
    requires index < |ListOf(s.options, l)|
  {
    var list := ListOf(s.options, l);
    s.(options := WithList(s.options, l, list[index := EditedOption(list[index], field, value)]))
  }

  /** `const copy = [...opts]; copy[index] = {...copy[index], [field]: ...}` */
  method ReplaceOption(opts: seq<FormOption>, index: nat, field: OptionField, value: string)
    returns (r: seq<FormOption>)
    requires index < |opts|
    ensures |r| == |opts|
    ensures r[index] == EditedOption(opts[index], field, value)
    ensures forall j :: 0 <= j < |r| && j != index ==> r[j] == opts[j]
  {
    var copy := new FormOption[|opts|](i requires 0 <= i < |opts| => opts[i]);
    copy[index] := EditedOption(copy[index], field, value);
    r := copy[..];
  }

  /** `handle...OptionChange(index, field, value)` */
  method HandleOptionChange(s: ProductFormData, l: OptionList, index: nat, field: OptionField, value: string)
    returns (r: ProductFormData)
    requires index < |ListOf(s.options, l)|
    ensures r == ChangedOption(s, l, index, field, value)
  {
    var list := ReplaceOption(ListOf(s.options, l), index, field, value);
    assert list == ListOf(s.options, l)[index := EditedOption(ListOf(s.options, l)[index], field, value)];
    r := s.(options := WithList(s.options, l, list));
  }

  /** An edit touches only the one field of the one row: the other field of
      that row keeps its value, and a whole number typed as a price is stored
      as that number. */
  lemma OptionChangeEffect(s: ProductFormData, l: OptionList, index: nat, field: OptionField, value: string)
    requires index < |ListOf(s.options, l)|
    ensures var after := ListOf(ChangedOption(s, l, index, field, value).options, l);
      |after| == |ListOf(s.options, l)| &&
      (field == OptionLabel ==> after[index] == FormOption(value, ListOf(s.options, l)[index].price)) &&
      (field == OptionPrice ==> after[index].caption == ListOf(s.options, l)[index].caption)
    ensures forall n: nat :: ListOf(ChangedOption(s, l, index, OptionPrice, DecimalString(n)).options, l)[index].price == Num(n)
  {
    forall n: nat ensures ListOf(ChangedOption(s, l, index, OptionPrice, DecimalString(n)).options, l)[index].price == Num(n) {
      StringToNumberOfDecimal(n);
    }
  }

  /** Setting a row to the value it already has leaves the form unchanged. */
  lemma OptionChangeToSameLabel(s: ProductFormData, l: OptionList, index: nat)
    requires index < |ListOf(s.options, l)|
    ensures ChangedOption(s, l, index, OptionLabel, ListOf(s.options, l)[index].caption) == s
  {
    var list := ListOf(s.options, l);
    assert list[index := EditedOption(list[index], OptionLabel, list[index].caption)] == list;
    assert WithList(s.options, l, list) == s.options;
  }

  /** `handleSubmit`: nothing happens unless the form validates; otherwise the
      uploaded image id, when there is one, replaces the form's image, and an
      edit with a (non-empty) product id updates while anything else adds. */
  function HandleSubmit(s: ProductFormData, publicId: string, editMode: bool, productId: Option<string>)
    : (r: Option<SubmitAction>)
    ensures r.None? <==> !Acceptable(s)
    ensures r.Some? ==> r.value.data == s.(image := if publicId != "" then publicId else s.image)
    ensures r.Some? ==> (r.value.UpdateProduct? <==> editMode && productId.Some? && productId.value != "")
    ensures r.Some? && r.value.UpdateProduct? ==> r.value.id == productId.value
  {
    if !ValidateProductForm(s) then None
    else
      var data := s.(image := if publicId != "" then publicId else s.image);
      if editMode && productId.Some? && productId.value != "" then Some(UpdateProduct(productId.value, data))
      else Some(AddProduct(data))
  }
}
