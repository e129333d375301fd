/** The admin product form and the check run before it is submitted: name,
    description and the four defaults must be non-blank, the base price must
    not be negative, every option of the four lists must have a non-blank
    label and a price that is not negative, no list may be empty, and the
    default processor, RAM and storage must each be offered in their list.
    The checks run in that order and the first failure is reported. */
module FormValidator {
  import opened Wrappers
  import opened Js

  /** An option row of the form. Its caption is the software `name`, the CPU
      `model`, the RAM `size` or the storage `type`, depending on the list. */
  datatype FormOption = FormOption(caption: string, price: JsNumber)

  /** The base price field holds either the empty string (what the field
      handler stores when it is handed "") or a number. */
  datatype PriceField = EmptyText | Amount(num: JsNumber)

  datatype DefaultSpecs = DefaultSpecs(processor: string, ram: string, storage: string)

  datatype FormOptions = FormOptions(
    software: seq<FormOption>,
    processor: seq<FormOption>,
    ram: seq<FormOption>,
    storage: seq<FormOption>)

  datatype ProductFormData = ProductFormData(
    name: string,
    description: string,
    basePrice: PriceField,
    image: string,
    software: string,
    defaults: DefaultSpecs,
    options: FormOptions)

  datatype OptionList = SoftwareList | ProcessorList | RamList | StorageList

  /** The message the form shows, as a value. */
  datatype FormError =
    | NameRequired
    | DescriptionRequired
    | NegativeBasePrice
    | SoftwareRequired
    | ProcessorRequired
    | RamRequired
    | StorageRequired
    | LabelRequired(list: OptionList, index: nat)
    | NegativeOptionPrice(list: OptionList, index: nat)
    | NoOptions(list: OptionList)
    | DefaultNotOffered(list: OptionList)

  function ListOf(o: FormOptions, l: OptionList): (r: seq<FormOption>) {
    match l
    case SoftwareList => o.software
    case ProcessorList => o.processor
    case RamList => o.ram
    case StorageList => o.storage
  }

  /** `x < 0` as JavaScript evaluates it: "" is 0 and NaN compares false. */
  predicate IsNegative(n: JsNumber) {
    n.Num? && n.n < 0
  }

  predicate NegativeBase(p: PriceField) {
    p.Amount? && IsNegative(p.num)
  }

  /** Some option of the list carries this label (`list.some(o => o.f === v)`). */
  predicate Offers(list: seq<FormOption>, v: string) {
    exists i :: 0 <= i < |list| && list[i].caption == v
  }

  /** The `for ... of` scan of one list from index `i`: the first option with
      a blank label or, failing that, a negative price. */
  function ScanOptions(list: seq<FormOption>, l: OptionList, i: nat): (r: Option<FormError>)
    requires i <= |list|
    decreases |list| - i
    ensures r.None? <==> forall j :: i <= j < |list| ==> Trim(list[j].caption) != "" && !IsNegative(list[j].price)
    ensures r.Some? ==> r.value.LabelRequired? || r.value.NegativeOptionPrice?
  {
    if i == |list| then None
    else if Trim(list[i].caption) == "" then Some(LabelRequired(l, i))
    else if IsNegative(list[i].price) then Some(NegativeOptionPrice(l, i))
    else ScanOptions(list, l, i + 1)
  }

  /** `!s.trim()`: nothing but whitespace is left once the text is trimmed. */
  function TrimsToEmpty(s: string): (b: bool)
    ensures b <==> IsBlank(s)
  {
    TrimEmptyIffBlank(s);
    Trim(s) == ""
  }

  /** The scan of a whole list. */
  function ListError(list: seq<FormOption>, l: OptionList): (r: Option<FormError>)
    ensures r.None? <==> WellFormedOptions(list)
    ensures r.Some? ==> r.value.LabelRequired? || r.value.NegativeOptionPrice?
  {
    ScanMeansWellFormed(list, l);
    ScanOptions(list, l, 0)
  }

  /** Every option of the list is well formed. */
  predicate WellFormedOptions(list: seq<FormOption>) {
    forall j :: 0 <= j < |list| ==> !IsBlank(list[j].caption) && !IsNegative(list[j].price)
  }

  /** Lines 27-61: the texts are filled in and the base price is not negative. */
  predicate FieldsFilled(f: ProductFormData) {
    !IsBlank(f.name) && !IsBlank(f.description) && !NegativeBase(f.basePrice) &&
    !IsBlank(f.software) && !IsBlank(f.defaults.processor) &&
    !IsBlank(f.defaults.ram) && !IsBlank(f.defaults.storage)
  }

  predicate ListsWellFormed(o: FormOptions) {
    WellFormedOptions(o.software) && WellFormedOptions(o.processor) &&
    WellFormedOptions(o.ram) && WellFormedOptions(o.storage)
  }

  predicate ListsNonEmpty(o: FormOptions) {
    |o.software| > 0 && |o.processor| > 0 && |o.ram| > 0 && |o.storage| > 0
  }

  predicate DefaultsOffered(f: ProductFormData) {
    Offers(f.options.processor, f.defaults.processor) && Offers(f.options.ram, f.defaults.ram) &&
    Offers(f.options.storage, f.defaults.storage)
  }

  /** What an acceptable form is, stated declaratively. The default software
      is not required to be among the software options. */
  predicate Acceptable(f: ProductFormData) {
    FieldsFilled(f) && ListsWellFormed(f.options) && ListsNonEmpty(f.options) && DefaultsOffered(f)
  }

  /** The field checks of `validateProductForm`, in order: name, description,
      a base price that is not negative, software, then the processor, RAM
      and storage defaults. */
  function FieldError(f: ProductFormData): (r: Option<FormError>)
    ensures r.None? <==> FieldsFilled(f)
  {
    if TrimsToEmpty(f.name) then Some(NameRequired)
    else if TrimsToEmpty(f.description) then Some(DescriptionRequired)
    else if NegativeBase(f.basePrice) then Some(NegativeBasePrice)
    else if TrimsToEmpty(f.software) then Some(SoftwareRequired)
    else if TrimsToEmpty(f.defaults.processor) then Some(ProcessorRequired)
    else if TrimsToEmpty(f.defaults.ram) then Some(RamRequired)
    else if TrimsToEmpty(f.defaults.storage) then Some(StorageRequired)
    else None
  }

  /** The four scans of lines 64-109, in order. */
  function OptionError(o: FormOptions): (r: Option<FormError>)
    ensures r.None? <==> ListsWellFormed(o)
  {
    if ListError(o.software, SoftwareList).Some? then ListError(o.software, SoftwareList)
    else if ListError(o.processor, ProcessorList).Some? then ListError(o.processor, ProcessorList)
    else if ListError(o.ram, RamList).Some? then ListError(o.ram, RamList)
    else ListError(o.storage, StorageList)
  }

  /** Lines 112-130. */
  function EmptyListError(o: FormOptions): (r: Option<FormError>)
    ensures r.None? <==> ListsNonEmpty(o)
  {
    if |o.software| == 0 then Some(NoOptions(SoftwareList))
    else if |o.processor| == 0 then Some(NoOptions(ProcessorList))
    else if |o.ram| == 0 then Some(NoOptions(RamList))
    else if |o.storage| == 0 then Some(NoOptions(StorageList))
    else None
  }

  /** Lines 133-146. */
  function DefaultError(f: ProductFormData): (r: Option<FormError>)
    ensures r.None? <==> DefaultsOffered(f)
  {
    var o := f.options;
    if !Offers(o.processor, f.defaults.processor) then Some(DefaultNotOffered(ProcessorList))
    else if !Offers(o.ram, f.defaults.ram) then Some(DefaultNotOffered(RamList))
    else if !Offers(o.storage, f.defaults.storage) then Some(DefaultNotOffered(StorageList))
    else None
  }

  /** The checks in the order the form runs them; None when all pass. */
  function FirstError(f: ProductFormData): (r: Option<FormError>)
    ensures r.None? <==> Acceptable(f)
  {
    if FieldError(f).Some? then FieldError(f)
    else if OptionError(f.options).Some? then OptionError(f.options)
    else if EmptyListError(f.options).Some? then EmptyListError(f.options)
    else DefaultError(f)
  }

  /** `validateProductForm(formData)`: true exactly when every check passes. */
  function ValidateProductForm(f: ProductFormData): (ok: bool)
    ensures ok <==> Acceptable(f)
  {
    FirstError(f).None?
  }

  lemma TrimBlankAll(f: ProductFormData)
    ensures Trim(f.name) == "" <==> IsBlank(f.name)
    ensures Trim(f.description) == "" <==> IsBlank(f.description)
    ensures Trim(f.software) == "" <==> IsBlank(f.software)
    ensures Trim(f.defaults.processor) == "" <==> IsBlank(f.defaults.processor)
    ensures Trim(f.defaults.ram) == "" <==> IsBlank(f.defaults.ram)
    ensures Trim(f.defaults.storage) == "" <==> IsBlank(f.defaults.storage)
  {
    TrimEmptyIffBlank(f.name);
    TrimEmptyIffBlank(f.description);
    TrimEmptyIffBlank(f.software);
    TrimEmptyIffBlank(f.defaults.processor);
    TrimEmptyIffBlank(f.defaults.ram);
    TrimEmptyIffBlank(f.defaults.storage);
  }

  lemma ScanMeansWellFormed(list: seq<FormOption>, l: OptionList)
    ensures ScanOptions(list, l, 0).None? <==> WellFormedOptions(list)
  {
    forall j | 0 <= j < |list| ensures Trim(list[j].caption) == "" <==> IsBlank(list[j].caption) {
      TrimEmptyIffBlank(list[j].caption);
    }
  }

  /** The first failing check is the one reported: a blank name is reported
      whatever else is wrong, and a form that fails only on one option list
      reports that list. */
  lemma FirstFailureReported(f: ProductFormData)
    ensures IsBlank(f.name) ==> FirstError(f) == Some(NameRequired)
    ensures (FieldsFilled(f) && WellFormedOptions(f.options.software) && WellFormedOptions(f.options.processor) &&
             !WellFormedOptions(f.options.ram) && WellFormedOptions(f.options.storage)) ==>
      FirstError(f) == ListError(f.options.ram, RamList) && FirstError(f).Some?
  {
  }

  /** A base price of 0, or a cleared base price field, is accepted; any
      negative one is refused. */
  lemma BasePriceBoundary(f: ProductFormData)
    requires Acceptable(f)
    ensures ValidateProductForm(f.(basePrice := Amount(Num(0))))
    ensures ValidateProductForm(f.(basePrice := EmptyText))
    ensures forall n: int :: n < 0 ==> !ValidateProductForm(f.(basePrice := Amount(Num(n))))
  {
    var zero := f.(basePrice := Amount(Num(0)));
    assert FieldsFilled(zero) && zero.options == f.options && DefaultsOffered(zero);
    var cleared := f.(basePrice := EmptyText);
    assert FieldsFilled(cleared) && cleared.options == f.options && DefaultsOffered(cleared);
    forall n: int | n < 0 ensures !ValidateProductForm(f.(basePrice := Amount(Num(n)))) {
      assert NegativeBase(Amount(Num(n)));
    }
  }

  /** A form whose default software ("Dappnode") is not among its software
      options (only "Stereum" is offered). */
  const SampleForm := ProductFormData(
    "Node", "A node", Amount(Num(500)), "img", "Dappnode",
    DefaultSpecs("Core i3", "16GB", "2TB SSD"),
    FormOptions([FormOption("Stereum", Num(0))], [FormOption("Core i3", Num(0))],
                [FormOption("16GB", Num(0))], [FormOption("2TB SSD", Num(0))]))

  /** The default software need not appear among the software options. */
  lemma DefaultSoftwareUnchecked()
    ensures !Offers(SampleForm.options.software, SampleForm.software)
    ensures ValidateProductForm(SampleForm)
  {
    var f := SampleForm;
    assert f.options.software[0].caption == "Stereum" != "Dappnode";
    SampleFieldsFilled();
    SampleListsWellFormed();
    SampleDefaultsOffered();
  }

  lemma SampleDefaultsOffered()
    ensures DefaultsOffered(SampleForm)
  {
    var f := SampleForm;
    assert f.options.processor[0].caption == f.defaults.processor;
    assert f.options.ram[0].caption == f.defaults.ram;
    assert f.options.storage[0].caption == f.defaults.storage;
  }

  lemma SampleFieldsFilled()
    ensures FieldsFilled(SampleForm)
  {
    var f := SampleForm;
    NotBlank(f.name);
    NotBlank(f.description);
    NotBlank(f.software);
    NotBlank(f.defaults.processor);
    NotBlank(f.defaults.ram);
    NotBlank(f.defaults.storage);
  }

  lemma SampleListsWellFormed()
    ensures ListsWellFormed(SampleForm.options)
  {
    var o := SampleForm.options;
    NotBlank(o.software[0].caption);
    NotBlank(o.processor[0].caption);
    NotBlank(o.ram[0].caption);
    NotBlank(o.storage[0].caption);
    assert WellFormedOptions(o.software);
    assert WellFormedOptions(o.processor);
    assert WellFormedOptions(o.ram);
    assert WellFormedOptions(o.storage);
  }

  lemma NotBlank(s: string)
    requires |s| > 0 && !IsWhitespace(s[0])
    ensures !IsBlank(s)
  {
  }
}
