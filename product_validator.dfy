/** The product API's server-side helpers: the input validator that collects
    one message per offending field, the normalisation of a product's
    specifications, and the page window of the product listing. */
module ProductValidator {
  import opened Wrappers
  import opened Js

  /** The request body, as a dictionary; a missing key reads as `undefined`. */
  type Body = map<string, JsValue>

  function Get(data: Body, k: string): (r: JsValue) {
    if k in data then data[k] else Undefined
  }

  const RequiredFields: seq<string> := ["name", "description", "basePrice"]
  const NumericFields: seq<string> := ["basePrice"]
  const ArrayFields: seq<string> := ["options"]

  /** The checks the validator runs, one loop each. */
  datatype FieldCheck = RequiredOnCreate | RequiredOnUpdate | Numeric | IsArray

  /** A message of the errors dictionary; `Text` gives its wording. */
  datatype Message =
    | CannotBeEmpty(field: string)
    | IsRequired(field: string)
    | MustBeNumber(field: string)
    | MustBeArray(field: string)
    | PriceNotPositive

  function Text(m: Message): (r: string) {
    match m
    case CannotBeEmpty(f) => f + " cannot be empty"
    case IsRequired(f) => f + " is required"
    case MustBeNumber(f) => f + " must be a number"
    case MustBeArray(f) => f + " must be an array"
    case PriceNotPositive => "Price must be greater than 0"
  }

  /** The message a check records for one field, if any. */
  function CheckMessage(check: FieldCheck, v: JsValue, field: string): (r: Option<Message>) {
    match check
    case RequiredOnUpdate =>
      if v == Str("") then Some(CannotBeEmpty(field)) else None
    case RequiredOnCreate =>
      if !Truthy(v) then Some(IsRequired(field))
      else if v == Str("") then Some(CannotBeEmpty(field))
      else None
    case Numeric =>
      if v != Undefined && ToNumber(v).NaN? then Some(MustBeNumber(field)) else None
    case IsArray =>
      if Truthy(v) && !v.Arr? then Some(MustBeArray(field)) else None
  }

  /** `Number(v) <= 0` for a defined `v` (NaN compares false). */
  predicate NotPositive(v: JsValue) {
    v != Undefined && ToNumber(v).Num? && ToNumber(v).n <= 0
  }

  /** The message left for field `k` once every check has run: each later
      check overwrites an earlier message for the same field. */
  function FieldError(data: Body, isUpdate: bool, k: string): (r: Option<Message>) {
    var required := CheckMessage(if isUpdate then RequiredOnUpdate else RequiredOnCreate, Get(data, k), k);
    if k == "name" || k == "description" then required
    else if k == "basePrice" then
      if NotPositive(Get(data, k)) then Some(PriceNotPositive)
      else if CheckMessage(Numeric, Get(data, k), k).Some? then CheckMessage(Numeric, Get(data, k), k)
      else required
    else if k == "options" then CheckMessage(IsArray, Get(data, k), k)
    else None
  }

  /** One `for (const field of fields)` loop of the validator: `message`
      gives the message the loop's check records for a field, if any. */
  method RecordEach(errors: map<string, Message>, fields: seq<string>, message: string -> Option<Message>)
    returns (r: map<string, Message>)
    ensures forall k :: k in r <==> (k in errors || (k in fields && message(k).Some?))
    ensures forall k :: k in r ==>
      r[k] == (if k in fields && message(k).Some? then message(k).value else errors[k])
  {
    r := errors;
    var i := 0;
    while i < |fields|
      invariant 0 <= i <= |fields|
      invariant forall k :: k in r <==> (k in errors || (k in fields[..i] && message(k).Some?))
      invariant forall k :: k in r ==>
        r[k] == (if k in fields[..i] && message(k).Some? then message(k).value else errors[k])
    {
      var field := fields[i];
      assert fields[..i + 1] == fields[..i] + [field];
      var m := message(field);
      if m.Some? {
        r := r[field := m.value];
      }
      i := i + 1;
    }
    assert fields[..i] == fields;
  }

  /** `validateProductInput(data, isUpdate)`: `valid` holds exactly when no
      field has a message, and each field's message is the last one its
      checks recorded. */
  method ValidateProductInput(data: Body, isUpdate: bool) returns (valid: bool, errors: map<string, Message>)
    ensures forall k :: k in errors <==> FieldError(data, isUpdate, k).Some?
    ensures forall k :: k in errors ==> errors[k] == FieldError(data, isUpdate, k).value
    ensures errors.Keys <= {"name", "description", "basePrice", "options"}
    ensures valid <==> errors == map[]
  {
    errors := RecordStages(Check(RequiredCheck(isUpdate), data), Check(Numeric, data), Check(IsArray, data),
                           NotPositive(Get(data, "basePrice")));
    forall k ensures (k in errors <==> FieldError(data, isUpdate, k).Some?) &&
                     (k in errors ==> errors[k] == FieldError(data, isUpdate, k).value) {
      FieldErrorIsLast(data, isUpdate, k);
    }
    valid := |errors| == 0;
  }

  /** The body of the validator for any three checks: the required, numeric
      and array loops record into one map, then a non-positive price
      overwrites the "basePrice" entry. */
  method RecordStages(m1: string -> Option<Message>, m2: string -> Option<Message>,
                      m3: string -> Option<Message>, np: bool)
    returns (errors: map<string, Message>)
    ensures forall k :: k in errors <==> LastMessage(m1, m2, m3, np, k).Some?
    ensures forall k :: k in errors ==> errors[k] == LastMessage(m1, m2, m3, np, k).value
    ensures errors.Keys <= {"name", "description", "basePrice", "options"}
  {
    var e1 := RecordEach(map[], RequiredFields, m1);
    var e2 := RecordEach(e1, NumericFields, m2);
    var e3 := RecordEach(e2, ArrayFields, m3);
    errors := e3;
    if np {
      errors := errors["basePrice" := PriceNotPositive];
    }
    forall k ensures (k in errors <==> LastMessage(m1, m2, m3, np, k).Some?) &&
                     (k in errors ==> errors[k] == LastMessage(m1, m2, m3, np, k).value) {
      StagesGiveLast(m1, m2, m3, e1, e2, e3, np, errors, k);
    }
  }

  /** The required-field check that the mode selects. */
  function RequiredCheck(isUpdate: bool): (r: FieldCheck) {
    if isUpdate then RequiredOnUpdate else RequiredOnCreate
  }

  /** A loop's check, as the message it gives each field. */
  function Check(check: FieldCheck, data: Body): (r: string -> Option<Message>) {
    k => CheckMessage(check, Get(data, k), k)
  }

  /** The message the three loops and the final price check leave for `k`:
      the last check that reports `k` wins. */
  function LastMessage(m1: string -> Option<Message>, m2: string -> Option<Message>,
                       m3: string -> Option<Message>, np: bool, k: string): Option<Message> {
    if k == "basePrice" && np then Some(PriceNotPositive)
    else if k in ArrayFields && m3(k).Some? then m3(k)
    else if k in NumericFields && m2(k).Some? then m2(k)
    else if k in RequiredFields && m1(k).Some? then m1(k)
    else None
  }

  /** Three loops that record into one map, then the price check, leave the
      last message for each key. */
  lemma StagesGiveLast(m1: string -> Option<Message>, m2: string -> Option<Message>, m3: string -> Option<Message>,
                       e1: map<string, Message>, e2: map<string, Message>, e3: map<string, Message>,
                       np: bool, errors: map<string, Message>, k: string)
    requires forall j :: j in e1 <==> j in RequiredFields && m1(j).Some?
    requires forall j :: j in e1 ==> e1[j] == m1(j).value
    requires forall j :: j in e2 <==> (j in e1 || (j in NumericFields && m2(j).Some?))
    requires forall j :: j in e2 ==> e2[j] == (if j in NumericFields && m2(j).Some? then m2(j).value else e1[j])
    requires forall j :: j in e3 <==> (j in e2 || (j in ArrayFields && m3(j).Some?))
    requires forall j :: j in e3 ==> e3[j] == (if j in ArrayFields && m3(j).Some? then m3(j).value else e2[j])
    requires errors == if np then e3["basePrice" := PriceNotPositive] else e3
    ensures k in errors <==> LastMessage(m1, m2, m3, np, k).Some?
    ensures k in errors ==> errors[k] == LastMessage(m1, m2, m3, np, k).value
  {
  }

  /** `FieldError` is the last message of the validator's own checks. */
  lemma FieldErrorIsLast(data: Body, isUpdate: bool, k: string)
    ensures FieldError(data, isUpdate, k) == LastMessage(
      Check(RequiredCheck(isUpdate), data), Check(Numeric, data), Check(IsArray, data),
      NotPositive(Get(data, "basePrice")), k)
  {
    FieldErrorByField(data, isUpdate, k);
  }

  /** `FieldError` for the keys the validator knows, one at a time. */
  lemma FieldErrorByField(data: Body, isUpdate: bool, k: string)
    ensures k !in {"name", "description", "basePrice", "options"} ==> FieldError(data, isUpdate, k).None?
    ensures k in RequiredFields <==> k == "name" || k == "description" || k == "basePrice"
    ensures k in NumericFields <==> k == "basePrice"
    ensures k in ArrayFields <==> k == "options"
  {
  }

  /** `valid` is false exactly when some field has a message. */
  lemma ValidMeansNoFieldError(data: Body, isUpdate: bool)
    ensures (forall k :: FieldError(data, isUpdate, k).None?) <==>
      FieldError(data, isUpdate, "name").None? && FieldError(data, isUpdate, "description").None? &&
      FieldError(data, isUpdate, "basePrice").None? && FieldError(data, isUpdate, "options").None?
  {
    forall k ensures FieldError(data, isUpdate, k).Some? ==> k in {"name", "description", "basePrice", "options"} {
      FieldErrorByField(data, isUpdate, k);
    }
  }

  /** On create, the "cannot be empty" branch is unreachable: "" is falsy,
      so an empty field is always reported as missing. */
  lemma CreateNeverReportsEmpty(data: Body, k: string)
    ensures FieldError(data, false, k) != Some(CannotBeEmpty(k))
    ensures Get(data, k) == Str("") && (k == "name" || k == "description") ==>
      FieldError(data, false, k) == Some(IsRequired(k))
  {
  }

  /** On update, fields that are absent pass; only a required field sent as
      exactly "" is reported. A body with nothing in it is valid. */
  lemma UpdateChecksOnlyPresentFields(data: Body, k: string)
    ensures k in RequiredFields && k != "basePrice" ==>
      (FieldError(data, true, k).Some? <==> Get(data, k) == Str(""))
    ensures FieldError(map[], true, k).None?
  {
  }

  /** On create, an empty body misses every required field. */
  lemma CreateWithEmptyBody()
    ensures FieldError(map[], false, "name") == Some(IsRequired("name"))
    ensures FieldError(map[], false, "description") == Some(IsRequired("description"))
    ensures FieldError(map[], false, "basePrice") == Some(IsRequired("basePrice"))
    ensures FieldError(map[], false, "options").None?
  {
  }

  /** The base price rules: a defined non-numeric value must be a number, a
      defined value of at most 0 must be greater than 0 (this overwrites the
      "is required" that a 0 draws on create), and a positive number passes. */
  lemma BasePriceRules(data: Body, isUpdate: bool)
    ensures Get(data, "basePrice") != Undefined && ToNumber(Get(data, "basePrice")).NaN? ==>
      FieldError(data, isUpdate, "basePrice") == Some(MustBeNumber("basePrice"))
    ensures forall n: int :: n <= 0 && Get(data, "basePrice") == Number(Num(n)) ==>
      FieldError(data, isUpdate, "basePrice") == Some(PriceNotPositive)
    ensures forall n: int :: n > 0 && Get(data, "basePrice") == Number(Num(n)) ==>
      FieldError(data, isUpdate, "basePrice").None?
    ensures Get(data, "basePrice") == Null ==>
      FieldError(data, isUpdate, "basePrice") == Some(PriceNotPositive)
    ensures Get(data, "basePrice") == Arr([]) ==>
      FieldError(data, isUpdate, "basePrice") == Some(PriceNotPositive)
    ensures forall n: int :: n > 0 && Get(data, "basePrice") == Arr([Number(Num(n))]) ==>
      FieldError(data, isUpdate, "basePrice").None?
    ensures Get(data, "basePrice").Arr? && |Get(data, "basePrice").elems| >= 2 ==>
      FieldError(data, isUpdate, "basePrice") == Some(MustBeNumber("basePrice"))
  {
  }

  /** "abc" is such a non-numeric value. */
  lemma NotANumber()
    ensures ToNumber(Str("abc")) == NaN
  {
    assert !IsWhitespace('a') && !IsWhitespace('c');
    assert TrimStart("abc") == "abc";
    assert Trim("abc") == "abc";
    assert !IsDigit('a');
  }

  /** A present `options` that is not an array is an error; an array, or no
      options at all, passes. */
  lemma OptionsRule(data: Body, isUpdate: bool)
    ensures Get(data, "options") == Obj ==>
      FieldError(data, isUpdate, "options") == Some(MustBeArray("options"))
    ensures Get(data, "options").Arr? || Get(data, "options") == Undefined ==>
      FieldError(data, isUpdate, "options").None?
  {
  }

  // ---------------------------------------------------------------------
  // normalizeSpecs

  datatype DefaultSpecsIn = DefaultSpecsIn(processor: Option<string>, ram: Option<string>, storage: Option<string>)

  /** A product's `specs`; an absent `defaultSpecs` is `None`. */
  datatype Specs = Specs(software: Option<string>, defaultSpecs: Option<DefaultSpecsIn>)

  const RamSuffix := " RAM"

  /** `s` holds `pat` at position `i`. */
  predicate OccursAt(s: string, pat: string, i: nat) {
    i + |pat| <= |s| && s[i..i + |pat|] == pat
  }

  /** The first position at or after `from` where `pat` occurs. */
  function FindFrom(s: string, pat: string, from: nat): (r: Option<nat>)
    requires from <= |s|
    decreases |s| - from
    ensures r.Some? ==> from <= r.value && OccursAt(s, pat, r.value)
    ensures r.Some? ==> forall j :: from <= j < r.value ==> !OccursAt(s, pat, j)
    ensures r.None? ==> forall j :: from <= j <= |s| ==> !OccursAt(s, pat, j)
  {
    if OccursAt(s, pat, from) then Some(from)
    else if from == |s| then None
    else FindFrom(s, pat, from + 1)
  }

  /** `s.replace(pat, "")` with a string pattern: the first occurrence only. */
  function RemoveFirst(s: string, pat: string): (r: string)
    ensures FindFrom(s, pat, 0).None? ==> r == s
    ensures FindFrom(s, pat, 0).Some? ==> |r| == |s| - |pat|
  {
    match FindFrom(s, pat, 0)
    case None => s
    case Some(i) => s[..i] + s[i + |pat|..]
  }

  /** `normalizeSpecs(specs)`: a missing `specs` is returned as it is;
      otherwise a truthy default RAM loses its first " RAM" and nothing
      else changes. */
  function NormalizeSpecs(specs: Option<Specs>): (r: Option<Specs>)
    ensures specs.None? ==> r.None?
    ensures specs.Some? ==> r.Some? && r.value.software == specs.value.software
    ensures specs.Some? ==> (r.value.defaultSpecs.Some? <==> specs.value.defaultSpecs.Some?)
    ensures specs.Some? && specs.value.defaultSpecs.Some? ==>
      var d := specs.value.defaultSpecs.value;
      var e := r.value.defaultSpecs.value;
      e.processor == d.processor && e.storage == d.storage &&
      (d.ram.Some? && d.ram.value != "" ==> e.ram == Some(RemoveFirst(d.ram.value, RamSuffix))) &&
      (d.ram.None? || d.ram == Some("") ==> e.ram == d.ram)
  {
    match specs
    case None => None
    case Some(sp) =>
      match sp.defaultSpecs
      case None => Some(sp)
      case Some(d) =>
        var ram := if d.ram.Some? && d.ram.value != "" then Some(RemoveFirst(d.ram.value, RamSuffix)) else d.ram;
        Some(sp.(defaultSpecs := Some(d.(ram := ram))))
  }

  /** A RAM label without " RAM" is left alone, and a label that is a bare
      size followed by " RAM" becomes the bare size. */
  lemma RemoveFirstRamSuffix(base: string)
    requires forall j :: 0 <= j <= |base| ==> !OccursAt(base, RamSuffix, j)
    ensures RemoveFirst(base, RamSuffix) == base
    ensures RemoveFirst(base + RamSuffix, RamSuffix) == base
  {
    var s := base + RamSuffix;
    assert OccursAt(s, RamSuffix, |base|) by {
      assert s[|base|..|base| + 4] == RamSuffix;
    }
    forall j | 0 <= j < |base| ensures !OccursAt(s, RamSuffix, j) {
      if j + 4 <= |base| {
        assert s[j..j + 4] == base[j..j + 4];
        assert !OccursAt(base, RamSuffix, j);
      } else {
        assert s[j..j + 4][|base| - j] == s[|base|] == ' ';
        assert RamSuffix[|base| - j] != ' ';
      }
    }
    var found := FindFrom(s, RamSuffix, 0);
    assert found == Some(|base|);
    assert s[..|base|] + s[|base| + 4..] == base;
  }

  /** The labels the shop receives: "32GB RAM" is normalised to "32GB", and
      a specs object without default specs, or with no RAM, is kept. */
  lemma NormalizeExamples(sw: Option<string>)
    ensures NormalizeSpecs(Some(Specs(sw, Some(DefaultSpecsIn(Some("Core i5"), Some("32GB RAM"), None)))))
         == Some(Specs(sw, Some(DefaultSpecsIn(Some("Core i5"), Some("32GB"), None))))
    ensures NormalizeSpecs(Some(Specs(sw, None))) == Some(Specs(sw, None))
  {
    forall j | 0 <= j <= |"32GB"| ensures !OccursAt("32GB", RamSuffix, j) {
      if j == 0 {
        assert "32GB"[0..4][0] == '3';
      }
    }
    RemoveFirstRamSuffix("32GB");
    assert "32GB" + RamSuffix == "32GB RAM";
  }

  // ---------------------------------------------------------------------
  // The page window of the product listing

  const DefaultPageLimit := 100
  const MaxPageLimit := 1000

  datatype PageMeta = PageMeta(page: int, limit: int, skip: int, pages: int)

  /** `page`, `limit`, `skip` and `pages` of `GET /api/products` for the raw
      query values and the number of matching products. */
  function ProductPage(pageQ: Option<string>, limitQ: Option<string>, total: nat): (r: PageMeta)
    ensures r.page != 0 && r.limit != 0 && r.limit <= MaxPageLimit
    ensures r.skip == (r.page - 1) * r.limit
    ensures r.page == 1 || ParseInt(pageQ) == Some(r.page)
    ensures ParseInt(pageQ) == None || ParseInt(pageQ) == Some(0) ==> r.page == 1
    ensures ParseInt(pageQ).Some? && ParseInt(pageQ).value != 0 ==> r.page == ParseInt(pageQ).value
    ensures ParseInt(limitQ) == None || ParseInt(limitQ) == Some(0) ==> r.limit == DefaultPageLimit
    ensures ParseInt(limitQ).Some? && ParseInt(limitQ).value != 0 && ParseInt(limitQ).value < MaxPageLimit ==>
      r.limit == ParseInt(limitQ).value
    ensures ParseInt(limitQ).Some? && ParseInt(limitQ).value >= MaxPageLimit ==> r.limit == MaxPageLimit
    ensures r.pages == CeilDiv(total, r.limit)
  {
    var page := ParseIntOr(pageQ, 1);
    var requested := ParseIntOr(limitQ, DefaultPageLimit);
    var limit := if requested < MaxPageLimit then requested else MaxPageLimit;
    PageMeta(page, limit, (page - 1) * limit, CeilDiv(total, limit))
  }

  /** With a positive limit the pages just cover the products: the last page
      is non-empty and `pages` is the rounded-up quotient. */
  lemma ProductPageCovers(pageQ: Option<string>, limitQ: Option<string>, total: nat)
    ensures var r := ProductPage(pageQ, limitQ, total);
      r.limit > 0 ==> PagesJustCover(r.pages, r.limit, total) && r.pages == (total + r.limit - 1) / r.limit
  {
    var r := ProductPage(pageQ, limitQ, total);
    if r.limit > 0 {
      PagesCover(total, r.limit, r.pages);
      CeilDivNat(total, r.limit);
    }
  }

  /** Query values are read by `parseInt` without a radix, so "0x10" asks
      for 16 products and "0x2" for the second page. */
  lemma ProductPageHexQuery(total: nat)
    ensures ProductPage(Some("0x2"), Some("0x10"), total).limit == 16
    ensures ProductPage(Some("0x2"), Some("0x10"), total).skip == 16
  {
    HexPage();
    ParseIntHex();
    ProductPageOfParsed(Some("0x2"), Some("0x10"), total);
  }

  lemma HexPage()
    ensures ParseInt(Some("0x2")) == Some(2)
  {
    assert "0x2"[2..] == "2" && HexRun("2") == 1 && "2"[..1] == "2";
    assert ParseMagnitude("0x2") == Some(2);
    ParseIntUnsigned("0x2");
  }

  lemma ProductPageOfParsed(pageQ: Option<string>, limitQ: Option<string>, total: nat)
    requires ParseInt(pageQ) == Some(2) && ParseInt(limitQ) == Some(16)
    ensures ProductPage(pageQ, limitQ, total).limit == 16
    ensures ProductPage(pageQ, limitQ, total).skip == 16
  {
  }
}
