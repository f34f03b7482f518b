/**
 * The product form: one input per product field bound to a shared change
 * handler that recomputes the total amount whenever the quantity or the
 * unit price changes, a supplier-name input with its own handler, and a
 * submit that hands the record to the optional save callback and closes.
 *
 * The change handler stores an input's text as it is, also in the numeric
 * fields; only the total is computed, with JavaScript's `Number`, which the
 * model takes as the parameter `parse`.
 */
module ProductForm {
  import opened Wrappers
  import opened Entities

  /** A JavaScript number as far as the form needs it: finite, or NaN when a text does not parse. */
  datatype JsNumber = Finite(value: real) | NaN

  /** `a * b`: NaN as soon as either side is NaN. */
  function Times(a: JsNumber, b: JsNumber): (r: JsNumber)
    ensures r.Finite? <==> a.Finite? && b.Finite?
    ensures r.Finite? ==> r.value == a.value * b.value
  {
    if a.Finite? && b.Finite? then Finite(a.value * b.value) else NaN
  }

  /** A numeric field of the draft: the number it started with, or the text last typed into it. */
  datatype Numeric = Num(n: real) | Typed(text: string)

  /** `Number(x)`. */
  function ToNumber(x: Numeric, parse: string -> JsNumber): JsNumber {
    match x
    case Num(n) => Finite(n)
    case Typed(t) => parse(t)
  }

  /** The record while it is being edited. */
  datatype ProductDraft = ProductDraft(
    id: int,
    productCode: string,
    productName: string,
    barcode: string,
    quantity: Numeric,
    pricePerUnit: Numeric,
    totalAmount: JsNumber,
    salesRate: Numeric,
    rackNo: string,
    manufacturingDate: string,
    expiryDate: string,
    supplier: Supplier,
    imageUrl: string)

  /** A product handed in as `initialData`. */
  function FromProduct(p: Product): ProductDraft {
    ProductDraft(p.id, p.productCode, p.productName, p.barcode, Num(p.quantity), Num(p.pricePerUnit),
      Finite(p.totalAmount), Num(p.salesRate), p.rackNo, p.manufacturingDate, p.expiryDate, p.supplier, p.imageUrl)
  }

  /** The empty form: every text empty, every number 0, the supplier TechCorp; `now` is `Date.now()`. */
  function Blank(now: int): ProductDraft {
    ProductDraft(now, "", "", "", Num(0.0), Num(0.0), Finite(0.0), Num(0.0), "", "", "",
      Supplier(1, "TechCorp", "", ""), "")
  }

  /** The inputs wired to the shared change handler, by their `name`. */
  datatype ProductField =
    | ProductCode | ProductName | Barcode | Quantity | PricePerUnit | SalesRate
    | RackNo | ManufacturingDate | ExpiryDate | ImageUrl

  predicate IsNumberField(f: ProductField) {
    f == Quantity || f == PricePerUnit || f == SalesRate
  }

  datatype FieldValue = Text(s: string) | Number(x: Numeric)

  function Get(d: ProductDraft, f: ProductField): FieldValue {
    match f
    case ProductCode => Text(d.productCode)
    case ProductName => Text(d.productName)
    case Barcode => Text(d.barcode)
    case Quantity => Number(d.quantity)
    case PricePerUnit => Number(d.pricePerUnit)
    case SalesRate => Number(d.salesRate)
    case RackNo => Text(d.rackNo)
    case ManufacturingDate => Text(d.manufacturingDate)
    case ExpiryDate => Text(d.expiryDate)
    case ImageUrl => Text(d.imageUrl)
  }

  /** The total the form shows for a quantity and a unit price. */
  function TotalOf(d: ProductDraft, parse: string -> JsNumber): JsNumber {
    Times(ToNumber(d.quantity, parse), ToNumber(d.pricePerUnit, parse))
  }

  /** The total agrees with the quantity and the unit price. */
  predicate TotalConsistent(d: ProductDraft, parse: string -> JsNumber) {
    d.totalAmount == TotalOf(d, parse)
  }

  function Set(d: ProductDraft, f: ProductField, value: string): ProductDraft {
    match f
    case ProductCode => d.(productCode := value)
    case ProductName => d.(productName := value)
    case Barcode => d.(barcode := value)
    case Quantity => d.(quantity := Typed(value))
    case PricePerUnit => d.(pricePerUnit := Typed(value))
    case SalesRate => d.(salesRate := Typed(value))
    case RackNo => d.(rackNo := value)
    case ManufacturingDate => d.(manufacturingDate := value)
    case ExpiryDate => d.(expiryDate := value)
    case ImageUrl => d.(imageUrl := value)
  }

  /**
   * `handleChange`: the named field takes the typed text, all other fields
   * keep theirs, and a change of quantity or unit price recomputes the total.
   */
  function ApplyChange(d: ProductDraft, f: ProductField, value: string, parse: string -> JsNumber): (r: ProductDraft)
    ensures Get(r, f) == if IsNumberField(f) then Number(Typed(value)) else Text(value)
    ensures forall g :: g != f ==> Get(r, g) == Get(d, g)
    ensures r.id == d.id && r.supplier == d.supplier
    ensures f == Quantity || f == PricePerUnit ==> TotalConsistent(r, parse)
    ensures f != Quantity && f != PricePerUnit ==> r.totalAmount == d.totalAmount
  {
    var updated := Set(d, f, value);
    if f == Quantity || f == PricePerUnit then updated.(totalAmount := TotalOf(updated, parse)) else updated
  }

  /** Every change keeps a consistent total consistent; the blank form starts consistent. */
  lemma ChangeKeepsTotalConsistent(d: ProductDraft, f: ProductField, value: string, parse: string -> JsNumber)
    requires TotalConsistent(d, parse)
    ensures TotalConsistent(ApplyChange(d, f, value, parse), parse)
  {
  }

  lemma BlankIsConsistent(now: int, parse: string -> JsNumber)
    ensures TotalConsistent(Blank(now), parse)
  {
  }

  /** A product whose stored total is wrong keeps it until its quantity or price is edited. */
  lemma StaleTotalSurvivesOtherEdits(p: Product, f: ProductField, value: string, parse: string -> JsNumber)
    requires p.totalAmount != p.quantity * p.pricePerUnit
    requires f != Quantity && f != PricePerUnit
    ensures !TotalConsistent(ApplyChange(FromProduct(p), f, value, parse), parse)
  {
  }

  /** `handleSupplierChange`: only the supplier's name changes. */
  function SetSupplierName(d: ProductDraft, name: string): (r: ProductDraft)
    ensures r.supplier == Supplier(d.supplier.id, name, d.supplier.address, d.supplier.contactNo)
    ensures forall g :: Get(r, g) == Get(d, g)
    ensures r.id == d.id && r.totalAmount == d.totalAmount
  {
    d.(supplier := d.supplier.(name := name))
  }

  /** The form's state. */
  class ProductFormState {
    var formData: ProductDraft
    /** JavaScript's `Number` on a typed text. */
    const parse: string -> JsNumber

    /** `useState(initialData || blank)`. */
    constructor (initialData: Option<Product>, now: int, parse: string -> JsNumber)
      ensures formData == if initialData.Some? then FromProduct(initialData.value) else Blank(now)
      ensures this.parse == parse
    {
      formData := if initialData.Some? then FromProduct(initialData.value) else Blank(now);
      this.parse := parse;
    }

    method HandleChange(f: ProductField, value: string)
      modifies this`formData
      ensures formData == ApplyChange(old(formData), f, value, parse)
    {
      formData := ApplyChange(formData, f, value, parse);
    }

    method HandleSupplierChange(name: string)
      modifies this`formData
      ensures formData == SetSupplierName(old(formData), name)
    {
      formData := SetSupplierName(formData, name);
    }

    /**
     * `handleSubmit`: the draft goes to `onSave` when there is one, then
     * `onClose` runs. Nothing catches an exception from `onSave`, so a
     * throwing save escapes the handler and `onClose` is skipped.
     * `saveThrows` says whether the save would throw.
     */
    method HandleSubmit(hasOnSave: bool, saveThrows: bool) returns (saved: Option<ProductDraft>, escaped: bool, closed: bool)
      ensures saved.Some? <==> hasOnSave
      ensures saved.Some? ==> saved.value == formData
      ensures escaped <==> hasOnSave && saveThrows
      ensures closed <==> !escaped
    {
      saved := if hasOnSave then Some(formData) else None;
      escaped := hasOnSave && saveThrows;
      closed := !escaped;
    }
  }
}
