/**
 * The add-supplier modal: three text inputs over the supplier record and a
 * submit that hands the record to the optional save callback and closes
 * the modal after its 300 ms transition.
 */
module AddSupplier {
  import opened Wrappers
  import opened Entities

  /** The empty form; `now` is `Date.now()`, the new supplier's id. */
  function Blank(now: int): Supplier {
    Supplier(now, "", "", "")
  }

  /** The inputs, by their `name`. */
  datatype SupplierField = NameField | AddressField | ContactNoField

  function Get(s: Supplier, f: SupplierField): string {
    match f
    case NameField => s.name
    case AddressField => s.address
    case ContactNoField => s.contactNo
  }

  /** `{ ...prev, [name]: value }`: exactly the named field takes the typed text. */
  function ApplyChange(s: Supplier, f: SupplierField, value: string): (r: Supplier)
    ensures Get(r, f) == value
    ensures forall g :: g != f ==> Get(r, g) == Get(s, g)
    ensures r.id == s.id
  {
    match f
    case NameField => s.(name := value)
    case AddressField => s.(address := value)
    case ContactNoField => s.(contactNo := value)
  }

  datatype Edit = Edit(field: SupplierField, value: string)

  /** A sequence of keystrokes, applied in order. */
  function ApplyEdits(s: Supplier, edits: seq<Edit>): Supplier
    decreases |edits|
  {
    if edits == [] then s
    else ApplyEdits(ApplyChange(s, edits[0].field, edits[0].value), edits[1..])
  }

  /**
   * After any edits the id is the one the form started with, and each field
   * holds the last text typed into it, or its starting text if none was.
   */
  lemma {:induction false} EditsKeepIdAndLastValue(s: Supplier, edits: seq<Edit>, f: SupplierField)
    ensures ApplyEdits(s, edits).id == s.id
    ensures Get(ApplyEdits(s, edits), f) == LastValue(edits, f, Get(s, f))
    decreases |edits|
  {
    if edits != [] {
      var s' := ApplyChange(s, edits[0].field, edits[0].value);
      EditsKeepIdAndLastValue(s', edits[1..], f);
      LastValueCons(edits, f, Get(s, f));
    }
  }

  /** The value of the last edit of `f` in `edits`, or `default`. */
  function LastValue(edits: seq<Edit>, f: SupplierField, default: string): string
    decreases |edits|
  {
    if edits == [] then default
    else if edits[|edits| - 1].field == f then edits[|edits| - 1].value
    else LastValue(edits[..|edits| - 1], f, default)
  }

  lemma {:induction false} LastValueCons(edits: seq<Edit>, f: SupplierField, default: string)
    requires edits != []
    ensures LastValue(edits, f, default) ==
      LastValue(edits[1..], f, if edits[0].field == f then edits[0].value else default)
    decreases |edits|
  {
    if |edits| > 1 {
      var init := edits[..|edits| - 1];
      assert init[1..] == edits[1..][..|edits[1..]| - 1];
      assert edits[1..][|edits[1..]| - 1] == edits[|edits| - 1];
      LastValueCons(init, f, default);
    }
  }

  /** The modal's state. */
  class AddSupplierForm {
    var formData: Supplier
    var isOpen: bool
    /** `handleClose` has scheduled the parent's `onClose` (run 300 ms later). */
    var closeScheduled: bool

    /** `useState(initialData || blank)`. */
    constructor (initialData: Option<Supplier>, now: int)
      ensures formData == if initialData.Some? then initialData.value else Blank(now)
      ensures !isOpen && !closeScheduled
    {
      formData := if initialData.Some? then initialData.value else Blank(now);
      isOpen := false;
      closeScheduled := false;
    }

    /** The mount effect starts the opening transition. */
    method Mount()
      modifies this`isOpen
      ensures isOpen
    {
      isOpen := true;
    }

    method HandleClose()
      modifies this`isOpen, this`closeScheduled
      ensures !isOpen && closeScheduled
    {
      isOpen := false;
      closeScheduled := true;
    }

    method HandleChange(f: SupplierField, value: string)
      modifies this`formData
      ensures formData == ApplyChange(old(formData), f, value)
    {
      formData := ApplyChange(formData, f, value);
    }

    /**
     * `handleSubmit`: the record goes to `onSave` when there is one, then
     * the modal closes. A throwing save (`saveThrows`) escapes the handler
     * before `handleClose`, and the modal stays as it was.
     */
    method HandleSubmit(hasOnSave: bool, saveThrows: bool) returns (saved: Option<Supplier>, escaped: bool)
      modifies this`isOpen, this`closeScheduled
      ensures saved == if hasOnSave then Some(formData) else None
      ensures escaped <==> hasOnSave && saveThrows
      ensures !escaped ==> !isOpen && closeScheduled
      ensures escaped ==> isOpen == old(isOpen) && closeScheduled == old(closeScheduled)
    {
      saved := if hasOnSave then Some(formData) else None;
      escaped := hasOnSave && saveThrows;
      if !escaped {
        HandleClose();
      }
    }
  }
}
