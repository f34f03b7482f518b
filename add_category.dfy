/**
 * The add/edit category modal: a form over the category record with a
 * name field (shown only when adding), a status select, three checkboxes,
 * an EBT checkbox that rewrites the status text, a show-on-POS select, and
 * a submit that awaits the save callback and then closes the modal.
 */
module AddCategory {
  import opened Wrappers
  import opened Strings
  import opened CategoryApi

  /** The form's starting record when no category is being edited. */
  const Defaults := Category("", -32768, Some("Active"), false, 0, "No", false, false)

  /** The text inputs and selects wired to `handleChange`, by their `name`. */
  datatype TextField = CategoryNameField | CatStatusField | ShowPosField

  /** The checkboxes wired to `handleChange`, by their `name`. */
  datatype FlagField = AgeVerificationField | AgeVerification2Field | IsSyncField

  /** A change event: a text or select value, or a checkbox's `checked`. */
  datatype Change = TextChange(text: TextField, value: string) | FlagChange(flag: FlagField, checked: bool)

  function GetText(c: Category, f: TextField): Option<string> {
    match f
    case CategoryNameField => Some(c.categoryName)
    case CatStatusField => c.catStatus
    case ShowPosField => Some(c.showPOS)
  }

  function GetFlag(c: Category, f: FlagField): bool {
    match f
    case AgeVerificationField => c.ageVerification
    case AgeVerification2Field => c.ageVerification2
    case IsSyncField => c.isSync
  }

  /** `{ ...prev, [name]: type === "checkbox" ? checked : value }`: exactly the named field takes the new value. */
  function ApplyChange(c: Category, ch: Change): (r: Category)
    ensures ch.TextChange? ==> GetText(r, ch.text) == Some(ch.value)
    ensures ch.TextChange? ==> forall f :: f != ch.text ==> GetText(r, f) == GetText(c, f)
    ensures ch.TextChange? ==> forall f :: GetFlag(r, f) == GetFlag(c, f)
    ensures ch.FlagChange? ==> GetFlag(r, ch.flag) == ch.checked
    ensures ch.FlagChange? ==> forall f :: f != ch.flag ==> GetFlag(r, f) == GetFlag(c, f)
    ensures ch.FlagChange? ==> forall f :: GetText(r, f) == GetText(c, f)
    ensures r.bColor == c.bColor && r.position == c.position
  {
    match ch
    case TextChange(CategoryNameField, v) => c.(categoryName := v)
    case TextChange(CatStatusField, v) => c.(catStatus := Some(v))
    case TextChange(ShowPosField, v) => c.(showPOS := v)
    case FlagChange(AgeVerificationField, b) => c.(ageVerification := b)
    case FlagChange(AgeVerification2Field, b) => c.(ageVerification2 := b)
    case FlagChange(IsSyncField, b) => c.(isSync := b)
  }

  /** The status the select displays: `catStatus || "Active"`. */
  function ShownStatus(c: Category): (r: string)
    ensures r != ""
    ensures c.catStatus.Some? && c.catStatus.value != "" ==> r == c.catStatus.value
    ensures c.catStatus.None? || c.catStatus.value == "" ==> r == "Active"
  {
    OrElse(c.catStatus, "Active")
  }

  /** The EBT checkbox is ticked when the status text contains "ebt", ignoring case. */
  function EbtChecked(c: Category): (r: bool)
    ensures c.catStatus.None? ==> !r
    ensures c.catStatus == Some("Active EBT") ==> r
    ensures c.catStatus == Some("Active") ==> !r
  {
    ActiveEbtMentionsEbt();
    ActiveLacksEbt();
    c.catStatus.Some? && Contains(Lower(c.catStatus.value), "ebt")
  }

  /** The EBT checkbox's handler: the status becomes "Active EBT" or "Active". */
  function SetEbt(c: Category, checked: bool): (r: Category)
    ensures r == c.(catStatus := Some(if checked then "Active EBT" else "Active"))
  {
    c.(catStatus := Some(if checked then "Active EBT" else "Active"))
  }

  /** "Active EBT" ticks the box: a step towards `EbtChecked` and `SetEbtRoundTrip`. */
  lemma ActiveEbtMentionsEbt()
    ensures Contains(Lower("Active EBT"), "ebt")
  {
    var l := Lower("Active EBT");
    assert l == "active ebt";
    assert OccursAt(l, "ebt", 7);
    ContainsIff(l, "ebt");
  }

  /** "Active" leaves the box clear: a step towards `EbtChecked` and `SetEbtRoundTrip`. */
  lemma ActiveLacksEbt()
    ensures !Contains(Lower("Active"), "ebt")
  {
    var l := Lower("Active");
    assert l == "active";
    ContainsIff(l, "ebt");
    forall i ensures !OccursAt(l, "ebt", i) {
      if 0 <= i <= |l| - 3 {
        assert l[i..i + 3][0] == l[i] && l[i..i + 3][1] == l[i + 1];
      }
    }
  }

  /**
   * The checkbox shows what was last clicked; and either click overwrites
   * the status, so an "Inactive" category becomes "Active" or "Active EBT".
   */
  lemma SetEbtRoundTrip(c: Category, checked: bool)
    ensures EbtChecked(SetEbt(c, checked)) == checked
    ensures ShownStatus(SetEbt(c, checked)) != "Inactive"
  {
    ActiveEbtMentionsEbt();
    ActiveLacksEbt();
  }

  /** The modal's state. */
  class AddCategoryForm {
    var formData: Category
    var isSaving: bool
    /** Drives the open/close transition. */
    var isOpen: bool
    /** Whether the form was opened on an existing category. */
    const editing: bool
    /** `handleClose` has scheduled the parent's `onClose` (run 300 ms later). */
    var closeScheduled: bool

    /** `useState(initialData || defaults)`. */
    constructor (initialData: Option<Category>)
      ensures formData == (if initialData.Some? then initialData.value else Defaults)
      ensures editing == initialData.Some?
      ensures !isSaving && !isOpen && !closeScheduled
    {
      formData := if initialData.Some? then initialData.value else Defaults;
      editing := initialData.Some?;
      isSaving := false;
      isOpen := false;
      closeScheduled := false;
    }

    /** The heading. */
    function Title(): (r: string)
      reads this
      ensures r == "Edit Category" <==> editing
      ensures r == "Add Category" <==> !editing
    {
      if editing then "Edit Category" else "Add Category"
    }

    /** The name field is offered only when adding. */
    function ShowsNameInput(): (r: bool)
      reads this
      ensures r <==> Title() == "Add Category"
    {
      !editing
    }

    /** The mount effect starts the opening transition. */
    method Mount()
      modifies this`isOpen
      ensures isOpen
    {
      isOpen := true;
    }

    method HandleClose()
      modifies this`isOpen, this`closeScheduled
      ensures !isOpen && closeScheduled
    {
      isOpen := false;
      closeScheduled := true;
    }

    method HandleChange(ch: Change)
      modifies this`formData
      ensures formData == ApplyChange(old(formData), ch)
    {
      formData := ApplyChange(formData, ch);
    }

    method HandleEbtChange(checked: bool)
      modifies this`formData
      ensures formData == SetEbt(old(formData), checked)
      ensures EbtChecked(formData) == checked
    {
      formData := SetEbt(formData, checked);
      SetEbtRoundTrip(old(formData), checked);
    }

    /**
     * `handleSubmit`: the record is handed to `onSave` when the parent gave
     * one; whether the save resolves or fails, saving ends and the modal
     * closes. A failed save (or a missing `onSave`, which makes the call
     * throw) propagates out of the handler, as `thrown` reports.
     */
    method HandleSubmit(hasOnSave: bool, saveFails: bool) returns (saved: Option<Category>, thrown: bool)
      modifies this`isSaving, this`isOpen, this`closeScheduled
      ensures saved == (if hasOnSave then Some(formData) else None)
      ensures thrown <==> !hasOnSave || saveFails
      ensures !isSaving && !isOpen && closeScheduled
    {
      isSaving := true;
      if hasOnSave {
        saved := Some(formData);
        thrown := saveFails;
      } else {
        saved := None;
        thrown := true;
      }
      isSaving := false;
      HandleClose();
    }
  }
}
