/** Values shared by the whole model: optional values and the JavaScript truthiness rules
    that the components' conditions rely on. */
module Common {

  /** A value that JavaScript may leave `undefined` or `null`. */
  datatype Option<+T> = None | Some(value: T)

  /** A number that may be missing is truthy iff it is present and not 0 (NaN is not modelled). */
  predicate NumberTruthy(n: Option<int>) {
    n.Some? && n.value != 0
  }

  /** A string that may be missing is truthy iff it is present and not empty. */
  predicate StringTruthy(s: Option<string>) {
    s.Some? && s.value != ""
  }

  function Min(a: int, b: int): (r: int)
    ensures r <= a && r <= b && (r == a || r == b)
  {
    if a <= b then a else b
  }

  function Max(a: int, b: int): (r: int)
    ensures r >= a && r >= b && (r == a || r == b)
  {
    if a >= b then a else b
  }
}

/** The Redux store as far as the components use it: every `dispatch` appends an action record
    to `log`, and every warning dialog that a handler opens is appended to `alerts`. */
module Redux {
  import opened Common

  /** The two forms the components read and write. */
  datatype FormId = PresetFormId | PresetCreateFormId

  /** Warning dialogs opened through the alert dialog service. */
  datatype Alert = CellsChangeWarning

  /** The action records the modelled handlers dispatch. */
  datatype Action =
    | ItemChange(offset: int, timer: Option<int>)          // VIDEO_MOSAIC_ITEM__CHANGE
    | ValidateField(formId: FormId, field: string)         // FORMS__VALIDATE_FIELD
    | CellsItemsMove(from: int, to: int)                   // VIDEO_MOSAIC_CELLS_ITEMS_MOVE
    | CellsCameraRemoveClick(order: int)                   // VIDEO_MOSAIC_CELLS_CAMERA_REMOVE__CLICK
    | ListItemSelect(id: Option<string>)                   // VIDEO_MOSAIC_LIST_ITEM_SELECT
    | ListItemDeleteClick(id: Option<string>, name: string) // VIDEO_MOSAIC_LIST_ITEM__DELETE_CLICK
    | ToggleChecked(id: Option<string>, checked: bool)     // VIDEO_MOSAIC_ITEM__TOGGLE_CHECKED
    | PresetSaveBtnClick(id: Option<string>)               // VIDEO_MOSAIC_ITEM_PRESET__SAVE_BTN_CLICK
    | PresetSaveOutsideClick                               // VIDEO_MOSAIC_ITEM_PRESET__SAVE_OUTSIDE_CLICK
    | ResetForm(formId: FormId)                            // FORMS__RESET_FORM

  class Store {
    var log: seq<Action>
    var alerts: seq<Alert>

    constructor ()
      ensures log == [] && alerts == []
    {
      log, alerts := [], [];
    }

    method Dispatch(a: Action)
      modifies this
      ensures log == old(log) + [a]
      ensures alerts == old(alerts)
    {
      log := log + [a];
    }

    method AlertDialog(w: Alert)
      modifies this
      ensures alerts == old(alerts) + [w]
      ensures log == old(log)
    {
      alerts := alerts + [w];
    }
  }
}

/** The fields of the preset form that the rotation controls and the item header read and write. */
module Forms {
  import opened Common

  class PresetForm {
    var rotationPeriod: int                   // milliseconds
    var arbitraryRotationPeriod: Option<int>  // milliseconds; None is `null`/`undefined`
    var screenRotationEnabled: bool

    constructor (rotationPeriod: int, arbitraryRotationPeriod: Option<int>, screenRotationEnabled: bool)
      ensures this.rotationPeriod == rotationPeriod
      ensures this.arbitraryRotationPeriod == arbitraryRotationPeriod
      ensures this.screenRotationEnabled == screenRotationEnabled
    {
      this.rotationPeriod := rotationPeriod;
      this.arbitraryRotationPeriod := arbitraryRotationPeriod;
      this.screenRotationEnabled := screenRotationEnabled;
    }
  }
}

/** Grid layout templates. Only the number of cells matters to the modelled logic. */
module Layouts {
  import opened Common

  /** `cellCount` is `cells.length`; the geometry of the cells is not part of this model. */
  datatype LayoutConfig = LayoutConfig(id: string, name: string, cellCount: nat)

  /** The page size: the cell count of the layout, or 0 when there is no layout. */
  function Limit(config: Option<LayoutConfig>): (r: nat) {
    match config
    case None => 0
    case Some(c) => c.cellCount
  }
}

/** Share modes of presets shared with other users. */
module Sharing {
  import opened Common

  datatype ShareMode = View | Edit

  /** `shareMode !== VIDEO_MOSAIC_SHARE_MODE_VIEW`: a missing mode permits editing. */
  predicate CanEdit(mode: Option<ShareMode>) {
    mode != Some(View)
  }

  lemma CanEditUnlessView(mode: Option<ShareMode>)
    ensures !CanEdit(mode) <==> mode == Some(View)
    ensures CanEdit(None) && CanEdit(Some(Edit))
  {
  }
}
