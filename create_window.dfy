/** The preset creation window: which layouts are offered, selecting one, the Create button and
    closing the window. */
module CreateWindow {
  import opened Common
  import opened Redux
  import opened Layouts

  /** `a` can be obtained from `b` by deleting elements: its elements occur in `b` in order. */
  predicate IsSubsequence<T(==)>(a: seq<T>, b: seq<T>)
    decreases |b|
  {
    if a == [] then true
    else if b == [] then false
    else if a[0] == b[0] then IsSubsequence(a[1..], b[1..])
    else IsSubsequence(a, b[1..])
  }

  lemma {:induction false} SubsequenceReflexive<T>(s: seq<T>)
    ensures IsSubsequence(s, s)
    decreases |s|
  {
    if s != [] {
      SubsequenceReflexive(s[1..]);
    }
  }

  /** A layout can be used for archive viewing when it has no more cells than allowed archives. */
  predicate FitsArchive(config: LayoutConfig, maxAllowedArchives: int) {
    config.cellCount <= maxAllowedArchives
  }

  /** `layoutConfigArchive`: the layouts that fit the archive limit, in their original order and
      each as often as in the full list. */
  function ArchiveLayouts(layouts: seq<LayoutConfig>, maxAllowedArchives: int)
    : (r: seq<LayoutConfig>)
    ensures forall c :: c in r <==> c in layouts && FitsArchive(c, maxAllowedArchives)
    ensures forall c :: (multiset(r)[c] ==
      if FitsArchive(c, maxAllowedArchives) then multiset(layouts)[c] else 0)
    ensures IsSubsequence(r, layouts)
  {
    if layouts == [] then []
    else
      var rest := ArchiveLayouts(layouts[1..], maxAllowedArchives);
      assert layouts == [layouts[0]] + layouts[1..];
      if FitsArchive(layouts[0], maxAllowedArchives) then
        assert ([layouts[0]] + rest)[1..] == rest;
        [layouts[0]] + rest
      else
        assert rest != [] ==> rest[0] != layouts[0] by {
          if rest != [] { assert rest[0] in rest; }
        }
        rest
  }

  /** `layoutsConfigListRenderer`'s list: the archive layouts in archive mode, all otherwise. */
  function RenderedLayouts(isArchiveMode: bool, layouts: seq<LayoutConfig>, maxAllowedArchives: int)
    : (r: seq<LayoutConfig>)
  {
    if isArchiveMode then ArchiveLayouts(layouts, maxAllowedArchives) else layouts
  }

  /** The rendered rows keep the order of the full list, and in archive mode each fits the
      archive limit while every layout that fits is offered; outside archive mode all are. */
  lemma RenderedLayoutsOrderAndFit(isArchiveMode: bool, layouts: seq<LayoutConfig>,
                                   maxAllowedArchives: int)
    ensures IsSubsequence(RenderedLayouts(isArchiveMode, layouts, maxAllowedArchives), layouts)
    ensures isArchiveMode ==> forall c :: (c in RenderedLayouts(isArchiveMode, layouts, maxAllowedArchives)
      <==> c in layouts && FitsArchive(c, maxAllowedArchives))
    ensures !isArchiveMode ==> RenderedLayouts(isArchiveMode, layouts, maxAllowedArchives) == layouts
  {
    if !isArchiveMode {
      SubsequenceReflexive(layouts);
    }
  }

  // ---------------------------------------------------------------------------------------------
  // The create form

  /** The fields of the create form the window reads and writes. */
  class CreateForm {
    var name: string
    var layoutId: Option<string>
    var archiveMode: bool
    /** Cameras handed over from outside (present when the preset is created from a selection). */
    var cameraIds: Option<seq<int>>

    constructor (name: string, layoutId: Option<string>, archiveMode: bool,
                 cameraIds: Option<seq<int>>)
      ensures this.name == name && this.layoutId == layoutId
      ensures this.archiveMode == archiveMode && this.cameraIds == cameraIds
    {
      this.name := name;
      this.layoutId := layoutId;
      this.archiveMode := archiveMode;
      this.cameraIds := cameraIds;
    }
  }

  /** A layout row is selected when its id is the form's `layoutId`. */
  predicate RowSelected(config: LayoutConfig, layoutId: Option<string>) {
    layoutId == Some(config.id)
  }

  /** Clicking a row writes its id into the form; afterwards exactly the rows with that id are
      selected, and the other fields are untouched. */
  method OnLayoutClick(form: CreateForm, config: LayoutConfig)
    modifies form
    ensures form.layoutId == Some(config.id)
    ensures RowSelected(config, form.layoutId)
    ensures forall other: LayoutConfig :: RowSelected(other, form.layoutId) <==> other.id == config.id
    ensures form.name == old(form.name) && form.archiveMode == old(form.archiveMode)
    ensures form.cameraIds == old(form.cameraIds)
  {
    form.layoutId := Some(config.id);
  }

  /** The Create button: the outside-save action when the form holds camera ids (an empty array
      is truthy too), otherwise save-button-click for a preset without id. */
  method OnCreate(store: Store, form: CreateForm)
    modifies store
    ensures form.cameraIds.Some? ==> store.log == old(store.log) + [PresetSaveOutsideClick]
    ensures form.cameraIds.None? ==> store.log == old(store.log) + [PresetSaveBtnClick(None)]
    ensures store.alerts == old(store.alerts)
  {
    if form.cameraIds.Some? {
      store.Dispatch(PresetSaveOutsideClick);
    } else {
      store.Dispatch(PresetSaveBtnClick(None));
    }
  }

  /** When the window has finished hiding, the create form is reset. */
  method OnHideEnd(store: Store)
    modifies store
    ensures store.log == old(store.log) + [ResetForm(PresetCreateFormId)]
    ensures store.alerts == old(store.alerts)
  {
    store.Dispatch(ResetForm(PresetCreateFormId));
  }
}
