/** The page navigation and rotation controls of a preset: the dropdown that chooses the rotation
    period, the prev/next buttons, the clamp of an overrun offset and the pause/resume button. */
module PresetRotationControls {
  import opened Common
  import opened Redux
  import opened Forms

  /** The localisation key of the error shown for an out-of-range arbitrary period. */
  const InvalidValueError: string := "validation.validator.generic.invalid"

  /** The name of the form field that the validation effect asks to validate. */
  const ArbitraryRotationPeriodField: string := "arbitraryRotationPeriod"

  // ---------------------------------------------------------------------------------------------
  // The standard-interval buttons

  datatype IntervalButton = IntervalButton(value: int, selected: bool, disabled: bool)

  /** One button per standard period, in order: disabled while an arbitrary value is shown or
      rotation is off, selected when its value is the current rotation period. */
  function IntervalButtons(periods: seq<int>, valueFromArbitrary: Option<int>,
                           rotationEnabled: bool, rotationPeriod: int): (r: seq<IntervalButton>)
    ensures |r| == |periods|
    ensures forall i :: 0 <= i < |r| ==> r[i].value == periods[i]
    ensures forall i :: 0 <= i < |r| ==>
      (r[i].disabled <==> NumberTruthy(valueFromArbitrary) || !rotationEnabled)
    ensures forall i :: 0 <= i < |r| ==> (r[i].selected <==> r[i].value == rotationPeriod)
  {
    if periods == [] then []
    else
      [IntervalButton(periods[0], periods[0] == rotationPeriod,
                      NumberTruthy(valueFromArbitrary) || !rotationEnabled)]
      + IntervalButtons(periods[1..], valueFromArbitrary, rotationEnabled, rotationPeriod)
  }

  /** Some button is selected exactly when the rotation period is a standard one. */
  lemma SomeButtonSelectedIffStandard(periods: seq<int>, valueFromArbitrary: Option<int>,
                                      rotationEnabled: bool, rotationPeriod: int)
    ensures (exists i :: 0 <= i < |periods| &&
              IntervalButtons(periods, valueFromArbitrary, rotationEnabled, rotationPeriod)[i].selected)
      <==> rotationPeriod in periods
  {
    var r := IntervalButtons(periods, valueFromArbitrary, rotationEnabled, rotationPeriod);
    if rotationPeriod in periods {
      var k :| 0 <= k < |periods| && periods[k] == rotationPeriod;
      assert r[k].selected;
      assert exists i :: (0 <= i < |periods| &&
        IntervalButtons(periods, valueFromArbitrary, rotationEnabled, rotationPeriod)[i].selected);
    } else {
      forall i | 0 <= i < |periods| ensures !r[i].selected {
        assert periods[i] in periods;
      }
    }
  }

  /** With distinct standard periods, no two buttons are selected together. */
  lemma DistinctPeriodsSelectOneButton(periods: seq<int>, valueFromArbitrary: Option<int>,
                                       rotationEnabled: bool, rotationPeriod: int, i: int, j: int)
    requires forall x, y :: 0 <= x < y < |periods| ==> periods[x] != periods[y]
    requires 0 <= i < |periods| && 0 <= j < |periods|
    requires IntervalButtons(periods, valueFromArbitrary, rotationEnabled, rotationPeriod)[i].selected
    requires IntervalButtons(periods, valueFromArbitrary, rotationEnabled, rotationPeriod)[j].selected
    ensures i == j
  {
    var r := IntervalButtons(periods, valueFromArbitrary, rotationEnabled, rotationPeriod);
    assert periods[i] == rotationPeriod == periods[j];
  }

  /** The seconds shown in the arbitrary-interval input for a stored millisecond value:
      JavaScript divides by 1000 exactly; nothing is shown for a missing or zero value. */
  function DisplayedSeconds(valueFromArbitrary: Option<int>): (r: Option<real>)
    ensures r.Some? <==> NumberTruthy(valueFromArbitrary)
    ensures r.Some? ==> r.value != 0.0 && r.value * 1000.0 == valueFromArbitrary.value as real
  {
    if NumberTruthy(valueFromArbitrary) then Some(valueFromArbitrary.value as real / 1000.0)
    else None
  }

  /** Seconds typed in are stored as milliseconds and shown again as the same seconds. */
  lemma StoredSecondsDisplayBack(seconds: int)
    requires seconds != 0
    ensures DisplayedSeconds(Some(seconds * 1000)) == Some(seconds as real)
  {
    assert (seconds * 1000) as real == seconds as real * 1000.0;
  }

  // ---------------------------------------------------------------------------------------------
  // The rotation dropdown: local state (the shown arbitrary value and the errors) over the form

  class RotationDropdown {
    const form: PresetForm
    /** `rotationIntervalValues`, the standard periods in milliseconds. */
    const periods: seq<int>
    /** The system settings bounding the arbitrary period, in seconds, inclusive. */
    const minSeconds: int
    const maxSeconds: int
    /** `valueFromArbitraryRotationPeriod`, in milliseconds. */
    var valueFromArbitrary: Option<int>
    var errors: seq<string>

    predicate Valid() {
      |periods| >= 3
    }

    /** The committed arbitrary period is missing or within the accepted range. */
    predicate CommittedInRange()
      reads form
    {
      match form.arbitraryRotationPeriod
      case None => true
      case Some(ms) => minSeconds * 1000 <= ms <= maxSeconds * 1000
    }

    /** The standard-interval buttons as this dropdown renders them from its state. */
    function Buttons(): (r: seq<IntervalButton>)
      reads this, form
      ensures |r| == |periods|
    {
      IntervalButtons(periods, valueFromArbitrary, form.screenRotationEnabled, form.rotationPeriod)
    }

    /** The local value starts as the form's arbitrary period, with no errors. */
    constructor (form: PresetForm, periods: seq<int>, minSeconds: int, maxSeconds: int)
      requires |periods| >= 3
      ensures Valid()
      ensures this.form == form && this.periods == periods
      ensures this.minSeconds == minSeconds && this.maxSeconds == maxSeconds
      ensures valueFromArbitrary == form.arbitraryRotationPeriod && errors == []
    {
      this.form := form;
      this.periods := periods;
      this.minSeconds := minSeconds;
      this.maxSeconds := maxSeconds;
      valueFromArbitrary := form.arbitraryRotationPeriod;
      errors := [];
    }

    /** `onChangeArbitraryInterval`: an empty or zero input clears the override and goes back to
        the third standard period; an input within [minSeconds, maxSeconds] is committed in
        milliseconds; any other input is shown with an error and committed nowhere. */
    method ChangeArbitraryInterval(value: Option<int>)
      requires Valid()
      modifies this, form
      ensures !NumberTruthy(value) ==>
        && errors == [] && valueFromArbitrary == None
        && form.arbitraryRotationPeriod == None
        && form.rotationPeriod == periods[2]
      ensures NumberTruthy(value) && minSeconds <= value.value <= maxSeconds ==>
        && errors == [] && valueFromArbitrary == Some(value.value * 1000)
        && form.arbitraryRotationPeriod == Some(value.value * 1000)
        && form.rotationPeriod == old(form.rotationPeriod)
      ensures NumberTruthy(value) && !(minSeconds <= value.value <= maxSeconds) ==>
        && errors == [InvalidValueError] && valueFromArbitrary == Some(value.value * 1000)
        && form.arbitraryRotationPeriod == old(form.arbitraryRotationPeriod)
        && form.rotationPeriod == old(form.rotationPeriod)
      ensures form.screenRotationEnabled == old(form.screenRotationEnabled)
      ensures old(CommittedInRange()) ==> CommittedInRange()
      // a shown arbitrary value disables every standard button
      ensures NumberTruthy(value) ==> forall i :: 0 <= i < |periods| ==> Buttons()[i].disabled
      // a cleared input selects the third button and enables the buttons while rotation is on
      ensures !NumberTruthy(value) ==> Buttons()[2].selected
      ensures !NumberTruthy(value) ==>
        forall i :: 0 <= i < |periods| ==> (Buttons()[i].disabled <==> !form.screenRotationEnabled)
    {
      if !NumberTruthy(value) {
        errors := [];
        valueFromArbitrary := None;
        form.arbitraryRotationPeriod := None;
        form.rotationPeriod := periods[2];
      } else if minSeconds <= value.value && value.value <= maxSeconds {
        valueFromArbitrary := Some(value.value * 1000);
        errors := [];
        form.arbitraryRotationPeriod := Some(value.value * 1000);
      } else {
        valueFromArbitrary := Some(value.value * 1000);
        errors := [InvalidValueError];
      }
    }

    /** Leaving the arbitrary-interval input clears the errors and nothing else. */
    method Blur()
      modifies this
      ensures errors == [] && valueFromArbitrary == old(valueFromArbitrary)
    {
      errors := [];
    }

    /** A standard-interval button sets the rotation period to its value. */
    method ClickInterval(value: int)
      modifies form
      ensures form.rotationPeriod == value
      ensures form.arbitraryRotationPeriod == old(form.arbitraryRotationPeriod)
      ensures form.screenRotationEnabled == old(form.screenRotationEnabled)
      ensures forall i :: 0 <= i < |periods| ==> (Buttons()[i].selected <==> periods[i] == value)
    {
      form.rotationPeriod := value;
    }

    /** The rotation switch writes its value into the form. */
    method SwitchRotation(value: bool)
      modifies form
      ensures form.screenRotationEnabled == value
      ensures form.rotationPeriod == old(form.rotationPeriod)
      ensures form.arbitraryRotationPeriod == old(form.arbitraryRotationPeriod)
      // switching rotation off disables every standard button
      ensures !value ==> forall i :: 0 <= i < |periods| ==> Buttons()[i].disabled
    {
      form.screenRotationEnabled := value;
    }

    /** The effect run when the committed arbitrary period changes: it asks the form to validate
        that field when the period is set, and dispatches nothing otherwise. */
    method ValidateArbitrary(store: Store)
      modifies store
      ensures NumberTruthy(form.arbitraryRotationPeriod) ==>
        store.log == old(store.log) + [ValidateField(PresetFormId, ArbitraryRotationPeriodField)]
      ensures !NumberTruthy(form.arbitraryRotationPeriod) ==> store.log == old(store.log)
      ensures store.alerts == old(store.alerts)
    {
      if NumberTruthy(form.arbitraryRotationPeriod) {
        store.Dispatch(ValidateField(PresetFormId, ArbitraryRotationPeriodField));
      }
    }
  }

  // ---------------------------------------------------------------------------------------------
  // Page navigation

  datatype Direction = Next | Prev

  /** `preset.arbitraryRotationPeriod || preset.rotationPeriod`: the arbitrary period overrides
      the standard one whenever it is set and nonzero, and the timer is 0 only when the rotation
      period is. */
  function TimerPeriod(arbitraryRotationPeriod: Option<int>, rotationPeriod: int): (r: int)
    ensures NumberTruthy(arbitraryRotationPeriod) ==> Some(r) == arbitraryRotationPeriod
    ensures !NumberTruthy(arbitraryRotationPeriod) ==> r == rotationPeriod
    ensures r == 0 ==> rotationPeriod == 0
  {
    if NumberTruthy(arbitraryRotationPeriod) then arbitraryRotationPeriod.value else rotationPeriod
  }

  predicate PrevDisabled(currentPage: int) {
    currentPage == 1
  }

  predicate NextDisabled(currentPage: int, pages: nat, loading: bool) {
    currentPage == pages || loading
  }

  /** The controls are made transparent (opacity 0) when there is at most one page. */
  predicate ControlsHidden(pages: nat) {
    pages <= 1
  }

  /** The pagination calculator's page number of an offset (the calculator itself is an input of
      this model; this is the relation the lemmas below assume it keeps). */
  predicate OnPage(offset: int, limit: nat, currentPage: int) {
    offset >= 0 && limit > 0 && currentPage == offset / limit + 1
  }

  class RotationControls {
    const store: Store
    const form: PresetForm

    constructor (store: Store, form: PresetForm)
      ensures this.store == store && this.form == form
    {
      this.store := store;
      this.form := form;
    }

    /** `onNavigation`: one page forward or back, restarting the timer with the preset's period. */
    method Navigate(dir: Direction, offset: int, limit: nat,
                    arbitraryRotationPeriod: Option<int>, rotationPeriod: int)
      modifies store
      ensures store.log == old(store.log) +
        [ItemChange(if dir == Next then offset + limit else offset - limit,
                    Some(TimerPeriod(arbitraryRotationPeriod, rotationPeriod)))]
      ensures NumberTruthy(arbitraryRotationPeriod) ==>
        store.log[|store.log| - 1].timer == arbitraryRotationPeriod
      ensures !NumberTruthy(arbitraryRotationPeriod) ==>
        store.log[|store.log| - 1].timer == Some(rotationPeriod)
      ensures store.alerts == old(store.alerts)
    {
      var next := if dir == Next then offset + limit else offset - limit;
      store.Dispatch(ItemChange(next, Some(TimerPeriod(arbitraryRotationPeriod, rotationPeriod))));
    }

    /** The self-correcting effect: a current page past the last page moves the offset to the
        first cell of the last page; otherwise nothing is dispatched. */
    method ClampOffset(pages: nat, limit: nat, currentPage: int)
      modifies store
      ensures pages > 0 && currentPage > pages ==>
        store.log == old(store.log) + [ItemChange((pages - 1) * limit, None)]
      ensures !(pages > 0 && currentPage > pages) ==> store.log == old(store.log)
      ensures store.alerts == old(store.alerts)
    {
      if pages != 0 && currentPage > pages {
        store.Dispatch(ItemChange((pages - 1) * limit, None));
      }
    }

    /** The pause/resume button negates the rotation flag. */
    method ToggleRotation()
      modifies form
      ensures form.screenRotationEnabled == !old(form.screenRotationEnabled)
      ensures form.rotationPeriod == old(form.rotationPeriod)
      ensures form.arbitraryRotationPeriod == old(form.arbitraryRotationPeriod)
    {
      form.screenRotationEnabled := !form.screenRotationEnabled;
    }
  }

  /** Pressing pause/resume twice leaves the rotation flag as it was. */
  method ToggleTwiceRestores(c: RotationControls)
    modifies c.form
    ensures c.form.screenRotationEnabled == old(c.form.screenRotationEnabled)
  {
    c.ToggleRotation();
    c.ToggleRotation();
  }

  /** The offset the clamp dispatches lies on the last page. */
  lemma ClampLandsOnLastPage(pages: nat, limit: nat)
    requires pages > 0 && limit > 0
    ensures OnPage((pages - 1) * limit, limit, pages)
  {
    var k: nat := pages - 1;
    assert k * limit >= 0;
    assert (k * limit) / limit == k by { DivOfMultiple(k, limit); }
  }

  /** When Prev is enabled, the offset it dispatches is nonnegative and on the previous page. */
  lemma PrevStaysOnPages(offset: int, limit: nat, currentPage: int)
    requires OnPage(offset, limit, currentPage) && !PrevDisabled(currentPage)
    ensures OnPage(offset - limit, limit, currentPage - 1)
  {
    var q := offset / limit;
    assert q >= 1;
    assert offset == q * limit + offset % limit;
    assert offset - limit == (q - 1) * limit + offset % limit;
    DivOfMultiplePlus(q - 1, limit, offset % limit);
  }

  /** When Next is enabled on a page that exists, the offset it dispatches is on the next page,
      and that page exists too. */
  lemma NextStaysOnPages(offset: int, limit: nat, currentPage: int, pages: nat, loading: bool)
    requires OnPage(offset, limit, currentPage) && currentPage <= pages
    requires !NextDisabled(currentPage, pages, loading)
    ensures OnPage(offset + limit, limit, currentPage + 1) && currentPage + 1 <= pages
  {
    var q := offset / limit;
    assert offset == q * limit + offset % limit;
    assert offset + limit == (q + 1) * limit + offset % limit;
    DivOfMultiplePlus(q + 1, limit, offset % limit);
  }

  /** With more than one page, at least one of Prev and Next is enabled while nothing loads. */
  lemma ShownControlsCanMove(currentPage: int, pages: nat)
    requires !ControlsHidden(pages) && 1 <= currentPage <= pages
    ensures !PrevDisabled(currentPage) || !NextDisabled(currentPage, pages, false)
  {
  }

  lemma DivOfMultiple(k: nat, limit: nat)
    requires limit > 0
    ensures (k * limit) / limit == k
  {
    DivOfMultiplePlus(k, limit, 0);
  }

  lemma MulNonNegative(a: int, b: int)
    requires a >= 0 && b >= 0
    ensures a * b >= 0
  {
  }

  lemma DivOfMultiplePlus(k: int, limit: nat, r: int)
    requires limit > 0 && 0 <= r < limit
    ensures (k * limit + r) / limit == k
  {
    var x := k * limit + r;
    var q, m := x / limit, x % limit;
    assert x == q * limit + m && 0 <= m < limit;
    var d := q - k;
    assert d * limit == r - m by {
      assert q * limit == (k + d) * limit == k * limit + d * limit;
    }
    if d > 0 {
      assert d * limit == (d - 1) * limit + limit;
      MulNonNegative(d - 1, limit);
    } else if d < 0 {
      assert (-d) * limit == (-d - 1) * limit + limit;
      MulNonNegative(-d - 1, limit);
    }
  }
}
