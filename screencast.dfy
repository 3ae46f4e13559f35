/**
 * The screencast application shell (screencast/ScreencastApp.js): at most one
 * screen-capture model is attached at a time, the toggle button is enabled
 * exactly while one is, and once the UI is presented the toggle state and the
 * visibility of the screencast pane follow "setting enabled and view present".
 *
 * Widgets are reduced to booleans: whether the root split widget exists
 * (`presentUI` ran) and whether its main pane is shown; the screencast view is
 * recorded by the model it was created for. A screen-capture model is an id.
 */
module Screencast {
  import opened Wrappers

  type ModelId = nat

  class ScreencastApp {
    /** The `screencastEnabled` setting. */
    var enabledSetting: bool
    /** The toggle button's toggled and enabled states. */
    var toggled: bool
    var buttonEnabled: bool
    var screenCaptureModel: Option<ModelId>
    /** The screencast view, recorded by the model it shows. */
    var screencastView: Option<ModelId>
    /** Whether `presentUI` created the root split widget. */
    var uiPresented: bool
    /** Whether the split widget shows its main (screencast) pane. */
    var mainShown: bool

    /** The attached model, its view and the enabled button go together. */
    ghost predicate Valid()
      reads this
    {
      screencastView == screenCaptureModel && (buttonEnabled <==> screenCaptureModel.Some?)
    }

    /** After a recomputation, the toggle is on exactly when the setting is on and a view exists, and the pane follows it. */
    ghost predicate Synced()
      reads this
    {
      toggled == (enabledSetting && screencastView.Some?) && mainShown == toggled
    }

    /** The setting defaults to false; the button shows it but starts disabled. */
    constructor (stored: Option<bool>)
      ensures Valid()
      ensures enabledSetting == (if stored.Some? then stored.value else false)
      ensures toggled == enabledSetting && !buttonEnabled
      ensures screenCaptureModel.None? && !uiPresented && !mainShown
    {
      enabledSetting := if stored.Some? then stored.value else false;
      toggled := enabledSetting;
      buttonEnabled := false;
      screenCaptureModel := None;
      screencastView := None;
      uiPresented := false;
      mainShown := false;
    }

    /** `presentUI`: creates the split widget with its main pane hidden. */
    method PresentUI()
      requires Valid()
      modifies this
      ensures Valid() && uiPresented && !mainShown
      ensures enabledSetting == old(enabledSetting) && toggled == old(toggled) && buttonEnabled == old(buttonEnabled)
      ensures screenCaptureModel == old(screenCaptureModel) && screencastView == old(screencastView)
    {
      uiPresented := true;
      mainShown := false;
    }

    /** `_onScreencastEnabledChanged`. */
    method OnScreencastEnabledChanged()
      modifies this
      ensures !old(uiPresented) ==> toggled == old(toggled) && mainShown == old(mainShown)
      ensures old(uiPresented) ==> Synced()
      ensures enabledSetting == old(enabledSetting) && buttonEnabled == old(buttonEnabled)
      ensures screenCaptureModel == old(screenCaptureModel) && screencastView == old(screencastView)
      ensures uiPresented == old(uiPresented)
    {
      if !uiPresented {
        return;
      }
      var enabled := enabledSetting && screencastView.Some?;
      toggled := enabled;
      mainShown := enabled;
    }

    /**
     * `modelAdded`: ignored while a model is attached; otherwise attaches the
     * model, enables the button and creates its view. Before `presentUI` the
     * split widget does not exist and installing the view throws: `threw`
     * reports that, and nothing after the failing call happens.
     */
    method ModelAdded(model: ModelId) returns (threw: bool)
      requires Valid()
      modifies this
      ensures Valid()
      ensures old(screenCaptureModel).Some? ==>
        !threw && screenCaptureModel == old(screenCaptureModel) && toggled == old(toggled) && mainShown == old(mainShown)
      ensures old(screenCaptureModel).None? ==>
        screenCaptureModel == Some(model) && buttonEnabled && threw == !old(uiPresented) &&
        (threw ==> toggled == old(toggled) && mainShown == old(mainShown)) &&
        (!threw ==> Synced() && toggled == enabledSetting)
      ensures enabledSetting == old(enabledSetting) && uiPresented == old(uiPresented)
    {
      threw := false;
      if screenCaptureModel.Some? {
        return;
      }
      screenCaptureModel := Some(model);
      buttonEnabled := true;
      screencastView := Some(model);
      if !uiPresented {
        return true;
      }
      OnScreencastEnabledChanged();
    }

    /** `modelRemoved`: only the attached model detaches; its view goes and the button is disabled. */
    method ModelRemoved(model: ModelId)
      requires Valid()
      modifies this
      ensures Valid()
      ensures old(screenCaptureModel) != Some(model) ==>
        screenCaptureModel == old(screenCaptureModel) && toggled == old(toggled) && mainShown == old(mainShown) &&
        buttonEnabled == old(buttonEnabled)
      ensures old(screenCaptureModel) == Some(model) ==>
        screenCaptureModel.None? && screencastView.None? && !buttonEnabled &&
        (old(uiPresented) ==> !toggled && !mainShown) &&
        (!old(uiPresented) ==> toggled == old(toggled) && mainShown == old(mainShown))
      ensures enabledSetting == old(enabledSetting) && uiPresented == old(uiPresented)
    {
      if screenCaptureModel != Some(model) {
        return;
      }
      screenCaptureModel := None;
      buttonEnabled := false;
      screencastView := None;
      OnScreencastEnabledChanged();
    }

    /** `_toggleButtonClicked`: stores the opposite of the shown toggle state, then recomputes. */
    method ToggleButtonClicked()
      requires Valid()
      modifies this
      ensures Valid()
      ensures enabledSetting == !old(toggled)
      ensures old(uiPresented) ==> Synced() && toggled == (!old(toggled) && screencastView.Some?)
      ensures !old(uiPresented) ==> toggled == old(toggled) && mainShown == old(mainShown)
      ensures screenCaptureModel == old(screenCaptureModel) && buttonEnabled == old(buttonEnabled)
      ensures uiPresented == old(uiPresented)
    {
      var enabled := !toggled;
      enabledSetting := enabled;
      OnScreencastEnabledChanged();
    }
  }

  /** The module-level `_appInstance`. */
  class AppHolder {
    var appInstance: Option<ScreencastApp>

    constructor ()
      ensures appInstance.None?
    {
      appInstance := None;
    }

    /** `ScreencastApp._instance`: creates the application on first use and returns the same one afterwards. */
    method Instance(stored: Option<bool>) returns (app: ScreencastApp)
      modifies this
      ensures appInstance == Some(app)
      ensures old(appInstance).Some? ==> app == old(appInstance).value
      ensures old(appInstance).None? ==>
        fresh(app) && app.Valid() && !app.buttonEnabled && !app.uiPresented && app.toggled == app.enabledSetting
    {
      if appInstance.None? {
        var created := new ScreencastApp(stored);
        appInstance := Some(created);
      }
      app := appInstance.value;
    }
  }

  /** Every caller of `_instance` gets the same application. */
  method InstanceIsShared(holder: AppHolder, stored: Option<bool>) returns (first: ScreencastApp, second: ScreencastApp)
    modifies holder
    ensures first == second
  {
    first := holder.Instance(stored);
    second := holder.Instance(stored);
  }

  /**
   * A session: once the UI is up and a model attached, a click turns the
   * screencast on when the setting was off, a second click turns it off, and
   * removing the model hides the pane and disables the button.
   */
  method ToggleSession(app: ScreencastApp, model: ModelId)
    requires app.Valid() && app.screenCaptureModel.None? && !app.enabledSetting
    modifies app
    ensures app.Valid() && !app.buttonEnabled && !app.mainShown && !app.toggled
  {
    app.PresentUI();
    var threw := app.ModelAdded(model);
    assert !threw && app.buttonEnabled && !app.toggled;
    app.ToggleButtonClicked();
    assert app.toggled && app.mainShown;
    app.ToggleButtonClicked();
    assert !app.toggled && !app.mainShown;
    app.ModelRemoved(model);
  }
}
