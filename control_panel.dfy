/** `ControlPanel` of the `ui` package: it owns no parameter of its own and forwards
    every edit, after parsing, clamping or validation, to the main window's setters. A
    field that does not read as a number is given as None. */
module ControlPanelUi {
  import opened Common
  import opened HexColor
  import opened Viewers
  import opened MainWindowUi

  class ControlPanel {
    const mainWindow: MainWindow

    constructor (mainWindow: MainWindow)
      ensures this.mainWindow == mainWindow
    {
      this.mainWindow := mainWindow;
    }

    /** `on_slider_change_real`: a number is stored unchanged; anything else is ignored. */
    method OnSliderChangeReal(value: Option<real>)
      modifies mainWindow
      ensures value.None? ==> mainWindow.Model() == old(mainWindow.Model())
      ensures value.Some? ==> mainWindow.Model() == old(mainWindow.Model()).(cReal := value.value)
    {
      if value.Some? {
        mainWindow.SetRealParam(value.value);
      }
    }

    /** `on_slider_change_imag`: a number is stored unchanged; anything else is ignored. */
    method OnSliderChangeImag(value: Option<real>)
      modifies mainWindow
      ensures value.None? ==> mainWindow.Model() == old(mainWindow.Model())
      ensures value.Some? ==> mainWindow.Model() == old(mainWindow.Model()).(cImag := value.value)
    {
      if value.Some? {
        mainWindow.SetImagParam(value.value);
      }
    }

    /** `on_entry_change`: both fields are read first, then both are stored clamped into
        [−2, 2]. */
    method OnEntryChange(realIn: Option<real>, imagIn: Option<real>)
      modifies mainWindow
      ensures mainWindow.Model() == EntryChangeSpec(old(mainWindow.Model()), realIn, imagIn)
    {
      if realIn.None? || imagIn.None? {
        return;
      }
      mainWindow.SetRealParam(ClampReal(-2.0, 2.0, realIn.value));
      mainWindow.SetImagParam(ClampReal(-2.0, 2.0, imagIn.value));
    }

    /** `on_iter_change`: stores max(1, value). */
    method OnIterChange(iterIn: Option<int>)
      modifies mainWindow
      ensures mainWindow.Model() == IterChangeSpec(old(mainWindow.Model()), iterIn)
    {
      if iterIn.Some? {
        mainWindow.SetMaxIterParam(AtLeastOne(iterIn.value));
      }
    }

    /** `on_color_change_start`: only an invalid start colour is replaced, by blue. */
    method OnColorChangeStart()
      modifies mainWindow
      ensures mainWindow.Model() == ValidateStartSpec(old(mainWindow.Model()))
      ensures IsValidHexColor(mainWindow.startColor)
    {
      if !IsValidHexColor(mainWindow.startColor) {
        mainWindow.SetStartColorParam(DefaultStartColor);
      }
    }

    /** `on_color_change_end`: only an invalid end colour is replaced, by white. */
    method OnColorChangeEnd()
      modifies mainWindow
      ensures mainWindow.Model() == ValidateEndSpec(old(mainWindow.Model()))
      ensures IsValidHexColor(mainWindow.endColor)
    {
      if !IsValidHexColor(mainWindow.endColor) {
        mainWindow.SetEndColorParam(DefaultEndColor);
      }
    }

    /** The `リセット` button: `reset_params` of the main window. */
    method ResetParams()
      modifies mainWindow
      ensures mainWindow.Model() == InitialSettings.(panStart := old(mainWindow.panStart))
    {
      mainWindow.ResetParams();
    }
  }
}
