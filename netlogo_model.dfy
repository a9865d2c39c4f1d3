/** The single-model NetLogo embed: it drives one embedded simulation and
    pushes the CO2 level into its `co2-level` variable. Sending a command
    appends it to `outbox`; delivery to the embedded frame is outside the
    model. */
module NetLogoModel {
  import opened Wrappers
  import NetLogoCommands

  const DefaultModelUrl: string :=
    "https://www.netlogoweb.org/launch#https://www.netlogoweb.org/assets/modelslib/Sample%20Models/Earth%20Science/Climate%20Change.nlogo"

  const LoadError: string := "Failed to load NetLogo model. Please check the model URL."

  class Embed {
    /** The model URL property; the component never changes it. */
    const modelUrl: string
    var isLoaded: bool
    var isRunning: bool
    var error: Option<string>
    /** Commands sent to the embedded model, oldest first. */
    var outbox: seq<string>

    constructor (modelUrl: string := DefaultModelUrl)
      ensures this.modelUrl == modelUrl
      ensures !isLoaded && !isRunning && error == None && outbox == []
    {
      this.modelUrl := modelUrl;
      isLoaded := false;
      isRunning := false;
      error := None;
      outbox := [];
    }

    /** The "Model Status" line. */
    function Status(): (s: string)
      reads this
      ensures s == "Running" <==> isLoaded && isRunning
      ensures s == "Ready" <==> isLoaded && !isRunning
      ensures s == "Loading..." <==> !isLoaded
    {
      NetLogoCommands.StatusText(isLoaded, isRunning)
    }

    method SendCommand(command: string)
      modifies this`outbox
      ensures outbox == old(outbox) + [command]
    {
      outbox := outbox + [command];
    }

    /** The CO2 effect: while the model is loaded, set `co2-level` and ask
        for a redraw. */
    method SyncCo2(co2: int)
      modifies this`outbox
      ensures isLoaded ==> outbox == old(outbox) + [
        NetLogoCommands.SetCommand("co2-level", co2), NetLogoCommands.UpdateDisplay]
      ensures !isLoaded ==> outbox == old(outbox)
    {
      if isLoaded {
        SendCommand(NetLogoCommands.SetCommand("co2-level", co2));
        SendCommand(NetLogoCommands.UpdateDisplay);
      }
    }

    method HandlePlay()
      modifies this`outbox, this`isRunning
      ensures outbox == old(outbox) + ["go"] && isRunning
    {
      SendCommand("go");
      isRunning := true;
    }

    method HandlePause()
      modifies this`outbox, this`isRunning
      ensures outbox == old(outbox) + ["stop"] && !isRunning
    {
      SendCommand("stop");
      isRunning := false;
    }

    /** The play/pause button: pause when running, play otherwise. */
    method TogglePlay()
      modifies this`outbox, this`isRunning
      ensures outbox == old(outbox) + [if old(isRunning) then "stop" else "go"]
      ensures isRunning == !old(isRunning)
    {
      if isRunning {
        HandlePause();
      } else {
        HandlePlay();
      }
    }

    method HandleReset()
      modifies this`outbox, this`isRunning
      ensures outbox == old(outbox) + ["reset-ticks", "setup"] && !isRunning
    {
      SendCommand("reset-ticks");
      SendCommand("setup");
      isRunning := false;
    }

    method HandleSetup()
      modifies this`outbox, this`isRunning
      ensures outbox == old(outbox) + ["setup"] && !isRunning
    {
      SendCommand("setup");
      isRunning := false;
    }

    /** The frame reported that the model loaded. */
    method HandleLoad()
      modifies this`isLoaded, this`error
      ensures isLoaded && error == None
    {
      isLoaded := true;
      error := None;
    }

    /** The frame reported a load failure. */
    method HandleError()
      modifies this`isLoaded, this`error
      ensures !isLoaded && error == Some(LoadError)
    {
      error := Some(LoadError);
      isLoaded := false;
    }
  }
}
