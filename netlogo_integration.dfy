/** The NetLogo integration panel: choose or upload a model, drive the
    embedded simulation with commands, and push the CO2 level into it.
    Sending a command appends it to `outbox`; delivery to the embedded frame
    is outside the model. */
module NetLogoIntegration {
  import opened Wrappers
  import NetLogoCommands

  const ClimateChangeUrl: string :=
    "https://www.netlogoweb.org/launch#https://www.netlogoweb.org/assets/modelslib/Sample%20Models/Earth%20Science/Climate%20Change.nlogo"

  const UploadError: string := "Please upload a valid .nlogo file"
  const HostingError: string :=
    "Custom model upload requires NetLogo Web hosting. Please use the default models or host your model on NetLogo Web."
  const LoadError: string :=
    "Failed to load NetLogo model. Please check the model URL or try a different model."

  /** An uploaded file, of which only the name matters here. */
  datatype File = File(name: string)

  datatype ModelEntry = ModelEntry(name: string, url: string, description: string)

  const NlogoSuffix: string := ".nlogo"

  /** `name.endsWith('.nlogo')`. */
  predicate IsNlogoName(name: string)
    ensures IsNlogoName(name) ==> |NlogoSuffix| <= |name| && name == name[..|name| - |NlogoSuffix|] + NlogoSuffix
  {
    |NlogoSuffix| <= |name| && name[|name| - |NlogoSuffix|..] == NlogoSuffix
  }

  /** Any stem followed by ".nlogo" is accepted. */
  lemma NlogoNameCharacterized(stem: string)
    ensures IsNlogoName(stem + NlogoSuffix)
  {
    assert (stem + NlogoSuffix)[|stem|..] == NlogoSuffix;
  }

  class Bridge {
    var modelUrl: string
    var customModel: Option<File>
    var isLoaded: bool
    var isRunning: bool
    var error: Option<string>
    var modelInfo: Option<ModelEntry>
    /** Commands sent to the embedded model, oldest first. */
    var outbox: seq<string>

    constructor ()
      ensures modelUrl == ClimateChangeUrl && customModel == None
      ensures !isLoaded && !isRunning && error == None && modelInfo == None
      ensures outbox == []
    {
      modelUrl := ClimateChangeUrl;
      customModel := None;
      isLoaded := false;
      isRunning := false;
      error := None;
      modelInfo := None;
      outbox := [];
    }

    /** The "Model Status" line. */
    function Status(): (s: string)
      reads this
      ensures s == "Running" <==> isLoaded && isRunning
      ensures s == "Ready" <==> isLoaded && !isRunning
      ensures s == "Loading..." <==> !isLoaded
    {
      NetLogoCommands.StatusText(isLoaded, isRunning)
    }

    method SendCommand(command: string)
      modifies this`outbox
      ensures outbox == old(outbox) + [command]
    {
      outbox := outbox + [command];
    }

    /** `commands.forEach(sendCommand)`: sends each command in turn. */
    method SendAll(commands: seq<string>)
      modifies this`outbox
      ensures outbox == old(outbox) + commands
    {
      var i := 0;
      while i < |commands|
        invariant 0 <= i <= |commands|
        invariant outbox == old(outbox) + commands[..i]
      {
        SendCommand(commands[i]);
        i := i + 1;
      }
      assert commands[..i] == commands;
    }

    /** The file input's change handler; `file` is the first selected file,
        if any. */
    method HandleFileUpload(file: Option<File>)
      modifies this`customModel, this`error
      ensures file.Some? && IsNlogoName(file.value.name) ==>
        customModel == file && error == None
      ensures !(file.Some? && IsNlogoName(file.value.name)) ==>
        customModel == old(customModel) && error == Some(UploadError)
    {
      if file.Some? && IsNlogoName(file.value.name) {
        customModel := file;
        error := None;
      } else {
        error := Some(UploadError);
      }
    }

    /** Loading a custom model is not supported: with a model selected it
        reports that hosting is required, otherwise it does nothing. */
    method LoadCustomModel()
      modifies this`error
      ensures customModel == None ==> error == old(error)
      ensures customModel != None ==> error == Some(HostingError)
    {
      if customModel == None {
        return;
      }
      error := Some(HostingError);
    }

    /** The CO2 effect: while the model is loaded, try each common name of
        the CO2 variable in turn, then ask for a redraw. */
    method SyncCo2(co2: int)
      modifies this`outbox
      ensures isLoaded ==> outbox == old(outbox) + [
        NetLogoCommands.SetCommand("co2-level", co2),
        NetLogoCommands.SetCommand("co2", co2),
        NetLogoCommands.SetCommand("carbon-dioxide", co2),
        NetLogoCommands.SetCommand("greenhouse-gas", co2),
        NetLogoCommands.SetCommand("pollution", co2),
        NetLogoCommands.UpdateDisplay]
      ensures !isLoaded ==> outbox == old(outbox)
    {
      if isLoaded {
        var co2Commands := [
          NetLogoCommands.SetCommand("co2-level", co2),
          NetLogoCommands.SetCommand("co2", co2),
          NetLogoCommands.SetCommand("carbon-dioxide", co2),
          NetLogoCommands.SetCommand("greenhouse-gas", co2),
          NetLogoCommands.SetCommand("pollution", co2)];
        SendAll(co2Commands);
        SendCommand(NetLogoCommands.UpdateDisplay);
      }
    }

    method HandlePlay()
      modifies this`outbox, this`isRunning
      ensures outbox == old(outbox) + ["go"] && isRunning
    {
      SendCommand("go");
      isRunning := true;
    }

    method HandlePause()
      modifies this`outbox, this`isRunning
      ensures outbox == old(outbox) + ["stop"] && !isRunning
    {
      SendCommand("stop");
      isRunning := false;
    }

    /** The play/pause button: pause when running, play otherwise. */
    method TogglePlay()
      modifies this`outbox, this`isRunning
      ensures outbox == old(outbox) + [if old(isRunning) then "stop" else "go"]
      ensures isRunning == !old(isRunning)
    {
      if isRunning {
        HandlePause();
      } else {
        HandlePlay();
      }
    }

    method HandleReset()
      modifies this`outbox, this`isRunning
      ensures outbox == old(outbox) + ["reset-ticks", "setup"] && !isRunning
    {
      SendCommand("reset-ticks");
      SendCommand("setup");
      isRunning := false;
    }

    method HandleSetup()
      modifies this`outbox, this`isRunning
      ensures outbox == old(outbox) + ["setup"] && !isRunning
    {
      SendCommand("setup");
      isRunning := false;
    }

    /** The frame reported that the model loaded. */
    method HandleLoad()
      modifies this`isLoaded, this`error
      ensures isLoaded && error == None
    {
      isLoaded := true;
      error := None;
    }

    /** The frame reported a load failure. */
    method HandleError()
      modifies this`isLoaded, this`error
      ensures !isLoaded && error == Some(LoadError)
    {
      error := Some(LoadError);
      isLoaded := false;
    }

    method HandleModelSelect(model: ModelEntry)
      modifies this`modelUrl, this`modelInfo, this`isLoaded, this`error
      ensures modelUrl == model.url && modelInfo == Some(model)
      ensures !isLoaded && error == None
    {
      modelUrl := model.url;
      modelInfo := Some(model);
      isLoaded := false;
      error := None;
    }

    /** The URL field's change handler. */
    method SetModelUrl(url: string)
      modifies this`modelUrl
      ensures modelUrl == url
    {
      modelUrl := url;
    }
  }
}
