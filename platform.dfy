/** The JavaScript side of alphaTab's global environment
    (Source/AlphaTab.JavaScript/Environment.cs): the static state it sets up
    and the callbacks that later update it. */
module Platform {
  import opened Wrappers
  import StackTrace
  import Registry
  import opened ScriptLocator
  import opened FontCheck

  /** The static members of `Environment` as one object, together with the
      parts of the page that the font detector owns (the probe element and the
      callbacks it has registered) and the number of console warnings. */
  class Environment {
    var scriptFile: Option<string>
    var isFontLoaded: bool
    var renderEngines: Registry.Registry
    var fileLoaders: Registry.Registry
    var warnings: nat

    var probe: bool
    var probesCreated: nat
    var timers: nat
    var listening: bool
    var awaiting: bool

    /** The font detector's view of this object. */
    function Font(): FontState
      reads this
    {
      FontState(isFontLoaded, probe, probesCreated, timers, listening, awaiting)
    }

    /** The static fields before PlatformInit: null, false, empty registries. */
    constructor ()
      ensures scriptFile == None && renderEngines == map[] && fileLoaders == map[]
      ensures warnings == 0 && Font() == Initial
    {
      scriptFile := None;
      isFontLoaded := false;
      renderEngines := map[];
      fileLoaders := map[];
      warnings := 0;
      probe, probesCreated, timers, listening, awaiting := false, 0, 0, false, false;
    }

    /** Environment.PlatformInit (lines 39-99): registers the factories, starts
        the font detection and looks for the script URL. */
    method PlatformInit(host: Host)
      modifies this
      ensures renderEngines ==
              old(renderEngines)["svg" := Registry.FontSvgCanvas]["default" := Registry.FontSvgCanvas]
                                ["html5" := Registry.Html5Canvas]
      ensures fileLoaders == old(fileLoaders)["default" := Registry.JsFileLoader]
      ensures Font() == CheckFontLoad(old(Font()), host.isWorker, host.fontsApi)
      ensures var r := Resolve(old(scriptFile), host);
              scriptFile == r.scriptFile && warnings == old(warnings) + (if r.warned then 1 else 0)
    {
      RegisterFactories();
      StartFontCheck(host.isWorker, host.fontsApi);
      LocateScript(host);
    }

    /** The registry writes of lines 41-44. */
    method RegisterFactories()
      modifies this`renderEngines, this`fileLoaders
      ensures renderEngines ==
              old(renderEngines)["svg" := Registry.FontSvgCanvas]["default" := Registry.FontSvgCanvas]
                                ["html5" := Registry.Html5Canvas]
      ensures fileLoaders == old(fileLoaders)["default" := Registry.JsFileLoader]
    {
      renderEngines := Registry.Register(renderEngines, "svg", Registry.FontSvgCanvas);
      renderEngines := Registry.Register(renderEngines, "default", Registry.FontSvgCanvas);
      renderEngines := Registry.Register(renderEngines, "html5", Registry.Html5Canvas);
      fileLoaders := Registry.Register(fileLoaders, "default", Registry.JsFileLoader);
    }

    /** The script lookup of lines 51-98. */
    method LocateScript(host: Host)
      modifies this`scriptFile, this`warnings
      ensures var r := Resolve(old(scriptFile), host);
              scriptFile == r.scriptFile && warnings == old(warnings) + (if r.warned then 1 else 0)
    {
      if host.hasDocument {
        var scriptElement := host.currentScript;
        if scriptElement.None? {
          // the `try` block: read the stack of a new error, throw the error when it is falsy
          if HasStack(host.freshStack) {
            scriptFile := StackTrace.ScriptFileFromStack(host.freshStack.value, host.regex);
          } else {
            // the `catch` block: read the stack of the thrown error again
            if !HasStack(host.thrownStack) {
              scriptElement := host.marker;
            } else {
              scriptFile := StackTrace.ScriptFileFromStack(host.thrownStack.value, host.regex);
            }
          }
        }
        if IsNullOrEmpty(scriptFile) {
          if scriptElement.None? {
            warnings := warnings + 1;
          } else {
            scriptFile := Some(scriptElement.value.src);
          }
        }
      }
    }

    /** Environment.CheckFontLoad (lines 120-185). */
    method StartFontCheck(isWorker: bool, fontsApi: bool)
      modifies this`isFontLoaded, this`awaiting, this`listening
      ensures Font() == CheckFontLoad(old(Font()), isWorker, fontsApi)
    {
      if isWorker {
        isFontLoaded := false;
        return;
      }
      if fontsApi {
        awaiting := true;
      } else {
        listening := true;
      }
    }

    /** The `checkFont` closure (lines 145-179). */
    method CheckFontStep(width: int)
      modifies this`isFontLoaded, this`probe, this`probesCreated, this`timers
      ensures Font() == CheckFont(old(Font()), width)
    {
      if !probe {
        probe := true;
        probesCreated := probesCreated + 1;
      }
      if width > 30 && width < 100 {
        isFontLoaded := true;
        probe := false;
      } else {
        timers := timers + 1;
      }
    }

    /** The `onLoaded` callback given to `document.fonts.load(...).then` (lines 135-140). */
    method OnFontsLoaded()
      requires awaiting
      modifies this`isFontLoaded, this`awaiting
      ensures Font() == Deliver(old(Font()), FontsLoaded)
    {
      awaiting := false;
      isFontLoaded := true;
    }

    /** The `DOMContentLoaded` listener (lines 180-183). */
    method OnDomContentLoaded(width: int)
      requires listening
      modifies this`isFontLoaded, this`probe, this`probesCreated, this`timers, this`listening
      ensures Font() == Deliver(old(Font()), DomReady(width))
    {
      listening := false;
      CheckFontStep(width);
    }

    /** A re-check timer firing 1000 ms after it was scheduled (lines 174-177). */
    method OnRecheck(width: int)
      requires timers > 0
      modifies this`isFontLoaded, this`probe, this`probesCreated, this`timers
      ensures Font() == Deliver(old(Font()), Timer(width))
    {
      timers := timers - 1;
      CheckFontStep(width);
    }

    /** The host's event loop running the pending re-checks in turn, `widths`
        being what each measurement finds; it stops when none is pending. */
    method RunRechecks(widths: seq<int>) returns (fired: nat)
      modifies this`isFontLoaded, this`probe, this`probesCreated, this`timers
      ensures fired <= |widths|
      ensures Font() == Run(old(Font()), Rechecks(widths))
      ensures fired < |widths| ==> timers == 0
    {
      fired := 0;
      while fired < |widths| && timers > 0
        invariant fired <= |widths|
        invariant Font() == Run(old(Font()), Rechecks(widths[..fired]))
      {
        OnRecheck(widths[fired]);
        RechecksPrefix(widths, fired);
        RunAppend(old(Font()), Rechecks(widths[..fired]), Timer(widths[fired]));
        fired := fired + 1;
      }
      if fired < |widths| {
        SkippedRechecks(Font(), widths[fired..]);
        RechecksSplit(widths, fired);
        RunSplit(old(Font()), Rechecks(widths[..fired]), Rechecks(widths[fired..]));
      } else {
        assert widths[..fired] == widths;
      }
    }
  }

  lemma RechecksPrefix(widths: seq<int>, k: nat)
    requires k < |widths|
    ensures Rechecks(widths[..k + 1]) == Rechecks(widths[..k]) + [Timer(widths[k])]
  {
  }

  lemma RechecksSplit(widths: seq<int>, k: nat)
    requires k <= |widths|
    ensures Rechecks(widths) == Rechecks(widths[..k]) + Rechecks(widths[k..])
  {
  }

  lemma {:induction false} RunSplit(s: FontState, first: seq<Event>, second: seq<Event>)
    ensures Run(s, first + second) == Run(Run(s, first), second)
    decreases |first|
  {
    if first == [] {
      assert first + second == second;
    } else {
      assert (first + second)[1..] == first[1..] + second;
      if Enabled(s, first[0]) {
        RunSplit(Deliver(s, first[0]), first[1..], second);
      } else {
        RunSplit(s, first[1..], second);
      }
    }
  }

  /** Re-checks that are not pending never fire. */
  lemma {:induction false} SkippedRechecks(s: FontState, widths: seq<int>)
    requires s.timers == 0
    ensures Run(s, Rechecks(widths)) == s
    decreases |widths|
  {
    if widths != [] {
      assert Rechecks(widths)[1..] == Rechecks(widths[1..]);
      SkippedRechecks(s, widths[1..]);
    }
  }
}
