/** A worked example of two window switches with every display setting on and
    the timestamp held: main.py in the solution demo.sln, then util.go. */
module WorkedExample {
  import opened Wrappers
  import opened PathNames
  import opened Configuration
  import opened DiscordRpc
  import opened RpcPackage

  /** All display flags on, reset off. */
  const ExampleConfig: Config := Config(true, true, true, true, false, true)

  /** First step: main.py focused in the solution demo.sln at t0. */
  lemma FirstSwitchExample(t0: int)
    ensures var first := OnWindowSwitch(ExampleConfig, Some("main.py"), Some("demo.sln"), Unstamped, t0);
      && first.presence == RichPresence(Some("Developing demo"), Some("main.py"), t0,
                                        Some("python"), Some("python"),
                                        Some("visualstudio"), Some("Visual Studio"))
      && first.stamp == TimestampState(true, t0)
      && first.calls == [Update(first.presence)]
  {
    FirstSwitchImage(t0);
    FirstSwitchText(t0);
  }

  lemma FirstSwitchImage(t0: int)
    ensures var first := OnWindowSwitch(ExampleConfig, Some("main.py"), Some("demo.sln"), Unstamped, t0);
      first.presence.largeImageKey == Some("python") && first.presence.largeImageText == Some("python")
  {
    ExtensionExamples();
    assert LanguageImage(".py") == ("python", "python") by {
      LanguageImageMapped(2);
    }
  }

  lemma FirstSwitchText(t0: int)
    ensures var first := OnWindowSwitch(ExampleConfig, Some("main.py"), Some("demo.sln"), Unstamped, t0);
      first.presence.details == Some("main.py") && first.presence.state == Some("Developing demo")
  {
    FileNameExample();
    FileNameWithoutExtensionExample();
    assert DevelopingPrefix + "demo" == "Developing demo";
  }

  /** Second step: util.go focused later, at t1, from the timestamp state the
      first step left; the language image and the details change, the solution
      and the start instant t0 stay. */
  lemma SecondSwitchExample(t0: int, t1: int)
    ensures var first := OnWindowSwitch(ExampleConfig, Some("main.py"), Some("demo.sln"), Unstamped, t0);
      var second := OnWindowSwitch(ExampleConfig, Some("util.go"), Some("demo.sln"), first.stamp, t1);
      && second.presence == RichPresence(Some("Developing demo"), Some("util.go"), t0,
                                         Some("go"), Some("go"),
                                         Some("visualstudio"), Some("Visual Studio"))
      && second.stamp == first.stamp
      && second.calls == [Update(second.presence)]
  {
    FirstSwitchExample(t0);
    SecondSwitchImage(t0, t1);
    SecondSwitchText(t0, t1);
  }

  lemma SecondSwitchImage(t0: int, t1: int)
    ensures var second := OnWindowSwitch(ExampleConfig, Some("util.go"), Some("demo.sln"),
                                         TimestampState(true, t0), t1);
      second.presence.largeImageKey == Some("go") && second.presence.largeImageText == Some("go")
  {
    ExtensionExamples();
    assert LanguageImage(".go") == ("go", "go") by {
      LanguageImageMapped(7);
    }
  }

  lemma SecondSwitchText(t0: int, t1: int)
    ensures var second := OnWindowSwitch(ExampleConfig, Some("util.go"), Some("demo.sln"),
                                         TimestampState(true, t0), t1);
      second.presence.details == Some("util.go") && second.presence.state == Some("Developing demo")
  {
    FileNameExample();
    FileNameWithoutExtensionExample();
    assert DevelopingPrefix + "demo" == "Developing demo";
  }
}
