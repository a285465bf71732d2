/** The package (DiscordRPCVSPackage.cs): the extension-to-image table, the
    window-switch handler that rebuilds the presence, the start-up step and the
    close step. Host services (DTE events, the clock, the filesystem) become
    parameters. */
module RpcPackage {
  import opened Wrappers
  import opened PathNames
  import opened Configuration
  import opened DiscordRpc

  // ---------------------------------------------------------------------------
  // The Languages dictionary
  // ---------------------------------------------------------------------------

  /** The entries of the dictionary initializer, in source order. */
  const LanguageEntries: seq<(string, string)> := [
    (".cs", "c-sharp"),
    (".cpp", "cpp"),
    (".py", "python"),
    (".js", "javascript"),
    (".html", "html"),
    (".css", "css"),
    (".java", "java"),
    (".go", "go"),
    (".php", "php"),
    (".c", "clang"),
    (".h", "clang"),
    (".class", "java")
  ]

  ghost predicate DistinctKeys(entries: seq<(string, string)>) {
    forall i, j :: 0 <= i < j < |entries| ==> entries[i].0 != entries[j].0
  }

  ghost function Keys(entries: seq<(string, string)>): set<string> {
    set i | 0 <= i < |entries| :: entries[i].0
  }

  /** A collection initializer calls Dictionary.Add once per entry, and Add throws
      on a key already present; None stands for that exception. */
  function AddAll(d: map<string, string>, entries: seq<(string, string)>): (r: Option<map<string, string>>)
    ensures r.Some? <==> DistinctKeys(entries) && Keys(entries) !! d.Keys
    ensures r.Some? ==> r.value.Keys == d.Keys + Keys(entries)
    ensures r.Some? ==> forall k :: k in d ==> r.value[k] == d[k]
    ensures r.Some? ==> forall i :: 0 <= i < |entries| ==> r.value[entries[i].0] == entries[i].1
    decreases |entries|
  {
    if |entries| == 0 then Some(d)
    else if entries[0].0 in d then
      assert entries[0].0 in Keys(entries);
      None
    else
      SplitEntries(entries);
      AddAll(d[entries[0].0 := entries[0].1], entries[1..])
  }

  /** The first entry, then the rest: how keys and distinctness decompose. */
  lemma SplitEntries(entries: seq<(string, string)>)
    requires |entries| > 0
    ensures Keys(entries) == {entries[0].0} + Keys(entries[1..])
    ensures DistinctKeys(entries) <==> DistinctKeys(entries[1..]) && entries[0].0 !in Keys(entries[1..])
    ensures forall i :: 1 <= i < |entries| ==> entries[1..][i - 1] == entries[i]
  {
    var rest := entries[1..];
    forall k | k in Keys(entries) ensures k in {entries[0].0} + Keys(rest) {
      var i :| 0 <= i < |entries| && entries[i].0 == k;
      if i > 0 { assert rest[i - 1].0 == k; }
    }
    if DistinctKeys(rest) && entries[0].0 !in Keys(rest) {
      forall i, j | 0 <= i < j < |entries| ensures entries[i].0 != entries[j].0 {
        if i == 0 {
          assert rest[j - 1].0 == entries[j].0;
        } else {
          assert rest[i - 1] == entries[i] && rest[j - 1] == entries[j];
        }
      }
    }
    if DistinctKeys(entries) {
      forall k | k in Keys(rest) ensures k != entries[0].0 {
        var i :| 0 <= i < |rest| && rest[i].0 == k;
        assert entries[i + 1].0 == k;
      }
    }
  }

  /** Constructing the Languages dictionary does not throw: the twelve extensions
      are pairwise distinct. */
  lemma {:induction false} LanguagesConstructed()
    ensures AddAll(map[], LanguageEntries).Some?
  {
    LanguageKeysDistinct();
  }

  lemma {:induction false} LanguageKeysDistinct()
    ensures DistinctKeys(LanguageEntries)
  {
    forall i | 0 <= i < |LanguageEntries| {
      KeyDiffersFromLater(i);
    }
  }

  lemma KeyDiffersFromLater(i: nat)
    requires i < |LanguageEntries|
    ensures forall j :: i < j < |LanguageEntries| ==> LanguageEntries[i].0 != LanguageEntries[j].0
  {
  }

  /** The dictionary the package holds, as a map. */
  const Languages: map<string, string> := map[
    ".cs" := "c-sharp", ".cpp" := "cpp", ".py" := "python", ".js" := "javascript",
    ".html" := "html", ".css" := "css", ".java" := "java", ".go" := "go",
    ".php" := "php", ".c" := "clang", ".h" := "clang", ".class" := "java"]

  /** The map holds exactly the initializer's pairs. */
  lemma {:induction false} LanguagesHoldEntries()
    ensures Languages.Keys == Keys(LanguageEntries)
    ensures forall i :: 0 <= i < |LanguageEntries| ==> Languages[LanguageEntries[i].0] == LanguageEntries[i].1
  {
    forall i | 0 <= i < |LanguageEntries|
      ensures LanguageEntries[i].0 in Languages && Languages[LanguageEntries[i].0] == LanguageEntries[i].1
    {
      EntryListed(i);
    }
    forall k | k in Languages ensures k in Keys(LanguageEntries) {
      var i := ListedEntry(k);
    }
  }

  /** The Languages map is the dictionary the initializer builds. */
  lemma {:induction false} LanguagesBuilt()
    ensures AddAll(map[], LanguageEntries) == Some(Languages)
  {
    LanguageKeysDistinct();
    LanguagesHoldEntries();
    BuiltFromEntries(LanguageEntries, Languages);
  }

  /** Adding distinct entries to an empty dictionary builds the one map that has
      exactly their keys and agrees with every entry. */
  lemma BuiltFromEntries(entries: seq<(string, string)>, m: map<string, string>)
    requires DistinctKeys(entries)
    requires m.Keys == Keys(entries)
    requires forall i :: 0 <= i < |entries| ==> m[entries[i].0] == entries[i].1
    ensures AddAll(map[], entries) == Some(m)
  {
    var r := AddAll(map[], entries);
    assert r.Some?;
    SameOnEntries(r.value, m, entries);
  }

  /** Two maps whose keys are those of an entry list and which agree with it on
      every entry are equal. */
  lemma SameOnEntries(a: map<string, string>, b: map<string, string>, entries: seq<(string, string)>)
    requires a.Keys == Keys(entries) && b.Keys == Keys(entries)
    requires forall i :: 0 <= i < |entries| ==> a[entries[i].0] == entries[i].1
    requires forall i :: 0 <= i < |entries| ==> b[entries[i].0] == entries[i].1
    ensures a == b
  {
    forall k | k in a ensures a[k] == b[k] {
      var i :| 0 <= i < |entries| && entries[i].0 == k;
    }
  }

  lemma EntryListed(i: nat)
    requires i < |LanguageEntries|
    ensures LanguageEntries[i].0 in Languages && Languages[LanguageEntries[i].0] == LanguageEntries[i].1
  {
  }

  lemma ListedEntry(k: string) returns (i: nat)
    requires k in Languages
    ensures i < |LanguageEntries| && LanguageEntries[i].0 == k
  {
    i := if k == ".cs" then 0 else if k == ".cpp" then 1 else if k == ".py" then 2
      else if k == ".js" then 3 else if k == ".html" then 4 else if k == ".css" then 5
      else if k == ".java" then 6 else if k == ".go" then 7 else if k == ".php" then 8
      else if k == ".c" then 9 else if k == ".h" then 10 else 11;
  }

  /** The image shown for the language: the ContainsKey lookups of the handler,
      giving the key and the caption. */
  function LanguageImage(ext: string): (string, string) {
    if ext in Languages then (Languages[ext], Languages[ext]) else ("smallvs", "")
  }

  /** A listed extension gets its language's key, captioned with that same key. */
  lemma {:induction false} LanguageImageMapped(i: nat)
    requires i < |LanguageEntries|
    ensures LanguageImage(LanguageEntries[i].0) == (LanguageEntries[i].1, LanguageEntries[i].1)
  {
    EntryListed(i);
  }

  /** Any other extension, "" included, gets the fallback key and an empty caption. */
  lemma {:induction false} LanguageImageUnmapped(ext: string)
    requires forall i :: 0 <= i < |LanguageEntries| ==> LanguageEntries[i].0 != ext
    ensures LanguageImage(ext) == ("smallvs", "")
  {
    if ext in Languages {
      var i := ListedEntry(ext);
    }
  }

  /** C sources and C headers share the "clang" image; no document means no
      extension and so the fallback; the lookup is case-sensitive, so ".CS"
      also falls back. */
  lemma {:induction false} LanguageImageExamples()
    ensures LanguageImage(".c") == ("clang", "clang")
    ensures LanguageImage(".h") == ("clang", "clang")
    ensures LanguageImage(".go") == ("go", "go")
    ensures LanguageImage("") == ("smallvs", "")
    ensures LanguageImage(".CS") == ("smallvs", "")
  {
    LanguageImageMapped(7);
    LanguageImageMapped(9);
    LanguageImageMapped(10);
    LanguageImageUnmapped("");
    LanguageImageUnmapped(".CS");
  }

  // ---------------------------------------------------------------------------
  // The window-switch handler
  // ---------------------------------------------------------------------------

  /** InitializedTimestamp and InitialTimestamp. */
  datatype TimestampState = TimestampState(initialized: bool, initial: int)

  const Unstamped: TimestampState := TimestampState(false, 0)

  /** What one window switch produces: the new presence, the new timestamp state
      and the client calls made. */
  datatype Switched = Switched(presence: RichPresence, stamp: TimestampState, calls: seq<ClientCall>)

  const DevelopingPrefix: string := "Developing "

  /** GetExactPathName only restores the on-disk casing of an existing path, which
      is a filesystem query; the model keeps the path as given. */
  function ExactPathName(path: string): string {
    path
  }

  /** The two images: the language image takes the large role exactly when
      `languageIsLarge`, and the Visual Studio image takes the other. Nothing
      else of the blank record is set. */
  function WithImages(languageIsLarge: bool, image: (string, string)): (p: RichPresence)
    ensures var language := (Some(image.0), Some(image.1));
      var studio := (Some("visualstudio"), Some("Visual Studio"));
      && (p.largeImageKey, p.largeImageText) == (if languageIsLarge then language else studio)
      && (p.smallImageKey, p.smallImageText) == (if languageIsLarge then studio else language)
    ensures p.details.None? && p.state.None? && p.startTimestamp == Blank.startTimestamp
  {
    if languageIsLarge then
      Blank.(largeImageKey := Some(image.0), largeImageText := Some(image.1),
             smallImageKey := Some("visualstudio"), smallImageText := Some("Visual Studio"))
    else
      Blank.(largeImageKey := Some("visualstudio"), largeImageText := Some("Visual Studio"),
             smallImageKey := Some(image.0), smallImageText := Some(image.1))
  }

  /** The two optional texts: details is the document's file name when file
      names are shown and a document is open; state names the solution when
      projects are shown and there is a solution. Nothing else changes. */
  function WithText(config: Config, p: RichPresence, document: Option<string>, solution: Option<string>)
    : (r: RichPresence)
    requires p.details.None? && p.state.None?
    ensures r == p.(details := r.details, state := r.state)
    ensures r.details.Some? <==> config.displayFileName && document.Some?
    ensures r.details.Some? ==> r.details.value == FileName(document.value)
    ensures r.state.Some? <==> config.displayProject && solution.Some?
    ensures r.state.Some? ==> r.state.value == DevelopingPrefix + FileNameWithoutExtension(solution.value)
  {
    var p := if config.displayFileName && document.Some?
      then p.(details := Some(FileName(ExactPathName(document.value)))) else p;
    if config.displayProject && solution.Some?
      then p.(state := Some(DevelopingPrefix + FileNameWithoutExtension(solution.value))) else p
  }

  /** The timestamp part of the handler, in the source's two steps: first
      capture the instant if it has not been captured, then either reset to
      `now` or hold the captured instant. Only startTimestamp changes. */
  function WithTimestamp(config: Config, p: RichPresence, ts: TimestampState, now: int)
    : (r: (RichPresence, TimestampState))
    requires p.startTimestamp == Blank.startTimestamp
    ensures r.0 == p.(startTimestamp := r.0.startTimestamp)
    ensures r.0.startTimestamp ==
              if !config.displayTimestamp then Blank.startTimestamp
              else if config.resetTimestamp || !ts.initialized then now
              else ts.initial
    ensures r.1.initialized <==> ts.initialized || config.displayTimestamp
    ensures ts.initialized || !config.displayTimestamp ==> r.1 == ts
    ensures !ts.initialized && config.displayTimestamp ==> r.1.initial == now
  {
    // Initialize timestamp
    var (p, ts) := if config.displayTimestamp && !ts.initialized
      then (p.(startTimestamp := now), TimestampState(true, now)) else (p, ts);
    // Reset it, or hold it at the initial instant
    var p :=
      if config.resetTimestamp && ts.initialized && config.displayTimestamp then p.(startTimestamp := now)
      else if config.displayTimestamp && !config.resetTimestamp then p.(startTimestamp := ts.initial)
      else p;
    (p, ts)
  }

  /** OnWindowSwitch. `document` is the activated window's Document.FullName (None
      when it has no document), `solution` the solution's FileName (None when
      there is no solution) and `now` the clock in seconds since 1970. */
  function OnWindowSwitch(config: Config, document: Option<string>, solution: Option<string>,
                          ts: TimestampState, now: int): (r: Switched)
    // Images: the language image takes the large role exactly when the flag is on.
    ensures var (key, text) := LanguageImage(if document.Some? then Extension(document.value) else "");
      var language := (Some(key), Some(text));
      var studio := (Some("visualstudio"), Some("Visual Studio"));
      && (r.presence.largeImageKey, r.presence.largeImageText)
         == (if config.displayFileTypeAsLargeImage then language else studio)
      && (r.presence.smallImageKey, r.presence.smallImageText)
         == (if config.displayFileTypeAsLargeImage then studio else language)
    // details and state: present exactly when enabled and there is something to show.
    ensures r.presence.details.Some? <==> config.displayFileName && document.Some?
    ensures r.presence.details.Some? ==> r.presence.details.value == FileName(document.value)
    ensures r.presence.state.Some? <==> config.displayProject && solution.Some?
    ensures r.presence.state.Some? ==>
              r.presence.state.value == DevelopingPrefix + FileNameWithoutExtension(solution.value)
    // The timestamp: unset when hidden, `now` when reset on every switch or at
    // the first shown switch, the stored initial instant otherwise.
    ensures r.presence.startTimestamp ==
              if !config.displayTimestamp then Blank.startTimestamp
              else if config.resetTimestamp || !ts.initialized then now
              else ts.initial
    // The state is captured once, at the first switch that shows a timestamp.
    ensures r.stamp.initialized <==> ts.initialized || config.displayTimestamp
    ensures ts.initialized || !config.displayTimestamp ==> r.stamp == ts
    ensures !ts.initialized && config.displayTimestamp ==> r.stamp.initial == now
    // Publication only while presence is enabled.
    ensures r.calls == if config.presenceEnabled then [Update(r.presence)] else []
  {
    var ext := if document.Some? then Extension(document.value) else "";
    var p := WithImages(config.displayFileTypeAsLargeImage, LanguageImage(ext));
    var p := WithText(config, p, document, solution);
    var (p, ts) := WithTimestamp(config, p, ts, now);
    Switched(p, ts, if config.presenceEnabled then [Update(p)] else [])
  }

  /** Flipping DisplayFileTypeAsLargeImage swaps the two images exactly and
      changes nothing else of the presence, the timestamp state or the calls' gating. */
  lemma ImageRolesSwap(config: Config, document: Option<string>, solution: Option<string>,
                       ts: TimestampState, now: int)
    ensures var a := OnWindowSwitch(config.(displayFileTypeAsLargeImage := true), document, solution, ts, now);
      var b := OnWindowSwitch(config.(displayFileTypeAsLargeImage := false), document, solution, ts, now);
      && a.presence.largeImageKey == b.presence.smallImageKey
      && a.presence.largeImageText == b.presence.smallImageText
      && a.presence.smallImageKey == b.presence.largeImageKey
      && a.presence.smallImageText == b.presence.largeImageText
      && a.presence.details == b.presence.details
      && a.presence.state == b.presence.state
      && a.presence.startTimestamp == b.presence.startTimestamp
      && a.stamp == b.stamp
  {
  }

  /** With the file name hidden, the next presence loses its details and nothing
      else: state, images and timestamp are those shown with the file name on. */
  lemma HidingFileNameOnlyDropsDetails(config: Config, document: Option<string>, solution: Option<string>,
                                       ts: TimestampState, now: int)
    ensures var shown := OnWindowSwitch(config.(displayFileName := true), document, solution, ts, now);
      var hidden := OnWindowSwitch(config.(displayFileName := false), document, solution, ts, now);
      && hidden.presence.details.None?
      && hidden.presence == shown.presence.(details := None)
      && hidden.stamp == shown.stamp
  {
  }

  /** Timestamps shown and not reset: a first switch at t0 captures t0, and a later
      switch at t1 still shows t0. */
  lemma TimestampHeldSteady(config: Config, d0: Option<string>, s0: Option<string>, t0: int,
                            d1: Option<string>, s1: Option<string>, t1: int)
    requires config.displayTimestamp && !config.resetTimestamp
    ensures var first := OnWindowSwitch(config, d0, s0, Unstamped, t0);
      var second := OnWindowSwitch(config, d1, s1, first.stamp, t1);
      && first.presence.startTimestamp == t0
      && second.presence.startTimestamp == t0
      && second.stamp == first.stamp == TimestampState(true, t0)
  {
  }

  /** Timestamps shown and reset on every switch: each switch shows its own
      instant, while the captured instant stays the first one. */
  lemma TimestampResetEachSwitch(config: Config, d0: Option<string>, s0: Option<string>, t0: int,
                                 d1: Option<string>, s1: Option<string>, t1: int)
    requires config.displayTimestamp && config.resetTimestamp
    ensures var first := OnWindowSwitch(config, d0, s0, Unstamped, t0);
      var second := OnWindowSwitch(config, d1, s1, first.stamp, t1);
      && first.presence.startTimestamp == t0
      && second.presence.startTimestamp == t1
      && second.stamp == TimestampState(true, t0)
  {
  }

  // ---------------------------------------------------------------------------
  // Start-up and close
  // ---------------------------------------------------------------------------

  /** The package's state between host callbacks: the settings, the settings file,
      the timestamp state and the presence last built (DiscordController.presence). */
  datatype Package = Package(config: Config, store: Store, stamp: TimestampState, presence: RichPresence)

  /** Initialize: load the settings, then, when presence is enabled, start the
      client and publish the (still blank) presence. */
  function Initialize(store: Store, largeDefault: bool): (r: (Package, seq<ClientCall>))
    ensures r.0.store == Some(r.0.config)
    ensures store.Some? ==> r.0.config == store.value
    ensures store.None? ==> r.0.config == Fresh(largeDefault)
    ensures r.0.stamp == Unstamped && r.0.presence == Blank
    ensures r.1 == if r.0.config.presenceEnabled then [Init, Update(Blank)] else []
  {
    var (config, store') := Deserialize(store, largeDefault);
    var pkg := Package(config, store', Unstamped, Blank);
    (pkg, if config.presenceEnabled then [Init, Update(pkg.presence)] else [])
  }

  /** QueryClose shuts the client down, whatever the settings. */
  function QueryClose(pkg: Package): (calls: seq<ClientCall>)
    ensures calls == [Shutdown]
  {
    [Shutdown]
  }
}
