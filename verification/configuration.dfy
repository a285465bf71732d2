/** The extension's settings record (Config/Configuration.cs) and its
    load-or-create rule. The JSON file in the user's documents folder is
    abstracted to a store holding either nothing or one saved record. */
module Configuration {
  import opened Wrappers

  /** The six boolean settings. DisplayFileTypeAsLargeImage is read and toggled
      by the package and the commands although the record does not declare it;
      it is modelled as a sixth flag whose default is a parameter. */
  datatype Config = Config(
    presenceEnabled: bool,
    displayFileName: bool,
    displayProject: bool,
    displayTimestamp: bool,
    resetTimestamp: bool,
    displayFileTypeAsLargeImage: bool)

  /** Names for the six settings, so that "one flag and no other" can be said once. */
  datatype Flag =
    | PresenceEnabled
    | DisplayFileName
    | DisplayProject
    | DisplayTimestamp
    | ResetTimestamp
    | DisplayFileTypeAsLargeImage

  /** The persisted settings file: absent, or holding one saved record. */
  type Store = Option<Config>

  function Get(c: Config, f: Flag): bool {
    match f
    case PresenceEnabled => c.presenceEnabled
    case DisplayFileName => c.displayFileName
    case DisplayProject => c.displayProject
    case DisplayTimestamp => c.displayTimestamp
    case ResetTimestamp => c.resetTimestamp
    case DisplayFileTypeAsLargeImage => c.displayFileTypeAsLargeImage
  }

  /** Assigns flag f; every other flag keeps its value. */
  function Set(c: Config, f: Flag, v: bool): (r: Config)
    ensures Get(r, f) == v
    ensures forall g :: g != f ==> Get(r, g) == Get(c, g)
  {
    match f
    case PresenceEnabled => c.(presenceEnabled := v)
    case DisplayFileName => c.(displayFileName := v)
    case DisplayProject => c.(displayProject := v)
    case DisplayTimestamp => c.(displayTimestamp := v)
    case ResetTimestamp => c.(resetTimestamp := v)
    case DisplayFileTypeAsLargeImage => c.(displayFileTypeAsLargeImage := v)
  }

  /** `new Configuration()`: the five declared flags start out true. */
  function Fresh(largeDefault: bool): (r: Config)
    ensures forall f :: f != DisplayFileTypeAsLargeImage ==> Get(r, f)
    ensures Get(r, DisplayFileTypeAsLargeImage) == largeDefault
  {
    Config(true, true, true, true, true, largeDefault)
  }

  /** Configuration.Save: the store afterwards holds exactly this record. */
  function Save(c: Config): (s: Store)
    ensures s.Some? && s.value == c
  {
    Some(c)
  }

  /** Configuration.Deserialize: with no saved file, create the defaults (and set
      the five declared flags to true once more); otherwise read the saved
      record. Both branches save before returning. */
  function Deserialize(s: Store, largeDefault: bool): (r: (Config, Store))
    ensures s.None? ==> r.0 == Fresh(largeDefault)
    ensures s.Some? ==> r.0 == s.value
    ensures r.1 == Some(r.0)
  {
    if s.None? then
      var config := Fresh(largeDefault);
      var config := config.(presenceEnabled := true, displayTimestamp := true,
                            displayFileName := true, displayProject := true,
                            resetTimestamp := true);
      (config, Save(config))
    else
      var returnConfig := s.value;
      (returnConfig, Save(returnConfig))
  }

  /** Loading a second time from what the first load left behind gives the same
      record and the same store. */
  lemma DeserializeIdempotent(s: Store, largeDefault: bool)
    ensures var (c, s') := Deserialize(s, largeDefault);
      Deserialize(s', largeDefault) == (c, s')
  {
  }
}
