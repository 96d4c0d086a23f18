/** The process-wide property store of the runtime: one map serves both the `System` properties and the
    runtime's `settings`, since the latter is the former. */
module TornadoSettings {
  import opened Wrappers
  import opened JavaInts
  import opened JavaStrings

  type Properties = map<string, string>

  const BLOCKING_KEY: string := "tornado.opencl.blocking"
  const EVENT_WINDOW_KEY: string := "tornado.opencl.eventwindow"
  const MAX_WAIT_EVENTS_KEY: string := "tornado.opencl.maxwaitevents"

  /** `getProperty(key)`: `None` stands for Java's `null`. */
  function GetProperty(settings: Properties, key: string): (r: Option<string>)
    ensures r.Some? <==> key in settings
    ensures r.Some? ==> r.value == settings[key]
  {
    if key in settings then Some(settings[key]) else None
  }

  /** `getProperty(key, defaultValue)`. */
  function GetPropertyOr(settings: Properties, key: string, defaultValue: string): (r: string)
    ensures key in settings ==> r == settings[key]
    ensures key !in settings ==> r == defaultValue
  {
    GetProperty(settings, key).GetOr(defaultValue)
  }

  /** `setProperty(key, value)`: binds `key`, leaving every other key as it was. */
  function SetProperty(settings: Properties, key: string, value: string): (r: Properties)
    ensures r.Keys == settings.Keys + {key}
    ensures GetProperty(r, key) == Some(value)
    ensures forall k :: k != key ==> GetProperty(r, k) == GetProperty(settings, k)
  {
    settings[key := value]
  }

  /** Reading a key just written returns the written value, whatever the default. */
  lemma SetThenGet(settings: Properties, key: string, value: string, defaultValue: string)
    ensures GetPropertyOr(SetProperty(settings, key, value), key, defaultValue) == value
  {
  }

  /** The settings file as `loadSettings` finds it: absent, present but failing to load with an
      `IOException` (the caught branch), holding a malformed `\uXXXX` escape (the
      `IllegalArgumentException` of `Properties.load`, which nothing catches), or read into its
      entries. */
  datatype SettingsFile = Missing | Unreadable | Malformed | Read(entries: Properties)

  /** The properties `loadSettings` goes on to merge: none unless the file was read. */
  function Loaded(file: SettingsFile): (r: Properties)
    ensures file.Read? ==> r == file.entries
    ensures !file.Read? ==> r == map[]
  {
    if file.Read? then file.entries else map[]
  }

  /** What `loadSettings` leaves in the store: every key of the file that the store lacks is added with
      the file's value; keys already present (set on the command line) keep their values. */
  function Merge(settings: Properties, file: SettingsFile): (r: Properties)
    ensures r.Keys == settings.Keys + Loaded(file).Keys
    ensures forall k :: k in settings ==> r[k] == settings[k]
    ensures forall k :: k in Loaded(file) && k !in settings ==> r[k] == Loaded(file)[k]
  {
    var loaded := Loaded(file);
    settings + map k | k in loaded.Keys - settings.Keys :: loaded[k]
  }

  /** The merge loop of `loadSettings`: the file's keys minus the store's keys are computed first, and
      each of them is then set, in whatever order the set yields them. */
  method MergeLoop(settings: Properties, file: SettingsFile) returns (r: Properties)
    ensures r == Merge(settings, file)
  {
    var loaded := Loaded(file);
    var diff := loaded.Keys - settings.Keys;
    var remaining := diff;
    r := settings;
    while remaining != {}
      invariant remaining <= diff
      invariant r.Keys == settings.Keys + (diff - remaining)
      invariant forall k :: k in settings ==> r[k] == settings[k]
      invariant forall k :: k in diff - remaining ==> r[k] == loaded[k]
      decreases remaining
    {
      var key :| key in remaining;
      r := SetProperty(r, key, loaded[key]);
      remaining := remaining - {key};
    }
  }

  /** Loading adds exactly the file keys that were absent. */
  lemma MergeAddsOnlyNewKeys(settings: Properties, file: SettingsFile)
    ensures Merge(settings, file).Keys - settings.Keys == Loaded(file).Keys - settings.Keys
  {
  }

  /** A missing or unreadable file changes nothing. */
  lemma MergeMissingFile(settings: Properties)
    ensures Merge(settings, Missing) == settings
    ensures Merge(settings, Unreadable) == settings
  {
  }

  /** Loading the same file a second time changes nothing more. */
  lemma MergeIdempotent(settings: Properties, file: SettingsFile)
    ensures Merge(Merge(settings, file), file) == Merge(settings, file)
  {
  }

  /** `Boolean.parseBoolean(settings.getProperty("tornado.opencl.blocking", "False"))`. */
  function ForceBlocking(settings: Properties): (r: bool)
    ensures r <==> BLOCKING_KEY in settings && ParseBoolean(Some(settings[BLOCKING_KEY]))
  {
    ParseBoolean(Some(GetPropertyOr(settings, BLOCKING_KEY, "False")))
  }

  /** The statics class initialisation computes that this model follows: the store, the mutable
      `FORCE_BLOCKING_API_CALLS`, and the two `int` constants parsed from the store. */
  datatype Tornado = Tornado(settings: Properties, forceBlockingApiCalls: bool, eventWindow: Int32, maxWaitEvents: Int32)

  /** The exception `loadSettings` lets escape. */
  datatype LoadError = IllegalArgument

  /** `loadSettings(filename)`, with the file already read into `file`: a malformed escape escapes as
      an exception; otherwise the store is merged and the flag set, and the `int` constants are not
      touched. */
  method LoadSettings(t: Tornado, file: SettingsFile) returns (r: Result<Tornado, LoadError>)
    ensures r.Failure? <==> file.Malformed?
    ensures r.Success? ==> r.value.settings == Merge(t.settings, file)
    ensures r.Success? ==>
      (r.value.forceBlockingApiCalls <==>
         BLOCKING_KEY in r.value.settings && ParseBoolean(Some(r.value.settings[BLOCKING_KEY])))
    ensures r.Success? ==> r.value.eventWindow == t.eventWindow && r.value.maxWaitEvents == t.maxWaitEvents
  {
    if file.Malformed? {
      return Failure(IllegalArgument);
    }
    var settings := MergeLoop(t.settings, file);
    r := Success(t.(settings := settings, forceBlockingApiCalls := ForceBlocking(settings)));
  }

  /** Why class initialisation can fail: an exception escaping the static initialisers. */
  datatype InitError = ExceptionInInitializer

  /** Class initialisation in the textual order Java follows. The static block runs `loadSettings`
      while `log` (initialised further down) is still null, so the warning on an unreadable file throws
      a `NullPointerException` and initialisation fails; a malformed escape fails it as well. Otherwise `EVENT_WINDOW` and `MAX_WAIT_EVENTS`
      are parsed from the merged store, and a malformed value fails initialisation with a
      `NumberFormatException`; the initializer of the non-final `FORCE_BLOCKING_API_CALLS`, between
      them in textual order, stores `false` over what `loadSettings` computed. */
  function ClassInitAsWritten(system: Properties, file: SettingsFile): (r: Result<Tornado, InitError>)
    ensures r.Failure? <==>
      || file.Unreadable? || file.Malformed?
      || EventWindow(Merge(system, file)).None? || MaxWaitEvents(Merge(system, file)).None?
    ensures r.Success? ==> r.value.settings == Merge(system, file)
    ensures r.Success? ==> Some(r.value.eventWindow) == EventWindow(r.value.settings)
    ensures r.Success? ==> Some(r.value.maxWaitEvents) == MaxWaitEvents(r.value.settings)
    ensures r.Success? ==> !r.value.forceBlockingApiCalls
  {
    if file.Unreadable? || file.Malformed? then Failure(ExceptionInInitializer)
    else
      var settings := Merge(system, file);
      var loaded := Tornado(settings, ForceBlocking(settings), 0, 0);
      var eventWindow := EventWindow(settings);
      var maxWaitEvents := MaxWaitEvents(settings);
      if eventWindow.None? || maxWaitEvents.None? then Failure(ExceptionInInitializer)
      else
        Success(loaded.(eventWindow := eventWindow.value, forceBlockingApiCalls := false,
                        maxWaitEvents := maxWaitEvents.value))
  }

  /** With `-Dtornado.opencl.blocking=True` and no settings file, the flag is still off after class
      initialisation although the store asks for blocking calls. */
  lemma BlockingRequestIgnored()
    ensures ClassInitAsWritten(map[BLOCKING_KEY := "True"], Missing).Success?
    ensures ClassInitAsWritten(map[BLOCKING_KEY := "True"], Missing).value.settings[BLOCKING_KEY] == "True"
    ensures ForceBlocking(ClassInitAsWritten(map[BLOCKING_KEY := "True"], Missing).value.settings)
    ensures !ClassInitAsWritten(map[BLOCKING_KEY := "True"], Missing).value.forceBlockingApiCalls
  {
    MergeMissingFile(map[BLOCKING_KEY := "True"]);
  }

  /** An unreadable settings file makes class initialisation fail, whatever the system properties. */
  lemma UnreadableSettingsAbortInit(system: Properties)
    ensures ClassInitAsWritten(system, Unreadable) == Failure(ExceptionInInitializer)
  {
  }

  /** A malformed `-Dtornado.opencl.eventwindow` makes class initialisation fail even with no settings
      file. */
  lemma MalformedEventWindowAbortsInit()
    ensures ClassInitAsWritten(map[EVENT_WINDOW_KEY := "abc"], Missing).Failure?
  {
    MergeMissingFile(map[EVENT_WINDOW_KEY := "abc"]);
    assert !IntSyntax("abc") by { assert !IsDigit('a'); }
  }

  /** Class initialisation as evidently intended: `log` exists before the settings are loaded, so an
      unreadable file only costs a warning; the flag starts `false` and the static block's `loadSettings`
      sets it from the merged store. A malformed escape or a malformed `int` setting still fails, as in
      Java. */
  method ClassInit(system: Properties, file: SettingsFile) returns (r: Result<Tornado, InitError>)
    ensures r.Failure? <==>
      file.Malformed? || EventWindow(Merge(system, file)).None? || MaxWaitEvents(Merge(system, file)).None?
    ensures !file.Unreadable? ==> (r.Failure? <==> ClassInitAsWritten(system, file).Failure?)
    ensures r.Success? ==> r.value.settings == Merge(system, file)
    ensures r.Success? ==> Some(r.value.eventWindow) == EventWindow(r.value.settings)
    ensures r.Success? ==> Some(r.value.maxWaitEvents) == MaxWaitEvents(r.value.settings)
    ensures r.Success? ==>
      (r.value.forceBlockingApiCalls <==>
         BLOCKING_KEY in r.value.settings && ParseBoolean(Some(r.value.settings[BLOCKING_KEY])))
  {
    var initial := Tornado(system, false, 0, 0);
    var loaded := LoadSettings(initial, file);
    if loaded.Failure? {
      return Failure(ExceptionInInitializer);
    }
    var t := loaded.value;
    var eventWindow := EventWindow(t.settings);
    var maxWaitEvents := MaxWaitEvents(t.settings);
    if eventWindow.None? || maxWaitEvents.None? {
      r := Failure(ExceptionInInitializer);
    } else {
      r := Success(t.(eventWindow := eventWindow.value, maxWaitEvents := maxWaitEvents.value));
    }
  }

  /** `EVENT_WINDOW`: `Integer.parseInt(getProperty("tornado.opencl.eventwindow", "1024"))`;
      `None` is the `NumberFormatException` for a malformed value. */
  function EventWindow(settings: Properties): (r: Option<Int32>)
    ensures EVENT_WINDOW_KEY !in settings ==> r == Some(1024)
    ensures EVENT_WINDOW_KEY in settings ==> r == ParseInt(settings[EVENT_WINDOW_KEY])
  {
    DefaultLiteralsParse();
    ParseInt(GetPropertyOr(settings, EVENT_WINDOW_KEY, "1024"))
  }

  /** `MAX_WAIT_EVENTS`: `Integer.parseInt(getProperty("tornado.opencl.maxwaitevents", "32"))`. */
  function MaxWaitEvents(settings: Properties): (r: Option<Int32>)
    ensures MAX_WAIT_EVENTS_KEY !in settings ==> r == Some(32)
    ensures MAX_WAIT_EVENTS_KEY in settings ==> r == ParseInt(settings[MAX_WAIT_EVENTS_KEY])
  {
    DefaultLiteralsParse();
    ParseInt(GetPropertyOr(settings, MAX_WAIT_EVENTS_KEY, "32"))
  }
}
