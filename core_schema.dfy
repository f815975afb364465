/**
 * The stored application settings record ("Core", schema version 2): its
 * default values and the migration that brings records written under
 * version 1 to version 2.
 */
module CoreSchema {
  import opened Common

  /** The application constants the schema refers to; `mainNode` is the first
      entry of the main-network node list. */
  datatype AppConfig = AppConfig(defaultLanguage: string, mainNode: string, defaultTheme: string)

  /** The values of one stored record; optional properties are `Option`s. */
  datatype CoreRecord = CoreRecord(
    initialized: bool,
    passcode: Option<string>,
    minutesAutoLock: int,
    lastPasscodeFailedTimestamp: Option<int>,
    passcodeFailedAttempts: int,
    lastUnlockedTimestamp: Option<int>,
    purgeOnBruteForce: bool,
    biometricMethod: Option<string>,
    passcodeFallback: bool,
    language: string,
    defaultNode: string,
    theme: string,
    showMemoAlert: bool)

  /** The two records agree on every property the migration does not touch. */
  predicate SameUntouched(a: CoreRecord, b: CoreRecord) {
    && a.initialized == b.initialized
    && a.passcode == b.passcode
    && a.minutesAutoLock == b.minutesAutoLock
    && a.biometricMethod == b.biometricMethod
    && a.passcodeFallback == b.passcodeFallback
    && a.language == b.language
    && a.defaultNode == b.defaultNode
    && a.showMemoAlert == b.showMemoAlert
  }

  /** The version 2 values of a record: the passcode counters and timestamps
      zeroed, brute-force purge off, the default theme, everything else kept. */
  function Migrated(c: CoreRecord, cfg: AppConfig): (r: CoreRecord)
    ensures r.lastPasscodeFailedTimestamp == Some(0)
    ensures r.passcodeFailedAttempts == 0
    ensures r.lastUnlockedTimestamp == Some(0)
    ensures !r.purgeOnBruteForce
    ensures r.theme == cfg.defaultTheme
    ensures SameUntouched(r, c)
  {
    c.(lastPasscodeFailedTimestamp := Some(0),
       passcodeFailedAttempts := 0,
       lastUnlockedTimestamp := Some(0),
       purgeOnBruteForce := false,
       theme := cfg.defaultTheme)
  }

  /** Migrating an already migrated record changes nothing. */
  lemma MigratedIdempotent(c: CoreRecord, cfg: AppConfig)
    ensures Migrated(Migrated(c, cfg), cfg) == Migrated(c, cfg)
  {
  }

  /** Two records that differ only in what the migration resets migrate alike. */
  lemma MigratedDependsOnlyOnUntouched(a: CoreRecord, b: CoreRecord, cfg: AppConfig)
    requires SameUntouched(a, b)
    ensures Migrated(a, cfg) == Migrated(b, cfg)
  {
  }

  /** A stored record; the database updates its properties in place. */
  class Core {
    var initialized: bool
    var passcode: Option<string>
    var minutesAutoLock: int
    var lastPasscodeFailedTimestamp: Option<int>
    var passcodeFailedAttempts: int
    var lastUnlockedTimestamp: Option<int>
    var purgeOnBruteForce: bool
    var biometricMethod: Option<string>
    var passcodeFallback: bool
    var language: string
    var defaultNode: string
    var theme: string
    var showMemoAlert: bool

    function Snapshot(): CoreRecord
      reads this
    {
      CoreRecord(initialized, passcode, minutesAutoLock, lastPasscodeFailedTimestamp,
                 passcodeFailedAttempts, lastUnlockedTimestamp, purgeOnBruteForce,
                 biometricMethod, passcodeFallback, language, defaultNode, theme, showMemoAlert)
    }

    /** A fresh record carries the schema's default values. */
    constructor (cfg: AppConfig)
      ensures !initialized && passcode.None? && minutesAutoLock == 1
      ensures lastPasscodeFailedTimestamp.None? && passcodeFailedAttempts == 0 && lastUnlockedTimestamp.None?
      ensures !purgeOnBruteForce && biometricMethod.None? && !passcodeFallback
      ensures language == cfg.defaultLanguage && defaultNode == cfg.mainNode && theme == cfg.defaultTheme
      ensures showMemoAlert
    {
      initialized := false;
      passcode := None;
      minutesAutoLock := 1;
      lastPasscodeFailedTimestamp := None;
      passcodeFailedAttempts := 0;
      lastUnlockedTimestamp := None;
      purgeOnBruteForce := false;
      biometricMethod := None;
      passcodeFallback := false;
      language := cfg.defaultLanguage;
      defaultNode := cfg.mainNode;
      theme := cfg.defaultTheme;
      showMemoAlert := true;
    }

    /** The version 2 migration over every stored record. */
    static method Migration(newObjects: seq<Core>, cfg: AppConfig)
      modifies set o | o in newObjects
      ensures forall j :: 0 <= j < |newObjects| ==>
        newObjects[j].Snapshot() == Migrated(old(newObjects[j].Snapshot()), cfg)
    {
      for i := 0 to |newObjects|
        invariant forall j :: 0 <= j < |newObjects| ==>
          newObjects[j].Snapshot() ==
            if newObjects[j] in newObjects[..i] then Migrated(old(newObjects[j].Snapshot()), cfg)
            else old(newObjects[j].Snapshot())
      {
        var o := newObjects[i];
        o.lastPasscodeFailedTimestamp := Some(0);
        o.passcodeFailedAttempts := 0;
        o.lastUnlockedTimestamp := Some(0);
        o.purgeOnBruteForce := false;
        o.theme := cfg.defaultTheme;
        assert newObjects[..i + 1] == newObjects[..i] + [o];
      }
      assert newObjects[..|newObjects|] == newObjects;
    }
  }
}
