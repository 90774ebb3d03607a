/**
 * The connection/watcher state machine of `RingServer` as functions on a record of its
 * fields, one function per event. The class in module Server implements each event
 * imperatively and is proved to agree with these functions; the lemmas here state what
 * sequences of events do.
 *
 * `initialize` suspends while `getLocations` is awaited, so it is two events here:
 * BeginInitialize (up to the await) and FinishConnection (the rest). Timers are explicit:
 * the debounce timer by its id, the 1000 ms flag-clearing timers by how many are pending.
 */
module Lifecycle {
  import opened Wrappers
  import opened EnvConfig
  import opened RingLookup
  import opened TokenRotation

  datatype State = State(
    env: Env,                         // process.env
    config: Option<AppConfig>,
    intercom: Option<Intercom>,
    watcherArmed: bool,               // a chokidar watcher exists
    isInternalEnvUpdate: bool,
    isInitializing: bool,
    debounceTimer: Option<nat>,       // the re-initialization timer scheduled and not yet fired
    timersScheduled: nat,             // ids handed out to debounce timers so far
    flagClearsPending: nat)           // flag-clearing timers scheduled and not yet fired

  /**
   * What every reachable state satisfies: an initialization in flight has a configuration,
   * the watcher never runs while an intercom is connected (a property of this model, where
   * closing the watcher is immediate), a pending timer has an id already handed out, and
   * the internal-write flag is only up while a timer that clears it is pending.
   */
  predicate Valid(s: State) {
    && (s.isInitializing ==> s.config.Some?)
    && (s.isInternalEnvUpdate ==> s.flagClearsPending > 0)
    && !(s.watcherArmed && s.intercom.Some?)
    && (s.debounceTimer.Some? ==> s.debounceTimer.value < s.timersScheduled)
  }

  function Initial(processEnv: Env): State {
    State(processEnv, None, None, false, false, false, None, 0, 0)
  }

  lemma InitialIsValid(processEnv: Env)
    ensures Valid(Initial(processEnv))
  {
  }

  /** How the synchronous part of `initialize` ended. */
  datatype InitStep = Skipped | ConfigFailed(error: ConfigError) | AwaitingLocations

  /** `watchEnvFile`: creates a watcher unless one exists. */
  function ArmWatcher(s: State): (r: State)
    requires s.intercom.None?
    ensures r.watcherArmed
    ensures s.watcherArmed ==> r == s
    ensures r == s.(watcherArmed := true)
  {
    if s.watcherArmed then s else s.(watcherArmed := true)
  }

  /**
   * `initialize` up to the await on `getLocations`: the re-entrancy guard, dotenv, the
   * validation, and on a validation failure the `catch` (arm the watcher when there is no
   * intercom) and `finally`.
   */
  function BeginInitialize(s: State, fileEntries: Env): (r: (State, InitStep))
    requires Valid(s)
    ensures Valid(r.0)
    ensures s.isInitializing ==> r == (s, Skipped)
    ensures !s.isInitializing ==> r.1 != Skipped && r.0.env == ApplyDotenv(s.env, fileEntries)
    ensures !s.isInitializing ==> (r.0.isInitializing <==> r.1.AwaitingLocations?)
    ensures r.1.ConfigFailed? ==> r.1.error == MissingVariables(MissingKeys(r.0.env)) && MissingKeys(r.0.env) != []
    ensures r.1.ConfigFailed? ==> r.0.config == s.config
    ensures r.1.ConfigFailed? ==> (r.0.watcherArmed <==> s.watcherArmed || s.intercom.None?)
    ensures r.1.AwaitingLocations? ==> LoadConfig(r.0.env) == Ok(r.0.config.value)
    ensures r.1.AwaitingLocations? ==> r.0.watcherArmed == s.watcherArmed
    ensures r.0 == s.(env := r.0.env, config := r.0.config, watcherArmed := r.0.watcherArmed,
                      isInitializing := r.0.isInitializing)
  {
    if s.isInitializing then (s, Skipped)
    else
      var loaded := s.(env := ApplyDotenv(s.env, fileEntries));
      match LoadConfig(loaded.env)
      case Err(e) => (if loaded.intercom.None? then ArmWatcher(loaded) else loaded, ConfigFailed(e))
      case Ok(config) => (loaded.(config := Some(config), isInitializing := true), AwaitingLocations)
  }

  /**
   * The rest of `initialize` once `getLocations` settled: pick the intercom; on success stop
   * the watcher, on failure clear the intercom and arm the watcher; then lower the guard.
   */
  function FinishConnection(s: State, upstream: Upstream): (r: (State, Result<Intercom, ConnectError>))
    requires Valid(s) && s.isInitializing
    ensures Valid(r.0) && !r.0.isInitializing
    ensures r.1 == Connect(s.config.value, upstream)
    ensures r.0.intercom.Some? <==> r.1.Ok?
    ensures r.1.Ok? ==> r.0.intercom == Some(r.1.value)
    ensures r.0.watcherArmed <==> r.1.Err?
    ensures r.0 == s.(intercom := r.0.intercom, watcherArmed := r.0.watcherArmed, isInitializing := false)
  {
    var result := Connect(s.config.value, upstream);
    if result.Ok? then
      (s.(intercom := Some(result.value), watcherArmed := false, isInitializing := false), result)
    else
      (ArmWatcher(s.(intercom := None)).(isInitializing := false), result)
  }

  /** `handleEnvFileChange`: ignored during an internal write; otherwise the pending timer is replaced. */
  function FileChanged(s: State): (r: State)
    requires Valid(s) && s.watcherArmed
    ensures Valid(r) && r.watcherArmed
    ensures s.isInternalEnvUpdate ==> r == s
    ensures !s.isInternalEnvUpdate ==> r.debounceTimer.Some? && r.debounceTimer != s.debounceTimer
    ensures !s.isInternalEnvUpdate ==> r.debounceTimer == Some(r.timersScheduled - 1)
    ensures r == s.(debounceTimer := r.debounceTimer, timersScheduled := r.timersScheduled)
  {
    if s.isInternalEnvUpdate then s
    else s.(debounceTimer := Some(s.timersScheduled), timersScheduled := s.timersScheduled + 1)
  }

  /** The debounce timer fires: it is no longer pending, and `initialize` runs. */
  function DebounceFired(s: State, fileEntries: Env): (r: (State, InitStep))
    requires Valid(s) && s.debounceTimer.Some?
    ensures Valid(r.0) && r.0.debounceTimer.None?
    ensures r == BeginInitialize(s.(debounceTimer := None), fileEntries)
  {
    BeginInitialize(s.(debounceTimer := None), fileEntries)
  }

  /** How `handleRefreshTokenUpdate` ended. */
  datatype Rotation = Unchanged | ReadFailed | WriteFailed(attempted: string) | Saved(written: string)

  /**
   * `handleRefreshTokenUpdate`, given what reading `.env` returned (None: it threw) and
   * whether writing it succeeded.
   */
  function TokenRotated(s: State, newToken: string, oldToken: Option<string>,
                        fileRead: Option<string>, writeOk: bool): (r: (State, Rotation))
    requires Valid(s)
    ensures Valid(r.0)
    ensures !ShouldPersist(newToken, oldToken) ==> r == (s, Unchanged)
    ensures ShouldPersist(newToken, oldToken) ==> (r.1.Saved? <==> fileRead.Some? && writeOk)
    ensures r.1.Saved? ==> r.1.written == RewriteEnvText(fileRead.value, oldToken.value, newToken)
    ensures r.1.Saved? ==> r.0.isInternalEnvUpdate && r.0.flagClearsPending == s.flagClearsPending + 1
    ensures r.1.Saved? ==> r.0.config.Some? == s.config.Some?
    ensures r.1.Saved? && s.config.Some? ==> r.0.config.value == s.config.value.(refreshToken := newToken)
    ensures r.1.Saved? ==> r.0 == s.(config := r.0.config, isInternalEnvUpdate := true,
                                     flagClearsPending := r.0.flagClearsPending)
    ensures ShouldPersist(newToken, oldToken) && fileRead.None? ==> r.1 == ReadFailed
    ensures ShouldPersist(newToken, oldToken) && fileRead.Some? && !writeOk
            ==> r.1 == WriteFailed(RewriteEnvText(fileRead.value, oldToken.value, newToken))
    ensures r.1.ReadFailed? || r.1.WriteFailed? ==> r.0 == s.(isInternalEnvUpdate := false)
  {
    if !ShouldPersist(newToken, oldToken) then (s, Unchanged)
    else if fileRead.None? then (s.(isInternalEnvUpdate := false), ReadFailed)
    else
      var updated := RewriteEnvText(fileRead.value, oldToken.value, newToken);
      if !writeOk then (s.(isInternalEnvUpdate := false), WriteFailed(updated))
      else
        var config := if s.config.Some? then Some(s.config.value.(refreshToken := newToken)) else None;
        (s.(config := config, isInternalEnvUpdate := true, flagClearsPending := s.flagClearsPending + 1),
         Saved(updated))
  }

  /** A 1000 ms timer fires: the flag is lowered, even if a later write's window is still open. */
  function FlagCleared(s: State): (r: State)
    requires Valid(s) && s.flagClearsPending > 0
    ensures Valid(r) && !r.isInternalEnvUpdate
    ensures r.flagClearsPending == s.flagClearsPending - 1
    ensures r == s.(isInternalEnvUpdate := false, flagClearsPending := r.flagClearsPending)
  {
    s.(isInternalEnvUpdate := false, flagClearsPending := s.flagClearsPending - 1)
  }

  /** `n` file-change notifications in a row. */
  function FileChangedTimes(s: State, n: nat): (r: State)
    requires Valid(s) && s.watcherArmed
    ensures Valid(r) && r.watcherArmed
    decreases n
  {
    if n == 0 then s else FileChangedTimes(FileChanged(s), n - 1)
  }

  /**
   * A burst of `n` notifications leaves exactly one timer pending, the one scheduled by the
   * last notification; the `n - 1` earlier ones were cancelled and nothing else changed.
   */
  lemma {:induction false} BurstLeavesOneTimer(s: State, n: nat)
    requires Valid(s) && s.watcherArmed && !s.isInternalEnvUpdate && n > 0
    decreases n
    ensures FileChangedTimes(s, n).debounceTimer == Some(s.timersScheduled + n - 1)
    ensures FileChangedTimes(s, n)
         == s.(debounceTimer := Some(s.timersScheduled + n - 1), timersScheduled := s.timersScheduled + n)
  {
    if n > 1 {
      BurstLeavesOneTimer(FileChanged(s), n - 1);
    }
  }

  /** After a burst, one firing re-initializes and leaves no timer that could fire again. */
  lemma BurstFiresOnce(s: State, n: nat, fileEntries: Env)
    requires Valid(s) && s.watcherArmed && !s.isInternalEnvUpdate && n > 0
    ensures FileChangedTimes(s, n).debounceTimer.Some?
    ensures DebounceFired(FileChangedTimes(s, n), fileEntries).0.debounceTimer.None?
  {
    BurstLeavesOneTimer(s, n);
  }

  /** The change notification caused by a successful token write does not schedule a re-initialization. */
  lemma SelfWriteIsIgnored(s: State, newToken: string, oldToken: string, text: string)
    requires Valid(s) && s.watcherArmed && ShouldPersist(newToken, Some(oldToken))
    ensures TokenRotated(s, newToken, Some(oldToken), Some(text), true).1.Saved?
    ensures var r := TokenRotated(s, newToken, Some(oldToken), Some(text), true).0;
            r.watcherArmed && FileChanged(r) == r
  {
  }

  /** Once the grace window has passed, an external edit schedules a re-initialization again. */
  lemma EditAfterGraceWindowIsSeen(s: State)
    requires Valid(s) && s.watcherArmed && s.flagClearsPending > 0
    ensures FileChanged(FlagCleared(s)).debounceTimer.Some?
    ensures FileChanged(FlagCleared(s)).debounceTimer != s.debounceTimer
  {
  }

  /**
   * A start-up with a complete configuration whose location and intercom both exist reaches
   * a connected intercom without ever arming the watcher.
   */
  lemma StartupConnects(processEnv: Env, fileEntries: Env, upstream: Upstream)
    requires LoadConfig(ApplyDotenv(processEnv, fileEntries)).Ok?
    requires Connect(LoadConfig(ApplyDotenv(processEnv, fileEntries)).value, upstream).Ok?
    ensures var (s1, step) := BeginInitialize(Initial(processEnv), fileEntries);
            step.AwaitingLocations? && !s1.watcherArmed
            && var (s2, result) := FinishConnection(s1, upstream);
               result.Ok? && s2.intercom.Some? && !s2.watcherArmed && !s2.isInitializing
  {
  }

  /**
   * Recovery: after a failed lookup the watcher is armed; an external edit, once its
   * debounce timer fires, starts a new attempt with the edited configuration, and that
   * attempt can connect and stop the watcher.
   */
  lemma RecoversAfterFailedLookup(s: State, failed: Upstream, fileEntries: Env, upstream: Upstream)
    requires Valid(s) && s.isInitializing && !s.isInternalEnvUpdate
    requires Connect(s.config.value, failed).Err?
    requires LoadConfig(ApplyDotenv(s.env, fileEntries)).Ok?
    requires Connect(LoadConfig(ApplyDotenv(s.env, fileEntries)).value, upstream).Ok?
    ensures var (s1, _) := FinishConnection(s, failed);
            s1.watcherArmed && s1.intercom.None?
            && var s2 := FileChanged(s1);
               s2.debounceTimer.Some?
               && var (s3, step) := DebounceFired(s2, fileEntries);
                  step.AwaitingLocations?
                  && var (s4, result) := FinishConnection(s3, upstream);
                     result.Ok? && s4.intercom.Some? && !s4.watcherArmed
  {
  }
}
