/**
 * `RingServer`: the fields the server updates in place and the methods that update them.
 * Every event is proved to move the fields exactly as the matching function of module
 * Lifecycle says. The Ring API, the file system, the watcher and the timers are not called:
 * what they deliver is passed in as a parameter of the event it causes.
 */
module Server {
  import opened Wrappers
  import opened Text
  import opened EnvConfig
  import opened RingLookup
  import opened TokenRotation
  import opened UnlockRoute
  import opened Lifecycle

  /** The part of a connection error the server logs in addition to rethrowing it. */
  const InvalidTokenText := "Refresh token is not valid"

  class RingServer {
    var env: Env
    var config: Option<AppConfig>
    var intercom: Option<Intercom>
    var watcherArmed: bool
    var isInternalEnvUpdate: bool
    var isInitializing: bool
    var debounceTimer: Option<nat>
    var timersScheduled: nat
    var flagClearsPending: nat

    ghost function Snapshot(): State
      reads this
    {
      State(env, config, intercom, watcherArmed, isInternalEnvUpdate, isInitializing,
            debounceTimer, timersScheduled, flagClearsPending)
    }

    ghost predicate Valid()
      reads this
    {
      Lifecycle.Valid(Snapshot())
    }

    constructor (processEnv: Env)
      ensures Valid() && Snapshot() == Initial(processEnv)
    {
      env := processEnv;
      config := None;
      intercom := None;
      watcherArmed := false;
      isInternalEnvUpdate := false;
      isInitializing := false;
      debounceTimer := None;
      timersScheduled := 0;
      flagClearsPending := 0;
    }

    /** `initialize`, up to the await on the Ring API's locations. */
    method Initialize(fileEntries: Env) returns (step: InitStep)
      requires Valid()
      modifies this
      ensures Valid()
      ensures (Snapshot(), step) == BeginInitialize(old(Snapshot()), fileEntries)
    {
      if isInitializing {
        return Skipped;
      }
      isInitializing := true;
      var failure := LoadAndValidateConfig(fileEntries);
      if failure.Some? {
        if intercom.None? {
          WatchEnvFile();
        }
        isInitializing := false;
        return ConfigFailed(failure.value);
      }
      step := AwaitingLocations;
    }

    /** `loadAndValidateConfig`: the configuration is replaced only when nothing is missing. */
    method LoadAndValidateConfig(fileEntries: Env) returns (failure: Option<ConfigError>)
      modifies this
      ensures env == ApplyDotenv(old(env), fileEntries)
      ensures failure.Some? <==> LoadConfig(env).Err?
      ensures failure.Some? ==> failure.value == LoadConfig(env).error && config == old(config)
      ensures failure.None? ==> config == Some(LoadConfig(env).value)
      ensures Snapshot() == old(Snapshot()).(env := env, config := config)
    {
      env := ApplyDotenv(env, fileEntries);
      var missing := MissingKeys(env);
      if |missing| > 0 {
        return Some(MissingVariables(missing));
      }
      MissingFromExact(env, RequiredKeys);
      assert RefreshTokenKey in RequiredKeys && UnlockPasswordKey in RequiredKeys;
      assert LocationNameKey in RequiredKeys && IntercomNameKey in RequiredKeys;
      config := Some(AppConfig(env[RefreshTokenKey], env[UnlockPasswordKey], env[LocationNameKey], env[IntercomNameKey]));
      failure := None;
    }

    /**
     * The rest of `initialize` once `getLocations` settled: the lookups of
     * `initializeRingConnection`, then `initialize`'s `catch` and `finally`. Also reports
     * whether the extra hint about an invalid refresh token is logged.
     */
    method CompleteInitialize(upstream: Upstream) returns (result: Result<Intercom, ConnectError>, hinted: bool)
      requires Valid() && isInitializing
      modifies this
      ensures Valid()
      ensures (Snapshot(), result) == FinishConnection(old(Snapshot()), upstream)
      ensures hinted <==> result.Err? && Contains(result.error.Message(), InvalidTokenText)
    {
      var cfg := config.value;
      if upstream.Failure? {
        result := Err(UpstreamFailure(upstream.message));
      } else {
        var locations := upstream.locations;
        var li := FirstIndex(LocationNames(locations), cfg.locationName);
        if li.None? {
          result := Err(LocationNotFound(cfg.locationName));
        } else {
          var intercoms := locations[li.value].intercoms;
          var ii := FirstIndex(IntercomNames(intercoms), cfg.intercomName);
          intercom := if ii.Some? then Some(intercoms[ii.value]) else None;
          if intercom.None? {
            result := Err(IntercomNotFound(cfg.intercomName, cfg.locationName));
          } else {
            result := Ok(intercom.value);
            if watcherArmed {
              watcherArmed := false;
            }
          }
        }
      }
      hinted := false;
      if result.Err? {
        intercom := None;
        hinted := Contains(result.error.Message(), InvalidTokenText);
        if intercom.None? {
          WatchEnvFile();
        }
      }
      isInitializing := false;
    }

    /** `watchEnvFile`: a second call while a watcher exists does nothing. */
    method WatchEnvFile()
      requires intercom.None?
      modifies this
      ensures Snapshot() == ArmWatcher(old(Snapshot()))
    {
      if watcherArmed {
        return;
      }
      watcherArmed := true;
    }

    /** `handleEnvFileChange`, called by the watcher on an `add` or `change` event. */
    method OnEnvFileChange()
      requires Valid() && watcherArmed
      modifies this
      ensures Valid()
      ensures Snapshot() == FileChanged(old(Snapshot()))
    {
      if isInternalEnvUpdate {
        return;
      }
      // clearTimeout on the previous timer, then setTimeout
      debounceTimer := Some(timersScheduled);
      timersScheduled := timersScheduled + 1;
    }

    /** The 500 ms debounce timer fires and re-runs `initialize`. */
    method FireDebounce(fileEntries: Env) returns (step: InitStep)
      requires Valid() && debounceTimer.Some?
      modifies this
      ensures Valid()
      ensures (Snapshot(), step) == DebounceFired(old(Snapshot()), fileEntries)
    {
      debounceTimer := None;
      step := Initialize(fileEntries);
    }

    /**
     * `handleRefreshTokenUpdate`, given the contents `readFile` returned (None: it threw) and
     * whether `writeFile` succeeded.
     */
    method OnRefreshTokenUpdated(newToken: string, oldToken: Option<string>,
                                 fileRead: Option<string>, writeOk: bool) returns (outcome: Rotation)
      requires Valid()
      modifies this
      ensures Valid()
      ensures (Snapshot(), outcome) == TokenRotated(old(Snapshot()), newToken, oldToken, fileRead, writeOk)
    {
      if oldToken.None? || oldToken.value == "" || newToken == oldToken.value {
        return Unchanged;
      }
      if fileRead.None? {
        isInternalEnvUpdate := false;
        return ReadFailed;
      }
      var current := fileRead.value;
      var oldEntry, newEntry := TokenEntry(oldToken.value), TokenEntry(newToken);
      var updated: string;
      if Contains(current, oldEntry) {
        updated := ReplaceFirst(current, oldEntry, newEntry);
      } else {
        updated := current + "\n" + newEntry;
      }
      isInternalEnvUpdate := true;
      if !writeOk {
        isInternalEnvUpdate := false;
        return WriteFailed(updated);
      }
      if config.Some? {
        config := Some(config.value.(refreshToken := newToken));
      }
      flagClearsPending := flagClearsPending + 1;
      outcome := Saved(updated);
    }

    /** A 1000 ms timer scheduled by a successful token write fires. */
    method ClearInternalFlag()
      requires Valid() && flagClearsPending > 0
      modifies this
      ensures Valid()
      ensures Snapshot() == FlagCleared(old(Snapshot()))
    {
      isInternalEnvUpdate := false;
      flagClearsPending := flagClearsPending - 1;
    }

    /** `GET /unlock`: `authenticate`, then the handler, against the current fields. */
    method HandleUnlock(header: Option<string>, outcome: UnlockOutcome) returns (response: Response)
      ensures response == Respond(config, header, intercom.Some?, outcome)
      ensures response.status == 503 <==> Authorized(config, header) && intercom.None?
    {
      if config.None? || header != Some("Bearer " + config.value.unlockPassword) {
        return Response(403, ForbiddenBody);
      }
      if intercom.None? {
        return Response(503, UnavailableBody);
      }
      match outcome {
        case Unlocked =>
          response := Response(200, UnlockedBody);
        case UnlockFailed(statusCode, _) =>
          if statusCode == Some(422) {
            response := Response(500, DeviceBusyBody);
          } else {
            response := Response(500, UnexpectedBody);
          }
      }
    }
  }

  /**
   * A lookup that fails because the intercom name does not match, then an edit of `.env`
   * that corrects it: the server recovers without a restart.
   */
  method MismatchThenRecovery()
  {
    var env: Env := map[];
    var file: Env := map[RefreshTokenKey := "t0", UnlockPasswordKey := "pw",
                         LocationNameKey := "Home", IntercomNameKey := "Front"];
    var server := new RingServer(env);
    var step := server.Initialize(file);
    assert step == AwaitingLocations;
    var locations := [Location("Home", [Intercom("Back")])];
    var result, hinted := server.CompleteInitialize(Locations(locations));
    assert result == Err(IntercomNotFound("Front", "Home"));
    assert server.watcherArmed && server.intercom.None?;

    server.OnEnvFileChange();
    var fixedFile := file[IntercomNameKey := "Back"];
    step := server.FireDebounce(fixedFile);
    assert step == AwaitingLocations;
    result, hinted := server.CompleteInitialize(Locations(locations));
    assert result == Ok(Intercom("Back"));
    assert !server.watcherArmed;
  }
}
