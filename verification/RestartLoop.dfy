/**
 The restart protocol of the service (internal/service/runtime.go): writers change the configuration file, the
 stored credentials or the enabled flag and then signal a one-slot channel; the supervise loop reads all three,
 one after the other, and parks until a signal arrives. Each action below is one atomic step; any number of
 writers interleave with the loop.
 */
module RestartLoop {
  import opened Text

  type Yaml = string
  type Credentials = Option<(string, string)>

  /** What the loop finds out by parsing and generating. */
  datatype Env = Env(parses: Yaml -> bool, usable: (Yaml, Credentials) -> bool)

  /** Where the supervise loop is. */
  datatype Pc =
    | Top           // before the enabled flag is read
    | SeenOn        // flag read and set, configuration not read yet
    | SeenConfig    // configuration parsed, credentials not read yet
    | SeenAll       // all inputs read, engine not started
    | Off           // parked: proxying disabled
    | BadConfig     // parked: the file does not parse
    | Held          // parked: no proxy address, generation or check failed
    | Supervising   // parked with the engine up
    | GaveUp        // parked after the crash-loop breaker stopped the engine
    | Exited

  datatype State = State(
    enabled: bool, config: Yaml, creds: Credentials,     // what is stored now
    slot: bool,                                          // the restart channel holds a signal
    midWrite: set<nat>,                                  // writers between their write and their signal
    pc: Pc,
    seenEnabled: bool, seenConfig: Yaml, seenCreds: Credentials, // the loop's latest reads
    engine: Option<(Yaml, Credentials)>,                 // what the engine that is up was started with
    cancelled: bool)

  datatype Action =
    | StoreConfig(writer: nat, config: Yaml)
    | StoreCreds(writer: nat, creds: Credentials)
    | StoreEnabled(writer: nat, on: bool)
    | Signal(writer: nat)
    | ReadEnabled
    | ReadConfig
    | ReadCreds
    | Start(checkPassed: bool)
    | EngineDone
    | Receive
    | Cancel
    | Leave

  predicate Parked(pc: Pc) {
    pc.Off? || pc.BadConfig? || pc.Held? || pc.Supervising? || pc.GaveUp?
  }

  predicate Possible(s: State, a: Action) {
    match a
    case ReadEnabled => s.pc.Top?
    case ReadConfig => s.pc.SeenOn?
    case ReadCreds => s.pc.SeenConfig?
    case Start(_) => s.pc.SeenAll?
    case EngineDone => s.pc.Supervising?
    case Receive => Parked(s.pc) && s.slot
    case Leave => s.cancelled && (s.pc.Top? || Parked(s.pc))
    case _ => true
  }

  function Next(env: Env, s: State, a: Action): State
    requires Possible(s, a)
  {
    match a
    case StoreConfig(w, v) => s.(config := v, midWrite := s.midWrite + {w})
    case StoreCreds(w, v) => s.(creds := v, midWrite := s.midWrite + {w})
    case StoreEnabled(w, on) => s.(enabled := on, midWrite := s.midWrite + {w})
    case Signal(w) => s.(slot := true, midWrite := s.midWrite - {w})
    case ReadEnabled => s.(seenEnabled := s.enabled, pc := if s.enabled then SeenOn else Off)
    case ReadConfig => s.(seenConfig := s.config, pc := if env.parses(s.config) then SeenConfig else BadConfig)
    case ReadCreds => s.(seenCreds := s.creds, pc := SeenAll)
    case Start(checkPassed) =>
      if env.usable(s.seenConfig, s.seenCreds) && checkPassed
      then s.(engine := Some((s.seenConfig, s.seenCreds)), pc := Supervising)
      else s.(pc := Held)
    case EngineDone => s.(engine := None, pc := GaveUp)
    case Receive => s.(slot := false, engine := None, pc := Top)
    case Cancel => s.(cancelled := true)
    case Leave => s.(engine := None, pc := Exited)
  }

  function Initial(enabled: bool, config: Yaml, creds: Credentials): State {
    State(enabled, config, creds, false, {}, Top, false, "", None, None, false)
  }

  predicate IsRun(env: Env, s: State, actions: seq<Action>)
    decreases |actions|
  {
    actions == [] || (Possible(s, actions[0]) && IsRun(env, Next(env, s, actions[0]), actions[1..]))
  }

  function After(env: Env, s: State, actions: seq<Action>): State
    requires IsRun(env, s, actions)
    decreases |actions|
  {
    if actions == [] then s else After(env, Next(env, s, actions[0]), actions[1..])
  }

  // ---- which inputs the loop's position depends on

  predicate UsesEnabled(pc: Pc) {
    !pc.Top? && !pc.Exited?
  }

  predicate UsesConfig(pc: Pc) {
    UsesEnabled(pc) && !pc.SeenOn? && !pc.Off?
  }

  predicate UsesCreds(pc: Pc) {
    UsesConfig(pc) && !pc.SeenConfig? && !pc.BadConfig?
  }

  /** Every input the loop acted on is still the stored one. */
  predicate UpToDate(s: State) {
    && (UsesEnabled(s.pc) ==> s.seenEnabled == s.enabled)
    && (UsesConfig(s.pc) ==> s.seenConfig == s.config)
    && (UsesCreds(s.pc) ==> s.seenCreds == s.creds)
  }

  ghost predicate Inv(env: Env, s: State) {
    && (!UpToDate(s) ==> s.slot || s.midWrite != {})
    && (s.pc.Off? ==> !s.seenEnabled)
    && (UsesEnabled(s.pc) && !s.pc.Off? ==> s.seenEnabled)
    && (s.pc.BadConfig? ==> !env.parses(s.seenConfig))
    && (UsesConfig(s.pc) && !s.pc.BadConfig? ==> env.parses(s.seenConfig))
    && (s.pc.Supervising? ==> s.engine == Some((s.seenConfig, s.seenCreds)) && env.usable(s.seenConfig, s.seenCreds))
    && (!s.pc.Supervising? ==> s.engine.None?)
  }

  lemma StepKeepsInv(env: Env, s: State, a: Action)
    requires Inv(env, s) && Possible(s, a)
    ensures Inv(env, Next(env, s, a))
  {
    match a
    case StoreConfig(w, _) => assert w in Next(env, s, a).midWrite;
    case StoreCreds(w, _) => assert w in Next(env, s, a).midWrite;
    case StoreEnabled(w, _) => assert w in Next(env, s, a).midWrite;
    case _ =>
  }

  lemma {:induction false} RunKeepsInv(env: Env, s: State, actions: seq<Action>)
    requires Inv(env, s) && IsRun(env, s, actions)
    ensures Inv(env, After(env, s, actions))
    decreases |actions|
  {
    if actions != [] {
      StepKeepsInv(env, s, actions[0]);
      RunKeepsInv(env, Next(env, s, actions[0]), actions[1..]);
    }
  }

  /** Nothing is left to happen except a new write: the loop waits, no signal is queued, no writer owes one. */
  predicate Quiet(s: State) {
    Parked(s.pc) && !s.slot && s.midWrite == {}
  }

  /**
   No update is lost, in any interleaving of any number of writers: when everything is quiet, the loop's
   position is the one the stored flag, file and credentials call for.
   */
  lemma NoLostUpdate(env: Env, enabled: bool, config: Yaml, creds: Credentials, actions: seq<Action>)
    requires IsRun(env, Initial(enabled, config, creds), actions)
    ensures var s := After(env, Initial(enabled, config, creds), actions);
            Quiet(s) ==>
              && (s.pc.Off? <==> !s.enabled)
              && (s.enabled ==> s.seenConfig == s.config && (s.pc.BadConfig? <==> !env.parses(s.config)))
              && (s.enabled && env.parses(s.config) ==> s.seenCreds == s.creds)
              && (s.pc.Supervising? <==> s.engine.Some?)
              && (s.engine.Some? ==> s.engine.value == (s.config, s.creds) && env.usable(s.config, s.creds))
  {
    RunKeepsInv(env, Initial(enabled, config, creds), actions);
  }

  // ---- what is stored is what was written last

  function LastEnabled(enabled: bool, actions: seq<Action>): bool
    decreases |actions|
  {
    if actions == [] then enabled
    else LastEnabled(if actions[0].StoreEnabled? then actions[0].on else enabled, actions[1..])
  }

  function LastConfig(config: Yaml, actions: seq<Action>): Yaml
    decreases |actions|
  {
    if actions == [] then config
    else LastConfig(if actions[0].StoreConfig? then actions[0].config else config, actions[1..])
  }

  function LastCreds(creds: Credentials, actions: seq<Action>): Credentials
    decreases |actions|
  {
    if actions == [] then creds
    else LastCreds(if actions[0].StoreCreds? then actions[0].creds else creds, actions[1..])
  }

  /** How the latest engine check of a run ended, if there was one. */
  function LastCheck(check: Option<bool>, actions: seq<Action>): Option<bool>
    decreases |actions|
  {
    if actions == [] then check
    else LastCheck(if actions[0].Start? then Some(actions[0].checkPassed) else check, actions[1..])
  }

  lemma {:induction false} StoredIsLatest(env: Env, s: State, actions: seq<Action>)
    requires IsRun(env, s, actions)
    ensures var after := After(env, s, actions);
            && after.enabled == LastEnabled(s.enabled, actions) && after.config == LastConfig(s.config, actions)
            && after.creds == LastCreds(s.creds, actions)
    decreases |actions|
  {
    if actions != [] {
      StoredIsLatest(env, Next(env, s, actions[0]), actions[1..]);
    }
  }

  // ---- when the engine runs

  /** The engine comes up exactly when the inputs that were read are usable and the check passed, and with those. */
  lemma StartsExactlyWhenChecked(env: Env, s: State, checkPassed: bool)
    requires Inv(env, s) && Possible(s, Start(checkPassed))
    ensures var after := Next(env, s, Start(checkPassed));
            && (after.pc.Supervising? <==> checkPassed && env.usable(s.seenConfig, s.seenCreds))
            && (after.pc.Supervising? ==> after.engine == Some((s.seenConfig, s.seenCreds)))
            && (!after.pc.Supervising? ==> after.pc.Held? && after.engine.None?)
  {
  }

  /** What the loop's place says about the latest check. */
  predicate CheckInv(env: Env, s: State, check: Option<bool>) {
    && (s.pc.Supervising? || s.pc.GaveUp? ==> check == Some(true))
    && (s.pc.Held? ==> check.Some? && !(check.value && env.usable(s.seenConfig, s.seenCreds)))
  }

  lemma {:induction false} RunKeepsCheckInv(env: Env, s: State, check: Option<bool>, actions: seq<Action>)
    requires CheckInv(env, s, check) && IsRun(env, s, actions)
    ensures CheckInv(env, After(env, s, actions), LastCheck(check, actions))
    decreases |actions|
  {
    if actions != [] {
      var a := actions[0];
      RunKeepsCheckInv(env, Next(env, s, a), if a.Start? then Some(a.checkPassed) else check, actions[1..]);
    }
  }

  /** In no run is an engine up whose check failed. */
  lemma NoEngineUnchecked(env: Env, enabled: bool, config: Yaml, creds: Credentials, actions: seq<Action>)
    requires IsRun(env, Initial(enabled, config, creds), actions)
    ensures After(env, Initial(enabled, config, creds), actions).engine.Some? ==> LastCheck(None, actions) == Some(true)
  {
    RunKeepsInv(env, Initial(enabled, config, creds), actions);
    RunKeepsCheckInv(env, Initial(enabled, config, creds), None, actions);
  }

  /**
   In any interleaving, once everything is quiet: whether the engine runs is decided by what was written last. Without
   the flag it is off; with a file that does not parse it waits; with usable inputs and a passed check it is up with
   exactly these inputs, or the crash-loop breaker has stopped it; otherwise it is held.
   */
  lemma LatestInputsDecide(env: Env, enabled: bool, config: Yaml, creds: Credentials, actions: seq<Action>)
    requires IsRun(env, Initial(enabled, config, creds), actions)
    requires Quiet(After(env, Initial(enabled, config, creds), actions))
    ensures var s := After(env, Initial(enabled, config, creds), actions);
            var on, c := LastEnabled(enabled, actions), LastConfig(config, actions);
            var k, checked := LastCreds(creds, actions), LastCheck(None, actions) == Some(true);
            && (s.pc.Off? <==> !on)
            && (s.pc.BadConfig? <==> on && !env.parses(c))
            && (s.pc.Supervising? || s.pc.GaveUp? <==> on && env.parses(c) && env.usable(c, k) && checked)
            && (s.pc.Held? <==> on && env.parses(c) && !(env.usable(c, k) && checked))
            && s.engine == if s.pc.Supervising? then Some((c, k)) else None
  {
    var start := Initial(enabled, config, creds);
    RunKeepsInv(env, start, actions);
    RunKeepsUsable(env, start, actions);
    RunKeepsCheckInv(env, start, None, actions);
    StoredIsLatest(env, start, actions);
  }

  predicate GaveUpOnUsable(env: Env, s: State) {
    s.pc.GaveUp? || s.pc.Supervising? ==> env.usable(s.seenConfig, s.seenCreds)
  }

  lemma {:induction false} RunKeepsUsable(env: Env, s: State, actions: seq<Action>)
    requires GaveUpOnUsable(env, s) && IsRun(env, s, actions)
    ensures GaveUpOnUsable(env, After(env, s, actions))
    decreases |actions|
  {
    if actions != [] {
      RunKeepsUsable(env, Next(env, s, actions[0]), actions[1..]);
    }
  }

  /** Leaving is possible only once the service is going down, and takes the engine along. */
  lemma {:induction false} CancelledExactly(env: Env, s: State, actions: seq<Action>)
    requires IsRun(env, s, actions)
    ensures After(env, s, actions).cancelled <==> s.cancelled || Cancel in actions
    ensures After(env, s, actions).pc.Exited? && !s.pc.Exited? ==> After(env, s, actions).cancelled
    decreases |actions|
  {
    if actions != [] {
      assert actions == [actions[0]] + actions[1..];
      CancelledExactly(env, Next(env, s, actions[0]), actions[1..]);
    }
  }

  /** While a read is stale and every writer has signalled, the loop still has a signal to receive. */
  lemma StaleLoopIsWoken(env: Env, enabled: bool, config: Yaml, creds: Credentials, actions: seq<Action>)
    requires IsRun(env, Initial(enabled, config, creds), actions)
    ensures var s := After(env, Initial(enabled, config, creds), actions);
            Parked(s.pc) && !UpToDate(s) && s.midWrite == {} ==>
              Possible(s, Receive) && Next(env, s, Receive).pc.Top?
  {
    RunKeepsInv(env, Initial(enabled, config, creds), actions);
  }

  function Count(actions: seq<Action>, f: Action -> bool): nat {
    if actions == [] then 0 else (if f(actions[0]) then 1 else 0) + Count(actions[1..], f)
  }

  predicate IsReceive(a: Action) {
    a.Receive?
  }

  predicate IsSignal(a: Action) {
    a.Signal?
  }

  /** The loop never restarts the engine more often than it was signalled: signals coalesce, none is invented. */
  lemma {:induction false} RestartsAreSignalled(env: Env, s: State, actions: seq<Action>)
    requires IsRun(env, s, actions)
    ensures Count(actions, IsReceive) + (if After(env, s, actions).slot then 1 else 0)
         <= Count(actions, IsSignal) + (if s.slot then 1 else 0)
    decreases |actions|
  {
    if actions != [] {
      RestartsAreSignalled(env, Next(env, s, actions[0]), actions[1..]);
    }
  }

  /** The loop's own steps from its top to where it parks, with no writer in between. */
  function PassOf(env: Env, s: State, checkPassed: bool): State
    requires s.pc.Top?
  {
    var s1 := Next(env, s, ReadEnabled);
    if s1.pc.Off? then s1
    else
      var s2 := Next(env, s1, ReadConfig);
      if s2.pc.BadConfig? then s2 else Next(env, Next(env, s2, ReadCreds), Start(checkPassed))
  }

  lemma PassOutcome(env: Env, s: State, checkPassed: bool)
    requires s.pc.Top?
    ensures var r := PassOf(env, s, checkPassed);
            && Parked(r.pc) && UpToDate(r) && (r.pc.Off? <==> !s.enabled)
            && (r.pc.BadConfig? <==> s.enabled && !env.parses(s.config))
            && (r.pc.Supervising? <==>
                  s.enabled && env.parses(s.config) && env.usable(s.config, s.creds) && checkPassed)
            && r.engine == if r.pc.Supervising? then Some((s.config, s.creds)) else s.engine
  {
  }

  // ---- the code of one writer call and of one loop pass, as sequences of those steps

  class Runtime {
    const env: Env
    var enabled: bool
    var config: Yaml
    var creds: Credentials
    var slot: bool
    ghost var midWrite: set<nat>
    var pc: Pc
    var seenEnabled: bool
    var seenConfig: Yaml
    var seenCreds: Credentials
    var engine: Option<(Yaml, Credentials)>
    var cancelled: bool

    ghost function View(): State
      reads this
    {
      State(enabled, config, creds, slot, midWrite, pc, seenEnabled, seenConfig, seenCreds, engine, cancelled)
    }

    constructor (env: Env, enabled: bool, config: Yaml, creds: Credentials)
      ensures this.env == env && View() == Initial(enabled, config, creds)
    {
      this.env := env;
      this.enabled, this.config, this.creds := enabled, config, creds;
      slot, midWrite, pc := false, {}, Top;
      seenEnabled, seenConfig, seenCreds, engine, cancelled := false, "", None, None, false;
    }

    /** A non-blocking send on a channel of capacity one. */
    method SignalRestart(ghost writer: nat)
      modifies this`slot, this`midWrite
      ensures View() == Next(env, old(View()), Signal(writer))
    {
      if !slot {
        slot := true;
      }
      midWrite := midWrite - {writer};
    }

    /** An edit that does not parse is refused without touching anything; so is one that cannot be written. */
    method SetConfig(yaml: Yaml, writable: bool, ghost writer: nat) returns (ok: bool)
      modifies this`config, this`slot, this`midWrite
      ensures ok <==> env.parses(yaml) && writable
      ensures ok ==> config == yaml && slot
      ensures ok ==> View() == Next(env, Next(env, old(View()), StoreConfig(writer, yaml)), Signal(writer))
      ensures !ok ==> View() == old(View())
    {
      if !env.parses(yaml) || !writable {
        return false;
      }
      config := yaml;
      midWrite := midWrite + {writer};
      SignalRestart(writer);
      return true;
    }

    /** Empty user and password clear the stored credentials, without a restart when there were none. */
    method SetCredentials(user: string, pass: string, writable: bool, ghost writer: nat) returns (ok: bool)
      modifies this`creds, this`slot, this`midWrite
      ensures ok <==> (user == "" && pass == "") || writable
      ensures ok ==> creds == if user == "" && pass == "" then None else Some((user, pass))
      ensures ok && creds != old(creds) ==> slot
      ensures var empty := user == "" && pass == "";
              if !ok || (empty && old(creds).None?) then View() == old(View())
              else View() == Next(env, Next(env, old(View()),
                               StoreCreds(writer, if empty then None else Some((user, pass)))), Signal(writer))
    {
      if user == "" && pass == "" {
        if creds.Some? {
          creds := None;
          midWrite := midWrite + {writer};
          SignalRestart(writer);
        }
        return true;
      }
      if !writable {
        return false;
      }
      creds := Some((user, pass));
      midWrite := midWrite + {writer};
      SignalRestart(writer);
      return true;
    }

    method Toggle(on: bool, ghost writer: nat)
      modifies this`enabled, this`slot, this`midWrite
      ensures enabled == on && slot
      ensures View() == Next(env, Next(env, old(View()), StoreEnabled(writer, on)), Signal(writer))
    {
      enabled := on;
      midWrite := midWrite + {writer};
      SignalRestart(writer);
    }

    method Reload(ghost writer: nat)
      modifies this`slot, this`midWrite
      ensures slot
      ensures View() == Next(env, old(View()), Signal(writer))
    {
      SignalRestart(writer);
    }

    /** One pass of the loop that nothing interrupts, from its top to the point where it parks. */
    method Pass(checkPassed: bool)
      requires pc.Top?
      modifies this`pc, this`seenEnabled, this`seenConfig, this`seenCreds, this`engine
      ensures View() == PassOf(env, old(View()), checkPassed)
      ensures Parked(pc) && UpToDate(View())
      ensures pc.Off? <==> !enabled
      ensures pc.BadConfig? <==> enabled && !env.parses(config)
      ensures pc.Supervising? <==> enabled && env.parses(config) && env.usable(config, creds) && checkPassed
      ensures engine == if pc.Supervising? then Some((config, creds)) else old(engine)
    {
      PassOutcome(env, View(), checkPassed);
      seenEnabled := enabled;
      if !enabled {
        pc := Off;
        return;
      }
      seenConfig := config;
      if !env.parses(config) {
        pc := BadConfig;
        return;
      }
      seenCreds := creds;
      if env.usable(seenConfig, seenCreds) && checkPassed {
        engine := Some((seenConfig, seenCreds));
        pc := Supervising;
      } else {
        pc := Held;
      }
    }

    /** Wait for a restart signal: false when the service is going down, true when a signal was taken. */
    method WaitRestart() returns (restart: bool)
      requires Parked(pc) && (slot || cancelled)
      modifies this`slot, this`pc, this`engine
      ensures restart ==> Possible(old(View()), Receive) && View() == Next(env, old(View()), Receive)
      ensures !restart ==> Possible(old(View()), Leave) && View() == Next(env, old(View()), Leave)
      ensures !old(cancelled) ==> restart
    {
      engine := None;
      if cancelled {
        pc := Exited;
        return false;
      }
      slot := false;
      pc := Top;
      return true;
    }
  }
}
