/**
 * The agent record of the agent pool (apps/app_agent_pool.c).  Every locked section of the driver
 * is one function on the record's value, and one method of the class that does the same in place.
 * Clock readings, channel and bridge identities and configuration come in as arguments; times are
 * in milliseconds.
 */
module AgentPool {
  import opened Options

  const LOGIN_WAIT_TIMEOUT_TIME: nat := 5
  const UINT_RANGE: nat := 0x1_0000_0000

  datatype State =
    LoggedOut | ProbationWait | ReadyForCall | CallPresent | CallWaitAck | OnCall | CallWrapup | LoggingOut

  datatype DeviceState = Unavailable | NotInUse | InUse

  datatype Config = Config(ackCall: bool, dtmfAccept: string, autoLogoff: nat, wrapupTime: nat)

  /** What the login channel's variables override; `None` leaves the configured value. */
  datatype Overrides = Overrides(
    ackCall: Option<bool>, dtmfAccept: Option<string>, autoLogoff: Option<nat>, wrapupTime: Option<nat>)

  const NO_OVERRIDES := Overrides(None, None, None, None)

  datatype Agent = Agent(
    logged: Option<nat>,
    state: State,
    device: DeviceState,
    bridge: Option<nat>,
    deferred: bool,
    overrides: Overrides,
    cfg: Config,
    probationStart: nat,
    ackTime: int,
    lastDisconnect: int)

  function Or<T>(o: Option<T>, d: T): T {
    if o.Some? then o.value else d
  }

  /** Calls have to be accepted by digits, and there are digits to accept them with. */
  predicate AckNeeded(a: Agent) {
    Or(a.overrides.ackCall, a.cfg.ackCall) && Or(a.overrides.dtmfAccept, a.cfg.dtmfAccept) != ""
  }

  function WrapupTime(a: Agent): nat {
    Or(a.overrides.wrapupTime, a.cfg.wrapupTime)
  }

  function AutoLogoff(a: Agent): nat {
    Or(a.overrides.autoLogoff, a.cfg.autoLogoff)
  }

  // ---- The locked sections --------------------------------------------------------

  function Login(a: Agent, chan: nat, now: int): Agent {
    if a.logged.Some? then a else a.(logged := Some(chan), lastDisconnect := now, deferred := false)
  }

  function Ready(a: Agent): Agent {
    a.(state := ReadyForCall, device := NotInUse)
  }

  /** The channel enters the holding bridge. */
  function Push(a: Agent, now: nat): Agent {
    match a.state
    case LoggedOut => a.(state := ProbationWait, probationStart := now / 1000)
    case ProbationWait => a.(probationStart := now / 1000)
    case ReadyForCall => a
    case OnCall => if WrapupTime(a) != 0 then a.(state := CallWrapup) else Ready(a)
    case CallWrapup => if WrapupTime(a) != 0 then a.(state := CallWrapup) else Ready(a)
    case _ => Ready(a)
  }

  predicate ProbationOver(a: Agent, now: nat) {
    LOGIN_WAIT_TIMEOUT_TIME <= now / 1000 - a.probationStart
  }

  /** The limit is counted in an unsigned 32-bit number of milliseconds. */
  predicate AckOverdue(a: Agent, now: int) {
    AutoLogoff(a) != 0 && now - a.ackTime > AutoLogoff(a) * 1000 % UINT_RANGE
  }

  predicate WrapupOver(a: Agent, now: int) {
    now - a.lastDisconnect > WrapupTime(a)
  }

  function Heartbeat(a: Agent, now: nat): Agent {
    if a.deferred then a.(state := LoggingOut)
    else if a.state.ProbationWait? && ProbationOver(a, now) then Ready(a)
    else if a.state.CallWaitAck? && AckOverdue(a, now) then a.(state := LoggingOut)
    else if a.state.CallWrapup? && WrapupOver(a, now) then Ready(a)
    else a
  }

  function Connect(a: Agent): Agent {
    a.(bridge := None, state := OnCall)
  }

  function AckDigit(a: Agent): Agent {
    if a.state.CallWaitAck? then Connect(a) else a
  }

  /** The alert has been played; `ack` is what the section before it read. */
  function AlertEnd(a: Agent, ack: bool, now: int): Agent {
    if !a.state.CallPresent? then a
    else if ack then a.(state := CallWaitAck, ackTime := now)
    else Connect(a)
  }

  datatype Answer = NotLoggedIn | Granted | Busy

  function RequestAnswer(a: Agent): Answer {
    if a.state.LoggedOut? || a.state.LoggingOut? then NotLoggedIn
    else if a.state.ReadyForCall? then Granted
    else Busy
  }

  function Request(a: Agent, b: nat): Agent {
    if RequestAnswer(a).Granted? then a.(bridge := Some(b), state := CallPresent, device := InUse) else a
  }

  function Abort(a: Agent): Agent {
    a.(bridge := None)
  }

  function Cleanup(a: Agent, cfg: Config, now: int): Agent {
    a.(cfg := cfg, lastDisconnect := now, bridge := None)
  }

  predicate Leaving(a: Agent, hungup: bool) {
    a.state.LoggingOut? || a.deferred || hungup
  }

  function Logout(a: Agent): Agent {
    a.(logged := None, bridge := None, state := LoggedOut, device := Unavailable, overrides := NO_OVERRIDES)
  }

  function LogoffRequest(a: Agent, soft: bool): Agent {
    if a.logged.Some? && soft then a.(deferred := true) else a
  }

  function Reload(a: Agent, cfg: Config): Agent {
    if a.logged.Some? then a else a.(cfg := cfg)
  }

  // ---- The record in place --------------------------------------------------------

  class AgentPvt {
    var logged: Option<nat>
    var state: State
    var device: DeviceState
    var bridge: Option<nat>
    var deferred: bool
    var overrides: Overrides
    var cfg: Config
    var probationStart: nat
    var ackTime: int
    var lastDisconnect: int

    ghost function View(): Agent
      reads this
    {
      Agent(logged, state, device, bridge, deferred, overrides, cfg, probationStart, ackTime, lastDisconnect)
    }

    constructor (cfg: Config)
      ensures View() == Agent(None, LoggedOut, Unavailable, None, false, NO_OVERRIDES, cfg, 0, 0, 0)
    {
      logged, state, device, bridge, deferred := None, LoggedOut, Unavailable, None, false;
      overrides, this.cfg, probationStart, ackTime, lastDisconnect := NO_OVERRIDES, cfg, 0, 0, 0;
    }

    method EffectiveWrapup() returns (w: nat)
      ensures w == WrapupTime(View())
    {
      w := cfg.wrapupTime;
      if overrides.wrapupTime.Some? { w := overrides.wrapupTime.value; }
    }

    /** Whether an alert has to be accepted by digits. */
    method ReadAccept() returns (ack: bool)
      ensures ack == AckNeeded(View())
    {
      ack := cfg.ackCall;
      if overrides.ackCall.Some? { ack := overrides.ackCall.value; }
      if ack {
        var accept := cfg.dtmfAccept;
        if overrides.dtmfAccept.Some? { accept := overrides.dtmfAccept.value; }
        ack := accept != "";
      }
    }

    method LoginExec(chan: nat, now: int) returns (ok: bool)
      modifies this
      ensures ok == old(View()).logged.None?
      ensures View() == Login(old(View()), chan, now)
    {
      if logged.Some? { return false; }
      logged := Some(chan);
      lastDisconnect := now;
      deferred := false;
      ok := true;
    }

    method LoginChannelConfig(o: Overrides)
      modifies this
      ensures View() == old(View()).(overrides := o)
    {
      overrides := o;
    }

    method BecomeReady()
      modifies this
      ensures View() == Ready(old(View()))
    {
      state := ReadyForCall;
      device := NotInUse;
    }

    method HoldPush(now: nat)
      modifies this
      ensures View() == Push(old(View()), now)
    {
      match state {
        case LoggedOut =>
          probationStart := now / 1000;
          state := ProbationWait;
        case ProbationWait =>
          probationStart := now / 1000;
        case ReadyForCall =>
        case OnCall => AfterCall();
        case CallWrapup => AfterCall();
        case _ => BecomeReady();
      }
    }

    method AfterCall()
      requires state.OnCall? || state.CallWrapup?
      modifies this
      ensures View() == Push(old(View()), 0)
    {
      var w := EffectiveWrapup();
      if w != 0 {
        state := CallWrapup;
      } else {
        BecomeReady();
      }
    }

    method HoldSwap(chan: nat)
      modifies this
      ensures View() == old(View()).(logged := Some(chan))
    {
      logged := Some(chan);
    }

    method AckTimeout(now: int) returns (late: bool)
      ensures late == AckOverdue(View(), now)
    {
      var limit := cfg.autoLogoff;
      if overrides.autoLogoff.Some? { limit := overrides.autoLogoff.value; }
      late := false;
      if limit != 0 {
        limit := limit * 1000 % UINT_RANGE;
        late := now - ackTime > limit;
      }
    }

    /** The heartbeat of the holding bridge; `kick` asks the channel to leave it. */
    method HoldHeartbeat(now: nat) returns (kick: bool)
      modifies this
      ensures View() == Heartbeat(old(View()), now)
      ensures kick <==> old(View()).deferred || (old(View()).state.CallWaitAck? && View().state.LoggingOut?)
    {
      kick := false;
      if deferred {
        state := LoggingOut;
        return true;
      }
      match state {
        case ProbationWait =>
          if LOGIN_WAIT_TIMEOUT_TIME <= now / 1000 - probationStart { BecomeReady(); }
        case CallWaitAck =>
          kick := AckTimeout(now);
          if kick { state := LoggingOut; }
        case CallWrapup =>
          var w := EffectiveWrapup();
          if now - lastDisconnect > w { BecomeReady(); }
        case _ =>
      }
    }

    /** The waiting caller's bridge changes hands. */
    method ConnectCaller() returns (b: Option<nat>)
      modifies this
      ensures b == old(View()).bridge && View() == Connect(old(View()))
    {
      b := bridge;
      bridge := None;
      state := OnCall;
    }

    method HoldAck() returns (b: Option<nat>)
      modifies this
      ensures View() == AckDigit(old(View()))
      ensures b == if old(View()).state.CallWaitAck? then old(View()).bridge else None
    {
      b := None;
      if state.CallWaitAck? { b := ConnectCaller(); }
    }

    method FinishAlert(ack: bool, now: int) returns (b: Option<nat>)
      modifies this
      ensures View() == AlertEnd(old(View()), ack, now)
      ensures b == if old(View()).state.CallPresent? && !ack then old(View()).bridge else None
    {
      b := None;
      if state.CallPresent? {
        if ack {
          state := CallWaitAck;
          ackTime := now;
        } else {
          b := ConnectCaller();
        }
      }
    }

    method RequestExec(b: nat) returns (answer: Answer)
      modifies this
      ensures answer == RequestAnswer(old(View())) && View() == Request(old(View()), b)
    {
      match state {
        case LoggedOut => answer := NotLoggedIn;
        case LoggingOut => answer := NotLoggedIn;
        case ReadyForCall =>
          bridge := Some(b);
          state := CallPresent;
          device := InUse;
          answer := Granted;
        case _ => answer := Busy;
      }
    }

    method CallerAbort() returns (b: Option<nat>)
      modifies this
      ensures b == old(View()).bridge && View() == Abort(old(View()))
    {
      b := bridge;
      bridge := None;
    }

    /** Between leaving the bridging system and joining the holding bridge again. */
    method RunCleanup(newCfg: Config, now: int) returns (b: Option<nat>)
      modifies this
      ensures b == old(View()).bridge && View() == Cleanup(old(View()), newCfg, now)
    {
      cfg := newCfg;
      lastDisconnect := now;
      b := bridge;
      bridge := None;
    }

    method AgentLogout() returns (b: Option<nat>)
      modifies this
      ensures b == old(View()).bridge && View() == Logout(old(View()))
    {
      logged := None;
      b := bridge;
      bridge := None;
      state := LoggedOut;
      device := Unavailable;
      overrides := NO_OVERRIDES;
    }

    method RequestLogoff(soft: bool)
      modifies this
      ensures View() == LogoffRequest(old(View()), soft)
    {
      if logged.Some? && soft { deferred := true; }
    }

    method ApplyConfig(newCfg: Config)
      modifies this
      ensures View() == Reload(old(View()), newCfg)
    {
      if logged.None? { cfg := newCfg; }
    }
  }
}
