/** The device-under-test world (dut_world.py): sources, routes, stimulus time and readiness. */
module DutWorld {
  import opened Wrappers

  type Route = string

  datatype Spec = Spec(initialRoutes: set<Route>, initialPsu: bool, initialAwg: bool, requiredRoutes: set<Route>, settleMs: int)

  datatype World = World(clock: nat, routes: set<Route>, voltage: real, psu: bool, points: seq<real>, awg: bool,
                         started: Option<nat>)

  /** Actions with the arguments their handlers accept or refuse. */
  datatype Action =
    | Advance(ms: int)
    | CloseRoutes(routes: set<Route>)
    | OpenRoutes(routes: set<Route>)
    | OpenAll(exact: bool)
    | ConfigurePsu(voltage: real)
    | SetPsu(enabled: bool)
    | SetWaveform(named: bool, points: seq<real>, amplitude: real)
    | SetAwg(enabled: bool)
    | Unsupported

  function Initial(s: Spec): World {
    World(0, s.initialRoutes, 0.0, s.initialPsu, [], s.initialAwg, if s.initialAwg then Some(0) else None)
  }

  predicate IsRoute(r: Route) { r != "" && forall i :: 0 <= i < |r| ==> '0' <= r[i] <= '9' }

  predicate Routes(rs: set<Route>) { rs != {} && forall r <- rs :: IsRoute(r) }

  /** What apply and advance_ms accept. */
  predicate Accepts(w: World, a: Action) {
    match a
    case Advance(ms) => ms >= 0
    case CloseRoutes(rs) => !w.psu && !w.awg && Routes(rs)
    case OpenRoutes(rs) => Routes(rs)
    case OpenAll(exact) => exact
    case ConfigurePsu(v) => 0.0 <= v <= 6.0
    case SetPsu(enabled) => enabled ==> w.voltage > 0.0
    case SetWaveform(named, points, amplitude) => named && |points| >= 2 && amplitude > 0.0
    case SetAwg(enabled) => enabled ==> w.points != []
    case Unsupported => false
  }

  /** A refused action raises and changes nothing. */
  function Apply(w: World, a: Action): World {
    if !Accepts(w, a) then w
    else
      match a
      case Advance(ms) => w.(clock := w.clock + ms)
      case CloseRoutes(rs) => w.(routes := w.routes + rs)
      case OpenRoutes(rs) => w.(routes := w.routes - rs)
      case OpenAll(_) => w.(routes := {})
      case ConfigurePsu(v) => w.(voltage := v)
      case SetPsu(enabled) => w.(psu := enabled)
      case SetWaveform(_, points, _) => w.(points := points)
      case SetAwg(enabled) => w.(awg := enabled, started := if enabled then Some(w.clock) else None)
      case Unsupported => w
  }

  /** _require_ready. */
  predicate Ready(s: Spec, w: World) {
    && s.requiredRoutes <= w.routes && w.psu && w.awg && w.points != []
    && w.started.Some? && w.clock - w.started.value >= s.settleMs
  }

  /** The object, its fields updated in place. */
  class DUTWorld {
    const spec: Spec
    var clock: nat
    var closedRoutes: set<Route>
    var psuVoltage: real
    var psuOutput: bool
    var awgPoints: seq<real>
    var awgOutput: bool
    var stimulusStarted: Option<nat>

    constructor (spec: Spec)
      ensures this.spec == spec && AsWorld() == Initial(spec)
    {
      this.spec := spec;
      clock, closedRoutes, psuVoltage, psuOutput := 0, spec.initialRoutes, 0.0, spec.initialPsu;
      awgPoints, awgOutput := [], spec.initialAwg;
      stimulusStarted := if spec.initialAwg then Some(0) else None;
    }

    function AsWorld(): World reads this {
      World(clock, closedRoutes, psuVoltage, psuOutput, awgPoints, awgOutput, stimulusStarted)
    }

    /** apply and advance_ms; `ok` is false when the source raises. */
    method Act(a: Action) returns (ok: bool)
      modifies this
      ensures AsWorld() == Apply(old(AsWorld()), a) && (ok <==> Accepts(old(AsWorld()), a))
    {
      ok := Accepts(AsWorld(), a);
      if !ok {
        return;
      }
      match a
      case Advance(ms) => clock := clock + ms;
      case CloseRoutes(rs) => closedRoutes := closedRoutes + rs;
      case OpenRoutes(rs) => closedRoutes := closedRoutes - rs;
      case OpenAll(_) => closedRoutes := {};
      case ConfigurePsu(v) => psuVoltage := v;
      case SetPsu(enabled) => psuOutput := enabled;
      case SetWaveform(_, points, _) => awgPoints := points;
      case SetAwg(enabled) =>
        awgOutput := enabled;
        stimulusStarted := if enabled then Some(clock) else None;
      case Unsupported =>
    }
  }

  // ---- Runs ------------------------------------------------------------------------------

  /** The state after the first k actions. */
  function StateAt(s: Spec, actions: seq<Action>, k: nat): World
    requires k <= |actions|
  {
    if k == 0 then Initial(s) else Apply(StateAt(s, actions, k - 1), actions[k - 1])
  }

  /** Routes close only in steps where both sources are off. */
  lemma RoutesCloseWhenOff(w: World, a: Action, r: Route)
    requires r !in w.routes && r in Apply(w, a).routes
    ensures !w.psu && !w.awg && !Apply(w, a).psu && !Apply(w, a).awg
  {
  }

  /** Turning a source on leaves the routes alone. */
  lemma SwitchKeepsRoutes(w: World, a: Action)
    requires (!w.psu && Apply(w, a).psu) || (!w.awg && Apply(w, a).awg)
    ensures Apply(w, a).routes == w.routes
  {
  }

  datatype Source = Psu | Awg

  predicate On(w: World, source: Source) { if source.Psu? then w.psu else w.awg }

  /** The source has been on since state k. */
  ghost predicate OnSince(s: Spec, actions: seq<Action>, n: nat, k: nat, source: Source)
    requires k <= n <= |actions|
  {
    forall i :: k <= i <= n ==> On(StateAt(s, actions, i), source)
  }

  /** While a source stays on, a route that is closed at the end has been closed all along. */
  lemma {:induction false} ClosedAllAlong(s: Spec, actions: seq<Action>, n: nat, k: nat, source: Source, r: Route)
    requires k <= n <= |actions| && OnSince(s, actions, n, k, source) && r in StateAt(s, actions, n).routes
    ensures forall i :: k <= i <= n ==> r in StateAt(s, actions, i).routes
    decreases n - k
  {
    if k < n {
      assert On(StateAt(s, actions, n - 1), source);
      if r !in StateAt(s, actions, n - 1).routes {
        RoutesCloseWhenOff(StateAt(s, actions, n - 1), actions[n - 1], r);
      }
      ClosedAllAlong(s, actions, n - 1, k, source, r);
    }
  }

  /** At an acquisition every required route has been closed since before each source's last switching on, or
      since the beginning if it never was off. */
  lemma RoutesBeforeSources(s: Spec, actions: seq<Action>, n: nat, k: nat, source: Source, r: Route)
    requires k <= n <= |actions| && Ready(s, StateAt(s, actions, n)) && r in s.requiredRoutes
    requires OnSince(s, actions, n, k, source) && (k == 0 || !On(StateAt(s, actions, k - 1), source))
    ensures forall i :: (if k == 0 then 0 else k - 1) <= i <= n ==> r in StateAt(s, actions, i).routes
  {
    ClosedAllAlong(s, actions, n, k, source, r);
    if k > 0 {
      assert On(StateAt(s, actions, k), source);
      SwitchKeepsRoutes(StateAt(s, actions, k - 1), actions[k - 1]);
      assert r in StateAt(s, actions, k).routes;
    }
  }

  /** The stimulus has a start time exactly while the generator is on, and never a future one. */
  lemma {:induction false} StartedWhileOn(s: Spec, actions: seq<Action>, n: nat)
    requires n <= |actions|
    ensures
      var w := StateAt(s, actions, n);
      (w.started.Some? <==> w.awg) && (w.started.Some? ==> w.started.value <= w.clock)
  {
    if n > 0 {
      StartedWhileOn(s, actions, n - 1);
    }
  }

  /** Once the generator is on, its start time is no earlier than the moment it was switched on. */
  lemma {:induction false} StartedSince(s: Spec, actions: seq<Action>, n: nat, k: nat)
    requires k <= n <= |actions| && OnSince(s, actions, n, k, Awg)
    requires k == 0 || !StateAt(s, actions, k - 1).awg
    ensures
      var w := StateAt(s, actions, n);
      w.started.Some? && StateAt(s, actions, k).clock <= w.started.value <= w.clock
    decreases n - k
  {
    assert On(StateAt(s, actions, n), Awg);
    StartedWhileOn(s, actions, n);
    if k < n {
      assert On(StateAt(s, actions, n - 1), Awg);
      StartedSince(s, actions, n - 1, k);
    } else if k > 0 {
      assert StateAt(s, actions, k) == Apply(StateAt(s, actions, k - 1), actions[k - 1]);
    }
  }

  /** So at an acquisition the generator has been on for at least the settling time. */
  lemma SettledSinceSwitchOn(s: Spec, actions: seq<Action>, n: nat, k: nat)
    requires k <= n <= |actions| && Ready(s, StateAt(s, actions, n))
    requires OnSince(s, actions, n, k, Awg) && (k == 0 || !StateAt(s, actions, k - 1).awg)
    ensures StateAt(s, actions, n).clock - StateAt(s, actions, k).clock >= s.settleMs
  {
    StartedSince(s, actions, n, k);
  }

  /** There is such a moment for every source that is on. */
  lemma {:induction false} LastSwitchOn(s: Spec, actions: seq<Action>, n: nat, source: Source) returns (k: nat)
    requires n <= |actions| && On(StateAt(s, actions, n), source)
    ensures k <= n && OnSince(s, actions, n, k, source) && (k == 0 || !On(StateAt(s, actions, k - 1), source))
  {
    if n == 0 || !On(StateAt(s, actions, n - 1), source) {
      k := n;
    } else {
      k := LastSwitchOn(s, actions, n - 1, source);
    }
  }

  // ---- Each action, and a way to an acquisition ----------------------------------------------

  /** Nothing but the named field may differ. */
  predicate OnlyRoutes(w: World, t: World) { t == w.(routes := t.routes) }

  /** An action's effect on each field: routes open and close by membership, the output of a source follows its switch,
      and the stimulus starts at the moment the generator is switched on and ends when it is switched off. */
  lemma ActionLaw(w: World, a: Action)
    ensures
      var t := Apply(w, a);
      && (!Accepts(w, a) ==> t == w)
      && (a.Advance? ==> (Accepts(w, a) <==> 0 <= a.ms) && (0 <= a.ms ==> t == w.(clock := w.clock + a.ms)))
      && (a.CloseRoutes? ==>
            && (Accepts(w, a) <==> !w.psu && !w.awg && a.routes != {} && forall r <- a.routes :: IsRoute(r)) && OnlyRoutes(w, t)
            && (Accepts(w, a) ==> forall r :: r in t.routes <==> r in w.routes || r in a.routes))
      && (a.OpenRoutes? ==>
            && (Accepts(w, a) <==> a.routes != {} && forall r <- a.routes :: IsRoute(r)) && OnlyRoutes(w, t)
            && (Accepts(w, a) ==> forall r :: r in t.routes <==> r in w.routes && r !in a.routes))
      && (a.OpenAll? ==> (Accepts(w, a) <==> a.exact) && OnlyRoutes(w, t) && (a.exact ==> t.routes == {}))
      && (a.ConfigurePsu? ==> (Accepts(w, a) <==> 0.0 <= a.voltage <= 6.0) && (Accepts(w, a) ==> t == w.(voltage := a.voltage)))
      && (a.SetPsu? ==> (Accepts(w, a) <==> !a.enabled || 0.0 < w.voltage) && (Accepts(w, a) ==> t == w.(psu := a.enabled)))
      && (a.SetWaveform? ==>
            (Accepts(w, a) <==> a.named && 2 <= |a.points| && 0.0 < a.amplitude) && (Accepts(w, a) ==> t == w.(points := a.points)))
      && (a.SetAwg? ==>
            && (Accepts(w, a) <==> !a.enabled || w.points != [])
            && (Accepts(w, a) ==> t.awg == a.enabled && t.started == (if a.enabled then Some(w.clock) else None)
                                  && t == w.(awg := t.awg, started := t.started)))
      && (a == Unsupported ==> !Accepts(w, a))
  {
  }

  function Then(w: World, actions: seq<Action>): World {
    if actions == [] then w else Apply(Then(w, actions[..|actions| - 1]), actions[|actions| - 1])
  }

  lemma {:induction false} StateIsThen(s: Spec, actions: seq<Action>, k: nat)
    requires k <= |actions|
    ensures StateAt(s, actions, k) == Then(Initial(s), actions[..k])
  {
    if k > 0 {
      StateIsThen(s, actions, k - 1);
      assert actions[..k][..k - 1] == actions[..k - 1];
    }
  }

  lemma ThenOne(w: World, actions: seq<Action>, a: Action)
    ensures Then(w, actions + [a]) == Apply(Then(w, actions), a)
  {
    hide Apply;
    assert (actions + [a])[..|actions|] == actions;
  }

  lemma RoutesClosed(s: Spec) returns (actions: seq<Action>, w: World)
    requires forall r <- s.requiredRoutes :: IsRoute(r)
    ensures w == Then(Initial(s), actions) && s.requiredRoutes <= w.routes
  {
    hide Apply, IsRoute, Then;
    actions, w := [], Initial(s);
    ThenNothing(w);
    actions, w := More(s, actions, w, SetPsu(false));
    actions, w := More(s, actions, w, SetAwg(false));
    if s.requiredRoutes != {} {
      ActionLaw(w, CloseRoutes(s.requiredRoutes));
      actions, w := More(s, actions, w, CloseRoutes(s.requiredRoutes));
    }
  }

  lemma Powered(s: Spec, before: seq<Action>, v: World, voltage: real) returns (actions: seq<Action>, w: World)
    requires v == Then(Initial(s), before) && 0.0 < voltage <= 6.0
    ensures w == Then(Initial(s), actions) && w.routes == v.routes && w.psu
  {
    hide Apply, IsRoute, Then;
    actions, w := More(s, before, v, ConfigurePsu(voltage));
    actions, w := More(s, actions, w, SetPsu(true));
  }

  /** In every world whose required routes are route numbers, switching off, closing the routes, switching on and
      waiting for the settling time makes an acquisition possible. */
  lemma CanAcquire(s: Spec, voltage: real, points: seq<real>) returns (actions: seq<Action>)
    requires (forall r <- s.requiredRoutes :: IsRoute(r)) && 0.0 < voltage <= 6.0 && |points| >= 2
    ensures Ready(s, StateAt(s, actions, |actions|))
  {
    hide Apply, IsRoute, Then, StateAt, Initial;
    var w;
    actions, w := RoutesClosed(s);
    actions, w := Powered(s, actions, w, voltage);
    actions, w := More(s, actions, w, SetWaveform(true, points, 1.0));
    actions, w := More(s, actions, w, SetAwg(true));
    actions, w := More(s, actions, w, Advance(if s.settleMs < 0 then 0 else s.settleMs));
    StateIsThen(s, actions, |actions|);
    assert actions[..|actions|] == actions;
  }

  lemma ThenNothing(w: World)
    ensures Then(w, []) == w
  {
  }

  lemma More(s: Spec, actions: seq<Action>, w: World, a: Action) returns (more: seq<Action>, t: World)
    requires w == Then(Initial(s), actions)
    ensures more == actions + [a] && t == Then(Initial(s), more) && t == Apply(w, a)
    ensures a.SetPsu? && (!a.enabled || 0.0 < w.voltage) ==> t == w.(psu := a.enabled)
    ensures a == SetAwg(false) ==> t == w.(awg := false, started := None)
    ensures a == SetAwg(true) && w.points != [] ==> t == w.(awg := true, started := Some(w.clock))
    ensures a.CloseRoutes? && Accepts(w, a) ==> t == w.(routes := w.routes + a.routes)
    ensures a.ConfigurePsu? && 0.0 <= a.voltage <= 6.0 ==> t == w.(voltage := a.voltage)
    ensures a.SetWaveform? && a.named && |a.points| >= 2 && a.amplitude > 0.0 ==> t == w.(points := a.points)
    ensures a.Advance? && a.ms >= 0 ==> t == w.(clock := w.clock + a.ms)
  {
    more := actions + [a];
    t := Apply(w, a);
    ThenOne(Initial(s), actions, a);
  }
}
