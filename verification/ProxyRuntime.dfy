/**
  cmd/server/proxy_runtime.go as a concurrent machine. Every critical section of
  `mu` is one event; `switchMu` is the Held/Free switch with the holder's program
  counter; startup probes are tokens in flight. A run is any sequence of events,
  so statements about runs hold for every interleaving of Apply, SetTLS, startup
  probes and retry ticks.
 */
module ProxyRuntime {
  import opened Arithmetic
  import opened Text
  import opened ProxyRoute

  /** What the composition root wired in. */
  datatype Wiring = Wiring(hasProbe: bool, hasTransports: bool, hasBuilders: bool)

  datatype Progress = Pending | GatewayPassed | Passed | Failed

  /** A probe of the published route, with the generation and id it captured. */
  datatype Token = Token(generation: nat, id: nat, progress: Progress)

  /** What a retry tick read before waiting for switchMu. */
  datatype Snapshot = Snapshot(url: string, generation: nat)

  datatype Pc =
    | DirectStep
    | MissingStep
    | ReprobeStep
    | Reprobing(token: Token)
    | Building(raw: string)
    | Candidate(raw: string, gw: Transport, cx: Transport, progress: Progress)
    | TlsBuilding(enabled: bool)
    | TlsCandidate(enabled: bool, next: Transport, probed: bool)
    | TlsReading(enabled: bool, next: Transport, previous: ProbeState)
    | Closing(replaced: set<Transport>)

  /** entry remembers the route the holder found when it took the lock. */
  datatype Switch = Free | Held(retry: bool, entry: Route, pc: Pc)

  datatype State = State(
    wiring: Wiring, core: Core, sw: Switch,
    startups: map<nat, Token>, ticks: multiset<Snapshot>,
    built: set<Transport>, closed: set<Transport>, passed: set<Transport>)

  datatype Event =
    | ApplyStart(raw: string) | Tick | RetryStart(snapshot: Snapshot) | TlsStart(enabled: bool)
    | FinishDirect(now: Instant) | FinishMissing(now: Instant)
    | BeginReprobe(now: Instant) | ProbeCurrent(pass: bool) | FinishReprobe(now: Instant)
    | BuildNothing | BuildGatewayOnly(gw: Transport) | BuildBoth(gw: Transport, cx: Transport)
    | ProbeCandidate(pass: bool) | PublishCandidate(now: Instant)
    | TlsBuildNothing | TlsBuild(next: Transport) | TlsProbe(pass: bool) | TlsReadState | TlsPublish(now: Instant)
    | CloseReplaced
    | StartupBegin(now: Instant) | StartupProbe(id: nat, pass: bool) | StartupEnd(id: nat, now: Instant)

  function Init(w: Wiring, url: string, tls: bool, g: Transport, x: Transport): State {
    State(w, InitialCore(url, tls, g, x), Free, map[], multiset{}, {g, x}, {}, {})
  }

  // ----- Steps -----

  /** apply after taking switchMu and reading the route: where to go next. */
  function Decide(s: State, raw: string, expected: Option<Snapshot>): Switch {
    var r := s.core.route;
    var retry := expected.Some?;
    if retry && (expected.value.url != r.url || expected.value.generation != r.generation) then Free
    else if retry && s.core.health.state == Healthy then Free
    else if raw == r.url then
      if raw == "" then Held(retry, r, DirectStep)
      else if !s.wiring.hasProbe then Free
      else if !s.wiring.hasTransports then Held(retry, r, MissingStep)
      else Held(retry, r, ReprobeStep)
    else if !s.wiring.hasBuilders || !s.wiring.hasTransports then Free
    else if r.tls && raw != "" then Free
    else Held(retry, r, Building(raw))
  }

  /** Gateway first, then Codex; the first failure ends the probe. */
  function Advance(p: Progress, pass: bool): Progress {
    if !pass then Failed else if p == Pending then GatewayPassed else Passed
  }

  predicate Running(p: Progress) { p == Pending || p == GatewayPassed }

  /** The switchable wrappers probe whatever pair is published at that moment. */
  function Probed(s: State, p: Progress, pass: bool): set<Transport> {
    if !pass then s.passed
    else s.passed + {if p == Pending then s.core.route.gateway else s.core.route.codex}
  }

  function ErrorOf(p: Progress): string { if p == Passed then "" else "probe failed" }

  /** A candidate needs its probe exactly when a hook exists and the route is a proxy. */
  predicate NeedsProbe(s: State, raw: string) { s.wiring.hasProbe && raw != "" }

  function Next(s: State, e: Event): State {
    if e.Tick? || e.StartupBegin? || e.StartupProbe? || e.StartupEnd? then BackgroundStep(s, e)
    else if s.sw.Free? then LockStep(s, e)
    else SwitchStep(s, e)
  }

  /** Ticks and startup probes: they never take switchMu. */
  function BackgroundStep(s: State, e: Event): State {
    match e
    case Tick =>
      if s.core.route.url == "" || s.core.health.state == Healthy || s.core.health.state == Checking then s
      else s.(ticks := s.ticks + multiset{Snapshot(s.core.route.url, s.core.route.generation)})
    case StartupBegin(now) =>
      var (c, started) := BeginStartup(s.core, now);
      s.(core := c, startups := if started
         then s.startups[c.health.probeSeq := Token(c.route.generation, c.health.probeSeq, Pending)]
                                else s.startups)
    case StartupProbe(id, pass) =>
      if id in s.startups && Running(s.startups[id].progress) then
        var t, ok := s.startups[id], pass && s.wiring.hasProbe && s.wiring.hasTransports;
        s.(startups := s.startups[id := t.(progress := Advance(t.progress, ok))], passed := Probed(s, t.progress, ok))
      else s
    case StartupEnd(id, now) =>
      if id in s.startups && !Running(s.startups[id].progress) then
        var t := s.startups[id];
        s.(core := EndStartup(s.core, t.generation, t.id, ErrorOf(t.progress), now), startups := s.startups - {id})
      else s
    case _ => s
  }

  /** Taking the free switchMu. */
  function LockStep(s: State, e: Event): State {
    match e
    case ApplyStart(raw) => s.(sw := Decide(s, Trim(raw), None))
    case RetryStart(snapshot) =>
      if snapshot in s.ticks
      then s.(sw := Decide(s, Trim(snapshot.url), Some(snapshot)), ticks := s.ticks - multiset{snapshot})
      else s
    case TlsStart(enabled) =>
      if s.core.route.tls != enabled && s.wiring.hasBuilders && s.wiring.hasTransports
        && !(enabled && s.core.route.proxied)
      then s.(sw := Held(false, s.core.route, TlsBuilding(enabled))) else s
    case _ => s
  }

  /** Steps of the goroutine that holds switchMu. */
  function SwitchStep(s: State, e: Event): State
    requires s.sw.Held?
  {
    match s.sw.pc
    case DirectStep => HealthStep(s, e)
    case MissingStep => HealthStep(s, e)
    case ReprobeStep => HealthStep(s, e)
    case Reprobing(_) => HealthStep(s, e)
    case Building(_) => CandidateStep(s, e)
    case Candidate(_, _, _, _) => CandidateStep(s, e)
    case Closing(replaced) => if e.CloseReplaced? then s.(sw := Free, closed := s.closed + replaced) else s
    case _ => TlsStep(s, e)
  }

  /** apply on the unchanged address: only the health of the route can change. */
  function HealthStep(s: State, e: Event): State
    requires s.sw.Held?
  {
    match (s.sw.pc, e)
    case (DirectStep, FinishDirect(now)) => s.(core := DirectReapply(s.core, now), sw := Free)
    case (MissingStep, FinishMissing(now)) => s.(core := TransportsMissing(s.core, now), sw := Free)
    case (ReprobeStep, BeginReprobe(now)) =>
      var c := BeginProbe(s.core, now);
      s.(core := c, sw := s.sw.(pc := Reprobing(Token(c.route.generation, c.health.probeSeq, Pending))))
    case (Reprobing(t), ProbeCurrent(pass)) =>
      if !Running(t.progress) then s
      else s.(sw := s.sw.(pc := Reprobing(t.(progress := Advance(t.progress, pass)))),
              passed := Probed(s, t.progress, pass))
    case (Reprobing(t), FinishReprobe(now)) =>
      if Running(t.progress) then s
      else s.(core := EndReprobe(s.core, t.generation, t.id, ErrorOf(t.progress), now), sw := Free)
    case _ => s
  }

  /** apply on a new address: build, probe, publish. */
  function CandidateStep(s: State, e: Event): State
    requires s.sw.Held?
  {
    match (s.sw.pc, e)
    case (Building(raw), BuildNothing) => s.(sw := Free)
    case (Building(raw), BuildGatewayOnly(gw)) =>
      if gw in s.built then s else s.(sw := Free, built := s.built + {gw}, closed := s.closed + {gw})
    case (Building(raw), BuildBoth(gw, cx)) =>
      if gw in s.built || cx in s.built || gw == cx then s
      else s.(sw := s.sw.(pc := Candidate(raw, gw, cx, Pending)), built := s.built + {gw, cx})
    case (Candidate(raw, gw, cx, p), ProbeCandidate(pass)) =>
      if !NeedsProbe(s, raw) || !Running(p) then s
      else if !pass then s.(sw := Free, closed := s.closed + {gw, cx})
      else s.(sw := s.sw.(pc := Candidate(raw, gw, cx, Advance(p, true))),
              passed := s.passed + {if p == Pending then gw else cx})
    case (Candidate(raw, gw, cx, p), PublishCandidate(now)) =>
      if NeedsProbe(s, raw) && p != Passed then s
      else s.(core := Publish(s.core, raw, gw, cx, NeedsProbe(s, raw), now),
              sw := s.sw.(pc := Closing({s.core.route.gateway, s.core.route.codex})))
    case _ => s
  }

  /** SetTLS: build and probe a Codex transport, read the probe state, then publish. */
  function TlsStep(s: State, e: Event): State
    requires s.sw.Held?
  {
    match (s.sw.pc, e)
    case (TlsBuilding(enabled), TlsBuildNothing) => s.(sw := Free)
    case (TlsBuilding(enabled), TlsBuild(next)) =>
      if next in s.built then s
      else s.(sw := s.sw.(pc := TlsCandidate(enabled, next, false)), built := s.built + {next})
    case (TlsCandidate(enabled, next, probed), TlsProbe(pass)) =>
      if !s.wiring.hasProbe || probed then s
      else if !pass then s.(sw := Free, closed := s.closed + {next})
      else s.(sw := s.sw.(pc := TlsCandidate(enabled, next, true)), passed := s.passed + {next})
    case (TlsCandidate(enabled, next, probed), TlsReadState) =>
      if s.wiring.hasProbe && !probed then s
      else s.(sw := s.sw.(pc := TlsReading(enabled, next, s.core.health.state)))
    case (TlsReading(enabled, next, previous), TlsPublish(now)) =>
      s.(core := PublishTls(s.core, enabled, next, s.wiring.hasProbe, previous, now),
         sw := s.sw.(pc := Closing({s.core.route.gateway, s.core.route.codex})))
    case _ => s
  }

  function Run(s: State, es: seq<Event>): State {
    if es == [] then s else Next(Run(s, es[..|es| - 1]), es[|es| - 1])
  }

  // ----- Invariants -----

  /** Tokens never come from the future; a token of this generation means this route is a proxy. */
  ghost predicate TokensSane(s: State) {
    var r, seqNo := s.core.route, s.core.health.probeSeq;
    && (r.proxied <==> Trim(r.url) != "")
    && (forall id :: id in s.startups ==>
          var t := s.startups[id];
          t.id == id <= seqNo && t.generation <= r.generation && (t.generation == r.generation ==> r.proxied))
    && (s.sw.Held? ==> match s.sw.pc
          case Reprobing(t) => t.generation == r.generation && t.id <= seqNo && t.id !in s.startups
          case Candidate(raw, _, _, _) => Trimmed(raw)
          case Building(raw) => Trimmed(raw)
          case DirectStep => !r.proxied
          case _ => true)
  }

  /** What a token of the current generation has found out still describes the published pair. */
  ghost predicate TokenTruthful(s: State, t: Token) {
    t.generation == s.core.route.generation ==>
      && (t.progress in {GatewayPassed, Passed} ==> s.core.route.gateway in s.passed)
      && (t.progress == Passed ==> s.core.route.codex in s.passed)
  }

  ghost predicate RoutePassed(s: State) {
    s.core.route.gateway in s.passed && s.core.route.codex in s.passed
  }

  ghost predicate ProbesTruthful(s: State) {
    && (forall id :: id in s.startups ==> TokenTruthful(s, s.startups[id]))
    && (s.sw.Held? ==> match s.sw.pc
          case Reprobing(t) => TokenTruthful(s, t)
          case Candidate(_, gw, cx, p) => (p in {GatewayPassed, Passed} ==> gw in s.passed)
            && (p == Passed ==> cx in s.passed)
          case TlsCandidate(_, next, probed) => probed ==> next in s.passed
          case TlsReading(_, next, previous) =>
            && (s.wiring.hasProbe ==> next in s.passed)
            && (previous == Healthy && s.core.route.proxied ==> s.core.route.gateway in s.passed)
          case _ => true)
  }

  /** Healthy means direct mode, or that both published transports have passed a probe. */
  ghost predicate HealthSound(s: State) {
    s.core.health.state == Healthy && s.core.route.proxied ==> RoutePassed(s)
  }

  /** Some startup token holds exactly the current generation and id. */
  predicate StartupCurrent(s: State) {
    s.core.health.probeSeq in s.startups && s.startups[s.core.health.probeSeq].generation == s.core.route.generation
  }

  /** Checking always has a probe in flight that will end it. */
  ghost predicate CheckingOwned(s: State) {
    s.core.health.state == Checking ==>
      || StartupCurrent(s)
      || (exists id :: id in s.startups && s.startups[id].generation < s.core.route.generation)
      || (s.sw.Held? && s.sw.pc.Reprobing? && s.sw.pc.token.id == s.core.health.probeSeq)
  }

  /** A healthy verdict is final for its generation and id, and SetTLS's early read of it stays accurate. */
  ghost predicate HealthySettled(s: State) {
    && (s.core.health.state == Healthy ==> !StartupCurrent(s) && s.core.health.at != 0 && s.core.health.error == "")
    && (s.sw.Held? && s.sw.pc.TlsReading? && s.sw.pc.previous == Healthy ==> s.core.health.state == Healthy)
  }

  /** Transports the switch holder still has to publish or close. */
  ghost function InHand(sw: Switch): set<Transport> {
    if sw.Free? then {}
    else match sw.pc
      case Candidate(_, gw, cx, _) => {gw, cx}
      case TlsCandidate(_, next, _) => {next}
      case TlsReading(_, next, _) => {next}
      case Closing(replaced) => replaced
      case _ => {}
  }

  ghost predicate NothingLeaks(s: State) {
    s.built <= {s.core.route.gateway, s.core.route.codex} + s.closed + InHand(s.sw)
  }

  /** Until it publishes, the holder leaves the route exactly as it found it. */
  ghost predicate RouteUntouched(s: State) {
    s.sw.Held? && !s.sw.pc.Closing? ==> s.core.route == s.sw.entry
  }

  ghost predicate Inv(s: State) {
    && RouteUntouched(s) && TokensSane(s) && ProbesTruthful(s) && HealthSound(s)
    && CheckingOwned(s) && HealthySettled(s) && NothingLeaks(s)
  }

  lemma StartupBeginKeeps(s: State, e: Event)
    requires e.StartupBegin? && Inv(s)
    ensures Inv(BackgroundStep(s, e))
  {
  }

  lemma StartupProbeKeeps(s: State, e: Event)
    requires e.StartupProbe? && Inv(s)
    ensures Inv(BackgroundStep(s, e))
  {
    var s' := BackgroundStep(s, e);
    assert s'.startups.Keys == s.startups.Keys;
    assert forall id :: id in s.startups ==> s'.startups[id].generation == s.startups[id].generation;
  }

  lemma StartupEndKeepsOwner(s: State, e: Event)
    requires e.StartupEnd? && TokensSane(s) && CheckingOwned(s)
    ensures CheckingOwned(BackgroundStep(s, e))
  {
    var s' := BackgroundStep(s, e);
    if s'.core.health.state == Checking && !StartupCurrent(s)
       && !(s.sw.Held? && s.sw.pc.Reprobing? && s.sw.pc.token.id == s.core.health.probeSeq) {
      var id :| id in s.startups && s.startups[id].generation < s.core.route.generation;
      assert id in s'.startups;
    }
  }

  lemma StartupEndKeeps(s: State, e: Event)
    requires e.StartupEnd? && Inv(s)
    ensures Inv(BackgroundStep(s, e))
  {
    StartupEndKeepsOwner(s, e);
  }

  lemma BackgroundStepKeeps(s: State, e: Event)
    requires Inv(s)
    ensures Inv(BackgroundStep(s, e))
  {
    if e.StartupBegin? { StartupBeginKeeps(s, e); }
    if e.StartupProbe? { StartupProbeKeeps(s, e); }
    if e.StartupEnd? { StartupEndKeeps(s, e); }
  }

  lemma LockStepKeeps(s: State, e: Event)
    requires s.sw.Free? && Inv(s)
    ensures Inv(LockStep(s, e))
  {
    if e.ApplyStart? { TrimIsTrimmed(e.raw); }
    if e.RetryStart? { TrimIsTrimmed(e.snapshot.url); }
  }

  lemma HealthStepKeeps(s: State, e: Event)
    requires s.sw.Held? && Inv(s)
    ensures Inv(HealthStep(s, e))
  {
  }

  lemma CandidateStepKeeps(s: State, e: Event)
    requires s.sw.Held? && Inv(s)
    ensures Inv(CandidateStep(s, e))
  {
    if s.sw.pc.Candidate? { TrimIsTrimmed(s.sw.pc.raw); }
  }

  lemma TlsPublishKeeps(s: State, e: Event)
    requires s.sw.Held? && s.sw.pc.TlsReading? && Inv(s)
    ensures Inv(TlsStep(s, e))
  {
  }

  lemma TlsStepKeeps(s: State, e: Event)
    requires s.sw.Held? && Inv(s)
    ensures Inv(TlsStep(s, e))
  {
    if s.sw.pc.TlsReading? { TlsPublishKeeps(s, e); }
  }

  lemma {:induction false} RunInv(w: Wiring, url: string, tls: bool, g: Transport, x: Transport, es: seq<Event>)
    ensures Inv(Run(Init(w, url, tls, g, x), es))
  {
    if es != [] {
      var s, e := Run(Init(w, url, tls, g, x), es[..|es| - 1]), es[|es| - 1];
      RunInv(w, url, tls, g, x, es[..|es| - 1]);
      BackgroundStepKeeps(s, e);
      if s.sw.Free? {
        LockStepKeeps(s, e);
      } else {
        HealthStepKeeps(s, e);
        CandidateStepKeeps(s, e);
        TlsStepKeeps(s, e);
      }
    }
  }

  // ----- Health soundness -----

  /** After any run, Ready() means direct mode or two transports that have passed a probe. */
  lemma HealthSoundness(w: Wiring, url: string, tls: bool, g: Transport, x: Transport, es: seq<Event>)
    ensures var s := Run(Init(w, url, tls, g, x), es);
            && (s.core.health.state == Healthy <==> IsReady(s.core))
            && (IsReady(s.core) ==> Trim(s.core.route.url) == "" || RoutePassed(s))
  {
    RunInv(w, url, tls, g, x, es);
  }

  /** The ways a verdict may turn healthy: direct mode, or a complete probe of exactly this route and id. */
  ghost predicate Earned(s: State, e: Event) {
    || !Next(s, e).core.route.proxied
    || (e.PublishCandidate? && s.sw.Held? && s.sw.pc.Candidate? && s.sw.pc.progress == Passed)
    || (e.FinishReprobe? && s.sw.Held? && s.sw.pc.Reprobing? && s.sw.pc.token.progress == Passed
        && Current(s.core, s.sw.pc.token.generation, s.sw.pc.token.id))
    || (e.StartupEnd? && e.id in s.startups && s.startups[e.id].progress == Passed
        && Current(s.core, s.startups[e.id].generation, e.id))
  }

  lemma BackgroundHealsEarned(s: State, e: Event)
    requires Inv(s) && (e.Tick? || e.StartupBegin? || e.StartupProbe? || e.StartupEnd?)
    ensures s.core.health.state != Healthy && Next(s, e).core.health.state == Healthy ==> Earned(s, e)
  {
  }

  lemma SwitchHealsEarned(s: State, e: Event)
    requires Inv(s) && !(e.Tick? || e.StartupBegin? || e.StartupProbe? || e.StartupEnd?)
    ensures s.core.health.state != Healthy && Next(s, e).core.health.state == Healthy ==> Earned(s, e)
  {
  }

  /** No result for an older generation or a superseded id ever makes a route look healthy. */
  lemma StaleResultsCannotHeal(w: Wiring, url: string, tls: bool, g: Transport, x: Transport, es: seq<Event>, e: Event)
    ensures var s := Run(Init(w, url, tls, g, x), es);
            s.core.health.state != Healthy && Next(s, e).core.health.state == Healthy ==> Earned(s, e)
  {
    var s := Run(Init(w, url, tls, g, x), es);
    RunInv(w, url, tls, g, x, es);
    if e.Tick? || e.StartupBegin? || e.StartupProbe? || e.StartupEnd? {
      BackgroundHealsEarned(s, e);
    } else {
      SwitchHealsEarned(s, e);
    }
  }

  /** Checking is never stuck: when no probe is in flight the state has left it. */
  lemma NeverStuckChecking(w: Wiring, url: string, tls: bool, g: Transport, x: Transport, es: seq<Event>)
    ensures var s := Run(Init(w, url, tls, g, x), es);
            s.core.health.state == Checking ==>
              || (s.sw.Held? && s.sw.pc.Reprobing? && Current(s.core, s.sw.pc.token.generation, s.sw.pc.token.id))
              || exists id :: id in s.startups &&
                   (Current(s.core, s.startups[id].generation, id)
                    || s.startups[id].generation < s.core.route.generation)
  {
    RunInv(w, url, tls, g, x, es);
    var s := Run(Init(w, url, tls, g, x), es);
    if StartupCurrent(s) {
      assert s.core.health.probeSeq in s.startups;
    }
  }

  // ----- Route stability -----

  /** The step ends in Closing with the next generation published. */
  ghost predicate Published(s: State, s': State) {
    s'.sw.Held? && s'.sw.pc.Closing? && s'.core.route.generation == s.core.route.generation + 1
  }

  lemma CandidateStepRoute(s: State, e: Event)
    requires s.sw.Held?
    ensures CandidateStep(s, e).core.route == s.core.route || (e.PublishCandidate? && Published(s, CandidateStep(s, e)))
  {
  }

  lemma TlsStepRoute(s: State, e: Event)
    requires s.sw.Held?
    ensures TlsStep(s, e).core.route == s.core.route || (e.TlsPublish? && Published(s, TlsStep(s, e)))
  {
  }

  lemma BackgroundStepRoute(s: State, e: Event)
    ensures BackgroundStep(s, e).core.route == s.core.route
  {
  }

  lemma LockStepRoute(s: State, e: Event)
    ensures LockStep(s, e).core.route == s.core.route
  {
  }

  lemma HealthStepRoute(s: State, e: Event)
    requires s.sw.Held?
    ensures HealthStep(s, e).core.route == s.core.route
  {
  }

  /** Anything but a publication leaves URL, TLS flag, pair and generation alone. */
  lemma OnlyPublishingChangesRoute(s: State, e: Event)
    ensures Next(s, e).core.route == s.core.route ||
            (s.sw.Held? && (e.PublishCandidate? || e.TlsPublish?) && Next(s, e).sw.pc.Closing?
             && Next(s, e).core.route.generation == s.core.route.generation + 1)
  {
    BackgroundStepRoute(s, e);
    LockStepRoute(s, e);
    if s.sw.Held? {
      HealthStepRoute(s, e);
      CandidateStepRoute(s, e);
      TlsStepRoute(s, e);
    }
  }

  /** A published candidate is the route from then on: its address, its gateway and its Codex transport. */
  lemma PublishesCandidate(w: Wiring, url: string, tls: bool, g: Transport, x: Transport, es: seq<Event>, now: Instant)
    ensures var s := Run(Init(w, url, tls, g, x), es);
            var s' := Next(s, PublishCandidate(now));
            s.sw.Held? && s.sw.pc.Candidate? && s'.core.route != s.core.route ==>
              && s'.core.route.url == s.sw.pc.raw && (s'.core.route.proxied <==> s.sw.pc.raw != "")
              && s'.core.route.gateway == s.sw.pc.gw && s'.core.route.codex == s.sw.pc.cx
              && s'.core.route.tls == s.core.route.tls
              && s'.sw.pc == Closing({s.core.route.gateway, s.core.route.codex})
  {
  }

  /** A published TLS change replaces the Codex transport and the flag, and nothing else of the route. */
  lemma PublishesTls(w: Wiring, url: string, tls: bool, g: Transport, x: Transport, es: seq<Event>, now: Instant)
    ensures var s, s' := Run(Init(w, url, tls, g, x), es), Next(Run(Init(w, url, tls, g, x), es), TlsPublish(now));
            s.sw.Held? && s.sw.pc.TlsReading? ==>
              && s'.core.route.codex == s.sw.pc.next && s'.core.route.tls == s.sw.pc.enabled
              && s'.core.route.gateway == s.core.route.gateway && s'.core.route.url == s.core.route.url
              && s'.core.route.generation == s.core.route.generation + 1
              && s'.sw.pc == Closing({s.core.route.gateway, s.core.route.codex})
  {
  }

  /**
    An Apply or SetTLS that gives up (releases the lock without having reached
    Closing) leaves the route as it found it; and at rest every transport ever
    built is published or idle-closed.
   */
  lemma FailureLeavesRoute(w: Wiring, url: string, tls: bool, g: Transport, x: Transport, es: seq<Event>, e: Event)
    ensures var s := Run(Init(w, url, tls, g, x), es);
            && (s.sw.Held? && !s.sw.pc.Closing? && Next(s, e).sw.Free? ==> Next(s, e).core.route == s.sw.entry)
            && (s.sw.Free? ==> s.built <= {s.core.route.gateway, s.core.route.codex} + s.closed)
  {
    RunInv(w, url, tls, g, x, es);
    OnlyPublishingChangesRoute(Run(Init(w, url, tls, g, x), es), e);
  }

  /** TLS convergence implies direct mode, now and for whatever the holder is about to publish. */
  ghost predicate TlsDirect(s: State) {
    && (s.core.route.tls ==> !s.core.route.proxied)
    && (s.sw.Held? ==> match s.sw.pc
          case Building(raw) => s.core.route.tls ==> raw == ""
          case Candidate(raw, _, _, _) => s.core.route.tls ==> raw == ""
          case TlsBuilding(enabled) => enabled ==> !s.core.route.proxied
          case TlsCandidate(enabled, _, _) => enabled ==> !s.core.route.proxied
          case TlsReading(enabled, _, _) => enabled ==> !s.core.route.proxied
          case _ => true)
  }

  lemma SwitchStepTlsDirect(s: State, e: Event)
    requires s.sw.Held? && TlsDirect(s)
    ensures TlsDirect(SwitchStep(s, e))
  {
  }

  lemma LockStepTlsDirect(s: State, e: Event)
    requires s.sw.Free? && TlsDirect(s)
    ensures TlsDirect(LockStep(s, e))
  {
  }

  lemma BackgroundStepTlsDirect(s: State, e: Event)
    requires TlsDirect(s)
    ensures TlsDirect(BackgroundStep(s, e))
  {
  }

  lemma NextTlsDirect(s: State, e: Event)
    requires TlsDirect(s)
    ensures TlsDirect(Next(s, e))
  {
    if s.sw.Held? { SwitchStepTlsDirect(s, e); } else { LockStepTlsDirect(s, e); }
    BackgroundStepTlsDirect(s, e);
  }

  /** The start-up rule of the configuration is kept by every run. */
  lemma {:induction false} TlsNeverWithProxy(w: Wiring, url: string, tls: bool, g: Transport, x: Transport,
                                             es: seq<Event>)
    requires tls ==> Trim(url) == ""
    ensures TlsDirect(Run(Init(w, url, tls, g, x), es))
  {
    if es != [] {
      TlsNeverWithProxy(w, url, tls, g, x, es[..|es| - 1]);
      NextTlsDirect(Run(Init(w, url, tls, g, x), es[..|es| - 1]), es[|es| - 1]);
    }
  }

  /** A retry only re-checks health: it never builds, so it never publishes. */
  ghost predicate RetryConfined(s: State) {
    && Trimmed(s.core.route.url)
    && (s.sw.Held? && s.sw.pc.Candidate? ==> Trimmed(s.sw.pc.raw))
    && (s.sw.Held? && s.sw.pc.Building? ==> Trimmed(s.sw.pc.raw))
    && (s.sw.Held? && s.sw.retry ==>
          s.sw.pc.DirectStep? || s.sw.pc.MissingStep? || s.sw.pc.ReprobeStep? || s.sw.pc.Reprobing?)
  }

  lemma SwitchStepRetryConfined(s: State, e: Event)
    requires s.sw.Held? && RetryConfined(s)
    ensures RetryConfined(SwitchStep(s, e))
  {
  }

  lemma LockStepRetryConfined(s: State, e: Event)
    requires s.sw.Free? && RetryConfined(s)
    ensures RetryConfined(LockStep(s, e))
  {
    TrimIsTrimmed(s.core.route.url);
    if e.ApplyStart? { TrimIsTrimmed(e.raw); }
  }

  lemma NextRetryConfined(s: State, e: Event)
    requires RetryConfined(s)
    ensures RetryConfined(Next(s, e))
  {
    if s.sw.Held? { SwitchStepRetryConfined(s, e); } else { LockStepRetryConfined(s, e); }
    assert RetryConfined(BackgroundStep(s, e));
  }

  lemma {:induction false} RunRetryConfined(w: Wiring, url: string, tls: bool, g: Transport, x: Transport,
                                            es: seq<Event>)
    requires Trimmed(url)
    ensures RetryConfined(Run(Init(w, url, tls, g, x), es))
  {
    if es != [] {
      RunRetryConfined(w, url, tls, g, x, es[..|es| - 1]);
      NextRetryConfined(Run(Init(w, url, tls, g, x), es[..|es| - 1]), es[|es| - 1]);
    }
  }

  /** With a trimmed start-up URL, no step of a retry changes the route, whatever else is going on. */
  lemma RetryKeepsRoute(w: Wiring, url: string, tls: bool, g: Transport, x: Transport, es: seq<Event>, e: Event)
    requires Trimmed(url)
    ensures var s := Run(Init(w, url, tls, g, x), es);
            s.sw.Held? && s.sw.retry ==> Next(s, e).core.route == s.core.route
  {
    RunRetryConfined(w, url, tls, g, x, es);
    OnlyPublishingChangesRoute(Run(Init(w, url, tls, g, x), es), e);
  }

  /** Nobody but the retry worker acts. */
  predicate WorkerEvent(e: Event) { !e.ApplyStart? && !e.TlsStart? && !e.StartupBegin? }

  predicate WorkerOnly(es: seq<Event>) {
    forall i :: 0 <= i < |es| ==> WorkerEvent(es[i])
  }

  lemma WorkerHolds(s: State, e: Event)
    requires WorkerEvent(e) && (s.sw.Held? ==> s.sw.retry)
    ensures Next(s, e).sw.Held? ==> Next(s, e).sw.retry
  {
  }

  lemma {:induction false} WorkerAloneKeepsRoute(w: Wiring, url: string, tls: bool, g: Transport, x: Transport,
                                                 es: seq<Event>)
    requires Trimmed(url) && WorkerOnly(es)
    ensures var s := Run(Init(w, url, tls, g, x), es);
            s.core.route == Init(w, url, tls, g, x).core.route && (s.sw.Held? ==> s.sw.retry)
  {
    if es != [] {
      var before, e := es[..|es| - 1], es[|es| - 1];
      WorkerAloneKeepsRoute(w, url, tls, g, x, before);
      WorkerHolds(Run(Init(w, url, tls, g, x), before), e);
      RunRetryConfined(w, url, tls, g, x, before);
      OnlyPublishingChangesRoute(Run(Init(w, url, tls, g, x), before), e);
    }
  }

  ghost predicate WorkerReaches(s: State, s': State) {
    exists es :: WorkerOnly(es) && Run(s, es) == s'
  }

  lemma WorkerReachesNext(s: State, s': State, e: Event)
    requires WorkerReaches(s, s') && WorkerEvent(e)
    ensures WorkerReaches(s, Next(s', e))
  {
    var es :| WorkerOnly(es) && Run(s, es) == s';
    assert (es + [e])[..|es|] == es;
    assert WorkerOnly(es + [e]) && Run(s, es + [e]) == Next(s', e);
  }

  /** A tick on an untrimmed URL makes the worker decide to build a replacement. */
  lemma RetryDecidesToBuild(s: State) returns (s': State)
    requires s.sw.Free? && s.wiring.hasBuilders && s.wiring.hasTransports && !Trimmed(s.core.route.url)
    requires s.core.health.state == NotChecked && (s.core.route.tls ==> Trim(s.core.route.url) == "")
    ensures WorkerReaches(s, s') && s'.core == s.core && s'.built == s.built
    ensures s'.sw == Held(true, s.core.route, Building(Trim(s.core.route.url)))
  {
    TrimIsTrimmed(s.core.route.url);
    var snapshot := Snapshot(s.core.route.url, s.core.route.generation);
    assert WorkerOnly([]) && Run(s, []) == s;
    WorkerReachesNext(s, s, Tick);
    WorkerReachesNext(s, Next(s, Tick), RetryStart(snapshot));
    s' := Next(Next(s, Tick), RetryStart(snapshot));
  }

  lemma WorkerBuilds(s0: State, s: State, a: Transport, b: Transport) returns (s': State)
    requires WorkerReaches(s0, s) && s.sw.Held? && s.sw.pc.Building? && a !in s.built && b !in s.built && a != b
    ensures WorkerReaches(s0, s') && s'.sw.Held? && s'.sw.pc == Candidate(s.sw.pc.raw, a, b, Pending)
  {
    WorkerReachesNext(s0, s, BuildBoth(a, b));
    s' := Next(s, BuildBoth(a, b));
  }

  /** A passing probe moves a candidate on, or leaves one that needs no probe where it is. */
  lemma WorkerProbes(s0: State, s: State) returns (s': State)
    requires WorkerReaches(s0, s) && s.sw.Held? && s.sw.pc.Candidate? && s.sw.pc.progress != Failed
    ensures WorkerReaches(s0, s') && s'.wiring == s.wiring && s'.sw.Held? && s'.sw.pc.Candidate?
            && s'.sw.pc.raw == s.sw.pc.raw
    ensures s'.sw.pc.progress == if NeedsProbe(s, s.sw.pc.raw) then Advance(s.sw.pc.progress, true)
            else s.sw.pc.progress
  {
    WorkerReachesNext(s0, s, ProbeCandidate(true));
    s' := Next(s, ProbeCandidate(true));
  }

  lemma WorkerPublishes(s0: State, s: State) returns (s': State)
    requires WorkerReaches(s0, s) && s.sw.Held? && s.sw.pc.Candidate?
    requires NeedsProbe(s, s.sw.pc.raw) ==> s.sw.pc.progress == Passed
    ensures WorkerReaches(s0, s') && s'.core.route.url == s.sw.pc.raw
  {
    WorkerReachesNext(s0, s, PublishCandidate(1));
    s' := Next(s, PublishCandidate(1));
  }

  /** A start-up URL with white space around it is replaced by the first retry that succeeds. */
  lemma WorkerReplacesUntrimmedRoute(w: Wiring, url: string, tls: bool, g: Transport, x: Transport) returns (s: State)
    requires !Trimmed(url) && w.hasBuilders && w.hasTransports && (tls ==> Trim(url) == "")
    ensures WorkerReaches(Init(w, url, tls, g, x), s) && s.core.route.url == Trim(url) != url
  {
    TrimIsTrimmed(url);
    var s0 := Init(w, url, tls, g, x);
    s := RetryDecidesToBuild(s0);
    s := WorkerBuilds(s0, s, g + x + 1, g + x + 2);
    s := WorkerProbes(s0, s);
    s := WorkerProbes(s0, s);
    s := WorkerPublishes(s0, s);
  }

  /** "Retries never replace the route" holds exactly for trimmed start-up URLs. */
  lemma WorkerKeepsRouteIffTrimmed(w: Wiring, url: string, tls: bool, g: Transport, x: Transport)
    requires w.hasBuilders && w.hasTransports && (tls ==> Trim(url) == "")
    ensures Trimmed(url) <==>
            forall s :: WorkerReaches(Init(w, url, tls, g, x), s) ==> s.core.route == Init(w, url, tls, g, x).core.route
  {
    var s0 := Init(w, url, tls, g, x);
    if Trimmed(url) {
      forall s | WorkerReaches(s0, s)
        ensures s.core.route == s0.core.route
      {
        var es :| WorkerOnly(es) && Run(s0, es) == s;
        WorkerAloneKeepsRoute(w, url, tls, g, x, es);
      }
    } else {
      var s := WorkerReplacesUntrimmedRoute(w, url, tls, g, x);
      assert WorkerReaches(s0, s) && s.core.route != s0.core.route;
    }
  }
}
