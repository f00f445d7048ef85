/** What Apply, SetTLS, start-up checks and ticks of cmd/server/proxy_runtime.go achieve when nobody disturbs them. */
module ProxyOperations {
  import opened Arithmetic
  import opened Text
  import opened ProxyRoute
  import opened ProxyRuntime

  /** After `es`, the state is s; the steps below lengthen such a run by one event. */
  ghost predicate At(s0: State, es: seq<Event>, s: State) { Run(s0, es) == s }

  lemma Extend(s0: State, es: seq<Event>, s: State, e: Event)
    requires At(s0, es, s)
    ensures At(s0, es + [e], Next(s, e))
  {
    assert (es + [e])[..|es|] == es;
  }

  /** An Apply of a new address is refused exactly without the wiring, or for a proxy while TLS convergence is on. */
  lemma ApplyRefusedIff(s: State, raw: string)
    requires s.sw.Free? && Trim(raw) != s.core.route.url
    ensures Next(s, ApplyStart(raw)).sw.Free?
       <==> !s.wiring.hasBuilders || !s.wiring.hasTransports || (s.core.route.tls && Trim(raw) != "")
    ensures Next(s, ApplyStart(raw)).sw.Held? ==> Next(s, ApplyStart(raw)).sw.pc == Building(Trim(raw))
    ensures Next(s, ApplyStart(raw)).core == s.core
  {
  }

  lemma StepApply(s0: State, es: seq<Event>, s: State, raw: string) returns (s': State)
    requires At(s0, es, s) && s.sw.Free? && Trim(raw) != s.core.route.url
    requires s.wiring.hasBuilders && s.wiring.hasTransports && !(s.core.route.tls && Trim(raw) != "")
    ensures At(s0, es + [ApplyStart(raw)], s') && s' == s.(sw := Held(false, s.core.route, Building(Trim(raw))))
  {
    Extend(s0, es, s, ApplyStart(raw));
    s' := Next(s, ApplyStart(raw));
  }

  lemma StepBuild(s0: State, es: seq<Event>, s: State, gw: Transport, cx: Transport) returns (s': State)
    requires At(s0, es, s) && s.sw.Held? && s.sw.pc.Building? && gw !in s.built && cx !in s.built && gw != cx
    ensures At(s0, es + [BuildBoth(gw, cx)], s')
    ensures s' == s.(sw := s.sw.(pc := Candidate(s.sw.pc.raw, gw, cx, Pending)), built := s.built + {gw, cx})
  {
    Extend(s0, es, s, BuildBoth(gw, cx));
    s' := Next(s, BuildBoth(gw, cx));
  }

  /** A passing probe moves a candidate on, or leaves one that needs no probe where it is. */
  lemma StepPass(s0: State, es: seq<Event>, s: State) returns (s': State)
    requires At(s0, es, s) && s.sw.Held? && s.sw.pc.Candidate? && Running(s.sw.pc.progress)
    ensures At(s0, es + [ProbeCandidate(true)], s')
    ensures s' == s.(sw := s'.sw, passed := s'.passed) && s'.sw.Held?
    ensures s'.sw.pc == s.sw.pc.(progress :=
      if !NeedsProbe(s, s.sw.pc.raw) then s.sw.pc.progress
      else if s.sw.pc.progress == Pending then GatewayPassed else Passed)
  {
    Extend(s0, es, s, ProbeCandidate(true));
    s' := Next(s, ProbeCandidate(true));
  }

  lemma StepPublish(s0: State, es: seq<Event>, s: State, now: Instant) returns (s': State)
    requires At(s0, es, s) && s.sw.Held? && s.sw.pc.Candidate?
    requires NeedsProbe(s, s.sw.pc.raw) ==> s.sw.pc.progress == Passed
    ensures At(s0, es + [PublishCandidate(now)], s') && s'.closed == s.closed && s'.sw.Held?
    ensures s'.sw.pc == Closing({s.core.route.gateway, s.core.route.codex})
    ensures var c := s.sw.pc;
            && s'.core.route == Route(c.raw, c.raw != "", s.core.route.tls, c.gw, c.cx, s.core.route.generation + 1)
            && (IsReady(s'.core) <==> s.wiring.hasProbe || c.raw == "")
  {
    Extend(s0, es, s, PublishCandidate(now));
    s' := Next(s, PublishCandidate(now));
  }

  lemma StepClose(s0: State, es: seq<Event>, s: State) returns (s': State)
    requires At(s0, es, s) && s.sw.Held? && s.sw.pc.Closing?
    ensures At(s0, es + [CloseReplaced], s') && s' == s.(sw := Free, closed := s.closed + s.sw.pc.replaced)
  {
    Extend(s0, es, s, CloseReplaced);
    s' := Next(s, CloseReplaced);
  }

  lemma ApplyPrepares(s0: State, es: seq<Event>, s: State, raw: string, gw: Transport, cx: Transport)
    returns (s': State)
    requires At(s0, es, s) && s.sw.Free? && Trim(raw) != s.core.route.url
    requires s.wiring.hasBuilders && s.wiring.hasTransports && !(s.core.route.tls && Trim(raw) != "")
    requires gw !in s.built && cx !in s.built && gw != cx
    ensures At(s0, es + [ApplyStart(raw)] + [BuildBoth(gw, cx)], s')
    ensures s'.core == s.core && s'.wiring == s.wiring && s'.closed == s.closed
    ensures s'.sw == Held(false, s.core.route, Candidate(Trim(raw), gw, cx, Pending))
  {
    s' := StepApply(s0, es, s, raw);
    s' := StepBuild(s0, es + [ApplyStart(raw)], s', gw, cx);
  }

  lemma CandidatePasses(s0: State, es: seq<Event>, s: State) returns (s': State)
    requires At(s0, es, s) && s.sw.Held? && s.sw.pc.Candidate? && s.sw.pc.progress == Pending
    ensures At(s0, es + [ProbeCandidate(true)] + [ProbeCandidate(true)], s')
    ensures s'.core == s.core && s'.wiring == s.wiring && s'.closed == s.closed && s'.sw.Held?
    ensures s'.sw.pc == s.sw.pc.(progress := if NeedsProbe(s, s.sw.pc.raw) then Passed else Pending)
  {
    s' := StepPass(s0, es, s);
    s' := StepPass(s0, es + [ProbeCandidate(true)], s');
  }

  lemma CandidateIsPublished(s0: State, es: seq<Event>, s: State, now: Instant) returns (s': State)
    requires At(s0, es, s) && s.sw.Held? && s.sw.pc.Candidate?
    requires NeedsProbe(s, s.sw.pc.raw) ==> s.sw.pc.progress == Passed
    ensures At(s0, es + [PublishCandidate(now)] + [CloseReplaced], s')
    ensures s'.sw.Free? && s'.closed == s.closed + {s.core.route.gateway, s.core.route.codex}
    ensures var c := s.sw.pc;
            && s'.core.route == Route(c.raw, c.raw != "", s.core.route.tls, c.gw, c.cx, s.core.route.generation + 1)
            && (IsReady(s'.core) <==> s.wiring.hasProbe || c.raw == "")
  {
    s' := StepPublish(s0, es, s, now);
    s' := StepClose(s0, es + [PublishCandidate(now)], s');
  }

  /** What an undisturbed Apply of a new address does. */
  function ApplyEvents(es: seq<Event>, raw: string, gw: Transport, cx: Transport, now: Instant): seq<Event> {
    es + [ApplyStart(raw)] + [BuildBoth(gw, cx)] + [ProbeCandidate(true)] + [ProbeCandidate(true)]
    + [PublishCandidate(now)] + [CloseReplaced]
  }

  /**
    After any run, an Apply of a new address that is not refused, builds and passes its probes ends with exactly that
    address and pair published, the old pair closed, and ready if it could be probed or is direct.
   */
  lemma ApplySucceeds(s0: State, es: seq<Event>, s: State, raw: string, gw: Transport, cx: Transport, now: Instant)
    returns (s': State)
    requires At(s0, es, s) && s.sw.Free? && Trim(raw) != s.core.route.url
    requires s.wiring.hasBuilders && s.wiring.hasTransports && !(s.core.route.tls && Trim(raw) != "")
    requires gw !in s.built && cx !in s.built && gw != cx
    ensures At(s0, ApplyEvents(es, raw, gw, cx, now), s')
    ensures s'.sw.Free? && {s.core.route.gateway, s.core.route.codex} <= s'.closed
    ensures s'.core.route == Route(Trim(raw), Trim(raw) != "", s.core.route.tls, gw, cx, s.core.route.generation + 1)
    ensures IsReady(s'.core) <==> s.wiring.hasProbe || Trim(raw) == ""
  {
    var es1 := es + [ApplyStart(raw)] + [BuildBoth(gw, cx)];
    s' := ApplyPrepares(s0, es, s, raw, gw, cx);
    s' := CandidatePasses(s0, es1, s');
    s' := CandidateIsPublished(s0, es1 + [ProbeCandidate(true)] + [ProbeCandidate(true)], s', now);
  }

  /** A candidate whose probe fails is closed and the route stays. */
  lemma ApplyFails(s: State)
    requires s.sw.Held? && s.sw.pc.Candidate? && Running(s.sw.pc.progress) && NeedsProbe(s, s.sw.pc.raw)
    ensures var s' := Next(s, ProbeCandidate(false));
            s'.sw.Free? && s'.core == s.core && {s.sw.pc.gw, s.sw.pc.cx} <= s'.closed && s'.passed == s.passed
  {
  }

  lemma StepReapply(s0: State, es: seq<Event>, s: State, raw: string) returns (s': State)
    requires At(s0, es, s) && s.sw.Free? && Trim(raw) == s.core.route.url != ""
    requires s.wiring.hasProbe && s.wiring.hasTransports
    ensures At(s0, es + [ApplyStart(raw)], s') && s' == s.(sw := Held(false, s.core.route, ReprobeStep))
  {
    Extend(s0, es, s, ApplyStart(raw));
    s' := Next(s, ApplyStart(raw));
  }

  lemma StepBeginReprobe(s0: State, es: seq<Event>, s: State, t: Instant) returns (s': State)
    requires At(s0, es, s) && s.sw.Held? && s.sw.pc == ReprobeStep
    ensures At(s0, es + [BeginReprobe(t)], s') && s'.core.route == s.core.route && s'.sw.Held?
    ensures s'.sw.pc == Reprobing(Token(s'.core.route.generation, s'.core.health.probeSeq, Pending))
  {
    Extend(s0, es, s, BeginReprobe(t));
    s' := Next(s, BeginReprobe(t));
  }

  lemma StepProbeCurrent(s0: State, es: seq<Event>, s: State, pass: bool) returns (s': State)
    requires At(s0, es, s) && s.sw.Held? && s.sw.pc.Reprobing?
    ensures At(s0, es + [ProbeCurrent(pass)], s') && s'.core == s.core && s'.sw.Held? && s'.sw.pc.Reprobing?
    ensures var p := s.sw.pc.token.progress;
            && s'.sw.pc.token == s.sw.pc.token.(progress :=
                 if !Running(p) then p else if !pass then Failed else if p == Pending then GatewayPassed else Passed)
            && (p == Pending && pass ==> s.core.route.gateway in s'.passed)
            && (p == GatewayPassed && pass ==> s.core.route.codex in s'.passed) && s.passed <= s'.passed
  {
    Extend(s0, es, s, ProbeCurrent(pass));
    s' := Next(s, ProbeCurrent(pass));
  }

  lemma StepFinishReprobe(s0: State, es: seq<Event>, s: State, now: Instant) returns (s': State)
    requires At(s0, es, s) && s.sw.Held? && s.sw.pc.Reprobing? && !Running(s.sw.pc.token.progress)
    requires Current(s.core, s.sw.pc.token.generation, s.sw.pc.token.id)
    ensures At(s0, es + [FinishReprobe(now)], s') && s'.sw.Free?
    ensures s'.core.route == s.core.route && s'.passed == s.passed
    ensures s'.core.health.state != Checking && (IsReady(s'.core) <==> s.sw.pc.token.progress == Passed)
  {
    Extend(s0, es, s, FinishReprobe(now));
    s' := Next(s, FinishReprobe(now));
  }

  lemma ReapplyProbes(s0: State, es: seq<Event>, s: State, first: bool, second: bool) returns (s': State)
    requires At(s0, es, s) && s.sw.Held? && s.sw.pc.Reprobing? && s.sw.pc.token.progress == Pending
    ensures At(s0, es + [ProbeCurrent(first)] + [ProbeCurrent(second)], s') && s'.core == s.core && s'.sw.Held?
    ensures s'.sw.pc == Reprobing(s.sw.pc.token.(progress := if first && second then Passed else Failed))
    ensures first ==> s.core.route.gateway in s'.passed
    ensures first && second ==> s.core.route.codex in s'.passed
  {
    s' := StepProbeCurrent(s0, es, s, first);
    s' := StepProbeCurrent(s0, es + [ProbeCurrent(first)], s', second);
  }

  lemma ReapplyBegins(s0: State, es: seq<Event>, s: State, raw: string, t: Instant) returns (s': State)
    requires At(s0, es, s) && s.sw.Free? && Trim(raw) == s.core.route.url != ""
    requires s.wiring.hasProbe && s.wiring.hasTransports
    ensures At(s0, es + [ApplyStart(raw)] + [BeginReprobe(t)], s') && s'.core.route == s.core.route && s'.sw.Held?
    ensures s'.sw.pc == Reprobing(Token(s'.core.route.generation, s'.core.health.probeSeq, Pending))
  {
    s' := StepReapply(s0, es, s, raw);
    s' := StepBeginReprobe(s0, es + [ApplyStart(raw)], s', t);
  }

  /** What an undisturbed Apply of the published proxy address does: it probes, gateway first. */
  function ReapplyEvents(es: seq<Event>, raw: string, first: bool, second: bool, t: Instant, now: Instant): seq<Event> {
    es + [ApplyStart(raw)] + [BeginReprobe(t)] + [ProbeCurrent(first)] + [ProbeCurrent(second)] + [FinishReprobe(now)]
  }

  /** After any run, applying the published proxy address again makes it ready if and only if both transports pass. */
  lemma ReapplyDecides(s0: State, es: seq<Event>, s: State, raw: string, first: bool, second: bool, t: Instant,
                       now: Instant)
    returns (s': State)
    requires At(s0, es, s) && s.sw.Free? && Trim(raw) == s.core.route.url != ""
    requires s.wiring.hasProbe && s.wiring.hasTransports
    ensures At(s0, ReapplyEvents(es, raw, first, second, t, now), s')
    ensures s'.sw.Free? && s'.core.route == s.core.route && s'.core.health.state != Checking
    ensures IsReady(s'.core) <==> first && second
    ensures first ==> s.core.route.gateway in s'.passed
    ensures first && second ==> s.core.route.codex in s'.passed
  {
    var es1 := es + [ApplyStart(raw)] + [BeginReprobe(t)];
    s' := ReapplyBegins(s0, es, s, raw, t);
    s' := ReapplyProbes(s0, es1, s', first, second);
    s' := StepFinishReprobe(s0, es1 + [ProbeCurrent(first)] + [ProbeCurrent(second)], s', now);
  }

  /** The other cases of applying the published address: direct mode is ready at once, missing transports never are. */
  lemma ReapplyWithoutProbe(s: State, raw: string, now: Instant)
    requires s.sw.Free? && Trim(raw) == s.core.route.url
    ensures s.core.route.url == "" ==>
      var s' := Next(Next(s, ApplyStart(raw)), FinishDirect(now)); s'.sw.Free? && IsReady(s'.core)
    ensures s.core.route.url != "" && !s.wiring.hasProbe ==> Next(s, ApplyStart(raw)) == s
    ensures s.core.route.url != "" && s.wiring.hasProbe && !s.wiring.hasTransports ==>
      var s' := Next(Next(s, ApplyStart(raw)), FinishMissing(now)); s'.sw.Free? && s'.core.health.state == Unhealthy
  {
  }

  /** A tick asks for a retry exactly of a proxy route that is neither ready nor being checked. */
  lemma TickAsksIff(s: State)
    ensures Next(s, Tick).ticks == s.ticks + multiset{Snapshot(s.core.route.url, s.core.route.generation)}
       <==> s.core.route.url != "" && s.core.health.state != Healthy && s.core.health.state != Checking
    ensures Next(s, Tick) == s.(ticks := Next(s, Tick).ticks)
  {
  }

  /** A retry that finds the route changed or ready does nothing. */
  lemma OutdatedRetryDoesNothing(s: State, snapshot: Snapshot)
    requires s.sw.Free? && snapshot in s.ticks
    requires snapshot != Snapshot(s.core.route.url, s.core.route.generation) || s.core.health.state == Healthy
    ensures Next(s, RetryStart(snapshot)) == s.(ticks := s.ticks - multiset{snapshot})
  {
  }

  /** SetTLS starts exactly on a real change, with the wiring, and not towards TLS on a proxy route. */
  lemma TlsStartsIff(s: State, enabled: bool)
    requires s.sw.Free?
    ensures Next(s, TlsStart(enabled)).sw.Held?
       <==> s.core.route.tls != enabled && s.wiring.hasBuilders && s.wiring.hasTransports
            && !(enabled && s.core.route.proxied)
    ensures Next(s, TlsStart(enabled)).core == s.core
  {
  }

  lemma StepTlsStart(s0: State, es: seq<Event>, s: State, enabled: bool) returns (s': State)
    requires At(s0, es, s) && s.sw.Free? && s.core.route.tls != enabled
    requires s.wiring.hasBuilders && s.wiring.hasTransports && !(enabled && s.core.route.proxied)
    ensures At(s0, es + [TlsStart(enabled)], s') && s' == s.(sw := Held(false, s.core.route, TlsBuilding(enabled)))
  {
    Extend(s0, es, s, TlsStart(enabled));
    s' := Next(s, TlsStart(enabled));
  }

  lemma StepTlsBuild(s0: State, es: seq<Event>, s: State, next: Transport) returns (s': State)
    requires At(s0, es, s) && s.sw.Held? && s.sw.pc.TlsBuilding? && next !in s.built
    ensures At(s0, es + [TlsBuild(next)], s')
    ensures s' == s.(sw := s.sw.(pc := TlsCandidate(s.sw.pc.enabled, next, false)), built := s.built + {next})
  {
    Extend(s0, es, s, TlsBuild(next));
    s' := Next(s, TlsBuild(next));
  }

  lemma StepTlsProbe(s0: State, es: seq<Event>, s: State) returns (s': State)
    requires At(s0, es, s) && s.sw.Held? && s.sw.pc.TlsCandidate? && !s.sw.pc.probed
    ensures At(s0, es + [TlsProbe(true)], s') && s' == s.(sw := s'.sw, passed := s'.passed) && s'.sw.Held?
    ensures s'.sw.pc == s.sw.pc.(probed := s.wiring.hasProbe) && (s.wiring.hasProbe ==> s.sw.pc.next in s'.passed)
  {
    Extend(s0, es, s, TlsProbe(true));
    s' := Next(s, TlsProbe(true));
  }

  lemma StepTlsRead(s0: State, es: seq<Event>, s: State) returns (s': State)
    requires At(s0, es, s) && s.sw.Held? && s.sw.pc.TlsCandidate? && (s.wiring.hasProbe ==> s.sw.pc.probed)
    ensures At(s0, es + [TlsReadState], s')
    ensures s' == s.(sw := s.sw.(pc := TlsReading(s.sw.pc.enabled, s.sw.pc.next, s.core.health.state)))
  {
    Extend(s0, es, s, TlsReadState);
    s' := Next(s, TlsReadState);
  }

  lemma StepTlsPublish(s0: State, es: seq<Event>, s: State, now: Instant) returns (s': State)
    requires At(s0, es, s) && s.sw.Held? && s.sw.pc.TlsReading? && s.sw.pc.previous == s.core.health.state
    ensures At(s0, es + [TlsPublish(now)], s') && s'.closed == s.closed && s'.sw.Held?
    ensures s'.sw.pc == Closing({s.core.route.gateway, s.core.route.codex})
    ensures s'.core.route == s.core.route.(tls := s.sw.pc.enabled, codex := s.sw.pc.next,
                                           generation := s.core.route.generation + 1)
    ensures IsReady(s'.core) <==> s.wiring.hasProbe && s.core.health.state == Healthy
  {
    Extend(s0, es, s, TlsPublish(now));
    s' := Next(s, TlsPublish(now));
  }

  lemma TlsPrepares(s0: State, es: seq<Event>, s: State, enabled: bool, next: Transport) returns (s': State)
    requires At(s0, es, s) && s.sw.Free? && s.core.route.tls != enabled && next !in s.built
    requires s.wiring.hasBuilders && s.wiring.hasTransports && !(enabled && s.core.route.proxied)
    ensures At(s0, es + [TlsStart(enabled)] + [TlsBuild(next)], s')
    ensures s'.core == s.core && s'.wiring == s.wiring && s'.closed == s.closed && s'.sw.Held?
    ensures s'.sw.pc == TlsCandidate(enabled, next, false)
  {
    s' := StepTlsStart(s0, es, s, enabled);
    s' := StepTlsBuild(s0, es + [TlsStart(enabled)], s', next);
  }

  lemma TlsPasses(s0: State, es: seq<Event>, s: State) returns (s': State)
    requires At(s0, es, s) && s.sw.Held? && s.sw.pc.TlsCandidate? && !s.sw.pc.probed
    ensures At(s0, es + [TlsProbe(true)] + [TlsReadState], s')
    ensures s'.core == s.core && s'.wiring == s.wiring && s'.closed == s.closed && s'.sw.Held?
    ensures s'.sw.pc == TlsReading(s.sw.pc.enabled, s.sw.pc.next, s.core.health.state)
  {
    s' := StepTlsProbe(s0, es, s);
    s' := StepTlsRead(s0, es + [TlsProbe(true)], s');
  }

  lemma TlsIsPublished(s0: State, es: seq<Event>, s: State, now: Instant) returns (s': State)
    requires At(s0, es, s) && s.sw.Held? && s.sw.pc.TlsReading? && s.sw.pc.previous == s.core.health.state
    ensures At(s0, es + [TlsPublish(now)] + [CloseReplaced], s') && s'.sw.Free?
    ensures s'.closed == s.closed + {s.core.route.gateway, s.core.route.codex}
    ensures s'.core.route == s.core.route.(tls := s.sw.pc.enabled, codex := s.sw.pc.next,
                                           generation := s.core.route.generation + 1)
    ensures IsReady(s'.core) <==> s.wiring.hasProbe && s.core.health.state == Healthy
  {
    s' := StepTlsPublish(s0, es, s, now);
    s' := StepClose(s0, es + [TlsPublish(now)], s');
  }

  function TlsEvents(es: seq<Event>, enabled: bool, next: Transport, now: Instant): seq<Event> {
    es + [TlsStart(enabled)] + [TlsBuild(next)] + [TlsProbe(true)] + [TlsReadState] + [TlsPublish(now)]
    + [CloseReplaced]
  }

  /**
    After any run, a TLS change that starts, builds and passes ends with exactly the new Codex transport;
    readiness carries over.
   */
  lemma TlsSucceeds(s0: State, es: seq<Event>, s: State, enabled: bool, next: Transport, now: Instant)
    returns (s': State)
    requires At(s0, es, s) && s.sw.Free? && s.core.route.tls != enabled && next !in s.built
    requires s.wiring.hasBuilders && s.wiring.hasTransports && !(enabled && s.core.route.proxied)
    ensures At(s0, TlsEvents(es, enabled, next, now), s')
    ensures s'.sw.Free? && {s.core.route.gateway, s.core.route.codex} <= s'.closed
    ensures s'.core.route == s.core.route.(tls := enabled, codex := next, generation := s.core.route.generation + 1)
    ensures IsReady(s'.core) <==> s.wiring.hasProbe && s.core.health.state == Healthy
  {
    var es1 := es + [TlsStart(enabled)] + [TlsBuild(next)];
    s' := TlsPrepares(s0, es, s, enabled, next);
    s' := TlsPasses(s0, es1, s');
    s' := TlsIsPublished(s0, es1 + [TlsProbe(true)] + [TlsReadState], s', now);
  }

  lemma StartupBegins(s: State, t: Instant)
    requires Trim(s.core.route.url) != "" && s.core.health.state == NotChecked
    ensures var s', id := Next(s, StartupBegin(t)), s.core.health.probeSeq + 1;
            && s'.core.route == s.core.route && s'.wiring == s.wiring && s'.core.health.probeSeq == id
            && s'.startups == s.startups[id := Token(s.core.route.generation, id, Pending)]
  {
    assert BeginStartup(s.core, t) == (BeginProbe(s.core, t), true);
    assert Next(s, StartupBegin(t)) == BackgroundStep(s, StartupBegin(t));
  }

  lemma StepStartupBegin(s0: State, es: seq<Event>, s: State, t: Instant) returns (s': State)
    requires At(s0, es, s) && Trim(s.core.route.url) != "" && s.core.health.state == NotChecked
    ensures At(s0, es + [StartupBegin(t)], s') && s'.core.route == s.core.route && s'.wiring == s.wiring
    ensures var id := s.core.health.probeSeq + 1;
            && s'.core.health.probeSeq == id
            && s'.startups == s.startups[id := Token(s.core.route.generation, id, Pending)]
  {
    StartupBegins(s, t);
    Extend(s0, es, s, StartupBegin(t));
    s' := Next(s, StartupBegin(t));
  }

  lemma StepStartupProbe(s0: State, es: seq<Event>, s: State, id: nat, pass: bool) returns (s': State)
    requires At(s0, es, s) && id in s.startups && s.wiring.hasProbe && s.wiring.hasTransports
    ensures At(s0, es + [StartupProbe(id, pass)], s') && s'.core == s.core && s'.wiring == s.wiring
    ensures var t := s.startups[id];
            s'.startups == s.startups[id := t.(progress :=
              if !Running(t.progress) then t.progress else if !pass then Failed
              else if t.progress == Pending then GatewayPassed else Passed)]
  {
    Extend(s0, es, s, StartupProbe(id, pass));
    s' := Next(s, StartupProbe(id, pass));
  }

  lemma StepStartupEnd(s0: State, es: seq<Event>, s: State, id: nat, now: Instant) returns (s': State)
    requires At(s0, es, s) && id in s.startups && !Running(s.startups[id].progress) && s.startups[id].id == id
    requires Current(s.core, s.startups[id].generation, id)
    ensures At(s0, es + [StartupEnd(id, now)], s') && s'.core.route == s.core.route && s'.startups == s.startups - {id}
    ensures s'.core.health.state != Checking && (IsReady(s'.core) <==> s.startups[id].progress == Passed)
  {
    Extend(s0, es, s, StartupEnd(id, now));
    s' := Next(s, StartupEnd(id, now));
  }

  lemma StartupRuns(s0: State, es: seq<Event>, s: State, id: nat, first: bool, second: bool) returns (s': State)
    requires At(s0, es, s) && id in s.startups && s.startups[id].progress == Pending
    requires s.wiring.hasProbe && s.wiring.hasTransports
    ensures At(s0, es + [StartupProbe(id, first)] + [StartupProbe(id, second)], s') && s'.core == s.core
    ensures s'.startups == s.startups[id := s.startups[id].(progress := if first && second then Passed else Failed)]
  {
    s' := StepStartupProbe(s0, es, s, id, first);
    s' := StepStartupProbe(s0, es + [StartupProbe(id, first)], s', id, second);
  }

  function StartupEvents(es: seq<Event>, id: nat, first: bool, second: bool, t: Instant, now: Instant): seq<Event> {
    es + [StartupBegin(t)] + [StartupProbe(id, first)] + [StartupProbe(id, second)] + [StartupEnd(id, now)]
  }

  /** An undisturbed start-up check of an unchecked proxy route makes it ready if and only if both transports pass. */
  lemma StartupDecides(s0: State, es: seq<Event>, s: State, first: bool, second: bool, t: Instant, now: Instant)
    returns (s': State)
    requires At(s0, es, s) && Trim(s.core.route.url) != "" && s.core.health.state == NotChecked
    requires s.wiring.hasProbe && s.wiring.hasTransports
    ensures At(s0, StartupEvents(es, s.core.health.probeSeq + 1, first, second, t, now), s')
    ensures s'.core.route == s.core.route && s'.core.health.state != Checking
    ensures IsReady(s'.core) <==> first && second
  {
    var id := s.core.health.probeSeq + 1;
    s' := StepStartupBegin(s0, es, s, t);
    s' := StartupRuns(s0, es + [StartupBegin(t)], s', id, first, second);
    s' := StepStartupEnd(s0, es + [StartupBegin(t)] + [StartupProbe(id, first)] + [StartupProbe(id, second)], s', id,
                         now);
  }
}
