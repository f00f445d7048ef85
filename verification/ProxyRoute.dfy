/**
  cmd/server/proxy_runtime.go, the part protected by `mu`: the published route,
  its diagnostic health, and every critical section that changes them.
 */
module ProxyRoute {
  import opened Text

  datatype ProbeState = NotChecked | Checking | Healthy | Unhealthy | Superseded

  /** A transport is an opaque identity. */
  type Transport = nat

  /** Wall-clock instants; 0 is Go's zero time. */
  type Instant = n: nat | n > 0 witness 1

  /** proxied: the parsed proxy functions are not empty. */
  datatype Route = Route(url: string, proxied: bool, tls: bool, gateway: Transport, codex: Transport, generation: nat)

  datatype Health = Health(state: ProbeState, error: string, at: nat, probeSeq: nat)

  datatype Core = Core(route: Route, health: Health)

  // ----- The critical sections as functions -----

  /** Re-applying direct mode: there is no proxy process to probe. */
  function DirectReapply(c: Core, now: Instant): Core {
    c.(health := Health(Healthy, "", now, c.health.probeSeq))
  }

  function TransportsMissing(c: Core, now: Instant): Core {
    c.(health := Health(Unhealthy, "proxy transports are not configured", now, c.health.probeSeq))
  }

  /** A health check of the published route starts; its id is the new probeSeq. */
  function BeginProbe(c: Core, now: Instant): Core {
    c.(health := Health(Checking, "", now, c.health.probeSeq + 1))
  }

  predicate Current(c: Core, generation: nat, id: nat) {
    generation == c.route.generation && id == c.health.probeSeq
  }

  /** The switch holder's re-probe reports; error is empty on success. */
  function EndReprobe(c: Core, generation: nat, id: nat, error: string, now: Instant): Core {
    if Current(c, generation, id)
    then c.(health := Health(if error == "" then Healthy else Unhealthy, error, now, c.health.probeSeq))
    else c
  }

  /** StartStartupProbe: the new state, and whether a background probe was launched. */
  function BeginStartup(c: Core, now: Instant): (Core, bool) {
    if c.health.state == Checking then (c, false)
    else if Trim(c.route.url) == "" then (DirectReapply(c, now), false)
    else if c.health.state == Healthy && c.health.at != 0 then (c, false)
    else (BeginProbe(c, now), true)
  }

  function EndStartup(c: Core, generation: nat, id: nat, error: string, now: Instant): Core {
    if !Current(c, generation, id) then
      if generation != c.route.generation && c.health.state == Checking
      then c.(health := c.health.(state := Superseded, error := "route changed while startup check was running"))
      else c
    else EndReprobe(c, generation, id, error, now)
  }

  function Publish(c: Core, raw: string, gateway: Transport, codex: Transport, validated: bool, now: Instant): Core {
    Core(Route(raw, raw != "", c.route.tls, gateway, codex, c.route.generation + 1),
         if validated || raw == ""
         then Health(Healthy, "", now, c.health.probeSeq + 1)
         else Health(NotChecked, "", 0, c.health.probeSeq + 1))
  }

  /** previous is the probe state read before the write lock was taken. */
  function PublishTls(c: Core, enabled: bool, next: Transport, validated: bool, previous: ProbeState,
                      now: Instant): Core {
    Core(c.route.(tls := enabled, codex := next, generation := c.route.generation + 1),
         if !validated || previous == Checking then Health(NotChecked, "", 0, c.health.probeSeq + 1)
         else if previous == Healthy then Health(Healthy, "", now, c.health.probeSeq + 1)
         else c.health.(probeSeq := c.health.probeSeq + 1))
  }

  predicate IsReady(c: Core) { c.health.state == Healthy && c.health.error == "" }

  /** The published route is the same, and exactly the probes that counted before still count. */
  ghost predicate SameRouteAndTokens(c: Core, c': Core) {
    c'.route == c.route && forall gen, id :: Current(c', gen, id) <==> Current(c, gen, id)
  }

  // ----- The object: each method is one critical section of `mu` -----

  class ProxyTransportRuntime {
    var proxyURL: string
    var proxied: bool
    var tls: bool
    var gateway: Transport
    var codex: Transport
    var generation: nat
    var probeState: ProbeState
    var probeError: string
    var probeAt: nat
    var probeSeq: nat

    ghost function View(): Core
      reads this
    {
      Core(Route(proxyURL, proxied, tls, gateway, codex, generation),
           Health(probeState, probeError, probeAt, probeSeq))
    }

    constructor (url: string, tlsEnabled: bool, g: Transport, x: Transport)
      ensures View() == InitialCore(url, tlsEnabled, g, x)
      ensures !IsReady(View()) && forall gen, id :: id > 0 ==> !Current(View(), gen, id)
    {
      proxyURL, proxied, tls, gateway, codex := url, Trim(url) != "", tlsEnabled, g, x;
      generation, probeSeq := 0, 0;
      probeState, probeError, probeAt := NotChecked, "", 0;
    }

    method MarkDirectHealthy(now: Instant)
      modifies this
      ensures View() == DirectReapply(old(View()), now)
      ensures IsReady(View()) && SameRouteAndTokens(old(View()), View())
    {
      probeState, probeError, probeAt := Healthy, "", now;
    }

    method MarkTransportsMissing(now: Instant)
      modifies this
      ensures View() == TransportsMissing(old(View()), now)
      ensures !IsReady(View()) && View().health.state != Checking && SameRouteAndTokens(old(View()), View())
    {
      probeState, probeError, probeAt := Unhealthy, "proxy transports are not configured", now;
    }

    method StartProbe(now: Instant) returns (gen: nat, id: nat)
      modifies this
      ensures View() == BeginProbe(old(View()), now)
      ensures Current(View(), gen, id) && !Current(old(View()), gen, id)
      ensures forall g, i :: Current(old(View()), g, i) ==> !Current(View(), g, i)
    {
      gen := generation;
      probeSeq := probeSeq + 1;
      id := probeSeq;
      probeState, probeError, probeAt := Checking, "", now;
    }

    method FinishReprobe(gen: nat, id: nat, error: string, now: Instant)
      modifies this
      ensures View() == EndReprobe(old(View()), gen, id, error, now)
      ensures SameRouteAndTokens(old(View()), View())
      ensures !Current(old(View()), gen, id) ==> View() == old(View())
      ensures Current(old(View()), gen, id) ==> View().health.state != Checking && (IsReady(View()) <==> error == "")
    {
      if gen == generation && id == probeSeq {
        probeAt := now;
        if error != "" {
          probeState, probeError := Unhealthy, error;
        } else {
          probeState, probeError := Healthy, "";
        }
      }
    }

    method StartStartupProbe(now: Instant) returns (started: bool, gen: nat, id: nat)
      modifies this
      ensures (View(), started) == BeginStartup(old(View()), now)
      ensures started ==> Current(View(), gen, id) && !Current(old(View()), gen, id) && probeState == Checking
      ensures started <==>
        old(probeState) != Checking && Trim(proxyURL) != "" && !(old(probeState) == Healthy && old(probeAt) != 0)
      ensures old(probeState) != Checking && Trim(proxyURL) == "" ==> IsReady(View())
      ensures View().route == old(View()).route && (!started && Trim(proxyURL) != "" ==> View() == old(View()))
    {
      started, gen, id := false, generation, probeSeq;
      if probeState == Checking {
        return;
      }
      if Trim(proxyURL) == "" {
        probeState, probeError, probeAt := Healthy, "", now;
        return;
      }
      if probeState == Healthy && probeAt != 0 {
        return;
      }
      gen, id := StartProbe(now);
      started := true;
    }

    method FinishStartupProbe(gen: nat, id: nat, error: string, now: Instant)
      modifies this
      ensures View() == EndStartup(old(View()), gen, id, error, now)
      ensures SameRouteAndTokens(old(View()), View())
      ensures IsReady(View()) && !IsReady(old(View())) ==> Current(old(View()), gen, id) && error == ""
      ensures Current(old(View()), gen, id) ==> (IsReady(View()) <==> error == "")
      ensures View().health.state == Checking ==>
        old(View()).health.state == Checking && gen == old(generation) && id != old(probeSeq)
      ensures gen != old(generation) && old(probeState) == Checking ==> probeState == Superseded
    {
      if gen != generation || id != probeSeq {
        if gen != generation && probeState == Checking {
          probeState, probeError := Superseded, "route changed while startup check was running";
        }
        return;
      }
      probeAt := now;
      if error != "" {
        probeState, probeError := Unhealthy, error;
        return;
      }
      probeState, probeError := Healthy, "";
    }

    method PublishRoute(raw: string, g: Transport, x: Transport, validated: bool, now: Instant)
      returns (oldGateway: Transport, oldCodex: Transport)
      modifies this
      ensures View() == Publish(old(View()), raw, g, x, validated, now)
      ensures gateway == g && codex == x && proxyURL == raw
      ensures (proxied <==> raw != "") && generation == old(generation) + 1
      ensures forall gen: nat, id: nat :: gen <= old(generation) ==> !Current(View(), gen, id)
      ensures IsReady(View()) <==> validated || !View().route.proxied
      ensures View().health.state != Checking && View().route.tls == old(View()).route.tls
      ensures oldGateway == old(gateway) && oldCodex == old(codex)
    {
      oldGateway, oldCodex := gateway, codex;
      gateway, codex := g, x;
      proxyURL, proxied := raw, raw != "";
      generation, probeSeq := generation + 1, probeSeq + 1;
      if validated || raw == "" {
        probeState, probeError, probeAt := Healthy, "", now;
      } else {
        probeState, probeError, probeAt := NotChecked, "", 0;
      }
    }

    /** The gateway is republished unchanged, and returned as replaced all the same. */
    method PublishTlsRoute(enabled: bool, next: Transport, validated: bool, previous: ProbeState, now: Instant)
      returns (oldGateway: Transport, oldCodex: Transport)
      modifies this
      ensures View() == PublishTls(old(View()), enabled, next, validated, previous, now)
      ensures codex == next && tls == enabled && generation == old(generation) + 1
      ensures forall gen: nat, id: nat :: gen <= old(generation) ==> !Current(View(), gen, id)
      ensures View().route.url == old(View()).route.url && View().route.proxied == old(View()).route.proxied
              && gateway == oldGateway
      ensures IsReady(View()) <==> validated && previous != Checking && (previous == Healthy || IsReady(old(View())))
      ensures oldGateway == old(gateway) && oldCodex == old(codex)
    {
      oldGateway, oldCodex := gateway, codex;
      codex, tls := next, enabled;
      generation, probeSeq := generation + 1, probeSeq + 1;
      if !validated || previous == Checking {
        probeState, probeError, probeAt := NotChecked, "", 0;
      } else if previous == Healthy {
        probeState, probeError, probeAt := Healthy, "", now;
      }
    }

    method Ready() returns (r: bool)
      ensures r == IsReady(View())
    {
      r := probeState == Healthy && probeError == "";
    }
  }

  function InitialCore(url: string, tls: bool, g: Transport, x: Transport): Core {
    Core(Route(url, Trim(url) != "", tls, g, x, 0), Health(NotChecked, "", 0, 0))
  }
}
