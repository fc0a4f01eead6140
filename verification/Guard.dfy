/** The VPN guard: preflight, the watch loop and the whole-run behaviour of its state. */
module Guard {
  import opened Prelude

  datatype ServiceState = Booting | VpnUnavailable | Ready | Degraded

  /** A probe URL and the host name `urlparse` finds in it. */
  datatype Target = Target(url: string, hostname: Option<string>)

  datatype ProbeResult = ProbeResult(target: string, ok: bool)
  datatype Reason = NoReason | NoTunnel | DnsFailed(hosts: seq<string>) | ProbesFailed(failed: seq<ProbeResult>)
  datatype VPNStatus = VPNStatus(ok: bool, interfaceFound: bool, probes: seq<ProbeResult>, reason: Reason)

  /** What one check meets: the tunnel interface, the name service, the endpoints. */
  datatype Weather = Weather(tunnel: bool, resolves: string -> bool, answers: string -> bool)

  predicate Named(t: Target) {
    t.hostname.Some? && t.hostname.value != ""
  }

  predicate Resolved(t: Target, w: Weather) {
    Named(t) ==> w.resolves(t.hostname.value)
  }

  /** When a check passes. */
  predicate Passes(required: bool, targets: seq<Target>, w: Weather) {
    required ==>
      && w.tunnel
      && (forall i :: 0 <= i < |targets| ==> Resolved(targets[i], w))
      && (forall i :: 0 <= i < |targets| ==> w.answers(targets[i].url))
  }

  /** `hosts` are exactly the host names that do not resolve. */
  ghost predicate HostsFail(targets: seq<Target>, w: Weather, hosts: seq<string>) {
    && (forall h :: h in hosts ==>
          h != "" && !w.resolves(h) && exists i :: 0 <= i < |targets| && targets[i].hostname == Some(h))
    && (forall i :: 0 <= i < |targets| && !Resolved(targets[i], w) ==> targets[i].hostname.value in hosts)
  }

  lemma HostsGrow(targets: seq<Target>, i: nat, w: Weather, hosts: seq<string>)
    requires i < |targets| && HostsFail(targets[..i], w, hosts)
    ensures var t := targets[i];
            HostsFail(targets[..i + 1], w, if Resolved(t, w) then hosts else hosts + [t.hostname.value])
  {
    var t, before, after := targets[i], targets[..i], targets[..i + 1];
    var hosts' := if Resolved(t, w) then hosts else hosts + [t.hostname.value];
    forall h | h in hosts'
      ensures h != "" && !w.resolves(h) && exists j :: 0 <= j < |after| && after[j].hostname == Some(h)
    {
      if h in hosts {
        var j :| 0 <= j < |before| && before[j].hostname == Some(h);
        assert after[j].hostname == Some(h);
      } else {
        assert after[i].hostname == Some(h);
      }
    }
    forall j | 0 <= j < |after| && !Resolved(after[j], w) ensures after[j].hostname.value in hosts' {
      if j < i { assert before[j] == after[j]; }
    }
  }

  /** One result per target, in order. */
  ghost predicate Probed(targets: seq<Target>, w: Weather, probes: seq<ProbeResult>) {
    && |probes| == |targets|
    && forall i :: 0 <= i < |probes| ==> probes[i] == ProbeResult(targets[i].url, w.answers(targets[i].url))
  }

  /** `failed` are exactly the probes that are not ok. */
  ghost predicate ProbesFail(probes: seq<ProbeResult>, failed: seq<ProbeResult>) {
    forall p :: p in failed <==> p in probes && !p.ok
  }

  function Failed(probes: seq<ProbeResult>): (failed: seq<ProbeResult>)
    ensures ProbesFail(probes, failed)
    decreases |probes|
  {
    if probes == [] then []
    else
      assert probes == [probes[0]] + probes[1..];
      (if probes[0].ok then [] else [probes[0]]) + Failed(probes[1..])
  }

  lemma {:induction false} NoneFailed(probes: seq<ProbeResult>)
    ensures Failed(probes) == [] <==> forall j :: 0 <= j < |probes| ==> probes[j].ok
    decreases |probes|
  {
    if probes != [] {
      NoneFailed(probes[1..]);
      assert forall j :: 0 < j < |probes| ==> probes[j] == probes[1..][j - 1];
    }
  }

  /** One check in the life of the guard; `watched` when the watch loop made it. */
  datatype Check = Check(watched: bool, ok: bool)

  /** The state as the history of checks determines it. */
  function StateAfter(h: seq<Check>): ServiceState {
    var n := |h|;
    if n == 0 then Booting
    else if h[n - 1].ok then Ready
    else if h[n - 1].watched && n > 1 && h[n - 2].ok then Degraded
    else VpnUnavailable
  }

  /** The check at `i` came out differently from the one before it. */
  predicate Flip(h: seq<Check>, i: nat)
    requires i < |h|
  {
    i > 0 && h[i - 1].ok != h[i].ok
  }

  /** The callbacks as the history determines them: one per flip a watch round saw. */
  function CallbacksOf(h: seq<Check>): seq<ServiceState>
    decreases |h|
  {
    if h == [] then [] else CallbacksOf(h[..|h| - 1]) + Announced(h)
  }

  /** What the last check of a history announces. */
  function Announced(h: seq<Check>): seq<ServiceState>
    requires h != []
  {
    var c := h[|h| - 1];
    if c.watched && Flip(h, |h| - 1) then [if c.ok then Ready else Degraded] else []
  }

  lemma CallbacksGrow(h: seq<Check>, h': seq<Check>)
    requires h' != [] && h == h'[..|h'| - 1]
    ensures CallbacksOf(h') == CallbacksOf(h) + Announced(h')
  {
  }

  class VPNGuard {
    const probeTargets: seq<Target>
    const vpnRequired: bool
    var state: ServiceState
    var running: bool
    /** Every `on_change` call so far. */
    var notified: seq<ServiceState>
    ghost var history: seq<Check>

    ghost predicate Valid()
      reads this
    {
      state == StateAfter(history)
    }

    constructor (targets: seq<Target>, required: bool)
      ensures Valid() && history == [] && notified == [] && !running
      ensures probeTargets == targets && vpnRequired == required
    {
      probeTargets, vpnRequired := targets, required;
      state, running, notified, history := Booting, false, [], [];
    }

    /** `preflight`, called by the start-up code or by the watch loop. */
    method Preflight(w: Weather, ghost watched: bool) returns (status: VPNStatus)
      modifies `state, `history
      ensures status.ok <==> Passes(vpnRequired, probeTargets, w)
      ensures state == if status.ok then Ready else VpnUnavailable
      ensures history == old(history) + [Check(watched, status.ok)]
      ensures status.interfaceFound == w.tunnel
      ensures status.ok <==> status.reason.NoReason?
      ensures status.reason.NoTunnel? <==> vpnRequired && !w.tunnel
      ensures status.reason.DnsFailed? ==> status.reason.hosts != [] && HostsFail(probeTargets, w, status.reason.hosts)
      ensures status.reason.ProbesFailed? ==>
                status.reason.failed != [] && ProbesFail(status.probes, status.reason.failed)
      ensures status.ok || status.reason.ProbesFailed? ==> Probed(probeTargets, w, status.probes)
      ensures status.reason.ProbesFailed? ==> forall i :: 0 <= i < |probeTargets| ==> Resolved(probeTargets[i], w)
    {
      if !w.tunnel && vpnRequired {
        state, history := VpnUnavailable, history + [Check(watched, false)];
        return VPNStatus(false, false, [], NoTunnel);
      }

      var dnsFailures: seq<string> := [];
      for i := 0 to |probeTargets|
        invariant dnsFailures == [] <==> forall j :: 0 <= j < i ==> Resolved(probeTargets[j], w)
        invariant HostsFail(probeTargets[..i], w, dnsFailures)
        invariant history == old(history)
      {
        var t := probeTargets[i];
        HostsGrow(probeTargets, i, w, dnsFailures);
        if Named(t) && !w.resolves(t.hostname.value) {
          dnsFailures := dnsFailures + [t.hostname.value];
        }
      }
      assert probeTargets[..|probeTargets|] == probeTargets;
      if dnsFailures != [] && vpnRequired {
        state, history := VpnUnavailable, history + [Check(watched, false)];
        return VPNStatus(false, w.tunnel, [], DnsFailed(dnsFailures));
      }

      var probes: seq<ProbeResult> := [];
      for i := 0 to |probeTargets|
        invariant Probed(probeTargets[..i], w, probes)
      {
        probes := probes + [ProbeResult(probeTargets[i].url, w.answers(probeTargets[i].url))];
      }
      assert probeTargets[..|probeTargets|] == probeTargets;
      var failed := Failed(probes);
      NoneFailed(probes);
      assert failed == [] <==> forall i :: 0 <= i < |probeTargets| ==> w.answers(probeTargets[i].url) by {
        assert forall i :: 0 <= i < |probeTargets| ==> probes[i].ok == w.answers(probeTargets[i].url);
      }
      if failed != [] && vpnRequired {
        state, history := VpnUnavailable, history + [Check(watched, false)];
        return VPNStatus(false, w.tunnel, probes, ProbesFailed(failed));
      }

      state, history := Ready, history + [Check(watched, true)];
      return VPNStatus(true, w.tunnel, probes, NoReason);
    }

    /** One round of the watch loop. */
    method WatchRound(w: Weather)
      requires Valid()
      modifies `state, `history, `notified
      ensures Valid()
      ensures history == old(history) + [Check(true, Passes(vpnRequired, probeTargets, w))]
      ensures notified == old(notified) + Announced(history)
    {
      var previous := state;
      var status := Preflight(w, true);
      assert history[..|history| - 1] == old(history);
      if status.ok && previous != Ready && previous != Booting {
        notified := notified + [Ready];
      } else if !status.ok && previous == Ready {
        state := Degraded;
        notified := notified + [Degraded];
      }
    }

    /** `watch`, for the rounds that take place before it is stopped. */
    method Watch(rounds: seq<Weather>)
      requires Valid()
      modifies this
      ensures Valid() && running
      ensures history == old(history) + Rounds(vpnRequired, probeTargets, rounds)
      ensures old(notified) == CallbacksOf(old(history)) ==> notified == CallbacksOf(history)
    {
      hide CallbacksOf, Rounds, Passes, Announced, StateAfter;
      running := true;
      RoundsNone(vpnRequired, probeTargets);
      var i := 0;
      while i < |rounds|
        invariant i <= |rounds| && Valid() && running
        invariant history == old(history) + Rounds(vpnRequired, probeTargets, rounds[..i])
        invariant old(notified) == CallbacksOf(old(history)) ==> notified == CallbacksOf(history)
      {
        ghost var before := history;
        WatchRound(rounds[i]);
        CallbacksGrow(before, history);
        RoundsGrow(vpnRequired, probeTargets, rounds, i);
        i := i + 1;
      }
      assert rounds[..i] == rounds;
    }

    method Stop()
      modifies `running
      ensures !running
    {
      running := false;
    }
  }

  /** What the node does with a guard: one check at start-up, then the watch loop. */
  method Monitor(targets: seq<Target>, required: bool, boot: Weather, rounds: seq<Weather>) returns (g: VPNGuard)
    ensures fresh(g) && g.Valid()
    ensures g.history == [Check(false, Passes(required, targets, boot))] + Rounds(required, targets, rounds)
    ensures g.state == StateAfter(g.history) && g.notified == CallbacksOf(g.history) && Lifetime(g.history)
  {
    g := new VPNGuard(targets, required);
    var status := g.Preflight(boot, false);
    assert g.history == [Check(false, status.ok)];
    CallbacksGrow([], g.history);
    g.Watch(rounds);
  }

  /** The checks a watch loop makes. */
  function Rounds(required: bool, targets: seq<Target>, rounds: seq<Weather>): (r: seq<Check>)
    ensures |r| == |rounds|
    ensures forall i :: 0 <= i < |r| ==> r[i] == Check(true, Passes(required, targets, rounds[i]))
    decreases |rounds|
  {
    if rounds == [] then []
    else
      Rounds(required, targets, rounds[..|rounds| - 1]) + [Check(true, Passes(required, targets, rounds[|rounds| - 1]))]
  }

  lemma RoundsNone(required: bool, targets: seq<Target>)
    ensures Rounds(required, targets, []) == []
  {
  }

  lemma RoundsGrow(required: bool, targets: seq<Target>, rounds: seq<Weather>, i: nat)
    requires i < |rounds|
    ensures Rounds(required, targets, rounds[..i + 1])
         == Rounds(required, targets, rounds[..i]) + [Check(true, Passes(required, targets, rounds[i]))]
  {
    assert rounds[..i + 1][..i] == rounds[..i];
  }

  // ---------------------------------------------------------------- whole runs

  /** A start-up check, or none, followed by watch rounds. */
  ghost predicate Lifetime(h: seq<Check>) {
    forall i :: 0 < i < |h| ==> h[i].watched
  }

  function CountFlips(h: seq<Check>): nat
    decreases |h|
  {
    if h == [] then 0 else CountFlips(h[..|h| - 1]) + if Flip(h, |h| - 1) then 1 else 0
  }

  /** Callbacks are as many as flips. */
  lemma {:induction false} CallbacksCountFlips(h: seq<Check>)
    requires Lifetime(h)
    ensures |CallbacksOf(h)| == CountFlips(h)
    decreases |h|
  {
    if h != [] { CallbacksCountFlips(h[..|h| - 1]); }
  }

  /** The last callback tells how the last check came out, and callbacks strictly alternate. */
  lemma {:induction false} CallbacksAlternate(h: seq<Check>)
    requires Lifetime(h) && h != []
    ensures var c := CallbacksOf(h);
            && (forall i :: 0 < i < |c| ==> c[i] != c[i - 1])
            && (c != [] ==> c[|c| - 1] == if h[|h| - 1].ok then Ready else Degraded)
            && (c == [] ==> h[|h| - 1].ok == h[0].ok)
            && (c != [] ==> c[0] == if h[0].ok then Degraded else Ready)
    decreases |h|
  {
    if |h| > 1 {
      var before := h[..|h| - 1];
      CallbacksAlternate(before);
      CallbacksGrow(before, h);
      hide CallbacksOf;
      assert before[0] == h[0] && before[|before| - 1] == h[|h| - 2];
    } else {
      assert h[..0] == [];
      assert CallbacksOf(h[..0]) == [];
    }
  }

  /** READY exactly after a pass, DEGRADED exactly after a failure that follows a
      pass in the watch loop, otherwise VPN_UNAVAILABLE; and whoever knows the first
      check and the callbacks knows whether the guard is ready now. */
  lemma StateAgreesWithCallbacks(h: seq<Check>)
    requires Lifetime(h) && h != []
    ensures var c := CallbacksOf(h);
            var s := StateAfter(h);
            && (s == Ready <==> h[|h| - 1].ok)
            && (s == Degraded <==> |h| > 1 && !h[|h| - 1].ok && h[|h| - 2].ok)
            && s != Booting
            && (s == Ready <==> if c == [] then h[0].ok else c[|c| - 1] == Ready)
            && (s == Degraded ==> c != [] && c[|c| - 1] == Degraded)
  {
    CallbacksAlternate(h);
    if |h| == 1 { assert h[..0] == []; }
  }
}
