// Replica arithmetic of the proxy autoscaler (internal/proxy/autoscaler.go). The
// answers of the cluster's API are parameters: whether a list, get or patch call works.
module Autoscaler {
  import opened Wrappers

  datatype Scaling = Scaling(perProxy: int, minReplicas: int, maxReplicas: int)

  // What Config.Validate demands when autoscaling is on.
  predicate Validated(s: Scaling) {
    s.perProxy > 0 && s.minReplicas >= 0 && (s.maxReplicas > 0 ==> s.minReplicas <= s.maxReplicas)
  }

  function Per(s: Scaling): (per: int)
    ensures per > 0
  {
    if s.perProxy <= 0 then 100 else s.perProxy
  }

  function DesiredReplicas(s: Scaling, n: int): int {
    if n <= 0 then s.minReplicas
    else
      var needed := (n + Per(s) - 1) / Per(s);
      var raised := if needed < 1 then 1 else needed;
      var floored := if raised < s.minReplicas then s.minReplicas else raised;
      if s.maxReplicas > 0 && floored > s.maxReplicas then s.maxReplicas else floored
  }

  datatype Pod = Pod(name: string, terminating: bool)

  function Live(pods: seq<Pod>): nat {
    if pods == [] then 0 else Live(pods[..|pods| - 1]) + (if pods[|pods| - 1].terminating then 0 else 1)
  }

  // A deployment without an explicit count is read as zero replicas.
  function Current(replicas: Option<int>): int { if replicas.Some? then replicas.value else 0 }

  function Reconciled(s: Scaling, n: int, replicas: Option<int>): Option<int> {
    if Current(replicas) == DesiredReplicas(s, n) then replicas else Some(DesiredReplicas(s, n))
  }

  function Target(s: Scaling, n: int): int { if DesiredReplicas(s, n + 1) < 1 then 1 else DesiredReplicas(s, n + 1) }

  function Ensured(s: Scaling, n: int, replicas: Option<int>): Option<int> {
    if Current(replicas) >= Target(s, n) then replicas else Some(Target(s, n))
  }

  // Which calls the API answers, and whether a proxy becomes ready before the timeout.
  datatype Answers = Answers(list: bool, get: bool, patch: bool, ready: bool)

  class Autoscaler {
    const scaling: Scaling
    var pods: seq<Pod>          // the sandbox pods of the namespace
    var replicas: Option<int>   // the deployment's spec
    var patches: nat            // how often it was patched

    constructor (scaling: Scaling, pods: seq<Pod>, replicas: Option<int>)
      ensures this.scaling == scaling && this.pods == pods && this.replicas == replicas && patches == 0
    {
      this.scaling, this.pods, this.replicas, patches := scaling, pods, replicas, 0;
    }

    method CountSandboxPods() returns (n: nat)
      ensures n == Live(pods)
    {
      n := 0;
      for i := 0 to |pods|
        invariant n == Live(pods[..i])
      {
        assert pods[..i + 1][..i] == pods[..i];
        if !pods[i].terminating { n := n + 1; }
      }
      assert pods[..|pods|] == pods;
    }

    method PatchReplicas(desired: int)
      modifies `replicas, `patches
      ensures replicas == Some(desired) && patches == old(patches) + 1
    {
      replicas, patches := Some(desired), patches + 1;
    }

    method ScaleTo(desired: int, api: Answers) returns (ok: bool)
      modifies `replicas, `patches
      ensures ok <==> api.get && (Current(old(replicas)) == desired || api.patch)
      ensures ok ==> Current(replicas) == desired
      ensures if ok && Current(old(replicas)) != desired then patches == old(patches) + 1 && replicas == Some(desired)
        else patches == old(patches) && replicas == old(replicas)
    {
      if !api.get { return false; }
      var current := if replicas.Some? then replicas.value else 0;
      if current == desired { return true; }
      if !api.patch { return false; }
      PatchReplicas(desired);
      return true;
    }

    method ScaleUpTo(desired: int, api: Answers) returns (ok: bool)
      modifies `replicas, `patches
      ensures ok <==> api.get && (Current(old(replicas)) >= desired || api.patch)
      ensures ok ==> Current(replicas) >= desired
      ensures if ok && Current(old(replicas)) < desired then patches == old(patches) + 1 && replicas == Some(desired)
        else patches == old(patches) && replicas == old(replicas)
    {
      if !api.get { return false; }
      var current := if replicas.Some? then replicas.value else 0;
      if current >= desired { return true; }
      if !api.patch { return false; }
      PatchReplicas(desired);
      return true;
    }

    method Reconcile(api: Answers) returns (ok: bool)
      modifies `replicas, `patches
      ensures replicas == if ok then Reconciled(scaling, Live(pods), old(replicas)) else old(replicas)
      ensures patches == old(patches) + (if replicas == old(replicas) then 0 else 1)
      ensures ok <==>
        api.list && api.get && (Current(old(replicas)) == DesiredReplicas(scaling, Live(pods)) || api.patch)
    {
      if !api.list { return false; }
      var n := CountSandboxPods();
      ok := ScaleTo(DesiredReplicas(scaling, n), api);
    }

    // Scales up, then waits: without a ready proxy the call fails, and the count stays.
    method EnsureReady(api: Answers) returns (ok: bool)
      modifies `replicas, `patches
      ensures var scaled := api.list && api.get && (Current(old(replicas)) >= Target(scaling, Live(pods)) || api.patch);
        && replicas == (if scaled then Ensured(scaling, Live(pods), old(replicas)) else old(replicas))
        && (ok <==> scaled && api.ready)
    {
      if !api.list { return false; }
      var n := CountSandboxPods();
      var desired := DesiredReplicas(scaling, n + 1);
      if desired < 1 { desired := 1; }
      ok := ScaleUpTo(desired, api);
      if !ok { return false; }
      return api.ready;
    }
  }

  // The indices of the pods not being deleted.
  function LiveAt(pods: seq<Pod>): set<nat> { set i: nat | i < |pods| && !pods[i].terminating }

  lemma {:induction false} LiveCounts(pods: seq<Pod>)
    ensures Live(pods) == |LiveAt(pods)|
    decreases |pods|
  {
    if pods != [] {
      var last := |pods| - 1;
      LiveCounts(pods[..last]);
      assert LiveAt(pods) == LiveAt(pods[..last]) + (if pods[last].terminating then {} else {last});
    } else {
      assert LiveAt(pods) == {};
    }
  }

  // ---- The count wanted -------------------------------------------------------------

  lemma DesiredWithinBounds(s: Scaling, n: int)
    requires Validated(s)
    ensures var r := DesiredReplicas(s, n);
      s.minReplicas <= r && (s.maxReplicas > 0 ==> r <= s.maxReplicas) && (n >= 1 ==> r >= 1)
  {
  }

  lemma TimesKeepsOrder(a: int, b: int, per: int)
    requires a <= b && per >= 0
    ensures a * per <= b * per
  {
    assert (b - a) * per >= 0;
  }

  // Division finds the one quotient whose remainder fits.
  lemma Quotient(x: int, q: int, per: int)
    requires per >= 1 && q * per <= x < q * per + per
    ensures x / per == q
  {
    var d := x / per;
    DivisionFits(x, per);
    if d < q { TimesKeepsOrder(d + 1, q, per); }
    if d > q { TimesKeepsOrder(q + 1, d, per); }
    assert (d + 1) * per == d * per + per && (q + 1) * per == q * per + per;
  }

  lemma DivisionFits(x: int, per: int)
    requires per >= 1
    ensures x / per * per <= x < x / per * per + per
  {
    assert x == x / per * per + x % per;
  }

  lemma CeilingIsLeast(n: int, per: int, r: int)
    requires n >= 1 && per >= 1
    ensures var c := (n + per - 1) / per; c >= 1 && c * per >= n && (r * per >= n ==> r >= c)
  {
    var c := (n + per - 1) / per;
    DivisionFits(n + per - 1, per);
    if c < 1 { TimesKeepsOrder(c, 0, per); }
    if r < c { TimesKeepsOrder(r, c - 1, per); }
    assert (c - 1) * per == c * per - per;
  }

  // For a positive number of sandboxes the count is the least that respects the floor,
  // is not zero and gives every sandbox its share of a proxy, cut at the cap.
  lemma DesiredIsLeast(s: Scaling, n: int, r: int)
    requires n >= 1
    ensures var d := DesiredReplicas(s, n);
      var per := if s.perProxy > 0 then s.perProxy else 100;
      && ((s.maxReplicas > 0 && d == s.maxReplicas) || (d >= 1 && d >= s.minReplicas && d * per >= n))
      && (r >= 1 && r >= s.minReplicas && r * per >= n ==> d <= r)
  {
    var c := (n + Per(s) - 1) / Per(s);
    CeilingIsLeast(n, Per(s), r);
    var floored := if c < s.minReplicas then s.minReplicas else c;
    assert floored * Per(s) >= c * Per(s) by { assert (floored - c) * Per(s) >= 0; }
  }

  lemma DesiredIsMonotone(s: Scaling, n: int, m: int)
    requires Validated(s) && n <= m
    ensures DesiredReplicas(s, n) <= DesiredReplicas(s, m)
  {
    DesiredWithinBounds(s, m);
    if n >= 1 {
      CeilingIsLeast(m, Per(s), 0);
      CeilingIsLeast(n, Per(s), (m + Per(s) - 1) / Per(s));
    }
  }

  // ---- Two writers --------------------------------------------------------------------

  // A second pass over the same pods finds nothing to patch.
  lemma ReconcileSettles(s: Scaling, n: int, replicas: Option<int>)
    ensures var once := Reconciled(s, n, replicas);
      Current(once) == DesiredReplicas(s, n) && Reconciled(s, n, once) == once
  {
  }

  lemma ReconcileKeepsAProxy(s: Scaling, n: int, replicas: Option<int>)
    requires Validated(s) && n >= 1
    ensures Current(Reconciled(s, n, replicas)) >= 1
  {
    DesiredWithinBounds(s, n);
  }

  // Ensuring readiness never lowers the count, leaves room for the sandbox to come,
  // and once that sandbox is counted the timed pass agrees with it.
  lemma EnsureReadyOnlyRaises(s: Scaling, n: nat, replicas: Option<int>)
    requires Validated(s)
    ensures var after := Ensured(s, n, replicas);
      && Current(after) >= Current(replicas) && Current(after) >= 1 && Current(after) >= DesiredReplicas(s, n + 1)
      && (Current(replicas) <= DesiredReplicas(s, n + 1) ==> Reconciled(s, n + 1, after) == after)
  {
    DesiredWithinBounds(s, n + 1);
  }

  lemma NextDesired(s: Scaling, n: nat)
    requires Validated(s)
    ensures DesiredReplicas(s, n + 1) > DesiredReplicas(s, n) <==>
      n % s.perProxy == 0 && n / s.perProxy >= s.minReplicas && (s.maxReplicas <= 0 || n / s.perProxy < s.maxReplicas)
  {
    var per := s.perProxy;
    var q, r := n / per, n % per;
    assert n == q * per + r;
    CeilingOf(q, r, per);
  }

  // The ceiling quotients of n and n + 1, from the quotient and remainder of n.
  lemma CeilingOf(q: nat, r: nat, per: int)
    requires per >= 1 && r < per
    ensures (q * per + r + 1 + per - 1) / per == q + 1
    ensures (q * per + r + per - 1) / per == if r == 0 then q else q + 1
  {
    assert (q + 1) * per == q * per + per;
    Quotient(q * per + r + 1 + per - 1, q + 1, per);
    Quotient(q * per + r + per - 1, if r == 0 then q else q + 1, per);
  }

  // A timed pass that runs before the new sandbox is counted lowers the count exactly
  // when it stood above what the sandboxes counted want, or those sandboxes fill their
  // proxies, at or above the floor and below the cap.
  lemma EarlyReconcileUndoes(s: Scaling, n: nat, replicas: Option<int>)
    requires Validated(s)
    ensures Current(Reconciled(s, n, Ensured(s, n, replicas))) < Current(Ensured(s, n, replicas)) <==>
      Current(replicas) > DesiredReplicas(s, n)
      || (n % s.perProxy == 0 && n / s.perProxy >= s.minReplicas
          && (s.maxReplicas <= 0 || n / s.perProxy < s.maxReplicas))
  {
    NextDesired(s, n);
    DesiredWithinBounds(s, n + 1);
    DesiredIsMonotone(s, n, n + 1);
    hide DesiredReplicas;
  }
}
