/** The load balancer in front of a Talos cluster: an Envoy container bound to every node
    of the cluster, with a TCP pass-through for the Kubernetes API and the Talos API. */
module TalosProxy {
  import opened Wrappers
  import opened Text
  import opened Dagger
  import opened Seqs
  import opened Talos

  const EnvoyImage: string := "envoyproxy/envoy:v1.32.1"
  const KubeApiPort: nat := 6443
  const TalosApiPort: nat := 50000

  // ---------------------------------------------------------------------------
  // The Envoy configuration

  /** A TCP pass-through: connections to `listenPort` go to the upstream cluster named
      `cluster`, which resolves `address` and connects to `upstreamPort`. */
  datatype Route = Route(listenPort: nat, cluster: string, address: string, upstreamPort: nat)

  function KubeApiRoute(address: string): Route {
    Route(KubeApiPort, "kube-api", address, KubeApiPort)
  }

  function TalosApiRoute(address: string): Route {
    Route(TalosApiPort, "talos-api", address, TalosApiPort)
  }

  /** The proxy's two pass-throughs, both to the cluster's VIP. */
  function ProxyRoutes(vip: string): seq<Route> {
    [KubeApiRoute(vip), TalosApiRoute(vip)]
  }

  const EnvoyPrelude: string := "\n---\nstatic_resources:\n  listeners:\n"
  const ListenerHead: string := "  - address:\n      socket_address:\n        address: 0.0.0.0\n        port_value: "
  const ListenerMid: string :=
    "\n    filter_chains:\n    - filters:\n      - name: envoy.filters.network.tcp_proxy\n        typed_config:\n"
    + "          \"@type\": type.googleapis.com/envoy.extensions.filters.network.tcp_proxy.v3.TcpProxy\n          cluster: "
  const ListenerTail: string := "\n          stat_prefix: https_passthrough\n"
  const ClustersHeader: string := "  clusters:\n"
  const UpstreamName: string := "  - name: "
  const UpstreamKind: string := "\n    type: STRICT_DNS\n    lb_policy: ROUND_ROBIN\n    load_assignment:\n      cluster_name: "
  const UpstreamAddress: string :=
    "\n      endpoints:\n      - lb_endpoints:\n        - endpoint:\n            address:\n"
    + "              socket_address:\n                address: "
  const UpstreamPort: string := "\n                port_value: "

  /** A listener on all interfaces that passes TCP through to the named cluster. */
  function ListenerText(port: nat, cluster: string): string {
    ListenerHead + NatToString(port) + ListenerMid + cluster + ListenerTail
  }

  /** A strict-DNS, round-robin cluster up to the address of its one endpoint. */
  function UpstreamHead(cluster: string): string {
    UpstreamName + cluster + UpstreamKind + cluster + UpstreamAddress
  }

  /** The endpoint's port, ending the cluster. */
  function UpstreamTail(port: nat): string {
    UpstreamPort + NatToString(port) + "\n"
  }

  /** The configuration text: all listeners, then all clusters, in route order. */
  function RenderEnvoy(routes: seq<Route>): string {
    EnvoyPrelude
    + FlatMap(routes, (r: Route) => ListenerText(r.listenPort, r.cluster))
    + ClustersHeader
    + FlatMap(routes, (r: Route) => UpstreamHead(r.cluster) + r.address + UpstreamTail(r.upstreamPort))
  }

  /** The `envoy.yaml` the proxy runs with. */
  function EnvoyConfig(vip: string): string {
    RenderEnvoy(ProxyRoutes(vip))
  }

  /** The configuration text up to the first backend address. */
  function EnvoyBeforeFirst(): string {
    EnvoyPrelude + ListenerText(KubeApiPort, "kube-api") + ListenerText(TalosApiPort, "talos-api") + ClustersHeader
    + UpstreamHead("kube-api")
  }

  /** The configuration text between the two backend addresses. */
  function EnvoyBetween(): string {
    UpstreamTail(KubeApiPort) + UpstreamHead("talos-api")
  }

  /** The configuration text after the second backend address. */
  function EnvoyAfterSecond(): string {
    UpstreamTail(TalosApiPort)
  }

  lemma TwoRoutes<B>(r1: Route, r2: Route, f: Route -> seq<B>)
    ensures FlatMap([r1, r2], f) == f(r1) + f(r2)
  {
    assert [r1, r2][..1] == [r1];
    assert [r1][..0] == [];
    assert FlatMap([r1], f) == FlatMap([], f) + f(r1);
    assert FlatMap([r1, r2], f) == FlatMap([r1], f) + f(r2);
  }

  lemma Regroup<T>(p: seq<T>, l1: seq<T>, l2: seq<T>, h: seq<T>, u1: seq<T>, v: seq<T>, t1: seq<T>, u2: seq<T>, t2: seq<T>)
    ensures p + (l1 + l2) + h + ((u1 + v + t1) + (u2 + v + t2))
            == (p + l1 + l2 + h + u1) + v + (t1 + u2) + v + t2
  {
  }

  /** The configuration is a fixed text with the VIP in exactly two places: the address
      of the `kube-api` backend and the address of the `talos-api` backend. */
  lemma EnvoyConfigSlots(vip: string)
    ensures EnvoyConfig(vip) == EnvoyBeforeFirst() + vip + EnvoyBetween() + vip + EnvoyAfterSecond()
  {
    var k, t := KubeApiRoute(vip), TalosApiRoute(vip);
    TwoRoutes(k, t, (r: Route) => ListenerText(r.listenPort, r.cluster));
    TwoRoutes(k, t, (r: Route) => UpstreamHead(r.cluster) + r.address + UpstreamTail(r.upstreamPort));
    Regroup(EnvoyPrelude, ListenerText(KubeApiPort, "kube-api"), ListenerText(TalosApiPort, "talos-api"),
            ClustersHeader, UpstreamHead("kube-api"), vip, UpstreamTail(KubeApiPort),
            UpstreamHead("talos-api"), UpstreamTail(TalosApiPort));
  }

  /** The value in the first of two equal slots of a text laid out as `a + v + b + v + c`. */
  function SlotValue(a: string, b: string, c: string, text: string): Option<string> {
    var fixed := |a| + |b| + |c|;
    if |text| < fixed || (|text| - fixed) % 2 != 0 then None
    else Some(text[|a|..|a| + (|text| - fixed) / 2])
  }

  lemma SlotValueFill(a: string, b: string, c: string, v: string)
    ensures SlotValue(a, b, c, a + v + b + v + c) == Some(v)
  {
    var text := a + v + b + v + c;
    assert |text| - (|a| + |b| + |c|) == 2 * |v|;
    assert text[|a|..|a| + |v|] == v;
  }

  /** The VIP a rendered configuration points its backends at. */
  function EnvoyVip(text: string): Option<string> {
    SlotValue(EnvoyBeforeFirst(), EnvoyBetween(), EnvoyAfterSecond(), text)
  }

  /** The VIP can be read back from the rendered configuration, so distinct VIPs give
      distinct configurations. */
  lemma EnvoyVipRoundTrip(vip: string)
    ensures EnvoyVip(EnvoyConfig(vip)) == Some(vip)
  {
    EnvoyConfigSlots(vip);
    SlotValueFill(EnvoyBeforeFirst(), EnvoyBetween(), EnvoyAfterSecond(), vip);
  }

  // ---------------------------------------------------------------------------
  // The proxy service

  /** A node as the proxy binds it: control planes also expose the Kubernetes API port. */
  function Backend(hostname: string, version: string, role: Role): Container {
    if role == ControlPlane then GetNode(hostname, version).WithExposedPort(KubeApiPort)
    else GetNode(hostname, version)
  }

  /** Bind the first `n` nodes of a role as backends, in index order. */
  function BackendBindings(name: string, version: string, role: Role, n: nat): seq<Step> {
    if n == 0 then []
    else
      var hostname := Hostname(name, role, n);
      BackendBindings(name, version, role, n - 1) + [Bind(hostname, Backend(hostname, version, role))]
  }

  /** The proxy container `Proxy` turns into a service, given the text of its
      `envoy.yaml`. */
  function ProxyService(t: TalosCluster, config: string): Container {
    Container(Image(EnvoyImage),
              BackendBindings(t.name, t.version, ControlPlane, t.controlplanes)
              + BackendBindings(t.name, t.version, Worker, t.workers)
              + EnvoyServe(config))
  }

  /** Write the configuration, run Envoy on it, expose both API ports. */
  function EnvoyServe(config: string): seq<Step> {
    [NewFile("envoy.yaml", config), Exec(["envoy", "-c", "envoy.yaml"], Plain), Expose(KubeApiPort), Expose(TalosApiPort)]
  }

  /** Binds the first `n` nodes of a role on top of `ctr`: one loop of `Proxy`. */
  method BindBackends(ctr: Container, name: string, version: string, role: Role, n: nat)
    returns (c: Container)
    ensures c == Container(ctr.base, ctr.steps + BackendBindings(name, version, role, n))
  {
    c := ctr;
    for i := 0 to n
      invariant c == Container(ctr.base, ctr.steps + BackendBindings(name, version, role, i))
    {
      var hostname := Hostname(name, role, i + 1);
      var node := GetNode(hostname, version);
      if role == ControlPlane {
        node := node.WithExposedPort(KubeApiPort);
      }
      c := c.WithServiceBinding(hostname, node);
    }
  }

  /** Builds the proxy: binds the control planes, then the workers, writes the Envoy
      configuration for the VIP, runs Envoy and exposes both API ports. */
  method Proxy(t: TalosCluster) returns (svc: Container)
    ensures svc == ProxyService(t, EnvoyConfig(t.vip))
  {
    var ctr := From(EnvoyImage);
    ctr := BindBackends(ctr, t.name, t.version, ControlPlane, t.controlplanes);
    ctr := BindBackends(ctr, t.name, t.version, Worker, t.workers);
    svc := Serve(ctr, EnvoyConfig(t.vip));
  }

  /** The end of `Proxy`: write the configuration, run Envoy, expose both API ports. */
  method Serve(ctr: Container, config: string) returns (c: Container)
    ensures c == Container(ctr.base, ctr.steps + EnvoyServe(config))
  {
    c := ctr.WithNewFile("envoy.yaml", config)
           .WithExec(["envoy", "-c", "envoy.yaml"])
           .WithExposedPort(KubeApiPort)
           .WithExposedPort(TalosApiPort);
  }

  // ---------------------------------------------------------------------------
  // What the proxy binds and exposes

  /** Each host name bound to its backend container. */
  function BackendServices(hosts: seq<string>, version: string, role: Role): seq<(string, Container)> {
    seq(|hosts|, k requires 0 <= k < |hosts| => (hosts[k], Backend(hosts[k], version, role)))
  }

  lemma BackendServicesSnoc(hosts: seq<string>, h: string, version: string, role: Role)
    ensures BackendServices(hosts + [h], version, role) == BackendServices(hosts, version, role) + [(h, Backend(h, version, role))]
  {
  }

  lemma BindAfter(steps: seq<Step>, h: string, svc: Container)
    ensures Bindings(steps + [Bind(h, svc)]) == Bindings(steps) + [(h, svc)]
  {
    CollectAppend(steps, [Bind(h, svc)], BoundService);
    assert Bindings([Bind(h, svc)][1..]) == [];
  }

  /** The backends of a role are bound in index order, each under its host name. */
  lemma {:induction false} BackendBindingsServices(name: string, version: string, role: Role, n: nat)
    ensures Bindings(BackendBindings(name, version, role, n))
            == BackendServices(Hostnames(name, role, n), version, role)
  {
    if n > 0 {
      var h := Hostname(name, role, n);
      BackendBindingsServices(name, version, role, n - 1);
      BindAfter(BackendBindings(name, version, role, n - 1), h, Backend(h, version, role));
      HostnamesSnoc(name, role, n);
      BackendServicesSnoc(Hostnames(name, role, n - 1), h, version, role);
    }
  }

  /** Binding backends only binds: it runs, writes and exposes nothing. */
  lemma {:induction false} BackendBindingsKinds(name: string, version: string, role: Role, n: nat)
    ensures forall i | 0 <= i < |BackendBindings(name, version, role, n)| :: BackendBindings(name, version, role, n)[i].Bind?
  {
    if n > 0 {
      BackendBindingsKinds(name, version, role, n - 1);
    }
  }

  lemma EnvoyServeKinds(config: string)
    ensures |EnvoyServe(config)| == 4
    ensures forall i | 0 <= i < 4 :: !EnvoyServe(config)[i].Bind?
    ensures EnvoyServe(config)[2] == Expose(KubeApiPort) && EnvoyServe(config)[3] == Expose(TalosApiPort)
    ensures !EnvoyServe(config)[0].Expose? && !EnvoyServe(config)[1].Expose?
  {
  }

  /** The proxy binds the control planes and then the workers, each under its host name,
      and nothing else. */
  lemma ProxyBindings(t: TalosCluster, config: string)
    ensures Bindings(ProxyService(t, config).steps)
            == BackendServices(Hostnames(t.name, ControlPlane, t.controlplanes), t.version, ControlPlane)
               + BackendServices(Hostnames(t.name, Worker, t.workers), t.version, Worker)
  {
    var bc := BackendBindings(t.name, t.version, ControlPlane, t.controlplanes);
    var bw := BackendBindings(t.name, t.version, Worker, t.workers);
    BackendBindingsServices(t.name, t.version, ControlPlane, t.controlplanes);
    BackendBindingsServices(t.name, t.version, Worker, t.workers);
    EnvoyServeKinds(config);
    NoBindings(EnvoyServe(config));
    CollectAppend(bc, bw, BoundService);
    CollectAppend(bc + bw, EnvoyServe(config), BoundService);
  }

  /** The proxy binds the same host names as the cluster plan, in the same order. */
  lemma ProxySameHosts(t: TalosCluster, config: string)
    ensures var proxied := Bindings(ProxyService(t, config).steps);
            var cluster := Bindings(ClusterPlan(t.name, t.version, t.controlplanes, t.workers, t.vip).steps);
            && |proxied| == |cluster| == t.controlplanes + t.workers
            && forall k | 0 <= k < |proxied| :: proxied[k].0 == cluster[k].0
  {
    ProxyBindings(t, config);
    ClusterBindings(t.name, t.version, t.controlplanes, t.workers, t.vip);
  }

  /** Control-plane backends expose the Kubernetes API port besides the Talos API port;
      worker backends only the Talos API port. */
  lemma BackendPorts(hostname: string, version: string, role: Role)
    ensures ExposedPorts(Backend(hostname, version, role))
            == if role == ControlPlane then {TalosApiPort, KubeApiPort} else {TalosApiPort}
  {
    NodePorts(hostname, version);
    if role == ControlPlane {
      var node := GetNode(hostname, version);
      var b := node.WithExposedPort(KubeApiPort);
      assert b.steps == node.steps + [Expose(KubeApiPort)];
      assert b.steps[|node.steps|] == Expose(KubeApiPort);
      forall p | p in ExposedPorts(b) ensures p in ExposedPorts(node) || p == KubeApiPort {
        var i :| 0 <= i < |b.steps| && b.steps[i].Expose? && b.steps[i].port == p;
        if i < |node.steps| {
          assert node.steps[i] == b.steps[i];
        }
      }
      forall p | p in ExposedPorts(node) ensures p in ExposedPorts(b) {
        var i :| 0 <= i < |node.steps| && node.steps[i].Expose? && node.steps[i].port == p;
        assert b.steps[i] == node.steps[i];
      }
    }
  }

  /** Among the proxy's backends, exactly the control planes expose the Kubernetes API
      port, and all of them expose the Talos API port. */
  lemma ProxyBackendPorts(t: TalosCluster, config: string)
    ensures var proxied := Bindings(ProxyService(t, config).steps);
            forall k | 0 <= k < |proxied| ::
              && TalosApiPort in ExposedPorts(proxied[k].1)
              && (KubeApiPort in ExposedPorts(proxied[k].1)
                  <==> proxied[k].0 in Hostnames(t.name, ControlPlane, t.controlplanes))
  {
    var cps := Hostnames(t.name, ControlPlane, t.controlplanes);
    var ws := Hostnames(t.name, Worker, t.workers);
    var sc := BackendServices(cps, t.version, ControlPlane);
    var sw := BackendServices(ws, t.version, Worker);
    var proxied := Bindings(ProxyService(t, config).steps);
    ProxyBindings(t, config);
    forall k | 0 <= k < |proxied|
      ensures TalosApiPort in ExposedPorts(proxied[k].1)
      ensures KubeApiPort in ExposedPorts(proxied[k].1) <==> proxied[k].0 in cps
    {
      if k < |cps| {
        assert proxied[k] == sc[k];
        BackendPorts(cps[k], t.version, ControlPlane);
      } else {
        var j := k - |cps|;
        assert proxied[k] == sw[j];
        BackendPorts(ws[j], t.version, Worker);
        if ws[j] in cps {
          var i :| 0 <= i < |cps| && cps[i] == ws[j];
          HostnameInjective(t.name, Worker, j + 1, ControlPlane, i + 1);
        }
      }
    }
  }

  /** The proxy service itself exposes exactly the Kubernetes API and Talos API ports. */
  lemma ProxyPorts(t: TalosCluster, config: string)
    ensures ExposedPorts(ProxyService(t, config)) == {KubeApiPort, TalosApiPort}
  {
    BackendBindingsKinds(t.name, t.version, ControlPlane, t.controlplanes);
    BackendBindingsKinds(t.name, t.version, Worker, t.workers);
    ServePorts(Image(EnvoyImage),
               BackendBindings(t.name, t.version, ControlPlane, t.controlplanes)
               + BackendBindings(t.name, t.version, Worker, t.workers),
               config);
  }

  /** Bindings followed by Envoy's steps expose exactly the two API ports. */
  lemma ServePorts(base: Base, binds: seq<Step>, config: string)
    requires forall i | 0 <= i < |binds| :: binds[i].Bind?
    ensures ExposedPorts(Container(base, binds + EnvoyServe(config))) == {KubeApiPort, TalosApiPort}
  {
    var p := Container(base, binds + EnvoyServe(config));
    var serve := EnvoyServe(config);
    EnvoyServeKinds(config);
    var n := |binds|;
    assert p.steps[n + 2] == serve[2];
    assert p.steps[n + 3] == serve[3];
    forall q | q in ExposedPorts(p) ensures q == KubeApiPort || q == TalosApiPort {
      var i :| 0 <= i < |p.steps| && p.steps[i].Expose? && p.steps[i].port == q;
      if i >= n {
        assert p.steps[i] == serve[i - n];
      }
    }
  }
}
