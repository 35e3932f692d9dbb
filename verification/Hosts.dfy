/** The fleet: hosts, their policy flags and the table of managed machines. */
module Hosts {

  datatype ConnCheck = Ssh | PingGateway | Ping6Gateway | PingInternet | Dns | Ipv6Tunnel | Ipv6Internet

  datatype Host = Host(
    name: string,
    order: int,
    k8s: bool,          // wait for the Kubernetes node after the deploy
    ceph: bool,         // wrap the deploy in the Ceph gate
    groups: seq<string>,
    isDefault: bool,    // deployed when no host is named
    checks: seq<ConnCheck>)
  {
    predicate InGroup(g: string) { g in groups }
  }

  ghost predicate DistinctNames(hosts: seq<Host>) {
    forall i, j :: 0 <= i < j < |hosts| ==> hosts[i].name != hosts[j].name
  }

  /** Storage nodes are rolled under the k3s stop rule. */
  predicate CephInK3s(h: Host) {
    h.ceph ==> h.InGroup("k3s")
  }

  const ALL_HOSTS: seq<Host> := [
    Host("fus", 10, true, false, ["k3s", "infra"], true, [Ssh, Ping6Gateway]),
    Host("ro", 11, true, false, ["k3s", "infra"], true, [Ssh, Ping6Gateway]),
    Host("dah", 12, true, false, ["k3s", "infra"], true, [Ssh, Ping6Gateway]),
    Host("joor", 13, true, true, ["k3s", "infra"], true, [Ssh, Ping6Gateway]),
    Host("zah", 14, true, true, ["k3s", "infra"], true, [Ssh, Ping6Gateway]),
    Host("frul", 15, true, true, ["k3s", "infra"], true, [Ssh, Ping6Gateway]),
    Host("wabbajack", 20, false, false, ["infra"], true, [Ssh, PingGateway, Ping6Gateway]),
    Host("talos", 21, false, false, ["workstation"], true, [Ssh, PingGateway]),
    Host("lydia", 30, false, false, ["infra"], true, [Ssh, PingGateway]),
    Host("dovahkiin", 40, false, false, ["workstation"], false, [Ssh]),
    Host("guevenne", 41, false, false, ["media"], false, [Ssh]),
    Host("skyforge", 50, false, false, ["printer"], true, [Ssh]),
    Host("nelkir", 51, false, false, ["media"], false, [Ssh]),
    Host("dragonsreach", 99, false, false, ["infra", "router"], true,
         [Ssh, PingInternet, Dns, Ipv6Tunnel, Ipv6Internet])
  ]

  lemma NamesDistinct()
    ensures DistinctNames(ALL_HOSTS)
  {
    assert |ALL_HOSTS| == 14;
  }

  lemma StorageInK3s(i: nat)
    requires i < |ALL_HOSTS|
    ensures CephInK3s(ALL_HOSTS[i])
  {
    if ALL_HOSTS[i].ceph { assert ALL_HOSTS[i].groups[0] == "k3s"; }
  }

  /** The managed fleet meets what the rolling deploy relies on. */
  lemma FleetIsSound()
    ensures DistinctNames(ALL_HOSTS)
    ensures forall i :: 0 <= i < |ALL_HOSTS| ==> CephInK3s(ALL_HOSTS[i])
  {
    NamesDistinct();
    forall i | 0 <= i < |ALL_HOSTS| ensures CephInK3s(ALL_HOSTS[i]) { StorageInK3s(i); }
  }
}
