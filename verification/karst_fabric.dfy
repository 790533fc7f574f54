// The whole fabric: eight hosts wired to two dies, stepped one cycle at a time.

module KarstTopology {
  import opened KarstAddress
  import opened KarstLink
  import opened KarstDie
  import opened KarstEndpoint

  datatype Fabric = Fabric(hosts: seq<Host>, dies: seq<Die>)

  predicate FabricShape(f: Fabric) {
    && |f.hosts| == HOSTS && |f.dies| == DIES
    && (forall h :: 0 <= h < HOSTS ==> HostOk(f.hosts[h]))
    && (forall d :: 0 <= d < DIES ==> DieShape(f.dies[d]))
  }

  // Ports 0..3 of a die are the primary links of its own hosts, ports 4..7 the cross links of the others.
  function PortOf(die: nat, host: nat): (port: nat)
    requires host < HOSTS
    ensures port < HOSTS && HostAt(die, port) == host
    ensures port < HOSTS_PER_DIE <==> PrimaryDie(host) == (if die == 0 then 0 else 1)
  {
    if die == 0 then host else (host + HOSTS_PER_DIE) % HOSTS
  }

  function HostAt(die: nat, port: nat): (host: nat)
    requires port < HOSTS
    ensures host < HOSTS
  {
    if die == 0 then port else (port + HOSTS_PER_DIE) % HOSTS
  }

  function HostInputsOf(f: Fabric, h: nat): HostInputs
    requires FabricShape(f) && h < HOSTS
  {
    var near, far := PrimaryDie(h), 1 - PrimaryDie(h);
    var n, m := f.dies[near].noc, f.dies[far].noc;
    var p, q := PortOf(near, h), PortOf(far, h);
    HostInputs(n.rxReady[p], n.txValid[p], n.txData[p], m.rxReady[q], m.txValid[q], m.txData[q])
  }

  datatype DieInputs = DieInputs(valid: seq<bool>, data: seq<Flit>, ready: seq<bool>)

  function LinkValid(f: Fabric, die: nat, port: nat): bool
    requires FabricShape(f) && die < DIES && port < KL_PORTS
  {
    if port < HOSTS_PER_DIE then f.hosts[HostAt(die, port)].l0Valid
    else if port < HOSTS then f.hosts[HostAt(die, port)].l1Valid
    else f.dies[1 - die].noc.txValid[port]
  }

  function LinkData(f: Fabric, die: nat, port: nat): Flit
    requires FabricShape(f) && die < DIES && port < KL_PORTS
  {
    if port < HOSTS_PER_DIE then f.hosts[HostAt(die, port)].l0Data
    else if port < HOSTS then f.hosts[HostAt(die, port)].l1Data
    else f.dies[1 - die].noc.txData[port]
  }

  function LinkReady(f: Fabric, die: nat, port: nat): bool
    requires FabricShape(f) && die < DIES && port < KL_PORTS
  {
    if port < HOSTS_PER_DIE then f.hosts[HostAt(die, port)].l0Ready
    else if port < HOSTS then f.hosts[HostAt(die, port)].l1Ready
    else f.dies[1 - die].noc.rxReady[port]
  }

  function DieInputsOf(f: Fabric, die: nat): (i: DieInputs)
    requires FabricShape(f) && die < DIES
    ensures |i.valid| == |i.data| == |i.ready| == KL_PORTS
  {
    DieInputs(seq(KL_PORTS, p requires 0 <= p < KL_PORTS => LinkValid(f, die, p)),
              seq(KL_PORTS, p requires 0 <= p < KL_PORTS => LinkData(f, die, p)),
              seq(KL_PORTS, p requires 0 <= p < KL_PORTS => LinkReady(f, die, p)))
  }

  function StepHosts(f: Fabric): (hosts: seq<Host>)
    requires FabricShape(f)
    ensures |hosts| == HOSTS
  {
    seq(HOSTS, h requires 0 <= h < HOSTS => HostStep(f.hosts[h], HostInputsOf(f, h)))
  }

  function StepDie(f: Fabric, die: nat): (r: Die)
    requires FabricShape(f) && die < DIES
    ensures DieShape(r) && r.noc.die == f.dies[die].noc.die
  {
    var i := DieInputsOf(f, die);
    DieStep(f.dies[die], i.valid, i.data, i.ready)
  }

  // Every component reads only signals registered at the end of the previous cycle.
  function Cycle(f: Fabric): (r: Fabric)
    requires FabricShape(f)
    ensures FabricShape(r)
  {
    HostsStayOk(f);
    Fabric(StepHosts(f), [StepDie(f, 0), StepDie(f, 1)])
  }

  lemma HostsStayOk(f: Fabric)
    requires FabricShape(f)
    ensures forall h :: 0 <= h < HOSTS ==> HostOk(StepHosts(f)[h])
  {
    forall h | 0 <= h < HOSTS
      ensures HostOk(StepHosts(f)[h])
    {
      HostStepStaysOk(f.hosts[h], HostInputsOf(f, h));
    }
  }

  function NewFabric(mem: seq<seq<Memory>>): Fabric
    requires |mem| == DIES
  {
    Fabric(seq(HOSTS, h requires 0 <= h < HOSTS => NewHost(h)), [NewDie(0, mem[0]), NewDie(1, mem[1])])
  }
}
