/**
 The agent's Kubernetes cache: which workload a pod belongs to (a walk up its chain of controllers,
 remembered per pod), and which workload an address belongs to (written by the pod, node and
 service watchers).
 */
module OwnerCache {
  import opened Common

  datatype OwnerRef = OwnerRef(kind: string, name: string, controller: Option<bool>)

  datatype ObjRef = ObjRef(kind: string, namespace: string, name: string)

  /** The owner references of every object in the six stores the walk looks into. */
  type Stores = map<ObjRef, Option<seq<OwnerRef>>>

  const WALKED_KINDS: set<string> := {"ReplicaSet", "Deployment", "DaemonSet", "StatefulSet", "Job", "CronJob"}

  datatype PodRef = PodRef(name: string, namespace: Option<string>)

  /** `ips` is the status' address list, entries of which may be empty. */
  datatype Pod = Pod(ref: PodRef, owners: Option<seq<OwnerRef>>, ips: Option<seq<Option<string>>>)

  function NamespaceOf(ref: PodRef): string { if ref.namespace.Some? then ref.namespace.value else "" }

  // ---------------------------------------------------------------------------
  // The chain of controllers

  predicate IsController(r: OwnerRef) { r.controller == Some(true) }

  /** The first reference marked as controller. */
  function FindController(refs: seq<OwnerRef>): (r: Option<OwnerRef>)
    ensures r.Some? ==> exists i :: 0 <= i < |refs| && refs[i] == r.value && r.value.controller == Some(true)
                          && forall j :: 0 <= j < i ==> refs[j].controller != Some(true)
    ensures r.None? ==> forall i :: 0 <= i < |refs| ==> refs[i].controller != Some(true)
  {
    if refs == [] then None
    else if IsController(refs[0]) then Some(refs[0])
    else
      var r := FindController(refs[1..]);
      assert r.Some? ==> forall i :: 0 <= i < |refs[1..]| ==> refs[1..][i] == refs[i + 1];
      r
  }

  function ControllerOf(owners: Option<seq<OwnerRef>>): Option<OwnerRef> {
    if owners.Some? then FindController(owners.value) else None
  }

  function KeyOf(ns: string, o: OwnerRef): ObjRef { ObjRef(o.kind, ns, o.name) }

  function GetControllerOfOwner(stores: Stores, o: OwnerRef, ns: string): Option<OwnerRef> {
    if o.kind in WALKED_KINDS && KeyOf(ns, o) in stores then ControllerOf(stores[KeyOf(ns, o)]) else None
  }

  /** The n-th link of the chain that starts with `o`. */
  function Link(stores: Stores, ns: string, o: Option<OwnerRef>, n: nat): Option<OwnerRef>
    decreases n
  {
    if n == 0 || o.None? then o else Link(stores, ns, GetControllerOfOwner(stores, o.value, ns), n - 1)
  }

  lemma {:induction false} LinkAdd(stores: Stores, ns: string, o: Option<OwnerRef>, a: nat, b: nat)
    ensures Link(stores, ns, o, a + b) == Link(stores, ns, Link(stores, ns, o, a), b)
    decreases a
  {
    if a == 0 || o.None? {
    } else {
      LinkAdd(stores, ns, GetControllerOfOwner(stores, o.value, ns), a - 1, b);
    }
  }

  lemma {:induction false} LinkNext(stores: Stores, ns: string, o: Option<OwnerRef>, n: nat)
    requires Link(stores, ns, o, n).Some?
    ensures Link(stores, ns, o, n + 1) == GetControllerOfOwner(stores, Link(stores, ns, o, n).value, ns)
  {
    LinkAdd(stores, ns, o, n, 1);
    var link := Link(stores, ns, o, n);
    assert Link(stores, ns, link, 1) == GetControllerOfOwner(stores, link.value, ns);
  }

  lemma {:induction false} LinksBefore(stores: Stores, ns: string, o: Option<OwnerRef>, i: nat, n: nat)
    requires i <= n && Link(stores, ns, o, n).Some?
    ensures Link(stores, ns, o, i).Some?
  {
    LinkAdd(stores, ns, o, i, n - i);
  }

  ghost predicate Ends(stores: Stores, ns: string, o: Option<OwnerRef>) {
    exists n: nat :: Link(stores, ns, o, n).None?
  }

  /** The chain comes back to an object it has been at. */
  ghost predicate Repeats(stores: Stores, ns: string, o: Option<OwnerRef>) {
    exists i: nat, j: nat :: i < j && Link(stores, ns, o, i).Some? && Link(stores, ns, o, i) == Link(stores, ns, o, j)
  }

  /** A chain that comes back never ends. */
  lemma {:induction false} RepeatsForever(stores: Stores, ns: string, o: Option<OwnerRef>, i: nat, j: nat, n: nat)
    requires i < j && Link(stores, ns, o, i).Some? && Link(stores, ns, o, i) == Link(stores, ns, o, j)
    ensures Link(stores, ns, o, n).Some?
    decreases n
  {
    if n <= j {
      LinksBefore(stores, ns, o, n, j);
    } else {
      RepeatsForever(stores, ns, o, i, j, n - (j - i));
      LinkAdd(stores, ns, o, i, n - j);
      LinkAdd(stores, ns, o, j, n - j);
    }
  }

  /** A chain of n links that never comes back visits n stored objects. */
  lemma {:induction false} Visits(stores: Stores, ns: string, o: Option<OwnerRef>, n: nat)
    returns (visited: set<ObjRef>)
    requires !Repeats(stores, ns, o) && Link(stores, ns, o, n).Some?
    requires o.Some? ==> IsController(o.value)
    ensures |visited| == n && visited <= stores.Keys
    ensures forall k :: k in visited ==> exists i: nat :: i < n && LinkAt(stores, ns, o, i, k)
  {
    if n == 0 { return {}; }
    LinksBefore(stores, ns, o, n - 1, n);
    visited := Visits(stores, ns, o, n - 1);
    var here := KeyOf(ns, Link(stores, ns, o, n - 1).value);
    LinkNext(stores, ns, o, n - 1);
    if here in visited {
      var i: nat :| i < n - 1 && LinkAt(stores, ns, o, i, here);
      AllControllers(stores, ns, o, i);
      AllControllers(stores, ns, o, n - 1);
      assert false;
    }
    assert LinkAt(stores, ns, o, n - 1, here);
    visited := visited + {here};
  }

  ghost predicate LinkAt(stores: Stores, ns: string, o: Option<OwnerRef>, i: nat, k: ObjRef) {
    Link(stores, ns, o, i).Some? && KeyOf(ns, Link(stores, ns, o, i).value) == k
  }

  lemma {:induction false} AllControllers(stores: Stores, ns: string, o: Option<OwnerRef>, n: nat)
    requires o.Some? ==> IsController(o.value)
    ensures Link(stores, ns, o, n).Some? ==> IsController(Link(stores, ns, o, n).value)
    decreases n
  {
    if n == 0 || o.None? {
    } else {
      AllControllers(stores, ns, GetControllerOfOwner(stores, o.value, ns), n - 1);
    }
  }

  lemma {:induction false} SubsetSize(part: set<ObjRef>, whole: set<ObjRef>)
    requires part <= whole
    ensures |part| <= |whole|
  {
    assert whole == part + (whole - part);
  }

  /**
   The walk up from a controller ends if and only if its chain never comes back, and then within one
   step per stored object.
   */
  lemma {:induction false} WalkEnds(stores: Stores, ns: string, o: Option<OwnerRef>)
    requires o.Some? ==> IsController(o.value)
    ensures Ends(stores, ns, o) <==> !Repeats(stores, ns, o)
    ensures !Repeats(stores, ns, o) ==> Link(stores, ns, o, |stores| + 1).None?
  {
    if Repeats(stores, ns, o) {
      var i: nat, j: nat :| i < j && Link(stores, ns, o, i).Some? && Link(stores, ns, o, i) == Link(stores, ns, o, j);
      forall n: nat ensures Link(stores, ns, o, n).Some? { RepeatsForever(stores, ns, o, i, j, n); }
    } else if Link(stores, ns, o, |stores| + 1).Some? {
      var visited := Visits(stores, ns, o, |stores| + 1);
      SubsetSize(visited, stores.Keys);
      assert false;
    }
  }

  /** The walk looks into the stores of these six kinds and of no other. */
  lemma {:induction false} KindsWalked(stores: Stores, o: OwnerRef, ns: string)
    ensures GetControllerOfOwner(stores, o, ns) ==
            if o.kind in {"ReplicaSet", "Deployment", "DaemonSet", "StatefulSet", "Job", "CronJob"} &&
               ObjRef(o.kind, ns, o.name) in stores && stores[ObjRef(o.kind, ns, o.name)].Some?
            then FindController(stores[ObjRef(o.kind, ns, o.name)].value) else None
  {
  }

  /** A ReplicaSet that names itself as its controller: the walk up from it never ends. */
  lemma {:induction false} SelfOwnedNeverEnds(ns: string, name: string)
    ensures var self := OwnerRef("ReplicaSet", name, Some(true));
            var stores: Stores := map[ObjRef("ReplicaSet", ns, name) := Some([self])];
            Repeats(stores, ns, Some(self)) && !Ends(stores, ns, Some(self))
  {
    var self := OwnerRef("ReplicaSet", name, Some(true));
    var stores: Stores := map[ObjRef("ReplicaSet", ns, name) := Some([self])];
    assert GetControllerOfOwner(stores, self, ns) == Some(self);
    assert Link(stores, ns, Some(self), 0) == Some(self) == Link(stores, ns, Some(self), 1);
    WalkEnds(stores, ns, Some(self));
  }

  // ---------------------------------------------------------------------------
  // Resolving a pod

  ghost predicate Acyclic(stores: Stores, pod: Pod) { !Repeats(stores, NamespaceOf(pod.ref), ControllerOf(pod.owners)) }

  ghost predicate ChainLength(stores: Stores, ns: string, o: Option<OwnerRef>, n: nat) {
    Link(stores, ns, o, n).None? && (n > 0 ==> Link(stores, ns, o, n - 1).Some?)
  }

  lemma {:induction false} LengthUnique(stores: Stores, ns: string, o: Option<OwnerRef>, a: nat, b: nat)
    requires ChainLength(stores, ns, o, a) && ChainLength(stores, ns, o, b)
    ensures a == b
  {
    if a < b { LinksBefore(stores, ns, o, a, b - 1); }
    if b < a { LinksBefore(stores, ns, o, b, a - 1); }
  }

  lemma {:induction false} LengthExists(stores: Stores, ns: string, o: Option<OwnerRef>, n: nat)
    requires Link(stores, ns, o, n).None?
    ensures exists m: nat :: m <= n && ChainLength(stores, ns, o, m)
  {
    if n > 0 && Link(stores, ns, o, n - 1).None? {
      LengthExists(stores, ns, o, n - 1);
      var m: nat :| m <= n - 1 && ChainLength(stores, ns, o, m);
      assert m <= n && ChainLength(stores, ns, o, m);
    } else {
      assert n <= n && ChainLength(stores, ns, o, n);
    }
  }

  /**
   The workload of a pod: with two links or more in its chain, the last one; otherwise the pod
   itself, also when it has a direct owner.
   */
  ghost predicate IsWorkload(stores: Stores, pod: Pod, w: Workload) {
    var ns, o := NamespaceOf(pod.ref), ControllerOf(pod.owners);
    exists n: nat :: ChainLength(stores, ns, o, n) &&
      w == (if n < 2 then Workload(pod.ref.name, ns, "Pod")
            else var last := Link(stores, ns, o, n - 1).value; Workload(last.name, ns, last.kind))
  }

  lemma {:induction false} WorkloadUnique(stores: Stores, pod: Pod, w1: Workload, w2: Workload)
    requires IsWorkload(stores, pod, w1) && IsWorkload(stores, pod, w2)
    ensures w1 == w2
  {
    var ns, o := NamespaceOf(pod.ref), ControllerOf(pod.owners);
    forall a: nat, b: nat | ChainLength(stores, ns, o, a) && ChainLength(stores, ns, o, b) ensures a == b {
      LengthUnique(stores, ns, o, a, b);
    }
  }

  lemma {:induction false} WorkloadExists(stores: Stores, pod: Pod)
    requires Acyclic(stores, pod)
    ensures exists w :: IsWorkload(stores, pod, w)
  {
    var ns, o := NamespaceOf(pod.ref), ControllerOf(pod.owners);
    WalkEnds(stores, ns, o);
    LengthExists(stores, ns, o, |stores| + 1);
    var n: nat :| n <= |stores| + 1 && ChainLength(stores, ns, o, n);
    var last := if n < 2 then OwnerRef("Pod", pod.ref.name, None) else Link(stores, ns, o, n - 1).value;
    assert IsWorkload(stores, pod, Workload(last.name, ns, last.kind));
  }

  ghost function Resolve(stores: Stores, pod: Pod): (w: Workload)
    requires Acyclic(stores, pod)
    ensures IsWorkload(stores, pod, w)
  {
    WorkloadExists(stores, pod);
    var w :| IsWorkload(stores, pod, w);
    w
  }

  /**
   The usual chain: a pod owned by an object of one of the six kinds, which is controlled by another
   object that has no controller of its own. The pod's workload is that other object, in the namespace
   of the pod, or in "" when the pod has none. A pod whose owner is of another kind is its own workload.
   */
  lemma {:induction false} TwoLinks(stores: Stores, pod: Pod, kind: string, name: string, top: OwnerRef)
    requires var ns := if pod.ref.namespace.Some? then pod.ref.namespace.value else "";
             && pod.owners == Some([OwnerRef(kind, name, Some(true))])
             && ObjRef(kind, ns, name) in stores && stores[ObjRef(kind, ns, name)] == Some([top])
             && top.controller == Some(true) && ObjRef(top.kind, ns, top.name) !in stores
    ensures var ns := if pod.ref.namespace.Some? then pod.ref.namespace.value else "";
            IsWorkload(stores, pod,
                       if kind in {"ReplicaSet", "Deployment", "DaemonSet", "StatefulSet", "Job", "CronJob"}
                       then Workload(top.name, ns, top.kind) else Workload(pod.ref.name, ns, "Pod"))
  {
    var ns, first := NamespaceOf(pod.ref), OwnerRef(kind, name, Some(true));
    KindsWalked(stores, first, ns);
    KindsWalked(stores, top, ns);
    assert ControllerOf(pod.owners) == Some(first) && FindController([top]) == Some(top);
    assert Link(stores, ns, Some(first), 1) == GetControllerOfOwner(stores, first, ns);
    LinkAdd(stores, ns, Some(first), 1, 1);
    assert Link(stores, ns, Some(top), 1) == None;
    if GetControllerOfOwner(stores, first, ns).Some? {
      assert ChainLength(stores, ns, Some(first), 2);
    } else {
      assert ChainLength(stores, ns, Some(first), 1);
    }
  }

  /** The loop of the resolver. Each turn moves one link up, so at most one turn per stored object is left. */
  method WalkOwners(stores: Stores, pod: Pod) returns (w: Workload)
    requires Acyclic(stores, pod)
    ensures w == Resolve(stores, pod)
  {
    var name, kind := pod.ref.name, "Pod";
    var ns := NamespaceOf(pod.ref);
    var owner := ControllerOf(pod.owners);
    ghost var first, k: nat := owner, 0;
    WalkEnds(stores, ns, first);
    while owner.Some?
      invariant owner == Link(stores, ns, first, k)
      invariant k <= |stores| + 1
      invariant owner.Some? ==>
                  (name, kind) == if k == 0 then (pod.ref.name, "Pod") else (owner.value.name, owner.value.kind)
      invariant owner.None? ==> ChainLength(stores, ns, first, k)
      invariant owner.None? ==>
                  if k < 2 then (name, kind) == (pod.ref.name, "Pod")
                  else
                    var last := Link(stores, ns, first, k - 1).value;
                    (name, kind) == (last.name, last.kind)
      decreases |stores| + 1 - k, owner.Some?
    {
      LinkNext(stores, ns, first, k);
      var controller := GetControllerOfOwner(stores, owner.value, ns);
      if controller.Some? {
        name := controller.value.name;
        kind := controller.value.kind;
      }
      owner := controller;
      k := k + 1;
    }
    w := Workload(name, ns, kind);
    assert IsWorkload(stores, pod, w);
    WorkloadUnique(stores, pod, w, Resolve(stores, pod));
  }

  // ---------------------------------------------------------------------------
  // Watching pods, nodes and services

  /** An object a watcher sees applied. A pod comes with the stores as they are at that moment. */
  datatype Event =
    | PodApplied(pod: Pod, stores: Stores)
    | NodeApplied(name: string, addresses: Option<seq<string>>)
    | ServiceApplied(name: string, namespace: Option<string>, clusterIps: Option<seq<string>>)

  datatype Cache = Cache(pods: map<PodRef, Workload>, ips: map<string, Workload>)

  const EMPTY: Cache := Cache(map[], map[])

  function PodAddresses(ips: seq<Option<string>>): set<string> { set ip | ip in ips && ip.Some? :: ip.value }

  function NodeAddresses(addresses: seq<string>): set<string> { set a | a in addresses }

  function ServiceAddresses(ips: seq<string>): set<string> { set ip | ip in ips && ip != "None" }

  lemma {:induction false} PodAddressesMore(ips: seq<Option<string>>, i: nat)
    requires i < |ips|
    ensures PodAddresses(ips[..i + 1]) == PodAddresses(ips[..i]) + if ips[i].Some? then {ips[i].value} else {}
  {
    assert ips[..i + 1] == ips[..i] + [ips[i]];
  }

  lemma {:induction false} ServiceAddressesMore(ips: seq<string>, i: nat)
    requires i < |ips|
    ensures ServiceAddresses(ips[..i + 1]) == ServiceAddresses(ips[..i]) + if ips[i] != "None" then {ips[i]} else {}
  {
    assert ips[..i + 1] == ips[..i] + [ips[i]];
  }

  /** The addresses an event lists. A headless service lists "None", which is no address. */
  function Listed(e: Event): set<string> {
    match e
    case PodApplied(pod, _) => if pod.ips.Some? then PodAddresses(pod.ips.value) else {}
    case NodeApplied(_, addresses) => if addresses.Some? then NodeAddresses(addresses.value) else {}
    case ServiceApplied(_, _, ips) => if ips.Some? then ServiceAddresses(ips.value) else {}
  }

  function NodeWorkload(name: string): Workload { Workload(name, "node", "Node") }

  function ServiceWorkload(name: string, namespace: Option<string>): Workload {
    Workload(name, if namespace.Some? then namespace.value else "", "Service")
  }

  /** The watcher gets past the event: a pod it does not remember has a walk that ends. */
  ghost predicate Passable(c: Cache, e: Event) {
    e.PodApplied? && e.pod.ref !in c.pods ==> Acyclic(e.stores, e.pod)
  }

  /** The workload an event writes, given what is remembered. */
  ghost function Written(c: Cache, e: Event): Workload
    requires Passable(c, e)
  {
    match e
    case PodApplied(pod, stores) => if pod.ref in c.pods then c.pods[pod.ref] else Resolve(stores, pod)
    case NodeApplied(name, _) => NodeWorkload(name)
    case ServiceApplied(name, namespace, _) => ServiceWorkload(name, namespace)
  }

  function Overwrite(m: map<string, Workload>, keys: set<string>, w: Workload): map<string, Workload> {
    map a | a in m.Keys + keys :: if a in keys then w else m[a]
  }

  lemma {:induction false} OverwriteMore(
    m: map<string, Workload>, keys: set<string>, keys': set<string>, a: string, w: Workload)
    requires keys' == keys + {a}
    ensures Overwrite(m, keys', w) == Overwrite(m, keys, w)[a := w]
  {
  }

  ghost function After(c: Cache, e: Event): Cache
    requires Passable(c, e)
  {
    Cache(if e.PodApplied? then c.pods[e.pod.ref := Written(c, e)] else c.pods,
          Overwrite(c.ips, Listed(e), Written(c, e)))
  }

  class CacheManager {
    var pods: map<PodRef, Workload>
    var ips: map<string, Workload>

    ghost function View(): Cache reads this { Cache(pods, ips) }

    constructor ()
      ensures View() == EMPTY
    {
      pods, ips := map[], map[];
    }

    /** The remembered answer if there is one, else the walk's, which is remembered from then on. */
    method ResolvePodDescriptor(pod: Pod, stores: Stores) returns (w: Workload)
      requires pod.ref in pods || Acyclic(stores, pod)
      modifies this`pods
      ensures pod.ref in old(pods) ==> w == old(pods)[pod.ref]
      ensures pod.ref !in old(pods) ==> w == Resolve(stores, pod)
      ensures pods == old(pods)[pod.ref := w]
    {
      if pod.ref in pods {
        w := pods[pod.ref];
        assert pods == pods[pod.ref := w];
        return;
      }
      w := WalkOwners(stores, pod);
      pods := pods[pod.ref := w];
    }

    method ApplyPod(pod: Pod, stores: Stores)
      requires pod.ref in pods || Acyclic(stores, pod)
      modifies this
      ensures View() == After(old(View()), PodApplied(pod, stores))
    {
      var entry := ResolvePodDescriptor(pod, stores);
      ghost var base := ips;
      if pod.ips.Some? {
        for i := 0 to |pod.ips.value|
          invariant pods == old(pods)[pod.ref := entry]
          invariant ips == Overwrite(base, PodAddresses(pod.ips.value[..i]), entry)
        {
          PodAddressesMore(pod.ips.value, i);
          if pod.ips.value[i].None? { continue; }
          OverwriteMore(
            base, PodAddresses(pod.ips.value[..i]), PodAddresses(pod.ips.value[..i + 1]),
            pod.ips.value[i].value, entry);
          ips := ips[pod.ips.value[i].value := entry];
        }
        assert pod.ips.value[..|pod.ips.value|] == pod.ips.value;
      }
    }

    method ApplyNode(name: string, addresses: Option<seq<string>>)
      modifies this`ips
      ensures View() == After(old(View()), NodeApplied(name, addresses))
    {
      ghost var base := ips;
      if addresses.Some? {
        for i := 0 to |addresses.value|
          invariant ips == Overwrite(base, NodeAddresses(addresses.value[..i]), NodeWorkload(name))
        {
          ips := ips[addresses.value[i] := Workload(name, "node", "Node")];
        }
        assert addresses.value[..|addresses.value|] == addresses.value;
      }
    }

    method ApplyService(name: string, namespace: Option<string>, clusterIps: Option<seq<string>>)
      modifies this`ips
      ensures View() == After(old(View()), ServiceApplied(name, namespace, clusterIps))
    {
      ghost var base := ips;
      if clusterIps.Some? {
        for i := 0 to |clusterIps.value|
          invariant ips == Overwrite(base, ServiceAddresses(clusterIps.value[..i]), ServiceWorkload(name, namespace))
        {
          ServiceAddressesMore(clusterIps.value, i);
          if clusterIps.value[i] == "None" { continue; }
          OverwriteMore(
            base, ServiceAddresses(clusterIps.value[..i]), ServiceAddresses(clusterIps.value[..i + 1]),
            clusterIps.value[i], ServiceWorkload(name, namespace));
          ips := ips[clusterIps.value[i] := ServiceWorkload(name, namespace)];
        }
        assert clusterIps.value[..|clusterIps.value|] == clusterIps.value;
      }
    }
  }

  // ---------------------------------------------------------------------------
  // Runs

  predicate Applies(e: Event, ref: PodRef) { e.PodApplied? && e.pod.ref == ref }

  ghost predicate Applied(run: seq<Event>, ref: PodRef) { exists i :: 0 <= i < |run| && Applies(run[i], ref) }

  /** The first event that applies the pod. */
  ghost predicate FirstAt(run: seq<Event>, ref: PodRef, i: nat) {
    i < |run| && Applies(run[i], ref) && !Applied(run[..i], ref)
  }

  ghost predicate EndsAt(run: seq<Event>, i: nat)
    requires i < |run|
  {
    run[i].PodApplied? && !Applied(run[..i], run[i].pod.ref) ==> Acyclic(run[i].stores, run[i].pod)
  }

  /** Only the first event of each pod needs a walk that ends. Later on its owners may well become cyclic. */
  ghost predicate AllWalkable(run: seq<Event>) { forall i: nat :: i < |run| ==> EndsAt(run, i) }

  lemma {:induction false} WalkableBefore(run: seq<Event>)
    requires AllWalkable(run) && run != []
    ensures AllWalkable(run[..|run| - 1])
    ensures var e := run[|run| - 1];
            e.PodApplied? && !Applied(run[..|run| - 1], e.pod.ref) ==> Acyclic(e.stores, e.pod)
  {
    var n := |run| - 1;
    forall i: nat | i < n ensures EndsAt(run[..n], i) {
      assert EndsAt(run, i) && run[..n][..i] == run[..i] && run[..n][i] == run[i];
    }
    assert EndsAt(run, n);
  }

  lemma {:induction false} AppliedMore(run: seq<Event>, ref: PodRef)
    requires run != []
    ensures Applied(run, ref) <==> Applied(run[..|run| - 1], ref) || Applies(run[|run| - 1], ref)
  {
    var before := run[..|run| - 1];
    if Applied(before, ref) {
      var i :| 0 <= i < |before| && Applies(before[i], ref);
      assert run[i] == before[i];
    }
    if Applied(run, ref) {
      var i :| 0 <= i < |run| && Applies(run[i], ref);
      if i < |run| - 1 { assert before[i] == run[i]; }
    }
  }

  /** The cache after a run. It remembers exactly the pods applied. */
  ghost function Run(run: seq<Event>): (c: Cache)
    requires AllWalkable(run)
    ensures forall ref :: ref in c.pods <==> Applied(run, ref)
  {
    if run == [] then EMPTY
    else
      var before := run[..|run| - 1];
      WalkableBefore(run);
      assert forall ref :: Applied(run, ref) <==> Applied(before, ref) || Applies(run[|run| - 1], ref) by {
        forall ref { AppliedMore(run, ref); }
      }
      After(Run(before), run[|run| - 1])
  }

  /** The pod is remembered under what event `i` resolved to. */
  ghost predicate RemembersFrom(run: seq<Event>, ref: PodRef, i: nat)
    requires AllWalkable(run) && i < |run|
  {
    && ref in Run(run).pods && run[i].PodApplied? && Acyclic(run[i].stores, run[i].pod)
    && Run(run).pods[ref] == Resolve(run[i].stores, run[i].pod)
  }

  lemma {:induction false} FirstExists(run: seq<Event>, ref: PodRef, j: nat)
    requires j < |run| && Applies(run[j], ref)
    ensures exists i: nat :: FirstAt(run, ref, i)
    decreases j
  {
    if Applied(run[..j], ref) {
      var i :| 0 <= i < j && Applies(run[..j][i], ref);
      FirstExists(run, ref, i);
    } else {
      assert FirstAt(run, ref, j);
    }
  }

  lemma {:induction false} FirstRemembered(run: seq<Event>, ref: PodRef, i: nat)
    requires AllWalkable(run) && FirstAt(run, ref, i)
    ensures RemembersFrom(run, ref, i)
    decreases |run|
  {
    var n := |run| - 1;
    var before := run[..n];
    WalkableBefore(run);
    if i == n {
    } else {
      assert before[..i] == run[..i] && before[i] == run[i];
      FirstRemembered(before, ref, i);
      assert Run(run).pods[ref] == Run(before).pods[ref];
    }
  }

  /**
   First answer forever: over every run, stores changing as they may, a pod is remembered if and only
   if it was applied, and then under the workload its first event resolved to.
   */
  lemma {:induction false} FirstAnswerForever(run: seq<Event>, ref: PodRef)
    requires AllWalkable(run)
    ensures ref in Run(run).pods <==> exists i: nat :: FirstAt(run, ref, i)
    ensures forall i: nat :: FirstAt(run, ref, i) ==> RemembersFrom(run, ref, i)
  {
    if Applied(run, ref) {
      var j :| 0 <= j < |run| && Applies(run[j], ref);
      FirstExists(run, ref, j);
    }
    forall i: nat | FirstAt(run, ref, i) ensures RemembersFrom(run, ref, i) { FirstRemembered(run, ref, i); }
  }

  /**
   Memo agreement: over every run in which the stores and the owner references of a pod stay the same,
   the remembered answer is what the walk would give for any of the pod's events.
   */
  lemma {:induction false} MemoAgreement(run: seq<Event>, i: nat)
    requires AllWalkable(run)
    requires i < |run| && run[i].PodApplied?
    requires forall j :: 0 <= j < |run| && run[j].PodApplied? && run[j].pod.ref == run[i].pod.ref ==>
               run[j].stores == run[i].stores && run[j].pod.owners == run[i].pod.owners
    ensures var ref := run[i].pod.ref;
            && ref in Run(run).pods && Acyclic(run[i].stores, run[i].pod)
            && Run(run).pods[ref] == Resolve(run[i].stores, run[i].pod)
  {
    var ref := run[i].pod.ref;
    FirstAnswerForever(run, ref);
    assert Applied(run, ref) by { assert Applies(run[i], ref); }
    var f: nat :| FirstAt(run, ref, f);
    assert RemembersFrom(run, ref, f);
    var w := Resolve(run[f].stores, run[f].pod);
    assert IsWorkload(run[i].stores, run[i].pod, w);
    WorkloadUnique(run[i].stores, run[i].pod, w, Resolve(run[i].stores, run[i].pod));
  }

  /** The event lists the address: a pod or a node by itself, a service unless it is headless. */
  predicate Lists(e: Event, a: string) {
    match e
    case PodApplied(pod, _) => pod.ips.Some? && Some(a) in pod.ips.value
    case NodeApplied(_, addresses) => addresses.Some? && a in addresses.value
    case ServiceApplied(_, _, clusterIps) => clusterIps.Some? && a in clusterIps.value && a != "None"
  }

  /** The workload an address gets from an event that lists it, in the cache after the event. */
  ghost predicate ShowsEvent(c: Cache, e: Event, a: string) {
    a in c.ips &&
    match e
    case PodApplied(pod, _) => pod.ref in c.pods && c.ips[a] == c.pods[pod.ref]
    case NodeApplied(name, _) => c.ips[a] == Workload(name, "node", "Node")
    case ServiceApplied(name, ns, _) => c.ips[a] == Workload(name, if ns.Some? then ns.value else "", "Service")
  }

  /**
   One event: every address it lists is then known, a pod's under the workload remembered for the pod,
   a node's and a service's under their own; every other address stays as it was, and so does every
   pod remembered.
   */
  lemma {:induction false} EventWrites(c: Cache, e: Event, a: string)
    requires Passable(c, e)
    ensures var c' := After(c, e);
            && (Lists(e, a) ==> ShowsEvent(c', e, a))
            && (!Lists(e, a) ==> (a in c'.ips <==> a in c.ips) && (a in c.ips ==> c'.ips[a] == c.ips[a]))
            && (forall ref :: ref in c.pods ==> ref in c'.pods && c'.pods[ref] == c.pods[ref])
  {
    assert a in Listed(e) <==> Lists(e, a) by {
      if e.PodApplied? && Lists(e, a) {
        assert Some(a).value in PodAddresses(e.pod.ips.value);
      }
    }
  }

  /** The last event that lists the address. */
  ghost predicate LastAt(run: seq<Event>, a: string, i: nat) {
    i < |run| && Lists(run[i], a) && forall j :: i < j < |run| ==> !Lists(run[j], a)
  }

  lemma {:induction false} LastAtBefore(run: seq<Event>, a: string, i: nat)
    requires run != [] && !Lists(run[|run| - 1], a)
    ensures LastAt(run, a, i) <==> LastAt(run[..|run| - 1], a, i)
  {
    var before := run[..|run| - 1];
    if LastAt(before, a, i) {
      forall j | i < j < |run| ensures !Lists(run[j], a) {
        if j < |run| - 1 { assert before[j] == run[j]; }
      }
    }
  }

  /**
   Last writer wins: after every interleaving of pod, node and service events an address is known
   exactly when some event listed it, and then under the workload of the last event that did: that of
   its node or service, or the one remembered for its pod.
   */
  lemma {:induction false} LastWriterWins(run: seq<Event>, a: string)
    requires AllWalkable(run)
    ensures a in Run(run).ips <==> exists i: nat :: LastAt(run, a, i)
    ensures forall i: nat :: LastAt(run, a, i) ==> ShowsEvent(Run(run), run[i], a)
    decreases |run|
  {
    if run == [] {
    } else {
      var n := |run| - 1;
      var before := run[..n];
      WalkableBefore(run);
      EventWrites(Run(before), run[n], a);
      if Lists(run[n], a) {
        assert LastAt(run, a, n);
        forall i: nat | LastAt(run, a, i) ensures i == n { }
      } else {
        LastWriterWins(before, a);
        forall i: nat ensures LastAt(run, a, i) <==> LastAt(before, a, i) { LastAtBefore(run, a, i); }
        forall i: nat | LastAt(run, a, i) ensures ShowsEvent(Run(run), run[i], a) {
          assert ShowsEvent(Run(before), before[i], a) && before[i] == run[i];
        }
      }
    }
  }

  /** Addresses are never forgotten. */
  lemma {:induction false} IndexGrows(run: seq<Event>, i: nat)
    requires AllWalkable(run) && i <= |run|
    ensures AllWalkable(run[..i]) && Run(run[..i]).ips.Keys <= Run(run).ips.Keys
    decreases |run|
  {
    if i == |run| {
      assert run[..i] == run;
    } else {
      WalkableBefore(run);
      IndexGrows(run[..|run| - 1], i);
      assert run[..|run| - 1][..i] == run[..i];
    }
  }

  /** Services never put the key "None" into the index: it is there only if a pod or a node lists it. */
  lemma {:induction false} NoneIsNoAddress(run: seq<Event>)
    requires AllWalkable(run) && "None" in Run(run).ips
    ensures exists i :: 0 <= i < |run| && !run[i].ServiceApplied? && Lists(run[i], "None")
  {
    LastWriterWins(run, "None");
    var i: nat :| LastAt(run, "None", i);
    assert !run[i].ServiceApplied?;
  }
}
