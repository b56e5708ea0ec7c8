/**
 Export of the polled totals as a Prometheus gauge family, one sample per label set.
 */
module Export {
  import opened Common
  import opened ServiceMap
  import Decimal

  datatype Labels = Labels(
    connId: string,
    clientId: string, clientName: string, clientNamespace: string, clientKind: string,
    serverId: string, serverName: string, serverNamespace: string, serverKind: string,
    serverPort: string, role: string)

  /** `hash` stands for the hexadecimal FNV hash the ids are printed as. */
  function LabelsOf(c: Connection, hash: string -> string): Labels {
    Labels(
      hash(c.client.name + c.client.namespace + c.server.name + c.server.namespace),
      hash(c.client.name + c.client.namespace), c.client.name, c.client.namespace, c.client.kind,
      hash(c.server.name + c.server.namespace), c.server.name, c.server.namespace, c.server.kind,
      Decimal.Print(c.serverPort), Decimal.Print(c.role))
  }

  /** Distinct pairs have distinct label sets, whatever the hash does. */
  lemma LabelsInjective(a: Connection, b: Connection, hash: string -> string)
    requires LabelsOf(a, hash) == LabelsOf(b, hash)
    ensures a == b
  {
    Decimal.PrintInjective(a.serverPort, b.serverPort);
    Decimal.PrintInjective(a.role, b.role);
  }

  /** The label set names the client and the server of the pair, its port and its role, each in its own field. */
  ghost predicate Names(l: Labels, c: Connection) {
    && (l.clientName, l.clientNamespace, l.clientKind) == (c.client.name, c.client.namespace, c.client.kind)
    && (l.serverName, l.serverNamespace, l.serverKind) == (c.server.name, c.server.namespace, c.server.kind)
    && Decimal.Parse(l.serverPort) == c.serverPort && Decimal.Parse(l.role) == c.role
  }

  /** The label set of a pair names it and no other pair; its three ids are hashes of the names in it. */
  lemma {:induction false} LabelsNamePair(a: Connection, b: Connection, hash: string -> string)
    ensures Names(LabelsOf(a, hash), b) <==> a == b
    ensures var l := LabelsOf(a, hash);
            && l.clientId == hash(l.clientName + l.clientNamespace)
            && l.serverId == hash(l.serverName + l.serverNamespace)
            && l.connId == hash(l.clientName + l.clientNamespace + l.serverName + l.serverNamespace)
  {
    Decimal.RoundTrip(a.serverPort);
    Decimal.RoundTrip(a.role);
  }

  /** Rust's `as i64` of a 64-bit count. */
  function AsI64(v: u64): int { if v < TWO_63 then v else v - TWO_64 }

  type Family = map<Labels, int>

  type Labeler = Connection -> Labels

  function LabelerOf(hash: string -> string): Labeler { c => LabelsOf(c, hash) }

  ghost predicate Injective(name: Labeler) { forall a, b :: name(a) == name(b) ==> a == b }

  /** The samples built so far are those of the pairs in `done`: none is missing, merged or made up. */
  ghost predicate Covers(conns: Totals, done: set<Connection>, family: Family, name: Labeler)
    requires done <= conns.Keys
    requires forall c :: c in conns ==> conns[c] < TWO_64
  {
    && (forall c :: c in done ==> name(c) in family && family[name(c)] == AsI64(conns[c]))
    && (forall l :: l in family ==> exists c :: c in done && name(c) == l)
  }

  ghost predicate Lossless(conns: Totals, family: Family, name: Labeler)
    requires forall c :: c in conns ==> conns[c] < TWO_64
  {
    Covers(conns, conns.Keys, family, name)
  }

  lemma CoversOneMore(conns: Totals, done: set<Connection>, family: Family, name: Labeler, conn: Connection)
    requires forall c :: c in conns ==> conns[c] < TWO_64
    requires done <= conns.Keys && conn in conns && conn !in done
    requires Injective(name) && Covers(conns, done, family, name)
    ensures Covers(conns, done + {conn}, family[name(conn) := AsI64(conns[conn])], name)
  {
    var family' := family[name(conn) := AsI64(conns[conn])];
    forall l | l in family' ensures exists c :: c in done + {conn} && name(c) == l {
      if l == name(conn) {
        assert conn in done + {conn};
      } else {
        var c :| c in done && name(c) == l;
        assert c in done + {conn};
      }
    }
  }

  /** `get_or_create(labels).set(value)` for every polled pair, in any order. */
  method Fill(conns: Totals, name: Labeler) returns (family: Family)
    requires forall c :: c in conns ==> conns[c] < TWO_64
    requires Injective(name)
    ensures Lossless(conns, family, name)
  {
    family := map[];
    var todo := conns.Keys;
    while todo != {}
      invariant todo <= conns.Keys
      invariant Covers(conns, conns.Keys - todo, family, name)
      decreases todo
    {
      var conn :| conn in todo;
      CoversOneMore(conns, conns.Keys - todo, family, name, conn);
      assert conns.Keys - todo + {conn} == conns.Keys - (todo - {conn});
      family := family[name(conn) := AsI64(conns[conn])];
      todo := todo - {conn};
    }
    assert conns.Keys - todo == conns.Keys;
  }

  /** `collect` exports exactly one sample per polled pair, with its value. */
  method BuildFamily(conns: Totals, hash: string -> string) returns (family: Family)
    requires forall c :: c in conns ==> conns[c] < TWO_64
    ensures Lossless(conns, family, LabelerOf(hash)) && Injective(LabelerOf(hash))
  {
    forall a, b | LabelerOf(hash)(a) == LabelerOf(hash)(b) ensures a == b {
      LabelsInjective(a, b, hash);
    }
    family := Fill(conns, LabelerOf(hash));
  }

  /** The cast keeps the 64 bits: the sample is the value up to a multiple of 2^64, and within the signed range. */
  lemma {:induction false} CastKeepsBits(v: u64)
    ensures -0x8000_0000_0000_0000 <= AsI64(v) < 0x8000_0000_0000_0000
    ensures AsI64(v) % 0x1_0000_0000_0000_0000 == v
  {
  }

  /** A sample shows the polled value itself exactly when the value fits a signed 64-bit gauge. */
  lemma SampleIsValue(conns: Totals, family: Family, name: Labeler, c: Connection)
    requires forall d :: d in conns ==> conns[d] < TWO_64
    requires Lossless(conns, family, name)
    requires c in conns
    ensures family[name(c)] == conns[c] <==> conns[c] < 0x8000_0000_0000_0000
  {
  }
}
