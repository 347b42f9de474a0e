/** The host lists in the generated configuration, read back. */
module HadoopHosts {
  import opened Wrappers
  import opened Text
  import opened HadoopSpec
  import opened Topology
  import opened HadoopNames
  import opened HadoopResources

  lemma {:induction false} DigitsOnly(n: nat, c: char)
    requires !IsDigit(c)
    ensures c !in Dec(n)
  {
  }

  /** A separator that is neither in the Service name nor a digit, '-' or '.' is in no host. */
  lemma HostWithout(svc: string, i: nat, suffix: string, c: char)
    requires c !in svc && c !in suffix && !IsDigit(c) && c != '-' && c != '.'
    ensures c !in Host(svc, i) + suffix
  {
    DigitsOnly(i, c);
  }

  lemma HostsWithout(svc: string, n: int, suffix: string, c: char)
    requires c !in svc && c !in suffix && !IsDigit(c) && c != '-' && c != '.'
    ensures forall h <- Hosts(svc, n, suffix) :: c !in h
  {
    var hs := Hosts(svc, n, suffix);
    forall i | 0 <= i < |hs| ensures c !in hs[i] {
      HostWithout(svc, i, suffix, c);
    }
  }

  lemma ServiceNameWithout(cluster: string, r: Role, c: char)
    requires r == SvcZookeeper || r == SvcJournalNode
    requires c !in cluster && (c == ';' || c == ',' || c == '/' || c == '\n')
    ensures c !in Name(cluster, r)
  {
    assert c !in Suffix(r);
  }

  /** The ordinal of a host is determined by its name. */
  lemma HostInjective(svc: string, i: nat, j: nat, suffix: string)
    requires Host(svc, i) + suffix == Host(svc, j) + suffix
    ensures i == j
  {
    var rest := "." + svc + suffix;
    var x, y := Host(svc, i) + suffix, Host(svc, j) + suffix;
    assert x == svc + "-" + (Dec(i) + rest) && y == svc + "-" + (Dec(j) + rest);
    var k := |svc| + 1;
    assert x[k..] == Dec(i) + rest && y[k..] == Dec(j) + rest;
    assert |Dec(i)| == |Dec(j)|;
    assert x[k..][..|Dec(i)|] == Dec(i) && y[k..][..|Dec(j)|] == Dec(j);
    DecInjective(i, j);
  }

  /** `Hosts` is one distinct host per ordinal below `n`. */
  lemma HostsDistinct(svc: string, n: int, suffix: string)
    ensures |Hosts(svc, n, suffix)| == Max(0, n)
    ensures forall i, j :: 0 <= i < j < |Hosts(svc, n, suffix)| ==> Hosts(svc, n, suffix)[i] != Hosts(svc, n, suffix)[j]
  {
    var hs := Hosts(svc, n, suffix);
    forall i, j | 0 <= i < j < |hs| ensures hs[i] != hs[j] {
      if hs[i] == hs[j] { HostInjective(svc, i, j, suffix); }
    }
  }

  /** A reader of the ZooKeeper quorum string recovers the hosts. */
  lemma QuorumReadBack(cluster: string, n: int)
    requires ',' !in cluster && n > 0
    ensures Split(ZkConnectString(cluster, n), ",") == Hosts(Name(cluster, SvcZookeeper), n, ":2181")
    ensures var hs := Hosts(Name(cluster, SvcZookeeper), n, ":2181");
            |hs| == n && forall i, j :: 0 <= i < j < n ==> hs[i] != hs[j]
  {
    HostsDistinct(Name(cluster, SvcZookeeper), n, ":2181");
    ServiceNameWithout(cluster, SvcZookeeper, ',');
    HostsWithout(Name(cluster, SvcZookeeper), n, ":2181", ',');
    SplitJoin(Hosts(Name(cluster, SvcZookeeper), n, ":2181"), ',');
  }

  const QJOURNAL_SCHEME := "qjournal://"

  /** The authority part of a qjournal URI, split at ';'. */
  function QjournalHosts(uri: string): Option<seq<string>>
  {
    if QJOURNAL_SCHEME <= uri then
      var rest := uri[|QJOURNAL_SCHEME|..];
      var slash := IndexOf(rest, "/");
      Some(Split(if slash < 0 then rest else rest[..slash], ";"))
    else None
  }

  lemma {:induction false} JoinWithout(parts: seq<string>, sep: string, c: char)
    requires c !in sep && forall p <- parts :: c !in p
    ensures c !in Join(parts, sep)
  {
    if |parts| > 1 { JoinWithout(parts[1..], sep, c); }
  }

  /** The path part of a qjournal URI, without its '/'. */
  function QjournalPath(uri: string): Option<string>
  {
    if QJOURNAL_SCHEME <= uri then
      var rest := uri[|QJOURNAL_SCHEME|..];
      var slash := IndexOf(rest, "/");
      if slash < 0 then None else Some(rest[slash + 1..])
    else None
  }

  /** A reader of the shared-edits URI recovers the JournalNode hosts, one
      distinct host per ordinal, and the nameservice, whatever its text. */
  lemma QjournalReadBack(cluster: string, n: int, nameservice: string)
    requires ';' !in cluster && '/' !in cluster && n > 0
    ensures QjournalHosts(QjournalUri(cluster, n, nameservice)) == Some(Hosts(Name(cluster, SvcJournalNode), n, ":8485"))
    ensures QjournalPath(QjournalUri(cluster, n, nameservice)) == Some(nameservice)
    ensures var hs := Hosts(Name(cluster, SvcJournalNode), n, ":8485");
            |hs| == n && forall i, j :: 0 <= i < j < n ==> hs[i] != hs[j]
  {
    var svc := Name(cluster, SvcJournalNode);
    var hs := Hosts(svc, n, ":8485");
    ServiceNameWithout(cluster, SvcJournalNode, ';');
    ServiceNameWithout(cluster, SvcJournalNode, '/');
    HostsWithout(svc, n, ":8485", ';');
    HostsWithout(svc, n, ":8485", '/');
    QjournalParts(hs, nameservice, QjournalUri(cluster, n, nameservice));
    HostsDistinct(svc, n, ":8485");
  }

  lemma QjournalParts(hs: seq<string>, nameservice: string, uri: string)
    requires hs != [] && uri == QJOURNAL_SCHEME + Join(hs, ";") + "/" + nameservice
    requires forall h <- hs :: ';' !in h && '/' !in h
    ensures QjournalHosts(uri) == Some(hs) && QjournalPath(uri) == Some(nameservice)
  {
    var body := Join(hs, ";");
    JoinWithout(hs, ";", '/');
    SplitJoin(hs, ';');
    var rest := uri[|QJOURNAL_SCHEME|..];
    assert rest == body + "/" + nameservice;
    FirstAt(rest, body, '/', nameservice);
    assert rest[..|body|] == body && rest[|body| + 1..] == nameservice;
  }

  /** The lines a ZooKeeper server reads as ensemble members. */
  function ServerLines(lines: seq<string>): seq<string>
  {
    if lines == [] then []
    else (if "server." <= lines[0] then [lines[0]] else []) + ServerLines(lines[1..])
  }

  lemma {:induction false} ServerLinesConcat(a: seq<string>, b: seq<string>)
    ensures ServerLines(a + b) == ServerLines(a) + ServerLines(b)
  {
    if a == [] {
      assert a + b == b;
    } else {
      assert (a + b)[1..] == a[1..] + b;
      ServerLinesConcat(a[1..], b);
    }
  }

  lemma ServerLineStart(cluster: string, i: nat)
    ensures "server." <= ZooServerLine(cluster, i)
  {
    var rest := Dec(i + 1) + "=" + Host(Name(cluster, SvcZookeeper), i) + ":2888:3888:participant";
    assert ZooServerLine(cluster, i) == "server." + rest;
  }

  lemma {:induction false} ServerLineAt(cluster: string, n: int, i: nat)
    requires i < n
    ensures ZooServerLines(cluster, n)[i] == ZooServerLine(cluster, i)
    decreases n
  {
    if i < n - 1 { ServerLineAt(cluster, n - 1, i); }
  }

  lemma OneServerLine(cluster: string, i: nat)
    ensures ServerLines([ZooServerLine(cluster, i)]) == [ZooServerLine(cluster, i)]
  {
    ServerLineStart(cluster, i);
    var line := ZooServerLine(cluster, i);
    assert ServerLines([line]) == [line] + ServerLines([line][1..]);
  }

  lemma {:induction false} ServerLinesAll(cluster: string, n: int)
    ensures ServerLines(ZooServerLines(cluster, n)) == ZooServerLines(cluster, n)
    decreases n
  {
    if n > 0 {
      ServerLinesAll(cluster, n - 1);
      ServerLinesConcat(ZooServerLines(cluster, n - 1), [ZooServerLine(cluster, n - 1)]);
      OneServerLine(cluster, n - 1);
    }
  }

  lemma {:induction false} NoServerLine(lines: seq<string>)
    requires forall i :: 0 <= i < |lines| ==> |lines[i]| >= 2 && (lines[i][0] != 's' || lines[i][1] != 'e')
    ensures ServerLines(lines) == []
  {
    if lines != [] {
      assert "server."[0] == 's' && "server."[1] == 'e';
      NoServerLine(lines[1..]);
    }
  }

  lemma HeadLine(i: nat)
    requires i < |ZOO_CFG_HEAD|
    ensures '\n' !in ZOO_CFG_HEAD[i]
  {
  }

  lemma HeadNoServer()
    ensures ServerLines(ZOO_CFG_HEAD) == []
  {
    forall i | 0 <= i < |ZOO_CFG_HEAD| ensures |ZOO_CFG_HEAD[i]| >= 2 && ZOO_CFG_HEAD[i][1] != 'e' {
    }
    NoServerLine(ZOO_CFG_HEAD);
  }

  lemma HeadLines()
    ensures ServerLines(ZOO_CFG_HEAD) == []
    ensures forall i :: 0 <= i < |ZOO_CFG_HEAD| ==> '\n' !in ZOO_CFG_HEAD[i]
  {
    HeadNoServer();
    forall i | 0 <= i < |ZOO_CFG_HEAD| ensures '\n' !in ZOO_CFG_HEAD[i] { HeadLine(i); }
  }

  lemma {:induction false} ServerLinesWithout(cluster: string, n: int)
    requires '\n' !in cluster
    ensures forall l <- ZooServerLines(cluster, n) :: '\n' !in l
    decreases n
  {
    if n > 0 {
      ServerLinesWithout(cluster, n - 1);
      ServiceNameWithout(cluster, SvcZookeeper, '\n');
      HostWithout(Name(cluster, SvcZookeeper), n - 1, ":2888:3888:participant", '\n');
      DigitsOnly(n, '\n');
    }
  }

  lemma {:induction false} JoinNewlineEnd(parts: seq<string>)
    requires parts != []
    ensures Join(parts, "\n") + "\n" == Join(parts + [""], "\n")
  {
    if |parts| > 1 {
      JoinNewlineEnd(parts[1..]);
      assert (parts + [""])[1..] == parts[1..] + [""];
    } else {
      assert (parts + [""])[1..] == [""];
    }
  }

  lemma LinesSplit(lines: seq<string>)
    requires lines != [] && forall l <- lines :: '\n' !in l
    ensures Split(Join(lines, "\n") + "\n", "\n") == lines + [""]
  {
    JoinNewlineEnd(lines);
    SplitJoin(lines + [""], '\n');
  }

  lemma ZooCfgLines(cluster: string, n: int)
    requires '\n' !in cluster
    ensures Split(ZooCfgText(cluster, n), "\n") == ZOO_CFG_HEAD + ZooServerLines(cluster, n) + [""]
  {
    hide Split, Join, ZooServerLines;
    HeadLines();
    ServerLinesWithout(cluster, n);
    LinesSplit(ZOO_CFG_HEAD + ZooServerLines(cluster, n));
  }

  const SERVER := "server."
  const SERVER_PORTS := ":2888:3888:participant"

  /** A member as a ZooKeeper server reads it: the id before the first '=', and the host before the ports. */
  function ServerMember(line: string): Option<(string, string)>
  {
    var eq, end := IndexOf(line, "="), |line| - |SERVER_PORTS|;
    if |SERVER| <= eq < end && line[end..] == SERVER_PORTS then Some((line[|SERVER|..eq], line[eq + 1..end])) else None
  }

  lemma MemberParts(line: string, id: string, host: string)
    requires line == SERVER + id + "=" + host + SERVER_PORTS && host != "" && '=' !in id
    ensures ServerMember(line) == Some((id, host))
  {
    assert '=' !in SERVER;
    FirstAt(line, SERVER + id, '=', host + SERVER_PORTS);
    var end := |SERVER + id| + 1 + |host|;
    assert line[end..] == SERVER_PORTS && line[|SERVER|..|SERVER + id|] == id && line[|SERVER + id| + 1..end] == host;
  }

  /** The line names the member of this ordinal: its id is the ordinal plus one, its host that of the pod. */
  predicate NamesMember(line: string, cluster: string, i: nat)
  {
    ServerMember(line) == Some((Dec(i + 1), Host(Name(cluster, SvcZookeeper), i)))
  }

  lemma MemberRead(cluster: string, i: nat)
    ensures NamesMember(ZooServerLine(cluster, i), cluster, i)
  {
    DigitsOnly(i + 1, '=');
    MemberParts(ZooServerLine(cluster, i), Dec(i + 1), Host(Name(cluster, SvcZookeeper), i));
  }

  /** Two members share neither an id nor a host. */
  lemma MembersDistinct(cluster: string, i: nat, j: nat, a: string, b: string)
    requires i != j && NamesMember(a, cluster, i) && NamesMember(b, cluster, j)
    ensures ServerMember(a).value.0 != ServerMember(b).value.0 && ServerMember(a).value.1 != ServerMember(b).value.1
  {
    if Dec(i + 1) == Dec(j + 1) { DecInjective(i + 1, j + 1); }
    if Host(Name(cluster, SvcZookeeper), i) == Host(Name(cluster, SvcZookeeper), j) {
      HostInjective(Name(cluster, SvcZookeeper), i, j, "");
    }
  }

  /** One line per ordinal, in order, and no two name the same id or host. */
  ghost predicate MembersInOrder(lines: seq<string>, cluster: string)
  {
    && (forall i :: 0 <= i < |lines| ==> NamesMember(lines[i], cluster, i))
    && (forall i, j :: 0 <= i < j < |lines| ==>
          ServerMember(lines[i]).value.0 != ServerMember(lines[j]).value.0 &&
          ServerMember(lines[i]).value.1 != ServerMember(lines[j]).value.1)
  }

  lemma LinesInOrder(lines: seq<string>, cluster: string)
    requires forall i :: 0 <= i < |lines| ==> lines[i] == ZooServerLine(cluster, i)
    ensures MembersInOrder(lines, cluster)
  {
    forall i | 0 <= i < |lines| ensures NamesMember(lines[i], cluster, i) {
      MemberRead(cluster, i);
    }
    forall i, j | 0 <= i < j < |lines|
      ensures ServerMember(lines[i]).value.0 != ServerMember(lines[j]).value.0
      ensures ServerMember(lines[i]).value.1 != ServerMember(lines[j]).value.1
    {
      MembersDistinct(cluster, i, j, lines[i], lines[j]);
    }
  }

  /** Reading zoo.cfg back gives exactly one member per ordinal, in order, with
      distinct ids and hosts. */
  lemma ZooCfgReadBack(cluster: string, n: int)
    requires '\n' !in cluster
    ensures var lines := ServerLines(Split(ZooCfgText(cluster, n), "\n"));
            |lines| == Max(0, n) && MembersInOrder(lines, cluster)
  {
    ServerLinesRead(cluster, n);
    forall i | 0 <= i < n ensures ZooServerLines(cluster, n)[i] == ZooServerLine(cluster, i) {
      ServerLineAt(cluster, n, i);
    }
    LinesInOrder(ZooServerLines(cluster, n), cluster);
  }

  lemma ServerLinesRead(cluster: string, n: int)
    requires '\n' !in cluster
    ensures ServerLines(Split(ZooCfgText(cluster, n), "\n")) == ZooServerLines(cluster, n)
  {
    ZooCfgLines(cluster, n);
    HeadLines();
    ServerLinesAll(cluster, n);
    ServerLinesConcat(ZOO_CFG_HEAD, ZooServerLines(cluster, n));
    ServerLinesConcat(ZOO_CFG_HEAD + ZooServerLines(cluster, n), [""]);
    assert ServerLines([""]) == [];
  }

  /** The hosts of a list are those of the StatefulSet: one per ordinal, an odd number, at least three. */
  ghost predicate Ensemble(hosts: seq<string>, sts: StatefulSet, port: string)
  {
    && |hosts| == sts.replicas && |hosts| >= 3 && |hosts| % 2 == 1
    && (forall i :: 0 <= i < |hosts| ==> hosts[i] == Host(sts.serviceName, i) + port)
    && (forall i, j :: 0 <= i < j < |hosts| ==> hosts[i] != hosts[j])
  }

  lemma HostsEnsemble(sts: StatefulSet, port: string)
    requires sts.replicas >= 3 && sts.replicas % 2 == 1
    ensures Ensemble(Hosts(sts.serviceName, sts.replicas, port), sts, port)
  {
    HostsDistinct(sts.serviceName, sts.replicas, port);
  }

  /** Under HA the ZooKeeper quorum a client reads from core-site.xml is the
      ensemble the ZooKeeper StatefulSet runs. */
  lemma ZookeeperEnsemble(cr: Cr, n: Norm, revision: string)
    requires n.hdfs.ha.enabled && CanonicalZk(n.zk, n.hdfs) && ',' !in cr.name
    ensures Ensemble(Split(ZkConnectString(cr.name, n.zk.replicas), ","), ZookeeperStatefulset(cr, n, "", revision), ":2181")
  {
    QuorumLeast(n.zk.replicas, n.zk.replicas);
    QuorumReadBack(cr.name, n.zk.replicas);
    HostsEnsemble(ZookeeperStatefulset(cr, n, "", revision), ":2181");
  }

  /** Under HA the JournalNodes a NameNode reads from hdfs-site.xml are the
      pods the JournalNode StatefulSet runs. */
  lemma JournalEnsemble(cr: Cr, n: Norm, nameservice: string, revision: string) returns (hosts: seq<string>)
    requires n.hdfs.ha.enabled && CanonicalHa(n.hdfs.ha) && ';' !in cr.name && '/' !in cr.name
    ensures QjournalHosts(QjournalUri(cr.name, n.hdfs.ha.jnReplicas, nameservice)) == Some(hosts)
    ensures Ensemble(hosts, JournalnodeStatefulset(cr, n, "", revision), ":8485")
  {
    hide QjournalUri, QjournalHosts;
    QuorumLeast(n.hdfs.ha.jnReplicas, n.hdfs.ha.jnReplicas);
    QjournalReadBack(cr.name, n.hdfs.ha.jnReplicas, nameservice);
    HostsEnsemble(JournalnodeStatefulset(cr, n, "", revision), ":8485");
    hosts := Hosts(Name(cr.name, SvcJournalNode), n.hdfs.ha.jnReplicas, ":8485");
  }
}
