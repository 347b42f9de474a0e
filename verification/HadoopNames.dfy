/** Object names: `cluster + suffix`, one suffix per role. */
module HadoopNames {
  import opened Topology

  datatype Kind = ConfigMapKind | ServiceKind | StatefulSetKind | PdbKind | IngressKind

  /** The address of an object in the API server. */
  datatype Ref = Ref(kind: Kind, namespace: string, name: string)

  function KindOf(r: Role): Kind
  {
    match r
    case CmHadoop | CmZookeeper => ConfigMapKind
    case StsZookeeper | StsJournalNode | StsNameNode | StsDataNode | StsRm | StsNm => StatefulSetKind
    case PdbNameNode => PdbKind
    case IngUi => IngressKind
    case _ => ServiceKind
  }

  function Suffix(r: Role): string
  {
    match r
    case CmHadoop => "-hadoop-config"
    case CmZookeeper => "-zookeeper-config"
    case SvcZookeeper | StsZookeeper => "-zookeeper"
    case SvcJournalNode | StsJournalNode => "-journalnode"
    case SvcNameNode | StsNameNode => "-namenode"
    case SvcNameNodeExternal => "-namenode-external"
    case SvcNnPodExternal(i) => if i == 0 then "-namenode-0-external" else "-namenode-1-external"
    case SvcNnPodWeb(i) => if i == 0 then "-namenode-0-web" else "-namenode-1-web"
    case SvcRmWeb => "-resourcemanager-0-web"
    case SvcDataNode | StsDataNode => "-datanode"
    case SvcDataNodeExternal => "-datanode-external"
    case SvcRm | StsRm => "-resourcemanager"
    case SvcRmExternal => "-resourcemanager-external"
    case SvcNm | StsNm => "-nodemanager"
    case SvcNmExternal => "-nodemanager-external"
    case PdbNameNode => "-namenode-pdb"
    case IngUi => "-hadoop-ui"
  }

  function Name(cluster: string, r: Role): string
  {
    cluster + Suffix(r)
  }

  function RefOf(namespace: string, cluster: string, r: Role): Ref
  {
    Ref(KindOf(r), namespace, Name(cluster, r))
  }

  /** Length, first letter and the character after a nine-letter stem. */
  function Print(r: Role): (int, char, char)
  {
    match r
    case CmHadoop => (14, 'h', 'n')
    case CmZookeeper => (17, 'z', '-')
    case SvcZookeeper | StsZookeeper => (10, 'z', ' ')
    case SvcJournalNode | StsJournalNode => (12, 'j', 'd')
    case SvcNameNode | StsNameNode => (9, 'n', ' ')
    case SvcNameNodeExternal => (18, 'n', 'e')
    case SvcNnPodExternal(i) => (20, 'n', if i == 0 then '0' else '1')
    case SvcNnPodWeb(i) => (15, 'n', if i == 0 then '0' else '1')
    case SvcRmWeb => (22, 'r', 'a')
    case SvcDataNode | StsDataNode => (9, 'd', ' ')
    case SvcDataNodeExternal => (18, 'd', 'e')
    case SvcRm | StsRm => (16, 'r', 'a')
    case SvcRmExternal => (25, 'r', 'a')
    case SvcNm | StsNm => (12, 'n', 'e')
    case SvcNmExternal => (21, 'n', 'e')
    case PdbNameNode => (13, 'n', 'p')
    case IngUi => (10, 'h', ' ')
  }

  lemma SuffixPrint(r: Role)
    ensures Suffix(r)[0] == '-'
    ensures Print(r) == (|Suffix(r)|, Suffix(r)[1], if |Suffix(r)| > 10 then Suffix(r)[10] else ' ')
  {
  }

  /** A hyphen inside a suffix is never followed by a letter a suffix starts with. */
  predicate InnerHyphens(s: string)
  {
    forall i :: 0 < i < |s| - 1 && s[i] == '-' ==> s[i + 1] in ['c', 'e', 'w', 'p', 'u', '0', '1']
  }

  predicate NameNodeService(r: Role)
  {
    r.SvcNameNode? || r.SvcNameNodeExternal? || r.SvcNnPodExternal? || r.SvcNnPodWeb?
  }

  lemma NameNodeServiceHyphens(r: Role)
    requires NameNodeService(r)
    ensures InnerHyphens(Suffix(r))
  {
  }

  predicate PlainService(r: Role)
  {
    r.SvcZookeeper? || r.SvcJournalNode? || r.SvcDataNode? || r.SvcDataNodeExternal?
  }

  lemma PlainServiceHyphens(r: Role)
    requires PlainService(r)
    ensures InnerHyphens(Suffix(r))
  {
  }

  lemma YarnServiceHyphens(r: Role)
    requires IsService(r) && !NameNodeService(r) && !PlainService(r)
    ensures InnerHyphens(Suffix(r))
  {
  }

  lemma StatefulSetHyphens(r: Role)
    requires KindOf(r) == StatefulSetKind
    ensures InnerHyphens(Suffix(r))
  {
  }

  lemma OtherHyphens(r: Role)
    requires !IsService(r) && KindOf(r) != StatefulSetKind
    ensures InnerHyphens(Suffix(r))
  {
  }

  lemma SuffixHyphens(r: Role)
    ensures InnerHyphens(Suffix(r))
  {
    if NameNodeService(r) { NameNodeServiceHyphens(r); }
    else if PlainService(r) { PlainServiceHyphens(r); }
    else if IsService(r) { YarnServiceHyphens(r); }
    else if KindOf(r) == StatefulSetKind { StatefulSetHyphens(r); }
    else { OtherHyphens(r); }
  }

  lemma PrintInjective(a: Role, b: Role)
    requires KindOf(a) == KindOf(b) && Print(a) == Print(b)
    ensures a == b
  {
  }

  predicate RoleLetter(c: char)
  {
    c == 'z' || c == 'j' || c == 'n' || c == 'd' || c == 'r' || c == 'h'
  }

  lemma NotInside(short: string, long: string)
    requires 2 <= |short| <= |long| && short == long[|long| - |short|..]
    requires short[0] == '-' && RoleLetter(short[1]) && InnerHyphens(long)
    ensures short == long
  {
    var d := |long| - |short|;
    assert long[d] == short[0] && long[d + 1] == short[1];
  }

  lemma PrintLetter(r: Role)
    ensures RoleLetter(Print(r).1) && Print(r).0 >= 2
  {
  }

  lemma SamePrint(a: Role, b: Role)
    requires Suffix(a) == Suffix(b)
    ensures Print(a) == Print(b)
  {
    SuffixPrint(a);
    SuffixPrint(b);
  }

  lemma SuffixStart(r: Role)
    ensures |Suffix(r)| >= 2 && Suffix(r)[0] == '-' && RoleLetter(Suffix(r)[1])
  {
    SuffixPrint(r);
    PrintLetter(r);
  }

  /** No suffix ends in a shorter one of the same kind. */
  lemma SuffixFree(a: Role, b: Role)
    requires KindOf(a) == KindOf(b) && |Suffix(a)| <= |Suffix(b)|
    requires Suffix(a) == Suffix(b)[|Suffix(b)| - |Suffix(a)|..]
    ensures a == b
  {
    SuffixStart(a);
    SuffixHyphens(b);
    NotInside(Suffix(a), Suffix(b));
    SamePrint(a, b);
    PrintInjective(a, b);
  }

  /** Two objects share an address only when they are the same role of the same
      cluster: different clusters of a namespace never collide. */
  lemma RefInjective(ns1: string, c1: string, a: Role, ns2: string, c2: string, b: Role)
    requires RefOf(ns1, c1, a) == RefOf(ns2, c2, b)
    ensures ns1 == ns2 && c1 == c2 && a == b
  {
    if |Suffix(a)| <= |Suffix(b)| {
      NameTail(c1, a, c2, b);
    } else {
      NameTail(c2, b, c1, a);
    }
  }

  lemma NameTail(c1: string, a: Role, c2: string, b: Role)
    requires KindOf(a) == KindOf(b) && Name(c1, a) == Name(c2, b) && |Suffix(a)| <= |Suffix(b)|
    ensures c1 == c2 && a == b
  {
    var x := Name(c1, a);
    var d := |Suffix(b)| - |Suffix(a)|;
    assert x[|c1|..] == Suffix(a);
    assert x[|c2|..] == Suffix(b);
    assert x[|c2|..][d..] == x[|c1|..];
    SuffixFree(a, b);
    assert x[..|c1|] == c1 && x[..|c2|] == c2;
  }
}
