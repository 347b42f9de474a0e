/** String operations shared by the Python and Go components: searching,
    splitting, joining, stripping and decimal rendering, with the laws the
    other modules rely on. */
module Text {

  // ---------------------------------------------------------------- search

  predicate OccursAt(s: string, p: string, i: nat)
  {
    i + |p| <= |s| && s[i..i + |p|] == p
  }

  /** A two-character pattern occurs where its characters do. */
  lemma OccursPair(s: string, p: string, i: nat)
    requires |p| == 2
    ensures OccursAt(s, p, i) <==> i + 2 <= |s| && s[i] == p[0] && s[i + 1] == p[1]
  {
    if i + 2 <= |s| {
      assert s[i..i + 2][0] == s[i] && s[i..i + 2][1] == s[i + 1];
    }
  }

  /** The first position, from `i` on, at which `p` occurs in `s`, or -1. */
  function FindFrom(s: string, p: string, i: nat): (r: int)
    requires i <= |s|
    ensures r == -1 || (i <= r && r + |p| <= |s|)
    decreases |s| - i
  {
    if OccursAt(s, p, i) then i
    else if i == |s| then -1
    else FindFrom(s, p, i + 1)
  }

  function IndexOf(s: string, p: string): int
  {
    FindFrom(s, p, 0)
  }

  predicate Contains(s: string, p: string)
  {
    IndexOf(s, p) >= 0
  }

  lemma {:induction false} FindFromFirst(s: string, p: string, i: nat)
    requires i <= |s|
    ensures FindFrom(s, p, i) >= 0 ==> OccursAt(s, p, FindFrom(s, p, i))
    ensures forall j :: i <= j <= |s| && (j < FindFrom(s, p, i) || FindFrom(s, p, i) < 0) ==> !OccursAt(s, p, j)
    decreases |s| - i
  {
    if !OccursAt(s, p, i) && i < |s| {
      FindFromFirst(s, p, i + 1);
    }
  }

  /** `IndexOf` finds an occurrence, the first one, if there is any. */
  lemma IndexOfFirst(s: string, p: string)
    ensures IndexOf(s, p) >= 0 ==> OccursAt(s, p, IndexOf(s, p))
    ensures forall j :: 0 <= j <= |s| && (j < IndexOf(s, p) || IndexOf(s, p) < 0) ==> !OccursAt(s, p, j)
  {
    FindFromFirst(s, p, 0);
  }

  /** A search answers with any position known to be the first one. */
  lemma FirstIndex(s: string, p: string, i: nat)
    requires OccursAt(s, p, i)
    requires forall j :: 0 <= j < i ==> !OccursAt(s, p, j)
    ensures IndexOf(s, p) == i
  {
    IndexOfFirst(s, p);
  }

  /** Where a character first occurs. */
  lemma FirstAt(s: string, p: string, c: char, rest: string)
    requires c !in p && s == p + [c] + rest
    ensures IndexOf(s, [c]) == |p| && p <= s
  {
    assert s[|p|..|p| + 1] == [c];
    forall j | 0 <= j < |p| ensures !OccursAt(s, [c], j) {
      assert s[j..j + 1][0] == p[j];
    }
    FirstIndex(s, [c], |p|);
  }

  /** A one-character pattern is contained exactly when the character occurs. */
  lemma ContainsChar(s: string, c: char)
    ensures Contains(s, [c]) <==> c in s
  {
    IndexOfFirst(s, [c]);
    var i := IndexOf(s, [c]);
    if i >= 0 {
      assert s[i..i + 1][0] == s[i];
    }
    assert forall j :: 0 <= j < |s| && s[j] == c ==> OccursAt(s, [c], j);
  }

  // ---------------------------------------------------------- split and join

  function Join(parts: seq<string>, sep: string): string
  {
    if parts == [] then ""
    else if |parts| == 1 then parts[0]
    else parts[0] + sep + Join(parts[1..], sep)
  }

  /** Python's `s.split(sep)`: leftmost, non-overlapping, always at least one piece. */
  function Split(s: string, sep: string): (parts: seq<string>)
    requires sep != ""
    ensures |parts| >= 1
    decreases |s|
  {
    var i := IndexOf(s, sep);
    if i < 0 then [s] else [s[..i]] + Split(s[i + |sep|..], sep)
  }

  /** A text is its part before an occurrence, the occurrence, and the rest. */
  lemma CutAt(s: string, p: string, i: nat)
    requires OccursAt(s, p, i)
    ensures s == s[..i] + p + s[i + |p|..]
  {
  }

  /** Joining the pieces of a split restores the text. */
  lemma {:induction false} JoinSplit(s: string, sep: string)
    requires sep != ""
    ensures Join(Split(s, sep), sep) == s
    decreases |s|
  {
    var i := IndexOf(s, sep);
    if i >= 0 {
      IndexOfFirst(s, sep);
      CutAt(s, sep, i);
      JoinSplit(s[i + |sep|..], sep);
      JoinCons(s[..i], Split(s[i + |sep|..], sep), sep);
    }
  }

  lemma JoinCons(head: string, parts: seq<string>, sep: string)
    requires parts != []
    ensures Join([head] + parts, sep) == head + sep + Join(parts, sep)
  {
    assert ([head] + parts)[1..] == parts;
  }

  /** What stands before and after the first separator, from the pieces of a split. */
  lemma SplitHeadTail(s: string, sep: string)
    requires sep != "" && Contains(s, sep)
    ensures var i := IndexOf(s, sep);
            Split(s, sep)[0] == s[..i] && Join(Split(s, sep)[1..], sep) == s[i + |sep|..]
  {
    var i := IndexOf(s, sep);
    JoinSplit(s[i + |sep|..], sep);
    assert Split(s, sep)[1..] == Split(s[i + |sep|..], sep);
  }

  /** No piece of a split contains the separator. */
  lemma {:induction false} SplitPieces(s: string, c: char)
    ensures forall p <- Split(s, [c]) :: c !in p
    decreases |s|
  {
    var i := IndexOf(s, [c]);
    ContainsChar(s, c);
    IndexOfFirst(s, [c]);
    if i >= 0 {
      SplitPieces(s[i + 1..], c);
      assert forall j :: 0 <= j < i && s[j] == c ==> OccursAt(s, [c], j);
    }
  }

  /** Splitting at a separator character known to be first. */
  lemma SplitStep(head: string, c: char, rest: string)
    requires c !in head
    ensures Split(head + [c] + rest, [c]) == [head] + Split(rest, [c])
  {
    var s := head + [c] + rest;
    var n := |head|;
    forall j | 0 <= j < n ensures !OccursAt(s, [c], j) {
      assert s[j..j + 1][0] == head[j];
    }
    FirstIndex(s, [c], n);
    assert s[..n] == head && s[n + 1..] == rest;
  }

  /** Splitting a join at a character none of the pieces contains restores the pieces. */
  lemma {:induction false} SplitJoin(parts: seq<string>, c: char)
    requires parts != []
    requires forall p <- parts :: c !in p
    ensures Split(Join(parts, [c]), [c]) == parts
  {
    if |parts| == 1 {
      ContainsChar(parts[0], c);
    } else {
      SplitJoin(parts[1..], c);
      SplitStep(parts[0], c, Join(parts[1..], [c]));
    }
  }

  // -------------------------------------------------------------- line endings

  /** Every CR LF and every lone CR becomes an LF: Python's text mode on reading,
      and what an XML processor does before parsing (section 2.11 of XML 1.0). */
  function LineEnds(s: string): string
  {
    if s == "" then ""
    else if s[0] != '\r' then [s[0]] + LineEnds(s[1..])
    else if |s| > 1 && s[1] == '\n' then LineEnds(s[1..])
    else "\n" + LineEnds(s[1..])
  }

  /** A text without CR is left alone, and no other is. */
  lemma {:induction false} LineEndsExactly(s: string)
    ensures '\r' !in LineEnds(s)
    ensures LineEnds(s) == s <==> '\r' !in s
  {
    if s != "" {
      LineEndsExactly(s[1..]);
      if s[0] != '\r' && '\r' !in s[1..] { assert s == [s[0]] + s[1..]; }
      if LineEnds(s) == s { assert LineEnds(s)[0] == s[0]; }
      if s[0] != '\r' && '\r' in s[1..] {
        assert LineEnds(s)[1..] == LineEnds(s[1..]);
      }
    }
  }

  // ------------------------------------------------------------------ strip

  /** The characters Python's `str.strip()` removes (`str.isspace`). */
  predicate IsSpace(c: char)
  {
    '\t' <= c <= '\r' || '\U{1C}' <= c <= ' ' || c == '\U{85}' || c == '\U{A0}' ||
    c == '\U{1680}' || '\U{2000}' <= c <= '\U{200A}' || c == '\U{2028}' || c == '\U{2029}' ||
    c == '\U{202F}' || c == '\U{205F}' || c == '\U{3000}'
  }

  /** What a strip removes. */
  datatype CharClass = Spaces | Quotes

  predicate Dropped(drop: CharClass, c: char)
  {
    match drop
    case Spaces => IsSpace(c)
    case Quotes => c == '"'
  }

  /** The first position from `i` on that a strip leaves. */
  function Lead(s: string, drop: CharClass, i: nat): (r: nat)
    requires i <= |s|
    ensures i <= r <= |s|
    decreases |s| - i
  {
    if i < |s| && Dropped(drop, s[i]) then Lead(s, drop, i + 1) else i
  }

  /** The end, down from `i` but not below `low`, of what a strip leaves. */
  function Trail(s: string, drop: CharClass, low: nat, i: nat): (r: nat)
    requires low <= i <= |s|
    ensures low <= r <= i
    decreases i
  {
    if i > low && Dropped(drop, s[i - 1]) then Trail(s, drop, low, i - 1) else i
  }

  function StripBoth(s: string, drop: CharClass): string
  {
    var a := Lead(s, drop, 0);
    s[a..Trail(s, drop, a, |s|)]
  }

  lemma {:induction false} LeadDrops(s: string, drop: CharClass, i: nat)
    requires i <= |s|
    ensures forall j :: i <= j < Lead(s, drop, i) ==> Dropped(drop, s[j])
    ensures Lead(s, drop, i) < |s| ==> !Dropped(drop, s[Lead(s, drop, i)])
    decreases |s| - i
  {
    if i < |s| && Dropped(drop, s[i]) { LeadDrops(s, drop, i + 1); }
  }

  lemma {:induction false} TrailDrops(s: string, drop: CharClass, low: nat, i: nat)
    requires low <= i <= |s|
    ensures Trail(s, drop, low, i) > low ==> !Dropped(drop, s[Trail(s, drop, low, i) - 1])
    decreases i
  {
    if i > low && Dropped(drop, s[i - 1]) { TrailDrops(s, drop, low, i - 1); }
  }

  lemma {:induction false} TrailRest(s: string, drop: CharClass, low: nat, i: nat, j: nat)
    requires low <= i <= |s| && Trail(s, drop, low, i) <= j < i
    ensures Dropped(drop, s[j])
    decreases i
  {
    if j < i - 1 { TrailRest(s, drop, low, i - 1, j); }
  }

  /** A character that is not stripped, put before a text, makes what is left longer. */
  lemma StripLonger(a: string, c: char, x: string)
    requires !IsSpace(c)
    ensures |Strip(a + [c] + x)| > |Strip(x)|
  {
    var s := a + [c] + x;
    var low, lowX := Lead(s, Spaces, 0), Lead(x, Spaces, 0);
    var high, highX := Trail(s, Spaces, low, |s|), Trail(x, Spaces, lowX, |x|);
    assert s[|a|] == c;
    LeadDrops(s, Spaces, 0);
    if high <= |a| { TrailRest(s, Spaces, low, |s|, |a|); }
    TrailDrops(x, Spaces, lowX, |x|);
    if highX > lowX && high <= |a| + highX {
      assert s[|a| + highX] == x[highX - 1];
      TrailRest(s, Spaces, low, |s|, |a| + highX);
    }
  }

  function Strip(s: string): string
  {
    StripBoth(s, Spaces)
  }

  function StripQuotes(s: string): string
  {
    StripBoth(s, Quotes)
  }

  predicate Clean(s: string, drop: CharClass)
  {
    s == "" || (!Dropped(drop, s[0]) && !Dropped(drop, s[|s| - 1]))
  }

  predicate Trimmed(s: string)
  {
    Clean(s, Spaces)
  }

  /** Stripping leaves exactly the clean texts alone, and its result is clean. */
  lemma StripBothClean(s: string, drop: CharClass)
    ensures StripBoth(s, drop) == s <==> Clean(s, drop)
    ensures Clean(StripBoth(s, drop), drop)
    ensures |StripBoth(s, drop)| <= |s|
    ensures |StripBoth(s, drop)| == |s| ==> StripBoth(s, drop) == s
  {
    var a := Lead(s, drop, 0);
    LeadDrops(s, drop, 0);
    TrailDrops(s, drop, a, |s|);
  }

  /** The stripped text is a window of the original, after dropped characters. */
  lemma StripWindow(s: string, drop: CharClass) returns (d: nat)
    ensures d + |StripBoth(s, drop)| <= |s| && StripBoth(s, drop) == s[d..d + |StripBoth(s, drop)|]
    ensures forall i :: 0 <= i < d ==> Dropped(drop, s[i])
  {
    d := Lead(s, drop, 0);
    LeadDrops(s, drop, 0);
  }

  // --------------------------------------------------------------- decimals

  function Digit(d: nat): char
    requires d < 10
  {
    '0' + d as char
  }

  /** `str(n)` for a natural number. */
  function Dec(n: nat): (s: string)
    ensures s != ""
    ensures forall c <- s :: IsDigit(c)
  {
    if n < 10 then [Digit(n)] else Dec(n / 10) + [Digit(n % 10)]
  }

  predicate IsDigit(c: char)
  {
    '0' <= c <= '9'
  }

  predicate AllDigits(s: string)
  {
    s != "" && forall c <- s :: IsDigit(c)
  }

  /** `int(s)` on a text of decimal digits. */
  function Num(s: string): nat
    requires AllDigits(s)
  {
    assert s[|s| - 1] in s;
    var last := s[|s| - 1] as nat - '0' as nat;
    if |s| == 1 then last
    else
      assert forall c <- s[..|s| - 1] :: c in s;
      10 * Num(s[..|s| - 1]) + last
  }

  /** Reading a rendered number gives the number back. */
  lemma {:induction false} NumDec(n: nat)
    ensures Num(Dec(n)) == n
  {
    if n >= 10 {
      NumDec(n / 10);
      assert Dec(n)[..|Dec(n)| - 1] == Dec(n / 10);
    }
  }

  lemma DecInjective(a: nat, b: nat)
    requires Dec(a) == Dec(b)
    ensures a == b
  {
    NumDec(a);
    NumDec(b);
  }

  // ------------------------------------------------------------------ order

  /** Code-point order, as in Python's `sorted` and Go's `sort.Strings`. */
  predicate Less(a: string, b: string)
  {
    b != "" && (a == "" || a[0] < b[0] || (a[0] == b[0] && Less(a[1..], b[1..])))
  }

  lemma {:induction false} LessTrichotomy(a: string, b: string)
    ensures Less(a, b) || Less(b, a) || a == b
    ensures !(Less(a, b) && Less(b, a))
    ensures a == b ==> !Less(a, b)
  {
    if a != "" && b != "" && a[0] == b[0] {
      LessTrichotomy(a[1..], b[1..]);
      if a[1..] == b[1..] { assert a == [a[0]] + a[1..] && b == [b[0]] + b[1..]; }
    }
  }

  lemma {:induction false} LessTransitive(a: string, b: string, c: string)
    requires Less(a, b) && Less(b, c)
    ensures Less(a, c)
  {
    if a != "" && a[0] == b[0] && b[0] == c[0] {
      LessTransitive(a[1..], b[1..], c[1..]);
    }
  }

  /** Strictly increasing, hence without duplicates. */
  predicate Sorted(ks: seq<string>)
  {
    forall i, j :: 0 <= i < j < |ks| ==> Less(ks[i], ks[j])
  }

  lemma LeastKey(s: set<string>) returns (m: string)
    requires s != {}
    ensures m in s && forall k <- s :: k != m ==> Less(m, k)
  {
    m :| m in s;
    if s != {m} {
      var rest := s - {m};
      var n := LeastKey(rest);
      LessTrichotomy(m, n);
      if Less(n, m) {
        m := n;
      } else {
        forall k | k in s && k != m ensures Less(m, k) {
          if k != n { LessTransitive(m, n, k); }
        }
      }
    }
  }

  /** `sorted(keys)`. */
  ghost function SortedKeys(s: set<string>): (ks: seq<string>)
    ensures Sorted(ks)
    ensures forall k :: k in ks <==> k in s
    ensures |ks| == |s|
    decreases |s|
  {
    if s == {} then []
    else
      assert exists m :: m in s && forall k <- s :: k != m ==> Less(m, k) by {
        var m := LeastKey(s);
      }
      var m :| m in s && forall k <- s :: k != m ==> Less(m, k);
      var rest := SortedKeys(s - {m});
      assert forall i :: 0 <= i < |rest| ==> rest[i] in rest;
      [m] + rest
  }

  /** The sorted list of a key set is unique, whatever the order the keys were met in. */
  lemma {:induction false} SortedUnique(a: seq<string>, b: seq<string>)
    requires Sorted(a) && Sorted(b)
    requires forall k :: k in a <==> k in b
    ensures a == b
  {
    assert a != [] ==> a[0] in b;
    assert b != [] ==> b[0] in a;
    if a != [] {
      SortedHead(a, b);
      forall k ensures k in a[1..] <==> k in b[1..] {
        SortedTail(a, k);
        SortedTail(b, k);
      }
      SortedUnique(a[1..], b[1..]);
      assert a == [a[0]] + a[1..] && b == [b[0]] + b[1..];
    }
  }

  lemma SortedHead(a: seq<string>, b: seq<string>)
    requires Sorted(a) && Sorted(b) && a != [] && b != []
    requires forall k :: k in a <==> k in b
    ensures a[0] == b[0]
  {
    assert a[0] in b && b[0] in a;
    if a[0] != b[0] {
      var i :| 0 <= i < |b| && b[i] == a[0];
      var j :| 0 <= j < |a| && a[j] == b[0];
      assert Less(b[0], b[i]) && Less(a[0], a[j]);
      LessTrichotomy(a[0], b[0]);
    }
  }

  lemma SortedTail(a: seq<string>, k: string)
    requires Sorted(a) && a != []
    ensures k in a[1..] <==> k in a && k != a[0]
  {
    LessTrichotomy(a[0], a[0]);
  }

  /** `sorted(keys)`, by repeated selection. */
  method SortKeys(s: set<string>) returns (ks: seq<string>)
    ensures ks == SortedKeys(s)
  {
    ks := [];
    var rest := s;
    while rest != {}
      invariant rest <= s && Sorted(ks)
      invariant forall k :: k in ks <==> k in s - rest
      invariant forall i, k :: 0 <= i < |ks| && k in rest ==> Less(ks[i], k)
      decreases |rest|
    {
      var m := SelectLeast(rest);
      rest := rest - {m};
      ks := ks + [m];
    }
    SortedUnique(ks, SortedKeys(s));
  }

  method SelectLeast(s: set<string>) returns (m: string)
    requires s != {}
    ensures m in s && forall k <- s :: k != m ==> Less(m, k)
  {
    m :| m in s;
    var rest := s - {m};
    while rest != {}
      invariant rest <= s - {m} && m in s
      invariant forall k <- s - rest :: k != m ==> Less(m, k)
      decreases |rest|
    {
      var k :| k in rest;
      rest := rest - {k};
      LessTrichotomy(m, k);
      if Less(k, m) {
        forall j | j in s - rest && j != k ensures Less(k, j) {
          if j != m { LessTransitive(k, m, j); }
        }
        m := k;
      }
    }
  }
}
