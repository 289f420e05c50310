/**
 The text that addEdge of src/graph.cpp remembers an edge by: its four names, separated by
 NUL.  Two edges share it only if a name contains NUL, and every edge with such a name
 shares it with another.
 */
module EdgeKeys {
  import opened Texts

  /** The four names of an edge. */
  datatype EdgeNames = EdgeNames(src: string, srcPort: string, dst: string, dstPort: string) {
    function Key(): string {
      src + ['\0'] + srcPort + ['\0'] + dst + ['\0'] + dstPort
    }

    predicate NulFree() {
      '\0' !in src && '\0' !in srcPort && '\0' !in dst && '\0' !in dstPort
    }
  }

  function Key(src: string, srcPort: string, dst: string, dstPort: string): string {
    EdgeNames(src, srcPort, dst, dstPort).Key()
  }

  // ---- Names without NUL ----

  function Nuls(s: string): nat {
    if s == [] then 0 else Nuls(s[1..]) + if s[0] == '\0' then 1 else 0
  }

  lemma {:induction false} NulsConcat(s: string, t: string)
    ensures Nuls(s + t) == Nuls(s) + Nuls(t)
  {
    if s == [] {
      assert s + t == t;
    } else {
      NulsConcat(s[1..], t);
      assert (s + t)[1..] == s[1..] + t;
    }
  }

  lemma {:induction false} NulCounted(s: string)
    ensures Nuls(s) == 0 <==> '\0' !in s
  {
    if s != [] {
      NulCounted(s[1..]);
      assert s == [s[0]] + s[1..];
    }
  }

  lemma KeyNuls(names: EdgeNames)
    ensures Nuls(names.Key()) == Nuls(names.src) + Nuls(names.srcPort) + Nuls(names.dst) + Nuls(names.dstPort) + 3
  {
    var z := ['\0'];
    NulsConcat(names.src, z);
    NulsConcat(names.src + z, names.srcPort);
    NulsConcat(names.src + z + names.srcPort, z);
    NulsConcat(names.src + z + names.srcPort + z, names.dst);
    NulsConcat(names.src + z + names.srcPort + z + names.dst, z);
    NulsConcat(names.src + z + names.srcPort + z + names.dst + z, names.dstPort);
  }

  lemma SameNuls(a: EdgeNames, b: EdgeNames)
    requires a.Key() == b.Key() && a.NulFree()
    ensures b.NulFree()
  {
    KeyNuls(a);
    KeyNuls(b);
    NulCounted(a.src);
    NulCounted(a.srcPort);
    NulCounted(a.dst);
    NulCounted(a.dstPort);
    NulCounted(b.src);
    NulCounted(b.srcPort);
    NulCounted(b.dst);
    NulCounted(b.dstPort);
  }

  /** Edges without NUL in their names are told apart by their keys. */
  lemma KeysDiffer(a: EdgeNames, b: EdgeNames)
    requires a.NulFree() && a.Key() == b.Key()
    ensures a == b
  {
    SameNuls(a, b);
    var z := ['\0'];
    assert a.Key() == a.src + z + (a.srcPort + z + (a.dst + z + a.dstPort));
    assert b.Key() == b.src + z + (b.srcPort + z + (b.dst + z + b.dstPort));
    SplitAt('\0', a.src, a.srcPort + z + (a.dst + z + a.dstPort), b.src, b.srcPort + z + (b.dst + z + b.dstPort));
    SplitAt('\0', a.srcPort, a.dst + z + a.dstPort, b.srcPort, b.dst + z + b.dstPort);
    SplitAt('\0', a.dst, a.dstPort, b.dst, b.dstPort);
  }

  // ---- Names with NUL ----

  /** The two parts of a text around its first NUL. */
  function Parts(s: string): (r: (string, string))
    requires '\0' in s
    ensures s == r.0 + ['\0'] + r.1
  {
    if s[0] == '\0' then ([], s[1..])
    else
      assert s == [s[0]] + s[1..];
      var rest := Parts(s[1..]);
      ([s[0]] + rest.0, rest.1)
  }

  /** Another edge with the same key: the NUL inside a name is read as a separator, and one separator as part of a name. */
  function Twin(names: EdgeNames): (r: EdgeNames)
    requires !names.NulFree()
    ensures r != names && r.Key() == names.Key()
  {
    var z := ['\0'];
    if '\0' in names.src then
      var p := Parts(names.src);
      Regrouped(p.0, p.1, names.srcPort, names.dst, names.dstPort);
      EdgeNames(p.0, p.1, names.srcPort, names.dst + z + names.dstPort)
    else if '\0' in names.srcPort then
      var p := Parts(names.srcPort);
      Regrouped(names.src, p.0, p.1, names.dst, names.dstPort);
      EdgeNames(names.src, p.0, p.1, names.dst + z + names.dstPort)
    else if '\0' in names.dst then
      var p := Parts(names.dst);
      Regrouped(names.src, names.srcPort, p.0, p.1, names.dstPort);
      EdgeNames(names.src, names.srcPort, p.0, p.1 + z + names.dstPort)
    else
      var p := Parts(names.dstPort);
      Regrouped(names.src, names.srcPort, names.dst, p.0, p.1);
      EdgeNames(names.src + z + names.srcPort, names.dst, p.0, p.1)
  }

  /** Five texts joined by NUL read as the key of four edges. */
  lemma Regrouped(a: string, b: string, c: string, d: string, e: string)
    ensures
      var z := ['\0'];
      Key(a + z + b, c, d, e) == Key(a, b + z + c, d, e) == Key(a, b, c + z + d, e) == Key(a, b, c, d + z + e)
  {
    var z := ['\0'];
    var all := a + z + b + z + c + z + d + z + e;
    assert Key(a + z + b, c, d, e) == all;
    assert Key(a, b + z + c, d, e) == all;
    assert Key(a, b, c + z + d, e) == all;
    assert Key(a, b, c, d + z + e) == all;
  }

  /** An edge shares its key with another one exactly if one of its names contains NUL. */
  lemma KeyIsShared(names: EdgeNames)
    ensures (exists other: EdgeNames :: other != names && other.Key() == names.Key()) <==> !names.NulFree()
  {
    if names.NulFree() {
      forall other: EdgeNames | other.Key() == names.Key()
        ensures other == names
      {
        KeysDiffer(names, other);
      }
    } else {
      var twin := Twin(names);
      assert twin != names && twin.Key() == names.Key();
    }
  }
}
