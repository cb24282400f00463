/** Resource identity paths: `namespace/name`, or a bare name for an object
    outside any namespace. The adapter builds a path from an object's
    metadata when it is populated, and splits a path back into namespace and
    name before every remote call. */
module Paths {
  import opened Results
  import opened Text

  const Separator: char := '/'

  /** The identity path of an object: its namespace and name joined by a
      slash, or the bare name when the namespace is empty. */
  function NamespacedName(ns: string, name: string): (p: string)
    ensures Separator !in ns && Separator !in name ==>
      (LastIndexOf(p, Separator).Some? <==> ns != "")
  {
    if ns == "" then name else ns + [Separator] + name
  }

  /** `path.Split`: everything up to and including the last slash, and the
      rest. */
  function SplitPath(p: string): (parts: (string, string))
    ensures parts.0 + parts.1 == p
    ensures Separator !in parts.1
    ensures parts.0 == [] || parts.0[|parts.0| - 1] == Separator
  {
    match LastIndexOf(p, Separator)
    case None => ("", p)
    case Some(i) => (p[..i + 1], p[i + 1..])
  }

  /** Splits a path into namespace and name: the directory part of
      `path.Split` with its slashes trimmed, and the final element. */
  function Namespaced(p: string): (r: (string, string))
    ensures Separator !in r.1
    ensures Separator !in p ==> r == ("", p)
  {
    var (dir, file) := SplitPath(p);
    (Trim(dir, Separator), file)
  }

  /** A path of the shape the adapter builds: at most one slash, and never
      in front, so the namespace before a slash is never empty. */
  predicate WellFormedPath(p: string) {
    && (|p| > 0 ==> p[0] != Separator)
    && forall i, j :: 0 <= i < j < |p| && p[i] == Separator ==> p[j] != Separator
  }

  /** Trimming a slash-terminated namespace that holds no other slash gives
      back the namespace. */
  lemma TrimNamespaceDir(ns: string)
    requires ns != "" && Separator !in ns
    ensures Trim(ns + [Separator], Separator) == ns
  {
    var dir := ns + [Separator];
    assert dir[0] == ns[0] != Separator;
    var l := TrimLeft(dir, Separator);
    assert |l| == |dir|;
    assert dir[|ns| - 1] == ns[|ns| - 1] != Separator;
    var r := TrimRight(dir, Separator);
    assert |r| == |ns|;
    assert r == dir[..|ns|] == ns;
  }

  /** Splitting a path that was built from a namespace and a name (neither
      holding a slash, as object names cannot) gives back both. */
  lemma {:induction false} SplitJoin(ns: string, name: string)
    requires Separator !in ns && Separator !in name
    ensures Namespaced(NamespacedName(ns, name)) == (ns, name)
  {
    if ns != "" {
      var p := NamespacedName(ns, name);
      var i := LastIndexOf(p, Separator);
      assert p[|ns|] == Separator;
      assert p[|ns| + 1..] == name;
      assert i.Some? && i.value == |ns|;
      assert p[..|ns| + 1] == ns + [Separator];
      TrimNamespaceDir(ns);
    }
  }

  /** Joining the two parts of a well-formed path gives back the path. */
  lemma {:induction false} JoinSplit(p: string)
    requires WellFormedPath(p)
    ensures NamespacedName(Namespaced(p).0, Namespaced(p).1) == p
  {
    var i := LastIndexOf(p, Separator);
    if i.Some? {
      var k := i.value;
      var ns := p[..k];
      assert k > 0;
      assert Separator !in ns by {
        forall m | 0 <= m < k ensures ns[m] != Separator {
          assert p[k] == Separator;
        }
      }
      assert p[..k + 1] == ns + [Separator];
      TrimNamespaceDir(ns);
      assert p == ns + [Separator] + p[k + 1..];
    }
  }

  /** Paths built by `NamespacedName` from slash-free parts are well formed. */
  lemma JoinIsWellFormed(ns: string, name: string)
    requires Separator !in ns && Separator !in name
    ensures WellFormedPath(NamespacedName(ns, name))
  {
    if ns != "" {
      var p := NamespacedName(ns, name);
      forall i, j | 0 <= i < j < |p| && p[i] == Separator
        ensures p[j] != Separator
      {
        assert i == |ns|;
        assert p[j] == name[j - |ns| - 1];
      }
    }
  }

  /** Conversely, every well-formed path is built by `NamespacedName` from
      slash-free parts: its own two parts. */
  lemma WellFormedIsJoin(p: string)
    requires WellFormedPath(p)
    ensures Separator !in Namespaced(p).0 && Separator !in Namespaced(p).1
    ensures p == NamespacedName(Namespaced(p).0, Namespaced(p).1)
  {
    JoinSplit(p);
    var ns := Namespaced(p).0;
    if ns != "" {
      assert p[..|ns|] == ns;
      forall m | 0 <= m < |ns| ensures ns[m] != Separator {
        assert p[|ns|] == Separator;
        assert p[m] == ns[m];
      }
    }
  }
}
