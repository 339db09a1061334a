/** The text keys under which the analyzer merges the series of one workload. */
module WorkloadKeys {
  import opened Kube
  import opened Text

  datatype Workload = Workload(kind: string, namespace: string, name: string)

  function GenerateKey(w: Workload): string {
    w.kind + "/" + w.namespace + "/" + w.name
  }

  function GeneratePodKey(namespace: string, name: string): string {
    "pod/" + namespace + "/" + name
  }

  /** Takes the first three parts; with fewer than three the index is out of range and the
      analyzer crashes. */
  function ParseKey(key: string): Option<Workload> {
    var parts := Split(key, '/');
    if |parts| < 3 then None else Some(Workload(parts[0], parts[1], parts[2]))
  }

  predicate SlashFree(w: Workload) {
    Clean(w.kind, '/') && Clean(w.namespace, '/') && Clean(w.name, '/')
  }

  /** A generated key has at least the three parts, so parsing it never crashes. */
  lemma {:induction false} PartsOfSum(a: string, b: string)
    ensures |Split(a + "/" + b, '/')| == |Split(a, '/')| + |Split(b, '/')|
  {
    var s := a + "/" + b;
    if a == "" {
      assert s[1..] == b;
    } else {
      assert s[1..] == a[1..] + "/" + b;
      PartsOfSum(a[1..], b);
    }
  }

  /** Parsing recovers the workload from its key if and only if none of its parts has a slash. */
  lemma KeyRoundTrip(w: Workload)
    ensures ParseKey(GenerateKey(w)).Some?
    ensures ParseKey(GenerateKey(w)) == Some(w) <==> SlashFree(w)
  {
    var key, tail := GenerateKey(w), w.namespace + "/" + w.name;
    assert key == w.kind + "/" + tail;
    PartsOfSum(w.kind, tail);
    PartsOfSum(w.namespace, w.name);
    PartsAreClean(key, '/');
    if SlashFree(w) {
      SplitAtFirst(w.kind, tail, '/');
      SplitAtFirst(w.namespace, w.name, '/');
      SplitClean(w.name, '/');
    }
  }

  /** The kind comes first, then the namespace, then the name. */
  lemma KeyLayout(kind: string, namespace: string, name: string)
    requires Clean(kind, '/') && Clean(namespace, '/') && Clean(name, '/')
    ensures ParseKey(kind + "/" + namespace + "/" + name) == Some(Workload(kind, namespace, name))
  {
    KeyRoundTrip(Workload(kind, namespace, name));
  }

  predicate HasThreeParts(key: string) { |Split(key, '/')| == 3 }

  lemma ParsedIsSlashFree(key: string)
    requires ParseKey(key).Some?
    ensures SlashFree(ParseKey(key).value)
  {
    PartsAreClean(key, '/');
  }

  lemma GeneratedHasThreeParts(w: Workload)
    ensures HasThreeParts(GenerateKey(w)) <==> SlashFree(w)
  {
    var key, tail := GenerateKey(w), w.namespace + "/" + w.name;
    assert key == w.kind + "/" + tail;
    PartsOfSum(w.kind, tail);
    PartsOfSum(w.namespace, w.name);
    if SlashFree(w) {
      SplitClean(w.kind, '/');
      SplitClean(w.namespace, '/');
      SplitClean(w.name, '/');
    } else if HasThreeParts(key) {
      OnePartIsClean(w.kind);
      OnePartIsClean(w.namespace);
      OnePartIsClean(w.name);
    }
  }

  lemma OnePartIsClean(s: string)
    requires |Split(s, '/')| == 1
    ensures Clean(s, '/')
  {
  }

  /** A key of three parts is the key of the workload it parses to. */
  lemma ThreePartsRegenerate(key: string)
    requires HasThreeParts(key)
    ensures ParseKey(key).Some? && GenerateKey(ParseKey(key).value) == key
  {
    var parts := Split(key, '/');
    JoinSplit(key, '/');
    assert Join(parts, '/') == parts[0] + "/" + Join(parts[1..], '/');
    assert Join(parts[1..], '/') == parts[1] + "/" + Join(parts[1..][1..], '/');
    assert Join(parts[1..][1..], '/') == parts[2];
    assert parts[0] + "/" + (parts[1] + "/" + parts[2]) == parts[0] + "/" + parts[1] + "/" + parts[2];
  }

  /** Slash-free workloads have different keys. */
  lemma KeysAreDistinct(v: Workload, w: Workload)
    requires SlashFree(v) && SlashFree(w)
    ensures GenerateKey(v) == GenerateKey(w) <==> v == w
  {
    KeyRoundTrip(v);
    KeyRoundTrip(w);
  }

  lemma AtSlash(s: string) returns (a: string, b: string)
    requires !Clean(s, '/')
    ensures s == a + "/" + b
  {
    var i :| 0 <= i < |s| && s[i] == '/';
    a, b := s[..i], s[i + 1..];
  }

  /** A workload with a slash has a twin: the slash can move to another boundary of the key. */
  lemma Twin(w: Workload) returns (v: Workload)
    requires !SlashFree(w)
    ensures v != w && GenerateKey(v) == GenerateKey(w)
  {
    if !Clean(w.kind, '/') {
      var a, b := AtSlash(w.kind);
      v := Workload(a, b, w.namespace + "/" + w.name);
      assert a + "/" + b + "/" + (w.namespace + "/" + w.name) == a + "/" + b + "/" + w.namespace + "/" + w.name;
      assert |v.kind| < |w.kind|;
    } else if !Clean(w.namespace, '/') {
      var a, b := AtSlash(w.namespace);
      v := Workload(w.kind, a, b + "/" + w.name);
      assert w.kind + "/" + a + "/" + (b + "/" + w.name) == w.kind + "/" + (a + "/" + b) + "/" + w.name;
      assert |v.namespace| < |w.namespace|;
    } else {
      var a, b := AtSlash(w.name);
      v := Workload(w.kind, w.namespace + "/" + a, b);
      assert w.kind + "/" + (w.namespace + "/" + a) + "/" + b == w.kind + "/" + w.namespace + "/" + (a + "/" + b);
      assert |v.name| < |w.name|;
    }
  }

  /** A workload shares its key with no other workload if and only if none of its parts has a
      slash. */
  lemma KeyIsUniqueIff(w: Workload)
    ensures SlashFree(w) <==> forall v :: GenerateKey(v) == GenerateKey(w) ==> v == w
  {
    if SlashFree(w) {
      forall v | GenerateKey(v) == GenerateKey(w) ensures v == w {
        GeneratedHasThreeParts(v);
        GeneratedHasThreeParts(w);
        KeysAreDistinct(v, w);
      }
    } else {
      var v := Twin(w);
    }
  }

  /** The key of a pod is that of a workload of kind "pod". */
  lemma PodKeyIsWorkloadKey(namespace: string, name: string)
    ensures GeneratePodKey(namespace, name) == GenerateKey(Workload("pod", namespace, name))
  {
  }

  /** With a slash two workloads can share a key. */
  lemma SlashesCollide()
    ensures GenerateKey(Workload("a/b", "c", "d")) == GenerateKey(Workload("a", "b/c", "d"))
  {
  }
}
