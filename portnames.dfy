/** Instance-qualified port names of the form "instance:port". */
module PortNames {
  import opened Wrappers

  predicate NoColon(s: string) {
    ':' !in s
  }

  /** The name f"{name}:{port}" under which a circuit refers to a port of an instance. */
  function Qualify(name: string, port: string): string {
    name + ":" + port
  }

  /** The position of the first ':' in s, if any. */
  function IndexOfColon(s: string): (r: Option<nat>)
    ensures r.Some? ==> r.value < |s| && s[r.value] == ':' && NoColon(s[..r.value])
    ensures r.None? ==> NoColon(s)
  {
    if s == [] then None
    else if s[0] == ':' then Some(0)
    else
      match IndexOfColon(s[1..])
      case None => None
      case Some(i) => assert s[..i + 1] == [s[0]] + s[1..][..i]; Some(i + 1)
  }

  /** The two parts of s.split(":") when s contains exactly one ':', None otherwise. */
  function Split(s: string): (r: Option<(string, string)>)
  {
    match IndexOfColon(s)
    case None => None
    case Some(i) => if NoColon(s[i + 1..]) then Some((s[..i], s[i + 1..])) else None
  }

  /** The instance part of a qualified port name (the whole name when it does not split). */
  function Owner(s: string): string {
    match Split(s)
    case Some((n, _)) => n
    case None => s
  }

  /** Splitting undoes qualification, as long as neither part contains a ':'. */
  lemma SplitQualify(name: string, port: string)
    requires NoColon(name) && NoColon(port)
    ensures Split(Qualify(name, port)) == Some((name, port))
    ensures Owner(Qualify(name, port)) == name
  {
    var s := Qualify(name, port);
    assert s[..|name|] == name && s[|name|] == ':' && s[|name| + 1..] == port;
    IndexOfColonAt(s, |name|);
  }

  /** Qualification undoes splitting: a name that splits is the qualification of its parts. */
  lemma QualifySplit(s: string)
    requires Split(s).Some?
    ensures s == Qualify(Split(s).value.0, Split(s).value.1)
    ensures NoColon(Split(s).value.0) && NoColon(Split(s).value.1)
  {
    var i := IndexOfColon(s).value;
    assert s == s[..i] + [s[i]] + s[i + 1..];
  }

  /** A name that splits has exactly one ':'. */
  lemma SplitOneColon(s: string, i: nat)
    requires Split(s).Some? && i < |s| && s[i] == ':'
    ensures i == |Split(s).value.0|
  {
    QualifySplit(s);
    var (a, b) := Split(s).value;
    assert forall k :: 0 <= k < |a| ==> s[k] == a[k];
    assert forall k :: |a| < k < |s| ==> s[k] == b[k - |a| - 1];
  }

  /** A name with two ':' does not split. */
  lemma TwoColons(s: string, i: nat, j: nat)
    requires i < |s| && j < |s| && i != j && s[i] == ':' && s[j] == ':'
    ensures Split(s).None?
  {
    if Split(s).Some? {
      SplitOneColon(s, i);
      SplitOneColon(s, j);
    }
  }

  /** A name with a ':' in a part does not split at all: it has more than one ':'. */
  lemma SplitNeedsColonFreeParts(name: string, port: string)
    requires !NoColon(name) || !NoColon(port)
    ensures Split(Qualify(name, port)).None?
  {
    var s := Qualify(name, port);
    assert s[|name|] == ':';
    if !NoColon(name) {
      var i :| 0 <= i < |name| && name[i] == ':';
      assert s[i] == ':';
      TwoColons(s, i, |name|);
    } else {
      var i :| 0 <= i < |port| && port[i] == ':';
      assert s[|name| + 1 + i] == ':';
      TwoColons(s, |name| + 1 + i, |name|);
    }
  }

  lemma {:induction false} IndexOfColonAt(s: string, i: nat)
    requires i < |s| && s[i] == ':' && NoColon(s[..i])
    ensures IndexOfColon(s) == Some(i)
  {
    if i > 0 {
      assert s[0] == s[..i][0];
      assert s[1..][..i - 1] == s[1..i];
      assert forall c :: c in s[1..i] ==> c in s[..i];
      IndexOfColonAt(s[1..], i - 1);
    }
  }

  /** Qualified names of one instance are distinct for distinct ports. */
  lemma QualifyInjective(name: string, p: string, q: string)
    requires Qualify(name, p) == Qualify(name, q)
    ensures p == q
  {
    assert p == Qualify(name, p)[|name| + 1..];
    assert q == Qualify(name, q)[|name| + 1..];
  }
}
