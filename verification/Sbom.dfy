/** The capability bill of materials (src/artifact.rs) and the scope check that reads it (src/policy.rs). */
module Sbom {
  import opened Wrappers
  import opened Text
  import opened Json
  import opened Node
  import Sorting

  function Prefixed(kind: string, names: seq<string>): (r: seq<string>)
    ensures |r| == |names| && forall i :: 0 <= i < |names| ==> r[i] == kind + names[i]
  {
    seq(|names|, i requires 0 <= i < |names| => kind + names[i])
  }

  function Listed(tools: seq<string>, servers: seq<string>, delegates: seq<string>): seq<string> {
    Prefixed("tool:", tools) + Prefixed("mcp:", servers) + Prefixed("delegate:", delegates)
  }

  /** `Vec::dedup`: keeps the first of each run of equal elements. */
  function Dedup(s: seq<string>): seq<string> {
    if |s| < 2 then s
    else if s[0] == s[1] then Dedup(s[1..])
    else [s[0]] + Dedup(s[1..])
  }

  function SbomOf(tools: seq<string>, servers: seq<string>, delegates: seq<string>): seq<string> {
    Dedup(SortStrings(Listed(tools, servers, delegates)))
  }

  function CapabilitySbom(artifact: Artifact): seq<string> {
    SbomOf(
      ManifestNames(artifact, "tools"),
      ManifestNames(artifact, "mcp_servers"),
      ManifestNames(artifact, "delegates"))
  }

  ghost predicate StrictlySorted(s: seq<string>) {
    forall i, j :: 0 <= i < j < |s| ==> Le(s[i], s[j]) && s[i] != s[j]
  }

  /** In a sorted list the first element, unless repeated, is below all that follow. */
  lemma HeadBelow(s: seq<string>, c: string)
    requires Sorting.Sorted(Le, s) && |s| >= 2 && s[0] != s[1] && c in s[1..]
    ensures Le(s[0], c) && s[0] != c
  {
    var i :| 0 <= i < |s| - 1 && s[1..][i] == c;
    assert s[i + 1] == c;
    if c == s[0] && i > 0 {
      assert Le(s[0], s[1]) && Le(s[1], s[i + 1]);
      LeIsOrder();
      LeAntisymmetric(s[0], s[1]);
    }
  }

  lemma StrictlySortedCons(c: string, s: seq<string>)
    requires StrictlySorted(s) && forall x :: x in s ==> Le(c, x) && c != x
    ensures StrictlySorted([c] + s)
  {
    var t := [c] + s;
    forall i, j | 0 <= i < j < |t| ensures Le(t[i], t[j]) && t[i] != t[j] {
      assert t[j] == s[j - 1] && s[j - 1] in s;
    }
  }

  lemma {:induction false} DedupSorted(s: seq<string>)
    requires Sorting.Sorted(Le, s)
    ensures StrictlySorted(Dedup(s))
    ensures forall c :: c in Dedup(s) <==> c in s
  {
    if |s| < 2 {
    } else {
      DedupSorted(s[1..]);
      assert forall c :: c in s <==> c == s[0] || c in s[1..];
      if s[0] != s[1] {
        forall c | c in Dedup(s[1..]) ensures Le(s[0], c) && s[0] != c {
          HeadBelow(s, c);
        }
        StrictlySortedCons(s[0], Dedup(s[1..]));
      }
    }
  }

  lemma StrictlySortedUnique(a: seq<string>, b: seq<string>)
    requires StrictlySorted(a) && StrictlySorted(b)
    requires forall c :: c in a <==> c in b
    ensures a == b
  {
    DistinctMultiset(a, b);
    LeIsOrder();
    Sorting.SortedUnique(Le, a, b);
  }

  /** The capabilities a manifest names. */
  ghost predicate Names(tools: seq<string>, servers: seq<string>, delegates: seq<string>, capability: string) {
    || (exists n :: n in tools && capability == "tool:" + n)
    || (exists n :: n in servers && capability == "mcp:" + n)
    || (exists n :: n in delegates && capability == "delegate:" + n)
  }

  lemma ListedExact(tools: seq<string>, servers: seq<string>, delegates: seq<string>, c: string)
    ensures c in Listed(tools, servers, delegates) <==> Names(tools, servers, delegates, c)
  {
    PrefixedExact("tool:", tools, c);
    PrefixedExact("mcp:", servers, c);
    PrefixedExact("delegate:", delegates, c);
  }

  lemma PrefixedExact(kind: string, names: seq<string>, c: string)
    ensures c in Prefixed(kind, names) <==> exists n :: n in names && c == kind + n
  {
    if c in Prefixed(kind, names) {
      var i :| 0 <= i < |names| && Prefixed(kind, names)[i] == c;
      assert names[i] in names;
    }
    if n :| n in names && c == kind + n {
      var i :| 0 <= i < |names| && names[i] == n;
      assert Prefixed(kind, names)[i] == c;
    }
  }

  /** The SBOM is strictly sorted and holds exactly the prefixed names. */
  lemma SbomExact(tools: seq<string>, servers: seq<string>, delegates: seq<string>)
    ensures StrictlySorted(SbomOf(tools, servers, delegates))
    ensures forall c :: c in SbomOf(tools, servers, delegates) <==> Names(tools, servers, delegates, c)
  {
    var listed := Listed(tools, servers, delegates);
    LeIsOrder();
    Sorting.SortSorted(Le, listed);
    DedupSorted(SortStrings(listed));
    Sorting.SameMultisetSameElements(SortStrings(listed), listed);
    forall c ensures c in listed <==> Names(tools, servers, delegates, c) {
      ListedExact(tools, servers, delegates, c);
    }
  }

  ghost predicate SameNames(a: seq<string>, b: seq<string>) {
    forall n :: n in a <==> n in b
  }

  /** Permuting or repeating manifest entries does not show in the SBOM, and nothing else is hidden by it. */
  lemma SbomForgetsOrder(tools: seq<string>, servers: seq<string>, delegates: seq<string>,
                         tools': seq<string>, servers': seq<string>, delegates': seq<string>)
    ensures SbomOf(tools, servers, delegates) == SbomOf(tools', servers', delegates') <==>
            SameNames(tools, tools') && SameNames(servers, servers') && SameNames(delegates, delegates')
  {
    var a, b := SbomOf(tools, servers, delegates), SbomOf(tools', servers', delegates');
    SbomExact(tools, servers, delegates);
    SbomExact(tools', servers', delegates');
    if SameNames(tools, tools') && SameNames(servers, servers') && SameNames(delegates, delegates') {
      forall c ensures c in a <==> c in b {}
      StrictlySortedUnique(a, b);
    }
    if a == b {
      forall n
        ensures n in tools <==> n in tools'
        ensures n in servers <==> n in servers'
        ensures n in delegates <==> n in delegates'
      {
        NamesByKind(tools, servers, delegates, n);
        NamesByKind(tools', servers', delegates', n);
      }
    }
  }

  lemma NamesByKind(tools: seq<string>, servers: seq<string>, delegates: seq<string>, n: string)
    ensures Names(tools, servers, delegates, "tool:" + n) <==> n in tools
    ensures Names(tools, servers, delegates, "mcp:" + n) <==> n in servers
    ensures Names(tools, servers, delegates, "delegate:" + n) <==> n in delegates
  {
    KindsApart(n);
  }

  /** What a manifest's own lists name, kind by kind, and nothing else. */
  lemma CapabilitySbomExact(artifact: Artifact)
    ensures StrictlySorted(CapabilitySbom(artifact))
    ensures forall n :: "tool:" + n in CapabilitySbom(artifact) <==> n in ManifestNames(artifact, "tools")
    ensures forall n :: "mcp:" + n in CapabilitySbom(artifact) <==> n in ManifestNames(artifact, "mcp_servers")
    ensures forall n :: "delegate:" + n in CapabilitySbom(artifact) <==> n in ManifestNames(artifact, "delegates")
    ensures forall c :: c in CapabilitySbom(artifact) ==>
              exists n :: c == "tool:" + n || c == "mcp:" + n || c == "delegate:" + n
  {
    var tools := ManifestNames(artifact, "tools");
    var servers := ManifestNames(artifact, "mcp_servers");
    var delegates := ManifestNames(artifact, "delegates");
    SbomExact(tools, servers, delegates);
    forall n
      ensures "tool:" + n in CapabilitySbom(artifact) <==> n in tools
      ensures "mcp:" + n in CapabilitySbom(artifact) <==> n in servers
      ensures "delegate:" + n in CapabilitySbom(artifact) <==> n in delegates
    {
      NamesByKind(tools, servers, delegates, n);
    }
  }

  /** An item of the array under `list` in the manifest has this name. */
  ghost predicate NamedItem(artifact: Artifact, list: string, i: nat, name: string) {
    && Get(artifact, list).Some? && Get(artifact, list).value.Arr?
    && i < |Get(artifact, list).value.items|
    && Get(Get(artifact, list).value.items[i], "name") == Some(Str(name))
  }

  lemma {:induction false} NamesInExact(items: seq<Raw>, name: string)
    ensures name in NamesIn(items) <==> exists i :: 0 <= i < |items| && Get(items[i], "name") == Some(Str(name))
  {
    if items == [] {
    } else {
      NamesInExact(items[1..], name);
      if i :| 0 <= i < |items| && Get(items[i], "name") == Some(Str(name)) {
        assert i > 0 ==> items[1..][i - 1] == items[i];
      }
      if name in NamesIn(items) && Get(items[0], "name") != Some(Str(name)) {
        assert name in NamesIn(items[1..]);
        var i :| 0 <= i < |items[1..]| && Get(items[1..][i], "name") == Some(Str(name));
        assert items[i + 1] == items[1..][i];
      }
    }
  }

  /** The names that a manifest lists under a key are the names of the items of the array there. */
  lemma ManifestNamesExact(artifact: Artifact, list: string, name: string)
    ensures name in ManifestNames(artifact, list) <==> exists i: nat :: NamedItem(artifact, list, i, name)
  {
    if Get(artifact, list).Some? && Get(artifact, list).value.Arr? {
      var items := Get(artifact, list).value.items;
      NamesInExact(items, name);
      if i :| 0 <= i < |items| && Get(items[i], "name") == Some(Str(name)) {
        assert NamedItem(artifact, list, i, name);
      }
    }
  }

  lemma KindsApart(n: string)
    ensures forall m :: "tool:" + n != "mcp:" + m && "tool:" + n != "delegate:" + m
    ensures forall m :: "mcp:" + n != "tool:" + m && "mcp:" + n != "delegate:" + m
    ensures forall m :: "delegate:" + n != "tool:" + m && "delegate:" + n != "mcp:" + m
    ensures forall m :: "tool:" + n == "tool:" + m ==> n == m
    ensures forall m :: "mcp:" + n == "mcp:" + m ==> n == m
    ensures forall m :: "delegate:" + n == "delegate:" + m ==> n == m
  {
    Kinds(n);
    forall m
      ensures "tool:" + n != "mcp:" + m && "tool:" + n != "delegate:" + m
      ensures "mcp:" + n != "tool:" + m && "mcp:" + n != "delegate:" + m
      ensures "delegate:" + n != "tool:" + m && "delegate:" + n != "mcp:" + m
      ensures "tool:" + n == "tool:" + m ==> n == m
      ensures "mcp:" + n == "mcp:" + m ==> n == m
      ensures "delegate:" + n == "delegate:" + m ==> n == m
    {
      Kinds(m);
    }
  }

  lemma Kinds(n: string)
    ensures ("tool:" + n)[0] == 't' && ("tool:" + n)[5..] == n
    ensures ("mcp:" + n)[0] == 'm' && ("mcp:" + n)[4..] == n
    ensures ("delegate:" + n)[0] == 'd' && ("delegate:" + n)[9..] == n
  {}

  /** `AgentArtifact::capability_sbom`. */
  method ComputeSbom(artifact: Artifact) returns (out: seq<string>)
    ensures out == CapabilitySbom(artifact)
  {
    var tools := ManifestNames(artifact, "tools");
    var servers := ManifestNames(artifact, "mcp_servers");
    var delegates := ManifestNames(artifact, "delegates");
    out := [];
    for i := 0 to |tools|
      invariant out == Prefixed("tool:", tools[..i])
    {
      out := out + ["tool:" + tools[i]];
    }
    ghost var first := out;
    assert tools[..|tools|] == tools;
    for i := 0 to |servers|
      invariant out == first + Prefixed("mcp:", servers[..i])
    {
      out := out + ["mcp:" + servers[i]];
    }
    ghost var second := out;
    assert servers[..|servers|] == servers;
    for i := 0 to |delegates|
      invariant out == second + Prefixed("delegate:", delegates[..i])
    {
      out := out + ["delegate:" + delegates[i]];
    }
    assert delegates[..|delegates|] == delegates;
    out := SortStrings(out);
    out := Dedup(out);
  }

  // ---------------------------------------------------------------- reading an entry back

  /** `str::split_once(':')`. */
  function SplitOnce(s: string): Option<(string, string)> {
    if s == [] then None
    else if s[0] == ':' then Some(("", s[1..]))
    else
      var (left, right) :- SplitOnce(s[1..]);
      Some(([s[0]] + left, right))
  }

  /** `capability_in_scope`. */
  predicate CapabilityInScope(capability: string, scope: AllowedScope) {
    match SplitOnce(capability)
    case None => false
    case Some((kind, name)) =>
      if kind == "tool" then name in scope.allowedTools
      else if kind == "mcp" then name in scope.allowedMcpServers
      else if kind == "delegate" then name in scope.allowedDelegates
      else false
  }

  lemma {:induction false} SplitKind(kind: string, name: string)
    requires ':' !in kind
    ensures SplitOnce(kind + ":" + name) == Some((kind, name))
  {
    var s := kind + ":" + name;
    if kind == [] {
      assert s[1..] == name;
    } else {
      SplitKind(kind[1..], name);
      assert s[1..] == kind[1..] + ":" + name;
      assert kind == [kind[0]] + kind[1..];
    }
  }

  /** The scope check undoes the prefixing for every name, names with colons included. */
  lemma ScopeReadsSbom(name: string, scope: AllowedScope)
    ensures CapabilityInScope("tool:" + name, scope) <==> name in scope.allowedTools
    ensures CapabilityInScope("mcp:" + name, scope) <==> name in scope.allowedMcpServers
    ensures CapabilityInScope("delegate:" + name, scope) <==> name in scope.allowedDelegates
  {
    SplitKind("tool", name);
    SplitKind("mcp", name);
    SplitKind("delegate", name);
    assert "tool" + ":" == "tool:" && "mcp" + ":" == "mcp:" && "delegate" + ":" == "delegate:";
    assert |"mcp"| != |"tool"| && |"delegate"| != |"tool"| && |"delegate"| != |"mcp"|;
  }

  lemma {:induction false} SplitFound(s: string)
    ensures SplitOnce(s).Some? ==> s == SplitOnce(s).value.0 + ":" + SplitOnce(s).value.1
  {
    if s == [] || s[0] == ':' {
    } else {
      SplitFound(s[1..]);
      assert s == [s[0]] + s[1..];
    }
  }

  /** A capability is in scope exactly when it is a listed tool, server or delegate, with its prefix; an entry of
      another kind, or without a colon, never is. */
  lemma ScopeExact(capability: string, scope: AllowedScope)
    ensures CapabilityInScope(capability, scope) <==>
            Names(scope.allowedTools, scope.allowedMcpServers, scope.allowedDelegates, capability)
  {
    SplitFound(capability);
    if CapabilityInScope(capability, scope) {
      var (kind, name) := SplitOnce(capability).value;
      assert capability == kind + ":" + name;
      assert "tool" + ":" == "tool:" && "mcp" + ":" == "mcp:" && "delegate" + ":" == "delegate:";
    }
    if n :| n in scope.allowedTools && capability == "tool:" + n {
      ScopeReadsSbom(n, scope);
    }
    if n :| n in scope.allowedMcpServers && capability == "mcp:" + n {
      ScopeReadsSbom(n, scope);
    }
    if n :| n in scope.allowedDelegates && capability == "delegate:" + n {
      ScopeReadsSbom(n, scope);
    }
  }

  /** Some entry of the tool list begins the name: the reading of the list as prefixes. */
  ghost predicate PrefixListed(name: string, scope: AllowedScope) {
    exists p :: p in scope.allowedTools && p <= name
  }

  /** An entry of the tool list that only begins the name. */
  ghost predicate ProperPrefixListed(name: string, scope: AllowedScope) {
    exists p :: p in scope.allowedTools && p < name
  }

  /** Read as prefixes, the tool list would allow a tool exactly when it does as names, unless it holds a proper
      prefix of the tool and not the tool. */
  lemma PrefixIsNoName(name: string, scope: AllowedScope)
    ensures (PrefixListed(name, scope) <==> CapabilityInScope("tool:" + name, scope)) <==>
            !(ProperPrefixListed(name, scope) && name !in scope.allowedTools)
  {
    ScopeReadsSbom(name, scope);
    if name in scope.allowedTools {
      assert name <= name;
    } else if PrefixListed(name, scope) {
      var p :| p in scope.allowedTools && p <= name;
      assert |p| == |name| ==> p == name;
      assert p < name;
    }
  }

  /** One such tool: `web` is listed, `web.search` is not in scope. */
  lemma PrefixFails(scope: AllowedScope)
    requires scope.allowedTools == ["web"]
    ensures PrefixListed("web.search", scope) && !CapabilityInScope("tool:" + "web.search", scope)
  {
    ScopeReadsSbom("web.search", scope);
    assert "web" in scope.allowedTools && "web" <= "web.search";
  }
}
