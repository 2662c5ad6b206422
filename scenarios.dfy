/** End-to-end runs of `start` on small expectation tables and scripted clusters: a
    permission granted, a permission denied, a literal namespace that does not exist, and a
    wildcard namespace whose RoleBinding never appears. */
module Scenarios {
  import opened Text
  import opened Probes
  import opened Runner
  import opened Namespaces
  import opened Engine

  const NOON: Reading := DateTime(2026, 10, 15, 12, 0, 0)

  /** Both tables grant the label `ro` a single probe: `get pods`, expected `yes`. */
  function ReadOnly(): Definitions {
    map["cluster" := map["ro" := [Template("get pods", "yes", None)]],
        "namespaces" := map["ro" := [Template("get pods", "yes", None)]]]
  }

  function OneServiceAccount(scopes: seq<Scope>): Config {
    [KindEntry("serviceaccount", [Identity("sa-a", scopes)])]
  }

  /** A cluster that answers every probe with `answer` and a newline, has no namespace, reads
      noon on its clock and never shows the RoleBinding. The RoleBinding answer has no effect
      on any result: the model runs the poll but discards its outcome. */
  function Answering(answer: string): Cluster {
    Cluster(command => answer + "\n", namespace => false, n => NOON, (command, n) => false)
  }

  /** The `get pods` probe of `sa-a`, compiled for a scope. */
  function GetPods(scope: string): Template {
    Template("kubectl auth can-i --as=sa-a get pods" + NamespaceFlag(scope), "yes", None)
  }

  /** An answer followed by a newline strips back to the answer. */
  lemma StripLineEnd(s: string)
    requires s != [] && !IsSpace(s[0]) && !IsSpace(s[|s| - 1])
    ensures Strip(s + "\n") == s
  {
    var t := s + "\n";
    assert LeadingSpaces(t) == 0;
    assert t[0..] == t;
    assert t[..|t| - 1] == s;
    assert TrailingSpaces(s) == 0;
    assert TrailingSpaces(t) == 1;
  }

  /** A `get pods` probe passes on a cluster answering `yes` and fails, reporting `no`, on a
      cluster answering `no`. */
  lemma GetPodsVerdict(scope: string)
    ensures Errors([GetPods(scope)], Answering("yes").shell) == []
    ensures Errors([GetPods(scope)], Answering("no").shell) == [ErrorLine(GetPods(scope), "no")]
  {
    var probe := GetPods(scope);
    StripLineEnd("yes");
    StripLineEnd("no");
    assert [probe][..0] == [];
    assert Passes(probe, Answering("yes").shell);
    assert Observed(probe, Answering("no").shell) == "no";
  }

  /** An identity with a single scope entry has that entry's probes. */
  lemma SingleScope(definitions: Definitions, apiResources: seq<string>, cluster: Cluster,
                    kind: string, name: string, scope: Scope, st: RegistryState)
    requires ShapedScope(scope)
    ensures ShapedScopes([scope])
    ensures ScopesTests(definitions, apiResources, cluster, kind, name, [scope], st) ==
            ScopeTests(definitions, apiResources, cluster, kind, name, scope, st)
  {
    assert [scope][..0] == [];
    var (tests, st') := ScopeTests(definitions, apiResources, cluster, kind, name, scope, st);
    assert [] + tests == tests;
  }

  /** A kind with a single identity reports the errors of that identity's probes. */
  lemma SingleIdentity(definitions: Definitions, apiResources: seq<string>, cluster: Cluster,
                       kind: string, identity: Identity, st: RegistryState)
    requires ShapedScopes(identity.scopes)
    ensures ShapedIdentities([identity])
    ensures var (tests, st') := ScopesTests(definitions, apiResources, cluster, kind, identity.name,
                                            identity.scopes, st);
      IdentitiesErrors(definitions, apiResources, cluster, kind, [identity], st) == (Errors(tests, cluster.shell), st')
  {
    assert [identity][..0] == [];
    var (tests, st') := ScopesTests(definitions, apiResources, cluster, kind, identity.name, identity.scopes, st);
    assert [] + Errors(tests, cluster.shell) == Errors(tests, cluster.shell);
  }

  /** A table with a single kind reports the errors of that kind's identities. */
  lemma SingleKind(definitions: Definitions, apiResources: seq<string>, cluster: Cluster,
                   entry: KindEntry, st: RegistryState)
    requires ShapedIdentities(entry.identities)
    ensures WellShaped([entry])
    ensures RunErrors(definitions, apiResources, cluster, [entry], st) ==
            IdentitiesErrors(definitions, apiResources, cluster, entry.kind, entry.identities, st)
  {
    assert [entry][..0] == [];
    var (errors, st') := IdentitiesErrors(definitions, apiResources, cluster, entry.kind, entry.identities, st);
    assert [] + errors == errors;
  }

  /** The run of a single service account `sa-a` with one scope entry. */
  lemma SingleIdentityRun(definitions: Definitions, apiResources: seq<string>, cluster: Cluster, scope: Scope)
    requires ShapedScope(scope)
    ensures WellShaped(OneServiceAccount([scope]))
    ensures var (tests, st) := ScopeTests(definitions, apiResources, cluster, "serviceaccount", "sa-a", scope,
                                          EMPTY_REGISTRY);
      RunErrors(definitions, apiResources, cluster, OneServiceAccount([scope]), EMPTY_REGISTRY) ==
        (Errors(tests, cluster.shell), st)
  {
    var identity := Identity("sa-a", [scope]);
    SingleScope(definitions, apiResources, cluster, "serviceaccount", "sa-a", scope, EMPTY_REGISTRY);
    SingleIdentity(definitions, apiResources, cluster, "serviceaccount", identity, EMPTY_REGISTRY);
    SingleKind(definitions, apiResources, cluster, KindEntry("serviceaccount", [identity]), EMPTY_REGISTRY);
  }

  /** A `namespaces` entry holding a single selector contributes that selector's probes. */
  lemma SingleSelector(definitions: Definitions, apiResources: seq<string>, cluster: Cluster,
                       kind: string, name: string, selector: Selector, st: RegistryState)
    ensures ScopeTests(definitions, apiResources, cluster, kind, name, Scope("namespaces", Selectors([selector])), st) ==
            SelectorTests(definitions, apiResources, cluster, kind, name, selector, st)
  {
    assert [selector][..0] == [];
    var (tests, st') := SelectorTests(definitions, apiResources, cluster, kind, name, selector, st);
    assert SelectorsTests(definitions, apiResources, cluster, kind, name, [selector], st) == ([] + tests, st');
    assert [] + tests == tests;
  }

  /** Whatever the scope, the label `ro` compiles for `sa-a` to the single `get pods` probe. */
  lemma ReadOnlyProbes(scope: string)
    ensures Compile(Lookup(ReadOnly(), scope, "ro"), [], "serviceaccount", "sa-a", scope) == [GetPods(scope)]
  {
    var template := Template("get pods", "yes", None);
    assert Lookup(ReadOnly(), scope, "ro") == [template];
    assert [template][..0] == [];
    assert Impersonation("serviceaccount", "sa-a") + "get pods" == "kubectl auth can-i --as=sa-a get pods";
  }

  /** The cluster-wide `ro` entry of `sa-a` runs the one `get pods` probe and creates nothing. */
  lemma ClusterEntryRun(answer: string)
    ensures WellShaped(OneServiceAccount([Scope("cluster", Label("ro"))]))
    ensures RunErrors(ReadOnly(), [], Answering(answer), OneServiceAccount([Scope("cluster", Label("ro"))]),
                      EMPTY_REGISTRY) ==
            (Errors([GetPods("cluster")], Answering(answer).shell), EMPTY_REGISTRY)
  {
    SingleIdentityRun(ReadOnly(), [], Answering(answer), Scope("cluster", Label("ro")));
    ReadOnlyProbes("cluster");
  }

  /** A service account allowed to get pods cluster-wide, on a cluster that says yes: no
      error, exit status 0. */
  method ScenarioAllowed() returns (errors: seq<string>, exitCode: int)
    ensures errors == [] && exitCode == 0
  {
    ClusterEntryRun("yes");
    GetPodsVerdict("cluster");
    var deleted;
    errors, deleted, exitCode := Start(OneServiceAccount([Scope("cluster", Label("ro"))]), ReadOnly(), [],
                                       Answering("yes"));
  }

  /** The same service account on a cluster that says no: one error naming the expected
      answer, the observed one and the command; exit status 1. */
  method ScenarioDenied() returns (errors: seq<string>, exitCode: int)
    ensures errors == [ErrorLine(Template("kubectl auth can-i --as=sa-a get pods", "yes", None), "no")]
    ensures exitCode == 1
  {
    ClusterEntryRun("no");
    GetPodsVerdict("cluster");
    assert GetPods("cluster") == Template("kubectl auth can-i --as=sa-a get pods", "yes", None);
    var deleted;
    errors, deleted, exitCode := Start(OneServiceAccount([Scope("cluster", Label("ro"))]), ReadOnly(), [],
                                       Answering("no"));
  }

  /** A literal selector `team-a` on a cluster without that namespace contributes nothing. */
  lemma MissingNamespaceRun()
    ensures WellShaped(OneServiceAccount([Scope("namespaces", Selectors([Selector("team-a", "ro")]))]))
    ensures RunErrors(ReadOnly(), [], Answering("no"),
                      OneServiceAccount([Scope("namespaces", Selectors([Selector("team-a", "ro")]))]),
                      EMPTY_REGISTRY) == ([], EMPTY_REGISTRY)
  {
    var selector := Selector("team-a", "ro");
    SingleIdentityRun(ReadOnly(), [], Answering("no"), Scope("namespaces", Selectors([selector])));
    SingleSelector(ReadOnly(), [], Answering("no"), "serviceaccount", "sa-a", selector, EMPTY_REGISTRY);
    assert '*' !in "team-a";
  }

  /** A literal namespace the cluster does not have: no probe, no error, nothing created,
      exit status 0. */
  method ScenarioMissingNamespace() returns (errors: seq<string>, deleted: seq<string>, exitCode: int)
    ensures errors == [] && deleted == [] && exitCode == 0
  {
    MissingNamespaceRun();
    errors, deleted, exitCode := Start(OneServiceAccount([Scope("namespaces", Selectors([Selector("team-a", "ro")]))]),
                                       ReadOnly(), [], Answering("no"));
  }

  lemma NoonDigits()
    ensures Decimal(2026, 4) == "2026" && Decimal(10, 2) == "10" && Decimal(15, 2) == "15"
    ensures Decimal(12, 2) == "12" && Decimal(0, 2) == "00"
  {
    assert Decimal(0, 0) == [];
    assert Decimal(2, 1) == "2";
    assert Decimal(20, 2) == "20";
    assert Decimal(202, 3) == "202";
    assert Decimal(1, 1) == "1";
    assert Decimal(0, 1) == "0";
  }

  lemma NoonStamp()
    ensures Stamp(NOON) == "20261015120000"
  {
    NoonDigits();
    assert "2026" + "10" + "15" + "12" + "00" + "00" == "20261015120000";
  }

  /** The wildcard `team-*` resolved on an empty registry at noon: a miss, so the fresh name
      is recorded and becomes the only creation. */
  lemma TeamResolved()
    ensures var namespace := FreshName("team-*", NOON);
      && Resolve(EMPTY_REGISTRY, "team-*", NOON) == (namespace, RegistryState(map["team-*" := namespace], ["team-*"]))
      && namespace != "cluster"
      && Created(RegistryState(map["team-*" := namespace], ["team-*"])) == [namespace]
  {
    var namespace := FreshName("team-*", NOON);
    assert |namespace| >= 14;
    assert "team-*" !in EMPTY_REGISTRY.names;
    assert EMPTY_REGISTRY.names["team-*" := namespace] == map["team-*" := namespace];
    assert EMPTY_REGISTRY.order + ["team-*"] == ["team-*"];
    var st := RegistryState(map["team-*" := namespace], ["team-*"]);
    assert st.order[..0] == [];
  }

  /** The selector `team-*` on an empty registry: its fresh namespace is created and
      registered, and the `get pods` probe runs there. */
  lemma WildcardRun()
    ensures WellShaped(OneServiceAccount([Scope("namespaces", Selectors([Selector("team-*", "ro")]))]))
    ensures var namespace := FreshName("team-*", NOON);
      RunErrors(ReadOnly(), [], Answering("yes"),
                OneServiceAccount([Scope("namespaces", Selectors([Selector("team-*", "ro")]))]), EMPTY_REGISTRY) ==
      (Errors([GetPods(namespace)], Answering("yes").shell), RegistryState(map["team-*" := namespace], ["team-*"]))
  {
    var selector := Selector("team-*", "ro");
    SingleIdentityRun(ReadOnly(), [], Answering("yes"), Scope("namespaces", Selectors([selector])));
    SingleSelector(ReadOnly(), [], Answering("yes"), "serviceaccount", "sa-a", selector, EMPTY_REGISTRY);
    TeamResolved();
    assert '*' in "team-*";
    ReadOnlyProbes(FreshName("team-*", NOON));
  }

  /** A wildcard selector `team-*` with no matching namespace: a namespace named after the
      selector and the clock is created, the RoleBinding never appears, and the probes still
      run against the new namespace (here they pass); the namespace is deleted at the end.
      The model leaves out the RoleBinding fetch after the poll (rbac.py:255), which in the
      source raises once all twenty polls have failed and so ends such a run early. The poll's
      outcome is discarded, so this result holds whatever the poll sees. The timeout itself
      has no effect here and is not exercised. */
  method ScenarioWildcardTimeout() returns (errors: seq<string>, deleted: seq<string>, exitCode: int)
    ensures errors == [] && deleted == [FreshName("team-*", NOON)] && exitCode == 0
  {
    WildcardRun();
    TeamResolved();
    GetPodsVerdict(FreshName("team-*", NOON));
    errors, deleted, exitCode := Start(OneServiceAccount([Scope("namespaces", Selectors([Selector("team-*", "ro")]))]),
                                       ReadOnly(), [], Answering("yes"));
  }
}
