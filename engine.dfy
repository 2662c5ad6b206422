/** The test run: `start` of rbac.py, which walks the expectation file (identity kinds, then
    identities, then scopes), resolves each namespace selector, compiles and runs the probes of
    every identity, deletes the temporary namespaces and fails the run when any probe
    disagreed with its expectation. */
module Engine {
  import opened Text
  import opened Probes
  import opened Runner
  import opened Namespaces

  /* ---------- The expectation file ---------- */

  /** One entry under `namespaces`: a namespace name, or a pattern containing `*`, and the
      authorization label expected there. */
  datatype Selector = Selector(namespace: string, authorization: string)

  /** The value of a scope key: a label under `cluster`, selectors under `namespaces`. */
  datatype ScopeValue = Label(authorization: string) | Selectors(selectors: seq<Selector>)

  datatype Scope = Scope(key: string, value: ScopeValue)

  /** One impersonated identity and its scopes, in file order. */
  datatype Identity = Identity(name: string, scopes: seq<Scope>)

  /** One identity kind (`serviceaccount`, `group`, or any other string) and its identities. */
  datatype KindEntry = KindEntry(kind: string, identities: seq<Identity>)

  /** The `config.kind` table of the expectation file, in file order (empty when absent). */
  type Config = seq<KindEntry>

  /** `cluster` holds a label and `namespaces` holds a table of selectors; the values under
      other keys are never looked at. */
  predicate ShapedScope(scope: Scope) {
    && (scope.key == "cluster" ==> scope.value.Label?)
    && (scope.key == "namespaces" ==> scope.value.Selectors?)
  }

  predicate ShapedScopes(scopes: seq<Scope>) {
    forall j :: 0 <= j < |scopes| ==> ShapedScope(scopes[j])
  }

  predicate ShapedIdentities(identities: seq<Identity>) {
    forall i :: 0 <= i < |identities| ==> ShapedScopes(identities[i].scopes)
  }

  predicate WellShaped(config: Config) {
    forall k :: 0 <= k < |config| ==> ShapedIdentities(config[k].identities)
  }

  /* ---------- What the run sees of the cluster ---------- */

  /** A clock reading the timestamp format can print. */
  type Reading = d: DateTime | ValidDateTime(d) witness DateTime(2000, 1, 1, 0, 0, 0)

  /** The cluster, as the run observes it: the output of each `kubectl` command, which
      namespaces exist (an API error counts as absent), the clock reading taken at the n-th
      namespace creation, and the outcome of each RoleBinding check attempt. */
  datatype Cluster = Cluster(shell: Shell, namespaceExists: string -> bool,
                             clock: nat -> Reading, bindingCheck: (string, nat) -> bool)

  /* ---------- Reference definition of the run ---------- */

  /** The probes one namespace selector contributes, and the registry afterwards: a wildcard
      is resolved through the registry; an existing namespace is probed as itself; a missing
      one contributes nothing. */
  function SelectorTests(definitions: Definitions, apiResources: seq<string>, cluster: Cluster,
                         kind: string, name: string, selector: Selector, st: RegistryState)
    : (seq<Template>, RegistryState)
  {
    if '*' in selector.namespace then
      var (namespace, st') := Resolve(st, selector.namespace, cluster.clock(|st.order|));
      (Compile(Lookup(definitions, namespace, selector.authorization), apiResources, kind, name, namespace), st')
    else if cluster.namespaceExists(selector.namespace) then
      (Compile(Lookup(definitions, selector.namespace, selector.authorization), apiResources, kind, name,
               selector.namespace), st)
    else ([], st)
  }

  function SelectorsTests(definitions: Definitions, apiResources: seq<string>, cluster: Cluster,
                          kind: string, name: string, selectors: seq<Selector>, st: RegistryState)
    : (seq<Template>, RegistryState)
  {
    if selectors == [] then ([], st)
    else
      var n := |selectors| - 1;
      var (front, st1) := SelectorsTests(definitions, apiResources, cluster, kind, name, selectors[..n], st);
      var (last, st2) := SelectorTests(definitions, apiResources, cluster, kind, name, selectors[n], st1);
      (front + last, st2)
  }

  /** The probes one scope entry contributes: `cluster` and `namespaces` are probed, every
      other key is ignored. */
  function ScopeTests(definitions: Definitions, apiResources: seq<string>, cluster: Cluster,
                      kind: string, name: string, scope: Scope, st: RegistryState)
    : (seq<Template>, RegistryState)
    requires ShapedScope(scope)
  {
    if scope.key == "cluster" then
      (Compile(Lookup(definitions, "cluster", scope.value.authorization), apiResources, kind, name, "cluster"), st)
    else if scope.key == "namespaces" then
      SelectorsTests(definitions, apiResources, cluster, kind, name, scope.value.selectors, st)
    else ([], st)
  }

  /** All the probes of one identity, in file order. */
  function ScopesTests(definitions: Definitions, apiResources: seq<string>, cluster: Cluster,
                       kind: string, name: string, scopes: seq<Scope>, st: RegistryState)
    : (seq<Template>, RegistryState)
    requires ShapedScopes(scopes)
  {
    if scopes == [] then ([], st)
    else
      var n := |scopes| - 1;
      var (front, st1) := ScopesTests(definitions, apiResources, cluster, kind, name, scopes[..n], st);
      var (last, st2) := ScopeTests(definitions, apiResources, cluster, kind, name, scopes[n], st1);
      (front + last, st2)
  }

  /** The error lines of the identities of one kind: each identity's probes are run
      together, and their errors are appended in identity order. */
  function IdentitiesErrors(definitions: Definitions, apiResources: seq<string>, cluster: Cluster,
                            kind: string, identities: seq<Identity>, st: RegistryState)
    : (seq<string>, RegistryState)
    requires ShapedIdentities(identities)
  {
    if identities == [] then ([], st)
    else
      var n := |identities| - 1;
      var (front, st1) := IdentitiesErrors(definitions, apiResources, cluster, kind, identities[..n], st);
      var (tests, st2) := ScopesTests(definitions, apiResources, cluster, kind, identities[n].name,
                                      identities[n].scopes, st1);
      (front + Errors(tests, cluster.shell), st2)
  }

  /** The error lines of the whole expectation table, and the registry at the end. */
  function RunErrors(definitions: Definitions, apiResources: seq<string>, cluster: Cluster,
                     config: Config, st: RegistryState)
    : (seq<string>, RegistryState)
    requires WellShaped(config)
  {
    if config == [] then ([], st)
    else
      var n := |config| - 1;
      var (front, st1) := RunErrors(definitions, apiResources, cluster, config[..n], st);
      var (last, st2) := IdentitiesErrors(definitions, apiResources, cluster, config[n].kind,
                                          config[n].identities, st1);
      (front + last, st2)
  }

  const EMPTY_REGISTRY := RegistryState(map[], [])

  /* ---------- The run ---------- */

  /** The `namespaces` branch of `start` for one identity: each selector is resolved (a
      wildcard through the registry, a literal only if the namespace exists) and its probes
      compiled. */
  method NamespaceTests(registry: Registry, definitions: Definitions, apiResources: seq<string>, cluster: Cluster,
                        kind: string, impersonated: string, selectors: seq<Selector>)
    returns (tests: seq<Template>)
    requires registry.Valid()
    modifies registry
    ensures registry.Valid()
    ensures (tests, registry.State()) ==
      SelectorsTests(definitions, apiResources, cluster, kind, impersonated, selectors, old(registry.State()))
  {
    tests := [];
    for s := 0 to |selectors|
      invariant registry.Valid()
      invariant (tests, registry.State()) ==
        SelectorsTests(definitions, apiResources, cluster, kind, impersonated, selectors[..s], old(registry.State()))
    {
      assert selectors[..s + 1][..s] == selectors[..s];
      ghost var step := SelectorTests(definitions, apiResources, cluster, kind, impersonated, selectors[s],
                                      registry.State());
      var namespace := selectors[s].namespace;
      var authorization := selectors[s].authorization;
      var built := [];
      if '*' in namespace {
        var created := registry.CreateTemporaryNamespace(namespace, cluster.clock(|registry.order|),
                                                         cluster.bindingCheck);
        assert registry.names[namespace := created] == registry.names;
        registry.names := registry.names[namespace := created];
        built := BuildCommands(definitions, apiResources, kind, impersonated, created, authorization);
      } else if cluster.namespaceExists(namespace) {
        built := BuildCommands(definitions, apiResources, kind, impersonated, namespace, authorization);
      }
      assert (built, registry.State()) == step;
      tests := tests + built;
    }
    assert selectors[..|selectors|] == selectors;
  }

  /** The scope loop of `start` for one identity: the probes of its `cluster` label and of its
      `namespaces` table, in file order; other keys are skipped. */
  method IdentityTests(registry: Registry, definitions: Definitions, apiResources: seq<string>, cluster: Cluster,
                       kind: string, impersonated: string, authorizations: seq<Scope>)
    returns (tests: seq<Template>)
    requires registry.Valid() && ShapedScopes(authorizations)
    modifies registry
    ensures registry.Valid()
    ensures (tests, registry.State()) ==
      ScopesTests(definitions, apiResources, cluster, kind, impersonated, authorizations, old(registry.State()))
  {
    tests := [];
    for j := 0 to |authorizations|
      invariant registry.Valid()
      invariant (tests, registry.State()) ==
        ScopesTests(definitions, apiResources, cluster, kind, impersonated, authorizations[..j], old(registry.State()))
    {
      assert authorizations[..j + 1][..j] == authorizations[..j];
      ghost var step := ScopeTests(definitions, apiResources, cluster, kind, impersonated, authorizations[j],
                                   registry.State());
      var scope := authorizations[j];
      var built := [];
      if scope.key == "cluster" {
        built := BuildCommands(definitions, apiResources, kind, impersonated, "cluster", scope.value.authorization);
      } else if scope.key == "namespaces" {
        built := NamespaceTests(registry, definitions, apiResources, cluster, kind, impersonated,
                                scope.value.selectors);
      }
      assert (built, registry.State()) == step;
      tests := tests + built;
    }
    assert authorizations[..|authorizations|] == authorizations;
  }

  /** The identity loop of `start` for one kind: each identity's probes are collected and
      run, and the errors appended. */
  method KindErrors(registry: Registry, definitions: Definitions, apiResources: seq<string>, cluster: Cluster,
                    kind: string, items: seq<Identity>)
    returns (errors: seq<string>)
    requires registry.Valid() && ShapedIdentities(items)
    modifies registry
    ensures registry.Valid()
    ensures (errors, registry.State()) ==
      IdentitiesErrors(definitions, apiResources, cluster, kind, items, old(registry.State()))
  {
    errors := [];
    for i := 0 to |items|
      invariant registry.Valid()
      invariant (errors, registry.State()) ==
        IdentitiesErrors(definitions, apiResources, cluster, kind, items[..i], old(registry.State()))
    {
      assert items[..i + 1][..i] == items[..i];
      ghost var step := ScopesTests(definitions, apiResources, cluster, kind, items[i].name, items[i].scopes,
                                    registry.State());
      var tests := IdentityTests(registry, definitions, apiResources, cluster, kind, items[i].name, items[i].scopes);
      assert (tests, registry.State()) == step;
      var found := RunTests(tests, cluster.shell);
      errors := errors + found;
    }
    assert items[..|items|] == items;
  }

  /** `start`: probes every identity of every kind in every scope, collects every error,
      deletes every temporary namespace in creation order, and exits with 1 exactly when some
      probe disagreed with its expectation. */
  method Start(config: Config, definitions: Definitions, apiResources: seq<string>, cluster: Cluster)
    returns (errors: seq<string>, deleted: seq<string>, exitCode: int)
    requires WellShaped(config)
    ensures var (expected, st) := RunErrors(definitions, apiResources, cluster, config, EMPTY_REGISTRY);
      && errors == expected
      && WellFormed(st)
      && deleted == Created(st)
    ensures exitCode == (if errors == [] then 0 else 1)
  {
    var registry := new Registry();
    errors := [];
    for k := 0 to |config|
      invariant registry.Valid()
      invariant (errors, registry.State()) == RunErrors(definitions, apiResources, cluster, config[..k], EMPTY_REGISTRY)
    {
      assert config[..k + 1][..k] == config[..k];
      ghost var step := IdentitiesErrors(definitions, apiResources, cluster, config[k].kind, config[k].identities,
                                         registry.State());
      var found := KindErrors(registry, definitions, apiResources, cluster, config[k].kind, config[k].identities);
      assert (found, registry.State()) == step;
      errors := errors + found;
    }
    assert config[..|config|] == config;
    deleted := registry.DeleteAll();
    exitCode := if |errors| == 0 then 0 else 1;
  }

  /* ---------- Properties of the run ---------- */

  /** Whether a scope entry is probed at all: its key is `cluster` or `namespaces`. */
  predicate IsProbed(scope: Scope) {
    scope.key == "cluster" || scope.key == "namespaces"
  }

  /** The probed scope entries: exactly those with key `cluster` or `namespaces`, in order. */
  function Probed(scopes: seq<Scope>): (r: seq<Scope>)
    ensures var kept := Positions(scopes, IsProbed);
      && |r| == |kept|
      && forall k :: 0 <= k < |r| ==> r[k] == scopes[kept[k]]
  {
    FilterAtPositions(scopes, IsProbed);
    Filter(scopes, IsProbed)
  }

  lemma ScopesTestsSnoc(definitions: Definitions, apiResources: seq<string>, cluster: Cluster,
                        kind: string, name: string, front: seq<Scope>, last: Scope, st: RegistryState)
    requires ShapedScopes(front) && ShapedScope(last)
    ensures ShapedScopes(front + [last])
    ensures var one := ScopesTests(definitions, apiResources, cluster, kind, name, front, st);
      var two := ScopeTests(definitions, apiResources, cluster, kind, name, last, one.1);
      ScopesTests(definitions, apiResources, cluster, kind, name, front + [last], st) == (one.0 + two.0, two.1)
  {
    assert (front + [last])[..|front|] == front;
  }

  lemma ShapedConcatenation(first: seq<Scope>, second: seq<Scope>)
    requires ShapedScopes(first) && ShapedScopes(second)
    ensures ShapedScopes(first + second)
  {
    var whole := first + second;
    forall j | 0 <= j < |whole| ensures ShapedScope(whole[j]) {
      if j < |first| { assert whole[j] == first[j]; } else { assert whole[j] == second[j - |first|]; }
    }
  }

  /** The scope entries of an identity are processed one after another: the probes of two
      lists back to back are the probes of the first followed by those of the second, which
      starts from the registry the first one left. */
  lemma {:induction false} ScopesTestsOfConcatenation(definitions: Definitions, apiResources: seq<string>,
                                                      cluster: Cluster, kind: string, name: string,
                                                      first: seq<Scope>, second: seq<Scope>, st: RegistryState)
    requires ShapedScopes(first) && ShapedScopes(second)
    ensures ShapedScopes(first + second)
    ensures var one := ScopesTests(definitions, apiResources, cluster, kind, name, first, st);
      var two := ScopesTests(definitions, apiResources, cluster, kind, name, second, one.1);
      ScopesTests(definitions, apiResources, cluster, kind, name, first + second, st) == (one.0 + two.0, two.1)
  {
    ShapedConcatenation(first, second);
    if second == [] {
      assert first + second == first;
      var one := ScopesTests(definitions, apiResources, cluster, kind, name, first, st);
      assert one.0 + [] == one.0;
    } else {
      var n := |second| - 1;
      assert second == second[..n] + [second[n]];
      assert ShapedScopes(second[..n]) by {
        forall j | 0 <= j < n ensures ShapedScope(second[..n][j]) {
          assert second[..n][j] == second[j];
        }
      }
      ScopesTestsOfConcatenation(definitions, apiResources, cluster, kind, name, first, second[..n], st);
      ConcatenationStep(definitions, apiResources, cluster, kind, name, first, second[..n], second[n], st);
    }
  }

  /** The inductive step of ScopesTestsOfConcatenation: one more entry at the end of the second list. */
  lemma ConcatenationStep(definitions: Definitions, apiResources: seq<string>, cluster: Cluster,
                          kind: string, name: string, first: seq<Scope>, init: seq<Scope>, last: Scope,
                          st: RegistryState)
    requires ShapedScopes(first) && ShapedScopes(init) && ShapedScope(last)
    requires ShapedScopes(first + init)
    requires var one := ScopesTests(definitions, apiResources, cluster, kind, name, first, st);
      var two := ScopesTests(definitions, apiResources, cluster, kind, name, init, one.1);
      ScopesTests(definitions, apiResources, cluster, kind, name, first + init, st) == (one.0 + two.0, two.1)
    ensures ShapedScopes(init + [last]) && ShapedScopes(first + (init + [last]))
    ensures var one := ScopesTests(definitions, apiResources, cluster, kind, name, first, st);
      var two := ScopesTests(definitions, apiResources, cluster, kind, name, init + [last], one.1);
      ScopesTests(definitions, apiResources, cluster, kind, name, first + (init + [last]), st) == (one.0 + two.0, two.1)
  {
    var one := ScopesTests(definitions, apiResources, cluster, kind, name, first, st);
    ScopesTestsSnoc(definitions, apiResources, cluster, kind, name, first + init, last, st);
    ScopesTestsSnoc(definitions, apiResources, cluster, kind, name, init, last, one.1);
    Associative(first, init, [last]);
    var front := ScopesTests(definitions, apiResources, cluster, kind, name, init, one.1);
    var back := ScopeTests(definitions, apiResources, cluster, kind, name, last, front.1);
    Associative(one.0, front.0, back.0);
  }

  lemma Associative<T>(a: seq<T>, b: seq<T>, c: seq<T>)
    ensures (a + b) + c == a + (b + c)
  {
  }

  /** Scope keys other than `cluster` and `namespaces` are ignored: dropping them changes
      neither the probes of an identity nor the registry. */
  lemma {:induction false} OtherScopeKeysIgnored(definitions: Definitions, apiResources: seq<string>, cluster: Cluster,
                                                 kind: string, name: string, scopes: seq<Scope>, st: RegistryState)
    requires ShapedScopes(scopes)
    ensures ShapedScopes(Probed(scopes))
    ensures ScopesTests(definitions, apiResources, cluster, kind, name, scopes, st) ==
            ScopesTests(definitions, apiResources, cluster, kind, name, Probed(scopes), st)
  {
    if scopes != [] {
      var n := |scopes| - 1;
      assert ShapedScopes(scopes[..n]) by {
        forall j | 0 <= j < n ensures ShapedScope(scopes[..n][j]) {
          assert scopes[..n][j] == scopes[j];
        }
      }
      OtherScopeKeysIgnored(definitions, apiResources, cluster, kind, name, scopes[..n], st);
      var front := Probed(scopes[..n]);
      var (tests1, st1) := ScopesTests(definitions, apiResources, cluster, kind, name, scopes[..n], st);
      assert ShapedScopes(front);
      assert Probed(scopes) == front + (if IsProbed(scopes[n]) then [scopes[n]] else []);
      if IsProbed(scopes[n]) {
        ScopesTestsSnoc(definitions, apiResources, cluster, kind, name, front, scopes[n], st);
      } else {
        assert Probed(scopes) == front;
        assert tests1 + [] == tests1;
      }
    }
  }

  /** Whether a selector can contribute probes: it is a wildcard, or a literal namespace that
      exists. */
  function CanProbe(namespaceExists: string -> bool): Selector -> bool {
    (selector: Selector) => '*' in selector.namespace || namespaceExists(selector.namespace)
  }

  /** The selectors that can contribute probes: exactly the wildcards and the literal
      namespaces that exist, in order. */
  function Reachable(selectors: seq<Selector>, namespaceExists: string -> bool): (r: seq<Selector>)
    ensures var kept := Positions(selectors, CanProbe(namespaceExists));
      && |r| == |kept|
      && forall k :: 0 <= k < |r| ==> r[k] == selectors[kept[k]]
  {
    FilterAtPositions(selectors, CanProbe(namespaceExists));
    Filter(selectors, CanProbe(namespaceExists))
  }

  /** A literal namespace that does not exist contributes no probe and leaves the registry
      alone: dropping such selectors changes nothing. */
  lemma {:induction false} MissingNamespacesSkipped(definitions: Definitions, apiResources: seq<string>,
                                                    cluster: Cluster, kind: string, name: string,
                                                    selectors: seq<Selector>, st: RegistryState)
    ensures SelectorsTests(definitions, apiResources, cluster, kind, name, selectors, st) ==
            SelectorsTests(definitions, apiResources, cluster, kind, name,
                           Reachable(selectors, cluster.namespaceExists), st)
  {
    if selectors != [] {
      var n := |selectors| - 1;
      MissingNamespacesSkipped(definitions, apiResources, cluster, kind, name, selectors[..n], st);
      var front := Reachable(selectors[..n], cluster.namespaceExists);
      var (tests1, st1) := SelectorsTests(definitions, apiResources, cluster, kind, name, selectors[..n], st);
      assert Reachable(selectors, cluster.namespaceExists) ==
        front + (if CanProbe(cluster.namespaceExists)(selectors[n]) then [selectors[n]] else []);
      if CanProbe(cluster.namespaceExists)(selectors[n]) {
        assert (front + [selectors[n]])[..|front|] == front;
      } else {
        assert Reachable(selectors, cluster.namespaceExists) == front;
        assert tests1 + [] == tests1;
      }
    }
  }

  /** Only wildcard selectors are ever registered. */
  ghost predicate WildcardsOnly(st: RegistryState) {
    forall p :: p in st.order ==> '*' in p
  }

  /** `st'` keeps every entry of `st` and extends its creation order. */
  ghost predicate Keeps(st: RegistryState, st': RegistryState) {
    && (forall p :: p in st.names ==> p in st'.names && st'.names[p] == st.names[p])
    && st.order <= st'.order
  }

  ghost predicate GoodRegistry(st: RegistryState) {
    WellFormed(st) && WildcardsOnly(st)
  }

  /** Resolving a wildcard keeps the registry good and keeps every entry it had. */
  lemma ResolveKeepsRegistry(st: RegistryState, prefix: string, now: DateTime)
    requires GoodRegistry(st) && ValidDateTime(now) && '*' in prefix
    ensures var st' := Resolve(st, prefix, now).1;
      GoodRegistry(st') && Keeps(st, st')
  {
    ResolveCreatesAtMostOnce(st, prefix, now);
    var st' := Resolve(st, prefix, now).1;
    if prefix !in st.names {
      assert st'.order == st.order + [prefix];
      assert WildcardsOnly(st') by {
        forall p | p in st'.order ensures '*' in p {
          if p != prefix {
            assert p in st.order;
          }
        }
      }
    }
  }

  lemma SelectorKeepsRegistry(definitions: Definitions, apiResources: seq<string>, cluster: Cluster,
                              kind: string, name: string, selector: Selector, st: RegistryState)
    requires GoodRegistry(st)
    ensures var st' := SelectorTests(definitions, apiResources, cluster, kind, name, selector, st).1;
      GoodRegistry(st') && Keeps(st, st')
  {
    if '*' in selector.namespace {
      ResolveKeepsRegistry(st, selector.namespace, cluster.clock(|st.order|));
    }
  }

  lemma {:induction false} SelectorsKeepRegistry(definitions: Definitions, apiResources: seq<string>, cluster: Cluster,
                                                 kind: string, name: string, selectors: seq<Selector>,
                                                 st: RegistryState)
    requires GoodRegistry(st)
    ensures var st' := SelectorsTests(definitions, apiResources, cluster, kind, name, selectors, st).1;
      GoodRegistry(st') && Keeps(st, st')
  {
    if selectors != [] {
      var n := |selectors| - 1;
      SelectorsKeepRegistry(definitions, apiResources, cluster, kind, name, selectors[..n], st);
      var st1 := SelectorsTests(definitions, apiResources, cluster, kind, name, selectors[..n], st).1;
      SelectorKeepsRegistry(definitions, apiResources, cluster, kind, name, selectors[n], st1);
    }
  }

  lemma {:induction false} ScopesKeepRegistry(definitions: Definitions, apiResources: seq<string>, cluster: Cluster,
                                              kind: string, name: string, scopes: seq<Scope>, st: RegistryState)
    requires ShapedScopes(scopes) && GoodRegistry(st)
    ensures var st' := ScopesTests(definitions, apiResources, cluster, kind, name, scopes, st).1;
      GoodRegistry(st') && Keeps(st, st')
  {
    if scopes != [] {
      var n := |scopes| - 1;
      assert ShapedScopes(scopes[..n]) by {
        forall j | 0 <= j < n ensures ShapedScope(scopes[..n][j]) {
          assert scopes[..n][j] == scopes[j];
        }
      }
      ScopesKeepRegistry(definitions, apiResources, cluster, kind, name, scopes[..n], st);
      var st1 := ScopesTests(definitions, apiResources, cluster, kind, name, scopes[..n], st).1;
      if scopes[n].key == "namespaces" {
        SelectorsKeepRegistry(definitions, apiResources, cluster, kind, name, scopes[n].value.selectors, st1);
      }
    }
  }

  lemma {:induction false} IdentitiesKeepRegistry(definitions: Definitions, apiResources: seq<string>,
                                                  cluster: Cluster, kind: string, identities: seq<Identity>,
                                                  st: RegistryState)
    requires ShapedIdentities(identities) && GoodRegistry(st)
    ensures var st' := IdentitiesErrors(definitions, apiResources, cluster, kind, identities, st).1;
      GoodRegistry(st') && Keeps(st, st')
  {
    if identities != [] {
      var n := |identities| - 1;
      assert ShapedIdentities(identities[..n]) by {
        forall i | 0 <= i < n ensures ShapedScopes(identities[..n][i].scopes) {
          assert identities[..n][i] == identities[i];
        }
      }
      IdentitiesKeepRegistry(definitions, apiResources, cluster, kind, identities[..n], st);
      var st1 := IdentitiesErrors(definitions, apiResources, cluster, kind, identities[..n], st).1;
      ScopesKeepRegistry(definitions, apiResources, cluster, kind, identities[n].name, identities[n].scopes, st1);
    }
  }

  /** Over a whole run the registry only grows: an entry, once made, is never replaced (so
      every later reference to a wildcard selector lands in the namespace first created for
      it), each selector is registered once, only wildcard selectors are registered, and the
      namespaces created before the run stay first in the creation list. */
  lemma {:induction false} RunKeepsRegistry(definitions: Definitions, apiResources: seq<string>, cluster: Cluster,
                                            config: Config, st: RegistryState)
    requires WellShaped(config) && GoodRegistry(st)
    ensures var st' := RunErrors(definitions, apiResources, cluster, config, st).1;
      && GoodRegistry(st')
      && Keeps(st, st')
      && Created(st) <= Created(st')
  {
    if config != [] {
      var n := |config| - 1;
      assert WellShaped(config[..n]) by {
        forall k | 0 <= k < n ensures ShapedIdentities(config[..n][k].identities) {
          assert config[..n][k] == config[k];
        }
      }
      RunKeepsRegistry(definitions, apiResources, cluster, config[..n], st);
      var st1 := RunErrors(definitions, apiResources, cluster, config[..n], st).1;
      IdentitiesKeepRegistry(definitions, apiResources, cluster, config[n].kind, config[n].identities, st1);
    }
    KeptCreationsComeFirst(st, RunErrors(definitions, apiResources, cluster, config, st).1);
  }

  lemma KeptCreationsComeFirst(st: RegistryState, st': RegistryState)
    requires WellFormed(st) && WellFormed(st') && Keeps(st, st')
    ensures Created(st) <= Created(st')
  {
    var before, after := Created(st), Created(st');
    forall i | 0 <= i < |before| ensures after[i] == before[i] {
      assert st'.order[i] == st.order[i];
    }
  }

  /** The scope string doubles as the namespace name, so an existing namespace literally
      called `cluster` is probed with the cluster-scope templates and without `-n`, exactly
      like a `cluster` entry with the same label. */
  lemma NamespaceNamedClusterIsClusterScope(definitions: Definitions, apiResources: seq<string>, cluster: Cluster,
                                            kind: string, name: string, authorization: string, st: RegistryState)
    requires cluster.namespaceExists("cluster")
    ensures SelectorTests(definitions, apiResources, cluster, kind, name, Selector("cluster", authorization), st) ==
            ScopeTests(definitions, apiResources, cluster, kind, name, Scope("cluster", Label(authorization)), st)
  {
  }
}
