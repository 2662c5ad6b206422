/** The probe compiler: `buildCommands` of rbac.py, which turns the probe templates stored for
    an authorization label into `kubectl auth can-i` commands for one impersonated identity
    and one scope. */
module Probes {
  import opened Text

  datatype Option<T> = None | Some(value: T)

  /** One entry of a definitions list: the action fragment (`command`), the expected answer
      (`expected`) and the optional `api-resource-exists` guard. A compiled probe has the same
      shape, with `command` rewritten into the full command line. */
  datatype Template = Template(command: string, expected: string, resourceGuard: Option<string>)

  /** The definitions file: top-level key (`cluster` or `namespaces`) to authorization label
      to the ordered list of templates. */
  type Definitions = map<string, map<string, seq<Template>>>

  /** The top-level key of the definitions a scope is looked up under: `cluster` for the
      scope "cluster", `namespaces` for every other scope (a namespace name). */
  function TableKey(scope: string): (key: string)
    ensures key == "cluster" <==> scope == "cluster"
    ensures key == "cluster" || key == "namespaces"
  {
    if scope == "cluster" then "cluster" else "namespaces"
  }

  /** The templates for `(scope, authorization)`; a missing key yields the empty list. */
  function Lookup(definitions: Definitions, scope: string, authorization: string): (templates: seq<Template>)
    ensures TableKey(scope) in definitions && authorization in definitions[TableKey(scope)] ==>
      templates == definitions[TableKey(scope)][authorization]
    ensures TableKey(scope) !in definitions || authorization !in definitions[TableKey(scope)] ==> templates == []
  {
    var key := TableKey(scope);
    if key in definitions && authorization in definitions[key] then definitions[key][authorization] else []
  }

  /** A template applies unless it names a resource kind whose lower-cased name is not among
      the cluster's API resources. */
  predicate Applies(template: Template, apiResources: seq<string>) {
    template.resourceGuard.Some? ==> Lower(template.resourceGuard.value) in apiResources
  }

  function AppliesIn(apiResources: seq<string>): Template -> bool {
    template => Applies(template, apiResources)
  }

  /** The `kubectl auth can-i` prefix that impersonates `impersonated` for an identity `kind`;
      kinds other than `serviceaccount` and `group` get no prefix. */
  function Impersonation(kind: string, impersonated: string): string {
    if kind == "serviceaccount" then "kubectl auth can-i --as=" + impersonated + " "
    else if kind == "group" then "kubectl auth can-i --as=any:user --as-group=" + impersonated + " "
    else ""
  }

  /** The namespace restriction appended for every scope but "cluster". */
  function NamespaceFlag(scope: string): string {
    if scope == "cluster" then "" else " -n " + scope
  }

  /** A template compiled for one identity and scope: only `command` changes. */
  function Compiled(template: Template, kind: string, impersonated: string, scope: string): Template {
    template.(command := Impersonation(kind, impersonated) + template.command + NamespaceFlag(scope))
  }

  /** Reference definition of the compiler's output for a template list. */
  function Compile(templates: seq<Template>, apiResources: seq<string>, kind: string,
                   impersonated: string, scope: string): seq<Template>
  {
    if templates == [] then []
    else
      var n := |templates| - 1;
      Compile(templates[..n], apiResources, kind, impersonated, scope) +
        (if Applies(templates[n], apiResources) then [Compiled(templates[n], kind, impersonated, scope)] else [])
  }

  /** `buildCommands`: the templates for `(scope, authorization)`, guarded ones dropped,
      each command rewritten for the identity and the scope. */
  method BuildCommands(definitions: Definitions, apiResources: seq<string>, kind: string,
                       impersonated: string, scope: string, authorization: string)
    returns (commands: seq<Template>)
    ensures commands == Compile(Lookup(definitions, scope, authorization), apiResources, kind, impersonated, scope)
  {
    var templates := Lookup(definitions, scope, authorization);
    commands := [];
    for i := 0 to |templates|
      invariant commands == Compile(templates[..i], apiResources, kind, impersonated, scope)
    {
      CompileStep(templates, i, apiResources, kind, impersonated, scope);
      var template := templates[i];
      if template.resourceGuard.Some? && Lower(template.resourceGuard.value) !in apiResources {
        continue;
      }
      var command := template.command;
      if kind == "serviceaccount" {
        command := "kubectl auth can-i --as=" + impersonated + " " + command;
      } else if kind == "group" {
        command := "kubectl auth can-i --as=any:user --as-group=" + impersonated + " " + command;
      } else {
        assert Impersonation(kind, impersonated) == [];
      }
      assert command == Impersonation(kind, impersonated) + template.command;
      if scope != "cluster" {
        command := command + " -n " + scope;
      }
      assert command == Impersonation(kind, impersonated) + template.command + NamespaceFlag(scope);
      commands := commands + [template.(command := command)];
    }
    assert templates[..|templates|] == templates;
  }

  /** Compiling one more template appends its probe when it applies. */
  lemma CompileStep(templates: seq<Template>, i: nat, apiResources: seq<string>, kind: string,
                    impersonated: string, scope: string)
    requires i < |templates|
    ensures Compile(templates[..i + 1], apiResources, kind, impersonated, scope) ==
      Compile(templates[..i], apiResources, kind, impersonated, scope) +
        (if Applies(templates[i], apiResources) then [Compiled(templates[i], kind, impersonated, scope)] else [])
  {
    assert templates[..i + 1][..i] == templates[..i];
  }

  /** Compiling two template lists back to back gives the probes of the first, then those of
      the second: each template is compiled on its own. */
  lemma {:induction false} CompileOfConcatenation(first: seq<Template>, second: seq<Template>,
                                                  apiResources: seq<string>, kind: string,
                                                  impersonated: string, scope: string)
    ensures Compile(first + second, apiResources, kind, impersonated, scope) ==
      Compile(first, apiResources, kind, impersonated, scope) + Compile(second, apiResources, kind, impersonated, scope)
  {
    if second != [] {
      var n := |second| - 1;
      var whole := first + second;
      assert whole != [] && |whole| - 1 == |first| + n;
      assert whole[..|first| + n] == first + second[..n];
      assert whole[|first| + n] == second[n];
      CompileOfConcatenation(first, second[..n], apiResources, kind, impersonated, scope);
    } else {
      assert first + second == first;
    }
  }

  /** The compiled list is the applicable templates, in their original order, each with its
      command rewritten and every other field (the expected answer, the guard) unchanged:
      `Positions` gives the strictly increasing indices of exactly the applicable templates,
      and the k-th probe comes from the k-th of them. */
  lemma {:induction false} CompileKeepsApplicableInOrder(templates: seq<Template>, apiResources: seq<string>,
                                                         kind: string, impersonated: string, scope: string)
    ensures var kept := Positions(templates, AppliesIn(apiResources));
      var probes := Compile(templates, apiResources, kind, impersonated, scope);
      && |probes| == |kept|
      && forall k :: 0 <= k < |probes| ==>
           && probes[k].command == Impersonation(kind, impersonated) + templates[kept[k]].command + NamespaceFlag(scope)
           && probes[k].expected == templates[kept[k]].expected
           && probes[k].resourceGuard == templates[kept[k]].resourceGuard
  {
    if templates != [] {
      var n := |templates| - 1;
      CompileKeepsApplicableInOrder(templates[..n], apiResources, kind, impersonated, scope);
      var kept := Positions(templates[..n], AppliesIn(apiResources));
      forall k | 0 <= k < |kept|
        ensures templates[..n][kept[k]] == templates[kept[k]]
      {
      }
    }
  }

  /** A template is dropped exactly when its guard names a resource kind the cluster lacks:
      every applicable template yields a probe, and no probe comes from anything else. */
  lemma {:induction false} CompileDropsExactlyGuarded(templates: seq<Template>, apiResources: seq<string>,
                                                      kind: string, impersonated: string, scope: string)
    ensures forall t :: t in templates && Applies(t, apiResources) ==>
      Compiled(t, kind, impersonated, scope) in Compile(templates, apiResources, kind, impersonated, scope)
    ensures forall p :: p in Compile(templates, apiResources, kind, impersonated, scope) ==>
      exists t :: t in templates && Applies(t, apiResources) && p == Compiled(t, kind, impersonated, scope)
  {
    if templates != [] {
      var n := |templates| - 1;
      CompileDropsExactlyGuarded(templates[..n], apiResources, kind, impersonated, scope);
      assert templates == templates[..n] + [templates[n]];
    }
  }

  /** A probe never has more entries than its template list, and with no guards in play
      every template is compiled. */
  lemma {:induction false} CompileLength(templates: seq<Template>, apiResources: seq<string>,
                                         kind: string, impersonated: string, scope: string)
    ensures |Compile(templates, apiResources, kind, impersonated, scope)| <= |templates|
    ensures (forall i :: 0 <= i < |templates| ==> templates[i].resourceGuard.None?) ==>
      |Compile(templates, apiResources, kind, impersonated, scope)| == |templates|
  {
    if templates != [] {
      CompileLength(templates[..|templates| - 1], apiResources, kind, impersonated, scope);
    }
  }

  /** A `(scope, authorization)` pair missing from the definitions compiles to no probes. */
  lemma MissingDefinitionCompilesToNothing(definitions: Definitions, apiResources: seq<string>, kind: string,
                                           impersonated: string, scope: string, authorization: string)
    requires TableKey(scope) !in definitions || authorization !in definitions[TableKey(scope)]
    ensures Compile(Lookup(definitions, scope, authorization), apiResources, kind, impersonated, scope) == []
  {
  }
}
