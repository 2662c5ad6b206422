# RBAC expectation tester, modelled in Dafny

`rbac.py` checks that a Kubernetes cluster's role-based access control matches an
expectation file. For every identity kind (`serviceaccount`, `group`, …), every impersonated
identity and every scope, it does the following:

- It compiles probe templates from a definitions table into `kubectl auth can-i` command
  lines.
- It runs those commands and compares the trimmed answers with the expected ones.
- It collects one error line per mismatch.
- It fails the run when any mismatch was found.

A namespace selector containing `*` stands for a temporary namespace. The run creates it once
per selector. It then waits, at most twenty attempts, for the policy controller to create a
RoleBinding there, and afterwards records the namespace in the `Temporary_namespaces`
registry. At the end the run deletes every temporary namespace.

The model has five modules:

- `Text` (text.dfy) stands for the Python built-ins the tester relies on:
  - `str.strip()`, over Python's whitespace set
  - `str.lower()`, for ASCII
  - `str.replace(c, '')`
  - the index set of a list filter
- `Probes` (probes.dfy) holds the template datatype, the definitions lookup and `BuildCommands`.
  - `BuildCommands` is a loop that skips guarded templates and rewrites each command.
  - It is proved against the reference definition `Compile`.
- `Runner` (runner.dfy) holds `RunTests`, a loop that accumulates error lines.
  - It is proved against the reference definition `Errors`.
- `Namespaces` (namespaces.dfy) holds the registry and the RoleBinding poll.
  - The timestamp format `%Y%m%d%H%M%S` is modelled, with its parse-back.
  - `Registry` is a class whose `names` and `order` fields are updated in place by
    `CreateTemporaryNamespace`.
  - `Resolve` is the value-level twin of that method.
  - `WaitForRoleBinding` is the bounded poll loop, with `break`.
- `Engine` (engine.dfy) holds the expectation-file datatypes and the nested loops of `start`.
  - `Start`, `KindErrors`, `IdentityTests` and `NamespaceTests` are the nested loops.
  - They are proved against the reference functions `RunErrors`, `IdentitiesErrors`,
    `ScopesTests`, `ScopeTests`, `SelectorsTests` and `SelectorTests`.
  - Those functions thread the registry state through the run.
- `Scenarios` (scenarios.dfy) holds whole runs of `Start` on small concrete tables and scripted
  clusters.

The cluster is an input to the model, the `Cluster` datatype. It supplies:

- the output of each shell command
- which namespaces exist
- the clock reading taken at the n-th namespace creation
- the outcome of each RoleBinding check attempt

The model uses these definitions without contracts:

- `Applies` is the `api-resource-exists` guard: the lower-cased guard must be among the API
  resources.
- `Impersonation` builds the prefix. It is `kubectl auth can-i --as=<id> ` for
  `serviceaccount`, `kubectl auth can-i --as=any:user --as-group=<id> ` for `group`, and
  nothing for any other kind.
- `NamespaceFlag` is ` -n <scope>` for every scope but `cluster`.
- `RoleBindingQuery` is the poll command.
- `ROLE_BINDING` and `MAX_POLLS` hold the source's constants: the RoleBinding
  `valstro:groups:dev-n:cluster-admin` and 20 attempts.

Definitions are values, so the deep copy in `buildCommands` (rbac.py:106) holds by
construction: the caller's definitions table is never changed.

## Model

| member | source | states |
|---|---|---|
| Text.Strip | rbac.py:158 | The stripped answer is no longer than the output and neither starts nor ends with whitespace. |
| Text.StripIsSlice | rbac.py:158 | The stripped answer is a contiguous slice of the output, and everything cut off on either side is whitespace. |
| Text.StripKeepsTrimmed | rbac.py:158 | An answer with no whitespace at either end is unchanged by the strip. |
| Text.StripIdempotent | rbac.py:158 | Stripping twice gives the same answer as stripping once. |
| Text.Lower | rbac.py:113 | The lower-cased guard has the same length, maps each character through ASCII lower-casing and holds no upper-case letter. |
| Text.FilterAtPositions | rbac.py:224 | The k-th kept element is the element at the k-th position whose element satisfies the predicate, so exactly the satisfying elements are kept, in order. |
| Text.FilterKeepsAll | rbac.py:224 | When every element satisfies the predicate, the filter returns the list unchanged. |
| Text.Without | rbac.py:224 | Removing `*` keeps exactly the characters other than `*`, in their order: as many as there are such positions, the k-th being the one at the k-th such position. So the result holds no `*`, holds every other character of the input, and equals the input when it has no `*`. |
| Probes.TableKey | rbac.py:98-101 | The definitions table is `cluster` exactly for the scope `cluster` and `namespaces` for every other scope. |
| Probes.Lookup | rbac.py:97-104 | When the table and the label are both present, the result is the list stored under them. When either is missing, the result is the empty list instead of an error. |
| Probes.BuildCommands | rbac.py:79-129 | The loop returns exactly `Compile` of the looked-up templates: guarded templates are skipped, and the rest get the kind's impersonation prefix and, off-cluster, ` -n <scope>`. |
| Probes.CompileOfConcatenation | rbac.py:106-127 | Compiling two template lists back to back gives the first list's probes followed by the second's. |
| Probes.CompileKeepsApplicableInOrder | rbac.py:106-127 | The k-th compiled probe comes from the k-th applicable template, in template order. Its command is prefix + fragment + namespace flag, and its expected answer and guard are unchanged. |
| Probes.CompileDropsExactlyGuarded | rbac.py:109-127 | Every applicable template yields a compiled probe, and every compiled probe comes from an applicable template. |
| Probes.CompileLength | rbac.py:109-127 | The compiled list is never longer than the template list, and it has the same length when no template carries a guard. |
| Probes.MissingDefinitionCompilesToNothing | rbac.py:97-104 | A (scope, label) pair missing from the definitions compiles to no probe at all. |
| Runner.RunTests | rbac.py:135-171 | The loop returns exactly `Errors` of the probe list, evaluating every probe and never stopping early. |
| Runner.ErrorsReportFailuresInOrder | rbac.py:150-171 | There is one error line per probe whose stripped answer differs from the expected one, in probe order. Each line reads `Expected <expected>, but returns <answer>. <command>`. |
| Runner.NoErrorsIffAllPass | rbac.py:164-171 | The error list is empty if and only if every probe's stripped answer equals its expected answer. |
| Runner.ErrorsOfConcatenation | rbac.py:150-171 | Running two probe lists back to back reports the first list's errors followed by the second's. |
| Namespaces.Decimal | rbac.py:223 | A zero-padded field has exactly the requested width and holds only digits. |
| Namespaces.ValueOfDecimal | rbac.py:223 | A zero-padded field reads back as the number it was printed from, when that number fits the width. |
| Namespaces.DecimalOfValue | rbac.py:223 | A digit string is the zero-padded printing of the number it denotes. |
| Namespaces.Stamp | rbac.py:223 | The `%Y%m%d%H%M%S` timestamp has exactly fourteen digits. |
| Namespaces.StampRoundTrip | rbac.py:223 | Parsing a timestamp gives back the clock reading it was printed from. |
| Namespaces.ParseStampRoundTrip | rbac.py:223 | Every fourteen-digit string whose fields form a valid reading is the timestamp of that reading. |
| Namespaces.FreshNameShape | rbac.py:223-224 | A fresh name starts with exactly the selector's characters other than `*`, in order, and has fourteen more characters. Those form the timestamp, which parses back to the creation time. The name therefore holds no `*` and keeps every other character of the selector. |
| Namespaces.InOrder | rbac.py:62 | The listed namespaces are those of the registry's selectors, position by position, in the order given. |
| Namespaces.ResolveCreatesAtMostOnce | rbac.py:220-235 | Resolving keeps the registry well formed and never changes an existing entry. Afterwards the selector maps to the returned name. The creation list grows by that name on a miss and stays the same on a hit. |
| Namespaces.ResolveIsIdempotent | rbac.py:220-221 | A second resolution of the same selector returns the same name and leaves the registry unchanged, whatever the clock reads. |
| Namespaces.Registry.constructor | rbac.py:18 | The registry starts empty. |
| Namespaces.Registry.CreateTemporaryNamespace | rbac.py:210-235 | On a hit the method returns the stored name and changes nothing. On a miss it returns the selector without `*` followed by the timestamp, and adds exactly that entry at the end of the creation order. Both cases agree with `Resolve`. |
| Namespaces.Registry.DeleteAll | rbac.py:61-65 | The namespaces deleted are exactly the registry's namespaces, in creation order. |
| Namespaces.ResolveTwice | rbac.py:220-235 | Creating the same selector twice from an empty registry gives one name both times, built from the first clock reading, and exactly one namespace is created. |
| Namespaces.WaitForRoleBinding | rbac.py:237-252 | The poll makes between 1 and 20 checks and stops right after the first success. It reports success exactly when one of the 20 attempts succeeds, and it makes all 20 checks when none does. |
| Engine.NamespaceTests | rbac.py:47-56 | The selector loop's probes and the registry afterwards are those of `SelectorsTests`. Wildcards are resolved through the registry and re-stored, an existing literal is probed as itself, and a missing literal is skipped. |
| Engine.IdentityTests | rbac.py:43-56 | The scope loop's probes and the registry afterwards are those of `ScopesTests`. A `cluster` key is probed as cluster scope, a `namespaces` key through its selectors, and every other key is skipped. |
| Engine.KindErrors | rbac.py:37-59 | The identity loop's errors are those of `IdentitiesErrors`: each identity's probes are run together, and their errors are appended in order. |
| Engine.Start | rbac.py:29-74 | The run's errors are those of `RunErrors` from an empty registry, and the final registry is well formed. The deleted namespaces are exactly the created ones, in creation order. The exit status is 1 exactly when the error list is non-empty. |
| Engine.Probed | rbac.py:43-47 | The kept scope entries are exactly the identity's `cluster` and `namespaces` entries, in order: the k-th kept entry is the entry at the k-th position with one of those keys. |
| Engine.ScopesTestsOfConcatenation | rbac.py:43-56 | The probes of two lists of scope entries back to back are the first list's probes followed by the second list's. The second list starts from the registry the first one left. |
| Engine.ResolveKeepsRegistry | rbac.py:220-235 | Resolving a wildcard keeps the registry well formed and holding only wildcards, and keeps every entry and the creation order it had. |
| Engine.OtherScopeKeysIgnored | rbac.py:43-56 | Dropping every scope key other than `cluster` and `namespaces` changes neither an identity's probes nor the registry. |
| Engine.Reachable | rbac.py:49-54 | The kept selectors are exactly the wildcards and the literal namespaces that exist, in order: the k-th kept selector is the one at the k-th such position. |
| Engine.MissingNamespacesSkipped | rbac.py:52-56 | Dropping the literal selectors of namespaces that do not exist changes neither the probes nor the registry. |
| Engine.SelectorKeepsRegistry | rbac.py:49-51 | One selector keeps the registry well formed and holding wildcard selectors only. Existing entries are kept and the creation order is only extended. |
| Engine.SelectorsKeepRegistry | rbac.py:48-56 | A selector table keeps the registry well formed and holding wildcards only, and never replaces an entry. |
| Engine.ScopesKeepRegistry | rbac.py:43-56 | An identity's scopes keep the registry well formed and holding wildcards only, and never replace an entry. |
| Engine.IdentitiesKeepRegistry | rbac.py:37-59 | The identities of a kind keep the registry well formed and holding wildcards only, and never replace an entry. |
| Engine.RunKeepsRegistry | rbac.py:35-59 | Over a whole run the registry only grows. An entry is never replaced, so every later use of a wildcard lands in the namespace first created for it. Only wildcard selectors are registered, each once, and earlier creations stay first in the deletion list. |
| Engine.KeptCreationsComeFirst | rbac.py:62 | When a registry extends another, the earlier creations are a prefix of the later creation list. |
| Engine.NamespaceNamedClusterIsClusterScope | rbac.py:53-54 | An existing namespace literally named `cluster` is probed exactly like a `cluster` scope entry with the same label. It gets the cluster table and no `-n` flag, because the scope string doubles as the namespace name (rbac.py:98, 124). |
| Scenarios.StripLineEnd | rbac.py:158 | An answer without whitespace at either end, followed by a newline, strips back to the answer. |
| Scenarios.GetPodsVerdict | rbac.py:158-168 | The compiled `get pods` probe passes on a cluster answering `yes`. On a cluster answering `no` it yields exactly the error line with answer `no`. |
| Scenarios.ReadOnlyProbes | rbac.py:97-127 | In every scope, the label `ro` compiles for `sa-a` to the single probe `kubectl auth can-i --as=sa-a get pods` plus the scope's namespace flag. |
| Scenarios.ClusterEntryRun | rbac.py:43-46 | The cluster-wide `ro` entry runs exactly that one probe and creates no namespace. |
| Scenarios.ScenarioAllowed | rbac.py:29-74 | A service account allowed to get pods, on a cluster that answers `yes`, produces no error and exit status 0. |
| Scenarios.ScenarioDenied | rbac.py:29-74 | The same account on a cluster that answers `no` produces exactly one error line, for `kubectl auth can-i --as=sa-a get pods` with expected `yes` and answer `no`, and exit status 1. |
| Scenarios.MissingNamespaceRun | rbac.py:52-56 | A literal selector `team-a` on a cluster without that namespace contributes no error and creates nothing. |
| Scenarios.ScenarioMissingNamespace | rbac.py:52-56 | A literal namespace that does not exist produces no probe, no error, no deletion and exit status 0. |
| Scenarios.NoonDigits | rbac.py:223 | The fields of the reading 2026-10-15 12:00:00 print as `2026`, `10`, `15`, `12` and `00`. |
| Scenarios.NoonStamp | rbac.py:223 | That reading's timestamp is `20261015120000`. |
| Scenarios.TeamResolved | rbac.py:220-234 | The selector `team-*` on an empty registry is a miss. It records the fresh name as the only creation, and that name is not `cluster`. |
| Scenarios.WildcardRun | rbac.py:49-51 | The selector `team-*` on an empty registry registers its fresh namespace, and the `get pods` probe runs in that namespace. |
| Scenarios.ScenarioWildcardTimeout | rbac.py:47-65 | A selector `team-*` whose RoleBinding never appears still gets its namespace. The probes run there and pass, and that namespace is the one deleted, with exit status 0. The source would instead stop at the final RoleBinding fetch (rbac.py:255); see the Left out entry for Namespaces.Registry.CreateTemporaryNamespace. |

## Left out

- Every shell command is out of the model: the probe, `kubectl create ns`, `kubectl delete ns`,
  the RoleBinding fetch and `kubectl api-resources` (rbac.py:64, 157, 229, 245, 261-263). The
  probe output and the poll outcomes are inputs. The API resource list is a parameter. The
  create and delete commands are reflected only as the registry's contents and the list
  `Start` returns.
- `namespace_exists` (rbac.py:194-205) is a predicate input. An API error other than 404
  returns `None` there, which `start` treats as absent, so it is simply `false`.
- YAML loading and dumping (rbac.py:33, 176-189) are out. The expectation file and the
  definitions are given as datatypes, in file order.
- `datetime.now` is a clock input indexed by the number of namespaces created so far.
  `time.sleep` and the one-second waits are out.
- Namespaces.Registry.CreateTemporaryNamespace leaves out the final RoleBinding fetch at
  rbac.py:255. That fetch uses `check=True` and aborts the whole run with an exception when
  the binding never appeared. The model's run goes on as if it had succeeded, and the poll's
  outcome does not influence the result.
- `print` output, the `sys.exit(1)` process exit and the `main`/`loadApiResources` wiring are
  out. `Start` returns the exit status instead.
- Text.Lower lower-cases ASCII letters only. Python's `str.lower` also maps non-ASCII letters.
- Engine.Start requires a well-shaped expectation file: a label under `cluster` and a table
  under `namespaces`, with every label a string.
  - A label that is not a string but can still be a dict key is not a failure in the source.
    Examples are an empty `cluster:` read as null, a number or a boolean, under `cluster` or
    as a selector's label.
  - The lookup at rbac.py:99/101 then usually raises `KeyError`. rbac.py:102-104 catch it,
    and the entry contributes no probe. That is the same as a string label missing from the
    definitions, which the model covers (Probes.MissingDefinitionCompilesToNothing).
  - The lookup can instead succeed when the definitions use an equal non-string key; for
    example, `True` finds a key `1`. The model's string labels cannot express that match.
  - Among the values under `cluster` and `namespaces`, only two shapes end the run, and
    neither is modelled. One is a list or mapping used as a label, which cannot be a dict key
    and raises `TypeError`. The other is a value under `namespaces` that is not a mapping,
    which raises `AttributeError` at rbac.py:48.
- Engine.Start cannot express two other inputs that end the run in the source, because its
  datatypes hold only string keys and lists.
  - A selector key under `namespaces` that is not a string, such as an unquoted `2024`, a
    boolean or null, makes the `"*" in namespace` test at rbac.py:49 raise `TypeError`. The
    model would read `2024` as the string `"2024"` and probe that namespace.
  - A null or non-mapping value for `config`, `kind`, a kind or an identity raises
    `AttributeError` at rbac.py:36, 37 or 43. An empty identity (`sa-a:` left empty) is an
    example. The model can express such an entry only as an empty list, which yields no
    probes.
- Probes.Template holds the expected answer as a string. YAML reads an unquoted `yes` or `no`
  in the definitions as a boolean. A boolean never equals the stripped output compared at
  rbac.py:164, so every such probe fails in the source. The model does not represent that
  case.
- Engine.Start models the identity kinds, the identities, the scope entries of an identity and
  the selectors of a `namespaces` entry as lists. A file with duplicate keys at any of these
  levels, which a YAML mapping collapses, is not modelled.
- Engine.Start does not model a failing `kubectl create ns` (rbac.py:229) or `kubectl delete
  ns` (rbac.py:64). Both use `check=True`, so either failure raises and ends the run. A failed
  delete also skips the error report that follows it (rbac.py:67-74).
- Namespaces.ValidDateTime restricts clock readings to years 1000 to 9999, so the timestamp
  always has fourteen digits. Python prints shorter years with fewer digits.
- Namespaces.Registry.CreateTemporaryNamespace does not model a collision: two different
  selectors could produce the same fresh name in the same second, and `kubectl create ns`
  would then fail.
- The model assumes the cluster gives the same answer to the same command throughout the run.
