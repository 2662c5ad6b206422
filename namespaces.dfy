/** Temporary namespaces: `create_temporary_namespace`, the process-wide `Temporary_namespaces`
    registry it memoizes into, the `%Y%m%d%H%M%S` timestamp it names namespaces with, and the
    bounded RoleBinding poll of `wait_for_kyerno_policy`. */
module Namespaces {
  import opened Text

  /* ---------- The timestamp ---------- */

  /** A wall-clock reading, as `datetime.datetime.now()` returns it. */
  datatype DateTime = DateTime(year: int, month: int, day: int, hour: int, minute: int, second: int)

  /** The readings the four-digit `%Y` field can print. */
  predicate ValidDateTime(d: DateTime) {
    && 1000 <= d.year <= 9999 && 1 <= d.month <= 12 && 1 <= d.day <= 31
    && 0 <= d.hour <= 23 && 0 <= d.minute <= 59 && 0 <= d.second <= 59
  }

  function Pow10(width: nat): (r: nat)
    ensures r >= 1
  {
    if width == 0 then 1 else 10 * Pow10(width - 1)
  }

  predicate IsDigits(s: string) {
    forall i :: 0 <= i < |s| ==> '0' <= s[i] <= '9'
  }

  function DigitChar(d: nat): (c: char)
    requires d < 10
    ensures '0' <= c <= '9'
  {
    ('0' as int + d) as char
  }

  /** `n` printed in decimal, zero-padded (or cut) to the last `width` digits. */
  function Decimal(n: nat, width: nat): (s: string)
    ensures |s| == width && IsDigits(s)
  {
    if width == 0 then [] else Decimal(n / 10, width - 1) + [DigitChar(n % 10)]
  }

  /** The number a string of decimal digits denotes. */
  function Value(s: string): (n: nat)
    requires IsDigits(s)
    ensures n < Pow10(|s|)
  {
    if s == [] then 0 else 10 * Value(s[..|s| - 1]) + (s[|s| - 1] as int - '0' as int)
  }

  /** Reading back a zero-padded number gives the number, when it fits the width. */
  lemma {:induction false} ValueOfDecimal(n: nat, width: nat)
    requires n < Pow10(width)
    ensures Value(Decimal(n, width)) == n
  {
    if width > 0 {
      assert n / 10 < Pow10(width - 1);
      ValueOfDecimal(n / 10, width - 1);
      var s := Decimal(n, width);
      assert s[..width - 1] == Decimal(n / 10, width - 1);
    }
  }

  /** Printing a digit string's value at its own width gives the string back. */
  lemma {:induction false} DecimalOfValue(s: string)
    requires IsDigits(s)
    ensures Decimal(Value(s), |s|) == s
  {
    if s != [] {
      var n := |s| - 1;
      DecimalOfValue(s[..n]);
      var v := Value(s);
      assert v / 10 == Value(s[..n]);
      assert v % 10 == s[n] as int - '0' as int;
      assert s == s[..n] + [s[n]];
    }
  }

  /** `now.strftime("%Y%m%d%H%M%S")`. */
  function Stamp(now: DateTime): (s: string)
    requires ValidDateTime(now)
    ensures |s| == 14 && IsDigits(s)
  {
    Decimal(now.year, 4) + Decimal(now.month, 2) + Decimal(now.day, 2) +
    Decimal(now.hour, 2) + Decimal(now.minute, 2) + Decimal(now.second, 2)
  }

  /** Reads a fourteen-digit timestamp back into its fields. */
  function ParseStamp(s: string): DateTime
    requires |s| == 14 && IsDigits(s)
  {
    DateTime(Value(s[..4]), Value(s[4..6]), Value(s[6..8]), Value(s[8..10]), Value(s[10..12]), Value(s[12..]))
  }

  /** The timestamp determines the reading it was printed from. */
  lemma StampRoundTrip(now: DateTime)
    requires ValidDateTime(now)
    ensures ParseStamp(Stamp(now)) == now
  {
    var s := Stamp(now);
    assert s[..4] == Decimal(now.year, 4);
    assert s[4..6] == Decimal(now.month, 2);
    assert s[6..8] == Decimal(now.day, 2);
    assert s[8..10] == Decimal(now.hour, 2);
    assert s[10..12] == Decimal(now.minute, 2);
    assert s[12..] == Decimal(now.second, 2);
    ValueOfDecimal(now.year, 4);
    ValueOfDecimal(now.month, 2);
    ValueOfDecimal(now.day, 2);
    ValueOfDecimal(now.hour, 2);
    ValueOfDecimal(now.minute, 2);
    ValueOfDecimal(now.second, 2);
  }

  /** Every fourteen-digit string whose fields form a valid reading is the timestamp of that
      reading. */
  lemma ParseStampRoundTrip(s: string)
    requires |s| == 14 && IsDigits(s) && ValidDateTime(ParseStamp(s))
    ensures Stamp(ParseStamp(s)) == s
  {
    var d := ParseStamp(s);
    DecimalOfValue(s[..4]);
    DecimalOfValue(s[4..6]);
    DecimalOfValue(s[6..8]);
    DecimalOfValue(s[8..10]);
    DecimalOfValue(s[10..12]);
    DecimalOfValue(s[12..]);
    calc {
      Stamp(d);
      Decimal(d.year, 4) + Decimal(d.month, 2) + Decimal(d.day, 2) +
      Decimal(d.hour, 2) + Decimal(d.minute, 2) + Decimal(d.second, 2);
      s[..4] + s[4..6] + s[6..8] + s[8..10] + s[10..12] + s[12..];
      { SplitsAt(s); }
      s;
    }
  }

  lemma SplitsAt(s: string)
    requires |s| == 14
    ensures s[..4] + s[4..6] + s[6..8] + s[8..10] + s[10..12] + s[12..] == s
  {
    assert s[..4] + s[4..6] == s[..6];
    assert s[..6] + s[6..8] == s[..8];
    assert s[..8] + s[8..10] == s[..10];
    assert s[..10] + s[10..12] == s[..12];
    assert s[..12] + s[12..] == s;
  }

  /* ---------- Temporary namespace names ---------- */

  /** The name given to a fresh namespace for a wildcard selector: the selector with every
      `*` deleted, followed by the timestamp. */
  function FreshName(prefix: string, now: DateTime): string
    requires ValidDateTime(now)
  {
    Without(prefix, '*') + Stamp(now)
  }

  /** A fresh name is the selector's characters other than `*`, in order, followed by the
      timestamp, from which the creation time can be read back. It holds no `*`, so it is never
      itself a wildcard selector. */
  lemma FreshNameShape(prefix: string, now: DateTime)
    requires ValidDateTime(now)
    ensures var name := FreshName(prefix, now);
      var kept := Positions(prefix, Other('*'));
      && |name| == |kept| + 14
      && (forall k :: 0 <= k < |kept| ==> name[k] == prefix[kept[k]])
      && '*' !in name
      && (forall c :: c != '*' && c in prefix ==> c in name)
      && |name| >= 14
      && name[|name| - 14..] == Stamp(now)
      && ParseStamp(name[|name| - 14..]) == now
  {
    var base := Without(prefix, '*');
    var stamp := Stamp(now);
    var name := base + stamp;
    assert name == FreshName(prefix, now);
    assert name[|name| - 14..] == stamp;
    StampRoundTrip(now);
    forall i | 0 <= i < |name| ensures name[i] != '*' {
      if i < |base| {
        assert name[i] == base[i];
      } else {
        assert name[i] == stamp[i - |base|];
      }
    }
    forall c | c != '*' && c in prefix ensures c in name {
      var i :| 0 <= i < |base| && base[i] == c;
      assert name[i] == c;
    }
  }

  /* ---------- The registry ---------- */

  /** The contents of `Temporary_namespaces`: selector to namespace name, and the selectors in
      insertion order (the order a Python dict iterates in). */
  datatype RegistryState = RegistryState(names: map<string, string>, order: seq<string>)

  /** The keys are exactly the selectors listed in `order`, each listed once. */
  ghost predicate WellFormed(st: RegistryState) {
    && (forall p :: p in st.names <==> p in st.order)
    && (forall i, j :: 0 <= i < j < |st.order| ==> st.order[i] != st.order[j])
  }

  /** The namespaces of `names` for `keys`, in the order of `keys`. */
  function InOrder(names: map<string, string>, keys: seq<string>): (r: seq<string>)
    requires forall p :: p in keys ==> p in names
    ensures |r| == |keys|
    ensures forall i :: 0 <= i < |keys| ==> r[i] == names[keys[i]]
  {
    if keys == [] then [] else InOrder(names, keys[..|keys| - 1]) + [names[keys[|keys| - 1]]]
  }

  /** The namespaces created so far, in creation order. */
  function Created(st: RegistryState): seq<string>
    requires WellFormed(st)
  {
    InOrder(st.names, st.order)
  }

  /** Value-level twin of `CreateTemporaryNamespace`: the name a selector resolves to and the
      registry afterwards. */
  function Resolve(st: RegistryState, prefix: string, now: DateTime): (string, RegistryState)
    requires ValidDateTime(now)
  {
    if prefix in st.names then (st.names[prefix], st)
    else
      var namespace := FreshName(prefix, now);
      (namespace, RegistryState(st.names[prefix := namespace], st.order + [prefix]))
  }

  /** Resolving keeps the registry well formed, never changes an existing entry, and creates
      a namespace only on a miss: the creation list grows by exactly the new name on a miss
      and not at all on a hit. */
  lemma ResolveCreatesAtMostOnce(st: RegistryState, prefix: string, now: DateTime)
    requires WellFormed(st) && ValidDateTime(now)
    ensures var (namespace, st') := Resolve(st, prefix, now);
      && WellFormed(st')
      && (forall p :: p in st.names ==> p in st'.names && st'.names[p] == st.names[p])
      && st'.names[prefix] == namespace
      && Created(st') == Created(st) + (if prefix in st.names then [] else [namespace])
  {
    if prefix !in st.names {
      var namespace := FreshName(prefix, now);
      var st' := RegistryState(st.names[prefix := namespace], st.order + [prefix]);
      assert prefix !in st.order;
      assert WellFormed(st');
      var before, after := Created(st), Created(st');
      forall i | 0 <= i < |before| ensures after[i] == before[i] {
        assert st.order[i] != prefix;
      }
      assert after == before + [namespace];
    }
  }

  /** Resolving the same selector twice in one run gives the same namespace and leaves the
      registry as the first resolution left it, whatever the clock says the second time. */
  lemma ResolveIsIdempotent(st: RegistryState, prefix: string, first: DateTime, second: DateTime)
    requires ValidDateTime(first) && ValidDateTime(second)
    ensures var (name1, st1) := Resolve(st, prefix, first);
      var (name2, st2) := Resolve(st1, prefix, second);
      name2 == name1 && st2 == st1
  {
  }

  /** `Temporary_namespaces` with the namespace creation of `create_temporary_namespace`. */
  class Registry {
    var names: map<string, string>
    var order: seq<string>

    function State(): RegistryState
      reads this
    {
      RegistryState(names, order)
    }

    ghost predicate Valid()
      reads this
    {
      WellFormed(State())
    }

    constructor ()
      ensures Valid() && names == map[] && order == []
    {
      names := map[];
      order := [];
    }

    /** `create_temporary_namespace(prefix)`: on a hit, the stored name, with nothing created;
        on a miss, a namespace named after the selector and the clock is created, the
        RoleBinding poll runs, and the registry gains exactly that entry. */
    method CreateTemporaryNamespace(prefix: string, now: DateTime, bindingCheck: (string, nat) -> bool)
      returns (namespace: string)
      requires Valid() && ValidDateTime(now)
      modifies this
      ensures Valid()
      ensures old(prefix in names) ==> namespace == old(names[prefix]) && names == old(names) && order == old(order)
      ensures old(prefix !in names) ==>
        && namespace == Without(prefix, '*') + Stamp(now)
        && names == old(names)[prefix := namespace]
        && order == old(order) + [prefix]
      ensures (namespace, State()) == Resolve(old(State()), prefix, now)
    {
      if prefix in names {
        return names[prefix];
      }
      var timestamp := Stamp(now);
      namespace := Without(prefix, '*') + timestamp;
      var checks, found := WaitForRoleBinding(namespace, bindingCheck);
      names := names[prefix := namespace];
      order := order + [prefix];
    }

    /** The cleanup loop of `start`: every temporary namespace is deleted, in the order the
        registry holds them, which is creation order. */
    method DeleteAll() returns (deleted: seq<string>)
      requires Valid()
      ensures deleted == Created(State())
    {
      deleted := [];
      for i := 0 to |order|
        invariant deleted == InOrder(names, order[..i])
      {
        assert order[..i + 1][..i] == order[..i];
        deleted := deleted + [names[order[i]]];
      }
      assert order[..|order|] == order;
    }
  }

  /** A client of the registry: a selector resolved twice in one run lands in one namespace,
      named after the first reading of the clock. */
  method ResolveTwice(prefix: string, first: DateTime, second: DateTime, bindingCheck: (string, nat) -> bool)
    returns (name1: string, name2: string, created: seq<string>)
    requires ValidDateTime(first) && ValidDateTime(second)
    ensures name1 == name2 == FreshName(prefix, first)
    ensures created == [name1]
  {
    var registry := new Registry();
    name1 := registry.CreateTemporaryNamespace(prefix, first, bindingCheck);
    name2 := registry.CreateTemporaryNamespace(prefix, second, bindingCheck);
    created := Created(registry.State());
  }

  /* ---------- Waiting for the RoleBinding ---------- */

  const ROLE_BINDING := "valstro:groups:dev-n:cluster-admin"
  const MAX_POLLS := 20

  /** The command that checks whether the policy controller has created the RoleBinding. */
  function RoleBindingQuery(namespace: string): string {
    "kubectl get rolebinding " + ROLE_BINDING + " -n " + namespace
  }

  /** `wait_for_kyerno_policy`: runs the RoleBinding query (`bindingCheck(command, k)` is
      whether attempt `k` succeeds) until it succeeds, at most `MAX_POLLS` times. It reports
      how many checks it made and whether one succeeded: it stops right after the first
      success, and gives up after `MAX_POLLS` failures. */
  method WaitForRoleBinding(namespace: string, bindingCheck: (string, nat) -> bool)
    returns (checks: nat, found: bool)
    ensures 1 <= checks <= MAX_POLLS
    ensures found <==> exists k :: 0 <= k < MAX_POLLS && bindingCheck(RoleBindingQuery(namespace), k)
    ensures found ==> bindingCheck(RoleBindingQuery(namespace), checks - 1)
    ensures forall k :: 0 <= k < checks - 1 ==> !bindingCheck(RoleBindingQuery(namespace), k)
    ensures !found ==> checks == MAX_POLLS
  {
    var command := RoleBindingQuery(namespace);
    checks, found := 0, false;
    for i := 0 to MAX_POLLS
      invariant checks == i && !found
      invariant forall k :: 0 <= k < i ==> !bindingCheck(command, k)
    {
      checks := checks + 1;
      if bindingCheck(command, i) {
        found := true;
        break;
      }
    }
  }
}
