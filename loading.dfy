/**
 * What the registrations made while the module loads leave in `_commands`:
 * loading raises exactly when an alias names a key no earlier registration
 * wrote, the keys are exactly the names written, and each key holds what its
 * last registration wrote.
 */
module Loading {
  import opened Commands
  import opened CommandTable

  /** The key a registration writes. */
  function Target(step: Registration): string
  {
    match step
    case AddCommand(c) => c.name
    case AddAlias(_, alias) => alias
  }

  /** The keys the first `n` registrations write. */
  function Written(steps: seq<Registration>, n: nat): (keys: set<string>)
    requires n <= |steps|
    ensures forall j :: 0 <= j < n ==> Target(steps[j]) in keys
  {
    if n == 0 then {} else Written(steps, n - 1) + {Target(steps[n - 1])}
  }

  /** Every alias copies a key written by an earlier registration. */
  predicate AliasesResolve(steps: seq<Registration>)
  {
    forall k :: 0 <= k < |steps| && steps[k].AddAlias? ==> steps[k].name in Written(steps, k)
  }

  /** No registration from index `i` on writes `key`. */
  predicate UntouchedFrom(steps: seq<Registration>, i: nat, key: string)
  {
    forall k :: i <= k < |steps| ==> Target(steps[k]) != key
  }

  lemma ReplayStep(steps: seq<Registration>, n: nat)
    requires n < |steps|
    ensures Replay(steps[..n]).Failure? ==> Replay(steps[..n + 1]) == Replay(steps[..n])
    ensures Replay(steps[..n]).Success? ==> Replay(steps[..n + 1]) == Apply(Replay(steps[..n]).value, steps[n])
  {
    assert steps[..n + 1][..n] == steps[..n];
  }

  /** A successful step adds its target and keeps every other key's value. */
  lemma StepWrites(t: Table, step: Registration)
    requires Apply(t, step).Success?
    ensures Apply(t, step).value.entries.Keys == t.entries.Keys + {Target(step)}
    ensures forall key :: key in t.entries && key != Target(step) ==> Apply(t, step).value.entries[key] == t.entries[key]
  {
  }

  /** A loaded prefix holds exactly the keys its registrations wrote. */
  lemma {:induction false} ReplayKeys(steps: seq<Registration>, n: nat)
    requires n <= |steps| && Replay(steps[..n]).Success?
    ensures Replay(steps[..n]).value.entries.Keys == Written(steps, n)
    decreases n
  {
    if n == 0 {
      assert Written(steps, 0) == {};
    } else {
      ReplayStep(steps, n - 1);
      var prev := Replay(steps[..n - 1]);
      assert prev.Success?;
      ReplayKeys(steps, n - 1);
      StepWrites(prev.value, steps[n - 1]);
    }
  }

  /** Loading a prefix of a list whose aliases resolve raises nothing. */
  lemma {:induction false} ResolvedPrefix(steps: seq<Registration>, n: nat)
    requires AliasesResolve(steps) && n <= |steps|
    ensures Replay(steps[..n]).Success?
    decreases n
  {
    if n > 0 {
      ResolvedPrefix(steps, n - 1);
      StepResolves(steps, n - 1);
    }
  }

  /** A registration after a loaded prefix succeeds when, being an alias, it names a key written before it. */
  lemma StepResolves(steps: seq<Registration>, n: nat)
    requires n < |steps| && Replay(steps[..n]).Success?
    requires steps[n].AddAlias? ==> steps[n].name in Written(steps, n)
    ensures Replay(steps[..n + 1]).Success?
  {
    ReplayStep(steps, n);
    ReplayKeys(steps, n);
    var prev := Replay(steps[..n]).value;
    if steps[n].AddAlias? {
      assert Aliased(prev, steps[n].name, steps[n].alias).Success?;
    }
  }

  /**
   * `_alias(name, alias)` raises `KeyError` unless `name` is already a key,
   * so loading succeeds exactly when every alias names a key written before it.
   */
  lemma LoadSucceedsIff(steps: seq<Registration>)
    ensures Replay(steps).Success? <==> AliasesResolve(steps)
  {
    assert steps[..|steps|] == steps;
    if AliasesResolve(steps) {
      ResolvedPrefix(steps, |steps|);
    }
    if Replay(steps).Success? {
      forall k | 0 <= k < |steps| && steps[k].AddAlias? ensures steps[k].name in Written(steps, k) {
        if Replay(steps[..k + 1]).Failure? {
          ReplayFailureSticks(steps, k + 1);
        }
        ReplayStep(steps, k);
        ReplayKeys(steps, k);
      }
    }
  }

  /** A key no registration from `i` on writes keeps the value it had after the first `i`. */
  lemma {:induction false} UntouchedKeeps(steps: seq<Registration>, i: nat, key: string)
    requires i <= |steps| && Replay(steps).Success?
    requires Replay(steps[..i]).Success? && key in Replay(steps[..i]).value.entries
    requires UntouchedFrom(steps, i, key)
    ensures key in Replay(steps).value.entries
    ensures Replay(steps).value.entries[key] == Replay(steps[..i]).value.entries[key]
    decreases |steps| - i
  {
    if i == |steps| {
      assert steps[..i] == steps;
    } else {
      SuccessfulPrefix(steps, i + 1);
      StepKeeps(steps, i, key);
      UntouchedKeeps(steps, i + 1, key);
    }
  }

  /** A successful registration that writes another key leaves `key` as it was. */
  lemma StepKeeps(steps: seq<Registration>, n: nat, key: string)
    requires n < |steps| && Replay(steps[..n + 1]).Success? && Replay(steps[..n]).Success?
    requires key in Replay(steps[..n]).value.entries && Target(steps[n]) != key
    ensures key in Replay(steps[..n + 1]).value.entries
    ensures Replay(steps[..n + 1]).value.entries[key] == Replay(steps[..n]).value.entries[key]
  {
    ReplayStep(steps, n);
    StepWrites(Replay(steps[..n]).value, steps[n]);
  }

  /** A command added at `i` and never overwritten afterwards is what the table holds under its name. */
  lemma LastAdded(steps: seq<Registration>, i: nat, c: Command)
    requires i < |steps| && steps[i] == AddCommand(c)
    requires UntouchedFrom(steps, i + 1, c.name)
    requires Replay(steps).Success?
    ensures c.name in Replay(steps).value.entries
    ensures Replay(steps).value.entries[c.name] == c
  {
    SuccessfulPrefix(steps, i + 1);
    ReplayStep(steps, i);
    UntouchedKeeps(steps, i + 1, c.name);
  }

  /** Every prefix of a list that loads also loads. */
  lemma SuccessfulPrefix(steps: seq<Registration>, n: nat)
    requires n <= |steps| && Replay(steps).Success?
    ensures Replay(steps[..n]).Success?
  {
    if Replay(steps[..n]).Failure? {
      ReplayFailureSticks(steps, n);
    }
  }
}
