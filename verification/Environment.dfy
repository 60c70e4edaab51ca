/** The environment part of the command builder and its application to a process
    (`src/command.rs`, `src/command_env.rs`,
    `src/command_runner/internal/process_setup.rs`).

    Two names are the same variable when `fold` maps them to the same text: the
    identity on Unix, case folding on Windows.  An environment maps folded names to
    values. */
module Environment {
  import opened Basics

  type Fold = string -> string
  type Env = map<string, string>

  datatype EnvCall = Set(key: string, value: string) | Remove(key: string) | Clear

  /** The meaning of one call on the environment a child would get. */
  function Act(fold: Fold, env: Env, call: EnvCall): Env {
    match call
    case Set(key, value) => env[fold(key) := value]
    case Remove(key) => env - {fold(key)}
    case Clear => map[]
  }

  /** The calls in order, on the inherited environment. */
  function Meaning(fold: Fold, calls: seq<EnvCall>, inherited: Env): Env {
    if calls == [] then inherited
    else Act(fold, Meaning(fold, calls[..|calls| - 1], inherited), calls[|calls| - 1])
  }

  // ---------------------------------------------------------------------
  // What the builder stores

  datatype Pair = Pair(key: string, value: string)

  datatype Stored = Stored(envs: seq<Pair>, removed: seq<string>, clears: bool)

  const NOTHING_STORED := Stored([], [], false)

  function EnvsWithout(fold: Fold, envs: seq<Pair>, key: string): seq<Pair> {
    if envs == [] then []
    else (if fold(envs[0].key) == fold(key) then [] else [envs[0]]) + EnvsWithout(fold, envs[1..], key)
  }

  function KeysWithout(fold: Fold, keys: seq<string>, key: string): seq<string> {
    if keys == [] then []
    else (if fold(keys[0]) == fold(key) then [] else [keys[0]]) + KeysWithout(fold, keys[1..], key)
  }

  function Store(fold: Fold, st: Stored, call: EnvCall): Stored {
    match call
    case Set(key, value) =>
      Stored(EnvsWithout(fold, st.envs, key) + [Pair(key, value)], KeysWithout(fold, st.removed, key), st.clears)
    case Remove(key) =>
      Stored(EnvsWithout(fold, st.envs, key), KeysWithout(fold, st.removed, key) + [key], st.clears)
    case Clear => Stored([], [], true)
  }

  function StoreAll(fold: Fold, calls: seq<EnvCall>): Stored {
    if calls == [] then NOTHING_STORED
    else Store(fold, StoreAll(fold, calls[..|calls| - 1]), calls[|calls| - 1])
  }

  ghost predicate EnvsApart(fold: Fold, envs: seq<Pair>) {
    forall i, j :: 0 <= i < j < |envs| ==> fold(envs[i].key) != fold(envs[j].key)
  }

  ghost predicate NamesApart(fold: Fold, keys: seq<string>) {
    forall i, j :: 0 <= i < j < |keys| ==> fold(keys[i]) != fold(keys[j])
  }

  /** No variable is stored twice, neither as set nor as removed nor as both. */
  ghost predicate KeysApart(fold: Fold, st: Stored) {
    && EnvsApart(fold, st.envs)
    && NamesApart(fold, st.removed)
    && (forall p, k :: p in st.envs && k in st.removed ==> fold(p.key) != fold(k))
  }

  lemma {:induction false} EnvsWithoutMembers(fold: Fold, envs: seq<Pair>, key: string)
    ensures forall p :: p in EnvsWithout(fold, envs, key) <==> p in envs && fold(p.key) != fold(key)
  {
    if envs == [] {
    } else {
      EnvsWithoutMembers(fold, envs[1..], key);
      assert envs == [envs[0]] + envs[1..];
    }
  }

  lemma {:induction false} KeysWithoutMembers(fold: Fold, keys: seq<string>, key: string)
    ensures forall k :: k in KeysWithout(fold, keys, key) <==> k in keys && fold(k) != fold(key)
  {
    if keys == [] {
    } else {
      KeysWithoutMembers(fold, keys[1..], key);
      assert keys == [keys[0]] + keys[1..];
    }
  }

  lemma PrependEnv(fold: Fold, first: Pair, rest: seq<Pair>)
    requires EnvsApart(fold, rest) && forall p :: p in rest ==> fold(p.key) != fold(first.key)
    ensures EnvsApart(fold, [first] + rest)
  {
  }

  lemma PrependName(fold: Fold, first: string, rest: seq<string>)
    requires NamesApart(fold, rest) && forall k :: k in rest ==> fold(k) != fold(first)
    ensures NamesApart(fold, [first] + rest)
  {
  }

  lemma {:induction false} EnvsWithoutKeeps(fold: Fold, envs: seq<Pair>, key: string)
    requires EnvsApart(fold, envs)
    ensures EnvsApart(fold, EnvsWithout(fold, envs, key))
  {
    if envs == [] {
    } else {
      var first, rest := envs[0], envs[1..];
      EnvsWithoutMembers(fold, rest, key);
      assert EnvsApart(fold, rest) && forall p :: p in rest ==> fold(p.key) != fold(first.key);
      EnvsWithoutKeeps(fold, rest, key);
      hide EnvsApart;
      PrependEnv(fold, first, EnvsWithout(fold, rest, key));
      assert [] + EnvsWithout(fold, rest, key) == EnvsWithout(fold, rest, key);
    }
  }

  lemma {:induction false} KeysWithoutKeeps(fold: Fold, keys: seq<string>, key: string)
    requires NamesApart(fold, keys)
    ensures NamesApart(fold, KeysWithout(fold, keys, key))
  {
    if keys == [] {
    } else {
      var first, rest := keys[0], keys[1..];
      KeysWithoutMembers(fold, rest, key);
      assert NamesApart(fold, rest) && forall k :: k in rest ==> fold(k) != fold(first);
      KeysWithoutKeeps(fold, rest, key);
      hide NamesApart;
      PrependName(fold, first, KeysWithout(fold, rest, key));
      assert [] + KeysWithout(fold, rest, key) == KeysWithout(fold, rest, key);
    }
  }

  lemma StoreKeepsApart(fold: Fold, st: Stored, call: EnvCall)
    requires KeysApart(fold, st)
    ensures KeysApart(fold, Store(fold, st, call))
  {
    if !call.Clear? {
      EnvsWithoutKeeps(fold, st.envs, call.key);
      EnvsWithoutMembers(fold, st.envs, call.key);
      KeysWithoutKeeps(fold, st.removed, call.key);
      KeysWithoutMembers(fold, st.removed, call.key);
      hide EnvsWithout, KeysWithout;
      if call.Set? {
        AppendEnv(fold, EnvsWithout(fold, st.envs, call.key), Pair(call.key, call.value));
      } else {
        AppendName(fold, KeysWithout(fold, st.removed, call.key), call.key);
      }
      hide EnvsApart, NamesApart;
    }
  }

  lemma AppendEnv(fold: Fold, rest: seq<Pair>, last: Pair)
    requires EnvsApart(fold, rest) && forall p :: p in rest ==> fold(p.key) != fold(last.key)
    ensures EnvsApart(fold, rest + [last])
  {
  }

  lemma AppendName(fold: Fold, rest: seq<string>, last: string)
    requires NamesApart(fold, rest) && forall k :: k in rest ==> fold(k) != fold(last)
    ensures NamesApart(fold, rest + [last])
  {
  }

  /** After any calls, the stored keys are apart. */
  lemma {:induction false} StoredKeysAreApart(fold: Fold, calls: seq<EnvCall>)
    ensures KeysApart(fold, StoreAll(fold, calls))
  {
    if calls == [] {
    } else {
      StoredKeysAreApart(fold, calls[..|calls| - 1]);
      StoreKeepsApart(fold, StoreAll(fold, calls[..|calls| - 1]), calls[|calls| - 1]);
    }
  }

  // ---------------------------------------------------------------------
  // What the stored changes do

  function RemoveAll(fold: Fold, env: Env, keys: seq<string>): Env {
    if keys == [] then env
    else RemoveAll(fold, env, keys[..|keys| - 1]) - {fold(keys[|keys| - 1])}
  }

  function SetAll(fold: Fold, env: Env, envs: seq<Pair>): Env {
    if envs == [] then env
    else
      var last := envs[|envs| - 1];
      SetAll(fold, env, envs[..|envs| - 1])[fold(last.key) := last.value]
  }

  /** Clear, then remove, then set. */
  function Effect(fold: Fold, st: Stored, inherited: Env): Env {
    SetAll(fold, RemoveAll(fold, if st.clears then map[] else inherited, st.removed), st.envs)
  }

  /** Two environments agree outside one variable. */
  predicate AgreeExcept(a: Env, b: Env, x: string) {
    a - {x} == b - {x}
  }

  lemma {:induction false} SetAllIgnores(fold: Fold, a: Env, b: Env, envs: seq<Pair>, key: string)
    requires AgreeExcept(a, b, fold(key))
    ensures AgreeExcept(SetAll(fold, a, EnvsWithout(fold, envs, key)), SetAll(fold, b, envs), fold(key))
    decreases |envs|
  {
    if envs == [] {
    } else {
      var n := |envs| - 1;
      SetAllIgnores(fold, a, b, envs[..n], key);
      EnvsWithoutLast(fold, envs, key);
      var kept := EnvsWithout(fold, envs[..n], key);
      if fold(envs[n].key) != fold(key) {
        assert (kept + [envs[n]])[..|kept|] == kept;
        SameSet(SetAll(fold, a, kept), SetAll(fold, b, envs[..n]), fold(key), fold(envs[n].key), envs[n].value);
      } else {
        assert kept + [] == kept;
      }
    }
  }

  lemma SameSet(a: Env, b: Env, x: string, y: string, value: string)
    requires AgreeExcept(a, b, x) && x != y
    ensures AgreeExcept(a[y := value], b[y := value], x)
  {
    assert a[y := value] - {x} == (a - {x})[y := value];
    assert b[y := value] - {x} == (b - {x})[y := value];
  }

  lemma {:induction false} EnvsWithoutLast(fold: Fold, envs: seq<Pair>, key: string)
    requires envs != []
    ensures var n := |envs| - 1;
      EnvsWithout(fold, envs, key)
      == EnvsWithout(fold, envs[..n], key) + (if fold(envs[n].key) == fold(key) then [] else [envs[n]])
  {
    var n := |envs| - 1;
    var first := if fold(envs[0].key) == fold(key) then [] else [envs[0]];
    var last := if fold(envs[n].key) == fold(key) then [] else [envs[n]];
    assert EnvsWithout(fold, envs, key) == first + EnvsWithout(fold, envs[1..], key);
    if n == 0 {
    } else {
      EnvsWithoutLast(fold, envs[1..], key);
      assert envs[1..][..n - 1] == envs[..n][1..];
      var middle := EnvsWithout(fold, envs[..n][1..], key);
      assert EnvsWithout(fold, envs[..n], key) == first + middle;
      hide EnvsWithout;
      assert first + (middle + last) == (first + middle) + last;
    }
  }

  lemma {:induction false} RemoveAllIgnores(fold: Fold, env: Env, keys: seq<string>, key: string)
    ensures AgreeExcept(RemoveAll(fold, env, KeysWithout(fold, keys, key)), RemoveAll(fold, env, keys), fold(key))
    decreases |keys|
  {
    if keys == [] {
    } else {
      var n := |keys| - 1;
      RemoveAllIgnores(fold, env, keys[..n], key);
      KeysWithoutLast(fold, keys, key);
      var kept := KeysWithout(fold, keys[..n], key);
      if fold(keys[n]) != fold(key) {
        assert (kept + [keys[n]])[..|kept|] == kept;
        SameRemove(RemoveAll(fold, env, kept), RemoveAll(fold, env, keys[..n]), fold(key), fold(keys[n]));
      } else {
        assert kept + [] == kept;
      }
    }
  }

  lemma SameRemove(a: Env, b: Env, x: string, y: string)
    requires AgreeExcept(a, b, x)
    ensures AgreeExcept(a - {y}, b - {y}, x)
  {
    assert (a - {y}) - {x} == (a - {x}) - {y};
    assert (b - {y}) - {x} == (b - {x}) - {y};
  }

  lemma {:induction false} KeysWithoutLast(fold: Fold, keys: seq<string>, key: string)
    requires keys != []
    ensures var n := |keys| - 1;
      KeysWithout(fold, keys, key)
      == KeysWithout(fold, keys[..n], key) + (if fold(keys[n]) == fold(key) then [] else [keys[n]])
  {
    var n := |keys| - 1;
    var first := if fold(keys[0]) == fold(key) then [] else [keys[0]];
    var last := if fold(keys[n]) == fold(key) then [] else [keys[n]];
    assert KeysWithout(fold, keys, key) == first + KeysWithout(fold, keys[1..], key);
    if n == 0 {
    } else {
      KeysWithoutLast(fold, keys[1..], key);
      assert keys[1..][..n - 1] == keys[..n][1..];
      var middle := KeysWithout(fold, keys[..n][1..], key);
      assert KeysWithout(fold, keys[..n], key) == first + middle;
      hide KeysWithout;
      assert first + (middle + last) == (first + middle) + last;
    }
  }

  /** A variable that is not set keeps what removing left of it. */
  lemma {:induction false} UnsetStaysOut(fold: Fold, env: Env, envs: seq<Pair>, key: string)
    requires fold(key) !in env
    ensures fold(key) !in SetAll(fold, env, EnvsWithout(fold, envs, key))
    decreases |envs|
  {
    if envs == [] {
    } else {
      var n := |envs| - 1;
      UnsetStaysOut(fold, env, envs[..n], key);
      EnvsWithoutLast(fold, envs, key);
      var kept := EnvsWithout(fold, envs[..n], key);
      if fold(envs[n].key) != fold(key) {
        assert (kept + [envs[n]])[..|kept|] == kept;
      } else {
        assert kept + [] == kept;
      }
    }
  }

  /** One builder call changes the effect of what is stored exactly as the call
      itself would change the environment. */
  lemma StoreActs(fold: Fold, st: Stored, call: EnvCall, inherited: Env)
    ensures Effect(fold, Store(fold, st, call), inherited) == Act(fold, Effect(fold, st, inherited), call)
  {
    var base := if st.clears then map[] else inherited;
    match call {
      case Set(key, value) =>
        var removed', envs' := KeysWithout(fold, st.removed, key), EnvsWithout(fold, st.envs, key);
        RemoveAllIgnores(fold, base, st.removed, key);
        SetAllIgnores(fold, RemoveAll(fold, base, removed'), RemoveAll(fold, base, st.removed), st.envs, key);
        assert (envs' + [Pair(key, value)])[..|envs'|] == envs';
        SetOver(SetAll(fold, RemoveAll(fold, base, removed'), envs'), Effect(fold, st, inherited), fold(key), value);
      case Remove(key) =>
        var removed' := KeysWithout(fold, st.removed, key);
        RemoveAllIgnores(fold, base, st.removed, key);
        assert (removed' + [key])[..|removed'|] == removed';
        var cleaned := RemoveAll(fold, base, removed') - {fold(key)};
        assert AgreeExcept(cleaned, RemoveAll(fold, base, removed'), fold(key));
        SetAllIgnores(fold, cleaned, RemoveAll(fold, base, st.removed), st.envs, key);
        UnsetStaysOut(fold, cleaned, st.envs, key);
        RemoveOver(SetAll(fold, cleaned, EnvsWithout(fold, st.envs, key)), Effect(fold, st, inherited), fold(key));
      case Clear =>
    }
  }

  lemma SetOver(a: Env, b: Env, x: string, value: string)
    requires AgreeExcept(a, b, x)
    ensures a[x := value] == b[x := value]
  {
    assert a[x := value] == (a - {x})[x := value];
    assert b[x := value] == (b - {x})[x := value];
  }

  lemma RemoveOver(a: Env, b: Env, x: string)
    requires AgreeExcept(a, b, x) && x !in a
    ensures a == b - {x}
  {
    assert a == a - {x};
  }

  /** The builder is faithful: its stored changes mean what the calls meant, in
      order, whatever the child inherits. */
  lemma {:induction false} BuilderIsFaithful(fold: Fold, calls: seq<EnvCall>, inherited: Env)
    ensures Effect(fold, StoreAll(fold, calls), inherited) == Meaning(fold, calls, inherited)
  {
    if calls == [] {
    } else {
      var n := |calls| - 1;
      BuilderIsFaithful(fold, calls[..n], inherited);
      StoreActs(fold, StoreAll(fold, calls[..n]), calls[n], inherited);
    }
  }

  // ---------------------------------------------------------------------
  // The builder object and the process builder

  class CommandEnvironment {
    const fold: Fold
    var envs: seq<Pair>
    var removedEnvs: seq<string>
    var clearEnvironment: bool

    function State(): Stored
      reads this
    {
      Stored(envs, removedEnvs, clearEnvironment)
    }

    constructor (fold: Fold)
      ensures this.fold == fold && State() == NOTHING_STORED
    {
      this.fold := fold;
      envs, removedEnvs, clearEnvironment := [], [], false;
    }

    method EnvOs(key: string, value: string)
      modifies this
      ensures State() == Store(fold, old(State()), Set(key, value))
      ensures old(KeysApart(fold, State())) ==> KeysApart(fold, State())
    {
      ghost var before := State();
      removedEnvs := KeysWithout(fold, removedEnvs, key);
      envs := EnvsWithout(fold, envs, key);
      envs := envs + [Pair(key, value)];
      if KeysApart(fold, before) {
        StoreKeepsApart(fold, before, Set(key, value));
      }
    }

    method EnvRemoveOs(key: string)
      modifies this
      ensures State() == Store(fold, old(State()), Remove(key))
      ensures old(KeysApart(fold, State())) ==> KeysApart(fold, State())
    {
      ghost var before := State();
      envs := EnvsWithout(fold, envs, key);
      removedEnvs := KeysWithout(fold, removedEnvs, key);
      removedEnvs := removedEnvs + [key];
      if KeysApart(fold, before) {
        StoreKeepsApart(fold, before, Remove(key));
      }
    }

    method EnvClear()
      modifies this
      ensures State() == Store(fold, old(State()), Clear)
    {
      clearEnvironment := true;
      envs := [];
      removedEnvs := [];
    }
  }

  /** The process builder's own record: a set variable has a value, an explicitly
      removed one has none. */
  datatype Changes = Changes(clear: bool, vars: map<string, Option<string>>)

  /** The environment a process started with these changes gets. */
  function ChildEnvironment(changes: Changes, inherited: Env): Env {
    var base := if changes.clear then map[] else inherited;
    map x | x in base.Keys + changes.vars.Keys && (x in changes.vars ==> changes.vars[x].Some?)
      :: if x in changes.vars then changes.vars[x].value else base[x]
  }

  class ProcessCommand {
    const fold: Fold
    var changes: Changes

    constructor (fold: Fold)
      ensures this.fold == fold && changes == Changes(false, map[])
    {
      this.fold := fold;
      changes := Changes(false, map[]);
    }

    method Env(key: string, value: string)
      modifies this
      ensures forall inherited ::
        ChildEnvironment(changes, inherited) == ChildEnvironment(old(changes), inherited)[fold(key) := value]
    {
      changes := changes.(vars := changes.vars[fold(key) := Some(value)]);
    }

    method EnvRemove(key: string)
      modifies this
      ensures forall inherited ::
        ChildEnvironment(changes, inherited) == ChildEnvironment(old(changes), inherited) - {fold(key)}
    {
      if changes.clear {
        changes := changes.(vars := changes.vars - {fold(key)});
      } else {
        changes := changes.(vars := changes.vars[fold(key) := None]);
      }
    }

    method EnvClear()
      modifies this
      ensures forall inherited :: ChildEnvironment(changes, inherited) == map[]
    {
      changes := Changes(true, map[]);
    }
  }

  /** The environment once the first `k` removals are done. */
  function Removed(fold: Fold, st: Stored, k: nat, inherited: Env): Env
    requires k <= |st.removed|
  {
    RemoveAll(fold, if st.clears then map[] else inherited, st.removed[..k])
  }

  /** A fresh process gets exactly the effect of the stored changes. */
  method ConfigureEnvironment(command: CommandEnvironment, process: ProcessCommand)
    requires process.fold == command.fold && process.changes == Changes(false, map[])
    modifies process
    ensures forall inherited ::
      ChildEnvironment(process.changes, inherited) == Effect(command.fold, command.State(), inherited)
  {
    var fold, st := command.fold, command.State();
    assert forall inherited :: ChildEnvironment(process.changes, inherited) == inherited;
    if st.clears {
      process.EnvClear();
    }
    hide ChildEnvironment;
    var k := 0;
    while k < |st.removed|
      invariant 0 <= k <= |st.removed|
      invariant forall inherited ::
        ChildEnvironment(process.changes, inherited) == Removed(fold, st, k, inherited)
    {
      process.EnvRemove(st.removed[k]);
      assert st.removed[..k + 1][..k] == st.removed[..k];
      k := k + 1;
    }
    assert st.removed[..k] == st.removed;
    k := 0;
    while k < |st.envs|
      invariant 0 <= k <= |st.envs|
      invariant forall inherited ::
        ChildEnvironment(process.changes, inherited)
        == SetAll(fold, Removed(fold, st, |st.removed|, inherited), st.envs[..k])
    {
      process.Env(st.envs[k].key, st.envs[k].value);
      assert st.envs[..k + 1][..k] == st.envs[..k];
      k := k + 1;
    }
    assert st.envs[..k] == st.envs;
  }

  /** From the calls on the builder to the environment of the child. */
  method BuildAndConfigure(fold: Fold, calls: seq<EnvCall>) returns (process: ProcessCommand)
    ensures forall inherited :: ChildEnvironment(process.changes, inherited) == Meaning(fold, calls, inherited)
  {
    var command := new CommandEnvironment(fold);
    for k := 0 to |calls|
      invariant command.fold == fold && command.State() == StoreAll(fold, calls[..k])
    {
      assert calls[..k + 1][..k] == calls[..k];
      match calls[k] {
        case Set(key, value) => command.EnvOs(key, value);
        case Remove(key) => command.EnvRemoveOs(key);
        case Clear => command.EnvClear();
      }
    }
    assert calls[..|calls|] == calls;
    process := new ProcessCommand(fold);
    ConfigureEnvironment(command, process);
    forall inherited ensures Effect(fold, StoreAll(fold, calls), inherited) == Meaning(fold, calls, inherited) {
      BuilderIsFaithful(fold, calls, inherited);
    }
  }
}
