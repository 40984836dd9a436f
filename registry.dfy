/** The `AgentRegistry` of `stockworks/engine/agents/__init__.py`.

    Module discovery by reflection is replaced by a list of module
    descriptions, in the order the package's modules are visited: a module
    either fails to load or yields its members, in the order member
    inspection lists them, each tagged with what kind of object it is. */
module Registry {
  import opened Results
  import opened RateLimiting
  import opened Agents

  /** A concrete agent class: what its zero-argument constructor passes on to
      `Agent.__init__`, the limiter interval it runs with, and its hooks. */
  datatype AgentClass = AgentClass(agentName: string, interval: Positive,
                                   hooks: Hooks, cacheDurationSeconds: int)

  /** What a module member is: not a class, a class unrelated to `Agent`, the
      base class `Agent` itself, or a proper subclass of `Agent`. */
  datatype MemberKind = NotAClass | OtherClass | AgentBase | AgentSubclass(cls: AgentClass)

  datatype Member = Member(itemName: string, kind: MemberKind)

  /** A package module: one whose import raised an exception derived from
      `Exception`, or one that loaded and lists its members. */
  datatype ModuleDesc =
    | LoadFailure(name: string, message: string)
    | Loaded(name: string, members: seq<Member>)

  /** The dictionary `_agents`: its keys in insertion order, and the class
      stored under each key. */
  datatype Table = Table(order: seq<string>, classes: map<string, AgentClass>)

  const EmptyTable := Table([], map[])

  ghost predicate WellFormed(t: Table) {
    && (forall i, j :: 0 <= i < j < |t.order| ==> t.order[i] != t.order[j])
    && (forall k :: k in t.order <==> k in t.classes)
  }

  /** `table[key] = cls`: a new key goes to the end of the order, an existing
      key keeps its place and gets the new class. */
  function Insert(t: Table, key: string, cls: AgentClass): Table {
    Table(if key in t.classes then t.order else t.order + [key], t.classes[key := cls])
  }

  /** The inner loop of `_load_agents` over the members of the module named
      `key`: every proper `Agent` subclass is stored under the module's name. */
  function RegisterMembers(t: Table, key: string, members: seq<Member>): Table
    decreases |members|
  {
    if members == [] then t
    else
      var before := RegisterMembers(t, key, members[..|members| - 1]);
      var m := members[|members| - 1];
      if m.kind.AgentSubclass? then Insert(before, key, m.kind.cls) else before
  }

  /** One iteration of the outer loop: a module that fails to load adds nothing. */
  function LoadModule(t: Table, m: ModuleDesc): Table {
    match m
    case LoadFailure(_, _) => t
    case Loaded(name, members) => RegisterMembers(t, name, members)
  }

  /** The outer loop of `_load_agents` over `modules`, starting from `t`. */
  function LoadAll(t: Table, modules: seq<ModuleDesc>): Table
    decreases |modules|
  {
    if modules == [] then t
    else LoadModule(LoadAll(t, modules[..|modules| - 1]), modules[|modules| - 1])
  }

  /** The table a registry built from `modules` holds. */
  function Registered(modules: seq<ModuleDesc>): Table {
    LoadAll(EmptyTable, modules)
  }

  /** The last proper `Agent` subclass among `members`, if any. */
  function LastAgentClass(members: seq<Member>): Option<AgentClass>
    decreases |members|
  {
    if members == [] then None
    else
      var m := members[|members| - 1];
      if m.kind.AgentSubclass? then Some(m.kind.cls) else LastAgentClass(members[..|members| - 1])
  }

  /** A module contributes a class exactly when it has a proper `Agent`
      subclass among its members. */
  lemma {:induction false} LastAgentClassExists(members: seq<Member>)
    ensures LastAgentClass(members).Some? <==> exists j :: 0 <= j < |members| && members[j].kind.AgentSubclass?
    decreases |members|
  {
    if members != [] {
      var n := |members|;
      var init := members[..n - 1];
      LastAgentClassExists(init);
      assert forall j :: 0 <= j < n - 1 ==> init[j] == members[j];
    }
  }

  /** The class a module contributes is one of its proper `Agent` subclasses
      (never the base `Agent` nor a non-`Agent` member), and no proper
      subclass follows it. */
  lemma {:induction false} LastAgentClassIsLastSubclass(members: seq<Member>) returns (j: int)
    requires LastAgentClass(members).Some?
    ensures 0 <= j < |members| && members[j].kind == AgentSubclass(LastAgentClass(members).value)
    ensures forall j' :: j < j' < |members| ==> !members[j'].kind.AgentSubclass?
    decreases |members|
  {
    var n := |members|;
    if members[n - 1].kind.AgentSubclass? {
      j := n - 1;
    } else {
      var init := members[..n - 1];
      j := LastAgentClassIsLastSubclass(init);
      assert members[j] == init[j];
      forall j' | j < j' < n ensures !members[j'].kind.AgentSubclass? {
        if j' < n - 1 {
          assert members[j'] == init[j'];
        }
      }
    }
  }

  /** A module's members change at most the entry under the module's name,
      which ends up holding the module's last proper `Agent` subclass; the
      later of several such classes overwrites the earlier ones. */
  lemma {:induction false} RegisterMembersEffect(t: Table, key: string, members: seq<Member>)
    ensures var t' := RegisterMembers(t, key, members);
            var last := LastAgentClass(members);
            && (last.None? ==> t' == t)
            && (last.Some? ==> t' == Insert(t, key, last.value))
    decreases |members|
  {
    if members != [] {
      var n := |members|;
      RegisterMembersEffect(t, key, members[..n - 1]);
      if members[n - 1].kind.AgentSubclass? && LastAgentClass(members[..n - 1]).Some? {
        var c := LastAgentClass(members[..n - 1]).value;
        assert key in Insert(t, key, c).classes;
      }
    }
  }

  /** Two member lists with the same kinds, position by position. */
  ghost predicate SameKinds(a: seq<Member>, b: seq<Member>) {
    |a| == |b| && forall i :: 0 <= i < |a| ==> a[i].kind == b[i].kind
  }

  /** Member names play no part in registration: the key is the module's
      name, so renaming a module's members changes nothing. */
  lemma {:induction false} RegisterMembersIgnoresNames(t: Table, key: string, a: seq<Member>, b: seq<Member>)
    requires SameKinds(a, b)
    ensures RegisterMembers(t, key, a) == RegisterMembers(t, key, b)
    decreases |a|
  {
    if a != [] {
      var n := |a|;
      var a', b' := a[..n - 1], b[..n - 1];
      assert SameKinds(a', b') by {
        forall i | 0 <= i < n - 1 ensures a'[i].kind == b'[i].kind {
          assert a'[i] == a[i] && b'[i] == b[i];
        }
      }
      RegisterMembersIgnoresNames(t, key, a', b');
      assert a[n - 1].kind == b[n - 1].kind;
    }
  }

  /** A module that registers under a new key puts that key last in the
      order; any other module leaves the order as it was, so an overwritten
      key keeps its place. */
  lemma LoadModuleOrder(t: Table, m: ModuleDesc)
    ensures var t' := LoadModule(t, m);
            if m.Loaded? && LastAgentClass(m.members).Some? && m.name !in t.classes
            then t'.order == t.order + [m.name]
            else t'.order == t.order
  {
    if m.Loaded? {
      RegisterMembersEffect(t, m.name, m.members);
    }
  }

  /** Loading only ever appends keys: the order before loading is a prefix
      of the order after it. */
  lemma {:induction false} LoadAllExtendsOrder(t: Table, modules: seq<ModuleDesc>)
    ensures |t.order| <= |LoadAll(t, modules).order|
    ensures LoadAll(t, modules).order[..|t.order|] == t.order
    decreases |modules|
  {
    if modules != [] {
      var n := |modules|;
      var before := LoadAll(t, modules[..n - 1]);
      LoadAllExtendsOrder(t, modules[..n - 1]);
      LoadModuleOrder(before, modules[n - 1]);
      var after := LoadAll(t, modules);
      assert after.order[..|before.order|] == before.order;
      assert after.order[..|t.order|] == before.order[..|t.order|];
    }
  }

  /** Loading keeps the table well formed: no key listed twice, and the order
      lists exactly the stored keys. */
  lemma {:induction false} LoadAllWellFormed(t: Table, modules: seq<ModuleDesc>)
    requires WellFormed(t)
    ensures WellFormed(LoadAll(t, modules))
    decreases |modules|
  {
    if modules != [] {
      var before := LoadAll(t, modules[..|modules| - 1]);
      LoadAllWellFormed(t, modules[..|modules| - 1]);
      var m := modules[|modules| - 1];
      if m.Loaded? {
        RegisterMembersEffect(before, m.name, m.members);
        var last := LastAgentClass(m.members);
        if last.Some? {
          InsertWellFormed(before, m.name, last.value);
        }
      }
    }
  }

  lemma InsertWellFormed(t: Table, key: string, cls: AgentClass)
    requires WellFormed(t)
    ensures WellFormed(Insert(t, key, cls))
  {
    var t' := Insert(t, key, cls);
    if key !in t.classes {
      forall i, j | 0 <= i < j < |t'.order| ensures t'.order[i] != t'.order[j] {
        if j == |t.order| {
          assert t.order[i] in t.order;
        }
      }
    }
  }

  /** Loading two lists of modules one after the other is loading their
      concatenation. */
  lemma {:induction false} LoadAllAppend(t: Table, a: seq<ModuleDesc>, b: seq<ModuleDesc>)
    ensures LoadAll(t, a + b) == LoadAll(LoadAll(t, a), b)
    decreases |b|
  {
    if b == [] {
      assert a + b == a;
    } else {
      LoadAllAppend(t, a, b[..|b| - 1]);
      assert (a + b)[..|a + b| - 1] == a + b[..|b| - 1];
    }
  }

  /** A module whose loading fails contributes no entry, wherever it occurs,
      and the modules after it are still loaded. */
  lemma FailedModuleSkipped(modules: seq<ModuleDesc>, i: int, name: string, message: string)
    requires 0 <= i <= |modules|
    ensures Registered(modules[..i] + [LoadFailure(name, message)] + modules[i..]) == Registered(modules)
  {
    var a, b := modules[..i], modules[i..];
    LoadAllAppend(EmptyTable, a + [LoadFailure(name, message)], b);
    LoadAllAppend(EmptyTable, a, [LoadFailure(name, message)]);
    LoadAllAppend(EmptyTable, a, b);
    assert a + b == modules;
  }

  /** The registered keys are exactly the names of the loaded modules that
      have a proper `Agent` subclass; class names are never keys. */
  lemma {:induction false} RegisteredKeys(t: Table, modules: seq<ModuleDesc>, k: string)
    ensures k in LoadAll(t, modules).classes <==>
              k in t.classes ||
              exists i :: 0 <= i < |modules| && modules[i].Loaded? && modules[i].name == k
                        && LastAgentClass(modules[i].members).Some?
    decreases |modules|
  {
    if modules != [] {
      var n := |modules|;
      var init := modules[..n - 1];
      RegisteredKeys(t, init, k);
      var m := modules[n - 1];
      if m.Loaded? {
        RegisterMembersEffect(LoadAll(t, init), m.name, m.members);
      }
      assert forall i :: 0 <= i < n - 1 ==> init[i] == modules[i];
    }
  }

  /** Modules none of which registers under `k` leave the entry under `k` as
      it was. */
  lemma {:induction false} OtherModulesKeepEntry(t: Table, modules: seq<ModuleDesc>, k: string)
    requires forall i :: 0 <= i < |modules| && modules[i].Loaded? && modules[i].name == k ==>
               LastAgentClass(modules[i].members).None?
    ensures k in LoadAll(t, modules).classes <==> k in t.classes
    ensures k in t.classes ==> LoadAll(t, modules).classes[k] == t.classes[k]
    decreases |modules|
  {
    if modules != [] {
      var n := |modules|;
      OtherModulesKeepEntry(t, modules[..n - 1], k);
      var m := modules[n - 1];
      if m.Loaded? {
        RegisterMembersEffect(LoadAll(t, modules[..n - 1]), m.name, m.members);
      }
    }
  }

  /** The entry under `k` is the last proper `Agent` subclass of the last
      loaded module named `k` that has one: later registrations overwrite
      earlier ones. */
  lemma LastRegistrationWins(modules: seq<ModuleDesc>, i: int)
    requires 0 <= i < |modules| && modules[i].Loaded?
    requires LastAgentClass(modules[i].members).Some?
    requires forall j :: i < j < |modules| && modules[j].Loaded? && modules[j].name == modules[i].name ==>
               LastAgentClass(modules[j].members).None?
    ensures modules[i].name in Registered(modules).classes
    ensures Registered(modules).classes[modules[i].name] == LastAgentClass(modules[i].members).value
  {
    var k := modules[i].name;
    var a, b := modules[..i + 1], modules[i + 1..];
    assert a + b == modules;
    LoadAllAppend(EmptyTable, a, b);
    assert a[..i] == modules[..i];
    RegisterMembersEffect(LoadAll(EmptyTable, modules[..i]), k, modules[i].members);
    forall j | 0 <= j < |b| && b[j].Loaded? && b[j].name == k
      ensures LastAgentClass(b[j].members).None?
    {
      assert b[j] == modules[i + 1 + j];
    }
    OtherModulesKeepEntry(LoadAll(EmptyTable, a), b, k);
  }

  /** The "unknown agent type" error: the requested key and the registered
      keys, in registration order. */
  datatype UnknownAgentType = UnknownAgentType(requested: string, available: seq<string>) {
    /** The exception's message, the available keys joined by ", ". */
    function Message(): (s: string)
      ensures |s| >= |"Unknown agent type: "| + |requested|
      ensures s[..|"Unknown agent type: "|] == "Unknown agent type: "
      ensures s[|"Unknown agent type: "|..|"Unknown agent type: "| + |requested|] == requested
      ensures s[|"Unknown agent type: "| + |requested|..] == ". Available agents: " + Join(available, ", ")
    {
      var head := "Unknown agent type: " + requested;
      assert head[..|"Unknown agent type: "|] == "Unknown agent type: ";
      head + ". Available agents: " + Join(available, ", ")
    }
  }

  /** `sep.join(parts)` */
  function Join(parts: seq<string>, sep: string): (s: string)
    ensures parts == [] ==> s == ""
    ensures |parts| == 1 ==> s == parts[0]
    ensures |parts| > 0 ==> |s| == (|parts| - 1) * |sep| + SumLengths(parts)
    decreases |parts|
  {
    if parts == [] then ""
    else if |parts| == 1 then parts[0]
    else Join(parts[..|parts| - 1], sep) + sep + parts[|parts| - 1]
  }

  function SumLengths(parts: seq<string>): nat
    decreases |parts|
  {
    if parts == [] then 0 else SumLengths(parts[..|parts| - 1]) + |parts[|parts| - 1]|
  }

  /** Joining is associative over a split of the parts: the two joined halves
      are separated by one more separator. */
  lemma {:induction false} JoinAppend(a: seq<string>, b: seq<string>, sep: string)
    requires a != [] && b != []
    ensures Join(a + b, sep) == Join(a, sep) + sep + Join(b, sep)
    decreases |b|
  {
    var n := |b|;
    var ab := a + b;
    assert ab[|ab| - 1] == b[n - 1];
    if n == 1 {
      assert ab[..|ab| - 1] == a;
    } else {
      var init := b[..n - 1];
      assert ab[..|ab| - 1] == a + init;
      JoinAppend(a, init, sep);
      assert Join(ab, sep) == Join(a + init, sep) + sep + b[n - 1];
      assert Join(b, sep) == Join(init, sep) + sep + b[n - 1];
    }
  }

  /** Every part appears in the joined text, in order: part `i` starts after
      the `i` parts before it and their `i` separators. */
  lemma {:induction false} JoinPartAt(parts: seq<string>, sep: string, i: int)
    requires 0 <= i < |parts|
    ensures var offset := SumLengths(parts[..i]) + i * |sep|;
            offset + |parts[i]| <= |Join(parts, sep)|
            && Join(parts, sep)[offset..offset + |parts[i]|] == parts[i]
    decreases |parts|
  {
    var n := |parts|;
    if n == 1 {
      assert parts[..0] == [];
    } else {
      var init := parts[..n - 1];
      var j := Join(init, sep);
      assert Join(parts, sep) == j + sep + parts[n - 1];
      if i == n - 1 {
        assert parts[..i] == init;
      } else {
        JoinPartAt(init, sep, i);
        assert init[..i] == parts[..i] && init[i] == parts[i];
        var offset := SumLengths(parts[..i]) + i * |sep|;
        assert Join(parts, sep)[offset..offset + |parts[i]|] == j[offset..offset + |parts[i]|];
      }
    }
  }

  /** `a` is a fresh-state instance of `cls` constructed at instant `now`. */
  ghost predicate NewInstanceOf(a: Agent, cls: AgentClass, now: int)
    reads a, a.rateLimiter
  {
    && a.Valid()
    && a.name == cls.agentName && a.hooks == cls.hooks
    && a.cacheDuration == cls.cacheDurationSeconds * TicksPerSecond
    && a.cache == map[] && a.fetchCalls == []
    && a.rateLimiter.interval == cls.interval && a.rateLimiter.lastCallTime == now
    && a.rateLimiter.requests == []
  }

  class AgentRegistry {
    var agents: Table

    ghost predicate Valid()
      reads this
    {
      WellFormed(agents)
    }

    /** `AgentRegistry()`: an empty table, then `_load_agents` over the
        package's modules. */
    constructor (modules: seq<ModuleDesc>)
      ensures Valid()
      ensures agents == Registered(modules)
    {
      agents := EmptyTable;
      new;
      LoadAgents(modules);
    }

    /** `_load_agents()`: for each module that loads, store every proper
        `Agent` subclass under the module's name; a module that fails to load
        is skipped and loading goes on. */
    method LoadAgents(modules: seq<ModuleDesc>)
      requires Valid()
      modifies this
      ensures Valid()
      ensures agents == LoadAll(old(agents), modules)
    {
      var i := 0;
      while i < |modules|
        invariant 0 <= i <= |modules|
        invariant agents == LoadAll(old(agents), modules[..i])
      {
        var m := modules[i];
        if m.Loaded? {
          ghost var start := agents;
          var j := 0;
          while j < |m.members|
            invariant 0 <= j <= |m.members|
            invariant agents == RegisterMembers(start, m.name, m.members[..j])
          {
            var item := m.members[j];
            if item.kind.AgentSubclass? {
              var key := m.name;
              var order := if key in agents.classes then agents.order else agents.order + [key];
              agents := Table(order, agents.classes[key := item.kind.cls]);
            }
            assert m.members[..j + 1][..j] == m.members[..j];
            j := j + 1;
          }
          assert m.members[..j] == m.members;
        }
        assert modules[..i + 1][..i] == modules[..i];
        i := i + 1;
      }
      assert modules[..i] == modules;
      LoadAllWellFormed(old(agents), modules);
    }

    /** `get_agent(agent_type)` at instant `now`: an unknown key fails and
        constructs nothing; a registered key yields a brand-new instance of
        its class, with its own empty cache and its own limiter. */
    method GetAgent(agentType: string, now: int) returns (r: Result<Agent, UnknownAgentType>)
      ensures unchanged(this)
      ensures agentType !in agents.classes ==> r == Failure(UnknownAgentType(agentType, agents.order))
      ensures agentType in agents.classes ==>
                && r.Success? && fresh(r.value) && fresh(r.value.rateLimiter)
                && NewInstanceOf(r.value, agents.classes[agentType], now)
    {
      if agentType !in agents.classes {
        return Failure(UnknownAgentType(agentType, agents.order));
      }
      var cls := agents.classes[agentType];
      var a := new Agent(cls.agentName, cls.interval, cls.hooks, now, cls.cacheDurationSeconds);
      r := Success(a);
    }

    /** `available_agents`: a snapshot of the table. Tables are values, so
        nothing done to the snapshot can reach the registry's own table. */
    method AvailableAgents() returns (snapshot: Table)
      requires Valid()
      ensures unchanged(this)
      ensures snapshot == agents
      ensures forall k :: k in snapshot.order <==> k in agents.classes
    {
      snapshot := agents;
    }
  }

  /** Two lookups of the same key give two distinct agents: writing to the
      first one's cache leaves the second one's empty. */
  method IndependentInstances(registry: AgentRegistry, agentType: string, now: int, key: Key, data: Record)
    returns (first: Agent, second: Agent)
    requires agentType in registry.agents.classes
    ensures first != second && first.rateLimiter != second.rateLimiter
    ensures first.cache == map[key := CacheEntry(now, data)]
    ensures second.cache == map[]
  {
    var r1 := registry.GetAgent(agentType, now);
    var r2 := registry.GetAgent(agentType, now);
    first, second := r1.value, r2.value;
    first.UpdateCache(key, data, now);
  }
}
