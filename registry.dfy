/** The router's registry as a value: a map from agent name to group, each
    group an append-only list of members with a `unique` flag. The Router and
    AgentGroup classes in module Runtime are proved against these functions.
    The member type A is left open (the classes use Agent). */
module Registry {
  import opened Types

  /** An AgentGroup: its `unique` flag and its agents in the order added. */
  datatype Group<A> = Group(unique: bool, members: seq<A>)

  /** AgentGroup.getAgent(num): null past the end; a negative index reaches
      ArrayList.get and throws. */
  function Lookup<A>(g: Group<A>, num: int): (r: Result<Option<A>>)
    ensures r == Ok(None) <==> num >= |g.members|
    ensures 0 <= num < |g.members| ==> r == Ok(Some(g.members[num]))
    ensures num < 0 ==> r == Err(IndexOutOfBounds(num))
  {
    if num >= |g.members| then Ok(None)
    else if num < 0 then Err(IndexOutOfBounds(num))
    else Ok(Some(g.members[num]))
  }

  /** AgentGroup.addAgent: a unique group that already holds an agent refuses;
      otherwise the agent is appended and its number is the previous size. */
  function Add<A>(g: Group<A>, a: A): (r: Result<Group<A>>)
    ensures r.Err? <==> g.unique && |g.members| >= 1
    ensures r.Err? ==> r.error == RouterException(GroupIsUnique)
    ensures r.Ok? ==> r.value.unique == g.unique && r.value.members == g.members + [a]
  {
    if g.unique && |g.members| >= 1 then Err(RouterException(GroupIsUnique))
    else Ok(g.(members := g.members + [a]))
  }

  /** The index addAgent gives the agent: the group's size before it was added. */
  function NextNumber<A>(reg: map<string, Group<A>>, name: string): nat {
    if name in reg then |reg[name].members| else 0
  }

  /** Router.getAgent(name, num): null for an unregistered name. */
  function Find<A>(reg: map<string, Group<A>>, name: string, num: int): (r: Result<Option<A>>)
    ensures name !in reg ==> r == Ok(None)
    ensures name in reg ==> r == Lookup(reg[name], num)
  {
    if name !in reg then Ok(None) else Lookup(reg[name], num)
  }

  /** Router.registerAgent(agent, unique): refused when the router is down,
      when the name is null or empty, when the call asks for uniqueness under a
      taken name, or when the existing group is unique and already populated.
      A name seen for the first time gets a new group with the call's flag. */
  function Register<A>(reg: map<string, Group<A>>, up: bool, name: Option<string>, a: A, unique: bool)
    : (r: Result<map<string, Group<A>>>)
    ensures !up ==> r == Err(RouterException(RouterDown))
    ensures up && (name.None? || name.value == "") ==> r == Err(RouterException(NoName))
    ensures r.Ok? <==>
      && up && name.Some? && name.value != ""
      && (name.value in reg ==> !unique && !(reg[name.value].unique && |reg[name.value].members| >= 1))
    ensures r.Ok? ==> r.value.Keys == reg.Keys + {name.value}
    ensures r.Ok? ==> r.value[name.value].members
                      == (if name.value in reg then reg[name.value].members else []) + [a]
    ensures r.Ok? ==> r.value[name.value].unique
                      == (if name.value in reg then reg[name.value].unique else unique)
    ensures r.Ok? ==> forall k :: k in reg && k != name.value ==> r.value[k] == reg[k]
  {
    if !up then Err(RouterException(RouterDown))
    else if name.None? || name.value == "" then Err(RouterException(NoName))
    else if name.value !in reg then Ok(reg[name.value := Group(unique, [a])])
    else if unique then Err(RouterException(UniqueTaken))
    else match Add(reg[name.value], a)
      case Err(e) => Err(e)
      case Ok(g) => Ok(reg[name.value := g])
  }

  /** The members of the groups named in order, group after group; a name
      with no group contributes nothing. */
  function Flatten<A>(reg: map<string, Group<A>>, order: seq<string>): seq<A> {
    if order == [] then []
    else Flatten(reg, order[..|order| - 1]) + Members(reg, order[|order| - 1])
  }

  /** The members of the group registered under name, none for an unknown name. */
  function Members<A>(reg: map<string, Group<A>>, name: string): seq<A> {
    if name in reg then reg[name].members else []
  }

  /** The groups of a prefix of the order come first in the flattened list. */
  lemma {:induction false} FlattenPrefix<A>(reg: map<string, Group<A>>, order: seq<string>, i: nat)
    requires i <= |order|
    ensures Flatten(reg, order[..i]) <= Flatten(reg, order)
    decreases |order|
  {
    if i < |order| {
      var init := order[..|order| - 1];
      assert init[..i] == order[..i];
      FlattenPrefix(reg, init, i);
    } else {
      assert order[..i] == order;
    }
  }

  /** One more name of the order adds its group's members at the end, and
      the result is still a prefix of the whole flattened list. */
  lemma FlattenStep<A>(reg: map<string, Group<A>>, order: seq<string>, i: nat)
    requires i < |order|
    ensures Flatten(reg, order[..i + 1]) == Flatten(reg, order[..i]) + Members(reg, order[i])
    ensures Flatten(reg, order[..i + 1]) <= Flatten(reg, order)
  {
    assert order[..i + 1][..i] == order[..i];
    FlattenPrefix(reg, order, i + 1);
  }

  /** Router.unregisterAgent(name): refused for an unknown name; otherwise
      removes exactly that key. */
  function Unregister<A>(reg: map<string, Group<A>>, name: string): (r: Result<map<string, Group<A>>>)
    ensures r.Err? <==> name !in reg
    ensures r.Err? ==> r.error == RouterException(NotRegistered(name))
    ensures r.Ok? ==> r.value.Keys == reg.Keys - {name}
    ensures r.Ok? ==> forall k :: k in r.value ==> r.value[k] == reg[k]
  {
    if name !in reg then Err(RouterException(NotRegistered(name)))
    else Ok(reg - {name})
  }

  /** After a registration succeeds, looking the agent up by its name and by
      the group's previous size finds it; every other lookup is unchanged. */
  lemma RegisterThenFind<A>(reg: map<string, Group<A>>, up: bool, name: string, a: A, unique: bool,
                            other: string, num: int)
    requires Register(reg, up, Some(name), a, unique).Ok?
    ensures var reg' := Register(reg, up, Some(name), a, unique).value;
      && Find(reg', name, NextNumber(reg, name)) == Ok(Some(a))
      && (other != name ==> Find(reg', other, num) == Find(reg, other, num))
      && (0 <= num < NextNumber(reg, name) ==> Find(reg', name, num) == Find(reg, name, num))
      && (num > NextNumber(reg, name) ==> Find(reg', name, num) == Ok(None))
  {
    var reg' := Register(reg, up, Some(name), a, unique).value;
    var before := if name in reg then reg[name].members else [];
    assert reg'[name].members == before + [a];
    if 0 <= num < |before| {
      assert reg'[name].members[num] == before[num];
    }
  }

  /** After a unique registration under a name, any further registration under
      that name fails: a unique one because the name is taken, a non-unique one
      because the group is unique. */
  lemma SecondRegistrationFails<A>(reg: map<string, Group<A>>, up: bool, name: Option<string>, a: A, b: A)
    requires Register(reg, up, name, a, true).Ok?
    ensures var reg' := Register(reg, up, name, a, true).value;
      Register(reg', up, name, b, true) == Err(RouterException(UniqueTaken))
      && Register(reg', up, name, b, false) == Err(RouterException(GroupIsUnique))
  {
  }

  /** The registry invariant: a unique group never holds more than one agent. */
  predicate UniqueGroupsSingle<A>(reg: map<string, Group<A>>) {
    forall k :: k in reg && reg[k].unique ==> |reg[k].members| <= 1
  }

  /** Registration keeps every unique group to one agent. */
  lemma RegisterKeepsUniqueSingle<A>(reg: map<string, Group<A>>, up: bool, name: Option<string>, a: A,
                                     unique: bool)
    requires UniqueGroupsSingle(reg)
    ensures var r := Register(reg, up, name, a, unique); r.Ok? ==> UniqueGroupsSingle(r.value)
  {
  }

  /** Unregistration keeps every unique group to one agent. */
  lemma UnregisterKeepsUniqueSingle<A>(reg: map<string, Group<A>>, gone: string)
    requires UniqueGroupsSingle(reg)
    ensures var r := Unregister(reg, gone); r.Ok? ==> UniqueGroupsSingle(r.value)
  {
  }
}
