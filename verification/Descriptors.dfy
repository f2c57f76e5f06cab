/**
 Environment descriptors: authorities a Worker is started with.  One registry of
 live generation tokens serves both the environments and the descriptors issued
 for them; a descriptor is recognised by object identity and used up at once.
 */
module Descriptors {
  import opened Common

  type Id = nat

  datatype Capability = Read | Batch | OtherCapability

  /** The fields of a descriptor; the object carrying them has an identity of its own. */
  datatype Content = Content(path: string, address: int, generation: int, capability: Capability)

  datatype Issued = Issued(content: Content, authenticator: Id, state: Id, stateGeneration: nat)

  /** The part of a shared environment the registry sees; generation 0 is a retired one. */
  datatype Environment = Environment(
    path: string, address: int, generation: nat, poisoned: bool, refCount: nat, tokens: set<nat>)

  const MAX_OUTSTANDING := 64
  const MAX_SAFE_INTEGER := 0x1F_FFFF_FFFF_FFFF

  predicate KnownCapability(c: Capability) { c != OtherCapability }

  predicate WellShaped(d: Content) {
    && d.path != "" && '\0' !in d.path && d.address > 0 && 1 <= d.generation <= MAX_SAFE_INTEGER
    && KnownCapability(d.capability)
  }

  /** The descriptors of one capability outstanding on a set of tokens. */
  function Outstanding(issued: map<nat, Issued>, tokens: set<nat>, capability: Capability): set<nat> {
    set t | t in tokens && t in issued && issued[t].content.capability == capability
  }

  /** The tokens in use: one per descriptor, and one per environment that is not retired. */
  function Generations(states: map<Id, Environment>): set<nat> {
    set s | s in states && states[s].generation != 0 :: states[s].generation
  }

  ghost predicate TokensOk(live: set<nat>, issued: map<nat, Issued>, states: map<Id, Environment>) {
    && live == issued.Keys + Generations(states)
    && 0 !in live && (forall t :: t in live ==> t <= MAX_SAFE_INTEGER)
    && (forall s :: s in states ==> states[s].generation !in issued)
    && (forall r, s :: r in states && s in states && r != s && states[r].generation != 0 ==>
          states[r].generation != states[s].generation)
  }

  /** Environments list exactly their own descriptors, all issued in their present generation. */
  ghost predicate OwnersOk(issued: map<nat, Issued>, states: map<Id, Environment>) {
    && (forall t :: t in issued ==>
          && issued[t].content.generation == t && issued[t].state in states && t in states[issued[t].state].tokens
          && !states[issued[t].state].poisoned && issued[t].stateGeneration == states[issued[t].state].generation
          && issued[t].stateGeneration != 0
          && issued[t].content.path == states[issued[t].state].path
          && issued[t].content.address == states[issued[t].state].address)
    && (forall s, t :: s in states && t in states[s].tokens ==> t in issued && issued[t].state == s)
  }

  /** An authenticated object stands for the one descriptor issued with it. */
  ghost predicate AuthenticatorsOk(authenticators: map<Id, nat>, issued: map<nat, Issued>, used: set<Id>) {
    && (forall o :: o in authenticators ==>
          o in used && authenticators[o] in issued && issued[authenticators[o]].authenticator == o)
    && (forall t :: t in issued ==> issued[t].authenticator in used)
    && (forall t, u :: t in issued && u in issued && t != u ==> issued[t].authenticator != issued[u].authenticator)
  }

  predicate WithinLimit(issued: map<nat, Issued>, tokens: set<nat>, c: Capability) {
    |Outstanding(issued, tokens, c)| <= MAX_OUTSTANDING
  }

  ghost predicate LimitsOk(issued: map<nat, Issued>, states: map<Id, Environment>) {
    forall s, c :: s in states ==> WithinLimit(issued, states[s].tokens, c)
  }

  // ----------------------------------------------------------------- tables

  /** Dropping a descriptor also drops its token from its environment's list. */
  function Unlisted(states: map<Id, Environment>, s: Id, t: nat): map<Id, Environment>
    requires s in states
  {
    states[s := states[s].(tokens := states[s].tokens - {t})]
  }

  lemma GenerationsUnlisted(states: map<Id, Environment>, s: Id, t: nat)
    requires s in states
    ensures Generations(Unlisted(states, s, t)) == Generations(states)
  {
    var a, b := Generations(Unlisted(states, s, t)), Generations(states);
    forall g ensures g in a <==> g in b {
      if g in b {
        var r :| r in states && states[r].generation == g && g != 0;
        assert Unlisted(states, s, t)[r].generation == g;
      }
    }
  }

  lemma OutstandingShrinks(issued: map<nat, Issued>, tokens: set<nat>, fewer: set<nat>, t: nat, c: Capability)
    requires fewer <= tokens
    ensures Outstanding(issued - {t}, fewer, c) <= Outstanding(issued, tokens, c)
    ensures |Outstanding(issued - {t}, fewer, c)| <= |Outstanding(issued, tokens, c)|
  {
    SmallerSet(Outstanding(issued - {t}, fewer, c), Outstanding(issued, tokens, c));
  }

  lemma {:induction false} SmallerSet(a: set<nat>, b: set<nat>)
    requires a <= b
    ensures |a| <= |b|
  {
    assert |b| == |a| + |b - a| by { assert b == a + (b - a); }
  }

  /** Removing a descriptor keeps every table in step. */
  lemma RemoveKeeps(live: set<nat>, issued: map<nat, Issued>, authenticators: map<Id, nat>, used: set<Id>,
                    states: map<Id, Environment>, t: nat)
    requires TokensOk(live, issued, states) && OwnersOk(issued, states) && LimitsOk(issued, states)
    requires AuthenticatorsOk(authenticators, issued, used) && t in issued
    ensures var i := issued[t];
      && i.state in states
      && TokensOk(live - {t}, issued - {t}, Unlisted(states, i.state, t))
      && OwnersOk(issued - {t}, Unlisted(states, i.state, t)) && LimitsOk(issued - {t}, Unlisted(states, i.state, t))
      && AuthenticatorsOk(authenticators - {i.authenticator}, issued - {t}, used)
  {
    hide TokensOk, OwnersOk, LimitsOk, AuthenticatorsOk, Unlisted;
    RemoveOwners(issued, states, t);
    RemoveTokens(live, issued, states, t);
    RemoveLimits(issued, states, t);
    RemoveAuthenticator(authenticators, issued, used, t);
  }

  lemma RemoveAuthenticator(authenticators: map<Id, nat>, issued: map<nat, Issued>, used: set<Id>, t: nat)
    requires AuthenticatorsOk(authenticators, issued, used) && t in issued
    ensures AuthenticatorsOk(authenticators - {issued[t].authenticator}, issued - {t}, used)
  {}

  lemma OneAuthenticator(authenticators: map<Id, nat>, issued: map<nat, Issued>, used: set<Id>, t: nat)
    requires AuthenticatorsOk(authenticators, issued, used) && t in issued
    ensures forall o :: o in authenticators ==> (authenticators[o] == t <==> o == issued[t].authenticator)
  {}

  lemma RemoveTokens(live: set<nat>, issued: map<nat, Issued>, states: map<Id, Environment>, t: nat)
    requires TokensOk(live, issued, states) && t in issued && issued[t].state in states
    ensures TokensOk(live - {t}, issued - {t}, Unlisted(states, issued[t].state, t))
  {
    GenerationsUnlisted(states, issued[t].state, t);
    assert t !in Generations(states);
    hide Generations;
  }

  lemma RemoveOwners(issued: map<nat, Issued>, states: map<Id, Environment>, t: nat)
    requires OwnersOk(issued, states) && t in issued
    ensures issued[t].state in states && OwnersOk(issued - {t}, Unlisted(states, issued[t].state, t))
  {}

  lemma RemoveLimits(issued: map<nat, Issued>, states: map<Id, Environment>, t: nat)
    requires LimitsOk(issued, states) && t in issued && issued[t].state in states
    ensures LimitsOk(issued - {t}, Unlisted(states, issued[t].state, t))
  {
    var after := Unlisted(states, issued[t].state, t);
    forall s, c | s in after ensures WithinLimit(issued - {t}, after[s].tokens, c) {
      assert WithinLimit(issued, states[s].tokens, c);
      OutstandingShrinks(issued, states[s].tokens, after[s].tokens, t, c);
    }
  }

  // ------------------------------------------------------------ new entries

  lemma IssueTokens(live: set<nat>, issued: map<nat, Issued>, states: map<Id, Environment>, s: Id, t: nat, i: Issued)
    requires TokensOk(live, issued, states) && s in states && t !in live && 0 < t <= MAX_SAFE_INTEGER
    ensures TokensOk(live + {t}, issued[t := i], states[s := states[s].(tokens := states[s].tokens + {t})])
  {
    var after := states[s := states[s].(tokens := states[s].tokens + {t})];
    SameGenerations(states, after);
    assert issued[t := i].Keys == issued.Keys + {t};
    GenerationListed(states);
    hide Generations;
  }

  lemma GenerationListed(states: map<Id, Environment>)
    ensures forall s :: s in states && states[s].generation != 0 ==> states[s].generation in Generations(states)
  {}

  lemma SameGenerations(a: map<Id, Environment>, b: map<Id, Environment>)
    requires a.Keys == b.Keys && forall s :: s in a ==> a[s].generation == b[s].generation
    ensures Generations(a) == Generations(b)
  {
    forall g ensures g in Generations(a) <==> g in Generations(b) {
      if g in Generations(a) {
        var r :| r in a && a[r].generation == g && g != 0;
        assert b[r].generation == g;
      }
      if g in Generations(b) {
        var r :| r in b && b[r].generation == g && g != 0;
        assert a[r].generation == g;
      }
    }
  }

  lemma ForeignToken(issued: map<nat, Issued>, states: map<Id, Environment>, t: nat)
    requires OwnersOk(issued, states) && t !in issued
    ensures forall s :: s in states ==> t !in states[s].tokens
  {}

  lemma OutstandingIssued(issued: map<nat, Issued>, tokens: set<nat>, t: nat, i: Issued, c: Capability)
    requires t !in tokens
    ensures Outstanding(issued[t := i], tokens, c) == Outstanding(issued, tokens, c)
    ensures Outstanding(issued[t := i], tokens + {t}, c)
         == Outstanding(issued, tokens, c) + if c == i.content.capability then {t} else {}
  {}

  lemma IssueLimits(issued: map<nat, Issued>, states: map<Id, Environment>, s: Id, t: nat, i: Issued)
    requires LimitsOk(issued, states) && s in states && t !in issued && OwnersOk(issued, states)
    requires |Outstanding(issued, states[s].tokens, i.content.capability)| < MAX_OUTSTANDING
    ensures LimitsOk(issued[t := i], states[s := states[s].(tokens := states[s].tokens + {t})])
  {
    hide OwnersOk, Outstanding;
    var after := states[s := states[s].(tokens := states[s].tokens + {t})];
    ForeignToken(issued, states, t);
    var more := issued[t := i];
    forall r, c | r in after ensures WithinLimit(more, after[r].tokens, c) {
      assert WithinLimit(issued, states[r].tokens, c);
      OutstandingIssued(issued, states[r].tokens, t, i, c);
    }
  }

  lemma IssueKeeps(live: set<nat>, issued: map<nat, Issued>, authenticators: map<Id, nat>, used: set<Id>,
                   states: map<Id, Environment>, s: Id, t: nat, i: Issued)
    requires TokensOk(live, issued, states) && OwnersOk(issued, states) && LimitsOk(issued, states)
    requires AuthenticatorsOk(authenticators, issued, used) && i.authenticator !in used
    requires s in states && t !in live && 0 < t <= MAX_SAFE_INTEGER && !states[s].poisoned && states[s].generation != 0
    requires i == Issued(Content(states[s].path, states[s].address, t, i.content.capability), i.authenticator, s,
                         states[s].generation)
    requires |Outstanding(issued, states[s].tokens, i.content.capability)| < MAX_OUTSTANDING
    ensures var after := states[s := states[s].(tokens := states[s].tokens + {t})];
      TokensOk(live + {t}, issued[t := i], after) && OwnersOk(issued[t := i], after) && LimitsOk(issued[t := i], after)
      && AuthenticatorsOk(authenticators[i.authenticator := t], issued[t := i], used + {i.authenticator})
  {
    hide TokensOk, LimitsOk, OwnersOk, Outstanding, AuthenticatorsOk;
    NotIssued(live, issued, states, t);
    IssueTokens(live, issued, states, s, t, i);
    IssueLimits(issued, states, s, t, i);
    IssueOwners(issued, states, s, t, i);
    IssueAuthenticator(authenticators, issued, used, t, i);
  }

  lemma IssueOwners(issued: map<nat, Issued>, states: map<Id, Environment>, s: Id, t: nat, i: Issued)
    requires OwnersOk(issued, states) && s in states && t !in issued && !states[s].poisoned && states[s].generation != 0
    requires i == Issued(Content(states[s].path, states[s].address, t, i.content.capability), i.authenticator, s,
                         states[s].generation)
    ensures OwnersOk(issued[t := i], states[s := states[s].(tokens := states[s].tokens + {t})])
  {}

  lemma IssueAuthenticator(authenticators: map<Id, nat>, issued: map<nat, Issued>, used: set<Id>, t: nat, i: Issued)
    requires AuthenticatorsOk(authenticators, issued, used) && i.authenticator !in used && t !in issued
    ensures AuthenticatorsOk(authenticators[i.authenticator := t], issued[t := i], used + {i.authenticator})
  {}

  /** An environment without descriptors takes generation `g`, or none when `g` is 0. */
  lemma RegenerateKeeps(live: set<nat>, issued: map<nat, Issued>, states: map<Id, Environment>, s: Id, e: Environment)
    requires TokensOk(live, issued, states) && OwnersOk(issued, states) && LimitsOk(issued, states)
    requires s in states && states[s].tokens == {} && e.tokens == {} && e.generation <= MAX_SAFE_INTEGER
    requires e.generation != 0 ==> e.generation !in live - {states[s].generation}
    ensures var after := live - {states[s].generation} + if e.generation == 0 then {} else {e.generation};
      TokensOk(after, issued, states[s := e]) && OwnersOk(issued, states[s := e]) && LimitsOk(issued, states[s := e])
  {
    RegenerateTokens(live, issued, states, s, e);
    EmptyWithinLimit(issued);
    hide TokensOk, WithinLimit;
  }

  lemma RegenerateTokens(live: set<nat>, issued: map<nat, Issued>, states: map<Id, Environment>, s: Id, e: Environment)
    requires TokensOk(live, issued, states) && s in states && e.generation <= MAX_SAFE_INTEGER
    requires e.generation != 0 ==> e.generation !in live - {states[s].generation}
    ensures TokensOk(live - {states[s].generation} + (if e.generation == 0 then {} else {e.generation}), issued,
                     states[s := e])
  {
    var after := states[s := e];
    var was, g' := states[s].generation, e.generation;
    GenerationListed(states);
    forall g ensures g in Generations(after) <==> g in Generations(states) - {was} + (if g' == 0 then {} else {g'}) {
      if g in Generations(states) - {was} {
        var r :| r in states && states[r].generation == g && g != 0;
        assert after[r].generation == g;
      }
      if g == g' && g != 0 { assert after[s].generation == g; }
    }
    assert Generations(after) == Generations(states) - {was} + if g' == 0 then {} else {g'};
    hide Generations;
  }

  class DescriptorRegistry {
    var live: set<nat>
    var issued: map<nat, Issued>
    var authenticators: map<Id, nat>
    var states: map<Id, Environment>
    var used: set<Id> // the identities of all descriptor objects created so far

    ghost predicate Valid()
      reads this
    {
      && TokensOk(live, issued, states) && OwnersOk(issued, states) && LimitsOk(issued, states)
      && AuthenticatorsOk(authenticators, issued, used)
      && (forall s :: s in states ==>
            (states[s].refCount != 0 ==> states[s].generation != 0)
            && states[s].path != "" && '\0' !in states[s].path && states[s].address > 0)
    }

    constructor ()
      ensures Valid() && live == {} && issued == map[] && authenticators == map[] && states == map[] && used == {}
    {
      live, issued, authenticators, states, used := {}, map[], map[], map[], {};
    }

    /** A newly opened environment with its generation token. */
    method RegisterState(s: Id, path: string, address: int, generation: nat)
      requires Valid() && s !in states && path != "" && '\0' !in path && address > 0
      requires 0 < generation <= MAX_SAFE_INTEGER && generation !in live
      modifies this
      ensures Valid() && states == old(states)[s := Environment(path, address, generation, false, 0, {})]
      ensures live == old(live) + {generation} && issued == old(issued) && authenticators == old(authenticators)
        && used == old(used)
    {
      hide TokensOk, OwnersOk, LimitsOk, AuthenticatorsOk;
      var e := Environment(path, address, generation, false, 0, {});
      RegisterKeeps(live, issued, states, s, e);
      live := live + {generation};
      states := states[s := e];
    }

    method SetRefCount(s: Id, refCount: nat)
      requires Valid() && s in states && (refCount != 0 ==> states[s].generation != 0)
      modifies this`states
      ensures Valid() && states == old(states)[s := old(states)[s].(refCount := refCount)]
    {
      hide TokensOk, OwnersOk, LimitsOk, AuthenticatorsOk;
      RefCountIgnored(live, issued, states, s, refCount);
      states := states[s := states[s].(refCount := refCount)];
    }

    /** `removeIssuedDescriptor`. */
    method RemoveIssued(t: nat)
      requires Valid() && t in issued && issued[t].state in states
      modifies this`live, this`issued, this`authenticators, this`states
      ensures Valid() && live == old(live) - {t} && issued == old(issued) - {t}
      ensures authenticators == old(authenticators) - {old(issued)[t].authenticator}
      ensures forall o :: o in authenticators <==> o in old(authenticators) && old(authenticators)[o] != t
      ensures states == Unlisted(old(states), old(issued)[t].state, t)
    {
      hide TokensOk, OwnersOk, LimitsOk, AuthenticatorsOk;
      RemoveKeeps(live, issued, authenticators, used, states, t);
      OneAuthenticator(authenticators, issued, used, t);
      var i := issued[t];
      issued := issued - {t};
      authenticators := authenticators - {i.authenticator};
      states := Unlisted(states, i.state, t);
      live := live - {t};
    }

    /** Revokes every descriptor of an environment. */
    method RevokeDescriptors(s: Id)
      requires Valid() && s in states
      modifies this`live, this`issued, this`authenticators, this`states
      ensures Valid() && issued == old(issued) - old(states)[s].tokens && live == old(live) - old(states)[s].tokens
      ensures states == old(states)[s := old(states)[s].(tokens := {})]
      ensures forall o :: o in authenticators <==>
        o in old(authenticators) && old(authenticators)[o] !in old(states)[s].tokens
    {
      hide TokensOk, LimitsOk, OwnersOk, AuthenticatorsOk;
      var all := states[s].tokens;
      var todo := all;
      assert issued - (all - todo) == issued && live - (all - todo) == live
          && states[s := states[s].(tokens := todo)] == states;
      while todo != {}
        invariant Valid() && todo <= all
        invariant issued == old(issued) - (all - todo) && live == old(live) - (all - todo)
        invariant states == old(states)[s := old(states)[s].(tokens := todo)]
        invariant forall o :: o in authenticators <==> o in old(authenticators) && old(authenticators)[o] !in all - todo
        invariant forall o :: o in authenticators ==> authenticators[o] == old(authenticators)[o]
        decreases todo
      {
        var t :| t in todo;
        ListedIsIssued(issued, states, s, t);
        RemoveIssued(t);
        assert all - (todo - {t}) == (all - todo) + {t};
        todo := todo - {t};
      }
      assert all - {} == all;
    }

    /** Poisoning revokes everything issued so far and takes generation `token`. */
    method Poison(s: Id, token: nat)
      requires Valid() && s in states && 0 < token <= MAX_SAFE_INTEGER
      requires token !in live - states[s].tokens - {states[s].generation}
      modifies this`live, this`issued, this`authenticators, this`states
      ensures Valid() && s in states && states[s].poisoned && states[s].tokens == {}
      ensures authenticators.Keys <= old(authenticators).Keys
      ensures forall t :: t in issued <==> t in old(issued) && old(issued)[t].state != s
      ensures states == old(states)[
        s := old(states)[s].(poisoned := true, tokens := {},
                             generation := if old(states)[s].poisoned then old(states)[s].generation else token)]
    {
      hide TokensOk, LimitsOk, AuthenticatorsOk;
      RevokeDescriptors(s);
      if states[s].poisoned {
        return;
      }
      RegenerateKeeps(live, issued, states, s, states[s].(poisoned := true, generation := token));
      live := live - {states[s].generation} + {token};
      states := states[s := states[s].(poisoned := true, generation := token)];
    }

    /** The end of an environment: its descriptors and its own token go. */
    method Retire(s: Id)
      requires Valid() && s in states && states[s].refCount == 0
      modifies this`live, this`issued, this`authenticators, this`states
      ensures Valid() && s in states && states[s].generation == 0
      ensures old(states)[s].generation != 0 ==>
        states == old(states)[s := old(states)[s].(tokens := {}, generation := 0)]
      ensures authenticators.Keys <= old(authenticators).Keys
      ensures old(states)[s].generation != 0 ==> states[s].tokens == {} && forall t :: t in issued ==>
        issued[t].state != s
      ensures old(states)[s].generation == 0 ==> states == old(states) && live == old(live) && issued == old(issued)
    {
      hide TokensOk, LimitsOk, AuthenticatorsOk;
      if states[s].generation == 0 {
        return;
      }
      RevokeDescriptors(s);
      RegenerateKeeps(live, issued, states, s, states[s].(generation := 0));
      live := live - {states[s].generation};
      states := states[s := states[s].(generation := 0)];
      assert live + {} == live;
    }

    /** A descriptor object is garbage collected; the descriptor stays outstanding. */
    method Collect(o: Id)
      requires Valid()
      modifies this`authenticators
      ensures Valid() && authenticators == old(authenticators) - {o}
    {
      hide TokensOk, OwnersOk, LimitsOk;
      authenticators := authenticators - {o};
    }

    method CountOutstanding(s: Id, capability: Capability) returns (n: nat)
      requires s in states
      ensures n == |Outstanding(issued, states[s].tokens, capability)|
    {
      n := 0;
      var tokens := states[s].tokens;
      var todo := tokens;
      assert Outstanding(issued, tokens - todo, capability) == {};
      while todo != {}
        invariant todo <= tokens && n == |Outstanding(issued, tokens - todo, capability)|
        decreases todo
      {
        var t :| t in todo;
        var before := Outstanding(issued, tokens - todo, capability);
        if t in issued && issued[t].content.capability == capability {
          assert Outstanding(issued, tokens - (todo - {t}), capability) == before + {t};
          n := n + 1;
        } else {
          assert Outstanding(issued, tokens - (todo - {t}), capability) == before;
        }
        todo := todo - {t};
      }
      assert tokens - {} == tokens;
    }

    /** `getEnvironmentDescriptor`: `o` is the new descriptor object, `t` its fresh token. */
    method Issue(s: Id, capability: Capability, o: Id, t: nat) returns (r: Option<Content>)
      requires Valid() && s in states && o !in used && t !in live && 0 < t <= MAX_SAFE_INTEGER
      modifies this
      ensures Valid()
      ensures r.Some? <==> (capability.Read? || capability.Batch?)
                           && old(states)[s].refCount != 0 && !old(states)[s].poisoned
                           && |Outstanding(old(issued), old(states)[s].tokens, capability)| < MAX_OUTSTANDING
      ensures r.Some? ==>
        && r.value == Content(old(states)[s].path, old(states)[s].address, t, capability)
        && issued == old(issued)[t := Issued(r.value, o, s, old(states)[s].generation)] && live == old(live) + {t}
        && authenticators == old(authenticators)[o := t]
        && states == old(states)[s := old(states)[s].(tokens := old(states)[s].tokens + {t})] && used == old(used) + {o}
      ensures r.None? ==> issued == old(issued) && live == old(live) && authenticators == old(authenticators)
                          && states == old(states) && used == old(used)
    {
      hide TokensOk, LimitsOk, OwnersOk, AuthenticatorsOk, Outstanding;
      if !KnownCapability(capability) || states[s].refCount == 0 || states[s].poisoned {
        return None;
      }
      var outstanding := CountOutstanding(s, capability);
      if outstanding >= MAX_OUTSTANDING {
        return None;
      }
      var content := Content(states[s].path, states[s].address, t, capability);
      var i := Issued(content, o, s, states[s].generation);
      IssueKeeps(live, issued, authenticators, used, states, s, t, i);
      issued := issued[t := i];
      authenticators := authenticators[o := t];
      states := states[s := states[s].(tokens := states[s].tokens + {t})];
      live := live + {t};
      used := used + {o};
      return Some(content);
    }

    /**
     `validateEnvironmentDescriptor`.  An authenticated descriptor is used up
     whatever the answer; anything else, such as a clone, uses up nothing.  The
     staleness checks come down to whether the environment still has a wrapper.
     */
    method Validate(o: Id, content: Content, capability: Capability) returns (ok: bool)
      requires Valid()
      modifies this`live, this`issued, this`authenticators, this`states
      ensures Valid() && o !in authenticators
      ensures o !in old(authenticators) ==>
        !ok && live == old(live) && issued == old(issued) && authenticators == old(authenticators)
        && states == old(states)
      ensures o in old(authenticators) ==>
        var t := old(authenticators)[o];
        && t in old(issued) && old(issued)[t].state in old(states)
        && issued == old(issued) - {t} && live == old(live) - {t} && authenticators == old(authenticators) - {o}
        && states == Unlisted(old(states), old(issued)[t].state, t)
        && (ok <==> content == old(issued)[t].content && capability == content.capability
                    && (capability.Read? || capability.Batch?)
                    && old(states)[old(issued)[t].state].refCount != 0)
    {
      hide TokensOk, LimitsOk;
      if o !in authenticators {
        return false;
      }
      var t := authenticators[o];
      var i := issued[t];
      RemoveIssued(t);
      if !KnownCapability(capability) {
        return false;
      }
      if !WellShaped(content) {
        Shaped(old(live), old(issued), old(states), t);
        return false;
      }
      if i.content.path != content.path || i.content.address != content.address
          || i.content.generation != content.generation
         || i.content.capability != content.capability || i.content.capability != capability {
        return false;
      }
      var s := states[i.state];
      return !(s.poisoned || s.refCount == 0 || s.generation != i.stateGeneration || s.address != content.address);
    }
  }

  /** What is issued passes the shape check, whatever its capability. */
  lemma Shaped(live: set<nat>, issued: map<nat, Issued>, states: map<Id, Environment>, t: nat)
    requires TokensOk(live, issued, states) && OwnersOk(issued, states) && t in issued && issued[t].state in states
    requires states[issued[t].state].path != "" && '\0' !in states[issued[t].state].path
      && states[issued[t].state].address > 0
    ensures KnownCapability(issued[t].content.capability) ==> WellShaped(issued[t].content)
  {
    assert t in live;
    hide Generations;
  }

  lemma NotIssued(live: set<nat>, issued: map<nat, Issued>, states: map<Id, Environment>, t: nat)
    requires TokensOk(live, issued, states) && t !in live
    ensures t !in issued
  {
    hide Generations;
  }

  lemma RegisterTokens(live: set<nat>, issued: map<nat, Issued>, states: map<Id, Environment>, s: Id, e: Environment)
    requires TokensOk(live, issued, states) && s !in states && 0 < e.generation <= MAX_SAFE_INTEGER
      && e.generation !in live
    ensures TokensOk(live + {e.generation}, issued, states[s := e])
  {
    var after := states[s := e];
    GenerationListed(states);
    forall g ensures g in Generations(after) <==> g in Generations(states) + {e.generation} {
      if g in Generations(states) {
        var r :| r in states && states[r].generation == g && g != 0;
        assert after[r].generation == g;
      }
      if g == e.generation { assert after[s].generation == g; }
    }
    assert Generations(after) == Generations(states) + {e.generation};
    hide Generations;
  }

  lemma RegisterKeeps(live: set<nat>, issued: map<nat, Issued>, states: map<Id, Environment>, s: Id, e: Environment)
    requires TokensOk(live, issued, states) && OwnersOk(issued, states) && LimitsOk(issued, states)
    requires s !in states && e.tokens == {} && 0 < e.generation <= MAX_SAFE_INTEGER && e.generation !in live
    ensures TokensOk(live + {e.generation}, issued, states[s := e]) && OwnersOk(issued, states[s := e])
    ensures LimitsOk(issued, states[s := e])
  {
    RegisterTokens(live, issued, states, s, e);
    hide TokensOk;
    EmptyWithinLimit(issued);
    hide WithinLimit;
  }

  lemma EmptyWithinLimit(issued: map<nat, Issued>)
    ensures forall c :: WithinLimit(issued, {}, c)
  {
    forall c ensures WithinLimit(issued, {}, c) { assert Outstanding(issued, {}, c) == {}; }
  }

  lemma RefCountTokens(live: set<nat>, issued: map<nat, Issued>, states: map<Id, Environment>, s: Id, n: nat)
    requires TokensOk(live, issued, states) && s in states
    ensures TokensOk(live, issued, states[s := states[s].(refCount := n)])
  {
    SameGenerations(states, states[s := states[s].(refCount := n)]);
    hide Generations;
  }

  lemma RefCountIgnored(live: set<nat>, issued: map<nat, Issued>, states: map<Id, Environment>, s: Id, n: nat)
    requires TokensOk(live, issued, states) && OwnersOk(issued, states) && LimitsOk(issued, states) && s in states
    ensures var after := states[s := states[s].(refCount := n)];
      TokensOk(live, issued, after) && OwnersOk(issued, after) && LimitsOk(issued, after)
  {
    RefCountTokens(live, issued, states, s, n);
    hide TokensOk, WithinLimit;
  }

  lemma ListedIsIssued(issued: map<nat, Issued>, states: map<Id, Environment>, s: Id, t: nat)
    requires OwnersOk(issued, states) && s in states && t in states[s].tokens
    ensures t in issued && issued[t].state == s
  {}

  // -------------------------------------------------------------------- runs

  datatype Call =
    | OnRegister(s: Id, path: string, address: int, generation: nat)
    | OnRefCount(s: Id, refCount: nat)
    | OnIssue(s: Id, capability: Capability, o: Id, t: nat)
    | OnValidate(o: Id, content: Content, capability: Capability)
    | OnPoison(s: Id, token: nat)
    | OnRetire(s: Id)
    | OnCollect(o: Id)

  /** New objects are new, and tokens drawn are not in use. */
  predicate Permitted(e: DescriptorRegistry, call: Call)
    reads e
  {
    match call
    case OnRegister(s, path, address, generation) =>
      s !in e.states && path != "" && '\0' !in path && address > 0 && 0 < generation <= MAX_SAFE_INTEGER
      && generation !in e.live
    case OnRefCount(s, refCount) => s in e.states && (refCount != 0 ==> e.states[s].generation != 0)
    case OnIssue(s, _, o, t) => s in e.states && o !in e.used && t !in e.live && 0 < t <= MAX_SAFE_INTEGER
    case OnPoison(s, token) =>
      s in e.states && 0 < token <= MAX_SAFE_INTEGER && token !in e.live - e.states[s].tokens - {e.states[s].generation}
    case OnRetire(s) => s in e.states && e.states[s].refCount == 0
    case _ => true
  }

  /** One call; a validation that succeeds is recorded with its object. */
  method Perform(e: DescriptorRegistry, call: Call, accepted: seq<Id>) returns (accepted': seq<Id>)
    requires e.Valid() && Permitted(e, call)
    requires forall i :: 0 <= i < |accepted| ==> accepted[i] in e.used && accepted[i] !in e.authenticators
    modifies e
    ensures e.Valid()
    ensures forall i :: 0 <= i < |accepted'| ==> accepted'[i] in e.used && accepted'[i] !in e.authenticators
    ensures accepted' == accepted || exists o :: accepted' == accepted + [o] && o in old(e.authenticators)
  {
    hide TokensOk, OwnersOk, LimitsOk;
    accepted' := accepted;
    match call {
      case OnRegister(s, path, address, generation) => e.RegisterState(s, path, address, generation);
      case OnRefCount(s, refCount) => e.SetRefCount(s, refCount);
      case OnIssue(s, capability, o, t) => var _ := e.Issue(s, capability, o, t);
      case OnValidate(o, content, capability) =>
        var ok := e.Validate(o, content, capability);
        if ok {
          accepted' := accepted + [o];
        }
      case OnPoison(s, token) => e.Poison(s, token);
      case OnRetire(s) => e.Retire(s);
      case OnCollect(o) => e.Collect(o);
    }
  }

  /**
   Over any run each descriptor object validates at most once, and the live tokens
   are the outstanding descriptors and the environments not retired.
   */
  method Run(e: DescriptorRegistry, calls: seq<Call>) returns (accepted: seq<Id>)
    requires e.Valid()
    modifies e
    ensures e.Valid() && e.live == e.issued.Keys + Generations(e.states)
    ensures forall i, j :: 0 <= i < j < |accepted| ==> accepted[i] != accepted[j]
  {
    hide TokensOk, OwnersOk, LimitsOk, Permitted;
    accepted := [];
    for k := 0 to |calls|
      invariant e.Valid()
      invariant forall i :: 0 <= i < |accepted| ==> accepted[i] in e.used && accepted[i] !in e.authenticators
      invariant forall i, j :: 0 <= i < j < |accepted| ==> accepted[i] != accepted[j]
    {
      if Permitted(e, calls[k]) {
        accepted := Perform(e, calls[k], accepted);
      }
    }
    LiveTokens(e.live, e.issued, e.states);
  }

  lemma LiveTokens(live: set<nat>, issued: map<nat, Issued>, states: map<Id, Environment>)
    requires TokensOk(live, issued, states)
    ensures live == issued.Keys + Generations(states)
  {}
}
