/**
 Which targets really leave through a proxy, and which target Global mode selects
 (routing.rs). The depth-first search over the possibly cyclic group graph is
 proved to compute a least fixed point.
 */
module Routing {
  import opened Text
  import opened Wrappers

  datatype Kind = Direct | Reject | RejectDrop | Group | Concrete

  /** One route entry. Selector, Fallback, UrlTest, LoadBalance and Relay are groups. */
  datatype Proxy = Proxy(kind: Kind, current: Option<string>, members: Option<seq<string>>)

  type Tunnel = map<string, Proxy>

  const GLOBAL := "GLOBAL"
  const DIRECT := "DIRECT"

  predicate BuiltIn(target: string) {
    Upper(target) == "DIRECT" || Upper(target) == "REJECT" || Upper(target) == "REJECT-DROP"
  }

  // ------------------------------------------------------ the fixed point

  /** One unfolding of "routes through a proxy", given which targets are already known to. */
  ghost predicate Unfold(t: Tunnel, x: string, known: string -> bool) {
    && !BuiltIn(x)
    && (x in t ==>
          match t[x].kind
          case Concrete => true
          case Group =>
            if t[x].current.Some? then known(t[x].current.value)
            else t[x].members.Some? && t[x].members.value != []
                 && forall i :: 0 <= i < |t[x].members.value| ==> known(t[x].members.value[i])
          case _ => false)
  }

  /** Known to route after n unfoldings. */
  ghost predicate Derivable(t: Tunnel, x: string, n: nat)
    decreases n
  {
    n > 0 && Unfold(t, x, y => Derivable(t, y, n - 1))
  }

  /** The least fixed point of Unfold. */
  ghost predicate LeavesThroughProxy(t: Tunnel, x: string) {
    exists n: nat :: Derivable(t, x, n)
  }

  lemma {:induction false} DerivableGrows(t: Tunnel, x: string, n: nat)
    requires Derivable(t, x, n)
    ensures Derivable(t, x, n + 1)
    decreases n
  {
    forall y | Derivable(t, y, n - 1) ensures Derivable(t, y, n) {
      DerivableGrows(t, y, n - 1);
    }
    UnfoldMonotone(t, x, y => Derivable(t, y, n - 1), y => Derivable(t, y, n));
  }

  lemma UnfoldMonotone(t: Tunnel, x: string, p: string -> bool, q: string -> bool)
    requires Unfold(t, x, p) && forall y :: p(y) ==> q(y)
    ensures Unfold(t, x, q)
  {
  }

  lemma {:induction false} DerivableFrom(t: Tunnel, x: string, n: nat, m: nat)
    requires Derivable(t, x, n) && n <= m
    ensures Derivable(t, x, m)
    decreases m
  {
    if n < m {
      DerivableFrom(t, x, n, m - 1);
      DerivableGrows(t, x, m - 1);
    }
  }

  lemma {:induction false} CommonDepth(t: Tunnel, xs: seq<string>) returns (n: nat)
    requires forall i :: 0 <= i < |xs| ==> LeavesThroughProxy(t, xs[i])
    ensures forall i :: 0 <= i < |xs| ==> Derivable(t, xs[i], n)
  {
    if xs == [] {
      n := 0;
    } else {
      var rest := CommonDepth(t, xs[1..]);
      var first: nat :| Derivable(t, xs[0], first);
      n := rest + first;
      DerivableFrom(t, xs[0], first, n);
      forall i | 0 < i < |xs| ensures Derivable(t, xs[i], n) {
        assert xs[i] == xs[1..][i - 1];
        DerivableFrom(t, xs[i], rest, n);
      }
    }
  }

  /** It is a fixed point. */
  lemma IsFixedPoint(t: Tunnel, x: string)
    ensures LeavesThroughProxy(t, x) <==> Unfold(t, x, y => LeavesThroughProxy(t, y))
  {
    if LeavesThroughProxy(t, x) {
      var n: nat :| Derivable(t, x, n);
      UnfoldMonotone(t, x, y => Derivable(t, y, n - 1), y => LeavesThroughProxy(t, y));
    }
    if Unfold(t, x, y => LeavesThroughProxy(t, y)) {
      var n: nat := 0;
      if x in t && t[x].kind.Group? {
        n := CommonDepth(t, if t[x].current.Some? then [t[x].current.value] else t[x].members.value);
        assert t[x].current.Some? ==> [t[x].current.value][0] == t[x].current.value;
      }
      assert Derivable(t, x, n + 1);
    }
  }

  /** It is below every set of targets that is closed under unfolding. */
  lemma {:induction false} IsLeast(t: Tunnel, closed: string -> bool, x: string, n: nat)
    requires forall y :: Unfold(t, y, closed) ==> closed(y)
    requires Derivable(t, x, n)
    ensures closed(x)
    decreases n
  {
    forall y | Derivable(t, y, n - 1) ensures closed(y) {
      IsLeast(t, closed, y, n - 1);
    }
    UnfoldMonotone(t, x, y => Derivable(t, y, n - 1), closed);
  }

  // ------------------------------------------------------------ the search

  /** target_routes_through_proxy, with the names on the current path. */
  predicate Routes(t: Tunnel, x: string, visiting: set<string>)
    decreases |t.Keys - visiting|
  {
    if BuiltIn(x) || x in visiting then false
    else if x !in t then true
    else
      match t[x].kind
      case Concrete => true
      case Group =>
        PathShrinks(t, x, visiting);
        if t[x].current.Some? then Routes(t, t[x].current.value, visiting + {x})
        else t[x].members.Some? && t[x].members.value != []
             && forall i :: 0 <= i < |t[x].members.value| ==> Routes(t, t[x].members.value[i], visiting + {x})
      case _ => false
  }

  lemma PathShrinks(t: Tunnel, x: string, visiting: set<string>)
    requires x in t && x !in visiting
    ensures |t.Keys - (visiting + {x})| < |t.Keys - visiting|
  {
    var rest := t.Keys - (visiting + {x});
    assert t.Keys - visiting == rest + {x} && x !in rest;
  }

  /** Whatever the search accepts is derivable, whatever it was already visiting. */
  lemma {:induction false} SearchIsSound(t: Tunnel, x: string, visiting: set<string>)
    requires Routes(t, x, visiting)
    ensures LeavesThroughProxy(t, x)
    decreases |t.Keys - visiting|
  {
    if x in t && t[x].kind.Group? {
      PathShrinks(t, x, visiting);
      if t[x].current.Some? {
        SearchIsSound(t, t[x].current.value, visiting + {x});
      } else {
        forall i | 0 <= i < |t[x].members.value| ensures LeavesThroughProxy(t, t[x].members.value[i]) {
          SearchIsSound(t, t[x].members.value[i], visiting + {x});
        }
      }
    }
    IsFixedPoint(t, x);
  }

  /** The search finds everything derivable in n unfoldings while none of the visited names is. */
  lemma {:induction false} SearchIsComplete(t: Tunnel, x: string, n: nat, visiting: set<string>)
    requires Derivable(t, x, n) && forall v :: v in visiting ==> !Derivable(t, v, n)
    ensures Routes(t, x, visiting)
    decreases n
  {
    forall v | v in visiting ensures !Derivable(t, v, n - 1) {
      if Derivable(t, v, n - 1) {
        DerivableGrows(t, v, n - 1);
      }
    }
    if Derivable(t, x, n - 1) {
      SearchIsComplete(t, x, n - 1, visiting);
    } else if x in t && t[x].kind.Group? {
      if t[x].current.Some? {
        SearchIsComplete(t, t[x].current.value, n - 1, visiting + {x});
      } else {
        forall i | 0 <= i < |t[x].members.value| ensures Routes(t, t[x].members.value[i], visiting + {x}) {
          SearchIsComplete(t, t[x].members.value[i], n - 1, visiting + {x});
        }
      }
    }
  }

  /** From an empty path the depth-first search decides exactly the least fixed point. */
  lemma SearchIsLeastFixedPoint(t: Tunnel, x: string)
    ensures Routes(t, x, {}) <==> LeavesThroughProxy(t, x)
  {
    if Routes(t, x, {}) {
      SearchIsSound(t, x, {});
    }
    if LeavesThroughProxy(t, x) {
      var n: nat :| Derivable(t, x, n);
      SearchIsComplete(t, x, n, {});
    }
  }

  /** The built-in outbounds, in any spelling. */
  lemma BuiltInLaw(x: string)
    ensures BuiltIn(x) <==> EqFold(x, "DIRECT") || EqFold(x, "REJECT") || EqFold(x, "REJECT-DROP")
  {
    UpperIs("DIRECT", x);
    UpperIs("REJECT", x);
    UpperIs("REJECT-DROP", x);
    hide Upper, EqFold;
  }

  predicate Leaves(t: Tunnel, x: string) { Routes(t, x, {}) }

  /**
   Which targets route, case by case: a built-in name never; a name the tunnel does
   not list, and a concrete proxy, always; a group exactly when the member it is
   set to does, or, set to none, when it has members and all of them do.
   */
  lemma RoutesByCase(t: Tunnel, x: string)
    ensures EqFold(x, "DIRECT") || EqFold(x, "REJECT") || EqFold(x, "REJECT-DROP") ==> !Leaves(t, x)
    ensures !EqFold(x, "DIRECT") && !EqFold(x, "REJECT") && !EqFold(x, "REJECT-DROP") ==>
              && (x !in t ==> Leaves(t, x))
              && (x in t && t[x].kind == Concrete ==> Leaves(t, x))
              && (x in t && t[x].kind != Concrete && t[x].kind != Group ==> !Leaves(t, x))
              && (x in t && t[x].kind == Group && t[x].current.Some? ==> (Leaves(t, x) <==> Leaves(t, t[x].current.value)))
              && (x in t && t[x].kind == Group && t[x].current.None? ==>
                    (Leaves(t, x) <==> t[x].members.Some? && t[x].members.value != []
                                       && forall i :: 0 <= i < |t[x].members.value| ==> Leaves(t, t[x].members.value[i])))
  {
    BuiltInLaw(x);
    forall y ensures Leaves(t, y) <==> LeavesThroughProxy(t, y) {
      SearchIsLeastFixedPoint(t, y);
    }
    IsFixedPoint(t, x);
    hide EqFold, Routes, BuiltIn, LeavesThroughProxy;
  }

  /** Not on a longer path: visiting names can hide a derivable target. */
  lemma PathsCanHideTargets()
    ensures exists t: Tunnel, x, visiting: set<string> :: LeavesThroughProxy(t, x) && !Routes(t, x, visiting)
  {
    assert BuiltIn("node") == false by {
      assert Upper("node")[0] == 'N';
    }
    assert Derivable(map[], "node", 1);
    assert LeavesThroughProxy(map[], "node") && !Routes(map[], "node", {"node"});
  }

  // -------------------------------------------------- Global mode selection

  datatype GlobalError = NoGlobal | NoProxyNode | NoDirect | BadTarget | NotSelectable | NotResolved

  predicate IsConcrete(t: Tunnel, x: string) {
    x in t ==> t[x].kind.Concrete?
  }

  predicate ValidTarget(t: Tunnel, members: seq<string>, x: string) {
    x in members && IsConcrete(t, x) && Routes(t, x, {})
  }

  /** A concrete target routes unless it carries a built-in name, whatever else the tunnel holds. */
  lemma ConcreteRoutes(t: Tunnel, x: string, visiting: set<string>)
    requires IsConcrete(t, x) && x !in visiting
    ensures Routes(t, x, visiting) <==> !BuiltIn(x)
  {
  }

  /** A valid target is a member that is no group and no built-in outbound, by kind or by name. */
  lemma ValidMeans(t: Tunnel, members: seq<string>, x: string)
    ensures ValidTarget(t, members, x) <==>
              && x in members && (x in t ==> t[x].kind == Concrete)
              && !EqFold(x, "DIRECT") && !EqFold(x, "REJECT") && !EqFold(x, "REJECT-DROP")
  {
    if IsConcrete(t, x) {
      ConcreteRoutes(t, x, {});
    }
    BuiltInLaw(x);
    hide EqFold, BuiltIn, Routes;
  }

  /** The target ensure_global_proxy_selected settles on. */
  function Choice(t: Tunnel, members: seq<string>, current: Option<string>, required: Option<string>): Result<string,
      GlobalError> {
    match required
    case Some(x) =>
      if x == DIRECT then if DIRECT in members then Ok(DIRECT) else Err(NoDirect)
      else if ValidTarget(t, members, x) then Ok(x) else Err(BadTarget)
    case None =>
      if current.Some? && ValidTarget(t, members, current.value) then Ok(current.value)
      else if DIRECT in members then Ok(DIRECT)
      else FirstValid(t, members, members)
  }

  /** x is the first of these names that is a concrete routed member. */
  predicate FirstOf(t: Tunnel, members: seq<string>, names: seq<string>, x: string) {
    exists i :: 0 <= i < |names| && names[i] == x && ValidTarget(t, members, x)
                && forall j :: 0 <= j < i ==> !ValidTarget(t, members, names[j])
  }

  function FirstValid(t: Tunnel, members: seq<string>, rest: seq<string>): (r: Result<string, GlobalError>)
    ensures r.Ok? ==> r.value in rest && FirstOf(t, members, rest, r.value)
    ensures r.Err? ==> r.error.NoProxyNode? && forall x :: x in rest ==> !ValidTarget(t, members, x)
  {
    if rest == [] then Err(NoProxyNode)
    else if ValidTarget(t, members, rest[0]) then Ok(rest[0])
    else
      var later := FirstValid(t, members, rest[1..]);
      assert later.Ok? ==> forall i :: 0 <= i < |rest[1..]| ==> rest[1..][i] == rest[i + 1];
      later
  }

  lemma DirectIsNeverValid(t: Tunnel, members: seq<string>)
    ensures !ValidTarget(t, members, DIRECT)
  {
    assert Upper(DIRECT) == DIRECT;
  }

  /**
   Which choice is made, and when there is none. A required target is taken or
   refused as it is; a valid current one is kept; else DIRECT whenever it is a
   member, even beside concrete proxy nodes; else the first concrete proxy that
   routes.
   */
  lemma ChoiceIff(t: Tunnel, members: seq<string>, current: Option<string>, required: Option<string>)
    ensures var r := Choice(t, members, current, required);
            && (required.Some? ==>
                  r == if required.value == "DIRECT" then (if "DIRECT" in members then Ok("DIRECT") else Err(NoDirect))
                       else if ValidTarget(t, members, required.value) then Ok(required.value) else Err(BadTarget))
            && (required.None? ==>
                  (r.Ok? <==> "DIRECT" in members || exists x :: x in members && ValidTarget(t, members, x))
                  && (r.Err? ==> r.error == NoProxyNode)
                  && (r == Ok("DIRECT") <==>
                        "DIRECT" in members && !(current.Some? && ValidTarget(t, members, current.value)))
                  && (current.Some? && ValidTarget(t, members, current.value) ==> r == Ok(current.value))
                  && (r.Ok? && "DIRECT" !in members && !(current.Some? && ValidTarget(t, members, current.value)) ==>
                        FirstOf(t, members, members, r.value)))
            && (r.Ok? ==> r.value in members && (r.value == "DIRECT" || ValidTarget(t, members, r.value)))
  {
    DirectIsNeverValid(t, members);
  }

  /** A selected DIRECT does not mean that there was nothing else. */
  lemma DirectShadowsNodes()
    ensures Choice(map[], [DIRECT, "node"], None, None) == Ok(DIRECT)
    ensures ValidTarget(map[], [DIRECT, "node"], "node")
  {
    assert Upper("node")[0] == 'N';
  }

  class Router {
    var tunnel: Tunnel
    /** Whether GLOBAL has a selection to force. */
    const selectable: bool
    /** What GLOBAL resolves to after a name is forced on it. */
    const settles: string -> Option<string>
    var visiting: set<string>

    constructor (t: Tunnel, canSelect: bool, forced: string -> Option<string>)
      ensures tunnel == t && selectable == canSelect && settles == forced && visiting == {}
    {
      tunnel, selectable, settles, visiting := t, canSelect, forced, {};
    }

    /** target_routes_through_proxy: the path set is restored on every return. */
    method RoutesThroughProxy(target: string) returns (routes: bool)
      modifies this`visiting
      ensures visiting == old(visiting)
      ensures routes == Routes(tunnel, target, visiting)
      decreases |tunnel.Keys - visiting|
    {
      if BuiltIn(target) || target in visiting {
        return false;
      }
      ghost var path := visiting;
      visiting := visiting + {target};
      if target !in tunnel {
        routes := true;
      } else {
        PathShrinks(tunnel, target, path);
        match tunnel[target].kind {
          case Concrete => routes := true;
          case Group =>
            if tunnel[target].current.Some? {
              routes := RoutesThroughProxy(tunnel[target].current.value);
            } else if tunnel[target].members.Some? {
              var members := tunnel[target].members.value;
              routes := members != [];
              var i := 0;
              while routes && i < |members|
                invariant 0 <= i <= |members| && visiting == path + {target}
                invariant routes ==> forall k :: 0 <= k < i ==> Routes(tunnel, members[k], path + {target})
                invariant !routes ==> members == []
                                      || exists k :: 0 <= k < |members| && !Routes(tunnel, members[k], path + {target})
                invariant routes ==> members != []
              {
                routes := RoutesThroughProxy(members[i]);
                i := i + 1;
              }
            } else {
              routes := false;
            }
          case _ => routes := false;
        }
      }
      visiting := visiting - {target};
      assert visiting == path;
    }

    method IsValidTarget(members: seq<string>, target: string) returns (valid: bool)
      requires visiting == {}
      modifies this`visiting
      ensures visiting == {} && valid == ValidTarget(tunnel, members, target)
    {
      valid := target in members && IsConcrete(tunnel, target);
      if valid {
        valid := RoutesThroughProxy(target);
      }
    }

    /** ensure_global_proxy_selected; None is a GLOBAL without members that routes by itself. */
    method EnsureGlobalProxySelected(required: Option<string>) returns (r: Result<Option<string>, GlobalError>)
      requires visiting == {}
      modifies this`visiting, this`tunnel
      ensures visiting == {}
      ensures old(GLOBAL !in tunnel) ==> r == Err(NoGlobal)
      ensures old(GLOBAL in tunnel && tunnel[GLOBAL].members.None?) ==>
                r == if Routes(old(tunnel), GLOBAL, {}) then Ok(None) else Err(NoProxyNode)
      ensures old(GLOBAL in tunnel && tunnel[GLOBAL].members.Some?) ==>
                var g := old(tunnel)[GLOBAL];
                var choice := Choice(old(tunnel), g.members.value, g.current, required);
                if choice.Err? then r == Err(choice.error)
                else if g.current == Some(choice.value) then r == Ok(Some(choice.value))
                else if !selectable then r == Err(NotSelectable)
                else r == (if settles(choice.value) == Some(choice.value) then Ok(Some(choice.value)) else Err(NotResolved))
                     && tunnel == old(tunnel)[GLOBAL := g.(current := settles(choice.value))]
      ensures r.Ok? && r.value.Some? ==>
                && GLOBAL in tunnel && tunnel == old(tunnel)[GLOBAL := old(tunnel)[GLOBAL].(current := r.value)]
                && tunnel[GLOBAL].members.Some? && r.value.value in tunnel[GLOBAL].members.value
                && (r.value.value == DIRECT || (IsConcrete(tunnel, r.value.value) && Routes(tunnel, r.value.value, {})))
      ensures r == Ok(None) || (r.Err? && r != Err(NotResolved)) ==> tunnel == old(tunnel)
    {
      if GLOBAL !in tunnel {
        return Err(NoGlobal);
      }
      var global := tunnel[GLOBAL];
      if global.members.None? {
        var routes := RoutesThroughProxy(GLOBAL);
        return if routes then Ok(None) else Err(NoProxyNode);
      }
      var members := global.members.value;
      var target: string;
      var keep := false;
      if required.None? && global.current.Some? {
        keep := IsValidTarget(members, global.current.value);
      }
      if required.Some? {
        target := required.value;
        if target == DIRECT {
          if DIRECT !in members {
            return Err(NoDirect);
          }
        } else {
          var valid := IsValidTarget(members, target);
          if !valid {
            return Err(BadTarget);
          }
        }
      } else if keep {
        target := global.current.value;
      } else if DIRECT in members {
        target := DIRECT;
      } else {
        var found := FindValid(members);
        if found.Err? {
          return Err(found.error);
        }
        target := found.value;
      }
      ChoiceIff(tunnel, members, global.current, required);
      if global.current != Some(target) {
        if !selectable {
          return Err(NotSelectable);
        }
        tunnel := tunnel[GLOBAL := global.(current := settles(target))];
      }
      if tunnel[GLOBAL].current != Some(target) {
        return Err(NotResolved);
      }
      if target != DIRECT {
        ConcreteRoutes(old(tunnel), target, {});
        ConcreteRoutes(tunnel, target, {});
      }
      assert old(tunnel)[GLOBAL := global] == old(tunnel);
      return Ok(Some(target));
    }

    method FindValid(members: seq<string>) returns (r: Result<string, GlobalError>)
      requires visiting == {}
      modifies this`visiting
      ensures visiting == {} && r == FirstValid(tunnel, members, members)
    {
      for i := 0 to |members|
        invariant visiting == {}
        invariant FirstValid(tunnel, members, members) == FirstValid(tunnel, members, members[i..])
      {
        var valid := IsValidTarget(members, members[i]);
        if valid {
          return Ok(members[i]);
        }
        assert members[i..][1..] == members[i + 1..];
      }
      return Err(NoProxyNode);
    }
  }
}
