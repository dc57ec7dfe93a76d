/** The order router (server/routes/orderRoutes.js): five endpoints, each a
    chain of middleware (`protect`, then possibly `admin`) in front of a
    controller function. Dispatch follows Express: routes are tried in the
    order they were registered, the first whose method and path match takes
    the request, and a middleware that refuses ends the chain. The
    controllers and the middleware bodies are not part of this model:
    `protect` is taken to pass exactly the signed-in callers and `admin`
    exactly those whose role is "admin". */
module OrderRoutes {
  import opened Wrappers
  import opened Paths

  datatype Verb = Get | Post | Put | Delete

  datatype Guard = Protect | Admin

  datatype Handler = CreateOrder | GetOrders | GetMyOrders | GetOrder | UpdateOrderToDelivered

  datatype Route = Route(pattern: seq<Segment>, verb: Verb, guards: seq<Guard>, handler: Handler)

  /** The routes in registration order; paths are relative to the router's
      mount point and already split at '/'. */
  const Table: seq<Route> := [
    Route([], Post, [Protect], CreateOrder),
    Route([], Get, [Protect, Admin], GetOrders),
    Route([Lit("myorders")], Get, [Protect], GetMyOrders),
    Route([Param("id")], Get, [Protect], GetOrder),
    Route([Param("id"), Lit("deliver")], Put, [Protect, Admin], UpdateOrderToDelivered)
  ]

  datatype Caller = Anonymous | SignedIn(role: string)

  predicate Passes(g: Guard, caller: Caller) {
    match g
    case Protect => caller.SignedIn?
    case Admin => caller.SignedIn? && caller.role == "admin"
  }

  /** The first middleware of the chain that refuses the caller, if any. */
  function FirstRefusal(guards: seq<Guard>, caller: Caller): (r: Option<Guard>)
    ensures r.None? <==> forall k | 0 <= k < |guards| :: Passes(guards[k], caller)
    ensures r.Some? ==> r.value in guards && !Passes(r.value, caller)
    ensures r.Some? ==> exists k | 0 <= k < |guards| ::
      && guards[k] == r.value && !Passes(guards[k], caller)
      && forall j | 0 <= j < k :: Passes(guards[j], caller)
  {
    if guards == [] then None
    else if !Passes(guards[0], caller) then Some(guards[0])
    else
      var r := FirstRefusal(guards[1..], caller);
      assert r.Some? ==> exists k | 0 <= k < |guards| ::
        && guards[k] == r.value && !Passes(guards[k], caller)
        && forall j | 0 <= j < k :: Passes(guards[j], caller) by {
        if r.Some? {
          var k :| 0 <= k < |guards[1..]| && guards[1..][k] == r.value && !Passes(guards[1..][k], caller)
            && forall j | 0 <= j < k :: Passes(guards[1..][j], caller);
          assert guards[k + 1] == guards[1..][k];
          forall j | 0 <= j < k + 1 ensures Passes(guards[j], caller) {
            if j > 0 { assert guards[j] == guards[1..][j - 1]; }
          }
        }
      }
      r
  }

  datatype Decision =
    | Reached(handler: Handler, id: Option<string>)  // the controller runs with `req.params.id`
    | Refused(guard: Guard)                          // a middleware answered instead
    | NoRoute                                       // the router passes the request on

  /** What a matching route does with the request: its first refusing
      middleware answers, or else its controller runs. */
  function RouteDecision(r: Route, path: seq<string>, caller: Caller): (d: Decision)
    requires Matches(r.pattern, path)
    ensures d.Reached? ==> d.handler == r.handler && forall j | 0 <= j < |r.guards| :: Passes(r.guards[j], caller)
    ensures d.Refused? ==> FirstRefusal(r.guards, caller) == Some(d.guard)
    ensures !d.NoRoute?
  {
    match FirstRefusal(r.guards, caller)
    case Some(g) => Refused(g)
    case None => Reached(r.handler, Bound(r.pattern, path, "id"))
  }

  /** The first route registered for the verb whose pattern matches handles
      the request. */
  function Dispatch(table: seq<Route>, verb: Verb, path: seq<string>, caller: Caller): Decision {
    if table == [] then NoRoute
    else if table[0].verb == verb && Matches(table[0].pattern, path) then RouteDecision(table[0], path, caller)
    else Dispatch(table[1..], verb, path, caller)
  }

  /** Dispatch answers with the decision of the first route registered
      for the verb whose pattern matches, and with `NoRoute` exactly when no
      route matches. */
  lemma {:induction false} DispatchFirstMatch(table: seq<Route>, verb: Verb, path: seq<string>, caller: Caller)
    ensures Dispatch(table, verb, path, caller).NoRoute? <==>
      forall k | 0 <= k < |table| :: !(table[k].verb == verb && Matches(table[k].pattern, path))
    ensures !Dispatch(table, verb, path, caller).NoRoute? ==> exists k | 0 <= k < |table| ::
      && table[k].verb == verb && Matches(table[k].pattern, path)
      && Dispatch(table, verb, path, caller) == RouteDecision(table[k], path, caller)
      && forall j | 0 <= j < k :: !(table[j].verb == verb && Matches(table[j].pattern, path))
  {
    if table != [] && !(table[0].verb == verb && Matches(table[0].pattern, path)) {
      DispatchFirstMatch(table[1..], verb, path, caller);
      assert forall k | 1 <= k < |table| :: table[k] == table[1..][k - 1];
      if !Dispatch(table, verb, path, caller).NoRoute? {
        var k :| 0 <= k < |table[1..]| && table[1..][k].verb == verb && Matches(table[1..][k].pattern, path)
          && Dispatch(table, verb, path, caller) == RouteDecision(table[1..][k], path, caller)
          && forall j | 0 <= j < k :: !(table[1..][j].verb == verb && Matches(table[1..][j].pattern, path));
        assert table[k + 1] == table[1..][k];
        forall j | 0 <= j < k + 1 ensures !(table[j].verb == verb && Matches(table[j].pattern, path)) {
          if j > 0 { assert table[j] == table[1..][j - 1]; }
        }
      }
    }
  }

  /** A request reaches a controller only through a route registered for it
      whose every middleware let the caller through; a refusal comes from a
      middleware of a matching route; no route means none matches. */
  lemma DispatchSound(table: seq<Route>, verb: Verb, path: seq<string>, caller: Caller)
    ensures Dispatch(table, verb, path, caller).Reached? ==> exists k | 0 <= k < |table| ::
      && table[k].handler == Dispatch(table, verb, path, caller).handler && table[k].verb == verb
      && Matches(table[k].pattern, path)
      && forall j | 0 <= j < |table[k].guards| :: Passes(table[k].guards[j], caller)
    ensures Dispatch(table, verb, path, caller).Refused? ==> exists k | 0 <= k < |table| ::
      && table[k].verb == verb && Matches(table[k].pattern, path)
      && FirstRefusal(table[k].guards, caller) == Some(Dispatch(table, verb, path, caller).guard)
    ensures Dispatch(table, verb, path, caller).NoRoute? <==>
      forall k | 0 <= k < |table| :: !(table[k].verb == verb && Matches(table[k].pattern, path))
  {
    DispatchFirstMatch(table, verb, path, caller);
    var d := Dispatch(table, verb, path, caller);
    if !d.NoRoute? {
      var k :| 0 <= k < |table| && table[k].verb == verb && Matches(table[k].pattern, path)
        && d == RouteDecision(table[k], path, caller);
    }
  }

  /** The handlers that, by design, only administrators may reach. */
  predicate AdminOnly(h: Handler) {
    h == GetOrders || h == UpdateOrderToDelivered
  }

  /** Every route begins with `protect`, and the admin-only handlers also
      carry `admin`. */
  lemma TableGuarded()
    ensures forall k | 0 <= k < |Table| :: |Table[k].guards| > 0 && Table[k].guards[0] == Protect
    ensures forall k | 0 <= k < |Table| :: AdminOnly(Table[k].handler) ==> Admin in Table[k].guards
  {
  }

  /** Whatever the method and path, a controller runs only for a signed-in
      caller, and an admin-only one only for an administrator. */
  lemma ReachedNeedsRole(verb: Verb, path: seq<string>, caller: Caller)
    ensures var d := Dispatch(Table, verb, path, caller);
      d.Reached? ==> caller.SignedIn? && (AdminOnly(d.handler) ==> caller.role == "admin")
  {
    DispatchSound(Table, verb, path, caller);
    TableGuarded();
    var d := Dispatch(Table, verb, path, caller);
    if d.Reached? {
      var k :| 0 <= k < |Table| && Table[k].handler == d.handler && Table[k].verb == verb
        && Matches(Table[k].pattern, path)
        && forall j | 0 <= j < |Table[k].guards| :: Passes(Table[k].guards[j], caller);
      assert Passes(Table[k].guards[0], caller);
      if AdminOnly(d.handler) {
        var j :| 0 <= j < |Table[k].guards| && Table[k].guards[j] == Admin;
        assert Passes(Table[k].guards[j], caller);
      }
    }
  }

  /** An anonymous caller reaches no order controller: any request that
      matches a route is refused by `protect`. */
  lemma AnonymousRefused(verb: Verb, path: seq<string>)
    ensures var d := Dispatch(Table, verb, path, Anonymous);
      !d.Reached? && (d.Refused? ==> d.guard == Protect)
  {
    ReachedNeedsRole(verb, path, Anonymous);
    DispatchSound(Table, verb, path, Anonymous);
    TableGuarded();
    var d := Dispatch(Table, verb, path, Anonymous);
    if d.Refused? {
      var k :| 0 <= k < |Table| && Table[k].verb == verb && Matches(Table[k].pattern, path)
        && FirstRefusal(Table[k].guards, Anonymous) == Some(d.guard);
      assert !Passes(Table[k].guards[0], Anonymous);
    }
  }

  /** The two middleware chains of the table, run on a caller. */
  lemma Chains(caller: Caller)
    ensures FirstRefusal([Protect], caller) == if caller.SignedIn? then None else Some(Protect)
    ensures FirstRefusal([Protect, Admin], caller) ==
      if caller.Anonymous? then Some(Protect)
      else if caller.role != "admin" then Some(Admin)
      else None
  {
    assert [Protect, Admin][1..] == [Admin];
    assert [Admin][1..] == [];
  }

  /** POST / creates an order for any signed-in caller. */
  lemma CreateNeedsSignInOnly(caller: Caller)
    ensures Dispatch(Table, Post, [], caller) ==
      if caller.SignedIn? then Reached(CreateOrder, None) else Refused(Protect)
  {
    Chains(caller);
  }

  /** GET / lists all orders: `protect` first, then `admin`. */
  lemma ListAllNeedsAdmin(caller: Caller)
    ensures Dispatch(Table, Get, [], caller) ==
      if caller.Anonymous? then Refused(Protect)
      else if caller.role != "admin" then Refused(Admin)
      else Reached(GetOrders, None)
  {
    assert Dispatch(Table, Get, [], caller) == Dispatch(Table[1..], Get, [], caller);
    Chains(caller);
  }

  /** GET /myorders is the caller's own list: registered before `/:id`, it
      is never read as an order id. */
  lemma MyOrdersIsNotAnId(caller: Caller)
    ensures Dispatch(Table, Get, ["myorders"], caller) ==
      if caller.SignedIn? then Reached(GetMyOrders, None) else Refused(Protect)
  {
    var path := ["myorders"];
    assert Dispatch(Table, Get, path, caller) == Dispatch(Table[1..], Get, path, caller);
    assert Dispatch(Table[1..], Get, path, caller) == Dispatch(Table[2..], Get, path, caller);
    assert Matches(Table[2].pattern, path);
  }

  /** GET /:id needs only a signed-in caller at the routing layer; any
      further check belongs to the controller. */
  lemma GetOneNeedsSignInOnly(id: string, caller: Caller)
    requires id != "" && id != "myorders"
    ensures Dispatch(Table, Get, [id], caller) ==
      if caller.SignedIn? then Reached(GetOrder, Some(id)) else Refused(Protect)
  {
    var path := [id];
    assert Dispatch(Table, Get, path, caller) == Dispatch(Table[1..], Get, path, caller);
    assert Dispatch(Table[1..], Get, path, caller) == Dispatch(Table[2..], Get, path, caller);
    assert !SegmentMatches(Table[2].pattern[0], path[0]);
    assert Dispatch(Table[2..], Get, path, caller) == Dispatch(Table[3..], Get, path, caller);
    assert Matches(Table[3].pattern, path);
  }

  /** PUT /:id/deliver needs an administrator, whatever the id. */
  lemma DeliverNeedsAdmin(id: string, caller: Caller)
    requires id != ""
    ensures Dispatch(Table, Put, [id, "deliver"], caller) ==
      if caller.Anonymous? then Refused(Protect)
      else if caller.role != "admin" then Refused(Admin)
      else Reached(UpdateOrderToDelivered, Some(id))
  {
    var path := [id, "deliver"];
    assert Dispatch(Table, Put, path, caller) == Dispatch(Table[1..], Put, path, caller);
    assert Dispatch(Table[1..], Put, path, caller) == Dispatch(Table[2..], Put, path, caller);
    assert Dispatch(Table[2..], Put, path, caller) == Dispatch(Table[3..], Put, path, caller);
    assert Dispatch(Table[3..], Put, path, caller) == Dispatch(Table[4..], Put, path, caller);
    assert Matches(Table[4].pattern, path);
    Chains(caller);
  }
}
