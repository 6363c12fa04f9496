/** Connections and cloud route bindings of the users, and the models they are offered. */
module UserRoutes {
  import opened Basics

  type Owner = string
  type RecipeId = string

  datatype Role = Smart | Fast

  datatype Connection = Connection(owner: Owner, id: string, recipes: seq<RecipeId>)
  datatype Binding = Binding(owner: Owner, role: Role, recipe: RecipeId)

  datatype Recipe = Recipe(id: RecipeId, modelId: string, chat: bool)

  /** The recipes the host knows, and the one behind the default route. */
  datatype Catalogue = Catalogue(recipes: map<RecipeId, Recipe>, default: Option<RecipeId>)

  datatype RouteError = OwnerMismatch | RecipeNotFound | NotChat | RouteNotFound

  datatype Settings = Settings(connections: seq<Connection>, bindings: seq<Binding>)

  // ----- filters -----

  function Keep<T(!new)>(items: seq<T>, p: T -> bool): (kept: seq<T>)
    ensures forall x :: x in kept <==> x in items && p(x)
    ensures |kept| <= |items|
  {
    if items == [] then []
    else if p(items[0]) then [items[0]] + Keep(items[1..], p)
    else Keep(items[1..], p)
  }

  predicate OwnerOf(c: Connection, owner: Owner, id: string) {
    c.owner == owner && c.id == id
  }

  /** The recipes an owner's connections offer. */
  function RecipesOf(connections: seq<Connection>, owner: Owner): set<RecipeId> {
    set c, r | c in connections && c.owner == owner && r in c.recipes :: r
  }

  function Find(connections: seq<Connection>, owner: Owner, id: string): (found: Option<Connection>)
    ensures found.None? <==> forall c :: c in connections ==> !OwnerOf(c, owner, id)
    ensures found.Some? ==> found.value in connections && OwnerOf(found.value, owner, id)
  {
    if connections == [] then None
    else if OwnerOf(connections[0], owner, id) then Some(connections[0])
    else Find(connections[1..], owner, id)
  }

  // ----- the four changes -----

  function Replaced(s: Settings, owner: Owner, connection: Connection): Settings {
    if connection.owner != owner then s
    else
      var next := Keep(s.connections, (c: Connection) => !OwnerOf(c, owner, connection.id)) + [connection];
      var offered := RecipesOf(next, owner);
      Settings(next, Keep(s.bindings, (b: Binding) => b.owner != owner || b.recipe in offered))
  }

  function Removed(s: Settings, owner: Owner, id: string): Settings {
    var found := Find(s.connections, owner, id);
    if found.None? then s
    else
      Settings(Keep(s.connections, (c: Connection) => !OwnerOf(c, owner, id)),
               Keep(s.bindings, (b: Binding) => b.owner != owner || b.recipe !in found.value.recipes))
  }

  function Unbound(bindings: seq<Binding>, owner: Owner, role: Role): seq<Binding> {
    Keep(bindings, (b: Binding) => b.owner != owner || b.role != role)
  }

  function AssignError(s: Settings, catalogue: Catalogue, owner: Owner, recipe: RecipeId): Option<RouteError> {
    if recipe !in catalogue.recipes then Some(RecipeNotFound)
    else if !catalogue.recipes[recipe].chat then Some(NotChat)
    else if recipe !in RecipesOf(s.connections, owner) then Some(RecipeNotFound)
    else None
  }

  function Assigned(s: Settings, catalogue: Catalogue, owner: Owner, role: Role, recipe: RecipeId): Settings {
    if AssignError(s, catalogue, owner, recipe).Some? then s
    else s.(bindings := Unbound(s.bindings, owner, role) + [Binding(owner, role, recipe)])
  }

  function Cleared(s: Settings, owner: Owner, role: Role): Settings {
    s.(bindings := Unbound(s.bindings, owner, role))
  }

  datatype Op =
    | Replace(owner: Owner, connection: Connection)
    | Remove(owner: Owner, id: string)
    | Assign(catalogue: Catalogue, owner: Owner, role: Role, recipe: RecipeId)
    | Clear(owner: Owner, role: Role)

  function Apply(s: Settings, op: Op): Settings {
    match op
    case Replace(owner, connection) => Replaced(s, owner, connection)
    case Remove(owner, id) => Removed(s, owner, id)
    case Assign(catalogue, owner, role, recipe) => Assigned(s, catalogue, owner, role, recipe)
    case Clear(owner, role) => Cleared(s, owner, role)
  }

  function Run(s: Settings, ops: seq<Op>): Settings
    decreases |ops|
  {
    if ops == [] then s else Run(Apply(s, ops[0]), ops[1..])
  }

  // ----- what holds after every run -----

  ghost predicate OneConnection(connections: seq<Connection>) {
    forall i, j :: 0 <= i < j < |connections| ==> !(connections[i].owner == connections[j].owner && connections[i].id == connections[j].id)
  }

  ghost predicate OneBinding(bindings: seq<Binding>) {
    forall i, j :: 0 <= i < j < |bindings| ==> !(bindings[i].owner == bindings[j].owner && bindings[i].role == bindings[j].role)
  }

  /** One connection per owner and id, one binding per owner and role, and every binding's recipe
      in a connection of its owner. */
  ghost predicate Consistent(s: Settings) {
    && OneConnection(s.connections)
    && OneBinding(s.bindings)
    && forall b :: b in s.bindings ==> b.recipe in RecipesOf(s.connections, b.owner)
  }

  lemma {:induction false} KeepOneConnection(connections: seq<Connection>, p: Connection -> bool)
    requires OneConnection(connections)
    ensures OneConnection(Keep(connections, p))
  {
    if connections != [] {
      KeepOneConnection(connections[1..], p);
      var kept := Keep(connections[1..], p);
      forall j | 0 <= j < |kept|
        ensures !(connections[0].owner == kept[j].owner && connections[0].id == kept[j].id)
      {
        assert kept[j] in kept;
        var k :| 0 <= k < |connections[1..]| && connections[1..][k] == kept[j];
        assert connections[k + 1] == kept[j];
      }
    }
  }

  lemma {:induction false} KeepOneBinding(bindings: seq<Binding>, p: Binding -> bool)
    requires OneBinding(bindings)
    ensures OneBinding(Keep(bindings, p))
  {
    if bindings != [] {
      KeepOneBinding(bindings[1..], p);
      var kept := Keep(bindings[1..], p);
      forall j | 0 <= j < |kept|
        ensures !(bindings[0].owner == kept[j].owner && bindings[0].role == kept[j].role)
      {
        assert kept[j] in kept;
        var k :| 0 <= k < |bindings[1..]| && bindings[1..][k] == kept[j];
        assert bindings[k + 1] == kept[j];
      }
    }
  }

  lemma ReplacedConsistent(s: Settings, owner: Owner, connection: Connection)
    requires Consistent(s)
    ensures Consistent(Replaced(s, owner, connection))
  {
    if connection.owner == owner {
      var others := Keep(s.connections, (c: Connection) => !OwnerOf(c, owner, connection.id));
      var next := Replaced(s, owner, connection);
      KeepOneConnection(s.connections, (c: Connection) => !OwnerOf(c, owner, connection.id));
      forall i | 0 <= i < |others|
        ensures !(others[i].owner == owner && others[i].id == connection.id)
      {
        assert others[i] in others;
      }
      var offered := RecipesOf(others + [connection], owner);
      KeepOneBinding(s.bindings, (b: Binding) => b.owner != owner || b.recipe in offered);
      forall b | b in next.bindings
        ensures b.recipe in RecipesOf(next.connections, b.owner)
      {
        if b.owner != owner {
          var c :| c in s.connections && c.owner == b.owner && b.recipe in c.recipes;
          assert c in others && c in next.connections;
        }
      }
    }
  }

  lemma RemovedConsistent(s: Settings, owner: Owner, id: string)
    requires Consistent(s)
    ensures Consistent(Removed(s, owner, id))
  {
    var found := Find(s.connections, owner, id);
    if found.Some? {
      var next := Removed(s, owner, id);
      KeepOneConnection(s.connections, (c: Connection) => !OwnerOf(c, owner, id));
      KeepOneBinding(s.bindings, (b: Binding) => b.owner != owner || b.recipe !in found.value.recipes);
      forall b | b in next.bindings
        ensures b.recipe in RecipesOf(next.connections, b.owner)
      {
        var c :| c in s.connections && c.owner == b.owner && b.recipe in c.recipes;
        if OwnerOf(c, owner, id) {
          SameConnection(s.connections, c, found.value);
        }
        assert c in next.connections;
      }
    }
  }

  lemma SameConnection(connections: seq<Connection>, a: Connection, b: Connection)
    requires OneConnection(connections) && a in connections && b in connections && a.owner == b.owner && a.id == b.id
    ensures a == b
  {
    var i :| 0 <= i < |connections| && connections[i] == a;
    var j :| 0 <= j < |connections| && connections[j] == b;
  }

  lemma UnboundConsistent(s: Settings, owner: Owner, role: Role)
    requires Consistent(s)
    ensures Consistent(Cleared(s, owner, role))
  {
    KeepOneBinding(s.bindings, (b: Binding) => b.owner != owner || b.role != role);
  }

  lemma AssignedConsistent(s: Settings, catalogue: Catalogue, owner: Owner, role: Role, recipe: RecipeId)
    requires Consistent(s)
    ensures Consistent(Assigned(s, catalogue, owner, role, recipe))
  {
    UnboundConsistent(s, owner, role);
    var others := Unbound(s.bindings, owner, role);
    forall i | 0 <= i < |others|
      ensures !(others[i].owner == owner && others[i].role == role)
    {
      assert others[i] in others;
    }
  }

  /** Every run of changes, from settings that are consistent, keeps them so. */
  lemma {:induction false} RunsStayConsistent(s: Settings, ops: seq<Op>)
    requires Consistent(s)
    ensures Consistent(Run(s, ops))
    decreases |ops|
  {
    if ops != [] {
      var op := ops[0];
      match op {
        case Replace(owner, connection) => ReplacedConsistent(s, owner, connection);
        case Remove(owner, id) => RemovedConsistent(s, owner, id);
        case Assign(catalogue, owner, role, recipe) => AssignedConsistent(s, catalogue, owner, role, recipe);
        case Clear(owner, role) => UnboundConsistent(s, owner, role);
      }
      hide Consistent;
      RunsStayConsistent(Apply(s, op), ops[1..]);
    }
  }

  // ----- what one change does -----

  /** The binding a role resolves to. */
  function Bound(bindings: seq<Binding>, owner: Owner, role: Role): (recipe: Option<RecipeId>)
    ensures recipe.None? <==> forall b :: b in bindings ==> !(b.owner == owner && b.role == role)
    ensures recipe.Some? ==> Binding(owner, role, recipe.value) in bindings
  {
    if bindings == [] then None
    else if bindings[0].owner == owner && bindings[0].role == role then Some(bindings[0].recipe)
    else Bound(bindings[1..], owner, role)
  }

  lemma BoundIs(bindings: seq<Binding>, b: Binding)
    requires OneBinding(bindings) && b in bindings
    ensures Bound(bindings, b.owner, b.role) == Some(b.recipe)
  {
    var i :| 0 <= i < |bindings| && bindings[i] == b;
    var other := Binding(b.owner, b.role, Bound(bindings, b.owner, b.role).value);
    var j :| 0 <= j < |bindings| && bindings[j] == other;
  }

  /** Filtering bindings acts on what roles resolve to, one by one. */
  lemma BoundKept(bindings: seq<Binding>, p: Binding -> bool, owner: Owner, role: Role)
    requires OneBinding(bindings)
    ensures var before := Bound(bindings, owner, role);
            Bound(Keep(bindings, p), owner, role) ==
            if before.Some? && p(Binding(owner, role, before.value)) then before else None
  {
    KeepOneBinding(bindings, p);
    var before := Bound(bindings, owner, role);
    var after := Bound(Keep(bindings, p), owner, role);
    if after.Some? {
      BoundIs(bindings, Binding(owner, role, after.value));
    }
    if before.Some? && p(Binding(owner, role, before.value)) {
      BoundIs(Keep(bindings, p), Binding(owner, role, before.value));
    }
  }

  lemma {:induction false} BoundAppend(bindings: seq<Binding>, b: Binding, owner: Owner, role: Role)
    ensures var before := Bound(bindings, owner, role);
            Bound(bindings + [b], owner, role) ==
            if before.Some? then before else if b.owner == owner && b.role == role then Some(b.recipe) else None
  {
    if bindings == [] {
      assert bindings + [b] == [b];
    } else {
      assert (bindings + [b])[0] == bindings[0] && (bindings + [b])[1..] == bindings[1..] + [b];
      BoundAppend(bindings[1..], b, owner, role);
    }
  }

  /** Why assigning is refused: a recipe the host does not know, one that is not for chat, or one that
      no connection of the owner offers. */
  lemma AssignRefusedExactly(s: Settings, catalogue: Catalogue, owner: Owner, recipe: RecipeId)
    ensures AssignError(s, catalogue, owner, recipe) ==
            if recipe !in catalogue.recipes then Some(RecipeNotFound)
            else if !catalogue.recipes[recipe].chat then Some(NotChat)
            else if forall c | c in s.connections && c.owner == owner :: recipe !in c.recipes then Some(RecipeNotFound)
            else None
  {
  }

  /** Assigning succeeds exactly for a known chat recipe the owner has, and then changes what that
      role resolves to and nothing else. */
  lemma AssignExactly(s: Settings, catalogue: Catalogue, owner: Owner, role: Role, recipe: RecipeId, who: Owner, which: Role)
    requires Consistent(s)
    ensures var after := Assigned(s, catalogue, owner, role, recipe);
            && after.connections == s.connections
            && (AssignError(s, catalogue, owner, recipe).None? <==>
                  && recipe in catalogue.recipes && catalogue.recipes[recipe].chat
                  && exists c :: c in s.connections && c.owner == owner && recipe in c.recipes)
            && Bound(after.bindings, who, which) ==
               if AssignError(s, catalogue, owner, recipe).None? && who == owner && which == role then Some(recipe)
               else Bound(s.bindings, who, which)
  {
    BoundKept(s.bindings, (b: Binding) => b.owner != owner || b.role != role, who, which);
    BoundAppend(Unbound(s.bindings, owner, role), Binding(owner, role, recipe), who, which);
  }

  lemma ClearExactly(s: Settings, owner: Owner, role: Role, who: Owner, which: Role)
    requires Consistent(s)
    ensures var after := Cleared(s, owner, role);
            && after.connections == s.connections
            && Bound(after.bindings, who, which) == if who == owner && which == role then None else Bound(s.bindings, who, which)
  {
    BoundKept(s.bindings, (b: Binding) => b.owner != owner || b.role != role, who, which);
  }

  /** A replaced connection is there and the others are untouched; of the owner's roles those keep
      their recipe that some connection still offers. */
  lemma ReplaceExactly(s: Settings, owner: Owner, connection: Connection, who: Owner, which: Role, id: string)
    requires Consistent(s) && connection.owner == owner
    ensures var after := Replaced(s, owner, connection);
            var before := Bound(s.bindings, who, which);
            && Find(after.connections, who, id) ==
               (if who == owner && id == connection.id then Some(connection) else Find(s.connections, who, id))
            && Bound(after.bindings, who, which) ==
               if before.Some? && (who != owner || before.value in RecipesOf(after.connections, owner)) then before else None
  {
    var after := Replaced(s, owner, connection);
    var offered := RecipesOf(after.connections, owner);
    BoundKept(s.bindings, (b: Binding) => b.owner != owner || b.recipe in offered, who, which);
    ReplacedConsistent(s, owner, connection);
    FindIs(s.connections, after.connections, connection, who, id);
  }

  lemma FindIs(before: seq<Connection>, after: seq<Connection>, connection: Connection, who: Owner, id: string)
    requires OneConnection(before) && OneConnection(after)
    requires forall c :: c in after <==> c == connection || (c in before && !OwnerOf(c, connection.owner, connection.id))
    ensures Find(after, who, id) ==
            if who == connection.owner && id == connection.id then Some(connection) else Find(before, who, id)
  {
    var a, b := Find(after, who, id), Find(before, who, id);
    if who == connection.owner && id == connection.id {
      assert connection in after && OwnerOf(connection, who, id);
      SameConnection(after, a.value, connection);
    } else {
      if b.Some? {
        assert !OwnerOf(b.value, connection.owner, connection.id);
        assert b.value in after;
      }
      if a.Some? {
        assert a.value != connection;
        SameConnection(before, a.value, b.value);
      }
    }
  }

  /** Removing a connection takes it away and unbinds exactly the owner's roles whose recipe it
      offered, even where another connection of the owner offers the same recipe. */
  lemma RemoveExactly(s: Settings, owner: Owner, id: string, who: Owner, which: Role)
    requires Consistent(s)
    ensures var found := Find(s.connections, owner, id);
            var after := Removed(s, owner, id);
            var before := Bound(s.bindings, who, which);
            && Find(after.connections, owner, id).None?
            && (forall c :: c in after.connections <==> c in s.connections && !OwnerOf(c, owner, id))
            && Bound(after.bindings, who, which) ==
               if before.Some? && found.Some? && who == owner && before.value in found.value.recipes then None else before
  {
    var found := Find(s.connections, owner, id);
    if found.Some? {
      BoundKept(s.bindings, (b: Binding) => b.owner != owner || b.recipe !in found.value.recipes, who, which);
    }
  }

  // ----- no change touches another owner -----

  function OpOwner(op: Op): Owner {
    op.owner
  }

  function ConnectionsOf(s: Settings, owner: Owner): seq<Connection> {
    Keep(s.connections, (c: Connection) => c.owner == owner)
  }

  function BindingsOf(s: Settings, owner: Owner): seq<Binding> {
    Keep(s.bindings, (b: Binding) => b.owner == owner)
  }

  lemma {:induction false} KeepKept<T(!new)>(items: seq<T>, inner: T -> bool, outer: T -> bool)
    requires forall x :: x in items && outer(x) ==> inner(x)
    ensures Keep(Keep(items, inner), outer) == Keep(items, outer)
  {
    if items != [] {
      assert items[0] in items;
      assert forall x :: x in items[1..] ==> x in items;
      KeepKept(items[1..], inner, outer);
      if inner(items[0]) {
        var rest := Keep(items[1..], inner);
        assert ([items[0]] + rest)[1..] == rest;
      }
    }
  }

  lemma {:induction false} KeepAppend<T(!new)>(items: seq<T>, x: T, p: T -> bool)
    ensures Keep(items + [x], p) == Keep(items, p) + if p(x) then [x] else []
  {
    if items == [] {
      assert items + [x] == [x] && [x][1..] == [];
    } else {
      assert (items + [x])[0] == items[0] && (items + [x])[1..] == items[1..] + [x];
      KeepAppend(items[1..], x, p);
    }
  }

  /** A change made for one owner leaves every other owner's connections and bindings as they
      were, in the same order. */
  lemma OthersUntouched(s: Settings, op: Op, other: Owner)
    requires OpOwner(op) != other
    ensures ConnectionsOf(Apply(s, op), other) == ConnectionsOf(s, other)
    ensures BindingsOf(Apply(s, op), other) == BindingsOf(s, other)
  {
    var mine := (c: Connection) => c.owner == other;
    var bound := (b: Binding) => b.owner == other;
    match op {
      case Replace(owner, connection) =>
        if connection.owner == owner {
          var left := (c: Connection) => !OwnerOf(c, owner, connection.id);
          KeepKept(s.connections, left, mine);
          KeepAppend(Keep(s.connections, left), connection, mine);
          var offered := RecipesOf(Keep(s.connections, left) + [connection], owner);
          KeepKept(s.bindings, (b: Binding) => b.owner != owner || b.recipe in offered, bound);
        }
      case Remove(owner, id) =>
        var found := Find(s.connections, owner, id);
        if found.Some? {
          KeepKept(s.connections, (c: Connection) => !OwnerOf(c, owner, id), mine);
          KeepKept(s.bindings, (b: Binding) => b.owner != owner || b.recipe !in found.value.recipes, bound);
        }
      case Assign(catalogue, owner, role, recipe) =>
        KeepKept(s.bindings, (b: Binding) => b.owner != owner || b.role != role, bound);
        KeepAppend(Unbound(s.bindings, owner, role), Binding(owner, role, recipe), bound);
      case Clear(owner, role) =>
        KeepKept(s.bindings, (b: Binding) => b.owner != owner || b.role != role, bound);
    }
  }

  // ----- the models a user is offered -----

  datatype RouteId = DefaultRoute | CloudRoute(role: Role)
  datatype Route = Route(id: RouteId, recipe: RecipeId)
  datatype Model = Model(id: string, route: Route, recipe: Recipe)

  /** The default route, then the fast and smart ones that are bound. */
  function PublicRoutes(s: Settings, catalogue: Catalogue, owner: Owner): Option<seq<Route>> {
    var fast, smart := Bound(s.bindings, owner, Fast), Bound(s.bindings, owner, Smart);
    if catalogue.default.None? then None
    else
      Some([Route(DefaultRoute, catalogue.default.value)]
           + (if fast.Some? then [Route(CloudRoute(Fast), fast.value)] else [])
           + (if smart.Some? then [Route(CloudRoute(Smart), smart.value)] else []))
  }

  /** The host still knows every route's recipe; otherwise resolving them throws. */
  predicate Resolvable(routes: seq<Route>, catalogue: Catalogue) {
    forall r :: r in routes ==> r.recipe in catalogue.recipes
  }

  function ModelIdOf(route: Route, catalogue: Catalogue): string
    requires route.recipe in catalogue.recipes
  {
    Trim(catalogue.recipes[route.recipe].modelId)
  }

  ghost predicate DistinctIds(models: seq<Model>) {
    forall i, j :: 0 <= i < j < |models| ==> models[i].id != models[j].id
  }

  /** A model is the first route with its id, with that route's recipe. */
  ghost predicate IsOffer(m: Model, routes: seq<Route>, catalogue: Catalogue)
    requires Resolvable(routes, catalogue)
  {
    && m.id != "" && m.route in routes && m.recipe == catalogue.recipes[m.route.recipe]
    && m.id == Trim(catalogue.recipes[m.route.recipe].modelId) && FirstWithId(m.route, routes, catalogue)
  }

  ghost predicate HasId(models: seq<Model>, id: string) {
    exists m :: m in models && m.id == id
  }

  /** The listed models are distinct, come from routes, and leave out only blank ids and ids an
      earlier route already gave. */
  ghost predicate Lists(models: seq<Model>, routes: seq<Route>, catalogue: Catalogue)
    requires Resolvable(routes, catalogue)
  {
    && DistinctIds(models)
    && (forall m :: m in models ==> IsOffer(m, routes, catalogue))
    && forall r :: r in routes && Trim(catalogue.recipes[r.recipe].modelId) != "" ==>
         HasId(models, Trim(catalogue.recipes[r.recipe].modelId))
  }

  /** No earlier route has the same model id. */
  ghost predicate FirstWithId(route: Route, routes: seq<Route>, catalogue: Catalogue)
    requires Resolvable(routes, catalogue) && route in routes
  {
    exists k :: 0 <= k < |routes| && routes[k] == route
                && forall i :: 0 <= i < k ==> ModelIdOf(routes[i], catalogue) != ModelIdOf(route, catalogue)
  }

  /** The list as the routes are gone through. */
  function Listed(routes: seq<Route>, catalogue: Catalogue): seq<Model>
    requires Resolvable(routes, catalogue)
  {
    if routes == [] then []
    else
      var route := Last(routes);
      var models := Listed(routes[..|routes| - 1], catalogue);
      var id := ModelIdOf(route, catalogue);
      if id != "" && forall m :: m in models ==> m.id != id then models + [Model(id, route, catalogue.recipes[route.recipe])] else models
  }

  /** What an owner is offered, or why it cannot be listed. */
  datatype Offer = Offered(models: seq<Model>) | Failed(error: RouteError)

  function PublicModels(s: Settings, catalogue: Catalogue, owner: Owner): Offer {
    var routes := PublicRoutes(s, catalogue, owner);
    if routes.None? then Failed(RouteNotFound)
    else if !Resolvable(routes.value, catalogue) then Failed(RecipeNotFound)
    else Offered(Listed(routes.value, catalogue))
  }

  function PublicModel(s: Settings, catalogue: Catalogue, owner: Owner, id: string): Resolved {
    var offer := PublicModels(s, catalogue, owner);
    if offer.Failed? then Unresolved(offer.error)
    else
      var found := Lookup(offer.models, id);
      if found.Some? then Resolved(found.value.route, found.value.recipe) else ResolveRoute(s, catalogue, owner, id)
  }

  function Lookup(models: seq<Model>, id: string): (found: Option<Model>)
    ensures found.None? <==> forall m :: m in models ==> m.id != id
    ensures found.Some? ==> found.value in models && found.value.id == id
  {
    if models == [] then None
    else if models[0].id == id then Some(models[0])
    else Lookup(models[1..], id)
  }

  datatype Resolved = Resolved(route: Route, recipe: Recipe) | Unresolved(error: RouteError)

  function ResolveRoute(s: Settings, catalogue: Catalogue, owner: Owner, name: string): Resolved {
    var role := if name == "smart" then Some(Smart) else if name == "fast" then Some(Fast) else None;
    if name == "default" then
      if catalogue.default.None? then Unresolved(RouteNotFound)
      else RecipeOf(catalogue, Route(DefaultRoute, catalogue.default.value))
    else if role.None? || Bound(s.bindings, owner, role.value).None? then Unresolved(RouteNotFound)
    else RecipeOf(catalogue, Route(CloudRoute(role.value), Bound(s.bindings, owner, role.value).value))
  }

  function RecipeOf(catalogue: Catalogue, route: Route): Resolved {
    if route.recipe in catalogue.recipes then Resolved(route, catalogue.recipes[route.recipe]) else Unresolved(RecipeNotFound)
  }

  /** The owner has bound the role to the recipe. */
  predicate IsBound(s: Settings, owner: Owner, role: Role, recipe: RecipeId) {
    Binding(owner, role, recipe) in s.bindings
  }

  lemma BoundMeans(s: Settings, owner: Owner, role: Role, recipe: RecipeId)
    requires Consistent(s)
    ensures Bound(s.bindings, owner, role) == Some(recipe) <==> IsBound(s, owner, role, recipe)
  {
    if IsBound(s, owner, role, recipe) {
      BoundIs(s.bindings, Binding(owner, role, recipe));
    }
  }

  /** In which order routes are offered. */
  function Place(id: RouteId): nat {
    match id
    case DefaultRoute => 0
    case CloudRoute(role) => if role == Fast then 1 else 2
  }

  /** An owner is offered the default route and the roles it has bound, the fast one before the smart
      one, and nothing if the host has no default. */
  lemma PublicRoutesExactly(s: Settings, catalogue: Catalogue, owner: Owner)
    requires Consistent(s)
    ensures PublicRoutes(s, catalogue, owner).None? <==> catalogue.default.None?
    ensures catalogue.default.Some? ==>
              var routes := PublicRoutes(s, catalogue, owner).value;
              && (forall r: Route ::
                    r in routes <==> if r.id.DefaultRoute? then r.recipe == catalogue.default.value
                                     else IsBound(s, owner, r.id.role, r.recipe))
              && forall i, j :: 0 <= i < j < |routes| ==> Place(routes[i].id) < Place(routes[j].id)
  {
    hide Consistent;
    hide Bound;
    hide IsBound;
    forall role: Role, recipe: RecipeId
      ensures Bound(s.bindings, owner, role) == Some(recipe) <==> IsBound(s, owner, role, recipe)
    {
      BoundMeans(s, owner, role, recipe);
    }
  }

  /** What a name stands for: the host's default, or what the owner has bound for the role. */
  predicate NamesRoute(s: Settings, catalogue: Catalogue, owner: Owner, name: string, route: Route) {
    || (name == "default" && route.id == DefaultRoute && catalogue.default == Some(route.recipe))
    || (name == "smart" && route.id == CloudRoute(Smart) && IsBound(s, owner, Smart, route.recipe))
    || (name == "fast" && route.id == CloudRoute(Fast) && IsBound(s, owner, Fast, route.recipe))
  }

  /** A name resolves to the route it stands for with that route's recipe. If it stands for none, the
      route is not found, and if the host does not know the recipe, that is not. */
  lemma RouteExactly(s: Settings, catalogue: Catalogue, owner: Owner, name: string)
    requires Consistent(s)
    ensures var resolved := ResolveRoute(s, catalogue, owner, name);
            && (forall route: Route :: NamesRoute(s, catalogue, owner, name, route) ==>
                  resolved == if route.recipe in catalogue.recipes then Resolved(route, catalogue.recipes[route.recipe])
                              else Unresolved(RecipeNotFound))
            && ((forall route: Route :: !NamesRoute(s, catalogue, owner, name, route)) ==> resolved == Unresolved(RouteNotFound))
  {
    hide Consistent;
    hide Bound;
    hide IsBound;
    forall role: Role, recipe: RecipeId
      ensures Bound(s.bindings, owner, role) == Some(recipe) <==> IsBound(s, owner, role, recipe)
    {
      BoundMeans(s, owner, role, recipe);
    }
    if name == "default" && catalogue.default.Some? {
      assert NamesRoute(s, catalogue, owner, name, Route(DefaultRoute, catalogue.default.value));
    }
    if name == "smart" && Bound(s.bindings, owner, Smart).Some? {
      assert NamesRoute(s, catalogue, owner, name, Route(CloudRoute(Smart), Bound(s.bindings, owner, Smart).value));
    }
    if name == "fast" && Bound(s.bindings, owner, Fast).Some? {
      assert NamesRoute(s, catalogue, owner, name, Route(CloudRoute(Fast), Bound(s.bindings, owner, Fast).value));
    }
  }

  /** The models cannot be listed exactly without a default route or with an offered route whose recipe
      the host does not know, and are otherwise listed. */
  lemma OfferExactly(s: Settings, catalogue: Catalogue, owner: Owner)
    requires Consistent(s)
    ensures var offer := PublicModels(s, catalogue, owner);
            if catalogue.default.None? then offer == Failed(RouteNotFound)
            else if catalogue.default.value !in catalogue.recipes
                    || exists role, recipe :: IsBound(s, owner, role, recipe) && recipe !in catalogue.recipes
            then offer == Failed(RecipeNotFound)
            else offer.Offered?
  {
    hide Consistent;
    hide IsBound;
    hide PublicRoutes;
    PublicRoutesExactly(s, catalogue, owner);
    if catalogue.default.Some? {
      var routes := PublicRoutes(s, catalogue, owner).value;
      assert Route(DefaultRoute, catalogue.default.value) in routes;
      if role, recipe :| IsBound(s, owner, role, recipe) && recipe !in catalogue.recipes {
        assert Route(CloudRoute(role), recipe) in routes;
      }
    }
  }

  /** A listed id finds its own entry. */
  lemma ListedResolves(models: seq<Model>, m: Model)
    requires DistinctIds(models) && m in models
    ensures Lookup(models, m.id) == Some(m)
  {
    var other := Lookup(models, m.id).value;
    var i :| 0 <= i < |models| && models[i] == m;
    var j :| 0 <= j < |models| && models[j] == other;
    assert models[i].id == models[j].id;
  }

  class UserRouteResolver {
    var settings: Settings

    ghost predicate Valid()
      reads this
    {
      Consistent(settings)
    }

    constructor ()
      ensures Valid() && settings == Settings([], [])
    {
      settings := Settings([], []);
    }

    method ReplaceConnection(owner: Owner, connection: Connection) returns (error: Option<RouteError>)
      requires Valid()
      modifies this
      ensures Valid() && settings == Apply(old(settings), Replace(owner, connection))
      ensures error == if connection.owner != owner then Some(OwnerMismatch) else None
    {
      ReplacedConsistent(settings, owner, connection);
      if connection.owner != owner {
        return Some(OwnerMismatch);
      }
      var retained := Keep(settings.connections, (c: Connection) => !OwnerOf(c, owner, connection.id));
      var next := retained + [connection];
      ghost var before := settings;
      settings := settings.(connections := next);
      var valid := RecipesOf(next, owner);
      settings := settings.(bindings := Keep(settings.bindings, (b: Binding) => b.owner != owner || b.recipe in valid));
      assert settings == Replaced(before, owner, connection);
      error := None;
    }

    method RemoveConnection(owner: Owner, id: string)
      requires Valid()
      modifies this
      ensures Valid() && settings == Apply(old(settings), Remove(owner, id))
    {
      RemovedConsistent(settings, owner, id);
      var connection := Find(settings.connections, owner, id);
      if connection.None? {
        return;
      }
      ghost var before := settings;
      var owned := connection.value.recipes;
      settings := settings.(connections := Keep(settings.connections, (c: Connection) => !OwnerOf(c, owner, id)));
      settings := settings.(bindings := Keep(settings.bindings, (b: Binding) => b.owner != owner || b.recipe !in owned));
      assert settings == Removed(before, owner, id);
    }

    method AssignRole(catalogue: Catalogue, owner: Owner, role: Role, recipe: RecipeId) returns (error: Option<RouteError>)
      requires Valid()
      modifies this
      ensures Valid() && settings == Apply(old(settings), Assign(catalogue, owner, role, recipe))
      ensures error == AssignError(old(settings), catalogue, owner, recipe)
    {
      AssignedConsistent(settings, catalogue, owner, role, recipe);
      if recipe !in catalogue.recipes {
        return Some(RecipeNotFound);
      }
      if !catalogue.recipes[recipe].chat {
        return Some(NotChat);
      }
      if recipe !in RecipesOf(settings.connections, owner) {
        return Some(RecipeNotFound);
      }
      settings := settings.(bindings := Unbound(settings.bindings, owner, role) + [Binding(owner, role, recipe)]);
      error := None;
    }

    method ClearRole(owner: Owner, role: Role)
      requires Valid()
      modifies this
      ensures Valid() && settings == Apply(old(settings), Clear(owner, role))
    {
      UnboundConsistent(settings, owner, role);
      settings := settings.(bindings := Unbound(settings.bindings, owner, role));
    }

    /** The models offered to an owner. */
    method PublicChatModels(catalogue: Catalogue, owner: Owner) returns (offer: Offer)
      ensures offer == PublicModels(settings, catalogue, owner)
    {
      var routes := PublicRoutes(settings, catalogue, owner);
      if routes.None? {
        return Failed(RouteNotFound);
      }
      if !Resolvable(routes.value, catalogue) {
        return Failed(RecipeNotFound);
      }
      var models := ListModels(routes.value, catalogue);
      offer := Offered(models);
    }

    method ListModels(routes: seq<Route>, catalogue: Catalogue) returns (models: seq<Model>)
      requires Resolvable(routes, catalogue)
      ensures models == Listed(routes, catalogue) && Lists(models, routes, catalogue)
    {
      models := [];
      var seen: set<string> := {};
      for k := 0 to |routes|
        invariant seen == set m | m in models :: m.id
        invariant models == Listed(routes[..k], catalogue)
      {
        var route := routes[k];
        var id := ModelIdOf(route, catalogue);
        assert routes[..k + 1][..k] == routes[..k];
        if id != "" && id !in seen {
          seen := seen + {id};
          models := models + [Model(id, route, catalogue.recipes[route.recipe])];
        }
      }
      assert routes[..|routes|] == routes;
      ListedLists(routes, catalogue);
    }

    /** A name resolves as a listed model if it is one, and as a route otherwise. */
    method ResolvePublicModel(catalogue: Catalogue, owner: Owner, id: string) returns (resolved: Resolved)
      ensures PublicRoutes(settings, catalogue, owner).None? ==> resolved == Unresolved(RouteNotFound)
      ensures var routes := PublicRoutes(settings, catalogue, owner);
              routes.Some? && !Resolvable(routes.value, catalogue) ==> resolved == Unresolved(RecipeNotFound)
      ensures var routes := PublicRoutes(settings, catalogue, owner);
              routes.Some? && Resolvable(routes.value, catalogue) && id != "" ==>
                forall r :: r in routes.value && ModelIdOf(r, catalogue) == id && FirstWithId(r, routes.value, catalogue) ==>
                  resolved == Resolved(r, catalogue.recipes[r.recipe])
      ensures var routes := PublicRoutes(settings, catalogue, owner);
              routes.Some? && Resolvable(routes.value, catalogue)
              && (id == "" || forall r :: r in routes.value ==> ModelIdOf(r, catalogue) != id) ==>
                resolved == ResolveRoute(settings, catalogue, owner, id)
    {
      hide ResolveRoute;
      hide ModelIdOf;
      hide PublicRoutes;
      hide FirstWithId;
      hide Listed;
      var offer := PublicChatModels(catalogue, owner);
      if offer.Failed? {
        return Unresolved(offer.error);
      }
      var found := Lookup(offer.models, id);
      ListedIsFirst(PublicRoutes(settings, catalogue, owner).value, catalogue, id);
      resolved := if found.Some? then Resolved(found.value.route, found.value.recipe)
                  else ResolveRoute(settings, catalogue, owner, id);
    }
  }

  lemma {:induction false} ListedLists(routes: seq<Route>, catalogue: Catalogue)
    requires Resolvable(routes, catalogue)
    ensures Lists(Listed(routes, catalogue), routes, catalogue)
  {
    if routes != [] {
      var front := routes[..|routes| - 1];
      assert routes == front + [Last(routes)];
      ListedLists(front, catalogue);
      ListsMore(Listed(front, catalogue), front, Last(routes), catalogue);
    }
  }

  lemma FirstIsOne(a: Route, b: Route, routes: seq<Route>, catalogue: Catalogue)
    requires Resolvable(routes, catalogue) && a in routes && b in routes
    requires FirstWithId(a, routes, catalogue) && FirstWithId(b, routes, catalogue)
    requires ModelIdOf(a, catalogue) == ModelIdOf(b, catalogue)
    ensures a == b
  {
  }

  /** Looking an id up in the list finds the first route that gives it, if any does. */
  lemma ListedIsFirst(routes: seq<Route>, catalogue: Catalogue, id: string)
    requires Resolvable(routes, catalogue)
    ensures var found := Lookup(Listed(routes, catalogue), id);
            && (found.Some? <==> id != "" && exists r :: r in routes && ModelIdOf(r, catalogue) == id)
            && (found.Some? ==>
                  found.value.route in routes && found.value.recipe == catalogue.recipes[found.value.route.recipe]
                  && forall r :: r in routes && ModelIdOf(r, catalogue) == id && FirstWithId(r, routes, catalogue) ==>
                       r == found.value.route)
  {
    hide Lookup;
    hide Listed;
    hide Trim;
    hide FirstWithId;
    ListedLists(routes, catalogue);
    var found := Lookup(Listed(routes, catalogue), id);
    if found.Some? {
      forall r | r in routes && ModelIdOf(r, catalogue) == id && FirstWithId(r, routes, catalogue)
        ensures r == found.value.route
      {
        FirstIsOne(r, found.value.route, routes, catalogue);
      }
    }
  }

  /** Listed model ids are distinct; a listed id resolves to its own route and recipe, even when it
      reads like a route name, and any other name resolves as a route. */
  lemma ResolvesExactly(s: Settings, catalogue: Catalogue, owner: Owner, id: string)
    requires PublicModels(s, catalogue, owner).Offered?
    ensures var models := PublicModels(s, catalogue, owner).models;
            && DistinctIds(models)
            && (forall m :: m in models && m.id == id ==> PublicModel(s, catalogue, owner, id) == Resolved(m.route, m.recipe))
            && (!HasId(models, id) ==> PublicModel(s, catalogue, owner, id) == ResolveRoute(s, catalogue, owner, id))
  {
    var routes := PublicRoutes(s, catalogue, owner).value;
    var models := PublicModels(s, catalogue, owner).models;
    ListedLists(routes, catalogue);
    hide IsOffer;
    forall m | m in models && m.id == id
      ensures Lookup(models, id) == Some(m)
    {
      ListedResolves(models, m);
    }
  }

  lemma StillFirst(m: Model, routes: seq<Route>, route: Route, catalogue: Catalogue)
    requires Resolvable(routes + [route], catalogue) && Resolvable(routes, catalogue) && IsOffer(m, routes, catalogue)
    ensures IsOffer(m, routes + [route], catalogue)
  {
    var all := routes + [route];
    var k :| 0 <= k < |routes| && routes[k] == m.route
             && forall i :: 0 <= i < k ==> ModelIdOf(routes[i], catalogue) != ModelIdOf(m.route, catalogue);
    assert all[k] == m.route;
    forall i | 0 <= i < k
      ensures ModelIdOf(all[i], catalogue) != ModelIdOf(m.route, catalogue)
    {
      assert all[i] == routes[i];
    }
  }

  lemma NewOffer(models: seq<Model>, routes: seq<Route>, route: Route, catalogue: Catalogue)
    requires Resolvable(routes + [route], catalogue) && Resolvable(routes, catalogue) && Lists(models, routes, catalogue)
    requires var id := ModelIdOf(route, catalogue); id != "" && !HasId(models, id)
    ensures IsOffer(Model(ModelIdOf(route, catalogue), route, catalogue.recipes[route.recipe]), routes + [route], catalogue)
  {
    var all := routes + [route];
    var id := ModelIdOf(route, catalogue);
    assert all[|routes|] == route;
    forall i | 0 <= i < |routes|
      ensures ModelIdOf(all[i], catalogue) != id
    {
      assert all[i] == routes[i] && routes[i] in routes;
    }
  }

  lemma HasIdMore(models: seq<Model>, m: Model, id: string)
    ensures HasId(models + [m], id) <==> HasId(models, id) || m.id == id
  {
    if x :| x in models && x.id == id {
      assert x in models + [m];
    }
    if m.id == id {
      assert (models + [m])[|models|] == m;
    }
  }

  /** One more route extends the list, or is left out because its id is blank or taken. */
  lemma ListsMore(models: seq<Model>, routes: seq<Route>, route: Route, catalogue: Catalogue)
    requires Resolvable(routes + [route], catalogue) && Resolvable(routes, catalogue) && Lists(models, routes, catalogue)
    ensures var id := ModelIdOf(route, catalogue);
            if id != "" && !HasId(models, id)
            then Lists(models + [Model(id, route, catalogue.recipes[route.recipe])], routes + [route], catalogue)
            else Lists(models, routes + [route], catalogue)
  {
    var id := ModelIdOf(route, catalogue);
    var all := routes + [route];
    forall m | m in models
      ensures IsOffer(m, all, catalogue) && m.id != "" && HasId(models, m.id)
    {
      StillFirst(m, routes, route, catalogue);
    }
    if id != "" && !HasId(models, id) {
      NewOffer(models, routes, route, catalogue);
      var m := Model(id, route, catalogue.recipes[route.recipe]);
      forall other: string
        ensures HasId(models + [m], other) <==> HasId(models, other) || m.id == other
      {
        HasIdMore(models, m, other);
      }
      assert forall i :: 0 <= i < |models| ==> models[i] in models && models[i].id != id;
    }
    hide IsOffer;
    hide HasId;
    hide ModelIdOf;
  }
}
