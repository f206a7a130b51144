/**
 * The request-time engine as functions of the request and the state it
 * changes: which record to bind and under which name, which lookup finds it,
 * which capability `authorize` is asked for, and which attributes a created
 * or updated record receives. The class in controller.dfy carries out the
 * same steps imperatively and is proved to agree with these functions.
 */
module Resolution {
  import opened Wrappers
  import opened Domain
  import opened Rules

  /** What one request sees: the controller, the action, the parameters, the rules and the collaborators. */
  datatype Request = Request(
    controllerName: string,
    action: string,
    params: map<string, string>,   // `params`, string keys
    pathKeys: seq<string>,         // `request.path_parameters.keys`, in order
    rules: seq<Rule>,              // the controller class's `resource_options`
    env: Env)

  /** What the engine changes: the instance variables and the `authorize` calls made so far. */
  datatype State = State(bound: map<string, Value>, trace: seq<AuthCall>)

  /** How a step ended: normally, or by raising. */
  datatype Outcome = Done | Failed(error: Error)

  /** The state after a step and how it ended. */
  datatype Next = Next(state: State, outcome: Outcome)

  /** The trace after a helper that may call `authorize`, and the helper's value or exception. */
  datatype Effect<T> = Effect(trace: seq<AuthCall>, result: Result<T, Error>)

  // ----- Naming -------------------------------------------------------------

  /** `controller_name.singularize`: the controller's primary resource (also the `resource_name` helper). */
  function PrimaryName(req: Request): string {
    req.env.inflector.singularize(req.controllerName)
  }

  /** `(resource_name || controller_name.singularize).to_s` */
  function ResourceNameFor(req: Request, name: Option<string>): string {
    name.GetOr(PrimaryName(req))
  }

  /** `options[:instance_name] || resource_name` */
  function InstanceNameFor(options: Options, resourceName: string): string {
    options.instanceName.GetOr(resourceName)
  }

  /** `options[:id_param] || "#{resource_name}_id"` */
  function IdParamFor(options: Options, resourceName: string): string {
    options.idParam.GetOr(resourceName + "_id")
  }

  /** `params[key]` */
  function Param(params: map<string, string>, key: string): Option<string> {
    if key in params then Some(params[key]) else None
  }

  /** `params[id_param] || params[:id]`: the resource's own id parameter, falling back to `id`. */
  function ResourceIdFor(params: map<string, string>, idParam: string): (id: Option<string>)
    ensures id.Some? <==> idParam in params || "id" in params
    ensures idParam in params ==> id.value == params[idParam]
    ensures idParam !in params && "id" in params ==> id.value == params["id"]
  {
    if idParam in params then Some(params[idParam]) else Param(params, "id")
  }

  /** The instance variable a loaded value is bound to: pluralized for a relation. */
  function VarName(inflector: Inflector, instanceName: string, v: Value): string {
    if v.Relation? then inflector.pluralize(instanceName) else instanceName
  }

  // ----- Parents --------------------------------------------------------------

  /**
   * `find_parent_instance`: the instance variable of the first parent, in the
   * order `through` lists them, whose singular name is bound.
   */
  function FirstBoundParent(inflector: Inflector, bound: map<string, Value>, parents: seq<string>): (found: Option<Value>)
    ensures found.None? <==> forall i :: 0 <= i < |parents| ==> inflector.singularize(parents[i]) !in bound
    ensures found.Some? ==>
      exists i :: 0 <= i < |parents| && inflector.singularize(parents[i]) in bound &&
        found.value == bound[inflector.singularize(parents[i])] &&
        forall j :: 0 <= j < i ==> inflector.singularize(parents[j]) !in bound
  {
    if parents == [] then None
    else
      var name := inflector.singularize(parents[0]);
      if name in bound then Some(bound[name])
      else
        var rest := FirstBoundParent(inflector, bound, parents[1..]);
        assert forall i :: 1 <= i < |parents| ==> parents[i] == parents[1..][i - 1];
        rest
  }

  /**
   * The positions, from `from` on and in increasing order, of the parents
   * whose singular name is bound: the elements `compact` keeps.
   */
  function BoundPositions(inflector: Inflector, bound: map<string, Value>, parents: seq<string>, from: nat): (idx: seq<nat>)
    requires from <= |parents|
    ensures forall k :: 0 <= k < |idx| ==> from <= idx[k] < |parents| && inflector.singularize(parents[idx[k]]) in bound
    ensures forall k, l :: 0 <= k < l < |idx| ==> idx[k] < idx[l]
    ensures forall i :: from <= i < |parents| && inflector.singularize(parents[i]) in bound ==> i in idx
    decreases |parents| - from
  {
    if from == |parents| then []
    else
      (if inflector.singularize(parents[from]) in bound then [from] else []) +
      BoundPositions(inflector, bound, parents, from + 1)
  }

  /**
   * The `parent_instances` of `load_through_resource`: each parent's instance
   * variable, in `through` order, with the unbound ones dropped (`compact`).
   * The k-th element is the binding of the k-th bound parent, so its length
   * is the number of bound parents.
   */
  function ParentInstances(inflector: Inflector, bound: map<string, Value>, parents: seq<string>): (r: seq<Value>)
    ensures var idx := BoundPositions(inflector, bound, parents, 0);
            |r| == |idx| &&
            forall k :: 0 <= k < |r| ==> r[k] == bound[inflector.singularize(parents[idx[k]])]
    ensures r == [] <==> FirstBoundParent(inflector, bound, parents).None?
    ensures r != [] ==> FirstBoundParent(inflector, bound, parents) == Some(r[0])
  {
    var idx := BoundPositions(inflector, bound, parents, 0);
    var r := seq(|idx|, k requires 0 <= k < |idx| => bound[inflector.singularize(parents[idx[k]])]);
    FirstBoundIsFirstPosition(inflector, bound, parents);
    r
  }

  /** The first bound position is where `find_parent_instance` stops. */
  lemma FirstBoundIsFirstPosition(inflector: Inflector, bound: map<string, Value>, parents: seq<string>)
    ensures var idx := BoundPositions(inflector, bound, parents, 0);
            (idx == [] <==> FirstBoundParent(inflector, bound, parents).None?) &&
            (idx != [] ==> FirstBoundParent(inflector, bound, parents) == Some(bound[inflector.singularize(parents[idx[0]])]))
  {
    var idx := BoundPositions(inflector, bound, parents, 0);
    var found := FirstBoundParent(inflector, bound, parents);
    if idx == [] {
      forall i | 0 <= i < |parents| ensures inflector.singularize(parents[i]) !in bound {
        assert i !in idx;
      }
    } else {
      var first := idx[0];
      assert inflector.singularize(parents[first]) in bound;
      assert found.Some?;
      var i :| 0 <= i < |parents| && inflector.singularize(parents[i]) in bound &&
        found.value == bound[inflector.singularize(parents[i])] &&
        forall j :: 0 <= j < i ==> inflector.singularize(parents[j]) !in bound;
      assert first >= i;
      assert i in idx;
      assert i >= first;
    }
  }

  /** The key a parent contributes to the composite query: `parent.class.name.underscore`. */
  function AssociationKey(inflector: Inflector, parent: Value): string {
    inflector.underscore(ClassNameOf(parent))
  }

  /** No parent after position `i` shares its key, so `merge!` leaves `parents[i]` under it. */
  predicate LastWithItsKey(inflector: Inflector, parents: seq<Value>, i: int)
    requires 0 <= i < |parents|
  {
    forall j :: i < j < |parents| ==> AssociationKey(inflector, parents[j]) != AssociationKey(inflector, parents[i])
  }

  /**
   * The composite query of `load_nested_resource`: one entry per parent,
   * merged left to right, so a later parent with the same key replaces an
   * earlier one.
   */
  function ParentQuery(inflector: Inflector, parents: seq<Value>): (q: map<string, Value>)
    ensures q.Keys == set i | 0 <= i < |parents| :: AssociationKey(inflector, parents[i])
    ensures forall k :: k in q ==> q[k] in parents && AssociationKey(inflector, q[k]) == k
    ensures forall i :: 0 <= i < |parents| && LastWithItsKey(inflector, parents, i) ==>
      q[AssociationKey(inflector, parents[i])] == parents[i]
  {
    if parents == [] then map[]
    else
      var last := parents[|parents| - 1];
      var prior := parents[..|parents| - 1];
      var q := ParentQuery(inflector, prior)[AssociationKey(inflector, last) := last];
      assert parents == prior + [last];
      assert forall i :: 0 <= i < |parents| && LastWithItsKey(inflector, parents, i) ==>
        q[AssociationKey(inflector, parents[i])] == parents[i] by {
        forall i | 0 <= i < |parents| - 1 && LastWithItsKey(inflector, parents, i)
          ensures q[AssociationKey(inflector, parents[i])] == parents[i]
        {
          assert LastWithItsKey(inflector, prior, i);
          assert AssociationKey(inflector, parents[|parents| - 1]) != AssociationKey(inflector, parents[i]);
        }
      }
      q
  }

  // ----- Attributes ----------------------------------------------------------

  /**
   * `has_permitted_attributes?`: the record's policy defines an
   * action-specific or a generic permitted-attributes method; a generic one
   * answers for every action.
   */
  function HasPermittedAttributes(req: Request, resource: Entity, action: string): (has: bool)
    ensures "permitted_attributes" in req.env.policy.methods(resource.cls) ==> has
    ensures ("permitted_attributes_for_" + action) in req.env.policy.methods(resource.cls) ==> has
    ensures has ==>
      ("permitted_attributes_for_" + action) in req.env.policy.methods(resource.cls) ||
      "permitted_attributes" in req.env.policy.methods(resource.cls)
  {
    if ("permitted_attributes_for_" + action) in req.env.policy.methods(resource.cls) then true
    else if "permitted_attributes" in req.env.policy.methods(resource.cls) then true
    else false
  }

  /** The controller methods `resource_attributes` tries, in order. */
  function ParamsCandidates(req: Request, action: string): seq<string> {
    [action + "_params", PrimaryName(req) + "_params"]
  }

  /**
   * The explicit attributes: the policy's permitted attributes if it has
   * them, otherwise the first parameter method the controller defines, or
   * none at all.
   */
  function ExplicitAttributes(req: Request, resource: Entity, action: string): (explicit: Attributes)
    ensures HasPermittedAttributes(req, resource, action) ==>
      explicit == req.env.policy.permittedAttributes(resource, action)
    ensures !HasPermittedAttributes(req, resource, action) ==>
      var byAction := action + "_params";
      var byResource := PrimaryName(req) + "_params";
      (byAction in req.env.host.methods ==> explicit == req.env.host.send(byAction)) &&
      (byAction !in req.env.host.methods && byResource in req.env.host.methods ==>
         explicit == req.env.host.send(byResource)) &&
      (byAction !in req.env.host.methods && byResource !in req.env.host.methods ==> explicit == map[])
  {
    var candidates := ParamsCandidates(req, action);
    if HasPermittedAttributes(req, resource, action) then req.env.policy.permittedAttributes(resource, action)
    else if candidates[0] in req.env.host.methods then req.env.host.send(candidates[0])
    else if candidates[1] in req.env.host.methods then req.env.host.send(candidates[1])
    else map[]
  }

  /** `keys` without any occurrence of `x` (`Array#delete`). */
  function Without(keys: seq<string>, x: string): (r: seq<string>)
    ensures forall k :: k in r <==> k in keys && k != x
  {
    if keys == [] then []
    else (if keys[0] == x then [] else [keys[0]]) + Without(keys[1..], x)
  }

  /**
   * Path parameters filling in attributes: every key among `keys` that is a
   * request parameter and a column of the record is set to the parameter's
   * value, unless `base` already holds a truthy value for it (`||=`).
   */
  function FillFromPath(base: Attributes, keys: seq<string>, params: map<string, string>, columns: set<string>): (r: Attributes)
    ensures forall k :: k in base && Truthy(base[k]) ==> k in r && r[k] == base[k]
    ensures forall k :: k in keys && k in params && k in columns && !(k in base && Truthy(base[k])) ==>
      k in r && r[k] == Text(params[k])
    ensures forall k :: k !in keys || k !in params || k !in columns ==> (k in r <==> k in base)
    ensures forall k :: k in r && (k !in keys || k !in params || k !in columns) ==> r[k] == base[k]
  {
    base + map k | k in keys && k in params && k in columns && !(k in base && Truthy(base[k])) :: Text(params[k])
  }

  /** `resource_attributes(resource, action)`: the explicit attributes, filled in from the path, never from `id`. */
  function AttributesFor(req: Request, resource: Entity, action: string): Attributes {
    FillFromPath(ExplicitAttributes(req, resource, action), Without(req.pathKeys, "id"), req.params,
                 req.env.store.columns(resource.cls))
  }

  // ----- Authorization -------------------------------------------------------

  /** Pundit's `authorize(target, capability)`: recorded, then raising if the policy refuses. */
  function PolicyCheck(env: Env, trace: seq<AuthCall>, target: Value, capability: string): Effect<()> {
    Effect(trace + [AuthCall(target, capability)],
           if env.policy.allows(target, capability) then Ok(()) else Err(NotAuthorized))
  }

  /**
   * The capability `authorize_resource` asks for: a class is checked against
   * the current action; a bound value against `show` when its resource is a
   * `through` target of some rule or is not the controller's primary
   * resource, and against the current action otherwise.
   */
  function Capability(req: Request, resourceName: string, target: Value): (cap: string)
    ensures target.ClassRef? ==> cap == req.action + "?"
    ensures !target.ClassRef? && (IsThroughTarget(req.rules, resourceName) || resourceName != PrimaryName(req)) ==>
      cap == "show?"
    ensures !target.ClassRef? && !IsThroughTarget(req.rules, resourceName) && resourceName == PrimaryName(req) ==>
      cap == req.action + "?"
  {
    var isParentResource := IsThroughTarget(req.rules, resourceName);
    var action := if isParentResource then "show" else req.action;
    var action' := if resourceName != PrimaryName(req) then "show" else action;
    if target.ClassRef? then req.action + "?" else action' + "?"
  }

  // ----- Lookups -------------------------------------------------------------

  /** A found record as a value. */
  function AsRecord(found: Option<Entity>): Option<Value> {
    match found
    case None => None
    case Some(e) => Some(Record(e))
  }

  /** A raising finder (`find`): nothing found raises RecordNotFound. */
  function FindOrRaise(found: Option<Entity>): Result<Option<Entity>, Error> {
    match found
    case None => Err(RecordNotFound)
    case Some(e) => Ok(Some(e))
  }

  /** `policy_scope(Model)` for the resource class, as a relation. */
  function ClassScope(req: Request, cls: string): Value {
    Relation(cls, req.env.policy.resolveScope(ClassRef(cls)))
  }

  /** The lookups `load_direct_resource` can choose. */
  datatype DirectLookup = FindExisting | BuildNew | UpdateExisting | ScopeAll

  /**
   * `load_direct_resource`'s choice: `create` finds by key when an id is
   * given and builds otherwise; `update` always finds; `index` scopes
   * whatever the id; any other action finds when an id is given and scopes
   * otherwise.
   */
  function DirectLookupFor(action: string, id: Option<string>): (b: DirectLookup)
    ensures b == UpdateExisting <==> action == "update"
    ensures b == BuildNew <==> action == "create" && id.None?
    ensures b == FindExisting <==> action != "update" && action != "index" && id.Some?
    ensures b == ScopeAll <==> action == "index" || (action != "create" && action != "update" && id.None?)
  {
    if action == "create" then (if id.Some? then FindExisting else BuildNew)
    else if action == "update" then UpdateExisting
    else if action == "index" then ScopeAll
    else if id.Some? then FindExisting
    else ScopeAll
  }

  /** `load_direct_resource(scope, action, resource_id, options)`. */
  function DirectLoad(req: Request, trace: seq<AuthCall>, cls: string, action: string, resourceId: Option<string>,
                      options: Options): Effect<Option<Value>>
  {
    var findByAttribute := options.findBy.GetOr("id");
    match DirectLookupFor(action, resourceId)
    case FindExisting => Effect(trace, Ok(AsRecord(req.env.store.findBy(cls, findByAttribute, resourceId))))
    case BuildNew =>
      var blank := NewRecord(cls);
      Effect(trace, Ok(Some(Record(AssignAttributes(blank, AttributesFor(req, blank, action))))))
    case UpdateExisting =>
      (match req.env.store.findBy(cls, findByAttribute, resourceId)
       case None => Effect(trace, Ok(None))
       case Some(e) =>
         var check := PolicyCheck(req.env, trace, Record(e), action + "?");
         if check.result.Err? then Effect(check.trace, Err(check.result.error))
         else Effect(check.trace, Ok(Some(Record(AssignAttributes(e, AttributesFor(req, e, action)))))))
    case ScopeAll => Effect(trace, Ok(Some(ClassScope(req, cls))))
  }

  /** The lookups `load_through_resource` can choose. */
  datatype ThroughLookup =
    | SingletonAssociation | IndexScope | FindInAssociation | BuildNested | UpdateNested | CompositeFind | NestedScope

  /**
   * `load_through_resource`'s choice, in priority order: singleton, then
   * `index` without an id, then any id, then `create`, then `update`, then
   * the nested lookup (composite for several parents, a class scope for one).
   */
  function ThroughLookupFor(action: string, id: Option<string>, singleton: bool, parentCount: nat): (b: ThroughLookup)
    ensures b == SingletonAssociation <==> singleton
    ensures b == IndexScope <==> !singleton && action == "index" && id.None?
    ensures b == FindInAssociation <==> !singleton && id.Some?
    ensures b == BuildNested <==> !singleton && id.None? && action == "create"
    ensures b == UpdateNested <==> !singleton && id.None? && action == "update"
    ensures b == CompositeFind <==>
      !singleton && id.None? && action != "index" && action != "create" && action != "update" && parentCount > 1
    ensures b == NestedScope <==>
      !singleton && id.None? && action != "index" && action != "create" && action != "update" && parentCount <= 1
  {
    if singleton then SingletonAssociation
    else if action == "index" && id.None? && !singleton then IndexScope
    else if id.Some? then FindInAssociation
    else if action == "create" then BuildNested
    else if action == "update" then UpdateNested
    else if parentCount > 1 then CompositeFind
    else NestedScope
  }

  /** `load_singleton_resource`: a new record with attributes on `create`, the has-one association otherwise. */
  function SingletonLoad(req: Request, current: Value, resourceName: string, action: string): Option<Value> {
    if action == "create" then
      var blank := NewRecord(req.env.inflector.classify(resourceName));
      Some(Record(AssignAttributes(blank, AttributesFor(req, blank, action))))
    else AsRecord(req.env.store.hasOne(current, resourceName))
  }

  /** `load_index_resource`: the policy scope of the parent's association. */
  function LoadIndexResource(req: Request, current: Value, resourceName: string): (r: Value)
    ensures r.Relation? && r.cls == req.env.inflector.classify(resourceName)
    ensures r.items == req.env.policy.resolveScope(
      Relation(r.cls, req.env.store.association(current, req.env.inflector.pluralize(resourceName))))
  {
    var cls := req.env.inflector.classify(resourceName);
    var plural := req.env.inflector.pluralize(resourceName);
    Relation(cls, req.env.policy.resolveScope(Relation(cls, req.env.store.association(current, plural))))
  }

  /** `find_resource_by_id`: find by key within the parent's association. */
  function FindResourceById(req: Request, current: Value, resourceName: string, resourceId: Option<string>,
                            findByAttribute: string): (r: Option<Value>)
    ensures var found := req.env.store.associationFindBy(current, req.env.inflector.pluralize(resourceName),
                                                         findByAttribute, resourceId);
            (r.None? <==> found.None?) && (r.Some? ==> r.value == Record(found.value))
  {
    AsRecord(req.env.store.associationFindBy(current, req.env.inflector.pluralize(resourceName), findByAttribute, resourceId))
  }

  /** `create_new_resource`: a new record of the resource class with its attributes assigned. */
  function NewResource(req: Request, resourceName: string, action: string): Value {
    var blank := NewRecord(req.env.inflector.classify(resourceName));
    Record(AssignAttributes(blank, AttributesFor(req, blank, action)))
  }

  /**
   * `update_resource` as written: it fetches the record and then tests the
   * undefined name `record`, which raises NameError before anything is
   * authorized or assigned.
   */
  function UpdateResource(req: Request, current: Value, resourceName: string, resourceId: Option<string>,
                          findByAttribute: string, action: string): (r: Result<Option<Value>, Error>)
    ensures r == Err(NameError("record"))
  {
    var _ := FindResourceById(req, current, resourceName, resourceId, findByAttribute);
    Err(NameError("record"))
  }

  /**
   * `load_nested_resource`: with several parents, the one record whose
   * associations match every parent; with one parent, the policy scope of
   * the whole resource class (the association it fetches first is unused).
   */
  function LoadNestedResource(req: Request, parents: seq<Value>, resourceName: string): (r: Option<Value>)
    ensures var cls := req.env.inflector.classify(resourceName);
            var found := req.env.store.findByParents(cls, ParentQuery(req.env.inflector, parents));
            |parents| > 1 ==> (r.None? <==> found.None?) && (r.Some? ==> r.value == Record(found.value))
    ensures var cls := req.env.inflector.classify(resourceName);
            |parents| <= 1 ==>
              r.Some? && r.value.Relation? && r.value.cls == cls && r.value.items == req.env.policy.resolveScope(ClassRef(cls))
  {
    var cls := req.env.inflector.classify(resourceName);
    if |parents| > 1 then AsRecord(req.env.store.findByParents(cls, ParentQuery(req.env.inflector, parents)))
    else Some(ClassScope(req, cls))
  }

  /** `load_through_resource(parents, resource_name, resource_id, action, options)`. */
  function ThroughLoad(req: Request, bound: map<string, Value>, parents: seq<string>, resourceName: string,
                       resourceId: Option<string>, action: string, options: Options): Result<Option<Value>, Error>
  {
    var parentInstances := ParentInstances(req.env.inflector, bound, parents);
    if parentInstances == [] then Err(RecordNotFound)
    else
      var current := parentInstances[0];
      var findByAttribute := options.findBy.GetOr("id");
      match ThroughLookupFor(action, resourceId, options.singleton, |parentInstances|)
      case SingletonAssociation => Ok(SingletonLoad(req, current, resourceName, action))
      case IndexScope => Ok(Some(LoadIndexResource(req, current, resourceName)))
      case FindInAssociation => Ok(FindResourceById(req, current, resourceName, resourceId, findByAttribute))
      case BuildNested => Ok(Some(NewResource(req, resourceName, action)))
      case UpdateNested => UpdateResource(req, current, resourceName, resourceId, findByAttribute, action)
      case CompositeFind => Ok(LoadNestedResource(req, parentInstances, resourceName))
      case NestedScope => Ok(LoadNestedResource(req, parentInstances, resourceName))
  }

  /**
   * The non-primary branch of `load_resource`: one record, through the first
   * bound parent or directly by id, then authorized with `show?`.
   */
  function SecondaryLoad(req: Request, st: State, resourceName: string, cls: string, resourceId: Option<string>,
                         options: Options): (e: Effect<Option<Value>>)
    ensures e.result.Ok? ==>
      e.result.value.Some? && e.result.value.value.Record? && e.trace == st.trace + [AuthCall(e.result.value.value, "show?")]
    ensures e.result.Err? ==> e.result.error == RecordNotFound || e.result.error == NotAuthorized
    ensures e.result.Err? && e.result.error == RecordNotFound ==> e.trace == st.trace
    ensures e.result.Err? && e.result.error == NotAuthorized ==>
      |e.trace| == |st.trace| + 1 && e.trace[..|st.trace|] == st.trace && e.trace[|st.trace|].capability == "show?"
    ensures options.through.Some? && FirstBoundParent(req.env.inflector, st.bound, options.through.value).None? ==>
      e == Effect(st.trace, Err(RecordNotFound))
    ensures options.through.None? && resourceId.None? ==> e == Effect(st.trace, Err(RecordNotFound))
  {
    var plural := req.env.inflector.pluralize(resourceName);
    var fetched: Result<Option<Entity>, Error> :=
      if options.through.Some? then
        (match FirstBoundParent(req.env.inflector, st.bound, options.through.value)
         case None => Ok(None)
         case Some(parent) =>
           if options.singleton then Ok(req.env.store.hasOne(parent, resourceName))
           else if resourceId.Some? then FindOrRaise(req.env.store.associationFind(parent, plural, resourceId.value))
           else Ok(req.env.store.associationFirst(parent, plural)))
      else if resourceId.None? then Err(RecordNotFound)
      else FindOrRaise(req.env.store.find(cls, resourceId.value));
    match fetched
    case Err(e) => Effect(st.trace, Err(e))
    case Ok(None) => Effect(st.trace, Err(RecordNotFound))
    case Ok(Some(e)) =>
      var check := PolicyCheck(req.env, st.trace, Record(e), "show?");
      Effect(check.trace, if check.result.Ok? then Ok(Some(Record(e))) else Err(check.result.error))
  }

  // ----- Rules ---------------------------------------------------------------

  /** `load_resource(resource_name, options)`: resolve, reject nil, bind under the (pluralized) instance name. */
  function Loaded(req: Request, st: State, name: Option<string>, options: Options): Next {
    var resourceName := ResourceNameFor(req, name);
    var instanceName := InstanceNameFor(options, resourceName);
    var cls := req.env.inflector.classify(resourceName);
    if cls !in req.env.store.classes then Next(st, Failed(UninitializedConstant(cls)))
    else
      var resourceId := ResourceIdFor(req.params, IdParamFor(options, resourceName));
      var found :=
        if resourceName != PrimaryName(req) then SecondaryLoad(req, st, resourceName, cls, resourceId, options)
        else if options.through.Some? then
          Effect(st.trace, ThroughLoad(req, st.bound, options.through.value, resourceName, resourceId, req.action, options))
        else DirectLoad(req, st.trace, cls, req.action, resourceId, options);
      match found.result
      case Err(e) => Next(State(st.bound, found.trace), Failed(e))
      case Ok(None) => Next(State(st.bound, found.trace), Failed(RecordNotFound))
      case Ok(Some(v)) => Next(State(st.bound[VarName(req.env.inflector, instanceName, v) := v], found.trace), Done)
  }

  /** `authorize_resource(resource_name, options)`: the bound value, or else the class, checked for `Capability`. */
  function Authorized(req: Request, st: State, name: Option<string>, options: Options): Next {
    var resourceName := ResourceNameFor(req, name);
    var instanceName := InstanceNameFor(options, resourceName);
    var cls := req.env.inflector.classify(resourceName);
    if instanceName !in st.bound && cls !in req.env.store.classes then Next(st, Failed(UninitializedConstant(cls)))
    else
      var target := if instanceName in st.bound then st.bound[instanceName] else ClassRef(cls);
      var check := PolicyCheck(req.env, st.trace, target, Capability(req, resourceName, target));
      Next(State(st.bound, check.trace), if check.result.Ok? then Done else Failed(check.result.error))
  }

  /** One iteration of `process_resource_callbacks`: skip, load, authorize, or load then authorize. */
  function RuleApplied(req: Request, st: State, rule: Rule): Next {
    if SkipAction(rule.options, req.action) then Next(st, Done)
    else
      match rule.kind
      case Load => Loaded(req, st, rule.resourceName, rule.options)
      case Authorize => Authorized(req, st, rule.resourceName, rule.options)
      case LoadAndAuthorize =>
        var loaded := Loaded(req, st, rule.resourceName, rule.options);
        if loaded.outcome.Failed? then loaded else Authorized(req, loaded.state, rule.resourceName, rule.options)
  }

  /** `process_resource_callbacks` over `rules`: each in order, stopping at the first exception. */
  function Replayed(req: Request, st: State, rules: seq<Rule>): Next
    decreases |rules|
  {
    if rules == [] then Next(st, Done)
    else
      var prior := Replayed(req, st, rules[..|rules| - 1]);
      if prior.outcome.Failed? then prior else RuleApplied(req, prior.state, rules[|rules| - 1])
  }

  // ----- Parent preloading -----------------------------------------------------

  /**
   * One parent of `load_parent_resources`: if its instance variable is unset,
   * find it by `<name>_id`, bind it, then authorize it with `show?`.
   */
  function ParentLoaded(req: Request, st: State, parent: string): Next {
    var name := req.env.inflector.singularize(parent);
    var cls := req.env.inflector.classify(name);
    if name in st.bound then Next(st, Done)
    else if cls !in req.env.store.classes then Next(st, Failed(UninitializedConstant(cls)))
    else
      match Param(req.params, name + "_id")
      case None => Next(st, Failed(RecordNotFound))
      case Some(id) =>
        match req.env.store.find(cls, id)
        case None => Next(st, Failed(RecordNotFound))
        case Some(e) =>
          var check := PolicyCheck(req.env, st.trace, Record(e), "show?");
          Next(State(st.bound[name := Record(e)], check.trace),
               if check.result.Ok? then Done else Failed(check.result.error))
  }

  /** `load_parent_resources(parents)`: each parent in order, stopping at the first exception. */
  function ParentsLoaded(req: Request, st: State, parents: seq<string>): Next
    decreases |parents|
  {
    if parents == [] then Next(st, Done)
    else
      var prior := ParentsLoaded(req, st, parents[..|parents| - 1]);
      if prior.outcome.Failed? then prior else ParentLoaded(req, prior.state, parents[|parents| - 1])
  }
}
