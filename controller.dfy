/**
 * The controller instance during one request: its instance variables and the
 * `authorize` calls it has made change step by step, as the source's
 * callbacks run. Each method follows one method of the source and is proved
 * to leave exactly the state the matching function of `Resolution` gives.
 */
module Controllers {
  import opened Wrappers
  import opened Domain
  import opened Rules
  import opened Resolution

  class Controller {
    /** The request and the controller class's rules; fixed while the request runs. */
    const req: Request
    /** The instance variables, by name without the `@`; an absent name reads as nil. */
    var bound: map<string, Value>
    /** Every `authorize(target, capability)` call, in the order made. */
    var trace: seq<AuthCall>
    /** Pundit's `skip_policy_scope` has been called. */
    var policyScopeSkipped: bool
    /** Pundit's `skip_authorization` has been called. */
    var authorizationSkipped: bool

    /** A controller for `req` whose earlier callbacks left the instance variables `bound`. */
    constructor (req: Request, bound: map<string, Value>)
      ensures this.bound == bound && trace == []
      ensures !policyScopeSkipped && !authorizationSkipped
    {
      this.req := req;
      this.bound := bound;
      trace := [];
      policyScopeSkipped := false;
      authorizationSkipped := false;
    }

    /** The part of the state the engine changes. */
    function Snapshot(): State
      reads this
    {
      State(bound, trace)
    }

    /** Pundit's `authorize(target, capability)`: the call is recorded, then a refusal raises. */
    method CheckPolicy(target: Value, capability: string) returns (result: Result<(), Error>)
      modifies this`trace
      ensures Effect(trace, result) == PolicyCheck(req.env, old(trace), target, capability)
    {
      trace := trace + [AuthCall(target, capability)];
      if !req.env.policy.allows(target, capability) {
        return Err(NotAuthorized);
      }
      return Ok(());
    }

    /** `process_resource_callbacks`: every rule that the action filter lets through, in declaration order. */
    method ProcessResourceCallbacks() returns (outcome: Outcome)
      modifies this`bound, this`trace
      ensures Next(Snapshot(), outcome) == Replayed(req, old(Snapshot()), req.rules)
    {
      var rules := req.rules;
      var i := 0;
      while i < |rules|
        invariant 0 <= i <= |rules|
        invariant Replayed(req, old(Snapshot()), rules[..i]) == Next(Snapshot(), Done)
      {
        var rule := rules[i];
        assert rules[..i + 1][..i] == rules[..i];
        var o := Done;
        if !SkipAction(rule.options, req.action) {
          match rule.kind {
            case Load =>
              o := LoadResource(rule.resourceName, rule.options);
            case Authorize =>
              o := AuthorizeResource(rule.resourceName, rule.options);
            case LoadAndAuthorize =>
              o := LoadResource(rule.resourceName, rule.options);
              if o.Done? {
                o := AuthorizeResource(rule.resourceName, rule.options);
              }
          }
        }
        if o.Failed? {
          FailureIsFinal(req, old(Snapshot()), rules, i + 1);
          return o;
        }
        i := i + 1;
      }
      assert rules[..i] == rules;
      return Done;
    }

    /** `find_parent_instance(parents)`: the first parent, in order, whose instance variable is set. */
    method FindParentInstance(parents: seq<string>) returns (found: Option<Value>)
      ensures found == FirstBoundParent(req.env.inflector, bound, parents)
    {
      var i := 0;
      while i < |parents|
        invariant 0 <= i <= |parents|
        invariant FirstBoundParent(req.env.inflector, bound, parents) == FirstBoundParent(req.env.inflector, bound, parents[i..])
      {
        var parentResourceName := req.env.inflector.singularize(parents[i]);
        if parentResourceName in bound {
          return Some(bound[parentResourceName]);
        }
        assert parents[i..][1..] == parents[i + 1..];
        i := i + 1;
      }
      return None;
    }

    /** `load_resource(resource_name, options)`. */
    method LoadResource(name: Option<string>, options: Options) returns (outcome: Outcome)
      modifies this`bound, this`trace
      ensures Next(Snapshot(), outcome) == Loaded(req, old(Snapshot()), name, options)
    {
      var resourceName := ResourceNameFor(req, name);
      var instanceName := InstanceNameFor(options, resourceName);
      var scope := req.env.inflector.classify(resourceName);
      if scope !in req.env.store.classes {
        return Failed(UninitializedConstant(scope));
      }
      var action := req.action;
      var varname := instanceName;
      var resourceIdParam := IdParamFor(options, resourceName);
      var resourceId := ResourceIdFor(req.params, resourceIdParam);
      var resource: Option<Value>;

      if resourceName != PrimaryName(req) {
        var fetched: Option<Entity>;
        if options.through.Some? {
          var currentInstance := FindParentInstance(options.through.value);
          if currentInstance.Some? {
            var plural := req.env.inflector.pluralize(resourceName);
            if options.singleton {
              fetched := req.env.store.hasOne(currentInstance.value, resourceName);
            } else if resourceId.Some? {
              fetched := req.env.store.associationFind(currentInstance.value, plural, resourceId.value);
              if fetched.None? {
                return Failed(RecordNotFound);
              }
            } else {
              fetched := req.env.store.associationFirst(currentInstance.value, plural);
            }
          } else {
            fetched := None;
          }
        } else {
          if resourceId.None? {
            return Failed(RecordNotFound);
          }
          fetched := req.env.store.find(scope, resourceId.value);
          if fetched.None? {
            return Failed(RecordNotFound);
          }
        }
        if fetched.None? {
          return Failed(RecordNotFound);
        }
        resource := Some(Record(fetched.value));
        var check := CheckPolicy(resource.value, "show?");
        if check.Err? {
          return Failed(check.error);
        }
      } else if options.through.Some? {
        var r := LoadThroughResource(options.through.value, resourceName, resourceId, action, options);
        if r.Err? {
          return Failed(r.error);
        }
        resource := r.value;
      } else {
        var r := LoadDirectResource(scope, action, resourceId, options);
        if r.Err? {
          return Failed(r.error);
        }
        resource := r.value;
      }

      if resource.None? {
        return Failed(RecordNotFound);
      }
      if resource.value.Relation? {
        varname := req.env.inflector.pluralize(varname);
      }
      bound := bound[varname := resource.value];
      return Done;
    }

    /**
     * `load_singleton_resource`: a new record with its attributes on `create`,
     * the has-one association otherwise. It is a method, beside the function
     * `SingletonLoad` that specifies it, because it obtains the attributes by
     * running the `ResourceAttributes` loops, which a function cannot call.
     */
    method LoadSingletonResource(currentInstance: Value, resourceName: string, action: string)
      returns (resource: Option<Value>)
      ensures resource == SingletonLoad(req, currentInstance, resourceName, action)
    {
      if action == "create" {
        var newResource := NewRecord(req.env.inflector.classify(resourceName));
        var attributes := ResourceAttributes(newResource, action);
        newResource := AssignAttributes(newResource, attributes);
        return Some(Record(newResource));
      }
      return AsRecord(req.env.store.hasOne(currentInstance, resourceName));
    }

    /**
     * `create_new_resource`: a new record of the resource class with its
     * attributes assigned. A method beside its specification `NewResource`
     * for the same reason as `LoadSingletonResource`: it runs the
     * `ResourceAttributes` loops.
     */
    method CreateNewResource(resourceName: string, action: string) returns (resource: Value)
      ensures resource == NewResource(req, resourceName, action)
    {
      var newResource := NewRecord(req.env.inflector.classify(resourceName));
      var attributes := ResourceAttributes(newResource, action);
      newResource := AssignAttributes(newResource, attributes);
      return Record(newResource);
    }

    /**
     * `load_through_resource(parents, resource_name, resource_id, action,
     * options)`, specified by `ThroughLoad`. It is a method because two of its
     * branches call the methods above, which run the `ResourceAttributes`
     * loops.
     */
    method LoadThroughResource(parents: seq<string>, resourceName: string, resourceId: Option<string>, action: string,
                               options: Options)
      returns (result: Result<Option<Value>, Error>)
      ensures result == ThroughLoad(req, bound, parents, resourceName, resourceId, action, options)
    {
      var parentInstances := ParentInstances(req.env.inflector, bound, parents);
      if parentInstances == [] {
        return Err(RecordNotFound);
      }
      var currentInstance := parentInstances[0];
      var findByAttribute := options.findBy.GetOr("id");
      var resource: Option<Value>;
      if options.singleton {
        resource := LoadSingletonResource(currentInstance, resourceName, action);
      } else if action == "index" && resourceId.None? && !options.singleton {
        resource := Some(LoadIndexResource(req, currentInstance, resourceName));
      } else if resourceId.Some? {
        resource := FindResourceById(req, currentInstance, resourceName, resourceId, findByAttribute);
      } else if action == "create" {
        var created := CreateNewResource(resourceName, action);
        resource := Some(created);
      } else if action == "update" {
        return UpdateResource(req, currentInstance, resourceName, resourceId, findByAttribute, action);
      } else {
        resource := LoadNestedResource(req, parentInstances, resourceName);
      }
      return Ok(resource);
    }

    /** `load_direct_resource(scope, action, resource_id, options)`. */
    method LoadDirectResource(scope: string, action: string, resourceId: Option<string>, options: Options)
      returns (result: Result<Option<Value>, Error>)
      modifies this`trace
      ensures Effect(trace, result) == DirectLoad(req, old(trace), scope, action, resourceId, options)
    {
      var findByAttribute := options.findBy.GetOr("id");
      if action == "create" {
        if resourceId.Some? {
          result := Ok(AsRecord(req.env.store.findBy(scope, findByAttribute, resourceId)));
        } else {
          var newResource := NewRecord(scope);
          var attributes := ResourceAttributes(newResource, action);
          newResource := AssignAttributes(newResource, attributes);
          result := Ok(Some(Record(newResource)));
        }
      } else if action == "update" {
        var found := req.env.store.findBy(scope, findByAttribute, resourceId);
        if found.Some? {
          var check := CheckPolicy(Record(found.value), action + "?");
          if check.Err? {
            return Err(check.error);
          }
          var attributes := ResourceAttributes(found.value, action);
          result := Ok(Some(Record(AssignAttributes(found.value, attributes))));
        } else {
          result := Ok(None);
        }
      } else if action == "index" {
        result := Ok(Some(ClassScope(req, scope)));
      } else if resourceId.Some? {
        result := Ok(AsRecord(req.env.store.findBy(scope, findByAttribute, resourceId)));
      } else {
        result := Ok(Some(ClassScope(req, scope)));
      }
    }

    /** `load_parent_resources(parents)`: find, bind and authorize every parent not bound yet. */
    method LoadParentResources(parents: seq<string>) returns (outcome: Outcome)
      modifies this`bound, this`trace
      ensures Next(Snapshot(), outcome) == ParentsLoaded(req, old(Snapshot()), parents)
    {
      var i := 0;
      while i < |parents|
        invariant 0 <= i <= |parents|
        invariant ParentsLoaded(req, old(Snapshot()), parents[..i]) == Next(Snapshot(), Done)
      {
        assert parents[..i + 1][..i] == parents[..i];
        var parentResourceName := req.env.inflector.singularize(parents[i]);
        if parentResourceName !in bound {
          var parentScope := req.env.inflector.classify(parentResourceName);
          if parentScope !in req.env.store.classes {
            ParentsFailureIsFinal(req, old(Snapshot()), parents, i + 1);
            return Failed(UninitializedConstant(parentScope));
          }
          var parentId := Param(req.params, parentResourceName + "_id");
          if parentId.None? {
            ParentsFailureIsFinal(req, old(Snapshot()), parents, i + 1);
            return Failed(RecordNotFound);
          }
          var parentInstance := req.env.store.find(parentScope, parentId.value);
          if parentInstance.None? {
            ParentsFailureIsFinal(req, old(Snapshot()), parents, i + 1);
            return Failed(RecordNotFound);
          }
          bound := bound[parentResourceName := Record(parentInstance.value)];
          var check := CheckPolicy(Record(parentInstance.value), "show?");
          if check.Err? {
            ParentsFailureIsFinal(req, old(Snapshot()), parents, i + 1);
            return Failed(check.error);
          }
        }
        i := i + 1;
      }
      assert parents[..i] == parents;
      return Done;
    }

    /** `authorize_resource(resource_name, options)`. */
    method AuthorizeResource(name: Option<string>, options: Options) returns (outcome: Outcome)
      modifies this`trace
      ensures Next(Snapshot(), outcome) == Authorized(req, old(Snapshot()), name, options)
    {
      var resourceName := ResourceNameFor(req, name);
      var instanceName := InstanceNameFor(options, resourceName);
      var resource: Value;
      if instanceName in bound {
        resource := bound[instanceName];
      } else {
        var cls := req.env.inflector.classify(resourceName);
        if cls !in req.env.store.classes {
          return Failed(UninitializedConstant(cls));
        }
        resource := ClassRef(cls);
      }
      var isParentResource := IsThroughTarget(req.rules, resourceName);
      var action := if isParentResource then "show" else req.action;
      if resourceName != PrimaryName(req) {
        action := "show";
      }
      var check;
      if resource.ClassRef? {
        check := CheckPolicy(resource, req.action + "?");
      } else {
        check := CheckPolicy(resource, action + "?");
      }
      return if check.Ok? then Done else Failed(check.error);
    }

    /** `skip_authorization_and_scope`: the request needs no authorization, and on `index` no policy scope. */
    method SkipAuthorizationAndScope()
      modifies this`policyScopeSkipped, this`authorizationSkipped
      ensures authorizationSkipped
      ensures policyScopeSkipped == (old(policyScopeSkipped) || req.action == "index")
    {
      if req.action == "index" {
        policyScopeSkipped := true;
      }
      authorizationSkipped := true;
    }

    /** `resource_attributes(resource, action)`: explicit attributes, then path parameters where still unset. */
    method ResourceAttributes(resource: Entity, action: string) returns (attributes: Attributes)
      ensures attributes == AttributesFor(req, resource, action)
    {
      attributes := map[];
      if HasPermittedAttributes(req, resource, action) {
        attributes := req.env.policy.permittedAttributes(resource, action);
      } else {
        var candidates := ParamsCandidates(req, action);
        var i := 0;
        while i < |candidates|
          invariant 0 <= i <= |candidates|
          invariant attributes == map[]
          invariant forall j :: 0 <= j < i ==> candidates[j] !in req.env.host.methods
        {
          if candidates[i] in req.env.host.methods {
            // merge! keeping the values already present
            attributes := req.env.host.send(candidates[i]) + attributes;
            break;
          }
          i := i + 1;
        }
      }
      ghost var explicit := attributes;
      assert explicit == ExplicitAttributes(req, resource, action);

      var urlParamKeys := Without(req.pathKeys, "id");
      var columns := req.env.store.columns(resource.cls);
      var j := 0;
      while j < |urlParamKeys|
        invariant 0 <= j <= |urlParamKeys|
        invariant attributes == FillFromPath(explicit, urlParamKeys[..j], req.params, columns)
      {
        var key := urlParamKeys[j];
        FillFromPathStep(explicit, urlParamKeys, j, req.params, columns);
        if key in req.params && key in columns && !(key in attributes && Truthy(attributes[key])) {
          attributes := attributes[key := Text(req.params[key])];
        }
        j := j + 1;
      }
      assert urlParamKeys[..j] == urlParamKeys;
    }
  }

  /** Once a replay has raised, replaying more rules changes nothing. */
  lemma {:induction false} FailureIsFinal(req: Request, st: State, rules: seq<Rule>, i: nat)
    requires i <= |rules|
    requires Replayed(req, st, rules[..i]).outcome.Failed?
    ensures Replayed(req, st, rules) == Replayed(req, st, rules[..i])
    decreases |rules| - i
  {
    if i < |rules| {
      assert rules[..i + 1][..i] == rules[..i];
      FailureIsFinal(req, st, rules, i + 1);
    } else {
      assert rules[..i] == rules;
    }
  }

  /** Once preloading a parent has raised, the remaining parents change nothing. */
  lemma {:induction false} ParentsFailureIsFinal(req: Request, st: State, parents: seq<string>, i: nat)
    requires i <= |parents|
    requires ParentsLoaded(req, st, parents[..i]).outcome.Failed?
    ensures ParentsLoaded(req, st, parents) == ParentsLoaded(req, st, parents[..i])
    decreases |parents| - i
  {
    if i < |parents| {
      assert parents[..i + 1][..i] == parents[..i];
      ParentsFailureIsFinal(req, st, parents, i + 1);
    } else {
      assert parents[..i] == parents;
    }
  }

  /** Filling from one more path key is one more conditional `||=`. */
  lemma FillFromPathStep(base: Attributes, keys: seq<string>, j: nat, params: map<string, string>, columns: set<string>)
    requires j < |keys|
    ensures var before := FillFromPath(base, keys[..j], params, columns);
            var k := keys[j];
            FillFromPath(base, keys[..j + 1], params, columns) ==
              if k in params && k in columns && !(k in before && Truthy(before[k]))
              then before[k := Text(params[k])] else before
  {
    var k := keys[j];
    var pre, post := keys[..j], keys[..j + 1];
    assert post == pre + [k];
    var before := FillFromPath(base, pre, params, columns);
    var after := FillFromPath(base, post, params, columns);
    var fill := k in params && k in columns && !(k in before && Truthy(before[k]));
    var expected := if fill then before[k := Text(params[k])] else before;
    forall x
      ensures x in after <==> x in expected
      ensures x in after ==> after[x] == expected[x]
    {
      if x != k {
        assert x in post <==> x in pre;
      }
    }
    assert after == expected;
  }
}
