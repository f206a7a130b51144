/**
 * What the engine promises, stated over the functions of `Resolution` for
 * every request, every collaborator and every state.
 */
module Properties {
  import opened Wrappers
  import opened Domain
  import opened Rules
  import opened Resolution

  // ----- Replay --------------------------------------------------------------

  /** Replaying `first + second` replays `first`, then `second` from where it left off, unless `first` raised. */
  lemma {:induction false} ReplayIsSequential(req: Request, st: State, first: seq<Rule>, second: seq<Rule>)
    ensures Replayed(req, st, first + second) ==
      (var mid := Replayed(req, st, first);
       if mid.outcome.Failed? then mid else Replayed(req, mid.state, second))
    decreases |second|
  {
    if second == [] {
      assert first + second == first;
    } else {
      var all := first + second;
      var shorter := second[..|second| - 1];
      assert all[..|all| - 1] == first + shorter;
      assert all[|all| - 1] == second[|second| - 1];
      ReplayIsSequential(req, st, first, shorter);
    }
  }

  /** A rule the action filter skips leaves the state and the outcome as they were. */
  lemma SkippedRuleChangesNothing(req: Request, st: State, rules: seq<Rule>, rule: Rule)
    requires SkipAction(rule.options, req.action)
    ensures Replayed(req, st, rules + [rule]) == Replayed(req, st, rules)
  {
    assert (rules + [rule])[..|rules|] == rules;
  }

  /** `load_and_authorize_resource` behaves as `load_resource` followed by `authorize_resource` with the same arguments. */
  lemma LoadAndAuthorizeIsLoadThenAuthorize(req: Request, st: State, name: Option<string>, options: Options)
    ensures Replayed(req, st, [Rule(LoadAndAuthorize, name, options)]) ==
            Replayed(req, st, [Rule(Load, name, options), Rule(Authorize, name, options)])
  {
    var pair := [Rule(Load, name, options), Rule(Authorize, name, options)];
    assert pair[..1] == [Rule(Load, name, options)];
    assert [Rule(LoadAndAuthorize, name, options)][..0] == [];
    assert pair[..1][..0] == [];
  }

  /** Loading and authorizing only ever append to the `authorize` trace. */
  lemma TraceOnlyGrows(req: Request, st: State, rule: Rule)
    ensures st.trace <= RuleApplied(req, st, rule).state.trace
  {
  }

  /** Over a whole replay, the calls already made stay in place: the trace only grows. */
  lemma {:induction false} ReplayTraceOnlyGrows(req: Request, st: State, rules: seq<Rule>)
    ensures st.trace <= Replayed(req, st, rules).state.trace
    decreases |rules|
  {
    if rules != [] {
      var prior := rules[..|rules| - 1];
      ReplayTraceOnlyGrows(req, st, prior);
      TraceOnlyGrows(req, Replayed(req, st, prior).state, rules[|rules| - 1]);
    }
  }

  // ----- load_resource: post-resolution ----------------------------------------

  /**
   * A load that raises binds nothing; one that succeeds binds exactly one
   * instance variable, under the instance name, pluralized for a relation.
   */
  lemma LoadBindsOneName(req: Request, st: State, name: Option<string>, options: Options)
    ensures var r := Loaded(req, st, name, options);
            var instanceName := InstanceNameFor(options, ResourceNameFor(req, name));
            (r.outcome.Failed? ==> r.state.bound == st.bound) &&
            (r.outcome.Done? ==>
              exists v :: r.state.bound == st.bound[VarName(req.env.inflector, instanceName, v) := v])
  {
    var r := Loaded(req, st, name, options);
    var resourceName := ResourceNameFor(req, name);
    var instanceName := InstanceNameFor(options, resourceName);
    if r.outcome.Done? {
      var cls := req.env.inflector.classify(resourceName);
      var resourceId := ResourceIdFor(req.params, IdParamFor(options, resourceName));
      var found :=
        if resourceName != PrimaryName(req) then SecondaryLoad(req, st, resourceName, cls, resourceId, options)
        else if options.through.Some? then
          Effect(st.trace, ThroughLoad(req, st.bound, options.through.value, resourceName, resourceId, req.action, options))
        else DirectLoad(req, st.trace, cls, req.action, resourceId, options);
      var v := found.result.value.value;
      assert r.state.bound == st.bound[VarName(req.env.inflector, instanceName, v) := v];
    }
  }

  /** A resolution that yields nil raises RecordNotFound, even the silent nil of a direct `update` that finds nothing. */
  lemma DirectUpdateMissRaisesNotFound(req: Request, st: State, name: Option<string>, options: Options)
    requires req.action == "update"
    requires ResourceNameFor(req, name) == PrimaryName(req) && options.through.None?
    requires req.env.inflector.classify(PrimaryName(req)) in req.env.store.classes
    requires var cls := req.env.inflector.classify(PrimaryName(req));
             var id := ResourceIdFor(req.params, IdParamFor(options, PrimaryName(req)));
             req.env.store.findBy(cls, options.findBy.GetOr("id"), id).None?
    ensures Loaded(req, st, name, options) == Next(st, Failed(RecordNotFound))
  {
  }

  // ----- load_resource: secondary resources ------------------------------------

  /**
   * A resource other than the controller's own is one record, bound under
   * its instance name and authorized with `show?`, whatever the action.
   */
  lemma SecondaryIsCheckedWithShow(req: Request, st: State, name: Option<string>, options: Options)
    requires ResourceNameFor(req, name) != PrimaryName(req)
    requires Loaded(req, st, name, options).outcome.Done?
    ensures var r := Loaded(req, st, name, options);
            var instanceName := InstanceNameFor(options, ResourceNameFor(req, name));
            exists e :: r.state.trace == st.trace + [AuthCall(Record(e), "show?")] &&
                        r.state.bound == st.bound[instanceName := Record(e)]
  {
    var resourceName := ResourceNameFor(req, name);
    var cls := req.env.inflector.classify(resourceName);
    var resourceId := ResourceIdFor(req.params, IdParamFor(options, resourceName));
    var found := SecondaryLoad(req, st, resourceName, cls, resourceId, options);
    var e := found.result.value.value.entity;
    assert found.trace == st.trace + [AuthCall(Record(e), "show?")];
  }

  /** A secondary resource whose `through` parents are all unbound raises RecordNotFound before any check. */
  lemma SecondaryWithoutParentNotFound(req: Request, st: State, name: Option<string>, options: Options)
    requires ResourceNameFor(req, name) != PrimaryName(req)
    requires req.env.inflector.classify(ResourceNameFor(req, name)) in req.env.store.classes
    requires options.through.Some?
    requires FirstBoundParent(req.env.inflector, st.bound, options.through.value).None?
    ensures Loaded(req, st, name, options) == Next(st, Failed(RecordNotFound))
  {
  }

  /**
   * What a secondary load makes of the record its lookup fetched: nil raises
   * RecordNotFound with no call; a record gets one `show?` call and is the
   * result unless the policy refuses.
   */
  predicate FetchedThenShown(req: Request, trace: seq<AuthCall>, fetched: Option<Entity>, e: Effect<Option<Value>>) {
    (fetched.None? ==> e == Effect(trace, Err(RecordNotFound))) &&
    (fetched.Some? ==>
       var record := Record(fetched.value);
       e == Effect(trace + [AuthCall(record, "show?")],
                   if req.env.policy.allows(record, "show?") then Ok(Some(record)) else Err(NotAuthorized)))
  }

  /**
   * Which record a secondary load fetches: through the first bound parent in
   * `through` order, its has-one record when singleton, else `find(id)` on the
   * plural association when an id is given, else the association's `first`;
   * without `through`, `Model.find(id)`.
   */
  lemma SecondaryLookup(req: Request, st: State, resourceName: string, cls: string, resourceId: Option<string>,
                        options: Options)
    ensures var e := SecondaryLoad(req, st, resourceName, cls, resourceId, options);
            var plural := req.env.inflector.pluralize(resourceName);
            var first := if options.through.Some? then FirstBoundParent(req.env.inflector, st.bound, options.through.value)
                         else None;
            (first.Some? ==>
               FetchedThenShown(req, st.trace,
                 if options.singleton then req.env.store.hasOne(first.value, resourceName)
                 else if resourceId.Some? then req.env.store.associationFind(first.value, plural, resourceId.value)
                 else req.env.store.associationFirst(first.value, plural), e)) &&
            (options.through.None? && resourceId.Some? ==>
               FetchedThenShown(req, st.trace, req.env.store.find(cls, resourceId.value), e))
  {
  }

  // ----- load_resource: direct primary loads ------------------------------------

  /** `create` with an id looks the record up by the `find_by` attribute (default `id`) instead of building one. */
  lemma DirectCreateWithIdFindsByKey(req: Request, st: State, options: Options)
    requires req.action == "create" && options.through.None?
    requires var cls := req.env.inflector.classify(PrimaryName(req));
             cls in req.env.store.classes
    requires ResourceIdFor(req.params, IdParamFor(options, PrimaryName(req))).Some?
    ensures var cls := req.env.inflector.classify(PrimaryName(req));
            var id := ResourceIdFor(req.params, IdParamFor(options, PrimaryName(req)));
            var instanceName := InstanceNameFor(options, PrimaryName(req));
            Loaded(req, st, None, options) ==
              match req.env.store.findBy(cls, options.findBy.GetOr("id"), id)
              case None => Next(st, Failed(RecordNotFound))
              case Some(e) => Next(State(st.bound[instanceName := Record(e)], st.trace), Done)
  {
  }

  /** `create` without an id binds a new record of the resource class carrying exactly the extracted attributes. */
  lemma DirectCreateWithoutIdBuilds(req: Request, st: State, options: Options)
    requires req.action == "create" && options.through.None?
    requires var cls := req.env.inflector.classify(PrimaryName(req));
             cls in req.env.store.classes
    requires ResourceIdFor(req.params, IdParamFor(options, PrimaryName(req))).None?
    ensures var cls := req.env.inflector.classify(PrimaryName(req));
            var instanceName := InstanceNameFor(options, PrimaryName(req));
            Loaded(req, st, None, options) ==
              Next(State(st.bound[instanceName := Record(Entity(cls, AttributesFor(req, NewRecord(cls), "create")))],
                         st.trace), Done)
  {
    var cls := req.env.inflector.classify(PrimaryName(req));
    assert map[] + AttributesFor(req, NewRecord(cls), "create") == AttributesFor(req, NewRecord(cls), "create");
  }

  /**
   * `update` authorizes `update?` on the record it finds and only then assigns
   * the extracted attributes; when nothing is found nothing is authorized.
   */
  lemma DirectUpdateAuthorizesFoundRecord(req: Request, trace: seq<AuthCall>, cls: string, id: Option<string>,
                                          options: Options)
    ensures var found := req.env.store.findBy(cls, options.findBy.GetOr("id"), id);
            var r := DirectLoad(req, trace, cls, "update", id, options);
            (found.None? ==> r == Effect(trace, Ok(None))) &&
            (found.Some? ==> r.trace == trace + [AuthCall(Record(found.value), "update?")]) &&
            (found.Some? && req.env.policy.allows(Record(found.value), "update?") ==>
               r.result == Ok(Some(Record(AssignAttributes(found.value, AttributesFor(req, found.value, "update")))))) &&
            (found.Some? && !req.env.policy.allows(Record(found.value), "update?") ==> r.result == Err(NotAuthorized))
  {
    assert "update" + "?" == "update?";
  }

  /** `index` binds the policy scope of the resource class under the plural name, whatever the id. */
  lemma DirectIndexBindsScope(req: Request, st: State, options: Options)
    requires req.action == "index" && options.through.None?
    requires var cls := req.env.inflector.classify(PrimaryName(req));
             cls in req.env.store.classes
    ensures var cls := req.env.inflector.classify(PrimaryName(req));
            var instanceName := InstanceNameFor(options, PrimaryName(req));
            Loaded(req, st, None, options) ==
              Next(State(st.bound[req.env.inflector.pluralize(instanceName) := ClassScope(req, cls)], st.trace), Done)
  {
  }

  // ----- load_resource: primaries loaded through parents -----------------------

  /** With `through` and no bound parent, the primary load raises RecordNotFound and changes nothing. */
  lemma ThroughWithoutParentsNotFound(req: Request, st: State, options: Options)
    requires options.through.Some?
    requires req.env.inflector.classify(PrimaryName(req)) in req.env.store.classes
    requires forall p :: p in options.through.value ==> req.env.inflector.singularize(p) !in st.bound
    ensures Loaded(req, st, None, options) == Next(st, Failed(RecordNotFound))
  {
    var parents := options.through.value;
    assert ParentInstances(req.env.inflector, st.bound, parents) == [] by {
      assert forall i :: 0 <= i < |parents| ==> req.env.inflector.singularize(parents[i]) !in st.bound by {
        forall i | 0 <= i < |parents| ensures req.env.inflector.singularize(parents[i]) !in st.bound {
          assert parents[i] in parents;
        }
      }
    }
  }

  /**
   * The latent defect of `update_resource`: an `update` through a bound
   * parent without an id reaches the undefined `record` and raises
   * NameError, so nothing is bound and nothing is authorized.
   */
  lemma ThroughUpdateWithoutIdRaisesNameError(req: Request, st: State, options: Options)
    requires req.action == "update" && !options.singleton
    requires options.through.Some? && FirstBoundParent(req.env.inflector, st.bound, options.through.value).Some?
    requires req.env.inflector.classify(PrimaryName(req)) in req.env.store.classes
    requires ResourceIdFor(req.params, IdParamFor(options, PrimaryName(req))).None?
    ensures Loaded(req, st, None, options) == Next(st, Failed(NameError("record")))
  {
  }

  /**
   * An `update` through a parent WITH an id takes the plain lookup of
   * `find_resource_by_id`: it binds the record found in the parent's
   * association as it is, with no `authorize` call and no attributes assigned.
   */
  lemma ThroughUpdateWithIdIsPlainLookup(req: Request, st: State, options: Options)
    requires req.action == "update" && !options.singleton
    requires options.through.Some?
    requires FirstBoundParent(req.env.inflector, st.bound, options.through.value).Some?
    requires req.env.inflector.classify(PrimaryName(req)) in req.env.store.classes
    requires ResourceIdFor(req.params, IdParamFor(options, PrimaryName(req))).Some?
    ensures var parent := FirstBoundParent(req.env.inflector, st.bound, options.through.value).value;
            var id := ResourceIdFor(req.params, IdParamFor(options, PrimaryName(req)));
            var instanceName := InstanceNameFor(options, PrimaryName(req));
            var found := req.env.store.associationFindBy(parent, req.env.inflector.pluralize(PrimaryName(req)),
                                                         options.findBy.GetOr("id"), id);
            Loaded(req, st, None, options) ==
              match found
              case None => Next(st, Failed(RecordNotFound))
              case Some(e) => Next(State(st.bound[instanceName := Record(e)], st.trace), Done)
  {
  }

  /** `index` through a bound parent, without an id and not singleton, binds the scoped association under the plural name. */
  lemma ThroughIndexBindsScopedAssociation(req: Request, st: State, options: Options)
    requires req.action == "index" && !options.singleton
    requires options.through.Some?
    requires FirstBoundParent(req.env.inflector, st.bound, options.through.value).Some?
    requires req.env.inflector.classify(PrimaryName(req)) in req.env.store.classes
    requires ResourceIdFor(req.params, IdParamFor(options, PrimaryName(req))).None?
    ensures var parent := FirstBoundParent(req.env.inflector, st.bound, options.through.value).value;
            var instanceName := InstanceNameFor(options, PrimaryName(req));
            Loaded(req, st, None, options) ==
              Next(State(st.bound[req.env.inflector.pluralize(instanceName) := LoadIndexResource(req, parent, PrimaryName(req))],
                         st.trace), Done)
  {
  }

  /**
   * For any other action without an id, several bound parents give a
   * composite lookup keyed by every parent, and a single parent gives the
   * policy scope of the whole resource class.
   */
  lemma ThroughNestedLookup(req: Request, st: State, options: Options)
    requires req.action != "index" && req.action != "create" && req.action != "update" && !options.singleton
    requires options.through.Some?
    requires req.env.inflector.classify(PrimaryName(req)) in req.env.store.classes
    requires ResourceIdFor(req.params, IdParamFor(options, PrimaryName(req))).None?
    ensures var parents := ParentInstances(req.env.inflector, st.bound, options.through.value);
            var cls := req.env.inflector.classify(PrimaryName(req));
            var r := ThroughLoad(req, st.bound, options.through.value, PrimaryName(req), None, req.action, options);
            (|parents| > 1 ==> r == Ok(AsRecord(req.env.store.findByParents(cls, ParentQuery(req.env.inflector, parents))))) &&
            (|parents| == 1 ==> r == Ok(Some(ClassScope(req, cls))))
  {
  }

  // ----- authorize_resource -------------------------------------------------

  /**
   * `authorize_resource` records exactly one call: on the bound instance if
   * there is one, else on the class; a class is checked against the current
   * action, an instance against `show?` when its resource is some rule's
   * `through` target or is not the controller's own, and against the
   * current action otherwise.
   */
  lemma AuthorizationCapability(req: Request, st: State, name: Option<string>, options: Options)
    requires var resourceName := ResourceNameFor(req, name);
             InstanceNameFor(options, resourceName) in st.bound ||
             req.env.inflector.classify(resourceName) in req.env.store.classes
    ensures var resourceName := ResourceNameFor(req, name);
            var instanceName := InstanceNameFor(options, resourceName);
            var r := Authorized(req, st, name, options);
            var target := if instanceName in st.bound then st.bound[instanceName]
                          else ClassRef(req.env.inflector.classify(resourceName));
            exists cap :: r.state == State(st.bound, st.trace + [AuthCall(target, cap)]) &&
              (target.ClassRef? ==> cap == req.action + "?") &&
              (!target.ClassRef? && (IsThroughTarget(req.rules, resourceName) || resourceName != PrimaryName(req)) ==>
                 cap == "show?") &&
              (!target.ClassRef? && !IsThroughTarget(req.rules, resourceName) && resourceName == PrimaryName(req) ==>
                 cap == req.action + "?")
  {
    var resourceName := ResourceNameFor(req, name);
    var instanceName := InstanceNameFor(options, resourceName);
    var target := if instanceName in st.bound then st.bound[instanceName]
                  else ClassRef(req.env.inflector.classify(resourceName));
    var cap := Capability(req, resourceName, target);
    assert Authorized(req, st, name, options).state == State(st.bound, st.trace + [AuthCall(target, cap)]);
  }

  /** A resource listed in some rule's `through` and bound as an instance is checked with `show?`, even on `destroy`. */
  lemma ThroughTargetInstanceCheckedWithShow(req: Request, st: State, name: Option<string>, options: Options)
    requires var resourceName := ResourceNameFor(req, name);
             var instanceName := InstanceNameFor(options, resourceName);
             IsThroughTarget(req.rules, resourceName) && instanceName in st.bound && !st.bound[instanceName].ClassRef?
    ensures var instanceName := InstanceNameFor(options, ResourceNameFor(req, name));
            Authorized(req, st, name, options).state.trace == st.trace + [AuthCall(st.bound[instanceName], "show?")]
  {
  }

  // ----- resource_attributes -------------------------------------------------

  /** The path never supplies `id`: it is present only if the explicit attributes have it, with their value. */
  lemma AttributesNeverTakeIdFromPath(req: Request, resource: Entity, action: string)
    ensures var attrs := AttributesFor(req, resource, action);
            var explicit := ExplicitAttributes(req, resource, action);
            ("id" in attrs <==> "id" in explicit) && ("id" in attrs ==> attrs["id"] == explicit["id"])
  {
    assert "id" !in Without(req.pathKeys, "id");
  }

  // ----- Composite lookups and parent preloading --------------------------------

  /** When the parents' classes differ, the composite query holds every parent under its own key. */
  lemma CompositeQueryKeepsDistinctParents(inflector: Inflector, parents: seq<Value>)
    requires forall i, j :: 0 <= i < j < |parents| ==> AssociationKey(inflector, parents[i]) != AssociationKey(inflector, parents[j])
    ensures forall i :: 0 <= i < |parents| ==> ParentQuery(inflector, parents)[AssociationKey(inflector, parents[i])] == parents[i]
  {
    forall i | 0 <= i < |parents|
      ensures ParentQuery(inflector, parents)[AssociationKey(inflector, parents[i])] == parents[i]
    {
      assert LastWithItsKey(inflector, parents, i);
    }
  }

  /** After a successful `load_parent_resources`, every listed parent's singular name is bound. */
  lemma {:induction false} PreloadedParentsAreBound(req: Request, st: State, parents: seq<string>)
    requires ParentsLoaded(req, st, parents).outcome.Done?
    ensures forall p :: p in parents ==> req.env.inflector.singularize(p) in ParentsLoaded(req, st, parents).state.bound
    decreases |parents|
  {
    if parents != [] {
      var prior := parents[..|parents| - 1];
      var last := parents[|parents| - 1];
      var mid := ParentsLoaded(req, st, prior);
      PreloadedParentsAreBound(req, st, prior);
      assert mid.state.bound.Keys <= ParentsLoaded(req, st, parents).state.bound.Keys;
      forall p | p in parents
        ensures req.env.inflector.singularize(p) in ParentsLoaded(req, st, parents).state.bound
      {
        if p != last {
          assert p in prior by {
            var i :| 0 <= i < |parents| && parents[i] == p;
            assert i < |parents| - 1;
            assert prior[i] == p;
          }
        }
      }
    }
  }

  /** Preloading never replaces an instance variable that is already set. */
  lemma {:induction false} PreloadKeepsExistingBindings(req: Request, st: State, parents: seq<string>)
    ensures var r := ParentsLoaded(req, st, parents).state.bound;
            forall k :: k in st.bound ==> k in r && r[k] == st.bound[k]
    decreases |parents|
  {
    if parents != [] {
      PreloadKeepsExistingBindings(req, st, parents[..|parents| - 1]);
    }
  }
}
