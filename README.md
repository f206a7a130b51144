# Resource autoloading and authorization for Rails controllers, in Dafny

This project models the resource loader of `pundit_extraextra`, which is mixed
into Rails controllers. It works in two phases.

* **Declaration.** A controller class declares an ordered list of rules with
  `load_resource`, `authorize_resource` and `load_and_authorize_resource`. Each
  rule has an optional resource name and the options `through`, `singleton`,
  `find_by`, `id_param`, `instance_name`, `only` and `except`.
* **Request time.** A `before_action` runs `process_resource_callbacks`. It
  replays every rule whose `only`/`except` filter admits the current action.
  For each rule it decides four things:
  * which record to load and which instance variable gets it (singular, or
    pluralized for a relation);
  * which lookup finds it: find, find_by, new, an association, a composite
    query, or a policy scope;
  * which capability Pundit's `authorize` is asked for: `show?` or
    `<action>?`;
  * which attributes a created or updated record receives.

The model has these files:

* `domain.dfy` holds the values: records, relations, classes, attribute
  hashes, `authorize` calls and exceptions. ActiveRecord, Pundit,
  ActiveSupport's inflector and the controller's reflective lookups are
  function-valued fields of collaborator datatypes that the caller supplies.
* `rules.dfy` holds the rule registry (a class whose declaration methods
  append to `rules`), the normalisation of the first argument and the action
  filter.
* `resolution.dfy` holds the engine as functions of the request and of the
  state it changes. That state is the instance variables and the `authorize`
  trace. The branch choice of the direct and the nested loads is a separate,
  characterised function (`DirectLookupFor`, `ThroughLookupFor`), and so is
  the capability choice (`Capability`).
* `controller.dfy` holds the controller instance during one request. It is a
  class with the instance variables (`bound`) and the `authorize` trace as
  fields. Its methods follow the source's methods step by step: the replay
  loop, the parent search loop and the attribute-building loops. Each is
  proved to leave exactly the state that the matching `Resolution` function
  gives.
* `properties.dfy` holds the promises, as lemmas over all requests,
  collaborators and states.

Four behaviours of the source that the model keeps as written:

* **Line 162 (`update_resource`) is modelled as written.** It tests the
  undefined name `record`, so it raises NameError after the lookup, before
  anything is authorized or assigned. `Resolution.UpdateResource` returns that
  error. `Properties.ThroughUpdateWithoutIdRaisesNameError` proves that every
  `update` through a bound parent without an id, and not singleton, ends the
  request with NameError. No other input reaches the line: line 201 catches
  every request that has an id before line 205 is tested.
* **An `update` through a parent with an id is a plain lookup**
  (`find_resource_by_id`, line 202). Nothing is authorized and no attributes
  are assigned during the load (`Properties.ThroughUpdateWithIdIsPlainLookup`).
* **`is_parent_resource` (lines 270-272) looks at every rule**, the current
  one included, not only the other rules. It compares the names as given,
  without singularizing them.
* **`skip_authorization_and_scope` only sets Pundit's two flags.** It does not
  stop the other callbacks.

## Model

| member | source | states |
|---|---|---|
| `Rules.ExtractResourceNameAndOptions` | lib/pundit_extraextra/resource_autoload.rb:36-44 | A name comes out exactly for a Symbol or String argument, as that string. A Hash argument becomes the options; otherwise the second argument is kept. |
| `Rules.RuleRegistry.StoreResourceOptions` | lib/pundit_extraextra/resource_autoload.rb:31-34 | Appends exactly one rule, the normalised one, after the unchanged earlier rules. |
| `Rules.RuleRegistry.LoadResource` | lib/pundit_extraextra/resource_autoload.rb:14-16 | The rule list becomes the old list plus one `Load` rule. |
| `Rules.RuleRegistry.AuthorizeResource` | lib/pundit_extraextra/resource_autoload.rb:18-20 | The rule list becomes the old list plus one `Authorize` rule. |
| `Rules.RuleRegistry.LoadAndAuthorizeResource` | lib/pundit_extraextra/resource_autoload.rb:26-28 | The rule list becomes the old list plus one `LoadAndAuthorize` rule. |
| `Rules.ExceptWinsOverOnly` | lib/pundit_extraextra/resource_autoload.rb:62-66 | When both `except` and `only` list the action, the rule is skipped. |
| `Rules.UnfilteredRuleAlwaysApplies` | lib/pundit_extraextra/resource_autoload.rb:62-66 | A rule with neither `only` nor `except` applies to every action. |
| `Rules.SkipAction` | lib/pundit_extraextra/resource_autoload.rb:62-66 | A rule applies exactly when `except` is absent or omits the action, and `only` is absent or lists it; otherwise it is skipped. |
| `Rules.IsThroughTarget` | lib/pundit_extraextra/resource_autoload.rb:270-272 | The scan over the rules answers true exactly when some rule's `through` lists the name. |
| `Resolution.BoundPositions` | lib/pundit_extraextra/resource_autoload.rb:186-188 | The positions, in increasing order and without repeats, of exactly those parents whose singular name is bound: the elements `compact` keeps. |
| `Resolution.LoadIndexResource` | lib/pundit_extraextra/resource_autoload.rb:145-148 | A relation of the resource class holding what the policy scope yields for the parent's plural association. |
| `Resolution.FindResourceById` | lib/pundit_extraextra/resource_autoload.rb:150-152 | One record or nil, never a relation: the association's `find_by` result on the given attribute and id. |
| `Resolution.UpdateResource` | lib/pundit_extraextra/resource_autoload.rb:160-170 | Whatever the lookup finds, the result is NameError for the undefined `record` at line 162; nothing is returned, authorized or assigned. |
| `Resolution.LoadNestedResource` | lib/pundit_extraextra/resource_autoload.rb:172-183 | With several parents, the record the composite query finds, or nil; with one, a relation over the whole resource class as the policy scopes it, independent of the parent. |
| `Resolution.SecondaryLoad` | lib/pundit_extraextra/resource_autoload.rb:79-106 | Success is one record with exactly one `show?` call on it appended. Failure is RecordNotFound with the trace unchanged, or NotAuthorized after the one `show?` call. With `through` and no bound parent, or without `through` and no id, it is RecordNotFound. |
| `Resolution.ResourceIdFor` | lib/pundit_extraextra/resource_autoload.rb:76-77 | The id is the resource's id parameter when present, otherwise `params[:id]`, and absent only when both are. |
| `Resolution.FirstBoundParent` | lib/pundit_extraextra/resource_autoload.rb:124-133 | The result is the instance of the first `through` parent, in list order, whose singular name is bound. It is nil exactly when no parent is bound. |
| `Resolution.ParentInstances` | lib/pundit_extraextra/resource_autoload.rb:186-194 | The bound parents in `through` order, unbound ones dropped: the k-th element is the binding of the k-th bound parent, so the length is the number of bound parents. It is empty exactly when no parent is bound, and its first element is the parent `FirstBoundParent` finds. |
| `Resolution.ParentQuery` | lib/pundit_extraextra/resource_autoload.rb:174-177 | The composite query has one key per parent class (underscored), each value is a parent of that key, and a parent that no later parent shares a key with is the value under its key, so the later of two same-key parents wins as with `merge!`. |
| `Resolution.Without` | lib/pundit_extraextra/resource_autoload.rb:321-324 | The path keys with every `id` removed, and nothing else removed. |
| `Resolution.FillFromPath` | lib/pundit_extraextra/resource_autoload.rb:320-333 | Truthy explicit values are kept. A path key that is also a request parameter and a column fills its attribute only when the attribute is unset or falsy. No other key changes. |
| `Resolution.Capability` | lib/pundit_extraextra/resource_autoload.rb:269-283 | A class target is checked against the current action. An instance is checked against `show?` when its resource is a `through` target or not the primary resource, and against the current action otherwise. |
| `Resolution.DirectLookupFor` | lib/pundit_extraextra/resource_autoload.rb:219-242 | `update` always finds by key. `create` builds exactly when no id is given. `index` scopes whatever the id. Other actions find by key exactly when an id is given, and scope otherwise. |
| `Resolution.ThroughLookupFor` | lib/pundit_extraextra/resource_autoload.rb:197-209 | The priority is singleton, then `index` without an id, then any id, then `create`, then `update`, then the nested lookup: composite for more than one parent, a scope for one. |
| `Controllers.Controller.CheckPolicy` | lib/pundit_extraextra/resource_autoload.rb:279-283 | The call `(target, capability)` is appended to the trace, then raises NotAuthorized exactly when the policy refuses. |
| `Controllers.Controller.ProcessResourceCallbacks` | lib/pundit_extraextra/resource_autoload.rb:47-60 | The final instance variables, trace and outcome are those of replaying the rules in order. A skipped rule does nothing, and the replay stops at the first exception. |
| `Controllers.Controller.FindParentInstance` | lib/pundit_extraextra/resource_autoload.rb:124-133 | The loop with early return yields exactly the first bound parent. |
| `Controllers.Controller.LoadResource` | lib/pundit_extraextra/resource_autoload.rb:68-122 | The new instance variables, trace and outcome are those `Loaded` gives: the name, the id fallback, the secondary/primary split, nil raising not-found, and the pluralized binding. |
| `Controllers.Controller.LoadSingletonResource` | lib/pundit_extraextra/resource_autoload.rb:135-143 | On `create`, a new record with the extracted attributes; otherwise the parent's has-one record. |
| `Controllers.Controller.CreateNewResource` | lib/pundit_extraextra/resource_autoload.rb:154-158 | A new record of the resource class carrying the extracted attributes. |
| `Controllers.Controller.LoadThroughResource` | lib/pundit_extraextra/resource_autoload.rb:185-212 | The result is `ThroughLoad`: no bound parent raises, otherwise the branch `ThroughLookupFor` picks is run on the first bound parent. |
| `Controllers.Controller.LoadDirectResource` | lib/pundit_extraextra/resource_autoload.rb:214-245 | The result and the new trace are `DirectLoad`: the branch `DirectLookupFor` picks, with `update?` authorized only on a found record. |
| `Controllers.Controller.LoadParentResources` | lib/pundit_extraextra/resource_autoload.rb:247-262 | The final state and outcome are those of preloading the parents in order. Each unbound parent is found by `<name>_id`, bound, then checked with `show?`. |
| `Controllers.Controller.AuthorizeResource` | lib/pundit_extraextra/resource_autoload.rb:264-284 | The new trace and outcome are `Authorized`: the bound instance or else the class, checked for `Capability`. |
| `Controllers.Controller.SkipAuthorizationAndScope` | lib/pundit_extraextra/resource_autoload.rb:286-290 | Authorization is always skipped. The policy scope is skipped on `index`. |
| `Controllers.Controller.ResourceAttributes` | lib/pundit_extraextra/resource_autoload.rb:304-336 | The hash the two loops build equals `AttributesFor`: the explicit attributes, then the path fill without `id`. |
| `Controllers.FailureIsFinal` | lib/pundit_extraextra/resource_autoload.rb:47-60 | Once a replay has raised, the remaining rules change nothing. |
| `Controllers.ParentsFailureIsFinal` | lib/pundit_extraextra/resource_autoload.rb:247-262 | Once a parent preload has raised, the remaining parents change nothing. |
| `Controllers.FillFromPathStep` | lib/pundit_extraextra/resource_autoload.rb:329-333 | Each further path key is one conditional `\|\|=` on the hash built so far. |
| `Properties.ReplayIsSequential` | lib/pundit_extraextra/resource_autoload.rb:47-60 | Replaying `first + second` replays `first`, then `second` from the state `first` left, unless `first` raised. Later rules see the bindings of earlier ones. |
| `Properties.SkippedRuleChangesNothing` | lib/pundit_extraextra/resource_autoload.rb:48-49 | A rule the filter skips changes no binding, no trace and no outcome. |
| `Properties.LoadAndAuthorizeIsLoadThenAuthorize` | lib/pundit_extraextra/resource_autoload.rb:55-57 | A load-and-authorize rule equals a load rule followed by an authorize rule with the same name and options. |
| `Properties.TraceOnlyGrows` | lib/pundit_extraextra/resource_autoload.rb:47-60 | One rule only appends to the `authorize` trace. |
| `Properties.ReplayTraceOnlyGrows` | lib/pundit_extraextra/resource_autoload.rb:47-60 | A whole replay only appends to the `authorize` trace. |
| `Properties.LoadBindsOneName` | lib/pundit_extraextra/resource_autoload.rb:115-121 | A failed load binds nothing. A successful one binds exactly one name, the instance name, pluralized for a relation. |
| `Properties.DirectUpdateMissRaisesNotFound` | lib/pundit_extraextra/resource_autoload.rb:108-115 | The nil from a direct `update` that finds nothing still raises RecordNotFound, and nothing is bound or authorized. |
| `Properties.SecondaryIsCheckedWithShow` | lib/pundit_extraextra/resource_autoload.rb:79-106 | A loaded secondary resource is one record, bound under its instance name and authorized with exactly one `show?` call, whatever the action. |
| `Properties.SecondaryWithoutParentNotFound` | lib/pundit_extraextra/resource_autoload.rb:83-103 | A secondary resource with no bound `through` parent raises RecordNotFound before any check. |
| `Properties.SecondaryLookup` | lib/pundit_extraextra/resource_autoload.rb:83-106 | The record comes from the first bound `through` parent: its has-one record when singleton, else `find(id)` on the plural association when an id is given, else the association's `first`. Without `through` it comes from `Model.find(id)`. A nil fetch raises RecordNotFound with no call; a record gets one `show?` call and is the result unless the policy refuses. |
| `Properties.DirectCreateWithIdFindsByKey` | lib/pundit_extraextra/resource_autoload.rb:219-221 | `create` with an id binds the `find_by` result (default attribute `id`), or raises when it is nil. It never builds. |
| `Properties.DirectCreateWithoutIdBuilds` | lib/pundit_extraextra/resource_autoload.rb:222-226 | `create` without an id binds a new record of the resource class with exactly the extracted attributes. |
| `Properties.DirectUpdateAuthorizesFoundRecord` | lib/pundit_extraextra/resource_autoload.rb:227-235 | `update` authorizes `update?` on the found record, then assigns attributes. When nothing is found, nothing is authorized. |
| `Properties.DirectIndexBindsScope` | lib/pundit_extraextra/resource_autoload.rb:236-237 | `index` binds the class's policy scope under the plural name, whatever the id. |
| `Properties.ThroughWithoutParentsNotFound` | lib/pundit_extraextra/resource_autoload.rb:186-192 | A primary `through` load with no bound parent raises RecordNotFound and changes nothing. |
| `Properties.ThroughUpdateWithoutIdRaisesNameError` | lib/pundit_extraextra/resource_autoload.rb:160-170 | An `update` through a bound parent without an id raises NameError at the undefined `record`. |
| `Properties.ThroughUpdateWithIdIsPlainLookup` | lib/pundit_extraextra/resource_autoload.rb:199-202 | An `update` through a parent with an id binds the association's `find_by` record unchanged, with no `authorize` call. |
| `Properties.ThroughIndexBindsScopedAssociation` | lib/pundit_extraextra/resource_autoload.rb:145-148 | `index` through a parent without an id binds the policy-scoped association under the plural name. |
| `Properties.ThroughNestedLookup` | lib/pundit_extraextra/resource_autoload.rb:172-183 | Several parents give a composite `find_by` keyed by every parent. One parent gives the policy scope of the whole class. |
| `Properties.AuthorizationCapability` | lib/pundit_extraextra/resource_autoload.rb:264-284 | Exactly one call is recorded: on the bound instance, or else the class, with the capability as described for `Capability`. |
| `Properties.ThroughTargetInstanceCheckedWithShow` | lib/pundit_extraextra/resource_autoload.rb:269-282 | A bound instance whose resource is some rule's `through` target is checked with `show?`, whatever the action. |
| `Properties.AttributesNeverTakeIdFromPath` | lib/pundit_extraextra/resource_autoload.rb:320-326 | `id` is never filled from the path. It is present only as the explicit attributes give it. |
| `Resolution.ExplicitAttributes` | lib/pundit_extraextra/resource_autoload.rb:305-318 | A policy with permitted attributes decides the explicit attributes; otherwise `<action>_params` is preferred over `<resource>_params`, with `{}` when the controller defines neither. |
| `Resolution.HasPermittedAttributes` | lib/pundit_extraextra/resource_autoload.rb:338-343 | True exactly when the record's policy defines `permitted_attributes_for_<action>` or `permitted_attributes`; the generic method answers for every action. |
| `Properties.CompositeQueryKeepsDistinctParents` | lib/pundit_extraextra/resource_autoload.rb:174-178 | When the parent classes differ, the composite query holds every parent under its own key. |
| `Properties.PreloadedParentsAreBound` | lib/pundit_extraextra/resource_autoload.rb:247-262 | After a successful parent preload, every listed parent's singular name is bound. |
| `Properties.PreloadKeepsExistingBindings` | lib/pundit_extraextra/resource_autoload.rb:253-258 | Preloading never replaces an instance variable that is already set. |

## Left out

- Rails callback registration is not modelled: the `included` block, `before_action :process_resource_callbacks` and the class-level `skip_authorization(options)`. Each is framework wiring, and `skip_authorization` registers a Rails callback, not a rule. The callback it installs, `skip_authorization_and_scope`, is modelled.
- `controller_mixin.rb` is not modelled. It only includes the modules into `ActionController::Base`. The `Helpers` module it names is not part of this model.
- ActiveRecord queries, Pundit's decisions, scopes and permitted attributes, and ActiveSupport's inflections are collaborators supplied by the caller. They are not reimplemented, and nothing about persistence is modelled.
- Symbols and strings are not told apart: option values, parameter keys and attribute keys are all strings. In the source, `only`, `except` and `through` must hold symbols to match. An attribute hash with string keys would also not be seen by the symbol-keyed `||=` at line 331.
- `respond_to?(:attributes=)` (lines 138, 164, 224) is taken as true, since every ActiveRecord model defines it. So the unguarded assignments at lines 156 and 231 cannot raise in the model.
- `public_send` of an association the parent lacks, and `permitted_attributes`'s own `params.require`, could raise NoMethodError or ParameterMissing. These exceptions are not modelled. Unknown classes are modelled (`UninitializedConstant`) where `constantize` first meets the name (lines 71, 254 and 267). Later `constantize` calls use a name already resolved.
- Records are values, not objects. The record in an `update?` call is the one before its attributes are assigned, whereas in Ruby the same object is mutated afterwards. Record identity and aliasing are not modelled.
- Exception messages (lines 103, 115 and 191) are left out. Only the kind of exception is kept.
- The convenience readers `resource_class` and `resource_instance` (lines 296-302) are not modelled, because the engine never calls them. `resource_name` is `Resolution.PrimaryName`.
- `through` is taken to be an array of names, as `Array(...)` makes it everywhere except line 103. A single symbol given as `through` to a secondary resource with no bound parent would raise NoMethodError from `join` there, not RecordNotFound. The model does not distinguish that case.
