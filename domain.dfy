/**
 * The values the resource loader handles and the collaborators it calls.
 *
 * ActiveRecord, Pundit, ActiveSupport's inflector and the controller's own
 * reflective lookups are not reimplemented: each appears as a function-valued
 * field of a datatype that the caller supplies. The engine only decides which
 * of them to call, with what, and in which order.
 */
module Domain {
  import opened Wrappers

  /** A value held in an attribute hash: a request string, a boolean, or nil. */
  datatype Scalar = Text(s: string) | Flag(b: bool) | Null

  /** Ruby truthiness: only `nil` and `false` are falsy (an empty string is truthy). */
  predicate Truthy(v: Scalar) {
    !(v.Null? || (v.Flag? && !v.b))
  }

  /** An attribute hash, keyed by attribute name. */
  type Attributes = map<string, Scalar>

  /** A record of model class `cls` with its attribute values. */
  datatype Entity = Entity(cls: string, attrs: Attributes)

  /**
   * What an instance variable or an `authorize` call can hold: one record, a
   * relation (a query over records of class `cls`), or a model class itself.
   */
  datatype Value = Record(entity: Entity) | Relation(cls: string, items: seq<Entity>) | ClassRef(name: string)

  /**
   * `value.class.name`: a record answers its model class, a relation the
   * model-specific relation class Rails generates (`Post::ActiveRecord_Relation`),
   * and a class answers `Class`.
   */
  function ClassNameOf(v: Value): string {
    match v
    case Record(e) => e.cls
    case Relation(cls, _) => cls + "::ActiveRecord_Relation"
    case ClassRef(_) => "Class"
  }

  /** `Model.new`: an unsaved record with no attribute set yet. */
  function NewRecord(cls: string): Entity {
    Entity(cls, map[])
  }

  /** `record.attributes = attrs`: every given attribute is assigned, the others are kept. */
  function AssignAttributes(e: Entity, attrs: Attributes): Entity {
    Entity(e.cls, e.attrs + attrs)
  }

  /** One call of Pundit's `authorize(target, capability)`. */
  datatype AuthCall = AuthCall(target: Value, capability: string)

  /** The exceptions that end the request's callback chain. */
  datatype Error =
    | RecordNotFound                    // ActiveRecord::RecordNotFound
    | NotAuthorized                     // Pundit::NotAuthorizedError
    | UninitializedConstant(name: string) // `constantize` of an unknown class name
    | NameError(name: string)           // an undefined local variable or method

  /** ActiveSupport's inflections, taken as given. */
  datatype Inflector = Inflector(
    singularize: string -> string,
    pluralize: string -> string,
    classify: string -> string,
    underscore: string -> string)

  /**
   * The ActiveRecord queries the engine issues. A lookup that answers `None`
   * found nothing; where the source calls a raising finder (`find`), the
   * engine turns `None` into RecordNotFound.
   */
  datatype Store = Store(
    classes: set<string>,                                            // names `constantize` resolves
    find: (string, string) -> Option<Entity>,                        // Model.find(id)
    findBy: (string, string, Option<string>) -> Option<Entity>,      // Model.find_by(attr => value)
    findByParents: (string, map<string, Value>) -> Option<Entity>,   // Model.find_by(assoc => parent, ...)
    hasOne: (Value, string) -> Option<Entity>,                       // parent.public_send(singular)
    association: (Value, string) -> seq<Entity>,                     // parent.public_send(plural)
    associationFind: (Value, string, string) -> Option<Entity>,      // parent.public_send(plural).find(id)
    associationFirst: (Value, string) -> Option<Entity>,             // parent.public_send(plural).first
    associationFindBy: (Value, string, string, Option<string>) -> Option<Entity>, // ....find_by(attr => value)
    columns: string -> set<string>)                                  // Model.column_names

  /** Pundit: the permission decision, scopes and permitted attributes. */
  datatype Policy = Policy(
    allows: (Value, string) -> bool,                   // does `authorize` pass?
    resolveScope: Value -> seq<Entity>,                // policy_scope(class or relation)
    methods: string -> set<string>,                    // what policy(record of class) responds to
    permittedAttributes: (Entity, string) -> Attributes) // permitted_attributes(record) for an action

  /** The controller's own methods, found by `respond_to?(name, true)` and called by `send`. */
  datatype Host = Host(methods: set<string>, send: string -> Attributes)

  /** All collaborators of one request. */
  datatype Env = Env(inflector: Inflector, store: Store, policy: Policy, host: Host)
}
