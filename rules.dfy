/**
 * The rule registry: what a controller class declares with `load_resource`,
 * `authorize_resource` and `load_and_authorize_resource`, and the
 * `only`/`except` filter that decides whether a rule applies to an action.
 */
module Rules {
  import opened Wrappers

  /** Which of the three declarations registered the rule. */
  datatype Kind = Load | Authorize | LoadAndAuthorize

  /**
   * The options hash of a declaration. A missing key is `None`; `through`,
   * `only` and `except` hold `Array(value)`. Because an empty array is truthy
   * in Ruby, `Some([])` differs from `None`.
   */
  datatype Options = Options(
    instanceName: Option<string>,
    through: Option<seq<string>>,
    singleton: bool,
    findBy: Option<string>,
    idParam: Option<string>,
    only: Option<seq<string>>,
    except: Option<seq<string>>)

  /** The empty hash `{}`. */
  const NoOptions := Options(None, None, false, None, None, None, None)

  /** One registered rule: `{ action:, resource_name:, options: }`. */
  datatype Rule = Rule(kind: Kind, resourceName: Option<string>, options: Options)

  /** The first argument of a declaration, by its Ruby class. */
  datatype NameArgument = HashArg(hash: Options) | SymbolArg(sym: string) | StringArg(str: string) | OtherArg

  /**
   * Splits the first argument into an optional resource name and the options:
   * a Hash is the options and names nothing, a Symbol or String is the name
   * (by `to_s`) and the second argument the options, anything else names
   * nothing and keeps the second argument.
   */
  function ExtractResourceNameAndOptions(arg: NameArgument, options: Options): (r: (Option<string>, Options))
    ensures r.0.Some? <==> arg.SymbolArg? || arg.StringArg?
    ensures arg.SymbolArg? ==> r.0.value == arg.sym
    ensures arg.StringArg? ==> r.0.value == arg.str
    ensures r.1 == if arg.HashArg? then arg.hash else options
  {
    match arg
    case HashArg(h) => (None, h)
    case SymbolArg(s) => (Some(s), options)
    case StringArg(s) => (Some(s), options)
    case OtherArg => (None, options)
  }

  /** The rule a declaration of `kind` registers. */
  function RuleFor(kind: Kind, arg: NameArgument, options: Options): Rule {
    var (name, opts) := ExtractResourceNameAndOptions(arg, options);
    Rule(kind, name, opts)
  }

  /**
   * `skip_action?`: `except` listing the action, or `only` present and not
   * listing it. A rule therefore applies exactly when the action is not
   * excepted and `only` is absent or lists it.
   */
  function SkipAction(options: Options, action: string): (skip: bool)
    ensures !skip <==>
      (options.except.None? || action !in options.except.value) &&
      (options.only.None? || action in options.only.value)
  {
    (options.except.Some? && action in options.except.value) ||
    (options.only.Some? && action !in options.only.value)
  }

  /**
   * `is_parent_resource`: does any rule, scanned in order, list `name` in its
   * `through` option (compared as given, not singularized)?
   */
  function IsThroughTarget(rules: seq<Rule>, name: string): (listed: bool)
    ensures listed <==>
      exists i :: 0 <= i < |rules| && rules[i].options.through.Some? && name in rules[i].options.through.value
  {
    if rules == [] then false
    else if rules[0].options.through.Some? && name in rules[0].options.through.value then true
    else
      var rest := IsThroughTarget(rules[1..], name);
      assert forall i :: 1 <= i < |rules| ==> rules[i] == rules[1..][i - 1];
      rest
  }

  /**
   * A controller class's `resource_options`: the rules in declaration order.
   * Each declaration appends exactly one rule.
   */
  class RuleRegistry {
    var rules: seq<Rule>

    constructor ()
      ensures rules == []
    {
      rules := [];
    }

    /** `store_resource_options`: appends the normalised rule and leaves the earlier ones alone. */
    method StoreResourceOptions(kind: Kind, arg: NameArgument, options: Options)
      modifies this
      ensures |rules| == |old(rules)| + 1
      ensures rules[..|old(rules)|] == old(rules)
      ensures rules[|old(rules)|] == RuleFor(kind, arg, options)
    {
      var (name, opts) := ExtractResourceNameAndOptions(arg, options);
      rules := rules + [Rule(kind, name, opts)];
    }

    /** `load_resource` at class level. */
    method LoadResource(arg: NameArgument, options: Options)
      modifies this
      ensures rules == old(rules) + [RuleFor(Load, arg, options)]
    {
      StoreResourceOptions(Load, arg, options);
    }

    /** `authorize_resource` at class level. */
    method AuthorizeResource(arg: NameArgument, options: Options)
      modifies this
      ensures rules == old(rules) + [RuleFor(Authorize, arg, options)]
    {
      StoreResourceOptions(Authorize, arg, options);
    }

    /** `load_and_authorize_resource` at class level. */
    method LoadAndAuthorizeResource(arg: NameArgument, options: Options)
      modifies this
      ensures rules == old(rules) + [RuleFor(LoadAndAuthorize, arg, options)]
    {
      StoreResourceOptions(LoadAndAuthorize, arg, options);
    }
  }

  /** When `except` and `only` both list the action, the rule is skipped. */
  lemma ExceptWinsOverOnly(options: Options, action: string)
    requires options.except.Some? && action in options.except.value
    requires options.only.Some? && action in options.only.value
    ensures SkipAction(options, action)
  {
  }

  /** A rule with neither `only` nor `except` applies to every action. */
  lemma UnfilteredRuleAlwaysApplies(options: Options, action: string)
    requires options.only.None? && options.except.None?
    ensures !SkipAction(options, action)
  {
  }
}
