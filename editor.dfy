/**
 * The update and validation rules of the exploration editor's request handlers, without the
 * HTTP layer. The widget and rule registries, the object types' normalisers and the
 * exploration's parameter store are inputs (a `Registry`); writing an object to the
 * datastore is modelled by its `stored` field, which only `Put` sets.
 */
module Editor {
  import opened Wrappers

  /** The description and name that mark a ruleset's default rule. */
  const DEFAULT_RULE_NAME: string := "Default"
  /** The only answer handler the editor writes. */
  const SUBMIT: string := "submit"

  const NO_TITLE_MESSAGE: string := "No title supplied."
  const NO_CATEGORY_MESSAGE: string := "No category chosen."
  const NO_STATE_NAME_MESSAGE: string := "Please specify a state name."
  const NOT_OWNER_MESSAGE: string := "Only the exploration owner can add new collaborators."
  const INVALID_RULESET_MESSAGE: string := "Invalid ruleset: the last rule should be a default rule."
  const WRONG_TYPE_MESSAGE: string := "has the wrong type."

  /** A JSON value of a request payload (numbers are integers here). */
  datatype Value = Null | Bool(b: bool) | Int(i: int) | Str(s: string) | List(items: seq<Value>)

  /** The exceptions a handler raises. */
  datatype Error =
    | InvalidInput(message: string)     // InvalidInputException
    | Unauthorized(message: string)     // UnauthorizedUserException
    | InvalidRuleset(message: string)   // ValueError
    | MissingKey(key: string)           // KeyError

  /** A payload string field that is present and non-empty, i.e. truthy. */
  predicate Supplied(v: Option<string>)
  {
    v.Some? && v.value != ""
  }

  /** A payload list field that is present and non-empty. */
  predicate NonEmpty<T>(v: Option<seq<T>>)
  {
    v.Some? && v.value != []
  }

  // ---------------------------------------------------------------------------
  // Required fields: NewExploration.post and ExplorationHandler.post
  // ---------------------------------------------------------------------------

  /** How a new exploration is created: from an uploaded YAML file, or blank. */
  datatype Creation =
    | FromYaml(yaml: string, title: string, category: string)
    | Blank(title: string, category: string)

  /** `NewExploration.post`: a title and a category are required; the title is checked first. */
  function NewExploration(title: Option<string>, category: Option<string>, yaml: string, allowYamlUpload: bool)
    : (r: Result<Creation, Error>)
    ensures r.Success? <==> Supplied(title) && Supplied(category)
    ensures !Supplied(title) ==> r == Failure(InvalidInput(NO_TITLE_MESSAGE))
    ensures Supplied(title) && !Supplied(category) ==> r == Failure(InvalidInput(NO_CATEGORY_MESSAGE))
    ensures r.Success? ==> r.value.title == title.value && r.value.category == category.value
    ensures r.Success? ==> (r.value.FromYaml? <==> yaml != "" && allowYamlUpload)
  {
    if !Supplied(title) then Failure(InvalidInput(NO_TITLE_MESSAGE))
    else if !Supplied(category) then Failure(InvalidInput(NO_CATEGORY_MESSAGE))
    else if yaml != "" && allowYamlUpload then Success(FromYaml(yaml, title.value, category.value))
    else Success(Blank(title.value, category.value))
  }

  /** `ExplorationHandler.post`: the name of the state to add is required. */
  function NewStateName(stateName: Option<string>): (r: Result<string, Error>)
    ensures r.Success? <==> Supplied(stateName)
    ensures r.Success? ==> r.value == stateName.value
    ensures r.Failure? ==> r.error == InvalidInput(NO_STATE_NAME_MESSAGE)
  {
    if Supplied(stateName) then Success(stateName.value) else Failure(InvalidInput(NO_STATE_NAME_MESSAGE))
  }

  // ---------------------------------------------------------------------------
  // Rule normalisation and ruleset validation: StateHandler.put
  // ---------------------------------------------------------------------------

  datatype Parameter = Parameter(name: string, objType: string, description: string, values: seq<Value>)

  /**
   * The collaborators the handlers call: `objTypeOf(widget, rule, param)` is the object type
   * of parameter `param` of rule `rule` of the interactive widget `widget`; `normalize(t, v)`
   * is type `t`'s normaliser, `None` where it rejects `v`; `paramOf(name)` is the
   * exploration's parameter called `name`, created if it did not exist. A normaliser that
   * returns Python's `None` rejects the value: that is `None` here, never `Some(Null)`.
   */
  datatype Registry = Registry(
    objTypeOf: (string, string, string) -> string,
    normalize: (string, Value) -> Option<Value>,
    paramOf: string -> Parameter)

  /** `pattern` occurs in `s` at position `i`. */
  predicate OccursAt(s: string, pattern: string, i: nat)
  {
    i + |pattern| <= |s| && s[i..i + |pattern|] == pattern
  }

  lemma OccursShift(s: string, pattern: string)
    requires s != [] && !OccursAt(s, pattern, 0)
    ensures (exists i: nat :: OccursAt(s[1..], pattern, i)) <==> (exists i: nat :: OccursAt(s, pattern, i))
  {
    if i: nat :| OccursAt(s[1..], pattern, i) {
      assert s[1..][i..i + |pattern|] == s[i + 1..i + 1 + |pattern|];
      assert OccursAt(s, pattern, i + 1);
    }
    if i: nat :| OccursAt(s, pattern, i) {
      assert i > 0;
      assert s[1..][i - 1..i - 1 + |pattern|] == s[i..i + |pattern|];
      assert OccursAt(s[1..], pattern, i - 1);
    }
  }

  /** Python's `pattern in s` on strings. */
  function Contains(s: string, pattern: string): (b: bool)
    ensures b <==> exists i: nat :: OccursAt(s, pattern, i)
    decreases |s|
  {
    if |s| < |pattern| then false
    else if s[..|pattern|] == pattern then assert OccursAt(s, pattern, 0); true
    else
      OccursShift(s, pattern);
      Contains(s[1..], pattern)
  }

  /** A template string: a string holding both `{{` and `}}`. */
  predicate IsTemplate(v: Value)
  {
    v.Str? && Contains(v.s, "{{") && Contains(v.s, "}}")
  }

  /** The value stored for input `param` of rule `ruleName`: templates as given, the rest normalised. */
  function NormalizeInput(reg: Registry, widgetId: string, ruleName: string, param: string, v: Value): Option<Value>
  {
    if !IsTemplate(v) then reg.normalize(reg.objTypeOf(widgetId, ruleName, param), v)
    else Some(v)
  }

  /** A rule's inputs after normalisation, or `None` if some input is rejected. */
  function NormalizeInputs(inputs: map<string, Value>, widgetId: string, ruleName: string, reg: Registry)
    : (r: Option<map<string, Value>>)
    ensures r.Some? <==> forall p :: p in inputs ==> NormalizeInput(reg, widgetId, ruleName, p, inputs[p]).Some?
    ensures r.Some? ==> r.value.Keys == inputs.Keys
    ensures r.Some? ==> forall p :: p in inputs && IsTemplate(inputs[p]) ==> r.value[p] == inputs[p]
    ensures r.Some? ==> forall p :: p in inputs && !IsTemplate(inputs[p]) ==>
              reg.normalize(reg.objTypeOf(widgetId, ruleName, p), inputs[p]) == Some(r.value[p])
  {
    if forall p :: p in inputs ==> NormalizeInput(reg, widgetId, ruleName, p, inputs[p]).Some? then
      Some(map p | p in inputs :: NormalizeInput(reg, widgetId, ruleName, p, inputs[p]).value)
    else None
  }

  /**
   * The loop over a rule's inputs, in whatever order the dict yields them: each input is
   * normalised in place, and the first rejected one stops the update.
   */
  method NormalizeRuleInputs(inputs: map<string, Value>, widgetId: string, ruleName: string, reg: Registry)
    returns (normalized: Option<map<string, Value>>)
    ensures normalized == NormalizeInputs(inputs, widgetId, ruleName, reg)
  {
    var current := inputs;
    var pending := inputs.Keys;
    while pending != {}
      invariant pending <= inputs.Keys
      invariant current.Keys == inputs.Keys
      invariant forall p :: p in pending ==> current[p] == inputs[p]
      invariant forall p :: p in inputs && p !in pending ==>
                  NormalizeInput(reg, widgetId, ruleName, p, inputs[p]) == Some(current[p])
      decreases pending
    {
      var param :| param in pending;
      var value := current[param];
      var objType := reg.objTypeOf(widgetId, ruleName, param);
      var normalizedParam;
      if !IsTemplate(value) {
        normalizedParam := reg.normalize(objType, value);
      } else {
        normalizedParam := Some(value);
      }
      if normalizedParam.None? {
        return None;
      }
      current := current[param := normalizedParam.value];
      pending := pending - {param};
    }
    assert current == map p | p in inputs :: NormalizeInput(reg, widgetId, ruleName, p, inputs[p]).value;
    normalized := Some(current);
  }

  /** One rule of a submitted ruleset, as the editor sends it. */
  datatype RuleInput = RuleInput(
    description: string,
    name: string,
    inputs: map<string, Value>,
    dest: string,
    feedback: seq<string>)

  /** The key the front end adds to the objects it sends, removed before the rules are read. */
  const HASH_KEY: string := "$$hashKey"

  /** `recursively_remove_key(ruleset, '$$hashKey')`: every rule loses that key from its inputs. */
  function RemoveHashKeys(ruleset: seq<RuleInput>): (r: seq<RuleInput>)
    ensures |r| == |ruleset|
    ensures forall i :: 0 <= i < |ruleset| ==>
              && HASH_KEY !in r[i].inputs
              && (forall k :: k != HASH_KEY ==> (k in r[i].inputs <==> k in ruleset[i].inputs))
              && (forall k :: k in r[i].inputs ==> r[i].inputs[k] == ruleset[i].inputs[k])
              && r[i].(inputs := ruleset[i].inputs) == ruleset[i]
  {
    seq(|ruleset|, i requires 0 <= i < |ruleset| => ruleset[i].(inputs := ruleset[i].inputs - {HASH_KEY}))
  }

  /** A stored rule of an answer handler. */
  datatype RuleSpec = RuleSpec(name: string, inputs: map<string, Value>, dest: string, feedback: seq<string>)

  datatype AnswerHandler = AnswerHandler(name: string, ruleSpecs: seq<RuleSpec>)

  /** Whatever rule is described as the default rule is the last one and is named the default rule. */
  predicate DefaultRuleLast(ruleset: seq<RuleInput>)
  {
    forall i :: 0 <= i < |ruleset| && ruleset[i].description == DEFAULT_RULE_NAME ==>
      i == |ruleset| - 1 && ruleset[i].name == DEFAULT_RULE_NAME
  }

  /** The rule spec stored for rule `i` of a ruleset, or the error that rule raises. */
  function ProcessRule(ruleset: seq<RuleInput>, i: nat, widgetId: string, reg: Registry): (r: Result<RuleSpec, Error>)
    requires i < |ruleset|
    ensures r.Success? ==> r.value.name == ruleset[i].name && r.value.dest == ruleset[i].dest
                           && r.value.feedback == ruleset[i].feedback
    ensures ruleset[i].description == DEFAULT_RULE_NAME ==>
              && (r.Success? <==> i == |ruleset| - 1 && ruleset[i].name == DEFAULT_RULE_NAME)
              && (r.Success? ==> r.value.inputs == ruleset[i].inputs)
              && (r.Failure? ==> r.error == InvalidRuleset(INVALID_RULESET_MESSAGE))
    ensures ruleset[i].description != DEFAULT_RULE_NAME ==>
              var n := NormalizeInputs(ruleset[i].inputs, widgetId, ruleset[i].name, reg);
              && (r.Success? <==> n.Some?)
              && (r.Success? ==> r.value.inputs == n.value)
              && (r.Failure? ==> r.error == InvalidInput(WRONG_TYPE_MESSAGE))
  {
    var rule := ruleset[i];
    if rule.description == DEFAULT_RULE_NAME then
      if i != |ruleset| - 1 || rule.name != DEFAULT_RULE_NAME then Failure(InvalidRuleset(INVALID_RULESET_MESSAGE))
      else Success(RuleSpec(rule.name, rule.inputs, rule.dest, rule.feedback))
    else
      match NormalizeInputs(rule.inputs, widgetId, rule.name, reg)
      case None => Failure(InvalidInput(WRONG_TYPE_MESSAGE))
      case Some(inputs) => Success(RuleSpec(rule.name, inputs, rule.dest, rule.feedback))
  }

  /** The rule specs built from the first `k` rules, or the error of the first rule that raises. */
  function BuildRuleSpecs(ruleset: seq<RuleInput>, k: nat, widgetId: string, reg: Registry)
    : Result<seq<RuleSpec>, Error>
    requires k <= |ruleset|
  {
    if k == 0 then Success([])
    else
      match BuildRuleSpecs(ruleset, k - 1, widgetId, reg)
      case Failure(e) => Failure(e)
      case Success(specs) =>
        match ProcessRule(ruleset, k - 1, widgetId, reg)
        case Failure(e) => Failure(e)
        case Success(spec) => Success(specs + [spec])
  }

  /** An accepted prefix holds one spec per rule, in the rules' order. */
  lemma {:induction false} BuildRuleSpecsInOrder(ruleset: seq<RuleInput>, k: nat, widgetId: string, reg: Registry)
    requires k <= |ruleset|
    ensures BuildRuleSpecs(ruleset, k, widgetId, reg).Success? <==>
              forall i :: 0 <= i < k ==> ProcessRule(ruleset, i, widgetId, reg).Success?
    ensures BuildRuleSpecs(ruleset, k, widgetId, reg).Success? ==>
              var specs := BuildRuleSpecs(ruleset, k, widgetId, reg).value;
              |specs| == k && forall i :: 0 <= i < k ==> ProcessRule(ruleset, i, widgetId, reg) == Success(specs[i])
  {
    if k > 0 {
      BuildRuleSpecsInOrder(ruleset, k - 1, widgetId, reg);
    }
  }

  /** A rejected prefix reports the error of its first failing rule. */
  lemma {:induction false} BuildRuleSpecsFirstError(ruleset: seq<RuleInput>, k: nat, widgetId: string, reg: Registry)
    requires k <= |ruleset|
    requires BuildRuleSpecs(ruleset, k, widgetId, reg).Failure?
    ensures exists i :: 0 <= i < k && ProcessRule(ruleset, i, widgetId, reg).Failure?
                        && BuildRuleSpecs(ruleset, k, widgetId, reg).error == ProcessRule(ruleset, i, widgetId, reg).error
                        && forall j :: 0 <= j < i ==> ProcessRule(ruleset, j, widgetId, reg).Success?
  {
    BuildRuleSpecsInOrder(ruleset, k - 1, widgetId, reg);
    if BuildRuleSpecs(ruleset, k - 1, widgetId, reg).Failure? {
      BuildRuleSpecsFirstError(ruleset, k - 1, widgetId, reg);
    }
  }

  /** Once a rule fails, the whole ruleset fails with that rule's error. */
  lemma {:induction false} BuildRuleSpecsStopsAtError(ruleset: seq<RuleInput>, k: nat, m: nat, widgetId: string, reg: Registry)
    requires k <= m <= |ruleset|
    requires BuildRuleSpecs(ruleset, k, widgetId, reg).Failure?
    ensures BuildRuleSpecs(ruleset, m, widgetId, reg) == BuildRuleSpecs(ruleset, k, widgetId, reg)
    decreases m - k
  {
    if k < m {
      BuildRuleSpecsStopsAtError(ruleset, k + 1, m, widgetId, reg);
    }
  }

  /** Rule `i` passes the handler's checks. */
  predicate RuleAccepted(ruleset: seq<RuleInput>, i: nat, widgetId: string, reg: Registry)
    requires i < |ruleset|
  {
    if ruleset[i].description == DEFAULT_RULE_NAME then i == |ruleset| - 1 && ruleset[i].name == DEFAULT_RULE_NAME
    else NormalizeInputs(ruleset[i].inputs, widgetId, ruleset[i].name, reg).Some?
  }

  /**
   * A ruleset is accepted exactly when its default rule, if any, is last and named the default
   * rule, and every other rule's inputs normalise.
   */
  lemma RulesetAccepted(ruleset: seq<RuleInput>, widgetId: string, reg: Registry)
    ensures BuildRuleSpecs(ruleset, |ruleset|, widgetId, reg).Success? <==>
              && DefaultRuleLast(ruleset)
              && forall i :: 0 <= i < |ruleset| && ruleset[i].description != DEFAULT_RULE_NAME ==>
                   NormalizeInputs(ruleset[i].inputs, widgetId, ruleset[i].name, reg).Some?
  {
    BuildRuleSpecsInOrder(ruleset, |ruleset|, widgetId, reg);
    if BuildRuleSpecs(ruleset, |ruleset|, widgetId, reg).Success? {
      forall i | 0 <= i < |ruleset|
        ensures ruleset[i].description == DEFAULT_RULE_NAME ==> i == |ruleset| - 1 && ruleset[i].name == DEFAULT_RULE_NAME
        ensures ruleset[i].description != DEFAULT_RULE_NAME ==>
                  NormalizeInputs(ruleset[i].inputs, widgetId, ruleset[i].name, reg).Some?
      {
        assert ProcessRule(ruleset, i, widgetId, reg).Success?;
      }
    } else {
      var i :| 0 <= i < |ruleset| && ProcessRule(ruleset, i, widgetId, reg).Failure?;
      assert !RuleAccepted(ruleset, i, widgetId, reg);
    }
  }

  /**
   * An accepted ruleset is stored rule for rule, in order: same names, destinations and
   * feedback; the default rule's inputs as given; every other input as a template string
   * unchanged, else as its type's normaliser returned it.
   */
  lemma AcceptedRulesetStored(ruleset: seq<RuleInput>, widgetId: string, reg: Registry)
    requires BuildRuleSpecs(ruleset, |ruleset|, widgetId, reg).Success?
    ensures var specs := BuildRuleSpecs(ruleset, |ruleset|, widgetId, reg).value;
      && |specs| == |ruleset|
      && forall i :: 0 <= i < |ruleset| ==>
           && specs[i].name == ruleset[i].name && specs[i].dest == ruleset[i].dest
           && specs[i].feedback == ruleset[i].feedback
           && specs[i].inputs.Keys == ruleset[i].inputs.Keys
           && (ruleset[i].description == DEFAULT_RULE_NAME ==> specs[i].inputs == ruleset[i].inputs)
           && (forall p :: p in ruleset[i].inputs && IsTemplate(ruleset[i].inputs[p]) ==>
                 specs[i].inputs[p] == ruleset[i].inputs[p])
           && (ruleset[i].description != DEFAULT_RULE_NAME ==>
                 forall p :: p in ruleset[i].inputs && !IsTemplate(ruleset[i].inputs[p]) ==>
                   reg.normalize(reg.objTypeOf(widgetId, ruleset[i].name, p), ruleset[i].inputs[p])
                   == Some(specs[i].inputs[p]))
  {
    BuildRuleSpecsInOrder(ruleset, |ruleset|, widgetId, reg);
  }

  // --- the state and its update ---

  datatype Content = Content(contentType: string, value: string)

  /** A parameter change of the payload: a parameter name and its new values. */
  datatype ParamChange = ParamChange(name: string, values: seq<Value>)

  /** The fields of a state that `StateHandler.put` may change. */
  datatype StateProps = StateProps(
    name: string,
    paramChanges: seq<Parameter>,
    widgetId: string,
    widgetParams: map<string, Value>,
    sticky: bool,
    handlers: seq<AnswerHandler>,
    content: seq<Content>)

  /** The payload of `StateHandler.put`; `None` is a key that is absent (or null). */
  datatype StatePayload = StatePayload(
    stateName: Option<string>,
    paramChanges: Option<seq<ParamChange>>,
    interactiveWidget: Option<string>,
    interactiveParams: Option<map<string, Value>>,
    stickyInteractiveWidget: Option<bool>,
    interactiveRulesets: Option<map<string, seq<RuleInput>>>,
    content: Option<seq<Content>>)

  /** The rulesets field is truthy: a non-empty dict. */
  predicate RulesetsSupplied(payload: StatePayload)
  {
    payload.interactiveRulesets.Some? && payload.interactiveRulesets.value.Keys != {}
  }

  /** The exploration's parameters named by the changes, each carrying its new values. */
  function ParamChangesFrom(changes: seq<ParamChange>, reg: Registry): (r: seq<Parameter>)
    ensures |r| == |changes|
    ensures forall i :: 0 <= i < |changes| ==>
              r[i].values == changes[i].values && r[i].name == reg.paramOf(changes[i].name).name
              && r[i].objType == reg.paramOf(changes[i].name).objType
              && r[i].description == reg.paramOf(changes[i].name).description
  {
    if changes == [] then []
    else
      var c := changes[|changes| - 1];
      ParamChangesFrom(changes[..|changes| - 1], reg) + [reg.paramOf(c.name).(values := c.values)]
  }

  /** The state fields set before the ruleset is read, in the handler's order. */
  function UpdatedStateFields(p: StateProps, payload: StatePayload, reg: Registry): (r: StateProps)
    ensures r.name == if payload.stateName.Some? then payload.stateName.value else p.name
    ensures r.paramChanges == if payload.paramChanges.Some? then ParamChangesFrom(payload.paramChanges.value, reg) else p.paramChanges
    ensures r.widgetId == if Supplied(payload.interactiveWidget) then payload.interactiveWidget.value else p.widgetId
    ensures r.widgetParams == if payload.interactiveParams.Some? then payload.interactiveParams.value else p.widgetParams
    ensures r.sticky == if payload.stickyInteractiveWidget.Some? then payload.stickyInteractiveWidget.value else p.sticky
    ensures r.handlers == p.handlers && r.content == p.content
  {
    var p1 := if payload.stateName.Some? then p.(name := payload.stateName.value) else p;
    var p2 := if payload.paramChanges.Some? then p1.(paramChanges := ParamChangesFrom(payload.paramChanges.value, reg)) else p1;
    var p3 := if Supplied(payload.interactiveWidget) then p2.(widgetId := payload.interactiveWidget.value) else p2;
    var p4 := if payload.interactiveParams.Some? then p3.(widgetParams := payload.interactiveParams.value) else p3;
    if payload.stickyInteractiveWidget.Some? then p4.(sticky := payload.stickyInteractiveWidget.value) else p4
  }

  function WithContent(p: StateProps, payload: StatePayload): (r: StateProps)
    ensures r.content == if NonEmpty(payload.content) then payload.content.value else p.content
    ensures r == p.(content := r.content)
  {
    if NonEmpty(payload.content) then p.(content := payload.content.value) else p
  }

  /** What `StateHandler.put` leaves stored for a state, or the error it raises. */
  function UpdatedState(p: StateProps, payload: StatePayload, reg: Registry): (r: Result<StateProps, Error>)
    ensures !RulesetsSupplied(payload) ==> r.Success? && r.value.handlers == p.handlers
    ensures RulesetsSupplied(payload) && SUBMIT !in payload.interactiveRulesets.value ==>
              r == Failure(MissingKey(SUBMIT))
    ensures RulesetsSupplied(payload) && SUBMIT in payload.interactiveRulesets.value ==>
              var ruleset := RemoveHashKeys(payload.interactiveRulesets.value[SUBMIT]);
              var widgetId := if Supplied(payload.interactiveWidget) then payload.interactiveWidget.value else p.widgetId;
              && (r.Success? <==> BuildRuleSpecs(ruleset, |ruleset|, widgetId, reg).Success?)
              && (r.Success? ==> r.value.handlers == [AnswerHandler(SUBMIT, BuildRuleSpecs(ruleset, |ruleset|, widgetId, reg).value)])
              && (r.Failure? ==> r.error == BuildRuleSpecs(ruleset, |ruleset|, widgetId, reg).error)
    ensures r.Success? ==> r.value.widgetId == if Supplied(payload.interactiveWidget) then payload.interactiveWidget.value else p.widgetId
    ensures r.Success? ==> r.value.name == if payload.stateName.Some? then payload.stateName.value else p.name
    ensures r.Success? && payload.paramChanges.None? ==> r.value.paramChanges == p.paramChanges
    ensures r.Success? && payload.paramChanges.Some? ==>
              r.value.paramChanges == ParamChangesFrom(payload.paramChanges.value, reg)
    ensures r.Success? ==> r.value.widgetParams == if payload.interactiveParams.Some? then payload.interactiveParams.value else p.widgetParams
    ensures r.Success? ==> r.value.sticky == if payload.stickyInteractiveWidget.Some? then payload.stickyInteractiveWidget.value else p.sticky
    ensures r.Success? ==> r.value.content == if NonEmpty(payload.content) then payload.content.value else p.content
  {
    var fields := UpdatedStateFields(p, payload, reg);
    if RulesetsSupplied(payload) then
      if SUBMIT !in payload.interactiveRulesets.value then Failure(MissingKey(SUBMIT))
      else
        var ruleset := RemoveHashKeys(payload.interactiveRulesets.value[SUBMIT]);
        match BuildRuleSpecs(ruleset, |ruleset|, fields.widgetId, reg)
        case Failure(e) => Failure(e)
        case Success(specs) => Success(WithContent(fields.(handlers := [AnswerHandler(SUBMIT, specs)]), payload))
    else Success(WithContent(fields, payload))
  }

  class State {
    var name: string
    var paramChanges: seq<Parameter>
    var widgetId: string
    var widgetParams: map<string, Value>
    var sticky: bool
    var handlers: seq<AnswerHandler>
    var content: seq<Content>
    /** What the datastore holds for this state. */
    var stored: StateProps

    function Props(): StateProps
      reads this
    {
      StateProps(name, paramChanges, widgetId, widgetParams, sticky, handlers, content)
    }

    constructor (props: StateProps)
      ensures Props() == props && stored == props
    {
      name, paramChanges, widgetId, widgetParams := props.name, props.paramChanges, props.widgetId, props.widgetParams;
      sticky, handlers, content := props.sticky, props.handlers, props.content;
      stored := props;
    }

    /** `state.put()`: write the state to the datastore. */
    method Put()
      modifies this`stored
      ensures stored == Props()
    {
      stored := Props();
    }
  }

  /** The parameter-change loop: the state's changes become the named parameters with their new values. */
  method SetParamChanges(state: State, changes: seq<ParamChange>, reg: Registry)
    modifies state`paramChanges
    ensures state.paramChanges == ParamChangesFrom(changes, reg)
  {
    state.paramChanges := [];
    for i := 0 to |changes|
      invariant state.paramChanges == ParamChangesFrom(changes[..i], reg)
    {
      var instance := reg.paramOf(changes[i].name).(values := changes[i].values);
      state.paramChanges := state.paramChanges + [instance];
      assert changes[..i + 1][..i] == changes[..i];
    }
    assert changes[..|changes|] == changes;
  }

  /**
   * The ruleset loop: the state gets a single `submit` handler whose rule specs are appended
   * one per rule; the first rule that raises stops the loop with its error.
   */
  method SetSubmitRules(state: State, ruleset: seq<RuleInput>, reg: Registry) returns (outcome: Outcome<Error>)
    modifies state`handlers
    ensures var expected := BuildRuleSpecs(ruleset, |ruleset|, state.widgetId, reg);
      && (expected.Success? ==> outcome == Pass && state.handlers == [AnswerHandler(SUBMIT, expected.value)])
      && (expected.Failure? ==> outcome == Fail(expected.error))
  {
    state.handlers := [AnswerHandler(SUBMIT, [])];
    for i := 0 to |ruleset|
      invariant BuildRuleSpecs(ruleset, i, state.widgetId, reg).Success?
      invariant state.handlers == [AnswerHandler(SUBMIT, BuildRuleSpecs(ruleset, i, state.widgetId, reg).value)]
    {
      var rule := ruleset[i];
      var stateRule := RuleSpec(rule.name, rule.inputs, rule.dest, rule.feedback);
      if rule.description == DEFAULT_RULE_NAME {
        if i != |ruleset| - 1 || rule.name != DEFAULT_RULE_NAME {
          BuildRuleSpecsStopsAtError(ruleset, i + 1, |ruleset|, state.widgetId, reg);
          return Fail(InvalidRuleset(INVALID_RULESET_MESSAGE));
        }
      } else {
        var normalized := NormalizeRuleInputs(rule.inputs, state.widgetId, rule.name, reg);
        if normalized.None? {
          BuildRuleSpecsStopsAtError(ruleset, i + 1, |ruleset|, state.widgetId, reg);
          return Fail(InvalidInput(WRONG_TYPE_MESSAGE));
        }
        stateRule := stateRule.(inputs := normalized.value);
      }
      state.handlers := [state.handlers[0].(ruleSpecs := state.handlers[0].ruleSpecs + [stateRule])];
    }
    outcome := Pass;
  }

  /** The assignments made before the ruleset is read. */
  method SetStateFields(state: State, payload: StatePayload, reg: Registry)
    modifies state`name, state`paramChanges, state`widgetId, state`widgetParams, state`sticky
    ensures state.Props() == UpdatedStateFields(old(state.Props()), payload, reg)
  {
    ghost var p0 := state.Props();
    if payload.stateName.Some? {
      state.name := payload.stateName.value;
    }
    ghost var p1 := state.Props();
    assert p1 == if payload.stateName.Some? then p0.(name := payload.stateName.value) else p0;
    if payload.paramChanges.Some? {
      SetParamChanges(state, payload.paramChanges.value, reg);
    }
    ghost var p2 := state.Props();
    assert p2 == if payload.paramChanges.Some? then p1.(paramChanges := ParamChangesFrom(payload.paramChanges.value, reg)) else p1;
    if Supplied(payload.interactiveWidget) {
      state.widgetId := payload.interactiveWidget.value;
    }
    ghost var p3 := state.Props();
    assert p3 == if Supplied(payload.interactiveWidget) then p2.(widgetId := payload.interactiveWidget.value) else p2;
    if payload.interactiveParams.Some? {
      state.widgetParams := payload.interactiveParams.value;
    }
    ghost var p4 := state.Props();
    assert p4 == if payload.interactiveParams.Some? then p3.(widgetParams := payload.interactiveParams.value) else p3;
    if payload.stickyInteractiveWidget.Some? {
      state.sticky := payload.stickyInteractiveWidget.value;
    }
  }

  /**
   * `StateHandler.put`: update the state's fields in place, in the handler's order, and write
   * it only if no rule raised. On an error nothing is written.
   */
  method UpdateState(state: State, payload: StatePayload, reg: Registry) returns (outcome: Outcome<Error>)
    modifies state
    ensures var expected := UpdatedState(old(state.Props()), payload, reg);
      && (expected.Success? ==> outcome == Pass && state.Props() == expected.value && state.stored == expected.value)
      && (expected.Failure? ==> outcome == Fail(expected.error) && state.stored == old(state.stored))
  {
    SetStateFields(state, payload, reg);
    ghost var fields := state.Props();
    if RulesetsSupplied(payload) {
      var rulesets := payload.interactiveRulesets.value;
      if SUBMIT !in rulesets {
        return Fail(MissingKey(SUBMIT));
      }
      var ruleset := RemoveHashKeys(rulesets[SUBMIT]);
      outcome := SetSubmitRules(state, ruleset, reg);
      if outcome.Fail? {
        return;
      }
      assert state.Props() == fields.(handlers := state.handlers);
    }
    if NonEmpty(payload.content) {
      state.content := payload.content.value;
    }
    state.Put();
    outcome := Pass;
  }

  // ---------------------------------------------------------------------------
  // Exploration properties: ExplorationHandler.put
  // ---------------------------------------------------------------------------

  /** The fields of an exploration that `ExplorationHandler.put` may change. */
  datatype ExplorationProps = ExplorationProps(
    isPublic: bool,
    category: string,
    title: string,
    imageId: Option<string>,
    editorIds: seq<string>,
    parameters: seq<Parameter>)

  /**
   * The payload of `ExplorationHandler.put`. `imageId` is `None` when the key is absent and
   * `Some(None)` when it is present with a null value.
   */
  datatype ExplorationPayload = ExplorationPayload(
    isPublic: Option<bool>,
    category: Option<string>,
    title: Option<string>,
    imageId: Option<Option<string>>,
    editors: Option<seq<string>>,
    parameters: Option<seq<Parameter>>)

  /** The requester may replace the editor list: the list is non-empty and they head it. */
  predicate IsOwner(p: ExplorationProps, userId: string)
  {
    |p.editorIds| > 0 && userId == p.editorIds[0]
  }

  /** The fields set before the editor list is checked. */
  function UpdatedScalarFields(p: ExplorationProps, payload: ExplorationPayload): ExplorationProps
  {
    var p1 := if payload.isPublic == Some(true) then p.(isPublic := true) else p;
    var p2 := if Supplied(payload.category) then p1.(category := payload.category.value) else p1;
    var p3 := if Supplied(payload.title) then p2.(title := payload.title.value) else p2;
    if payload.imageId.Some? then
      p3.(imageId := if payload.imageId.value == Some("null") then None else payload.imageId.value)
    else p3
  }

  /** What `ExplorationHandler.put` leaves stored for an exploration, or the error it raises. */
  function UpdatedExploration(p: ExplorationProps, userId: string, payload: ExplorationPayload)
    : (r: Result<ExplorationProps, Error>)
    ensures r.Success? <==> !NonEmpty(payload.editors) || IsOwner(p, userId)
    ensures r.Failure? ==> r.error == Unauthorized(NOT_OWNER_MESSAGE)
    ensures r.Success? ==> (p.isPublic ==> r.value.isPublic)
                           && (r.value.isPublic <==> p.isPublic || payload.isPublic == Some(true))
    ensures r.Success? ==> r.value.category == if Supplied(payload.category) then payload.category.value else p.category
    ensures r.Success? ==> r.value.title == if Supplied(payload.title) then payload.title.value else p.title
    ensures r.Success? && payload.imageId.None? ==> r.value.imageId == p.imageId
    ensures r.Success? && payload.imageId == Some(Some("null")) ==> r.value.imageId == None
    ensures r.Success? && payload.imageId.Some? && payload.imageId != Some(Some("null")) ==>
              r.value.imageId == payload.imageId.value
    ensures r.Success? ==> r.value.editorIds == if NonEmpty(payload.editors) then payload.editors.value else p.editorIds
    ensures r.Success? ==> r.value.parameters == if NonEmpty(payload.parameters) then payload.parameters.value else p.parameters
  {
    var p1 := UpdatedScalarFields(p, payload);
    if NonEmpty(payload.editors) && !IsOwner(p, userId) then Failure(Unauthorized(NOT_OWNER_MESSAGE))
    else
      var p2 := if NonEmpty(payload.editors) then p1.(editorIds := payload.editors.value) else p1;
      Success(if NonEmpty(payload.parameters) then p2.(parameters := payload.parameters.value) else p2)
  }

  class Exploration {
    var isPublic: bool
    var category: string
    var title: string
    var imageId: Option<string>
    var editorIds: seq<string>
    var parameters: seq<Parameter>
    /** What the datastore holds for this exploration. */
    var stored: ExplorationProps

    function Props(): ExplorationProps
      reads this
    {
      ExplorationProps(isPublic, category, title, imageId, editorIds, parameters)
    }

    constructor (props: ExplorationProps)
      ensures Props() == props && stored == props
    {
      isPublic, category, title, imageId := props.isPublic, props.category, props.title, props.imageId;
      editorIds, parameters := props.editorIds, props.parameters;
      stored := props;
    }

    /** `add_editor`: append an editor to the list. */
    method AddEditor(editorId: string)
      modifies this`editorIds
      ensures editorIds == old(editorIds) + [editorId]
    {
      editorIds := editorIds + [editorId];
    }

    /** `exploration.put()`: write the exploration to the datastore. */
    method Put()
      modifies this`stored
      ensures stored == Props()
    {
      stored := Props();
    }
  }

  /** The assignments made before the editor list is checked. */
  method SetScalarFields(exploration: Exploration, payload: ExplorationPayload)
    modifies exploration`isPublic, exploration`category, exploration`title, exploration`imageId
    ensures exploration.Props() == UpdatedScalarFields(old(exploration.Props()), payload)
  {
    ghost var p0 := exploration.Props();
    if payload.isPublic == Some(true) {
      exploration.isPublic := true;
    }
    ghost var p1 := exploration.Props();
    assert p1 == if payload.isPublic == Some(true) then p0.(isPublic := true) else p0;
    if Supplied(payload.category) {
      exploration.category := payload.category.value;
    }
    ghost var p2 := exploration.Props();
    assert p2 == if Supplied(payload.category) then p1.(category := payload.category.value) else p1;
    if Supplied(payload.title) {
      exploration.title := payload.title.value;
    }
    ghost var p3 := exploration.Props();
    assert p3 == if Supplied(payload.title) then p2.(title := payload.title.value) else p2;
    if payload.imageId.Some? {
      exploration.imageId := if payload.imageId.value == Some("null") then None else payload.imageId.value;
    }
  }

  /** The editor loop: the list is emptied and each new editor added in turn. */
  method SetEditors(exploration: Exploration, editors: seq<string>)
    modifies exploration`editorIds
    ensures exploration.editorIds == editors
  {
    exploration.editorIds := [];
    for i := 0 to |editors|
      invariant exploration.editorIds == editors[..i]
    {
      exploration.AddEditor(editors[i]);
      assert editors[..i + 1] == editors[..i] + [editors[i]];
    }
    assert editors[..|editors|] == editors;
  }

  /**
   * `ExplorationHandler.put`: set the supplied fields in place and write the exploration; a
   * requester who is not the owner but sends an editor list gets an error, and nothing is
   * written (the fields already set stay set on the object in memory only).
   */
  method UpdateExploration(exploration: Exploration, userId: string, payload: ExplorationPayload)
    returns (outcome: Outcome<Error>)
    modifies exploration
    ensures var expected := UpdatedExploration(old(exploration.Props()), userId, payload);
      && (expected.Success? ==> outcome == Pass && exploration.Props() == expected.value
                                && exploration.stored == expected.value)
      && (expected.Failure? ==> outcome == Fail(expected.error) && exploration.stored == old(exploration.stored)
                                && exploration.Props() == UpdatedScalarFields(old(exploration.Props()), payload))
  {
    SetScalarFields(exploration, payload);
    ghost var fields := exploration.Props();
    if NonEmpty(payload.editors) {
      if IsOwner(exploration.Props(), userId) {
        SetEditors(exploration, payload.editors.value);
      } else {
        return Fail(Unauthorized(NOT_OWNER_MESSAGE));
      }
    }
    if NonEmpty(payload.parameters) {
      exploration.parameters := payload.parameters.value;
    }
    exploration.Put();
    outcome := Pass;
  }
}
