# Oppia editor and statistics core in Dafny

This project models two pieces of the Oppia exploration editor backend and proves what
they promise.

- **Improvable states** (`StatsServices`, with the generic stable sort in `Ranking`).
  `get_top_improvable_states` walks every state of every exploration. It skips states
  nobody entered. It raises a "default" flag when the default rule's answer count exceeds
  a fifth of the state's entry count and that rule loops back to the state. It raises an
  "incomplete" flag when more than a fifth of the entries left without answering. The higher flag becomes the state's
  rank and type, and on a tie "default" wins. Unflagged states are dropped, the rest are
  stable-sorted by rank, highest first, and the first N are returned. The loop is a method
  proved equal to a specification function, and lemmas about that function give the bound,
  the filtering, the order and stability on ties.
- **Statistics export** (`StatsServices`). `export_exploration_stats_to_dict` collects the
  top answers of every rule of every state and the entry count of every state. It then
  builds two-way chart splits: "This rule" / "Other answers" per rule and "No answer" /
  "Answer given" per state. Each split adds back up to the state's entry count, and
  "Answer given" is the sum of the rules' counts in whatever order the dict yields them.
- **Editor handlers** (`Editor`). The handlers are classes `Exploration` and `State`, whose
  fields the handlers update in place. A `stored` field stands for the datastore copy, and
  only `Put` writes it.
  - `StateHandler.put` applies the supplied fields. It rebuilds the single `submit` answer
    handler rule by rule. The default rule must be last and named the default rule. Every
    other rule's inputs are normalised, except template strings holding `{{` and `}}`,
    which pass through unchanged. The first failing rule aborts the update before anything
    is written.
  - `ExplorationHandler.put` sets only the supplied fields, and `is_public` can only become
    true. Only the owner, the first editor, may replace the editor list; for anyone else
    the handler raises before writing.
  - `NewExploration.post` and `ExplorationHandler.post` check their required fields.

The datastore, the widget and rule registries, the object types' normalisers and the
answer logs are inputs: functions passed in (`Registry`, `counter`, `stateById`,
`topAnswers`). Python 2's unspecified dict iteration order is modelled by choosing the next
key arbitrarily (`:|`). Every property about such a loop holds for all orders.

Files: `wrappers.dfy` (Option, Result, Outcome), `ranking.dfy`, `stats_services.dfy`,
`editor.dfy`.

## Model

| member | source | states |
|---|---|---|
| Ranking.SortDescIsStable | oppia/domain/stats_services.py:171-173 | the descending sort is a permutation of its input, its ranks never increase, and elements of equal rank keep their input order (Python's stable `sorted(..., reverse=True)`) |
| Ranking.StableSortUnique | oppia/domain/stats_services.py:188-191 | two sequences that are both sorted by rank, highest first, and keep every equal-rank class in the same order are equal |
| Ranking.StableSortIsSortDesc | oppia/domain/stats_services.py:188-191 | any stable descending sort of the input is the model's sort, so the model returns exactly what Python's sort returns |
| StatsServices.SortDescOfTwo | oppia/domain/stats_services.py:170-175 | of two flags the higher-ranked comes first; on equal rank the one appended first stays first |
| StatsServices.RankState | oppia/domain/stats_services.py:151-186 | a state's rank is nonzero exactly when a flag is eligible; the rank is the larger eligible count; the type is "default" exactly when the default flag is eligible and not beaten by the incomplete count, "incomplete" exactly when that flag is eligible and strictly larger, "" exactly when the rank is 0; the ids and names are the state's |
| StatsServices.SliceTo | oppia/domain/stats_services.py:192 | Python's `s[:n]`: a prefix of `s`, of length `min(n, len)` for `n >= 0` and `len + n` (at least 0) for negative `n` |
| StatsServices.GetTopImprovableStates | oppia/domain/stats_services.py:135-192 | the nested loops return exactly the specification's top states: at most N of them, each flagged and ranked from an entered state, sorted by rank, highest first |
| StatsServices.RankedInFromEnteredStates | oppia/domain/stats_services.py:141-186 | every state ranked for one exploration comes from one of its states with a nonzero entry count |
| StatsServices.EnteredStatesInRankedIn | oppia/domain/stats_services.py:141-186 | every entered state of an exploration is ranked |
| StatsServices.RankedFromEnteredStates | oppia/domain/stats_services.py:139-186 | every ranked state comes from an entered state of one of the explorations, so states never entered never appear |
| StatsServices.EnteredStatesRanked | oppia/domain/stats_services.py:139-186 | conversely, every entered state of every exploration is ranked |
| StatsServices.ProblemStatesFilter | oppia/domain/stats_services.py:189 | the filter keeps exactly the ranked states with a nonzero rank and keeps each nonzero-rank class in visit order |
| StatsServices.TopIsFlagged | oppia/domain/stats_services.py:188-192 | the result has at most N entries, and every entry has a nonzero rank and is a ranked state |
| StatsServices.TopIsHighestRanked | oppia/domain/stats_services.py:188-192 | the result is sorted by rank, highest first, and every flagged state left out ranks no higher than any state returned |
| StatsServices.TopKeepsVisitOrderOnTies | oppia/domain/stats_services.py:188-191 | the returned states of any one rank are a prefix of the ranked states of that rank, in visit order |
| StatsServices.TopStatesWereEntered | oppia/domain/stats_services.py:147-192 | every returned state is the ranking of a state with a nonzero entry count |
| StatsServices.ThisRuleTotalRemove | oppia/domain/stats_services.py:106-111 | the sum of the rules' counts is the same whichever rule is taken out first |
| StatsServices.ThisRuleTotalAdd | oppia/domain/stats_services.py:106-111 | adding a rule adds its count to the sum |
| StatsServices.CollectAnswers | oppia/domain/stats_services.py:73-88 | one entry per state id, holding the state's name and, for every rule key of its handlers, that rule's top answers |
| StatsServices.CountEntries | oppia/domain/stats_services.py:90-98 | one entry per state id, holding the state's name and its total entry count |
| StatsServices.ChartRules | oppia/domain/stats_services.py:105-116 | per rule, "This rule" is the sum of the rule's answer counts and "This rule" + "Other answers" is the state's count; the running total is the sum over all rules |
| StatsServices.ExportExplorationStats | oppia/domain/stats_services.py:63-132 | visits and completions are the first-entry counts of the initial state and of END; every state gets charts whose per-rule splits and "No answer" + "Answer given" add up to the state's count, with "Answer given" the sum of the rules' counts |
| Editor.NewExploration | oppia/controllers/editor.py:36-53 | creation succeeds exactly when title and category are both non-empty; a missing title is reported first, then a missing category; the YAML route is taken exactly when YAML is sent and uploads are allowed |
| Editor.NewStateName | oppia/controllers/editor.py:128-130 | adding a state succeeds exactly when a non-empty state name is supplied, otherwise it fails with "Please specify a state name." |
| Editor.Contains | oppia/controllers/editor.py:268-269 | Python's substring test: true exactly when the pattern occurs at some position |
| Editor.NormalizeInputs | oppia/controllers/editor.py:263-279 | a rule's inputs are accepted exactly when every input normalises; the keys stay the same, template strings are kept unchanged, and every other input becomes what its type's normaliser returned |
| Editor.NormalizeRuleInputs | oppia/controllers/editor.py:263-279 | the loop over the inputs, in any key order, returns exactly the normalised inputs or the rejection |
| Editor.ProcessRule | oppia/controllers/editor.py:247-279 | a default-described rule is accepted exactly when it is last and named the default rule, and keeps its inputs; any other rule is accepted exactly when its inputs normalise, and is stored with them; name, destination and feedback are kept; the errors are the invalid-ruleset ValueError and the wrong-type input error |
| Editor.BuildRuleSpecsInOrder | oppia/controllers/editor.py:246-281 | a ruleset prefix is accepted exactly when each of its rules is, and then it yields one spec per rule, in order |
| Editor.BuildRuleSpecsFirstError | oppia/controllers/editor.py:246-281 | a rejected ruleset reports the error of its first failing rule, all earlier rules having been accepted |
| Editor.BuildRuleSpecsStopsAtError | oppia/controllers/editor.py:253-277 | once a rule raises, the later rules change nothing: the whole ruleset fails with that error |
| Editor.RulesetAccepted | oppia/controllers/editor.py:253-277 | a ruleset is accepted exactly when its default rule, if any, is last and named the default rule, and every other rule's inputs normalise |
| Editor.AcceptedRulesetStored | oppia/controllers/editor.py:238-281 | an accepted ruleset is stored rule for rule in order, with the same names, destinations, feedback and input keys; template inputs and the default rule's inputs are kept, and every other input is its normalised value |
| Editor.RemoveHashKeys | oppia/controllers/editor.py:235-236 | the ruleset keeps its rules in order, each unchanged except that its inputs no longer hold the `$$hashKey` key and keep every other key and value |
| Editor.ParamChangesFrom | oppia/controllers/editor.py:217-223 | the new parameter changes have the payload's length and order; each is the named parameter, with its name, type and description kept, carrying the payload's values |
| Editor.UpdatedState | oppia/controllers/editor.py:204-293 | the stored state after `put`: a missing `submit` ruleset is a KeyError; with rulesets the update succeeds exactly when the ruleset, with `$$hashKey` removed and read against the updated widget id, is accepted, and the handlers become one `submit` handler with its specs; without rulesets the handlers are unchanged; the name, widget id, widget params, sticky flag, parameter changes (exactly the named parameters with the new values) and content are replaced only when supplied |
| Editor.State.Put | oppia/controllers/editor.py:293 | writing a state stores its current fields |
| Editor.SetStateFields | oppia/controllers/editor.py:214-232 | the in-place assignments before the ruleset, each only when its payload key is supplied |
| Editor.SetParamChanges | oppia/controllers/editor.py:217-223 | the append loop leaves exactly the specified parameter changes |
| Editor.SetSubmitRules | oppia/controllers/editor.py:234-281 | the rule loop leaves one `submit` handler with the specified specs, or returns the first rule's error |
| Editor.UpdateState | oppia/controllers/editor.py:201-295 | the handler's in-place update stores exactly the specified state, or returns the specified error with nothing stored |
| Editor.UpdatedExploration | oppia/controllers/editor.py:137-172 | the stored exploration after `put`: it fails with "Only the exploration owner can add new collaborators." exactly when a non-empty editor list is sent by someone other than the first editor; `is_public` only becomes true; category and title change only when non-empty; image id changes only when the key is present, with 'null' clearing it; editors and parameters are replaced only when non-empty |
| Editor.Exploration.AddEditor | oppia/controllers/editor.py:159-160 | an editor is appended to the list |
| Editor.Exploration.Put | oppia/controllers/editor.py:172 | writing an exploration stores its current fields |
| Editor.SetScalarFields | oppia/controllers/editor.py:147-154 | the in-place assignments of `is_public`, category, title and image id, as specified |
| Editor.SetEditors | oppia/controllers/editor.py:155-160 | the reset-then-add loop leaves exactly the payload's editor list |
| Editor.UpdateExploration | oppia/controllers/editor.py:137-172 | the handler stores exactly the specified exploration; on the owner error nothing is stored, and the object keeps only the fields set before the check |

## Left out

- HTTP handling, rendering, the `require_user`/`require_editor` decorators, the GET and
  DELETE handlers, `ExplorationPage`, `ForkExploration` and `ExplorationDownloadHandler`
  are framework glue.
- Datastore reads and writes (`Exploration.get`, `StateCounter.get`,
  `StateRuleAnswerLog.get`, `delete_all_stats`) become input functions. `put()` is the
  `stored` field.
- `get_top_answers(k)` is an input: the given top-answer list of each rule log.
- The widget and rule registries and `param_type.normalize` are the uninterpreted
  functions of `Registry`. A rule name the widget does not know, and the exception the
  registry would then raise, are not modelled.
- `utils.recursively_remove_key` is not part of this model. Its effect on the ruleset is
  modelled by `RemoveHashKeys`, which drops the `$$hashKey` key from every rule's inputs.
  The rule records themselves are datatypes without such a key, and `Value` holds no
  nested objects. `to_ascii` and YAML import/export are not part of this model: `NewExploration` returns which creation route is taken, not the exploration it
  creates.
- `resolved_answers` in `StateHandler.put` writes to the answer logs through
  `EventHandler`, which is a datastore call.
- `exploration.rename_state`, `add_state`, `add_editor` and `get_or_create_param` live in
  code that is not part of this model. Renaming sets the state's name, adding an editor
  appends, and `Registry.paramOf` gives the named parameter. The duplicate-name
  validation these may do is not modelled.
- StatsServices.RankState: the float test `count > 0.2 * total` is modelled as the
  integer comparison `5 * count > total`, an abstraction of the float threshold.
- Editor.ProcessRule: the wrong-type error carries a fixed text. The offending value and
  type name that the source interpolates into the message are not modelled.
- Editor.UpdateState: on an error the contract states only that nothing is stored. The
  partly updated state object left in memory is not described.
- Editor.ParamChangesFrom: parameters are values. If `get_or_create_param` returned the
  same object for two changes with one name, the source would alias them and the later
  values would win in both; the model does not capture that aliasing.
- Payload values are JSON without floats or nested objects (`Value`). Payload shapes the
  source would reject with a TypeError or KeyError are not representable: a null
  `param_changes`, a rule without `description`, a parameter item without a field.
- StatsServices.RankState: the destination of the first handler's default rule is the
  input field `defaultDest`. In the source, a state with no handlers raises an IndexError
  at `handlers[0]`. Because of the short-circuit `and`, this happens only when the default
  count is above the threshold. The error ends the whole `get_top_improvable_states` call.
  The model has no such error path. How `default_rule_spec` behaves on a handler without
  a default rule is not part of this model.
- Editor.UpdatedState: `stateName` is `None` both when the key is absent and when it is
  null. The source tests only that the key is present, so `{"state_name": null}` calls
  `rename_state` with `None`. The model renames nothing in that case, because what
  `rename_state` does with `None` is not part of this model.
