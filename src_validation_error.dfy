/** The older snapshot's validation errors: strings behind an opaque type, built by
    template functions; printing one returns it unchanged. This generation reports an
    invalid index without its collection and has a single trigger problem. */
module SrcValidationError {
  import opened JsValues
  import opened SchemaTypes

  type ValidationError = string

  function DuplicateClass(collection: CollectionDefinition): ValidationError {
    DuplicateClassPrefix + collection.className
  }

  function InvalidIndex(indexName: string, fieldName: string): ValidationError {
    "Invalid index: " + indexName + " includes non-existant column \"" + fieldName + "\""
  }

  function DuplicateIndex(index: string, className: string): ValidationError {
    "Duplicate definitions for index " + index + " on " + className
  }

  function DuplicateColumn(field: string, className: string): ValidationError {
    "Duplicate definitions for field " + field + " on " + className
  }

  /** The trigger is named by `<className>.<triggerName>`. */
  function DuplicateTrigger(trigger: TriggerDefinition): ValidationError {
    DuplicateTriggerPrefix + trigger.className + "." + trigger.triggerName
  }

  function InvalidTrigger(trigger: TriggerDefinition): ValidationError {
    "Invalid trigger name \"" + trigger.triggerName + "\" for class \"" + trigger.className + "\""
  }

  function DuplicateFunction(func: FunctionDefinition): ValidationError {
    DuplicateFunctionPrefix + func.functionName
  }

  /** Printing a validation error gives the error itself. */
  function PrettyPrintValidationError(error: ValidationError): (r: string)
    ensures r == error
  {
    error
  }

  // ---------------------------------------------------------------------------
  // Telling the messages apart

  const DuplicateClassPrefix := "Duplicate definitions for class "
  const DuplicateFunctionPrefix := "Duplicate definitions for function "
  const DuplicateTriggerPrefix := "Duplicate definitions for trigger "

  /** A message reporting a problem rather than a repeat. */
  predicate Invalid(e: ValidationError) {
    StartsWith(e, "Invalid ")
  }

  predicate IsDuplicateClass(e: ValidationError) { StartsWith(e, DuplicateClassPrefix) }
  predicate IsDuplicateFunction(e: ValidationError) { StartsWith(e, DuplicateFunctionPrefix) }
  predicate IsDuplicateTrigger(e: ValidationError) { StartsWith(e, DuplicateTriggerPrefix) }

  /** Both `invalid*` messages are problem reports. */
  lemma InvalidMessages(indexName: string, fieldName: string, trigger: TriggerDefinition)
    ensures Invalid(InvalidIndex(indexName, fieldName))
    ensures Invalid(InvalidTrigger(trigger))
  {
    var p := "Invalid ";
    StartsWithAppend("Invalid index: ", p, indexName + " includes non-existant column \"" + fieldName + "\"");
    assert InvalidIndex(indexName, fieldName)
      == "Invalid index: " + (indexName + " includes non-existant column \"" + fieldName + "\"");
    var name := trigger.triggerName;
    var cls := trigger.className;
    StartsWithAppend("Invalid trigger name \"", p, name + "\" for class \"" + cls + "\"");
    assert InvalidTrigger(trigger) == "Invalid trigger name \"" + (name + "\" for class \"" + cls + "\"");
  }

  /** A problem report starts with `I`, a repeat with `D`. */
  lemma InvalidIsNoDuplicate(e: ValidationError)
    requires Invalid(e)
    ensures !IsDuplicateClass(e) && !IsDuplicateFunction(e) && !IsDuplicateTrigger(e)
  {
    assert e[..8][0] == e[0] == 'I';
    forall p | p in [DuplicateClassPrefix, DuplicateFunctionPrefix, DuplicateTriggerPrefix]
      ensures !StartsWith(e, p)
    {
      assert p[0] == 'D';
      if |p| <= |e| {
        assert e[..|p|][0] == 'I';
      }
    }
  }

  lemma DuplicateMessages(collection: CollectionDefinition, func: FunctionDefinition, trigger: TriggerDefinition)
    ensures IsDuplicateClass(DuplicateClass(collection))
    ensures IsDuplicateFunction(DuplicateFunction(func))
    ensures IsDuplicateTrigger(DuplicateTrigger(trigger))
  {
    StartsWithAppend(DuplicateTriggerPrefix, DuplicateTriggerPrefix, trigger.className + "." + trigger.triggerName);
    assert DuplicateTrigger(trigger) == DuplicateTriggerPrefix + (trigger.className + "." + trigger.triggerName);
  }

  /** A repeated class or function message names exactly one class or function. */
  lemma DuplicateMessagesIdentify(a: CollectionDefinition, b: CollectionDefinition,
                                  f: FunctionDefinition, g: FunctionDefinition)
    ensures DuplicateClass(a) == DuplicateClass(b) <==> a.className == b.className
    ensures DuplicateFunction(f) == DuplicateFunction(g) <==> f.functionName == g.functionName
  {
    if DuplicateClass(a) == DuplicateClass(b) {
      PrefixCancel(DuplicateClassPrefix, a.className, b.className);
    }
    if DuplicateFunction(f) == DuplicateFunction(g) {
      PrefixCancel(DuplicateFunctionPrefix, f.functionName, g.functionName);
    }
  }
}
