/** The newer build's validation errors: messages are plain strings built by template
    functions, and printing one returns it unchanged. */
module DistValidationError {
  import opened JsValues
  import opened SchemaTypes

  type ValidationError = string

  function DuplicateClass(collection: CollectionDefinition): ValidationError {
    DuplicateClassPrefix + collection.className
  }

  function InvalidIndex(indexName: string, fieldName: string, collectionName: string): ValidationError {
    "Invalid index: " + indexName + " on collection " + collectionName + " includes non-existent column \""
    + fieldName + "\""
  }

  function DuplicateIndex(index: string, className: string): ValidationError {
    "Duplicate definitions for index " + index + " on " + className
  }

  function DuplicateColumn(field: string, className: string): ValidationError {
    "Duplicate definitions for field " + field + " on " + className
  }

  /** The trigger is named by `<className>.<triggerName>`. */
  function DuplicateTrigger(trigger: TriggerDefinition): ValidationError {
    DuplicateTriggerPrefix + trigger.className + "." + trigger.triggerName
  }

  function InvalidTrigger(trigger: TriggerDefinition): ValidationError {
    "Invalid trigger \"" + trigger.triggerName + "\" for class \"" + trigger.className + "\""
  }

  function InvalidTriggerName(trigger: TriggerDefinition): ValidationError {
    "Invalid trigger name \"" + trigger.triggerName + "\" for class \"" + trigger.className + "\""
  }

  function InvalidTriggerClass(trigger: TriggerDefinition): ValidationError {
    "Invalid trigger class \"" + trigger.className + "\" for trigger of type \"" + trigger.triggerName + "\""
  }

  function InvalidFunction(func: FunctionDefinition): ValidationError {
    InvalidFunctionPrefix + func.functionName + "\""
  }

  function DuplicateFunction(func: FunctionDefinition): ValidationError {
    DuplicateFunctionPrefix + func.functionName
  }

  function InvalidPermission(permName: string, className: string): ValidationError {
    "Invalid permission " + permName + " on collection " + className + "; permission values must be `true`"
  }

  /** Printing a validation error gives the error itself. */
  function PrettyPrintValidationError(error: ValidationError): (r: string)
    ensures r == error
  {
    error
  }

  // ---------------------------------------------------------------------------
  // Telling the messages apart

  const DuplicateClassPrefix := "Duplicate definitions for class "
  const DuplicateFunctionPrefix := "Duplicate definitions for function "
  const DuplicateTriggerPrefix := "Duplicate definitions for trigger "
  const InvalidFunctionPrefix := "Invalid function \""

  /** A message reporting a problem rather than a repeat. */
  predicate Invalid(e: ValidationError) {
    StartsWith(e, "Invalid ")
  }

  predicate IsDuplicateClass(e: ValidationError) { StartsWith(e, DuplicateClassPrefix) }
  predicate IsDuplicateFunction(e: ValidationError) { StartsWith(e, DuplicateFunctionPrefix) }
  predicate IsDuplicateTrigger(e: ValidationError) { StartsWith(e, DuplicateTriggerPrefix) }

  /** Every `invalid*` message is a problem report, and no problem report reads as a
      repeat. */
  lemma InvalidMessages(indexName: string, fieldName: string, collectionName: string, permName: string,
                        trigger: TriggerDefinition, func: FunctionDefinition)
    ensures Invalid(InvalidIndex(indexName, fieldName, collectionName))
    ensures Invalid(InvalidPermission(permName, collectionName))
    ensures Invalid(InvalidTrigger(trigger)) && Invalid(InvalidTriggerName(trigger)) && Invalid(InvalidTriggerClass(trigger))
    ensures Invalid(InvalidFunction(func))
  {
    var p := "Invalid ";
    StartsWithAppend("Invalid index: ", p, indexName + " on collection " + collectionName
      + " includes non-existent column \"" + fieldName + "\"");
    assert InvalidIndex(indexName, fieldName, collectionName)
      == "Invalid index: " + (indexName + " on collection " + collectionName
      + " includes non-existent column \"" + fieldName + "\"");
    StartsWithAppend("Invalid permission ", p, permName + " on collection " + collectionName
      + "; permission values must be `true`");
    assert InvalidPermission(permName, collectionName)
      == "Invalid permission " + (permName + " on collection " + collectionName + "; permission values must be `true`");
    var name := trigger.triggerName;
    var cls := trigger.className;
    StartsWithAppend("Invalid trigger \"", p, name + "\" for class \"" + cls + "\"");
    assert InvalidTrigger(trigger) == "Invalid trigger \"" + (name + "\" for class \"" + cls + "\"");
    StartsWithAppend("Invalid trigger name \"", p, name + "\" for class \"" + cls + "\"");
    assert InvalidTriggerName(trigger) == "Invalid trigger name \"" + (name + "\" for class \"" + cls + "\"");
    StartsWithAppend("Invalid trigger class \"", p, cls + "\" for trigger of type \"" + name + "\"");
    assert InvalidTriggerClass(trigger) == "Invalid trigger class \"" + (cls + "\" for trigger of type \"" + name + "\"");
    StartsWithAppend(InvalidFunctionPrefix, p, func.functionName + "\"");
    assert InvalidFunction(func) == InvalidFunctionPrefix + (func.functionName + "\"");
  }

  /** A problem report starts with `I`, a repeat with `D`. */
  lemma InvalidIsNoDuplicate(e: ValidationError)
    requires Invalid(e)
    ensures !IsDuplicateClass(e) && !IsDuplicateFunction(e) && !IsDuplicateTrigger(e)
  {
    assert e[..8][0] == e[0] == 'I';
    forall p | p in [DuplicateClassPrefix, DuplicateFunctionPrefix, DuplicateTriggerPrefix]
      ensures !StartsWith(e, p)
    {
      assert p[0] == 'D';
      if |p| <= |e| {
        assert e[..|p|][0] == 'I';
      }
    }
  }

  lemma DuplicateMessages(collection: CollectionDefinition, func: FunctionDefinition, trigger: TriggerDefinition)
    ensures IsDuplicateClass(DuplicateClass(collection))
    ensures IsDuplicateFunction(DuplicateFunction(func))
    ensures IsDuplicateTrigger(DuplicateTrigger(trigger))
  {
    StartsWithAppend(DuplicateTriggerPrefix, DuplicateTriggerPrefix, trigger.className + "." + trigger.triggerName);
    assert DuplicateTrigger(trigger) == DuplicateTriggerPrefix + (trigger.className + "." + trigger.triggerName);
  }

  /** The three trigger problems have different wordings: no input makes two of them
      print the same message. */
  lemma TriggerMessagesDistinct(t: TriggerDefinition, u: TriggerDefinition)
    ensures InvalidTrigger(t) != InvalidTriggerName(u)
    ensures InvalidTrigger(t) != InvalidTriggerClass(u)
    ensures InvalidTriggerName(t) != InvalidTriggerClass(u)
  {
    var a := InvalidTrigger(t);
    var b := InvalidTriggerName(u);
    var c := InvalidTriggerClass(u);
    var d := InvalidTriggerName(t);
    assert a == "Invalid trigger \"" + (t.triggerName + "\" for class \"" + t.className + "\"");
    assert b == "Invalid trigger name \"" + (u.triggerName + "\" for class \"" + u.className + "\"");
    assert c == "Invalid trigger class \"" + (u.className + "\" for trigger of type \"" + u.triggerName + "\"");
    assert d == "Invalid trigger name \"" + (t.triggerName + "\" for class \"" + t.className + "\"");
    assert a[16] == '"' && b[16] == 'n' && c[16] == 'c' && d[16] == 'n';
  }

  /** A repeated class, function or trigger message names exactly one class, function or
      trigger key. */
  lemma DuplicateMessagesIdentify(a: CollectionDefinition, b: CollectionDefinition,
                                  f: FunctionDefinition, g: FunctionDefinition)
    ensures DuplicateClass(a) == DuplicateClass(b) <==> a.className == b.className
    ensures DuplicateFunction(f) == DuplicateFunction(g) <==> f.functionName == g.functionName
    ensures InvalidFunction(f) == InvalidFunction(g) <==> f.functionName == g.functionName
  {
    if DuplicateClass(a) == DuplicateClass(b) {
      PrefixCancel(DuplicateClassPrefix, a.className, b.className);
    }
    if DuplicateFunction(f) == DuplicateFunction(g) {
      PrefixCancel(DuplicateFunctionPrefix, f.functionName, g.functionName);
    }
    if InvalidFunction(f) == InvalidFunction(g) {
      SuffixCancel(InvalidFunctionPrefix + f.functionName, InvalidFunctionPrefix + g.functionName, "\"");
      PrefixCancel(InvalidFunctionPrefix, f.functionName, g.functionName);
    }
  }
}
