/**
 * The validation chain of the create-task handler: a pure function from the
 * request body, the current instant and a date parser to either the first
 * violated rule or the validated request.
 */
module Validation {
  import opened Wrappers

  /** The JSON request body, reduced to its string-valued members. */
  type Payload = map<string, string>

  /** Reading `body.key`: absent keys are `undefined`. */
  function Field(p: Payload, key: string): Option<string>
  {
    if key in p then Some(p[key]) else None
  }

  /** JavaScript falsiness of an optional string: `undefined` and `""` are falsy. */
  predicate Falsy(v: Option<string>)
  {
    v.None? || v.value == ""
  }

  /** The three task types the handler accepts. */
  datatype TaskType = Call | Email | Review

  function TypeName(t: TaskType): string
  {
    match t
    case Call => "call"
    case Email => "email"
    case Review => "review"
  }

  /** `VALID_TYPES`, in its declared order. */
  const ValidTypes: seq<string> := ["call", "email", "review"]

  /** `VALID_TYPES.includes(s)`, returning which type was named. */
  function ParseTaskType(s: string): (r: Option<TaskType>)
    ensures r.Some? <==> s in ValidTypes
    ensures r.Some? ==> TypeName(r.value) == s
  {
    if s == "call" then Some(Call)
    else if s == "email" then Some(Email)
    else if s == "review" then Some(Review)
    else None
  }

  /** Every task type is named in `ValidTypes` and its name parses back to it. */
  lemma TypeNameRoundTrip(t: TaskType)
    ensures TypeName(t) in ValidTypes
    ensures ParseTaskType(TypeName(t)) == Some(t)
  {
  }

  /** `Array.prototype.join`. */
  function Join(parts: seq<string>, sep: string): string
  {
    if |parts| == 0 then ""
    else if |parts| == 1 then parts[0]
    else parts[0] + sep + Join(parts[1..], sep)
  }

  /** The rules of the validation chain, named after the failure each one reports. */
  datatype ValidationError =
    | MissingRelatedId
    | InvalidTaskType
    | MissingDueAt
    | MalformedDueAt
    | PastDueAt

  /** The `error` text of the 400 response for each rule. */
  function ErrorText(e: ValidationError): string
  {
    match e
    case MissingRelatedId => "related_id is required"
    case InvalidTaskType => "Invalid task_type. Must be one of: " + Join(ValidTypes, ", ")
    case MissingDueAt => "due_at is required"
    case MalformedDueAt => "due_at must be a valid ISO date string"
    case PastDueAt => "due_at must be a future date"
  }

  /** The task-type message spells out the three accepted types. */
  lemma InvalidTaskTypeText()
    ensures ErrorText(InvalidTaskType) == "Invalid task_type. Must be one of: call, email, review"
  {
  }

  /** Each rule is reported with its own text, so a caller can tell the rules apart. */
  lemma MessagesDistinct(e1: ValidationError, e2: ValidationError)
    ensures ErrorText(e1) == ErrorText(e2) ==> e1 == e2
  {
    InvalidTaskTypeText();
  }

  /** Position of each rule in the fixed order in which the chain checks them. */
  function Rank(e: ValidationError): nat
  {
    match e
    case MissingRelatedId => 0
    case InvalidTaskType => 1
    case MissingDueAt => 2
    case MalformedDueAt => 3
    case PastDueAt => 4
  }

  /**
   * Whether a rule, taken on its own, is broken by the body. Rules about the
   * parsed date only speak of a due date that is present.
   */
  predicate Violates(e: ValidationError, p: Payload, now: int, parse: string -> Option<int>)
  {
    var dueAt := Field(p, "due_at");
    match e
    case MissingRelatedId => Falsy(Field(p, "related_id"))
    case InvalidTaskType => Field(p, "task_type").None? || Field(p, "task_type").value !in ValidTypes
    case MissingDueAt => Falsy(dueAt)
    case MalformedDueAt => !Falsy(dueAt) && parse(dueAt.value).None?
    case PastDueAt => !Falsy(dueAt) && parse(dueAt.value).Some? && parse(dueAt.value).value <= now
  }

  /** A request that passed every rule, with its due date parsed. */
  datatype TaskRequest = TaskRequest(relatedId: string, taskType: TaskType, dueAt: string, due: int)

  /**
   * The validation chain: the first rule in `Rank` order that the body
   * violates, or the validated request when none is violated.
   */
  function Validate(p: Payload, now: int, parse: string -> Option<int>): (r: Result<TaskRequest, ValidationError>)
    ensures r.Failure? ==> Violates(r.error, p, now, parse)
    ensures r.Failure? ==> forall e :: Rank(e) < Rank(r.error) ==> !Violates(e, p, now, parse)
    ensures r.Success? <==> forall e :: !Violates(e, p, now, parse)
    ensures r.Success? ==>
      && Field(p, "related_id") == Some(r.value.relatedId) && r.value.relatedId != ""
      && Field(p, "task_type") == Some(TypeName(r.value.taskType))
      && Field(p, "due_at") == Some(r.value.dueAt)
      && parse(r.value.dueAt) == Some(r.value.due)
      && now < r.value.due
  {
    var relatedId := Field(p, "related_id");
    var taskType := Field(p, "task_type");
    var dueAt := Field(p, "due_at");
    if Falsy(relatedId) then
      assert Violates(MissingRelatedId, p, now, parse);
      Failure(MissingRelatedId)
    else if Falsy(taskType) || ParseTaskType(taskType.value).None? then
      assert Violates(InvalidTaskType, p, now, parse);
      Failure(InvalidTaskType)
    else if Falsy(dueAt) then
      assert Violates(MissingDueAt, p, now, parse);
      Failure(MissingDueAt)
    else match parse(dueAt.value)
      case None =>
        assert Violates(MalformedDueAt, p, now, parse);
        Failure(MalformedDueAt)
      case Some(due) =>
        if due <= now then
          assert Violates(PastDueAt, p, now, parse);
          Failure(PastDueAt)
        else Success(TaskRequest(relatedId.value, ParseTaskType(taskType.value).value, dueAt.value, due))
  }
}
