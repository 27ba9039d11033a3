/**
 * The task-creation form: a fixed table of four task types, each naming its target function
 * and which form sections it shows; the draft those sections edit; the rewrite a type switch
 * applies to the draft; and the assembly of the payload posted to `POST /tasks`.
 */
module CreateTask {
  import opened Wrappers
  import opened ApiRecords

  // ---------------------------------------------------------------------------------------
  // The configuration tables

  /** The four keys of `TASK_TYPES`, in declaration order. */
  datatype TaskType = Collection | Transformation | Storage | Notification

  /** One row of `TASK_TYPES`. */
  datatype TaskTypeConfig = TaskTypeConfig(
    id: string,
    caption: string,
    lambdaName: string,
    showUrl: bool,
    showCleaning: bool,
    showSource: bool,
    showDatabase: bool,
    showNotification: bool)

  /**
   * `TASK_TYPES[t]`: Collection shows the URL section only, Transformation the cleaning and
   * source sections, Storage the source and database sections, Notification the source and
   * notification sections; each row names a function of its own.
   */
  function Config(t: TaskType): (c: TaskTypeConfig)
    ensures c.showUrl <==> t == Collection
    ensures c.showCleaning <==> t == Transformation
    ensures c.showSource <==> t != Collection
    ensures c.showDatabase <==> t == Storage
    ensures c.showNotification <==> t == Notification
    ensures c.lambdaName != "" && c.caption != ""
  {
    match t
    case Collection =>
      TaskTypeConfig("collection", "📥 Data Collection (Fetch Data)", "mock-data-collector",
                     true, false, false, false, false)
    case Transformation =>
      TaskTypeConfig("transformation", "⚡ Data Transformation (Clean/Process)", "mock-data-transformer",
                     false, true, true, false, false)
    case Storage =>
      TaskTypeConfig("storage", "💾 Data Storage (Save Results)", "mock-data-storage",
                     false, false, true, true, false)
    case Notification =>
      TaskTypeConfig("notification", "📬 Notification & Reporting", "mock-notifier",
                     false, false, true, false, true)
  }

  /** `Object.entries(TASK_TYPES)`: the type cards, key and configuration, in declaration order. */
  function TypeEntries(): (entries: seq<(TaskType, TaskTypeConfig)>)
    ensures |entries| == 4
    ensures forall i :: 0 <= i < |entries| ==> entries[i].1 == Config(entries[i].0)
    ensures forall i, j :: 0 <= i < j < |entries| ==> entries[i].0 != entries[j].0
    ensures entries[0].0 == Collection && entries[1].0 == Transformation
    ensures entries[2].0 == Storage && entries[3].0 == Notification
  {
    [(Collection, Config(Collection)), (Transformation, Config(Transformation)),
     (Storage, Config(Storage)), (Notification, Config(Notification))]
  }

  /**
   * The target function name identifies the type: no two rows share a `lambdaName`, so a
   * draft's `lambdaFunctionName` tells which type it was prepared for.
   */
  lemma LambdaNameDeterminesType(a: TaskType, b: TaskType)
    requires Config(a).lambdaName == Config(b).lambdaName
    ensures a == b
  {
  }

  /** One entry of `DATABASE_OPTIONS` (logo, description and colour are presentation only). */
  datatype DatabaseOption = DatabaseOption(id: string, name: string, isAvailable: bool)

  /** `DATABASE_OPTIONS`, in card order. */
  const DatabaseOptions: seq<DatabaseOption> := [
    DatabaseOption("dynamodb", "Amazon DynamoDB", true),
    DatabaseOption("s3", "Amazon S3", false),
    DatabaseOption("postgresql", "PostgreSQL", false),
    DatabaseOption("mongodb", "MongoDB", false)
  ]

  /** The database selected when the form mounts. */
  const InitialDatabase := "dynamodb"

  /** `id` names a database card marked available. */
  predicate IsAvailableDatabase(id: string) {
    exists i :: 0 <= i < |DatabaseOptions| && DatabaseOptions[i].id == id && DatabaseOptions[i].isAvailable
  }

  /**
   * A click on database card `i`: `db.isAvailable && handleDatabaseSelect(db.id)`. Only an
   * available card changes the selection, so the selection stays an available database.
   */
  function ClickDatabase(current: string, i: nat): (selected: string)
    requires i < |DatabaseOptions|
    ensures IsAvailableDatabase(current) ==> IsAvailableDatabase(selected)
    ensures selected == current || (selected == DatabaseOptions[i].id && DatabaseOptions[i].isAvailable)
  {
    if DatabaseOptions[i].isAvailable then DatabaseOptions[i].id else current
  }

  /** DynamoDB is the only available database, so it is the only one a task can name. */
  lemma OnlyDynamoDbSelectable(id: string)
    ensures IsAvailableDatabase(id) <==> id == InitialDatabase
  {
    if IsAvailableDatabase(id) {
      var i :| 0 <= i < |DatabaseOptions| && DatabaseOptions[i].id == id && DatabaseOptions[i].isAvailable;
      assert i == 0;
    } else {
      assert DatabaseOptions[0].id == InitialDatabase && DatabaseOptions[0].isAvailable;
    }
  }

  // ---------------------------------------------------------------------------------------
  // The draft and its sections

  /** `formData`: the draft the form edits. */
  datatype TaskDraft = TaskDraft(
    taskId: string,
    name: string,
    description: string,
    lambdaFunctionName: string,
    apiUrl: string,
    sourceTaskName: string,
    dataCleaningOptions: seq<string>,
    scheduleExpression: string,
    tableName: string,
    partitionKey: string,
    sortKey: string,
    topicArn: string,
    notificationMessage: string)

  /** The empty draft for type `t`, as the form mounts with and resets to. */
  function EmptyDraft(t: TaskType): (d: TaskDraft)
    ensures Consistent(t, d)
    ensures forall s :: SectionOf(d, s) == EmptySection(s)
    ensures d.taskId == "" && d.name == "" && d.description == "" && d.scheduleExpression == ""
  {
    TaskDraft("", "", "", Config(t).lambdaName, "", "", [], "", "", "", "", "", "")
  }

  /** The five type-dependent sections of the form. */
  datatype Section = UrlSection | CleaningSection | SourceSection | DatabaseSection | NotificationSection

  /** Whether a type's configuration shows a section. */
  predicate Shows(c: TaskTypeConfig, s: Section) {
    match s
    case UrlSection => c.showUrl
    case CleaningSection => c.showCleaning
    case SourceSection => c.showSource
    case DatabaseSection => c.showDatabase
    case NotificationSection => c.showNotification
  }

  /** The draft fields that belong to one section. */
  datatype SectionData =
    | UrlData(apiUrl: string)
    | CleaningData(options: seq<string>)
    | SourceData(sourceTaskName: string)
    | DatabaseData(tableName: string, partitionKey: string, sortKey: string)
    | NotificationData(topicArn: string, message: string)

  function SectionOf(d: TaskDraft, s: Section): SectionData {
    match s
    case UrlSection => UrlData(d.apiUrl)
    case CleaningSection => CleaningData(d.dataCleaningOptions)
    case SourceSection => SourceData(d.sourceTaskName)
    case DatabaseSection => DatabaseData(d.tableName, d.partitionKey, d.sortKey)
    case NotificationSection => NotificationData(d.topicArn, d.notificationMessage)
  }

  /** A section whose fields all hold `''` or `[]`. */
  function EmptySection(s: Section): SectionData {
    match s
    case UrlSection => UrlData("")
    case CleaningSection => CleaningData([])
    case SourceSection => SourceData("")
    case DatabaseSection => DatabaseData("", "", "")
    case NotificationSection => NotificationData("", "")
  }

  /**
   * The form's invariant for selected type `t`: the draft targets `t`'s function and every
   * section `t` hides is empty.
   */
  predicate Consistent(t: TaskType, d: TaskDraft) {
    && d.lambdaFunctionName == Config(t).lambdaName
    && forall s :: !Shows(Config(t), s) ==> SectionOf(d, s) == EmptySection(s)
  }

  // ---------------------------------------------------------------------------------------
  // Switching the type

  /**
   * `handleTypeChange`'s updater: retarget the draft to `t`, keep each section `t` shows,
   * empty each section it hides, and empty the database section whatever `t` is.
   */
  function SwitchType(prev: TaskDraft, t: TaskType): (d: TaskDraft)
    ensures Consistent(t, d)
    ensures forall s :: s != DatabaseSection ==>
      SectionOf(d, s) == (if Shows(Config(t), s) then SectionOf(prev, s) else EmptySection(s))
    ensures SectionOf(d, DatabaseSection) == EmptySection(DatabaseSection)
    ensures d.taskId == prev.taskId && d.name == prev.name && d.description == prev.description
    ensures d.scheduleExpression == prev.scheduleExpression
  {
    prev.(
      lambdaFunctionName := Config(t).lambdaName,
      apiUrl := if Config(t).showUrl then prev.apiUrl else "",
      sourceTaskName := if Config(t).showSource then prev.sourceTaskName else "",
      dataCleaningOptions := if Config(t).showCleaning then prev.dataCleaningOptions else [],
      tableName := "",
      partitionKey := "",
      sortKey := "",
      topicArn := if Config(t).showNotification then prev.topicArn else "",
      notificationMessage := if Config(t).showNotification then prev.notificationMessage else "")
  }

  /**
   * The inline updater of a type card, which closes over the card's configuration rather
   * than looking the type up.
   */
  function ClickCard(prev: TaskDraft, config: TaskTypeConfig): (d: TaskDraft)
    ensures d.lambdaFunctionName == config.lambdaName
    ensures forall s :: s != DatabaseSection ==>
      SectionOf(d, s) == (if Shows(config, s) then SectionOf(prev, s) else EmptySection(s))
    ensures SectionOf(d, DatabaseSection) == EmptySection(DatabaseSection)
    ensures d.taskId == prev.taskId && d.name == prev.name && d.description == prev.description
    ensures d.scheduleExpression == prev.scheduleExpression
  {
    prev.(
      lambdaFunctionName := config.lambdaName,
      apiUrl := if config.showUrl then prev.apiUrl else "",
      sourceTaskName := if config.showSource then prev.sourceTaskName else "",
      dataCleaningOptions := if config.showCleaning then prev.dataCleaningOptions else [],
      tableName := "",
      partitionKey := "",
      sortKey := "",
      topicArn := if config.showNotification then prev.topicArn else "",
      notificationMessage := if config.showNotification then prev.notificationMessage else "")
  }

  /** Clicking a type card rewrites the draft exactly as choosing that type does. */
  lemma ClickCardIsSwitchType(prev: TaskDraft, i: nat)
    requires i < |TypeEntries()|
    ensures ClickCard(prev, TypeEntries()[i].1) == SwitchType(prev, TypeEntries()[i].0)
  {
  }

  /** Choosing the same type again changes nothing more. */
  lemma SwitchTypeIdempotent(prev: TaskDraft, t: TaskType)
    ensures SwitchType(SwitchType(prev, t), t) == SwitchType(prev, t)
  {
  }

  /**
   * Two switches in a row keep a non-database section only when both types show it.
   */
  lemma SwitchTypeTwice(prev: TaskDraft, a: TaskType, b: TaskType, s: Section)
    requires s != DatabaseSection
    ensures SectionOf(SwitchType(SwitchType(prev, a), b), s)
         == if Shows(Config(a), s) && Shows(Config(b), s) then SectionOf(prev, s) else EmptySection(s)
  {
  }

  /**
   * The asymmetry of the database section: re-selecting Storage, which shows it, still
   * empties the table, partition and sort keys, while the source task it also shows is kept.
   */
  lemma StorageToStorageClearsDatabase()
    ensures var prev := EmptyDraft(Storage).(sourceTaskName := "Fetch Orders", tableName := "orders",
                                             partitionKey := "id", sortKey := "ts");
      var d := SwitchType(prev, Storage);
      d.sourceTaskName == "Fetch Orders" && d.tableName == "" && d.partitionKey == "" && d.sortKey == ""
  {
  }

  // ---------------------------------------------------------------------------------------
  // Editing the draft

  /** The text inputs of the form, by their `name` attribute. */
  datatype Field =
    | NameField | DescriptionField | ApiUrlField | SourceTaskField | TableNameField
    | PartitionKeyField | SortKeyField | TopicArnField | MessageField | ScheduleField

  /** Inputs outside the five sections are always rendered; the others only with their section. */
  predicate Rendered(c: TaskTypeConfig, f: Field) {
    match f
    case ApiUrlField => c.showUrl
    case SourceTaskField => c.showSource
    case TableNameField | PartitionKeyField | SortKeyField => c.showDatabase
    case TopicArnField | MessageField => c.showNotification
    case _ => true
  }

  /** The draft field an input edits. */
  function FieldValue(d: TaskDraft, f: Field): string {
    match f
    case NameField => d.name
    case DescriptionField => d.description
    case ApiUrlField => d.apiUrl
    case SourceTaskField => d.sourceTaskName
    case TableNameField => d.tableName
    case PartitionKeyField => d.partitionKey
    case SortKeyField => d.sortKey
    case TopicArnField => d.topicArn
    case MessageField => d.notificationMessage
    case ScheduleField => d.scheduleExpression
  }

  /**
   * `handleInputChange`: `{...prev, [name]: value}`. The edited input reads back the new
   * value, every other input keeps its own, and the fields no input edits stay as they were.
   */
  function SetField(d: TaskDraft, f: Field, v: string): (r: TaskDraft)
    ensures FieldValue(r, f) == v
    ensures forall g :: g != f ==> FieldValue(r, g) == FieldValue(d, g)
    ensures r.taskId == d.taskId && r.lambdaFunctionName == d.lambdaFunctionName
    ensures r.dataCleaningOptions == d.dataCleaningOptions
  {
    match f
    case NameField => d.(name := v)
    case DescriptionField => d.(description := v)
    case ApiUrlField => d.(apiUrl := v)
    case SourceTaskField => d.(sourceTaskName := v)
    case TableNameField => d.(tableName := v)
    case PartitionKeyField => d.(partitionKey := v)
    case SortKeyField => d.(sortKey := v)
    case TopicArnField => d.(topicArn := v)
    case MessageField => d.(notificationMessage := v)
    case ScheduleField => d.(scheduleExpression := v)
  }

  /**
   * Editing a rendered input keeps the form consistent, and no input reaches the task id or
   * the target function name.
   */
  lemma SetFieldPreservesConsistent(t: TaskType, d: TaskDraft, f: Field, v: string)
    requires Consistent(t, d) && Rendered(Config(t), f)
    ensures Consistent(t, SetField(d, f, v))
    ensures SetField(d, f, v).taskId == d.taskId
  {
    var d' := SetField(d, f, v);
    forall s | !Shows(Config(t), s)
      ensures SectionOf(d', s) == EmptySection(s)
    {
      assert SectionOf(d', s) == SectionOf(d, s);
    }
  }

  /**
   * The browser's judgement of an `<input type="url">` value: whether it parses as an
   * absolute URL. Left abstract.
   */
  type UrlCheck = string -> bool

  /**
   * The browser's constraint validation: the name always, and the required input of each
   * shown section (URL, source task, table name and partition key, topic ARN); the URL must
   * also be one `validUrl` accepts.
   */
  predicate RequiredFilled(c: TaskTypeConfig, d: TaskDraft, validUrl: UrlCheck) {
    && d.name != ""
    && (c.showUrl ==> d.apiUrl != "" && validUrl(d.apiUrl))
    && (c.showSource ==> d.sourceTaskName != "")
    && (c.showDatabase ==> d.tableName != "" && d.partitionKey != "")
    && (c.showNotification ==> d.topicArn != "")
  }

  // ---------------------------------------------------------------------------------------
  // The payload

  /** The nested `database` parameter; `sortKey` is absent from the posted JSON when `None`. */
  datatype DatabaseParams = DatabaseParams(dbType: string, tableName: string, partitionKey: string, sortKey: Option<string>)

  /** A value of the `parameters` object. */
  datatype ParamValue = Text(text: string) | TextList(items: seq<string>) | Database(db: DatabaseParams)

  /** The message sent when the user leaves the notification message blank. */
  const DefaultMessage := "Workflow Completed Successfully"

  /** Every key `parameters` may carry. */
  const ParameterKeys: set<string> := {"url", "dataCleaningOptions", "source_task", "database", "topic_arn", "message"}

  /** The keys of the group a section contributes. */
  function SectionKeys(s: Section): set<string> {
    match s
    case UrlSection => {"url"}
    case CleaningSection => {"dataCleaningOptions"}
    case SourceSection => {"source_task"}
    case DatabaseSection => {"database"}
    case NotificationSection => {"topic_arn", "message"}
  }

  /** The `database` parameter built from the draft and the selected database. */
  function DatabaseParamsOf(d: TaskDraft, database: string): DatabaseParams {
    DatabaseParams(database, d.tableName, d.partitionKey, if d.sortKey == "" then None else Some(d.sortKey))
  }

  /**
   * The `parameters` object for configuration `c`: one key group per shown section and
   * nothing else, under the fixed key names, with the message default.
   */
  function Parameters(c: TaskTypeConfig, d: TaskDraft, database: string): (p: map<string, ParamValue>)
    ensures "url" in p <==> c.showUrl
    ensures "dataCleaningOptions" in p <==> c.showCleaning
    ensures "source_task" in p <==> c.showSource
    ensures "database" in p <==> c.showDatabase
    ensures "topic_arn" in p <==> c.showNotification
    ensures "message" in p <==> c.showNotification
    ensures p.Keys <= ParameterKeys
    ensures "url" in p ==> p["url"] == Text(d.apiUrl)
    ensures "dataCleaningOptions" in p ==> p["dataCleaningOptions"] == TextList(d.dataCleaningOptions)
    ensures "source_task" in p ==> p["source_task"] == Text(d.sourceTaskName)
    ensures "database" in p ==> p["database"].Database? && p["database"].db.dbType == database
    ensures "database" in p ==>
      p["database"].db.tableName == d.tableName && p["database"].db.partitionKey == d.partitionKey
    ensures "database" in p ==> (p["database"].db.sortKey == None <==> d.sortKey == "")
    ensures "database" in p && d.sortKey != "" ==> p["database"].db.sortKey == Some(d.sortKey)
    ensures "topic_arn" in p ==> p["topic_arn"] == Text(d.topicArn)
    ensures "message" in p ==> p["message"].Text? && p["message"].text != ""
    ensures "message" in p && d.notificationMessage == "" ==> p["message"] == Text(DefaultMessage)
    ensures "message" in p && d.notificationMessage != "" ==> p["message"] == Text(d.notificationMessage)
  {
    var withUrl: map<string, ParamValue> := if c.showUrl then map["url" := Text(d.apiUrl)] else map[];
    var withCleaning := if c.showCleaning then withUrl["dataCleaningOptions" := TextList(d.dataCleaningOptions)] else withUrl;
    var withSource := if c.showSource then withCleaning["source_task" := Text(d.sourceTaskName)] else withCleaning;
    var withDatabase := if c.showDatabase then withSource["database" := Database(DatabaseParamsOf(d, database))] else withSource;
    if c.showNotification then
      withDatabase["topic_arn" := Text(d.topicArn)]["message" := Text(NotificationMessage(d))]
    else withDatabase
  }

  /** `notificationMessage || 'Workflow Completed Successfully'`. */
  function NotificationMessage(d: TaskDraft): (m: string)
    ensures m != ""
  {
    if d.notificationMessage == "" then DefaultMessage else d.notificationMessage
  }

  /** The key set of `parameters` is the union of the key groups of the shown sections. */
  lemma ParametersKeysBySection(c: TaskTypeConfig, d: TaskDraft, database: string, k: string)
    ensures k in Parameters(c, d, database) <==> exists s :: Shows(c, s) && k in SectionKeys(s)
  {
    var p := Parameters(c, d, database);
    if k in p {
      var s := if k == "url" then UrlSection
        else if k == "dataCleaningOptions" then CleaningSection
        else if k == "source_task" then SourceSection
        else if k == "database" then DatabaseSection
        else NotificationSection;
      assert Shows(c, s) && k in SectionKeys(s);
    }
  }

  /** A collection task's parameters are exactly `{url}`. */
  lemma CollectionParameters(d: TaskDraft, database: string)
    ensures Parameters(Config(Collection), d, database).Keys == {"url"}
  {
  }

  /** A storage task's parameters are exactly `{source_task, database}`. */
  lemma StorageParameters(d: TaskDraft, database: string)
    ensures Parameters(Config(Storage), d, database).Keys == {"source_task", "database"}
  {
  }

  /** A notification task's parameters are exactly `{source_task, topic_arn, message}`. */
  lemma NotificationParameters(d: TaskDraft, database: string)
    ensures Parameters(Config(Notification), d, database).Keys == {"source_task", "topic_arn", "message"}
  {
  }

  /**
   * A draft the browser lets through posts no blank required value: the URL (one the browser
   * accepts), the source task, the table name and partition key, and the topic ARN.
   */
  lemma RequiredFilledPostsNoBlank(c: TaskTypeConfig, d: TaskDraft, database: string, validUrl: UrlCheck)
    requires RequiredFilled(c, d, validUrl)
    ensures var p := Parameters(c, d, database);
      && ("url" in p ==> p["url"].Text? && p["url"].text != "" && validUrl(p["url"].text))
      && ("source_task" in p ==> p["source_task"].Text? && p["source_task"].text != "")
      && ("database" in p ==> p["database"].Database? &&
                              p["database"].db.tableName != "" && p["database"].db.partitionKey != "")
      && ("topic_arn" in p ==> p["topic_arn"].Text? && p["topic_arn"].text != "")
  {
  }

  /** The draft the form resets to cannot be submitted again unchanged: its name is blank. */
  lemma EmptyDraftNotSubmittable(t: TaskType, validUrl: UrlCheck)
    ensures !RequiredFilled(Config(t), EmptyDraft(t), validUrl)
  {
  }

  /**
   * A transformation task with two cleaning options and a source task posts exactly those
   * two parameters.
   */
  lemma CleanOrdersExample()
    ensures var d := EmptyDraft(Transformation).(name := "Clean Orders",
                       dataCleaningOptions := ["remove_null", "remove_nan"], sourceTaskName := "Fetch Orders");
      Parameters(Config(Transformation), d, InitialDatabase)
        == map["dataCleaningOptions" := TextList(["remove_null", "remove_nan"]), "source_task" := Text("Fetch Orders")]
  {
  }

  /** `generateTaskId`'s prefix; the rest of the id is time and randomness. */
  const GeneratedTaskIdPrefix := "task-"

  /** `taskPayload`; a `None` schedule is posted as `null`. */
  datatype TaskPayload = TaskPayload(
    taskId: string,
    name: string,
    description: string,
    lambdaFunctionName: string,
    parameters: map<string, ParamValue>,
    scheduleExpression: Option<string>)

  /**
   * The payload for draft `d` of type `t`: the user's task id or a generated one, the
   * draft's name, description and target function, the assembled parameters, and a blank
   * schedule turned into `null`.
   */
  function Payload(t: TaskType, database: string, d: TaskDraft, generatedId: string): (p: TaskPayload)
    ensures p.taskId == (if d.taskId != "" then d.taskId else generatedId)
    ensures p.name == d.name && p.description == d.description
    ensures p.lambdaFunctionName == d.lambdaFunctionName
    ensures p.parameters == Parameters(Config(t), d, database)
    ensures p.scheduleExpression.None? <==> d.scheduleExpression == ""
    ensures p.scheduleExpression.Some? ==> p.scheduleExpression.value == d.scheduleExpression
  {
    TaskPayload(
      if d.taskId != "" then d.taskId else generatedId,
      d.name, d.description, d.lambdaFunctionName,
      Parameters(Config(t), d, database),
      if d.scheduleExpression == "" then None else Some(d.scheduleExpression))
  }

  /** Reads one text parameter back, blank when absent. */
  function TextParam(p: map<string, ParamValue>, k: string): string {
    if k in p && p[k].Text? then p[k].text else ""
  }

  /**
   * Reads a draft of type `t` back from a payload: the inverse of `Payload` on consistent
   * drafts, up to the generated id and the message default.
   */
  function DecodeDraft(t: TaskType, p: TaskPayload): TaskDraft {
    var ps := p.parameters;
    var db := if "database" in ps && ps["database"].Database? then ps["database"].db else DatabaseParams("", "", "", None);
    TaskDraft(
      p.taskId, p.name, p.description, p.lambdaFunctionName,
      TextParam(ps, "url"), TextParam(ps, "source_task"),
      if "dataCleaningOptions" in ps && ps["dataCleaningOptions"].TextList? then ps["dataCleaningOptions"].items else [],
      p.scheduleExpression.GetOr(""),
      db.tableName, db.partitionKey, db.sortKey.GetOr(""),
      TextParam(ps, "topic_arn"), TextParam(ps, "message"))
  }

  /**
   * The payload loses nothing of a consistent draft: every hidden section is empty anyway,
   * and every shown section is posted. Decoding gives back the draft, except that the id is
   * the one posted and a blank notification message comes back as the default.
   */
  lemma PayloadRoundTrip(t: TaskType, database: string, d: TaskDraft, generatedId: string)
    requires Consistent(t, d)
    ensures DecodeDraft(t, Payload(t, database, d, generatedId))
         == d.(taskId := Payload(t, database, d, generatedId).taskId,
               notificationMessage := if Config(t).showNotification && d.notificationMessage == ""
                                      then DefaultMessage else d.notificationMessage)
  {
    assert SectionOf(d, UrlSection) == EmptySection(UrlSection) || Shows(Config(t), UrlSection);
    assert SectionOf(d, CleaningSection) == EmptySection(CleaningSection) || Shows(Config(t), CleaningSection);
    assert SectionOf(d, SourceSection) == EmptySection(SourceSection) || Shows(Config(t), SourceSection);
    assert SectionOf(d, DatabaseSection) == EmptySection(DatabaseSection) || Shows(Config(t), DatabaseSection);
    assert SectionOf(d, NotificationSection) == EmptySection(NotificationSection) || Shows(Config(t), NotificationSection);
  }

  /**
   * `handleSubmit`'s steps 1 to 5: start from an empty object and add each shown section's
   * keys in turn.
   */
  method AssembleParameters(c: TaskTypeConfig, d: TaskDraft, database: string) returns (parameters: map<string, ParamValue>)
    ensures parameters == Parameters(c, d, database)
  {
    parameters := map[];
    if c.showUrl {
      parameters := parameters["url" := Text(d.apiUrl)];
    }
    if c.showCleaning {
      parameters := parameters["dataCleaningOptions" := TextList(d.dataCleaningOptions)];
    }
    if c.showSource {
      parameters := parameters["source_task" := Text(d.sourceTaskName)];
    }
    if c.showDatabase {
      parameters := parameters["database" := Database(DatabaseParamsOf(d, database))];
    }
    if c.showNotification {
      parameters := parameters["topic_arn" := Text(d.topicArn)];
      parameters := parameters["message" := Text(NotificationMessage(d))];
    }
  }

  // ---------------------------------------------------------------------------------------
  // The component

  /** The error shown when the create call fails without a backend message. */
  const CreateFailedText := "❌ Failed to create task. Please try again."

  /** The success banner after a create, naming the type's caption. */
  function CreatedText(t: TaskType): string {
    "✅ Task created successfully! Type: " + Config(t).caption
  }

  /**
   * The `CreateTask` component's state. `requests` lists the payloads posted to the task
   * service, in order; `completions` counts calls of `onTaskCreated`.
   */
  class TaskForm {
    var selectedType: TaskType
    var selectedDatabase: string
    var formData: TaskDraft
    var loading: bool
    var error: string
    var success: string
    var requests: seq<TaskPayload>
    var completions: nat
    const hasCallback: bool

    /**
     * The draft is consistent with the selected type, its task id stays blank (no input
     * edits it), and the selected database is an available one.
     */
    ghost predicate Valid()
      reads this
    {
      && Consistent(selectedType, formData)
      && formData.taskId == ""
      && IsAvailableDatabase(selectedDatabase)
    }

    constructor (hasCallback: bool)
      ensures Valid()
      ensures selectedType == Collection && selectedDatabase == InitialDatabase
      ensures formData == EmptyDraft(Collection)
      ensures !loading && error == "" && success == ""
      ensures requests == [] && completions == 0 && this.hasCallback == hasCallback
    {
      selectedType := Collection;
      selectedDatabase := InitialDatabase;
      formData := EmptyDraft(Collection);
      loading, error, success := false, "", "";
      requests, completions := [], 0;
      this.hasCallback := hasCallback;
      assert DatabaseOptions[0].id == InitialDatabase;
    }

    /** `handleTypeChange`. */
    method HandleTypeChange(t: TaskType)
      requires Valid()
      modifies this
      ensures Valid()
      ensures selectedType == t && formData == SwitchType(old(formData), t)
      ensures selectedDatabase == old(selectedDatabase) && loading == old(loading)
      ensures error == old(error) && success == old(success)
      ensures requests == old(requests) && completions == old(completions)
    {
      selectedType := t;
      formData := SwitchType(formData, t);
    }

    /** A click on type card `i`. */
    method ClickTypeCard(i: nat)
      requires Valid() && i < |TypeEntries()|
      modifies this
      ensures Valid()
      ensures selectedType == TypeEntries()[i].0
      ensures formData == SwitchType(old(formData), TypeEntries()[i].0)
      ensures selectedDatabase == old(selectedDatabase) && loading == old(loading)
      ensures error == old(error) && success == old(success)
      ensures requests == old(requests) && completions == old(completions)
    {
      var (key, config) := TypeEntries()[i];
      selectedType := key;
      formData := ClickCard(formData, config);
      ClickCardIsSwitchType(old(formData), i);
    }

    /** `handleInputChange` on a rendered input. */
    method HandleInputChange(f: Field, v: string)
      requires Valid() && Rendered(Config(selectedType), f)
      modifies this`formData
      ensures Valid()
      ensures formData == SetField(old(formData), f, v)
    {
      SetFieldPreservesConsistent(selectedType, formData, f, v);
      formData := SetField(formData, f, v);
    }

    /** `handleSelectChange`: the cleaning-options dropdown, rendered only when that section shows. */
    method HandleSelectChange(options: seq<string>)
      requires Valid() && Config(selectedType).showCleaning
      modifies this`formData
      ensures Valid()
      ensures formData == old(formData).(dataCleaningOptions := options)
    {
      formData := formData.(dataCleaningOptions := options);
      assert forall s :: s != CleaningSection ==> SectionOf(formData, s) == SectionOf(old(formData), s);
    }

    /** A click on database card `i`. */
    method SelectDatabaseCard(i: nat)
      requires Valid() && i < |DatabaseOptions|
      modifies this`selectedDatabase
      ensures Valid()
      ensures selectedDatabase == ClickDatabase(old(selectedDatabase), i)
    {
      selectedDatabase := ClickDatabase(selectedDatabase, i);
    }

    /**
     * `handleSubmit`, with the create call's outcome as a parameter and `generatedId` the
     * value `generateTaskId` returns. The payload is always posted. On success the draft is
     * reset for the current type and `onTaskCreated` is called; on failure the draft is kept
     * and the error is the backend's message or the fixed fallback.
     */
    method HandleSubmit(generatedId: string, outcome: Response<()>)
      requires Valid()
      modifies this
      ensures Valid()
      ensures requests == old(requests) + [Payload(selectedType, selectedDatabase, old(formData), generatedId)]
      ensures requests[|requests| - 1].taskId == generatedId
      ensures selectedType == old(selectedType) && selectedDatabase == old(selectedDatabase)
      ensures !loading
      ensures outcome.Ok? ==>
        && formData == EmptyDraft(selectedType)
        && success == CreatedText(selectedType) && error == ""
        && completions == old(completions) + (if hasCallback then 1 else 0)
      ensures outcome.Failed? ==>
        && formData == old(formData)
        && error == TextOr(outcome.message, CreateFailedText) && success == ""
        && completions == old(completions)
    {
      error := "";
      success := "";
      loading := true;

      var taskId := if formData.taskId != "" then formData.taskId else generatedId;
      var currentConfig := Config(selectedType);
      var parameters := AssembleParameters(currentConfig, formData, selectedDatabase);
      var payload := TaskPayload(taskId, formData.name, formData.description, formData.lambdaFunctionName,
                                 parameters, if formData.scheduleExpression == "" then None else Some(formData.scheduleExpression));
      requests := requests + [payload];

      match outcome {
        case Ok(_) =>
          success := CreatedText(selectedType);
          formData := EmptyDraft(selectedType);
          if hasCallback {
            completions := completions + 1;
          }
        case Failed(message) =>
          error := TextOr(message, CreateFailedText);
      }
      loading := false;
    }

    /**
     * Pressing the submit button: the browser lets the form submit only when the button is
     * enabled and every rendered `required` input is filled, the URL with a value `validUrl`
     * accepts; then `handleSubmit` runs, and otherwise nothing changes and no call is made.
     */
    method Submit(generatedId: string, outcome: Response<()>, validUrl: UrlCheck)
      requires Valid()
      modifies this
      ensures Valid()
      ensures selectedType == old(selectedType) && selectedDatabase == old(selectedDatabase)
      ensures old(loading) || !RequiredFilled(Config(old(selectedType)), old(formData), validUrl) ==>
        && requests == old(requests) && formData == old(formData) && completions == old(completions)
        && loading == old(loading) && error == old(error) && success == old(success)
      ensures !old(loading) && RequiredFilled(Config(old(selectedType)), old(formData), validUrl) ==>
        && requests == old(requests) + [Payload(selectedType, selectedDatabase, old(formData), generatedId)]
        && !loading
        && (outcome.Ok? ==>
              && formData == EmptyDraft(selectedType)
              && success == CreatedText(selectedType) && error == ""
              && completions == old(completions) + (if hasCallback then 1 else 0))
        && (outcome.Failed? ==>
              && formData == old(formData)
              && error == TextOr(outcome.message, CreateFailedText) && success == ""
              && completions == old(completions))
    {
      if !loading && RequiredFilled(Config(selectedType), formData, validUrl) {
        HandleSubmit(generatedId, outcome);
      }
    }
  }

  /** A draft with a blank name never reaches the network. */
  method BlankNameIsNotPosted(generatedId: string, outcome: Response<()>)
  {
    var form := new TaskForm(true);
    form.HandleInputChange(DescriptionField, "nightly import");
    form.Submit(generatedId, outcome, url => url != "");
    assert form.requests == [];
  }
}
