/** `SocEventParser`: derives the case-management system's alert from a
    normalized event and its case from an incident. Every derivation is a pure
    expression over the message; the enum lookups are the only way it fails
    (`KeyError`), besides the flattening of the custom fields. */
module SocEventParser {
  import opened Common
  import opened Strings
  import opened OrderedDict
  import opened Records
  import opened Flattener
  import opened CustomFields

  /** `SocEvent.eventSource`; `category` is an enum number of `categories`,
      `subsys` is the text of the `subsys` wrapper. */
  datatype EventSource = EventSource(
    id: string,
    vendor: string,
    title: string,
    subsys: string,
    category: int,
    categories: EnumType)

  /** The parts of a normalized event that the pipeline reads, and `record`,
      the message as the flattener walks it. The two views are independent
      parameters: nothing here ties a typed field to the leaf of `record`
      that holds the same value. */
  datatype SocEvent = SocEvent(
    id: string,
    eventSource: EventSource,
    eventTime: int,           // seconds since the epoch
    importance: int,          // `interaction.importance`, a number of `importances`
    importances: EnumType,
    organization: string,     // `collector.organization`
    eventIds: seq<string>,    // `correlation.eventIds`, each wrapper's `.value`
    rawIds: seq<string>,      // `data.rawIds`
    record: Msg)

  /** The parts of an incident that the pipeline reads, and its `record`,
      likewise independent of each other. */
  datatype Incident = Incident(
    id: string,
    usecaseId: string,
    severityLevel: int,       // a number of `severityLevels`
    severityLevels: EnumType,
    correlationRuleName: string,
    detectedTime: int,        // seconds since the epoch
    correlationEvent: SocEvent,
    record: Msg)

  /** Events and incidents of the pipeline's schemas, whose field names are
      all valid (see `Records.ValidName`). */
  type ValidSocEvent = e: SocEvent | WellNamed(e.record)
    witness SocEvent("", EventSource("", "", "", "", 0, EnumType(map[])), 0, 0, EnumType(map[]),
                     "", [], [], Msg([]))

  type ValidIncident = inc: Incident | WellNamed(inc.record)
    witness Incident("", "", 0, EnumType(map[]), "", 0,
                     SocEvent("", EventSource("", "", "", "", 0, EnumType(map[])), 0, 0, EnumType(map[]),
                              "", [], [], Msg([])),
                     Msg([]))

  /** An alert artifact (none is ever produced). */
  datatype Artifact = Artifact(dataType: string, data: string)

  /** The case-management client's `Alert` as the parser fills it in. */
  datatype Alert = Alert(
    title: string,
    alertType: string,
    source: string,
    sourceRef: string,
    description: string,
    customFields: CustomFieldSet,
    date: int,                // milliseconds since the epoch
    severity: int,
    caseTemplate: string,
    tags: seq<string>,
    artifacts: seq<Artifact>)

  /** The case-management client's `Case`; `id` is set once the case exists. */
  datatype Case = Case(
    title: string,
    description: string,
    severity: int,
    tags: seq<string>,
    startDate: int,           // milliseconds since the epoch
    metrics: Assoc<string, int>,
    customFields: CustomFieldSet,
    template: string,
    id: Option<string>)

  const AlertTemplate: string := "Alert_template_full"
  const CaseTemplate: string := "Case_template_full"

  /** The client accepts severities in {1, 2, 3}; the source shifts the
      message's level down by one and lifts everything below 2 to 1. */
  function Severity(level: int): (r: int)
    ensures r >= 1
    ensures level >= 2 ==> r < level
  {
    if level > 1 then level - 1 else 1
  }

  /** Seconds to the milliseconds the client expects. */
  function Millis(seconds: int): (ms: int)
    ensures ms / 1000 == seconds && ms % 1000 == 0
  {
    seconds * 1000
  }

  /** `_get_alert_type`: the symbolic name of the event-source category. */
  function AlertType(e: SocEvent): (r: Option<string>)
    ensures r.Some? <==> e.eventSource.category in e.eventSource.categories.members
  {
    EnumName(e.eventSource.categories, e.eventSource.category)
  }

  /** `_get_alert_source`: `':'.join((vendor, title, subsys.value))`. */
  function AlertSource(e: SocEvent): string
  {
    Join([e.eventSource.vendor, e.eventSource.title, e.eventSource.subsys], ":")
  }

  /** `_get_case_title`: `f'{usecaseId}_{id}'`. */
  function CaseTitle(inc: Incident): string
  {
    inc.usecaseId + "_" + inc.id
  }

  /** `_prepare_tags`: category name, vendor, title and importance name. */
  function AlertTags(e: SocEvent): (r: Option<seq<string>>)
    ensures r.Some? <==> AlertType(e).Some? && e.importance in e.importances.members
    ensures r.Some? ==> |r.value| == 4
  {
    match (AlertType(e), EnumName(e.importances, e.importance))
    case (Some(category), Some(importance)) =>
      Some([category, e.eventSource.vendor, e.eventSource.title, importance])
    case _ => None
  }

  /** `_prepare_case_tags`: organization, rule name, use case and severity name. */
  function CaseTags(inc: Incident): (r: Option<seq<string>>)
    ensures r.Some? <==> inc.severityLevel in inc.severityLevels.members
    ensures r.Some? ==> |r.value| == 4
  {
    match EnumName(inc.severityLevels, inc.severityLevel)
    case Some(severity) =>
      Some([inc.correlationEvent.organization, inc.correlationRuleName, inc.usecaseId, severity])
    case None => None
  }

  /** `prepare_custom_fields`: flatten the whole message, then coerce. */
  function PrepareCustomFields(m: Msg): (r: Option<CustomFieldSet>)
    requires WellNamed(m)
    ensures r.Some? <==> Flatten(m).Some?
  {
    match Flatten(m)
    case Some(flat) => Some(BuildFields(flat))
    case None => None
  }

  /** `prepare_thehive_alert`; `None` is the `KeyError` of an undeclared enum
      number, here or in the flattener. */
  function PrepareAlert(e: SocEvent): (r: Option<Alert>)
    requires WellNamed(e.record)
  {
    match (AlertType(e), PrepareCustomFields(e.record), AlertTags(e))
    case (Some(alertType), Some(fields), Some(tags)) =>
      Some(Alert(
        title := e.id,
        alertType := alertType,
        source := AlertSource(e),
        sourceRef := e.id,
        description := e.eventSource.id,
        customFields := fields,
        date := Millis(e.eventTime),
        severity := Severity(e.importance),
        caseTemplate := AlertTemplate,
        tags := tags,
        artifacts := []))
    case _ => None
  }

  /** `prepare_thehive_case`; `None` as for `PrepareAlert`. */
  function PrepareCase(inc: Incident): (r: Option<Case>)
    requires WellNamed(inc.record)
  {
    match (PrepareCustomFields(inc.record), CaseTags(inc))
    case (Some(fields), Some(tags)) =>
      Some(Case(
        title := CaseTitle(inc),
        description := inc.correlationEvent.eventSource.id,
        severity := Severity(inc.severityLevel),
        tags := tags,
        startDate := Millis(inc.detectedTime),
        metrics := [],
        customFields := fields,
        template := CaseTemplate,
        id := None))
    case _ => None
  }

  /** The severity mapping: never below 1; levels 0, 1 and 2 give 1, level 5
      gives 4, and from 2 upward it is one less than the level. */
  lemma SeverityFacts(level: int)
    ensures Severity(level) >= 1
    ensures Severity(0) == 1 && Severity(1) == 1 && Severity(2) == 1 && Severity(5) == 4
    ensures level >= 2 ==> Severity(level) + 1 == level
    ensures level <= 2 ==> Severity(level) == 1
  {
  }

  /** What an alert is made of, and exactly when it cannot be made. */
  lemma AlertShape(e: SocEvent)
    requires WellNamed(e.record)
    ensures PrepareAlert(e).Some? <==>
      && e.eventSource.category in e.eventSource.categories.members
      && e.importance in e.importances.members
      && Flatten(e.record).Some?
    ensures PrepareAlert(e).Some? ==>
      var a := PrepareAlert(e).value;
      && a.title == e.id && a.sourceRef == e.id
      && a.source == AlertSource(e)
      && a.description == e.eventSource.id
      && a.alertType == e.eventSource.categories.members[e.eventSource.category]
      && a.date / 1000 == e.eventTime && a.date % 1000 == 0
      && a.severity == Severity(e.importance)
      && a.caseTemplate == AlertTemplate
      && a.tags == [a.alertType, e.eventSource.vendor, e.eventSource.title,
                    e.importances.members[e.importance]]
      && a.artifacts == []
      && a.customFields == BuildFields(Flatten(e.record).value)
  {
  }

  /** What a case is made of, and exactly when it cannot be made. */
  lemma CaseShape(inc: Incident)
    requires WellNamed(inc.record)
    ensures PrepareCase(inc).Some? <==>
      inc.severityLevel in inc.severityLevels.members && Flatten(inc.record).Some?
    ensures PrepareCase(inc).Some? ==>
      var c := PrepareCase(inc).value;
      && c.title == CaseTitle(inc)
      && c.description == inc.correlationEvent.eventSource.id
      && c.startDate / 1000 == inc.detectedTime && c.startDate % 1000 == 0
      && c.severity == Severity(inc.severityLevel)
      && c.template == CaseTemplate
      && c.tags == [inc.correlationEvent.organization, inc.correlationRuleName,
                    inc.usecaseId, inc.severityLevels.members[inc.severityLevel]]
      && c.metrics == []
      && c.id.None?
      && c.customFields == BuildFields(Flatten(inc.record).value)
  {
  }

  /** The alert source splits back into vendor, title and subsystem when none
      of them holds a colon. */
  lemma AlertSourceSplits(e: SocEvent)
    requires ':' !in e.eventSource.vendor && ':' !in e.eventSource.title
    requires ':' !in e.eventSource.subsys
    ensures Split(AlertSource(e), ':') == [e.eventSource.vendor, e.eventSource.title, e.eventSource.subsys]
  {
    SplitJoin([e.eventSource.vendor, e.eventSource.title, e.eventSource.subsys], ':');
  }

  /** The case title ends with the incident id as its last `_`-piece, and the
      pieces before it join back to the use-case id. */
  lemma CaseTitleSplits(inc: Incident)
    requires '_' !in inc.id
    ensures var pieces := Split(CaseTitle(inc), '_');
      && pieces[|pieces| - 1] == inc.id
      && Join(pieces[..|pieces| - 1], "_") == inc.usecaseId
  {
    SplitAppend(inc.usecaseId, '_', inc.id);
    JoinSplit(inc.usecaseId, '_');
    var pieces := Split(CaseTitle(inc), '_');
    assert pieces[..|pieces| - 1] == Split(inc.usecaseId, '_');
  }

  /** The custom fields of a message: one per flattened key, in flattening
      order, each numbered by its position and typed by `Classify`. */
  lemma CustomFieldsShape(m: Msg)
    requires WellNamed(m)
    ensures PrepareCustomFields(m).Some? ==>
      var fields, kept := PrepareCustomFields(m).value, Kept(Flatten(m).value);
      && Distinct(Keys(fields))
      && Keys(fields) == Keys(kept)
      && forall i :: 0 <= i < |fields| ==> fields[i].1.order == i
  {
    if Flatten(m).Some? {
      FlattenDistinct(m);
      BuildFieldsShape(Flatten(m).value);
      KeptDistinct(Flatten(m).value);
    }
  }
}
