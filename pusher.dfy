/** `TheHivePusher`: turns one incident message into a case, one alert per
    correlated event, a merge of those alerts into the case and a final tag.
    The case-management API is an oracle that answers each call given every
    call made before it; each `@retry` decorator is an explicit attempt loop
    (its delays are not modelled). */
module Pusher {
  import opened Common
  import opened Strings
  import opened OrderedDict
  import opened Records
  import opened CustomFields
  import opened SocEventParser
  import opened HbaseEventLoader

  /** A request to the case-management API. */
  datatype Call =
    | CreateCase(theCase: Case)
    | CreateAlert(alert: Alert)
    | MergeAlerts(caseId: string, alertIds: seq<string>)
    | UpdateCase(theCase: Case, fields: seq<string>)

  /** The answer: the created object's id, an HTTP error status
      (`raise_for_status`), or a client exception (`TheHiveException`). */
  datatype Response = Ok(id: string) | HttpErr(status: int) | HiveErr

  /** The API's behaviour: its answer to a call after the given history. */
  type ApiOracle = (seq<Call>, Call) -> Response

  const CreateCaseTries: nat := 10
  const SendAlertTries: nat := 5
  const MergeTries: nat := 5
  const FinalTagTries: nat := 5
  const RawFieldName: string := "raw"
  const RawSeparator: string := ";\n"
  const FinalTag: string := "FINAL"

  /** `fields.update({'raw': {'string': ';\n'.join(raw), 'order': len(fields)}})`. */
  function WithRaw(fields: CustomFieldSet, raw: seq<string>): (r: CustomFieldSet)
    ensures Get(r, RawFieldName) == Some(CustomField(StringType, Str(Join(raw, RawSeparator)), |fields|))
    ensures forall k :: k != RawFieldName ==> Get(r, k) == Get(fields, k)
  {
    AddField(fields, RawFieldName, StringType, Str(Join(raw, RawSeparator)))
  }

  /** A call under `@retry((TheHiveException, HTTPError), tries=n)`: every
      failure is retried until an answer is `Ok` or the attempts run out. */
  function Retry(respond: ApiOracle, log: seq<Call>, call: Call, tries: nat): (Response, seq<Call>)
    requires tries >= 1
    decreases tries
  {
    var r := respond(log, call);
    if r.Ok? || tries == 1 then (r, log + [call])
    else Retry(respond, log + [call], call, tries - 1)
  }

  /** The attempts of a retried call: between one and `tries` copies of the
      call, every answer but the last a failure, the last answer the result,
      which is a failure only when all `tries` attempts failed. */
  lemma {:induction false} RetryAttempts(respond: ApiOracle, log: seq<Call>, call: Call, tries: nat)
    requires tries >= 1
    ensures var (r, log') := Retry(respond, log, call, tries);
      var n := |log'| - |log|;
      && 1 <= n <= tries
      && log' == log + Repeat(call, n)
      && r == respond(log + Repeat(call, n - 1), call)
      && (r.Ok? || n == tries)
      && (forall j :: 0 <= j < n - 1 ==> !respond(log + Repeat(call, j), call).Ok?)
    decreases tries
  {
    var log1 := log + [call];
    assert Repeat(call, 0) == [] && log + [] == log;
    assert Repeat(call, 1) == [call];
    var r := respond(log, call);
    if !r.Ok? && tries > 1 {
      RetryAttempts(respond, log1, call, tries - 1);
      var (_, log') := Retry(respond, log1, call, tries - 1);
      var m := |log'| - |log1|;
      forall j | 0 <= j <= m
        ensures log1 + Repeat(call, j) == log + Repeat(call, j + 1)
      {
        RepeatCons(call, j);
      }
    }
  }

  /** The calls of a retried call, without the answers. */
  lemma RetryCalls(respond: ApiOracle, log: seq<Call>, call: Call, tries: nat)
    requires tries >= 1
    ensures var (r, log') := Retry(respond, log, call, tries);
      && IsPrefix(log, log')
      && 1 <= |log'| - |log| <= tries
      && (r.Ok? || |log'| - |log| == tries)
      && forall i :: 0 <= i < |log'| - |log| ==> log'[|log|..][i] == call
  {
    RetryAttempts(respond, log, call, tries);
    var (_, log') := Retry(respond, log, call, tries);
    assert log'[|log|..] == Repeat(call, |log'| - |log|);
  }

  /** The case with one more `FINAL` tag. */
  function Tagged(c: Case): Case
  {
    c.(tags := c.tags + [FinalTag])
  }

  /** `set_final_tag` under its `@retry`: each attempt appends `FINAL` to the
      case's tags, then sends the tags. Returns the answer, the history and
      the case as left behind. */
  function FinalTagSpec(respond: ApiOracle, log: seq<Call>, c: Case, tries: nat): (Response, seq<Call>, Case)
    requires tries >= 1
    decreases tries
  {
    var c' := Tagged(c);
    var call := UpdateCase(c', ["tags"]);
    var r := respond(log, call);
    if r.Ok? || tries == 1 then (r, log + [call], c')
    else FinalTagSpec(respond, log + [call], c', tries - 1)
  }

  /** The calls of `n` final-tag attempts on `c`: each sends the case with
      one more `FINAL` than the one before. */
  function TagCalls(c: Case, n: nat): (r: seq<Call>)
    ensures |r| == n
    ensures forall i :: 0 <= i < n ==> r[i].UpdateCase? && r[i].fields == ["tags"]
    decreases n
  {
    if n == 0 then [] else [UpdateCase(Tagged(c), ["tags"])] + TagCalls(Tagged(c), n - 1)
  }

  /** The `j`-th attempt (from 0) sends the case with `j + 1` `FINAL` tags. */
  lemma {:induction false} TagCallsAt(c: Case, n: nat, j: nat)
    requires j < n
    ensures TagCalls(c, n)[j] == UpdateCase(c.(tags := c.tags + Repeat(FinalTag, j + 1)), ["tags"])
    decreases j
  {
    if j == 0 {
      assert Repeat(FinalTag, 1) == [FinalTag];
    } else {
      TagCallsAt(Tagged(c), n - 1, j - 1);
      RepeatCons(FinalTag, j);
      assert (c.tags + [FinalTag]) + Repeat(FinalTag, j) == c.tags + Repeat(FinalTag, j + 1);
    }
  }

  /** `k` attempts of `set_final_tag`: the attempts are `TagCalls(c, k)`,
      and the last answer is the result, a failure only when all `tries`
      attempts failed. */
  lemma {:induction false} FinalTagAttempts(respond: ApiOracle, log: seq<Call>, c: Case, tries: nat)
    requires tries >= 1
    ensures var (r, log', _) := FinalTagSpec(respond, log, c, tries);
      var n := |log'| - |log|;
      && 1 <= n <= tries
      && log' == log + TagCalls(c, n)
      && r == respond(log'[..|log'| - 1], log'[|log'| - 1])
      && (r.Ok? || n == tries)
    decreases tries
  {
    var c1 := Tagged(c);
    var call := UpdateCase(c1, ["tags"]);
    var log1 := log + [call];
    if !respond(log, call).Ok? && tries > 1 {
      FinalTagAttempts(respond, log1, c1, tries - 1);
      var (_, log', _) := FinalTagSpec(respond, log1, c1, tries - 1);
      var m := |log'| - |log1|;
      assert TagCalls(c, m + 1) == [call] + TagCalls(c1, m);
    } else {
      assert TagCalls(c, 1) == [call];
      assert log1[..|log1| - 1] == log;
    }
  }

  /** `k` attempts of `set_final_tag` leave the case with `k` more `FINAL`
      tags. */
  lemma {:induction false} FinalTagCase(respond: ApiOracle, log: seq<Call>, c: Case, tries: nat)
    requires tries >= 1
    ensures var (_, log', c') := FinalTagSpec(respond, log, c, tries);
      |log'| >= |log| && c' == c.(tags := c.tags + Repeat(FinalTag, |log'| - |log|))
    decreases tries
  {
    var c1 := Tagged(c);
    var call := UpdateCase(c1, ["tags"]);
    var log1 := log + [call];
    if !respond(log, call).Ok? && tries > 1 {
      FinalTagCase(respond, log1, c1, tries - 1);
      var (_, log', _) := FinalTagSpec(respond, log1, c1, tries - 1);
      var m := |log'| - |log1|;
      RepeatCons(FinalTag, m);
      assert c1.tags + Repeat(FinalTag, m) == c.tags + Repeat(FinalTag, m + 1);
    } else {
      assert Repeat(FinalTag, 1) == [FinalTag];
    }
  }

  /** The final-tag attempts only update the case; the last one sent the
      case's tags ending in `FINAL`. */
  lemma FinalTagCalls(respond: ApiOracle, log: seq<Call>, c: Case)
    ensures var (r, log', _) := FinalTagSpec(respond, log, c, FinalTagTries);
      && IsPrefix(log, log') && |log'| > |log|
      && NoCaseCreation(log'[|log|..])
      && NoMerge(log'[|log|..])
      && log'[|log'| - 1] == UpdateCase(c.(tags := c.tags + Repeat(FinalTag, |log'| - |log|)), ["tags"])
  {
    FinalTagAttempts(respond, log, c, FinalTagTries);
    var (_, log', _) := FinalTagSpec(respond, log, c, FinalTagTries);
    var n := |log'| - |log|;
    assert log'[|log|..] == TagCalls(c, n);
    TagCallsAt(c, n, n - 1);
  }

  /** The case-management API client, as seen through the calls it answers:
      `log` is every call made so far. */
  class TheHiveApi {
    const respond: ApiOracle
    var log: seq<Call>

    constructor (respond: ApiOracle)
      ensures this.respond == respond && log == []
    {
      this.respond := respond;
      log := [];
    }

    /** One request, with `raise_for_status` folded into the answer. */
    method Send(call: Call) returns (r: Response)
      modifies this
      ensures log == old(log) + [call]
      ensures r == respond(old(log), call)
    {
      r := respond(log, call);
      log := log + [call];
    }
  }

  /** What `push` leaves behind: the calls and lookups made so far. */
  datatype World = World(calls: seq<Call>, lookups: seq<Lookup>)

  /** `push` returns early on a parse error, propagates an exception, or
      completes. */
  datatype PushOutcome = Dropped | Aborted | Completed

  /** How `push` ended, the world after it, the ids of the alerts it created
      and the id of the case it created. */
  datatype PushResult = PushResult(outcome: PushOutcome, world: World, alertIds: seq<string>, caseId: Option<string>)

  /** How the alert loop ended (`ok` is false when an exception escaped). */
  datatype LoopResult = LoopResult(ok: bool, world: World, alertIds: seq<string>)

  /** No call in `s` creates a case. */
  predicate NoCaseCreation(s: seq<Call>)
  {
    forall i :: 0 <= i < |s| ==> !s[i].CreateCase?
  }

  /** Every call in `s` creates an alert. */
  predicate OnlyAlerts(s: seq<Call>)
  {
    forall i :: 0 <= i < |s| ==> s[i].CreateAlert?
  }

  /** No call in `s` merges alerts. */
  predicate NoMerge(s: seq<Call>)
  {
    forall i :: 0 <= i < |s| ==> !s[i].MergeAlerts?
  }

  /** `calls` extends `before`, and among the calls added every case
      creation comes before every other call. */
  predicate CreationsFirst(before: seq<Call>, calls: seq<Call>)
  {
    && IsPrefix(before, calls)
    && forall i, j :: |before| <= i < j < |calls| && calls[j].CreateCase? ==> calls[i].CreateCase?
  }

  /** A completed run, started after the calls `before`, merged exactly when it
      created alerts, with exactly their ids, into its case, and its last call
      sent the case's tags ending in `FINAL`. */
  predicate MergedAndTagged(before: seq<Call>, r: PushResult)
  {
    r.outcome == Completed ==>
      && r.caseId.Some?
      && IsPrefix(before, r.world.calls)
      && |r.world.calls| > |before|
      && (r.alertIds != [] <==> MergeAlerts(r.caseId.value, r.alertIds) in r.world.calls[|before|..])
      && (r.alertIds == [] ==> NoMerge(r.world.calls[|before|..]))
      && var last := r.world.calls[|r.world.calls| - 1];
      && last.UpdateCase?
      && last.fields == ["tags"]
      && last.theCase.id == r.caseId
      && |last.theCase.tags| > 0
      && last.theCase.tags[|last.theCase.tags| - 1] == FinalTag
  }

  /** Calls that only create alerts neither create cases nor merge. */
  lemma OnlyAlertsNeither(s: seq<Call>)
    requires OnlyAlerts(s)
    ensures NoCaseCreation(s) && NoMerge(s)
  {
    forall i | 0 <= i < |s| ensures !s[i].CreateCase? && !s[i].MergeAlerts? {
      assert s[i].CreateAlert?;
    }
  }

  /** Extending twice without a case creation. */
  lemma NoCaseCreationChain(a: seq<Call>, b: seq<Call>, c: seq<Call>)
    requires IsPrefix(a, b) && IsPrefix(b, c)
    requires NoCaseCreation(b[|a|..]) && NoCaseCreation(c[|b|..])
    ensures IsPrefix(a, c) && NoCaseCreation(c[|a|..])
  {
    forall i | 0 <= i < |c| - |a| ensures !c[|a|..][i].CreateCase? {
      if |a| + i < |b| {
        assert c[|a|..][i] == b[|a|..][i];
      } else {
        assert c[|a|..][i] == c[|b|..][|a| + i - |b|];
      }
    }
  }

  /** Extending twice with alert creations only. */
  lemma OnlyAlertsChain(a: seq<Call>, b: seq<Call>, c: seq<Call>)
    requires IsPrefix(a, b) && IsPrefix(b, c)
    requires OnlyAlerts(b[|a|..]) && OnlyAlerts(c[|b|..])
    ensures IsPrefix(a, c) && OnlyAlerts(c[|a|..])
  {
    forall i | 0 <= i < |c| - |a| ensures c[|a|..][i].CreateAlert? {
      if |a| + i < |b| {
        assert c[|a|..][i] == b[|a|..][i];
      } else {
        assert c[|a|..][i] == c[|b|..][|a| + i - |b|];
      }
    }
  }

  /** Two stretches without a merge make one. */
  lemma NoMergeConcat(s: seq<Call>, t: seq<Call>)
    requires NoMerge(s) && NoMerge(t)
    ensures NoMerge(s + t)
  {
    forall i | 0 <= i < |s + t| ensures !(s + t)[i].MergeAlerts? {
      if i >= |s| {
        assert (s + t)[i] == t[i - |s|];
      }
    }
  }

  /** Two stretches without a merge, one after the other. */
  lemma NoMergeAdded(a: seq<Call>, b: seq<Call>, t: seq<Call>)
    requires IsPrefix(a, b) && IsPrefix(b, t)
    requires NoMerge(b[|a|..]) && NoMerge(t[|b|..])
    ensures NoMerge(t[|a|..])
  {
    assert t[|a|..] == b[|a|..] + t[|b|..];
    NoMergeConcat(b[|a|..], t[|b|..]);
  }

  /** A call made right after `b` is among the calls added since `a`. */
  lemma MergeAdded(a: seq<Call>, b: seq<Call>, m: seq<Call>, t: seq<Call>, x: Call)
    requires IsPrefix(a, b) && IsPrefix(b, m) && IsPrefix(m, t)
    requires |m| > |b| && m[|b|] == x
    ensures x in t[|a|..]
  {
    assert t[|a|..][|b| - |a|] == m[|b|];
  }

  /** Tags with `n >= 1` `FINAL`s appended end in `FINAL`. */
  lemma LastTagIsFinal(c: Case, n: nat)
    requires n >= 1
    ensures var tags := c.tags + Repeat(FinalTag, n);
      |tags| > 0 && tags[|tags| - 1] == FinalTag
  {
    var tags := c.tags + Repeat(FinalTag, n);
    assert tags[|tags| - 1] == Repeat(FinalTag, n)[n - 1];
  }

  /** Repeated case creations followed by other calls put the creations first. */
  lemma CreationsThenOthers(before: seq<Call>, mid: seq<Call>, calls: seq<Call>)
    requires IsPrefix(before, mid) && IsPrefix(mid, calls)
    requires forall i :: 0 <= i < |mid| - |before| ==> mid[|before|..][i].CreateCase?
    requires NoCaseCreation(calls[|mid|..])
    ensures CreationsFirst(before, calls)
  {
    forall j | |mid| <= j < |calls| ensures !calls[j].CreateCase? {
      assert calls[j] == calls[|mid|..][j - |mid|];
    }
    forall i | |before| <= i < |mid| ensures calls[i].CreateCase? {
      assert calls[i] == mid[|before|..][i - |before|];
    }
  }

  /** Calls that merge nothing in front of a completed run keep it merged and
      tagged. */
  lemma MergedAndTaggedExtend(a: seq<Call>, b: seq<Call>, r: PushResult)
    requires IsPrefix(a, b) && NoMerge(b[|a|..]) && MergedAndTagged(b, r)
    ensures MergedAndTagged(a, r)
  {
    if r.outcome == Completed {
      var s := r.world.calls;
      assert s[|a|..] == b[|a|..] + s[|b|..];
      if r.alertIds == [] {
        forall i | 0 <= i < |s| - |a| ensures !s[|a|..][i].MergeAlerts? {
          if |a| + i < |b| {
            assert s[|a|..][i] == b[|a|..][i];
          } else {
            assert s[|a|..][i] == s[|b|..][|a| + i - |b|];
          }
        }
      } else {
        assert MergeAlerts(r.caseId.value, r.alertIds) !in b[|a|..];
      }
    }
  }

  /** How one event of the alert loop ends. */
  datatype Sent = Created(id: string) | Skipped | Stopped

  /** The ids of the created alerts among `sents`, in order. */
  function CreatedIds(sents: seq<Sent>): seq<string>
  {
    if sents == [] then []
    else (if sents[0].Created? then [sents[0].id] else []) + CreatedIds(sents[1..])
  }

  /** The ids created by one outcome followed by others. */
  lemma CreatedIdsCons(sent: Sent, rest: seq<Sent>, ids: seq<string>)
    ensures (if sent.Created? then ids + [sent.id] else ids) + CreatedIds(rest)
            == ids + CreatedIds([sent] + rest)
  {
    assert ([sent] + rest)[1..] == rest;
  }

  class TheHivePusher {
    const api: TheHiveApi
    const loader: HbaseEventsLoader

    constructor (api: TheHiveApi, loader: HbaseEventsLoader)
      ensures this.api == api && this.loader == loader
    {
      this.api := api;
      this.loader := loader;
    }

    /** `load_raw_events` as a specification: any exception gives no events. */
    function LoadRawSpec(lookups: seq<Lookup>, inc: Incident): (seq<string>, seq<Lookup>)
    {
      var (r, lookups') := loader.GetRawEventsSpec(lookups, inc.correlationEvent.rawIds);
      (if r.Done? then r.value else [], lookups')
    }

    /** `load_normalized_events` as a specification, likewise. */
    function LoadNormalizedSpec(lookups: seq<Lookup>, inc: Incident): (seq<ValidSocEvent>, seq<Lookup>)
    {
      var (r, lookups') := loader.GetNormalizedEventsSpec(lookups, inc.correlationEvent.eventIds);
      (if r.Done? then r.value else [], lookups')
    }

    /** `_prepare_alert_from_event` as a specification: the parser's alert,
        with the `raw` field added when the raw events could be read. `None`
        is the parser's `KeyError`, raised before any lookup. */
    function PrepareAlertSpec(lookups: seq<Lookup>, e: ValidSocEvent): (Option<Alert>, seq<Lookup>)
    {
      match PrepareAlert(e)
      case None => (None, lookups)
      case Some(a) =>
        var (r, lookups') := loader.GetRawEventsSpec(lookups, e.rawIds);
        (Some(if r.Done? then a.(customFields := WithRaw(a.customFields, r.value)) else a), lookups')
    }

    /** One event of the alert loop: prepare its alert, send it. */
    function AlertAttempt(w: World, e: ValidSocEvent): (Sent, World)
    {
      var (alert, lookups') := PrepareAlertSpec(w.lookups, e);
      match alert
      case None => (Stopped, World(w.calls, lookups'))
      case Some(a) =>
        var (sent, calls') := Retry(api.respond, w.calls, CreateAlert(a), SendAlertTries);
        (match sent
         case Ok(id) => Created(id)
         case HttpErr(status) => if status == 400 then Skipped else Stopped
         case HiveErr => Stopped,
         World(calls', lookups'))
    }

    /** The alert loop of `push` from the given world over the remaining
        events, with the ids collected so far. */
    function AlertLoopSpec(w: World, events: seq<ValidSocEvent>, ids: seq<string>): LoopResult
      decreases |events|
    {
      if events == [] then LoopResult(true, w, ids)
      else
        var (sent, w') := AlertAttempt(w, events[0]);
        match sent
        case Created(id) => AlertLoopSpec(w', events[1..], ids + [id])
        case Skipped => AlertLoopSpec(w', events[1..], ids)
        case Stopped => LoopResult(false, w', ids)
    }

    /** The outcome of every event the alert loop attempts, in event order:
        each attempt starts from the world the previous one left, and the
        attempts end after the first one that stops the loop. */
    function Attempts(w: World, events: seq<ValidSocEvent>): seq<Sent>
      decreases |events|
    {
      if events == [] then []
      else
        var (sent, w') := AlertAttempt(w, events[0]);
        [sent] + (if sent.Stopped? then [] else Attempts(w', events[1..]))
    }

    /** The conditional merge: no call for an empty id list. */
    function MergeSpec(calls: seq<Call>, caseId: string, ids: seq<string>): (bool, seq<Call>)
    {
      if ids == [] then (true, calls)
      else
        var (r, calls') := Retry(api.respond, calls, MergeAlerts(caseId, ids), MergeTries);
        (r.Ok?, calls')
    }

    /** `push` as a specification. */
    function PushSpec<M>(w: World, message: M, parse: M -> Option<ValidIncident>): PushResult
    {
      match parse(message)
      case None => PushResult(Dropped, w, [], None)
      case Some(inc) => IncidentSpec(w, inc)
    }

    /** `push` once the message parsed: prepare the case, add the raw events. */
    function IncidentSpec(w: World, inc: ValidIncident): PushResult
    {
      match PrepareCase(inc)
      case None => PushResult(Aborted, w, [], None)
      case Some(prepared) =>
        var (raw, lookups1) := LoadRawSpec(w.lookups, inc);
        CreateSpec(World(w.calls, lookups1), inc, prepared.(customFields := WithRaw(prepared.customFields, raw)))
    }

    /** `push` from the case creation on. */
    function CreateSpec(w: World, inc: Incident, c: Case): PushResult
    {
      var (created, calls1) := Retry(api.respond, w.calls, CreateCase(c), CreateCaseTries);
      if !created.Ok? then PushResult(Aborted, World(calls1, w.lookups), [], None)
      else AfterCreateSpec(World(calls1, w.lookups), inc, c.(id := Some(created.id)))
    }

    /** `push` once the case exists (`c.id` is set): load the events. */
    function AfterCreateSpec(w: World, inc: Incident, c: Case): PushResult
      requires c.id.Some?
    {
      var (events, lookups2) := LoadNormalizedSpec(w.lookups, inc);
      AlertsSpec(World(w.calls, lookups2), events, c)
    }

    /** `push` from the alert loop on: the alerts, the conditional merge and
        the final tag. */
    function AlertsSpec(w: World, events: seq<ValidSocEvent>, c: Case): PushResult
      requires c.id.Some?
    {
      var loop := AlertLoopSpec(w, events, []);
      if !loop.ok then PushResult(Aborted, loop.world, loop.alertIds, c.id)
      else MergeAndTagSpec(loop.world, loop.alertIds, c)
    }

    /** `push` after the alert loop: merge the alerts `ids` (if any) into the
        case, then set the final tag. */
    function MergeAndTagSpec(w: World, ids: seq<string>, c: Case): PushResult
      requires c.id.Some?
    {
      var (merged, calls3) := MergeSpec(w.calls, c.id.value, ids);
      if !merged then PushResult(Aborted, World(calls3, w.lookups), ids, c.id)
      else
        var (tagged, calls4, _) := FinalTagSpec(api.respond, calls3, c, FinalTagTries);
        PushResult(if tagged.Ok? then Completed else Aborted, World(calls4, w.lookups), ids, c.id)
    }

    /** One event of the alert loop: an alert that cannot be prepared stops
        the loop before anything is sent; otherwise the alert is sent with at
        most five attempts; the id of a created alert is kept; a 400 that
        outlasts all five attempts skips just this event; any other failure
        stops the loop. Only alert creations are sent. */
    lemma AlertAttemptOutcome(w: World, e: ValidSocEvent)
      ensures var (alert, lookups') := PrepareAlertSpec(w.lookups, e);
        var (sent, w') := AlertAttempt(w, e);
        && w'.lookups == lookups'
        && (alert.None? ==> sent == Stopped && w'.calls == w.calls)
        && (alert.Some? ==>
              var (r, calls') := Retry(api.respond, w.calls, CreateAlert(alert.value), SendAlertTries);
              && w'.calls == calls'
              && 1 <= |calls'| - |w.calls| <= SendAlertTries
              && (sent.Created? <==> r.Ok?)
              && (sent.Created? ==> sent.id == r.id)
              && (sent == Skipped <==> r == HttpErr(400))
              && (sent == Skipped ==> |calls'| - |w.calls| == SendAlertTries))
    {
      var (alert, lookups') := PrepareAlertSpec(w.lookups, e);
      if alert.Some? {
        RetryCalls(api.respond, w.calls, CreateAlert(alert.value), SendAlertTries);
      }
    }

    /** One event of the alert loop sends only alert creations. */
    lemma AlertAttemptCalls(w: World, e: ValidSocEvent)
      ensures var (sent, w') := AlertAttempt(w, e);
        IsPrefix(w.calls, w'.calls) && OnlyAlerts(w'.calls[|w.calls|..])
    {
      var (alert, _) := PrepareAlertSpec(w.lookups, e);
      if alert.Some? {
        RetryCalls(api.respond, w.calls, CreateAlert(alert.value), SendAlertTries);
      }
    }

    /** The alert loop only creates alerts, and collects ids in event order:
        the ids it started with, then at most one per event. */
    lemma {:induction false} AlertLoopCalls(w: World, events: seq<ValidSocEvent>, ids: seq<string>)
      ensures var r := AlertLoopSpec(w, events, ids);
        && IsPrefix(w.calls, r.world.calls)
        && OnlyAlerts(r.world.calls[|w.calls|..])
        && IsPrefix(ids, r.alertIds)
        && |r.alertIds| <= |ids| + |events|
      decreases |events|
    {
      if events != [] {
        AlertAttemptCalls(w, events[0]);
        var (sent, w') := AlertAttempt(w, events[0]);
        if !sent.Stopped? {
          var ids' := if sent.Created? then ids + [sent.id] else ids;
          assert IsPrefix(ids, ids');
          AlertLoopCalls(w', events[1..], ids');
          var r := AlertLoopSpec(w', events[1..], ids');
          assert r == AlertLoopSpec(w, events, ids);
          OnlyAlertsChain(w.calls, w'.calls, r.world.calls);
        }
      }
    }

    /** The shape of the attempts: at most one per event, at least one when
        there is an event, and only the last can stop the loop, which it does
        when some event was left unattempted. */
    lemma {:induction false} AttemptsShape(w: World, events: seq<ValidSocEvent>)
      ensures var a := Attempts(w, events);
        && |a| <= |events|
        && (events != [] ==> |a| > 0)
        && (forall i :: 0 <= i < |a| - 1 ==> !a[i].Stopped?)
        && (|a| < |events| ==> a[|a| - 1].Stopped?)
      decreases |events|
    {
      if events != [] {
        var (sent, w') := AlertAttempt(w, events[0]);
        if !sent.Stopped? {
          AttemptsShape(w', events[1..]);
          var a' := Attempts(w', events[1..]);
          assert Attempts(w, events) == [sent] + a';
        }
      }
    }

    /** One step of the alert loop and of its attempts, for an event that
        does not stop the loop. */
    lemma LoopStep(w: World, events: seq<ValidSocEvent>, ids: seq<string>)
      requires events != [] && !AlertAttempt(w, events[0]).0.Stopped?
      ensures var (sent, w') := AlertAttempt(w, events[0]);
        && Attempts(w, events) == [sent] + Attempts(w', events[1..])
        && AlertLoopSpec(w, events, ids)
           == AlertLoopSpec(w', events[1..], if sent.Created? then ids + [sent.id] else ids)
    {
    }

    /** The alert loop completes exactly when every event was attempted and
        the last attempt did not stop it. */
    lemma {:induction false} AlertLoopCompletes(w: World, events: seq<ValidSocEvent>, ids: seq<string>)
      ensures var a := Attempts(w, events);
        AlertLoopSpec(w, events, ids).ok <==> |a| == |events| && (a == [] || !a[|a| - 1].Stopped?)
      decreases |events|
    {
      if events != [] {
        var (sent, w') := AlertAttempt(w, events[0]);
        if !sent.Stopped? {
          LoopStep(w, events, ids);
          AlertLoopCompletes(w', events[1..], if sent.Created? then ids + [sent.id] else ids);
        }
      }
    }

    /** The alert loop adds the ids of the created alerts, in order. */
    lemma {:induction false} AlertLoopIds(w: World, events: seq<ValidSocEvent>, ids: seq<string>)
      ensures AlertLoopSpec(w, events, ids).alertIds == ids + CreatedIds(Attempts(w, events))
      decreases |events|
    {
      if events == [] {
        assert ids + [] == ids;
      } else {
        var (sent, w') := AlertAttempt(w, events[0]);
        if sent.Stopped? {
          CreatedIdsCons(sent, [], ids);
        } else {
          LoopStep(w, events, ids);
          AlertLoopIds(w', events[1..], if sent.Created? then ids + [sent.id] else ids);
          CreatedIdsCons(sent, Attempts(w', events[1..]), ids);
        }
      }
    }

    /** The alert loop against its attempts: it attempts the events in
        order until one stops it, so a skipped event (a 400) goes on with the
        next one; it completes exactly when no attempt stopped it; and it
        collects the ids of the created alerts, in event order. */
    lemma AlertLoopOutcomes(w: World, events: seq<ValidSocEvent>, ids: seq<string>)
      ensures var r, a := AlertLoopSpec(w, events, ids), Attempts(w, events);
        && |a| <= |events|
        && (forall i :: 0 <= i < |a| - 1 ==> !a[i].Stopped?)
        && (forall i :: 0 <= i < |a| && !a[i].Stopped? && i + 1 < |events| ==> i + 1 < |a|)
        && (|a| < |events| ==> |a| > 0 && a[|a| - 1].Stopped?)
        && (r.ok <==> |a| == |events| && forall i :: 0 <= i < |a| ==> !a[i].Stopped?)
        && r.alertIds == ids + CreatedIds(a)
    {
      AttemptsShape(w, events);
      AlertLoopCompletes(w, events, ids);
      AlertLoopIds(w, events, ids);
    }

    /** Three events, the second answered with a 400 on all five attempts:
        the loop completes with the ids of the first and the third alert. */
    lemma SkipMiddleEvent(w: World, e1: ValidSocEvent, e2: ValidSocEvent, e3: ValidSocEvent,
                          w1: World, id1: string, id3: string)
      requires AlertAttempt(w, e1) == (Created(id1), w1)
      requires PrepareAlertSpec(w1.lookups, e2).0.Some?
      requires Retry(api.respond, w1.calls, CreateAlert(PrepareAlertSpec(w1.lookups, e2).0.value), SendAlertTries).0
               == HttpErr(400)
      requires AlertAttempt(AlertAttempt(w1, e2).1, e3).0 == Created(id3)
      ensures AlertLoopSpec(w, [e1, e2, e3], []).ok
      ensures AlertLoopSpec(w, [e1, e2, e3], []).alertIds == [id1, id3]
    {
      AlertAttemptOutcome(w1, e2);
      var w2 := AlertAttempt(w1, e2).1;
      var w3 := AlertAttempt(w2, e3).1;
      assert AlertAttempt(w1, e2).0 == Skipped;
      assert [e1, e2, e3][1..] == [e2, e3] && [e2, e3][1..] == [e3] && [e3][1..] == [];
      assert [] + [id1] == [id1] && [id1] + [id3] == [id1, id3];
      calc {
        AlertLoopSpec(w, [e1, e2, e3], []);
        AlertLoopSpec(w1, [e2, e3], [id1]);
        AlertLoopSpec(w2, [e3], [id1]);
        AlertLoopSpec(w3, [], [id1, id3]);
      }
    }

    /** The same three events after the case was created: the run keeps the
        ids of the first and the third alert, and if it completes it merged
        exactly those two into the case. */
    lemma SkipMiddleEventMerged(w: World, e1: ValidSocEvent, e2: ValidSocEvent, e3: ValidSocEvent,
                                w1: World, id1: string, id3: string, c: Case)
      requires c.id.Some?
      requires AlertAttempt(w, e1) == (Created(id1), w1)
      requires PrepareAlertSpec(w1.lookups, e2).0.Some?
      requires Retry(api.respond, w1.calls, CreateAlert(PrepareAlertSpec(w1.lookups, e2).0.value), SendAlertTries).0
               == HttpErr(400)
      requires AlertAttempt(AlertAttempt(w1, e2).1, e3).0 == Created(id3)
      ensures var r := AlertsSpec(w, [e1, e2, e3], c);
        && r.alertIds == [id1, id3]
        && IsPrefix(w.calls, r.world.calls)
        && (r.outcome == Completed ==> MergeAlerts(c.id.value, [id1, id3]) in r.world.calls[|w.calls|..])
    {
      SkipMiddleEvent(w, e1, e2, e3, w1, id1, id3);
      AlertsCalls(w, [e1, e2, e3], c);
    }

    /** The conditional merge: no call for no ids; otherwise only merge calls
        of exactly these ids, at least one. */
    lemma MergeCalls(calls: seq<Call>, caseId: string, ids: seq<string>)
      ensures var (_, calls') := MergeSpec(calls, caseId, ids);
        && IsPrefix(calls, calls')
        && NoCaseCreation(calls'[|calls|..])
        && (ids == [] ==> calls' == calls)
        && (ids != [] ==> |calls'| > |calls| && calls'[|calls|] == MergeAlerts(caseId, ids))
    {
      if ids != [] {
        var merge := MergeAlerts(caseId, ids);
        RetryCalls(api.respond, calls, merge, MergeTries);
        var (_, calls') := Retry(api.respond, calls, merge, MergeTries);
        assert calls'[|calls|] == calls'[|calls|..][0];
      }
    }

    /** From the alert loop on, no case is created and the run, if it
        completes, is merged and tagged. */
    lemma AlertsCalls(w: World, events: seq<ValidSocEvent>, c: Case)
      requires c.id.Some?
      ensures var r := AlertsSpec(w, events, c);
        && IsPrefix(w.calls, r.world.calls)
        && NoCaseCreation(r.world.calls[|w.calls|..])
        && MergedAndTagged(w.calls, r)
    {
      AlertLoopCalls(w, events, []);
      var loop := AlertLoopSpec(w, events, []);
      OnlyAlertsNeither(loop.world.calls[|w.calls|..]);
      if loop.ok {
        MergeAndTagCalls(w.calls, loop.world, loop.alertIds, c);
      }
    }

    /** From the alert loop on, the result keeps the case's id and the ids
        of the created alerts in event order; it completes only when every
        event was attempted and none stopped the loop, and a loop that was
        stopped aborts the run with nothing sent after its alerts. */
    lemma AlertsOutcome(w: World, events: seq<ValidSocEvent>, c: Case)
      requires c.id.Some?
      ensures var r, a := AlertsSpec(w, events, c), Attempts(w, events);
        && r.caseId == c.id
        && r.alertIds == CreatedIds(a)
        && IsPrefix(w.calls, r.world.calls)
        && (r.outcome == Completed ==> |a| == |events| && forall i :: 0 <= i < |a| ==> !a[i].Stopped?)
        && (!(|a| == |events| && forall i :: 0 <= i < |a| ==> !a[i].Stopped?) ==>
              r.outcome == Aborted && OnlyAlerts(r.world.calls[|w.calls|..]))
    {
      AlertLoopOutcomes(w, events, []);
      AlertsCalls(w, events, c);
      AlertLoopCalls(w, events, []);
      assert [] + CreatedIds(Attempts(w, events)) == CreatedIds(Attempts(w, events));
    }

    /** After a loop that sent neither a case nor a merge (since `before`),
        merging and tagging keep it so for cases and complete a merged and
        tagged run. */
    lemma MergeAndTagCalls(before: seq<Call>, w: World, ids: seq<string>, c: Case)
      requires c.id.Some?
      requires IsPrefix(before, w.calls)
      requires NoCaseCreation(w.calls[|before|..]) && NoMerge(w.calls[|before|..])
      ensures var r := MergeAndTagSpec(w, ids, c);
        && IsPrefix(before, r.world.calls)
        && NoCaseCreation(r.world.calls[|before|..])
        && MergedAndTagged(before, r)
    {
      MergeCalls(w.calls, c.id.value, ids);
      var (merged, calls3) := MergeSpec(w.calls, c.id.value, ids);
      NoCaseCreationChain(before, w.calls, calls3);
      if merged {
        TagAfterMerge(before, w, ids, c, calls3);
      }
    }

    /** The final tag after a successful merge that left the history
        `calls3`. */
    lemma TagAfterMerge(before: seq<Call>, w: World, ids: seq<string>, c: Case, calls3: seq<Call>)
      requires c.id.Some?
      requires IsPrefix(before, w.calls) && IsPrefix(w.calls, calls3)
      requires NoMerge(w.calls[|before|..]) && NoCaseCreation(calls3[|before|..])
      requires ids == [] ==> calls3 == w.calls
      requires ids != [] ==> |calls3| > |w.calls| && calls3[|w.calls|] == MergeAlerts(c.id.value, ids)
      ensures var (tagged, calls4, _) := FinalTagSpec(api.respond, calls3, c, FinalTagTries);
        var r := PushResult(if tagged.Ok? then Completed else Aborted, World(calls4, w.lookups), ids, c.id);
        && IsPrefix(before, calls4)
        && NoCaseCreation(calls4[|before|..])
        && MergedAndTagged(before, r)
    {
      FinalTagCalls(api.respond, calls3, c);
      var (tagged, calls4, _) := FinalTagSpec(api.respond, calls3, c, FinalTagTries);
      NoCaseCreationChain(before, calls3, calls4);
      if tagged.Ok? {
        TaggedRun(before, w.calls, calls3, calls4, w.lookups, c, ids);
      }
    }

    /** The merge-and-tag part of `AlertsCalls`, over the call histories
        after the loop (`b`), after the merge (`m`) and after the tag (`t`). */
    lemma TaggedRun(a: seq<Call>, b: seq<Call>, m: seq<Call>, t: seq<Call>, lookups: seq<Lookup>, c: Case, ids: seq<string>)
      requires c.id.Some?
      requires IsPrefix(a, b) && IsPrefix(b, m) && IsPrefix(m, t) && |t| > |m|
      requires NoMerge(b[|a|..]) && NoMerge(t[|m|..])
      requires ids == [] ==> m == b
      requires ids != [] ==> |m| > |b| && m[|b|] == MergeAlerts(c.id.value, ids)
      requires t[|t| - 1] == UpdateCase(c.(tags := c.tags + Repeat(FinalTag, |t| - |m|)), ["tags"])
      ensures MergedAndTagged(a, PushResult(Completed, World(t, lookups), ids, c.id))
    {
      if ids == [] {
        NoMergeAdded(a, b, t);
      } else {
        MergeAdded(a, b, m, t, MergeAlerts(c.id.value, ids));
      }
      LastTagIsFinal(c, |t| - |m|);
    }

    /** From the case creation on: the case is created first, with at most ten
        attempts, and nothing else creates a case; a completed run is merged
        and tagged. */
    lemma CreateCalls(w: World, inc: Incident, c: Case)
      ensures var r := CreateSpec(w, inc, c);
        && |r.world.calls| > |w.calls|
        && r.world.calls[|w.calls|] == CreateCase(c)
        && CreationsFirst(w.calls, r.world.calls)
        && MergedAndTagged(w.calls, r)
    {
      RetryCalls(api.respond, w.calls, CreateCase(c), CreateCaseTries);
      var (created, calls1) := Retry(api.respond, w.calls, CreateCase(c), CreateCaseTries);
      var r := CreateSpec(w, inc, c);
      if created.Ok? {
        var c' := c.(id := Some(created.id));
        var (events, lookups2) := LoadNormalizedSpec(w.lookups, inc);
        AlertsCalls(World(calls1, lookups2), events, c');
        assert r == AlertsSpec(World(calls1, lookups2), events, c');
        MergedAndTaggedExtend(w.calls, calls1, r);
      } else {
        assert r.world.calls[|calls1|..] == [];
      }
      CreationsThenOthers(w.calls, calls1, r.world.calls);
      assert r.world.calls[|w.calls|] == calls1[|w.calls|..][0];
    }

    /** The case creation decides the rest: when all ten attempts fail the
        run aborts with no case, no alert and nothing sent but the attempts
        to create the case; otherwise the run keeps the id the creation
        answered with, and the ids of the alerts the loop created over the
        normalized events. */
    lemma CreateOutcome(w: World, inc: Incident, c: Case)
      ensures var (created, calls1) := Retry(api.respond, w.calls, CreateCase(c), CreateCaseTries);
        var r := CreateSpec(w, inc, c);
        && (r.caseId.Some? <==> created.Ok?)
        && (!created.Ok? ==>
              && r.outcome == Aborted && r.alertIds == [] && r.world.lookups == w.lookups
              && |r.world.calls| == |w.calls| + CreateCaseTries
              && forall i :: |w.calls| <= i < |r.world.calls| ==> r.world.calls[i] == CreateCase(c))
        && (created.Ok? ==>
              && r.caseId == Some(created.id)
              && var (events, lookups2) := LoadNormalizedSpec(w.lookups, inc);
              r.alertIds == CreatedIds(Attempts(World(calls1, lookups2), events)))
    {
      RetryCalls(api.respond, w.calls, CreateCase(c), CreateCaseTries);
      var (created, calls1) := Retry(api.respond, w.calls, CreateCase(c), CreateCaseTries);
      if created.Ok? {
        var c' := c.(id := Some(created.id));
        var (events, lookups2) := LoadNormalizedSpec(w.lookups, inc);
        AlertsOutcome(World(calls1, lookups2), events, c');
      } else {
        forall i | |w.calls| <= i < |calls1| ensures calls1[i] == CreateCase(c) {
          assert calls1[i] == calls1[|w.calls|..][i - |w.calls|];
        }
      }
    }

    /** Nothing is sent before the case: a message that does not parse is
        dropped with no call and no lookup, and a case that cannot be prepared
        aborts likewise. Otherwise the first call creates the case, whose
        custom fields gained a text field `raw`, numbered with the count of
        fields before it and holding the raw events joined by `;\n`, and case
        creations precede every other call. */
    lemma PushCreatesCaseFirst<M>(w: World, message: M, parse: M -> Option<ValidIncident>)
      ensures var r := PushSpec(w, message, parse);
        && (r.outcome == Dropped <==> parse(message).None?)
        && (r.outcome == Dropped ==> r.world == w)
        && (parse(message).Some? && PrepareCase(parse(message).value).None? ==>
              r.outcome == Aborted && r.world == w)
      ensures parse(message).Some? && PrepareCase(parse(message).value).Some? ==>
        var r := PushSpec(w, message, parse);
        var prepared := PrepareCase(parse(message).value).value;
        && CreationsFirst(w.calls, r.world.calls)
        && |r.world.calls| > |w.calls|
        && r.world.calls[|w.calls|].CreateCase?
        && var c := r.world.calls[|w.calls|].theCase;
        && c == prepared.(customFields := c.customFields)
        && Get(c.customFields, RawFieldName).Some?
        && Get(c.customFields, RawFieldName).value.kind == StringType
        && Get(c.customFields, RawFieldName).value.order == |prepared.customFields|
        && Get(c.customFields, RawFieldName).value.value
           == Str(Join(LoadRawSpec(w.lookups, parse(message).value).0, RawSeparator))
        && (forall k :: k != RawFieldName ==> Get(c.customFields, k) == Get(prepared.customFields, k))
    {
      if parse(message).Some? && PrepareCase(parse(message).value).Some? {
        var inc := parse(message).value;
        var prepared := PrepareCase(inc).value;
        var (raw, lookups1) := LoadRawSpec(w.lookups, inc);
        var c := prepared.(customFields := WithRaw(prepared.customFields, raw));
        assert PushSpec(w, message, parse) == CreateSpec(World(w.calls, lookups1), inc, c);
        CreateCalls(World(w.calls, lookups1), inc, c);
      }
    }

    /** When all ten attempts to create the case fail, nothing else is sent
        and the run aborts without a case and without alerts. */
    lemma PushCreateFails<M>(w: World, message: M, parse: M -> Option<ValidIncident>)
      ensures parse(message).Some? && PrepareCase(parse(message).value).Some? ==>
        var inc := parse(message).value;
        var prepared := PrepareCase(inc).value;
        var (raw, lookups1) := LoadRawSpec(w.lookups, inc);
        var c := prepared.(customFields := WithRaw(prepared.customFields, raw));
        var (created, calls1) := Retry(api.respond, w.calls, CreateCase(c), CreateCaseTries);
        var r := PushSpec(w, message, parse);
        !created.Ok? ==>
          && r.outcome == Aborted && r.caseId.None? && r.alertIds == []
          && |r.world.calls| == |w.calls| + CreateCaseTries
          && forall i :: |w.calls| <= i < |r.world.calls| ==> r.world.calls[i] == CreateCase(c)
    {
      if parse(message).Some? && PrepareCase(parse(message).value).Some? {
        var inc := parse(message).value;
        var prepared := PrepareCase(inc).value;
        var (raw, lookups1) := LoadRawSpec(w.lookups, inc);
        var c := prepared.(customFields := WithRaw(prepared.customFields, raw));
        assert PushSpec(w, message, parse) == CreateSpec(World(w.calls, lookups1), inc, c);
        CreateOutcome(World(w.calls, lookups1), inc, c);
      }
    }

    /** A completed `push` merged exactly when it created alerts, with exactly
        their ids, into the case it created, and its last call sent the case's
        tags ending in `FINAL`. Once the case is created, the run keeps the id
        the creation answered with and the ids of the alerts the loop created
        over the normalized events, in event order. */
    lemma PushMergesAndTags<M>(w: World, message: M, parse: M -> Option<ValidIncident>)
      ensures MergedAndTagged(w.calls, PushSpec(w, message, parse))
      ensures parse(message).Some? && PrepareCase(parse(message).value).Some? ==>
        var inc := parse(message).value;
        var prepared := PrepareCase(inc).value;
        var (raw, lookups1) := LoadRawSpec(w.lookups, inc);
        var c := prepared.(customFields := WithRaw(prepared.customFields, raw));
        var (created, calls1) := Retry(api.respond, w.calls, CreateCase(c), CreateCaseTries);
        var r := PushSpec(w, message, parse);
        created.Ok? ==>
          && r.caseId == Some(created.id)
          && var (events, lookups2) := LoadNormalizedSpec(lookups1, inc);
          r.alertIds == CreatedIds(Attempts(World(calls1, lookups2), events))
    {
      if parse(message).Some? && PrepareCase(parse(message).value).Some? {
        var inc := parse(message).value;
        var prepared := PrepareCase(inc).value;
        var (raw, lookups1) := LoadRawSpec(w.lookups, inc);
        var c := prepared.(customFields := WithRaw(prepared.customFields, raw));
        CreateCalls(World(w.calls, lookups1), inc, c);
        CreateOutcome(World(w.calls, lookups1), inc, c);
      }
    }

    /** A call under `@retry`: the attempt loop. */
    method CallWithRetry(call: Call, tries: nat) returns (r: Response)
      requires tries >= 1
      modifies api
      ensures (r, api.log) == Retry(api.respond, old(api.log), call, tries)
    {
      var left := tries;
      while true
        invariant 1 <= left <= tries
        invariant Retry(api.respond, api.log, call, left) == Retry(api.respond, old(api.log), call, tries)
        decreases left
      {
        r := api.Send(call);
        if r.Ok? || left == 1 {
          return;
        }
        left := left - 1;
      }
    }

    /** `send_alert`: at most 5 attempts. */
    method SendAlert(alert: Alert) returns (r: Response)
      modifies api
      ensures (r, api.log) == Retry(api.respond, old(api.log), CreateAlert(alert), SendAlertTries)
    {
      r := CallWithRetry(CreateAlert(alert), SendAlertTries);
    }

    /** `create_case`: at most 10 attempts. */
    method CreateCaseCall(c: Case) returns (r: Response)
      modifies api
      ensures (r, api.log) == Retry(api.respond, old(api.log), CreateCase(c), CreateCaseTries)
    {
      r := CallWithRetry(CreateCase(c), CreateCaseTries);
    }

    /** `merge_alerts_in_case`: at most 5 attempts. */
    method MergeAlertsInCase(caseId: string, ids: seq<string>) returns (r: Response)
      modifies api
      ensures (r, api.log) == Retry(api.respond, old(api.log), MergeAlerts(caseId, ids), MergeTries)
    {
      r := CallWithRetry(MergeAlerts(caseId, ids), MergeTries);
    }

    /** `set_final_tag`: at most 5 attempts, each appending `FINAL` first. */
    method SetFinalTag(c: Case) returns (r: Response, tagged: Case)
      modifies api
      ensures (r, api.log, tagged) == FinalTagSpec(api.respond, old(api.log), c, FinalTagTries)
    {
      tagged := c;
      var left := FinalTagTries;
      while true
        invariant 1 <= left <= FinalTagTries
        invariant FinalTagSpec(api.respond, api.log, tagged, left) == FinalTagSpec(api.respond, old(api.log), c, FinalTagTries)
        decreases left
      {
        tagged := Tagged(tagged);
        r := api.Send(UpdateCase(tagged, ["tags"]));
        if r.Ok? || left == 1 {
          return;
        }
        left := left - 1;
      }
    }

    /** `load_raw_events`. */
    method LoadRawEvents(inc: Incident) returns (raw: seq<string>)
      modifies loader.pool
      ensures (raw, loader.pool.log) == LoadRawSpec(old(loader.pool.log), inc)
    {
      var r := loader.GetRawEvents(inc.correlationEvent.rawIds);
      raw := if r.Done? then r.value else [];
    }

    /** `load_normalized_events`. */
    method LoadNormalizedEvents(inc: Incident) returns (events: seq<ValidSocEvent>)
      modifies loader.pool
      ensures (events, loader.pool.log) == LoadNormalizedSpec(old(loader.pool.log), inc)
    {
      var r := loader.GetNormalizedEvents(inc.correlationEvent.eventIds);
      events := if r.Done? then r.value else [];
    }

    /** `_prepare_alert_from_event`. */
    method PrepareAlertFromEvent(e: ValidSocEvent) returns (alert: Option<Alert>)
      modifies loader.pool
      ensures (alert, loader.pool.log) == PrepareAlertSpec(old(loader.pool.log), e)
    {
      alert := PrepareAlert(e);
      if alert.None? {
        return;
      }
      var raw := loader.GetRawEvents(e.rawIds);
      if raw.Done? {
        var a := alert.value;
        alert := Some(a.(customFields := WithRaw(a.customFields, raw.value)));
      }
    }

    /** The alert loop of `push`: 400 skips one event, any other failure
        escapes. */
    method SendAlerts(events: seq<ValidSocEvent>) returns (ok: bool, alertIds: seq<string>)
      modifies api, loader.pool
      ensures LoopResult(ok, World(api.log, loader.pool.log), alertIds)
           == AlertLoopSpec(World(old(api.log), old(loader.pool.log)), events, [])
    {
      alertIds := [];
      var i := 0;
      while i < |events|
        invariant 0 <= i <= |events|
        invariant AlertLoopSpec(World(api.log, loader.pool.log), events[i..], alertIds)
               == AlertLoopSpec(World(old(api.log), old(loader.pool.log)), events, [])
      {
        assert events[i..][1..] == events[i + 1..];
        var alert := PrepareAlertFromEvent(events[i]);
        if alert.None? {
          return false, alertIds;
        }
        var sent := SendAlert(alert.value);
        if sent.Ok? {
          alertIds := alertIds + [sent.id];
        } else if !(sent.HttpErr? && sent.status == 400) {
          return false, alertIds;
        }
        i := i + 1;
      }
      ok := true;
    }

    /** `push` from the loading of the normalized events on. */
    method AfterCreate(inc: Incident, hiveCase: Case) returns (outcome: PushOutcome, alertIds: seq<string>)
      requires hiveCase.id.Some?
      modifies api, loader.pool
      ensures PushResult(outcome, World(api.log, loader.pool.log), alertIds, hiveCase.id)
           == AfterCreateSpec(World(old(api.log), old(loader.pool.log)), inc, hiveCase)
    {
      var events := LoadNormalizedEvents(inc);
      var ok;
      ok, alertIds := SendAlerts(events);
      if !ok {
        return Aborted, alertIds;
      }
      if alertIds != [] {
        var merged := MergeAlertsInCase(hiveCase.id.value, alertIds);
        if !merged.Ok? {
          return Aborted, alertIds;
        }
      }
      var tagged, finalCase := SetFinalTag(hiveCase);
      outcome := if tagged.Ok? then Completed else Aborted;
    }

    /** `push`. */
    method Push<M>(message: M, parse: M -> Option<ValidIncident>) returns (outcome: PushOutcome, alertIds: seq<string>, caseId: Option<string>)
      modifies api, loader.pool
      ensures PushResult(outcome, World(api.log, loader.pool.log), alertIds, caseId)
           == PushSpec(World(old(api.log), old(loader.pool.log)), message, parse)
    {
      alertIds, caseId := [], None;
      var parsed := parse(message);
      if parsed.None? {
        return Dropped, alertIds, caseId;
      }
      var inc := parsed.value;
      var prepared := PrepareCase(inc);
      if prepared.None? {
        return Aborted, alertIds, caseId;
      }
      var hiveCase := prepared.value;
      var raw := LoadRawEvents(inc);
      hiveCase := hiveCase.(customFields := WithRaw(hiveCase.customFields, raw));
      var created := CreateCaseCall(hiveCase);
      if !created.Ok? {
        return Aborted, alertIds, caseId;
      }
      hiveCase := hiveCase.(id := Some(created.id));
      caseId := hiveCase.id;
      outcome, alertIds := AfterCreate(inc, hiveCase);
    }
  }
}
