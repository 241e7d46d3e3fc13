/** Where the messages of the change log come from: which observation made the version that a message is about, in which mode it
    came, and hence whether the message may notify anyone (internal/core/consumer.go, internal/eventstream/contracts.go). */
module NotificationOrigins {
  import opened Wrappers
  import opened Correlation
  import opened IncidentTables
  import opened IncidentHistory
  import opened Contracts
  import opened CoreMessaging
  import opened OutboxRelay
  import opened ConsumerGroups
  import opened Pipelines
  import opened PipelineTheorems

  /** The message processed as the k-th made the version. */
  ghost predicate Makes(geo: Geography, inbox: seq<InboxRow>, k: int, id: ChangeId) {
    && 0 <= k < |inbox|
    && Versioned(Run(geo, EMPTY, Inputs(inbox[..k + 1])), id) && !Versioned(Run(geo, EMPTY, Inputs(inbox[..k])), id)
  }

  /** The log holds a message of this mode at the position. */
  predicate CameAs(g: Group<ProviderRecord>, position: Position, mode: string, baselineComplete: bool) {
    && 0 <= position.partition && 0 <= position.offset < |g.Log(position.partition)|
    && var message := g.Log(position.partition)[position.offset].message;
       message.mode == mode && message.baselineComplete == baselineComplete
  }

  /** The message has the mode of the observation that made its version, and is eligible exactly if that is realtime, after a
      complete baseline. */
  ghost predicate HasOrigin(geo: Geography, inbox: seq<InboxRow>, g: Group<ProviderRecord>, id: ChangeId, message: IncidentChanged) {
    && (exists k :: IsOrigin(geo, inbox, g, id, message, k))
    && (message.notificationsEligible <==> message.mode == "realtime" && message.baselineComplete)
  }

  ghost predicate IsOrigin(geo: Geography, inbox: seq<InboxRow>, g: Group<ProviderRecord>, id: ChangeId, message: IncidentChanged,
                           k: int)
  {
    Makes(geo, inbox, k, id) && CameAs(g, inbox[k].position, message.mode, message.baselineComplete)
  }

  ghost predicate OriginsAreKept(geo: Geography, p: Pipeline) {
    forall id <- p.relays.rows :: HasOrigin(geo, p.inbox, p.observations, id, p.relays.rows[id].message)
  }

  ghost predicate LogsGrow(g: Group<ProviderRecord>, next: Group<ProviderRecord>) {
    forall partition :: g.Log(partition) <= next.Log(partition)
  }

  // ----- Steps beside the core's -----

  ghost predicate KeepsInputs(p: Pipeline, next: Pipeline) {
    next.inbox == p.inbox && SameMessages(p.relays.rows, next.relays.rows) && LogsGrow(p.observations, next.observations)
  }

  lemma OriginSurvives(geo: Geography, inbox: seq<InboxRow>, g: Group<ProviderRecord>, next: Group<ProviderRecord>, id: ChangeId,
                       message: IncidentChanged)
    requires HasOrigin(geo, inbox, g, id, message) && LogsGrow(g, next)
    ensures HasOrigin(geo, inbox, next, id, message)
  {
    var k :| IsOrigin(geo, inbox, g, id, message, k);
    assert g.Log(inbox[k].position.partition) <= next.Log(inbox[k].position.partition);
    assert IsOrigin(geo, inbox, next, id, message, k);
  }

  lemma KeptInputsKeepOrigins(geo: Geography, p: Pipeline, next: Pipeline)
    requires OriginsAreKept(geo, p) && KeepsInputs(p, next)
    ensures OriginsAreKept(geo, next)
  {
    forall id | id in next.relays.rows ensures HasOrigin(geo, next.inbox, next.observations, id, next.relays.rows[id].message) {
      assert RecordOf(next.relays.rows[id]) == RecordOf(p.relays.rows[id]);
      OriginSurvives(geo, p.inbox, p.observations, next.observations, id, p.relays.rows[id].message);
    }
  }

  lemma OthersKeepInputs(setting: Setting, p: Pipeline, event: Event)
    requires !event.ConsumeObservation?
    ensures KeepsInputs(p, Next(setting, p, event))
  {
    match event
    case Relay(action) =>
      if OwnStep(action) {
        OwnStepKeepsMessages(setting.lockTimeout, p.relays, action);
      }
    case Publish(worker, id, _, _) => OwnStepKeepsMessages(setting.lockTimeout, p.relays, Acknowledge(worker, id));
    case _ =>
  }

  // ----- The core's step -----

  lemma OriginStays(geo: Geography, inbox: seq<InboxRow>, row: InboxRow, g: Group<ProviderRecord>, id: ChangeId, message: IncidentChanged)
    requires HasOrigin(geo, inbox, g, id, message)
    ensures HasOrigin(geo, inbox + [row], g, id, message)
  {
    var k :| IsOrigin(geo, inbox, g, id, message, k);
    assert (inbox + [row])[..k] == inbox[..k] && (inbox + [row])[..k + 1] == inbox[..k + 1];
    assert IsOrigin(geo, inbox + [row], g, id, message, k);
  }

  lemma NewestIsOrigin(geo: Geography, inbox: seq<InboxRow>, row: InboxRow, g: Group<ProviderRecord>, id: ChangeId,
                       message: IncidentChanged)
    requires !Versioned(Run(geo, EMPTY, Inputs(inbox)), id) && Versioned(Run(geo, EMPTY, Inputs(inbox + [row])), id)
    requires CameAs(g, row.position, message.mode, message.baselineComplete)
    requires message.notificationsEligible <==> message.mode == "realtime" && message.baselineComplete
    ensures HasOrigin(geo, inbox + [row], g, id, message)
  {
    assert (inbox + [row])[..|inbox|] == inbox && (inbox + [row])[..|inbox| + 1] == inbox + [row];
    assert IsOrigin(geo, inbox + [row], g, id, message, |inbox|);
  }

  lemma PublishedCarriesMode(outbox: Outbox, change: Change, mode: string, baselineComplete: bool, now: int, id: ChangeId)
    requires id !in outbox && id in Publishable(outbox, change, mode, baselineComplete, now)
    ensures var message := Publishable(outbox, change, mode, baselineComplete, now)[id].message;
            && message.mode == mode && message.baselineComplete == baselineComplete
            && (message.notificationsEligible <==> mode == "realtime" && baselineComplete)
  {
  }

  /** What the core's transaction makes of the state, as far as origins go. */
  ghost predicate Processes(geo: Geography, core: Core, next: Core, row: InboxRow, message: ProviderObservation, change: Change, now: int) {
    && OutboxIsComplete(core) && OutboxIsComplete(next) && IsFold(geo, core) && IsFold(geo, next)
    && next.inbox == core.inbox + [row]
    && next.outbox == Publishable(core.outbox, change, message.mode, message.baselineComplete, now)
  }

  lemma NewRowHasOrigin(geo: Geography, core: Core, next: Core, g: Group<ProviderRecord>, row: InboxRow,
                        message: ProviderObservation, change: Change, now: int, id: ChangeId)
    requires Processes(geo, core, next, row, message, change, now) && id in next.outbox && id !in core.outbox
    requires CameAs(g, row.position, message.mode, message.baselineComplete)
    ensures HasOrigin(geo, next.inbox, g, id, next.outbox[id].message)
  {
    PublishedCarriesMode(core.outbox, change, message.mode, message.baselineComplete, now, id);
    assert Versioned(next.tables, id) && !Versioned(core.tables, id);
    NewestIsOrigin(geo, core.inbox, row, g, id, next.outbox[id].message);
  }

  lemma ProcessedKeepsOrigins(geo: Geography, core: Core, next: Core, g: Group<ProviderRecord>, row: InboxRow,
                              message: ProviderObservation, change: Change, now: int)
    requires Processes(geo, core, next, row, message, change, now)
    requires forall id <- core.outbox :: HasOrigin(geo, core.inbox, g, id, core.outbox[id].message)
    requires CameAs(g, row.position, message.mode, message.baselineComplete)
    ensures forall id <- next.outbox :: HasOrigin(geo, next.inbox, g, id, next.outbox[id].message)
  {
    PublishableGrows(core.outbox, change, message.mode, message.baselineComplete, now);
    forall id | id in next.outbox ensures HasOrigin(geo, next.inbox, g, id, next.outbox[id].message) {
      if id in core.outbox {
        OriginStays(geo, core.inbox, row, g, id, core.outbox[id].message);
      } else {
        NewRowHasOrigin(geo, core, next, g, row, message, change, now, id);
      }
    }
  }

  /** What the core wrote for a message. */
  datatype Written = Written(row: InboxRow, message: ProviderObservation, change: Change)

  ghost predicate Writes(p: Pipeline, next: Pipeline, w: Written, now: int) {
    && next.inbox == p.inbox + [w.row]
    && next.relays.rows == Publishable(p.relays.rows, w.change, w.message.mode, w.message.baselineComplete, now)
    && CameAs(p.observations, w.row.position, w.message.mode, w.message.baselineComplete)
  }

  /** What consuming does: the core's transaction, or nothing to inbox and outbox. */
  lemma ConsumeCases(setting: Setting, p: Pipeline, session: nat, minted: Uuid, now: int) returns (written: Option<Written>)
    requires CoreSide(setting, p)
    ensures var next := Consume(setting, p, session, minted, now);
            && LogsGrow(p.observations, next.observations)
            && (if written.Some? then Writes(p, next, written.value, now)
                else next.inbox == p.inbox && next.relays.rows == p.relays.rows)
  {
    written := None;
    if p.observations.CanApply(session) && now != 0 && Consumable(p.observations.Current(session)) {
      var message := p.observations.Current(session).message;
      var position := ObservationPosition(p.observations.sessions[session]);
      var applied := ApplyProviderMessage(setting.geo, CoreOf(p), position, message, minted, now);
      if applied.Success? {
        ApplyProviderMessageCases(setting.geo, CoreOf(p), position, message, minted, now);
        if applied.value.1 {
          var row := InboxRow(message.id.value, position, Input(message.observation, minted, now));
          written := Some(Written(row, message, ApplyEvent(setting.geo, p.tables, row.input).value.change));
        }
      }
    }
  }

  lemma WritingKeepsOrigins(geo: Geography, p: Pipeline, next: Pipeline, w: Written, now: int)
    requires OriginsAreKept(geo, p) && CoreInvariant(geo, CoreOf(p)) && CoreInvariant(geo, CoreOf(next))
    requires Writes(p, next, w, now) && LogsGrow(p.observations, next.observations)
    ensures OriginsAreKept(geo, next)
  {
    ProcessedKeepsOrigins(geo, CoreOf(p), CoreOf(next), p.observations, w.row, w.message, w.change, now);
    forall id | id in next.relays.rows ensures HasOrigin(geo, next.inbox, next.observations, id, next.relays.rows[id].message) {
      OriginSurvives(geo, next.inbox, p.observations, next.observations, id, next.relays.rows[id].message);
    }
  }

  lemma ConsumeKeepsOrigins(setting: Setting, p: Pipeline, session: nat, minted: Uuid, now: int)
    requires OriginsAreKept(setting.geo, p) && CoreSide(setting, p)
    ensures OriginsAreKept(setting.geo, Consume(setting, p, session, minted, now))
  {
    var next := Consume(setting, p, session, minted, now);
    var written := ConsumeCases(setting, p, session, minted, now);
    if written.Some? {
      ConsumeKeepsCoreSide(setting, p, session, minted, now);
      WritingKeepsOrigins(setting.geo, p, next, written.value, now);
    } else {
      KeptInputsKeepOrigins(setting.geo, p, next);
    }
  }

  lemma {:induction false} EveryRunKeepsOrigins(setting: Setting, events: seq<Event>)
    ensures OriginsAreKept(setting.geo, Execute(setting, START, events))
  {
    if events != [] {
      var p, event := Execute(setting, START, events[..|events| - 1]), events[|events| - 1];
      EveryRunKeepsOrigins(setting, events[..|events| - 1]);
      if event.ConsumeObservation? {
        EveryRunKeepsInvariant(setting, events[..|events| - 1]);
        ConsumeKeepsOrigins(setting, p, event.session, event.minted, event.now);
      } else {
        OthersKeepInputs(setting, p, event);
        KeptInputsKeepOrigins(setting.geo, p, Next(setting, p, event));
      }
    }
  }

  /** In every run, a message in the change log may notify if and only if the observation that made its version came in
      realtime, after a complete baseline: nothing that came as baseline, backfill or recovery may. */
  lemma OnlyRealtimeIsEligible(setting: Setting, events: seq<Event>, partition: nat, offset: nat)
    requires offset < |Execute(setting, START, events).changes.Log(partition)|
    ensures var p := Execute(setting, START, events);
            var message := p.changes.Log(partition)[offset].message;
            message.id.Some? && HasOrigin(setting.geo, p.inbox, p.observations, message.id.value, message)
  {
    EveryRunKeepsInvariant(setting, events);
    EveryRunKeepsOrigins(setting, events);
    var p := Execute(setting, START, events);
    assert Carries(p.relays.rows, p.changes.Log(partition)[offset]);
    var id :| id in p.relays.rows.Keys && p.changes.Log(partition)[offset] == RecordOf(p.relays.rows[id]);
    assert WellFormed(id, p.relays.rows[id]);
  }
}
