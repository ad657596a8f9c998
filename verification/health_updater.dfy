/**
 * The leak-event health processor. It correlates point-metadata messages and
 * point-value messages by sensor path, deduplicates values against the last
 * value the downstream sink accepted, and calls the sink: `insert` of a health
 * report when a point starts faulting, `remove` when it clears. The new value
 * is committed only when the sink call succeeds.
 *
 * The processor's behaviour is given first as pure step functions over a
 * `State` (the two caches and the sink's call log); the classes `Sink` and
 * `Updater` then implement it with fields updated in place, and each of their
 * methods is proved to perform exactly the corresponding step.
 */
module HealthUpdater {
  import opened Wrappers
  import opened Text
  import opened Messages

  /** The `source` of every report this service writes; removals are scoped by it. */
  const HealthReportSource: string := "dsx-exchange-consumer"

  const MetadataSuffix: string := "/Metadata"
  const ValueSuffix: string := "/Value"

  datatype Classification = PreventAllocations | SensorCritical | Hardware

  datatype HealthProbeSuccess = HealthProbeSuccess(id: string, target: Option<string>)

  datatype HealthProbeAlert = HealthProbeAlert(
    id: string,
    target: Option<string>,
    message: string,
    tenantMessage: Option<string>,
    classifications: seq<Classification>)

  datatype HealthReport = HealthReport(
    source: string,
    successes: seq<HealthProbeSuccess>,
    alerts: seq<HealthProbeAlert>)

  /** The classifications every leak alert carries. */
  const LeakClassifications: seq<Classification> := [PreventAllocations, SensorCritical, Hardware]

  /** A call made on the downstream sink. */
  datatype SinkCall = Insert(rackId: string, report: HealthReport) | Remove(rackId: string)

  /** A message delivered by the event bus. The value message's timestamp is not modelled. */
  datatype Message =
    | MetadataMessage(topic: string, metadata: LeakMetadata)
    | ValueMessage(topic: string, value: FaultValue)

  /**
   * Whether the sink accepts a call: the answer to the `n`-th call of its log.
   * It stands for the remote API, whose outcome the processor cannot see in advance.
   */
  type Oracle = (nat, SinkCall) -> bool

  /** The processor's observable state: metadata cache, value-state cache and the sink's call log. */
  datatype State = State(
    metadata: map<string, LeakMetadata>,
    values: map<string, FaultValue>,
    log: seq<SinkCall>)

  /**
   * `extract_point_path`: strip `/Metadata` (or else `/Value`) from the end of
   * the topic, then the configured prefix from its start.
   */
  function ExtractPointPath(topic: string, prefix: string): (r: Option<string>)
    ensures r.Some? ==>
      topic == prefix + r.value + MetadataSuffix || topic == prefix + r.value + ValueSuffix
    ensures !EndsWith(topic, MetadataSuffix) && !EndsWith(topic, ValueSuffix) ==> r == None
  {
    var stem := match StripSuffix(topic, MetadataSuffix)
      case Some(s) => Some(s)
      case None => StripSuffix(topic, ValueSuffix);
    match stem
    case None => None
    case Some(s) => StripPrefix(s, prefix)
  }

  /** `build_leak_alert_report`: one alert for the rack, no successes, this service as source. */
  function BuildLeakAlertReport(metadata: LeakMetadata, t: LeakPointType): (r: HealthReport)
    ensures r.source == HealthReportSource && r.successes == [] && |r.alerts| == 1
    ensures r.alerts[0].id == ProbeId(t) && r.alerts[0].target == Some(metadata.rackId)
    ensures r.alerts[0].classifications == LeakClassifications
    ensures r.alerts[0].tenantMessage == None
    ensures r.alerts[0].message == Description(t) + " on rack " + metadata.rackName + " (" + metadata.rackId + ")"
  {
    var message := Description(t) + " on rack " + metadata.rackName + " (" + metadata.rackId + ")";
    HealthReport(HealthReportSource, [], [HealthProbeAlert(ProbeId(t), Some(metadata.rackId), message, None, LeakClassifications)])
  }

  /** The sink call a value change asks for: `insert` for Faulting, `remove` for Clear. */
  function CallFor(metadata: LeakMetadata, t: LeakPointType, v: FaultValue): (c: SinkCall)
    ensures c.rackId == metadata.rackId
    ensures c.Insert? <==> v == Faulting
  {
    match v
    case Faulting => Insert(metadata.rackId, BuildLeakAlertReport(metadata, t))
    case Clear => Remove(metadata.rackId)
  }

  /** `handle_metadata_message`: cache supported metadata under its extracted path. */
  function OnMetadata(prefix: string, st: State, topic: string, metadata: LeakMetadata): State {
    if !IsSupportedLeakType(metadata) then st
    else match ExtractPointPath(topic, prefix)
      case None => st
      case Some(path) => st.(metadata := st.metadata[path := metadata])
  }

  /**
   * `handle_value_message`: find the path and its metadata, skip a value equal
   * to the committed one, otherwise call the sink once and commit the value if
   * and only if the sink accepted the call.
   */
  function OnValue(prefix: string, accepts: Oracle, st: State, topic: string, v: FaultValue): State {
    match ExtractPointPath(topic, prefix)
    case None => st
    case Some(path) =>
      if path !in st.metadata then st
      else match LeakPointTypeOf(st.metadata[path])
        case None => st
        case Some(t) =>
          if path in st.values && st.values[path] == v then st
          else
            var call := CallFor(st.metadata[path], t, v);
            var values := if accepts(|st.log|, call) then st.values[path := v] else st.values;
            State(st.metadata, values, st.log + [call])
  }

  /** One message of `run`'s loop. */
  function Step(prefix: string, accepts: Oracle, st: State, msg: Message): State {
    match msg
    case MetadataMessage(topic, metadata) => OnMetadata(prefix, st, topic, metadata)
    case ValueMessage(topic, v) => OnValue(prefix, accepts, st, topic, v)
  }

  /** `run`: the messages handled one after another, in arrival order. */
  function RunSteps(prefix: string, accepts: Oracle, st: State, msgs: seq<Message>): State {
    if msgs == [] then st
    else Step(prefix, accepts, RunSteps(prefix, accepts, st, msgs[..|msgs| - 1]), msgs[|msgs| - 1])
  }

  /** Time-to-live eviction of the metadata cached for `path`. */
  function EvictMetadata(st: State, path: string): (r: State)
    ensures path !in r.metadata && r.values == st.values && r.log == st.log
    ensures forall q :: q != path ==> (q in r.metadata <==> q in st.metadata)
    ensures forall q :: q in r.metadata ==> r.metadata[q] == st.metadata[q]
  {
    st.(metadata := st.metadata - {path})
  }

  /** Time-to-live eviction of the value remembered for `path`. */
  function EvictValue(st: State, path: string): (r: State)
    ensures path !in r.values && r.metadata == st.metadata && r.log == st.log
    ensures forall q :: q != path ==> (q in r.values <==> q in st.values)
    ensures forall q :: q in r.values ==> r.values[q] == st.values[q]
  {
    st.(values := st.values - {path})
  }

  /** What can happen to the processor: a message arrives, or a cache entry expires. */
  datatype Event = Deliver(msg: Message) | MetadataExpired(path: string) | ValueExpired(path: string)

  /** One event: a message is handled by `Step`; an expiry evicts one entry. */
  function Apply(prefix: string, accepts: Oracle, st: State, e: Event): State {
    match e
    case Deliver(msg) => Step(prefix, accepts, st, msg)
    case MetadataExpired(path) => EvictMetadata(st, path)
    case ValueExpired(path) => EvictValue(st, path)
  }

  /** The events one after another. */
  function RunEvents(prefix: string, accepts: Oracle, st: State, events: seq<Event>): State {
    if events == [] then st
    else Apply(prefix, accepts, RunEvents(prefix, accepts, st, events[..|events| - 1]), events[|events| - 1])
  }

  /** Only supported metadata is ever cached. */
  ghost predicate AllSupported(metadata: map<string, LeakMetadata>) {
    forall path :: path in metadata ==> IsSupportedLeakType(metadata[path])
  }

  /** The outcome of the compute closure: leave the entry as it is, or store a value. */
  datatype Op = Nop | Put(value: FaultValue)

  /** The downstream sink: it records every call and answers it as its oracle says. */
  class Sink {
    var log: seq<SinkCall>
    const accepts: Oracle

    constructor (accepts: Oracle)
      ensures log == [] && this.accepts == accepts
    {
      log := [];
      this.accepts := accepts;
    }

    /** `insert_rack_health_report` or `remove_rack_health_report`; true when it succeeds. */
    method Call(c: SinkCall) returns (ok: bool)
      modifies this
      ensures log == old(log) + [c]
      ensures ok == accepts(|old(log)|, c)
    {
      ok := accepts(|log|, c);
      log := log + [c];
    }
  }

  /** `HealthUpdater`: the topic prefix, the sink, and the two caches keyed by sensor path. */
  class Updater {
    const topicPrefix: string
    const api: Sink
    var metadataCache: map<string, LeakMetadata>
    var valueStateCache: map<string, FaultValue>

    ghost predicate Valid()
      reads this
    {
      AllSupported(metadataCache)
    }

    ghost function Snapshot(): State
      reads this, api
    {
      State(metadataCache, valueStateCache, api.log)
    }

    constructor (topicPrefix: string, api: Sink)
      ensures Valid()
      ensures this.topicPrefix == topicPrefix && this.api == api
      ensures metadataCache == map[] && valueStateCache == map[]
    {
      this.topicPrefix := topicPrefix;
      this.api := api;
      metadataCache := map[];
      valueStateCache := map[];
    }

    method HandleMetadataMessage(topic: string, metadata: LeakMetadata)
      requires Valid()
      modifies this
      ensures Valid()
      ensures Snapshot() == OnMetadata(topicPrefix, old(Snapshot()), topic, metadata)
    {
      if !IsSupportedLeakType(metadata) {
        return;
      }
      var path := ExtractPointPath(topic, topicPrefix);
      if path.Some? {
        metadataCache := metadataCache[path.value := metadata];
      }
    }

    method HandleValueMessage(topic: string, v: FaultValue)
      requires Valid()
      modifies this, api
      ensures Valid()
      ensures Snapshot() == OnValue(topicPrefix, api.accepts, old(Snapshot()), topic, v)
    {
      var path := ExtractPointPath(topic, topicPrefix);
      if path.None? {
        return;
      }
      if path.value !in metadataCache {
        return;
      }
      var metadata := metadataCache[path.value];
      var leakType := LeakPointTypeOf(metadata);
      if leakType.None? {
        return;
      }
      // The compute closure: decide on the current entry, call the sink, report an Op.
      var result: Result<Op, SinkCall>;
      if path.value in valueStateCache && valueStateCache[path.value] == v {
        result := Success(Nop);
      } else {
        var call := CallFor(metadata, leakType.value, v);
        var ok := api.Call(call);
        result := if ok then Success(Put(v)) else Failure(call);
      }
      if result.Success? && result.value.Put? {
        valueStateCache := valueStateCache[path.value := result.value.value];
      }
    }

    method Run(msgs: seq<Message>)
      requires Valid()
      modifies this, api
      ensures Valid()
      ensures Snapshot() == RunSteps(topicPrefix, api.accepts, old(Snapshot()), msgs)
    {
      var i := 0;
      while i < |msgs|
        invariant 0 <= i <= |msgs|
        invariant Valid()
        invariant Snapshot() == RunSteps(topicPrefix, api.accepts, old(Snapshot()), msgs[..i])
      {
        assert msgs[..i + 1][..i] == msgs[..i];
        match msgs[i] {
          case MetadataMessage(topic, metadata) =>
            HandleMetadataMessage(topic, metadata);
          case ValueMessage(topic, v) =>
            HandleValueMessage(topic, v);
        }
        i := i + 1;
      }
      assert msgs[..i] == msgs;
    }

    /** Time-to-live eviction of one metadata entry, as an explicit step. */
    method ExpireMetadata(path: string)
      requires Valid()
      modifies this
      ensures Valid()
      ensures Snapshot() == EvictMetadata(old(Snapshot()), path)
    {
      metadataCache := metadataCache - {path};
    }

    /** Time-to-live eviction of one value-state entry, as an explicit step. */
    method ExpireValueState(path: string)
      requires Valid()
      modifies this
      ensures Valid()
      ensures Snapshot() == EvictValue(old(Snapshot()), path)
    {
      valueStateCache := valueStateCache - {path};
    }
  }
}
