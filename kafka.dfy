/** The Kafka client binders: the tags extracted from a Kafka client MBean name,
    the meter catalogs for consumer and producer MBeans, and the two binders
    (KafkaConsumerMetrics, KafkaProducerMetrics) that register those catalogs
    with a JmxMeterBinder. Each catalog is a table of rows, one per `ctx.bind*`
    call, in the order of the calls; a row's meter name is the part after the
    configurable prefix. */
module Kafka {
  import opened Tags
  import opened Jmx

  const CONSUMER_DOMAIN: string := "kafka.consumer"
  const CONSUMER_DEFAULT_PREFIX: string := "kafka.consumer."
  const PRODUCER_DOMAIN: string := "kafka.producer"
  const PRODUCER_DEFAULT_PREFIX: string := "kafka.producer."

  // ===========================================================================
  // Tags of a Kafka client MBean
  // ===========================================================================

  /** The tag for key property `property`, under tag key `key`, if the name has it. */
  function TagFor(obj: ObjectName, property: string, key: string): seq<Tag>
  {
    if property in obj.properties then [Tag(key, obj.properties[property])] else []
  }

  /** Position of each tag key in the fixed extraction order. */
  function KeyRank(key: string): nat
  {
    if key == "client.id" then 0 else if key == "topic" then 1 else if key == "partition" then 2 else 3
  }

  /** The key property each tag key is read from. */
  function PropertyOf(key: string): string
  {
    if key == "client.id" then "client-id" else key
  }

  predicate IsExtractedKey(key: string)
  {
    key == "client.id" || key == "topic" || key == "partition" || key == "node"
  }

  /** AbstractKafkaMetrics.extractTagsFromObjectName: `client-id`, `topic`,
      `partition` and `node`, in that order, each only when present; the
      property `client-id` becomes the tag key `client.id`. */
  function ExtractTagsFromObjectName(obj: ObjectName): (tags: seq<Tag>)
    ensures |tags| <= 4
    ensures forall i :: 0 <= i < |tags| ==> IsExtractedKey(tags[i].key)
    ensures forall i :: 0 <= i < |tags| ==>
              PropertyOf(tags[i].key) in obj.properties && tags[i].value == obj.properties[PropertyOf(tags[i].key)]
  {
    TagFor(obj, "client-id", "client.id") + TagFor(obj, "topic", "topic")
      + TagFor(obj, "partition", "partition") + TagFor(obj, "node", "node")
  }

  /** A tag key is extracted exactly when the name has its key property. */
  lemma ExtractedKeySet(obj: ObjectName)
    ensures forall k :: k in KeySet(ExtractTagsFromObjectName(obj)) <==> IsExtractedKey(k) && PropertyOf(k) in obj.properties
  {
  }

  /** The tags come in the order client.id, topic, partition, node. */
  lemma ExtractedOrder(obj: ObjectName)
    ensures var tags := ExtractTagsFromObjectName(obj);
      forall i, j :: 0 <= i < j < |tags| ==> KeyRank(tags[i].key) < KeyRank(tags[j].key)
  {
  }

  /** The extracted tags have distinct keys. */
  lemma ExtractedKeysDistinct(obj: ObjectName)
    ensures DistinctKeys(ExtractTagsFromObjectName(obj))
  {
    ExtractedOrder(obj);
  }

  /** The tag keys of a Kafka MBean's meters: the preset keys and the keys
      its name has properties for. */
  lemma MBeanTagKeys(presetTags: seq<Tag>, obj: ObjectName)
    ensures forall k :: k in KeySet(Concat(presetTags, ExtractTagsFromObjectName(obj)))
              <==> k in KeySet(presetTags) || (IsExtractedKey(k) && PropertyOf(k) in obj.properties)
  {
    ExtractedKeySet(obj);
  }

  /** Only the four key properties matter; the `type` property and any other
      property are ignored. */
  lemma ExtractIgnoresOtherProperties(a: ObjectName, b: ObjectName)
    requires forall p :: p in ["client-id", "topic", "partition", "node"] ==>
               (p in a.properties <==> p in b.properties) && (p in a.properties ==> a.properties[p] == b.properties[p])
    ensures ExtractTagsFromObjectName(a) == ExtractTagsFromObjectName(b)
  {
    assert "client-id" in ["client-id", "topic", "partition", "node"];
    assert "topic" in ["client-id", "topic", "partition", "node"];
    assert "partition" in ["client-id", "topic", "partition", "node"];
    assert "node" in ["client-id", "topic", "partition", "node"];
  }

  // ===========================================================================
  // Catalog rows
  // ===========================================================================

  /** `ctx.bindGauge(attrName, prefix + meterSuffix, ...)`. */
  function GaugeRow(attrName: string, meterSuffix: string): Declaration
  {
    Declaration(Gauge, attrName, meterSuffix, "")
  }

  /** `ctx.bindFunctionCounter(attrName, prefix + meterSuffix, ...)`. */
  function CounterRow(attrName: string, meterSuffix: string): Declaration
  {
    Declaration(FunctionCounter, attrName, meterSuffix, "")
  }

  /** `ctx.bindTimeGauge(attrName, prefix + meterSuffix, ..., unit)`. */
  function TimeGaugeRow(attrName: string, meterSuffix: string, unit: TimeUnit): Declaration
  {
    Declaration(TimeGauge(unit), attrName, meterSuffix, "")
  }

  /** The meter is named after the attribute with `attrEnding` replaced by `nameEnding`. */
  ghost predicate Renamed(d: Declaration, attrEnding: string, nameEnding: string)
  {
    exists stem :: d.attrName == stem + attrEnding && d.meterName == stem + nameEnding
  }

  lemma RenamedRow(d: Declaration, stem: string, attrEnding: string, nameEnding: string)
    requires d.attrName == stem + attrEnding && d.meterName == stem + nameEnding
    ensures Renamed(d, attrEnding, nameEnding)
  {
  }

  predicate EndsWith(s: string, suffix: string)
  {
    |suffix| <= |s| && s[|s| - |suffix|..] == suffix
  }

  // ===========================================================================
  // Tables
  // ===========================================================================

  /** AbstractKafkaMetrics.bindCommonMetrics. */
  const COMMON_METRICS: seq<Declaration> := [
    GaugeRow("connection-close-rate", "connection-close-rate"),
    CounterRow("connection-close-total", "connection-close-total"),
    GaugeRow("connection-creation-rate", "connection-creation-rate"),
    CounterRow("connection-creation-total", "connection-creation-total"),
    GaugeRow("network-io-rate", "network-io-rate"),
    CounterRow("network-io-total", "network-io-total"),
    GaugeRow("outgoing-byte-rate", "outgoing-byte-rate"),
    CounterRow("outgoing-byte-total", "outgoing-byte-total"),
    GaugeRow("request-rate", "request-rate"),
    CounterRow("request-total", "request-total"),
    GaugeRow("request-size-avg", "request-size-avg"),
    GaugeRow("request-size-max", "request-size-max"),
    GaugeRow("incoming-byte-rate", "incoming-byte-rate"),
    CounterRow("incoming-byte-total", "incoming-byte-total"),
    GaugeRow("response-rate", "response-rate"),
    CounterRow("response-total", "response-total"),
    GaugeRow("select-rate", "select-rate"),
    CounterRow("select-total", "select-total"),
    TimeGaugeRow("io-wait-time-ns-avg", "io-wait-time-avg", Nanoseconds),
    GaugeRow("io-wait-ratio", "io-wait-ratio"),
    TimeGaugeRow("io-time-ns-avg", "io-time-avg", Nanoseconds),
    GaugeRow("io-ratio", "io-ratio"),
    GaugeRow("connection-count", "connection-count"),
    GaugeRow("successful-authentication-rate", "successful-authentication-rate"),
    CounterRow("successful-authentication-total", "successful-authentication-total"),
    GaugeRow("failed-authentication-rate", "failed-authentication-rate"),
    CounterRow("failed-authentication-total", "failed-authentication-total"),
    GaugeRow("successful-reauthentication-rate", "successful-reauthentication-rate"),
    CounterRow("successful-reauthentication-total", "successful-reauthentication-total"),
    TimeGaugeRow("reauthentication-latency-max", "reauthentication-latency-max", Milliseconds),
    TimeGaugeRow("reauthentication-latency-avg", "reauthentication-latency-avg", Milliseconds),
    GaugeRow("failed-reauthentication-rate", "failed-reauthentication-rate"),
    CounterRow("failed-reauthentication-total", "failed-reauthentication-total"),
    CounterRow("successful-authentication-no-reauth-total", "successful-authentication-no-reauth-total")
  ]

  /** KafkaConsumerMetrics.bindConsumerMetrics. */
  const CONSUMER_METRICS: seq<Declaration> := [
    TimeGaugeRow("time-between-poll-avg", "time-between-poll-avg", Milliseconds),
    TimeGaugeRow("time-between-poll-max", "time-between-poll-max", Milliseconds),
    TimeGaugeRow("last-poll-seconds-ago", "last-poll-ago", Seconds),
    GaugeRow("poll-idle-ratio-avg", "poll-idle-ratio-avg")
  ]

  /** KafkaConsumerMetrics.bindCoordinatorMetrics. */
  const COORDINATOR_METRICS: seq<Declaration> := [
    TimeGaugeRow("commit-latency-avg", "commit-latency-avg", Milliseconds),
    TimeGaugeRow("commit-latency-max", "commit-latency-max", Milliseconds),
    GaugeRow("commit-rate", "commit-rate"),
    CounterRow("commit-total", "commit-total"),
    GaugeRow("assigned-partitions", "assigned-partitions"),
    TimeGaugeRow("heartbeat-response-time-max", "heartbeat-response-time-max", Milliseconds),
    GaugeRow("heartbeat-rate", "heartbeat-rate"),
    CounterRow("heartbeat-total", "heartbeat-total"),
    TimeGaugeRow("join-time-avg", "join-time-avg", Milliseconds),
    TimeGaugeRow("join-time-max", "join-time-max", Milliseconds),
    GaugeRow("join-rate", "join-rate"),
    CounterRow("join-total", "join-total"),
    TimeGaugeRow("sync-time-avg", "sync-time-avg", Milliseconds),
    TimeGaugeRow("sync-time-max", "sync-time-max", Milliseconds),
    GaugeRow("sync-rate", "sync-rate"),
    CounterRow("sync-total", "sync-total"),
    TimeGaugeRow("rebalance-latency-avg", "rebalance-latency-avg", Milliseconds),
    TimeGaugeRow("rebalance-latency-max", "rebalance-latency-max", Milliseconds),
    TimeGaugeRow("rebalance-latency-total", "rebalance-latency-total", Milliseconds),
    CounterRow("rebalance-total", "rebalance-total"),
    GaugeRow("rebalance-rate-per-hour", "rebalance-rate-per-hour"),
    CounterRow("failed-rebalance-total", "failed-rebalance-total"),
    GaugeRow("failed-rebalance-rate-per-hour", "failed-rebalance-rate-per-hour"),
    TimeGaugeRow("last-rebalance-seconds-ago", "last-rebalance-ago", Seconds),
    TimeGaugeRow("last-heartbeat-seconds-ago", "last-heartbeat-ago", Seconds),
    TimeGaugeRow("partitions-revoked-latency-avg", "partitions-revoked-latency-avg", Milliseconds),
    TimeGaugeRow("partitions-revoked-latency-max", "partitions-revoked-latency-max", Milliseconds),
    TimeGaugeRow("partitions-assigned-latency-avg", "partitions-assigned-latency-avg", Milliseconds),
    TimeGaugeRow("partitions-assigned-latency-max", "partitions-assigned-latency-max", Milliseconds),
    TimeGaugeRow("partitions-lost-latency-avg", "partitions-lost-latency-avg", Milliseconds),
    TimeGaugeRow("partitions-lost-latency-max", "partitions-lost-latency-max", Milliseconds)
  ]

  /** bindFetchManagerMetrics, metrics per consumer, topic and partition. */
  const FETCH_PARTITION_METRICS: seq<Declaration> := [
    GaugeRow("preferred-read-replica", "preferred-read-replica"),
    GaugeRow("records-lag", "records-lag"),
    GaugeRow("records-lag-avg", "records-lag-avg"),
    GaugeRow("records-lag-max", "records-lag-max"),
    GaugeRow("records-lead", "records-lead"),
    GaugeRow("records-lead-avg", "records-lead-avg"),
    GaugeRow("records-lead-min", "records-lead-min")
  ]

  /** bindFetchManagerMetrics, metrics per consumer and topic. */
  const FETCH_TOPIC_METRICS: seq<Declaration> := [
    GaugeRow("bytes-consumed-rate", "bytes-consumed-rate"),
    CounterRow("bytes-consumed-total", "bytes-consumed-total"),
    GaugeRow("fetch-size-avg", "fetch-size-avg"),
    GaugeRow("fetch-size-max", "fetch-size-max"),
    GaugeRow("records-consumed-rate", "records-consumed-rate"),
    CounterRow("records-consumed-total", "records-consumed-total"),
    GaugeRow("records-per-request-avg", "records-per-request-avg")
  ]

  /** bindFetchManagerMetrics, metrics per consumer only. */
  const FETCH_CLIENT_METRICS: seq<Declaration> := [
    TimeGaugeRow("fetch-latency-avg", "fetch-latency-avg", Milliseconds),
    TimeGaugeRow("fetch-latency-max", "fetch-latency-max", Milliseconds),
    GaugeRow("fetch-rate", "fetch-rate"),
    TimeGaugeRow("fetch-throttle-time-avg", "fetch-throttle-time-avg", Milliseconds),
    TimeGaugeRow("fetch-throttle-time-max", "fetch-throttle-time-max", Milliseconds),
    GaugeRow("fetch-total", "fetch-total")
  ]

  /** KafkaProducerMetrics.bindProducerMetrics. */
  const PRODUCER_METRICS: seq<Declaration> := [
    GaugeRow("waiting-threads", "waiting-threads"),
    GaugeRow("buffer-total-bytes", "buffer-total-bytes"),
    GaugeRow("buffer-available-bytes", "buffer-available-bytes"),
    GaugeRow("bufferpool-wait-time", "bufferpool-wait-time")
  ]

  /** KafkaProducerMetrics.bindSenderMetrics. */
  const SENDER_METRICS: seq<Declaration> := [
    GaugeRow("batch-size-avg", "batch-size-avg"),
    GaugeRow("batch-size-max", "batch-size-max"),
    GaugeRow("batch-split-rate", "batch-split-rate"),
    CounterRow("batch-split-total", "batch-split-total"),
    GaugeRow("compression-rate-avg", "compression-rate-avg"),
    TimeGaugeRow("metadata-age", "metadata-age", Seconds),
    TimeGaugeRow("produce-throttle-time-avg", "produce-throttle-time-avg", Milliseconds),
    TimeGaugeRow("produce-throttle-time-max", "produce-throttle-time-max", Milliseconds),
    TimeGaugeRow("record-queue-time-avg", "record-queue-time-avg", Milliseconds),
    TimeGaugeRow("record-queue-time-max", "record-queue-time-max", Milliseconds),
    GaugeRow("record-size-avg", "record-size-avg"),
    GaugeRow("record-size-max", "record-size-max"),
    GaugeRow("records-per-request-avg", "records-per-request-avg"),
    TimeGaugeRow("request-latency-avg", "request-latency-avg", Milliseconds),
    TimeGaugeRow("request-latency-max", "request-latency-max", Milliseconds),
    GaugeRow("requests-in-flight", "requests-in-flight")
  ]

  /** KafkaProducerMetrics.bindPerTopicSenderMetrics. */
  const PER_TOPIC_SENDER_METRICS: seq<Declaration> := [
    GaugeRow("byte-rate", "byte-rate"),
    CounterRow("byte-total", "byte-total"),
    GaugeRow("compression-rate", "compression-rate"),
    GaugeRow("record-error-rate", "record-error-rate"),
    CounterRow("record-error-total", "record-error-total"),
    GaugeRow("record-retry-rate", "record-retry-rate"),
    CounterRow("record-retry-total", "record-retry-total"),
    GaugeRow("record-send-rate", "record-send-rate"),
    CounterRow("record-send-total", "record-send-total")
  ]

  // ===========================================================================
  // Naming and unit rules of the tables
  // ===========================================================================

  /** Common metrics: rows 18 and 20 are the two nanosecond time gauges, the
      `-ns-avg` attributes, whose meter names drop the `-ns`. */
  lemma CommonNanosecondRows()
    ensures COMMON_METRICS[18].kind == TimeGauge(Nanoseconds) && Renamed(COMMON_METRICS[18], "-ns-avg", "-avg")
    ensures COMMON_METRICS[20].kind == TimeGauge(Nanoseconds) && Renamed(COMMON_METRICS[20], "-ns-avg", "-avg")
  {
    RenamedRow(COMMON_METRICS[18], "io-wait-time", "-ns-avg", "-avg");
    RenamedRow(COMMON_METRICS[20], "io-time", "-ns-avg", "-avg");
  }

  /** Common metrics: every other row is named after its attribute and is not
      a nanosecond time gauge. */
  lemma CommonMetricsKeepNames()
    ensures forall i :: 0 <= i < |COMMON_METRICS| && i != 18 && i != 20 ==>
              COMMON_METRICS[i].meterName == COMMON_METRICS[i].attrName && COMMON_METRICS[i].kind != TimeGauge(Nanoseconds)
  {
  }

  /** Consumer metrics: the one seconds gauge, `last-poll-seconds-ago`, is
      named with `-ago` for `-seconds-ago`; the other rows keep their names. */
  lemma ConsumerMetricsNaming()
    ensures CONSUMER_METRICS[2].kind == TimeGauge(Seconds) && Renamed(CONSUMER_METRICS[2], "-seconds-ago", "-ago")
    ensures forall i :: 0 <= i < |CONSUMER_METRICS| && i != 2 ==>
              CONSUMER_METRICS[i].meterName == CONSUMER_METRICS[i].attrName && CONSUMER_METRICS[i].kind != TimeGauge(Seconds)
  {
    RenamedRow(CONSUMER_METRICS[2], "last-poll", "-seconds-ago", "-ago");
  }

  /** Coordinator metrics: rows 23 and 24 are the seconds gauges, renamed from
      `-seconds-ago` to `-ago`. */
  lemma CoordinatorSecondsRows()
    ensures COORDINATOR_METRICS[23].kind == TimeGauge(Seconds) && Renamed(COORDINATOR_METRICS[23], "-seconds-ago", "-ago")
    ensures COORDINATOR_METRICS[24].kind == TimeGauge(Seconds) && Renamed(COORDINATOR_METRICS[24], "-seconds-ago", "-ago")
  {
    RenamedRow(COORDINATOR_METRICS[23], "last-rebalance", "-seconds-ago", "-ago");
    RenamedRow(COORDINATOR_METRICS[24], "last-heartbeat", "-seconds-ago", "-ago");
  }

  /** Coordinator metrics: the other rows keep their names and are not seconds gauges. */
  lemma CoordinatorMetricsKeepNames()
    ensures forall i :: 0 <= i < |COORDINATOR_METRICS| && i != 23 && i != 24 ==>
              COORDINATOR_METRICS[i].meterName == COORDINATOR_METRICS[i].attrName && COORDINATOR_METRICS[i].kind != TimeGauge(Seconds)
  {
  }

  /** Every row is named after its attribute. */
  ghost predicate KeepsNames(rows: seq<Declaration>)
  {
    forall i :: 0 <= i < |rows| ==> rows[i].meterName == rows[i].attrName
  }

  /** The three fetch-manager tables name every meter after its attribute. */
  lemma FetchTablesKeepNames()
    ensures KeepsNames(FETCH_PARTITION_METRICS) && KeepsNames(FETCH_TOPIC_METRICS) && KeepsNames(FETCH_CLIENT_METRICS)
  {
  }

  /** The producer, sender and per-topic tables name every meter after its
      attribute; `metadata-age` is a seconds gauge that keeps its name. */
  lemma ProducerTablesKeepNames()
    ensures KeepsNames(PRODUCER_METRICS) && KeepsNames(SENDER_METRICS) && KeepsNames(PER_TOPIC_SENDER_METRICS)
    ensures SENDER_METRICS[5].kind == TimeGauge(Seconds) && SENDER_METRICS[5].attrName == "metadata-age"
  {
  }

  /** Sender metrics: every time gauge other than `metadata-age` is in
      milliseconds. */
  lemma SenderTimeUnits()
    ensures forall i :: 0 <= i < |SENDER_METRICS| && i != 5 && SENDER_METRICS[i].kind.TimeGauge? ==>
              SENDER_METRICS[i].kind.unit == Milliseconds
  {
  }

  /** Per-topic sender metrics: the `-total` attributes are the function
      counters, every other attribute is a gauge. */
  lemma PerTopicKinds()
    ensures forall i :: 0 <= i < |PER_TOPIC_SENDER_METRICS| ==>
              (PER_TOPIC_SENDER_METRICS[i].kind == FunctionCounter <==> EndsWith(PER_TOPIC_SENDER_METRICS[i].attrName, "-total"))
              && (PER_TOPIC_SENDER_METRICS[i].kind == FunctionCounter || PER_TOPIC_SENDER_METRICS[i].kind == Gauge)
  {
  }

  // ===========================================================================
  // Fetch-manager tiers
  // ===========================================================================

  /** Which of the three fetch-manager tables a context gets. */
  datatype FetchTier = PartitionTier | TopicTier | ClientTier

  /** The two hasKeys tests of bindFetchManagerMetrics, in order. The tier is
      decided by which of `topic` and `partition` are tag keys: both give the
      partition table, `topic` alone the topic table, and without `topic` (even
      with `partition`) the client table. */
  function FetchTierOf(tags: seq<Tag>): (tier: FetchTier)
    ensures tier == PartitionTier <==> "topic" in KeySet(tags) && "partition" in KeySet(tags)
    ensures tier == TopicTier <==> "topic" in KeySet(tags) && "partition" !in KeySet(tags)
    ensures tier == ClientTier <==> "topic" !in KeySet(tags)
  {
    AnyKeyEqualsIff(tags, "topic");
    AnyKeyEqualsIff(tags, "partition");
    GetKeysSpansKeySet(tags);
    assert ["topic", "partition"][1..] == ["partition"] && ["partition"][1..] == [] && ["topic"][1..] == [];
    assert HasKeys(tags, ["partition"]) <==> AnyKeyEquals(tags, "partition");
    assert HasKeys(tags, ["topic", "partition"]) <==> AnyKeyEquals(tags, "topic") && AnyKeyEquals(tags, "partition");
    assert HasKeys(tags, ["topic"]) <==> AnyKeyEquals(tags, "topic");
    if HasKeys(tags, ["topic", "partition"]) then PartitionTier
    else if HasKeys(tags, ["topic"]) then TopicTier
    else ClientTier
  }

  function FetchTable(tier: FetchTier): seq<Declaration>
  {
    match tier
    case PartitionTier => FETCH_PARTITION_METRICS
    case TopicTier => FETCH_TOPIC_METRICS
    case ClientTier => FETCH_CLIENT_METRICS
  }

  /** For a fetch-manager MBean the tier follows the key properties of its
      name, but a preset tag with key `topic` or `partition` counts as well,
      since the test is on the merged tags. */
  lemma FetchTierOfMBean(presetTags: seq<Tag>, obj: ObjectName)
    ensures var tier := FetchTierOf(Concat(presetTags, ExtractTagsFromObjectName(obj)));
      var topic := "topic" in KeySet(presetTags) || "topic" in obj.properties;
      var partition := "partition" in KeySet(presetTags) || "partition" in obj.properties;
      (tier == PartitionTier <==> topic && partition)
      && (tier == TopicTier <==> topic && !partition)
      && (tier == ClientTier <==> !topic)
  {
    var tags := Concat(presetTags, ExtractTagsFromObjectName(obj));
    ExtractedKeySet(obj);
    assert IsExtractedKey("topic") && PropertyOf("topic") == "topic";
    assert IsExtractedKey("partition") && PropertyOf("partition") == "partition";
  }

  // ===========================================================================
  // Binding callbacks and registrations
  // ===========================================================================

  /** The binding methods of the two Kafka binders, one per table (the
      fetch-manager method picks one of three). */
  datatype Catalog = CommonMetrics | ConsumerMetrics | CoordinatorMetrics | FetchManagerMetrics
                   | ProducerMetrics | SenderMetrics | PerTopicSenderMetrics

  /** The binds a method performs in a context with these tags, before the
      prefix is prepended. */
  function CatalogRows(catalog: Catalog, tags: seq<Tag>): seq<Declaration>
  {
    match catalog
    case CommonMetrics => COMMON_METRICS
    case ConsumerMetrics => CONSUMER_METRICS
    case CoordinatorMetrics => COORDINATOR_METRICS
    case FetchManagerMetrics => FetchTable(FetchTierOf(tags))
    case ProducerMetrics => PRODUCER_METRICS
    case SenderMetrics => SENDER_METRICS
    case PerTopicSenderMetrics => PER_TOPIC_SENDER_METRICS
  }

  /** The method reference `this::bind...Metrics`: binds its rows with the
      prefix, and never throws. */
  function CatalogCallback(prefix: string, catalog: Catalog): BindingCallback
  {
    (obj: ObjectName, tags: seq<Tag>) => Invocation(WithPrefix(prefix, CatalogRows(catalog, tags)), false)
  }

  /** The four bindMetricsForMBeanType calls of KafkaConsumerMetrics.bindTo. */
  function ConsumerRegistrations(prefix: string): seq<Registration>
  {
    [Registration("consumer-metrics", CatalogCallback(prefix, CommonMetrics)),
     Registration("consumer-metrics", CatalogCallback(prefix, ConsumerMetrics)),
     Registration("consumer-coordinator-metrics", CatalogCallback(prefix, CoordinatorMetrics)),
     Registration("consumer-fetch-manager-metrics", CatalogCallback(prefix, FetchManagerMetrics))]
  }

  /** The four bindMetricsForMBeanType calls of KafkaProducerMetrics.bindTo. */
  function ProducerRegistrations(prefix: string): seq<Registration>
  {
    [Registration("producer-metrics", CatalogCallback(prefix, CommonMetrics)),
     Registration("producer-metrics", CatalogCallback(prefix, ProducerMetrics)),
     Registration("producer-metrics", CatalogCallback(prefix, SenderMetrics)),
     Registration("producer-topic-metrics", CatalogCallback(prefix, PerTopicSenderMetrics))]
  }

  /** None of the Kafka binding methods throws, so a Kafka bindTo can only
      fail on its configuration. */
  lemma ConsumerRegistrationsNeverThrow(prefix: string)
    ensures forall k, obj, tags :: 0 <= k < |ConsumerRegistrations(prefix)| ==> !ConsumerRegistrations(prefix)[k].callback(obj, tags).fails
  {
    var regs := ConsumerRegistrations(prefix);
    forall k, obj, tags | 0 <= k < |regs| ensures !regs[k].callback(obj, tags).fails {
      assert regs[k].callback == CatalogCallback(prefix, [CommonMetrics, ConsumerMetrics, CoordinatorMetrics, FetchManagerMetrics][k]);
    }
  }

  lemma ProducerRegistrationsNeverThrow(prefix: string)
    ensures forall k, obj, tags :: 0 <= k < |ProducerRegistrations(prefix)| ==> !ProducerRegistrations(prefix)[k].callback(obj, tags).fails
  {
    var regs := ProducerRegistrations(prefix);
    forall k, obj, tags | 0 <= k < |regs| ensures !regs[k].callback(obj, tags).fails {
      assert regs[k].callback == CatalogCallback(prefix, [CommonMetrics, ProducerMetrics, SenderMetrics, PerTopicSenderMetrics][k]);
    }
  }

  // ===========================================================================
  // What a callback registers
  // ===========================================================================

  /** Each of the three fetch-manager tables declares distinct meter names. */
  lemma FetchTableDistinct(tier: FetchTier)
    ensures DistinctNames(FetchTable(tier))
  {
    match tier
    case PartitionTier =>
    case TopicTier =>
    case ClientTier =>
  }

  /** Row `i` of a table shares its meter name with no later row. */
  ghost predicate NameUniqueFrom(rows: seq<Declaration>, i: nat)
    requires i < |rows|
  {
    forall j :: i < j < |rows| ==> rows[j].meterName != rows[i].meterName
  }

  /** A table whose every row is unique from there on has distinct names. */
  lemma UniqueFromEveryRow(rows: seq<Declaration>)
    requires forall i :: 0 <= i < |rows| ==> NameUniqueFrom(rows, i)
    ensures DistinctNames(rows)
  {
    forall i, j | 0 <= i < j < |rows|
      ensures rows[i].meterName != rows[j].meterName
    {
      assert NameUniqueFrom(rows, i);
    }
  }

  // The three long tables are compared one row at a time against the rows
  // after it, which keeps each comparison of string literals small.

  // Row by row for COMMON_METRICS: each row's name differs from every later one.
  lemma CommonRow0Unique() ensures NameUniqueFrom(COMMON_METRICS, 0) { assert COMMON_METRICS[0].meterName == "connection-close-rate"; }
  lemma CommonRow1Unique() ensures NameUniqueFrom(COMMON_METRICS, 1) { assert COMMON_METRICS[1].meterName == "connection-close-total"; }
  lemma CommonRow2Unique() ensures NameUniqueFrom(COMMON_METRICS, 2) { assert COMMON_METRICS[2].meterName == "connection-creation-rate"; }
  lemma CommonRow3Unique() ensures NameUniqueFrom(COMMON_METRICS, 3) { assert COMMON_METRICS[3].meterName == "connection-creation-total"; }
  lemma CommonRow4Unique() ensures NameUniqueFrom(COMMON_METRICS, 4) { assert COMMON_METRICS[4].meterName == "network-io-rate"; }
  lemma CommonRow5Unique() ensures NameUniqueFrom(COMMON_METRICS, 5) { assert COMMON_METRICS[5].meterName == "network-io-total"; }
  lemma CommonRow6Unique() ensures NameUniqueFrom(COMMON_METRICS, 6) { assert COMMON_METRICS[6].meterName == "outgoing-byte-rate"; }
  lemma CommonRow7Unique() ensures NameUniqueFrom(COMMON_METRICS, 7) { assert COMMON_METRICS[7].meterName == "outgoing-byte-total"; }
  lemma CommonRow8Unique() ensures NameUniqueFrom(COMMON_METRICS, 8) { assert COMMON_METRICS[8].meterName == "request-rate"; }
  lemma CommonRow9Unique() ensures NameUniqueFrom(COMMON_METRICS, 9) { assert COMMON_METRICS[9].meterName == "request-total"; }
  lemma CommonRow10Unique() ensures NameUniqueFrom(COMMON_METRICS, 10) { assert COMMON_METRICS[10].meterName == "request-size-avg"; }
  lemma CommonRow11Unique() ensures NameUniqueFrom(COMMON_METRICS, 11) { assert COMMON_METRICS[11].meterName == "request-size-max"; }
  lemma CommonRow12Unique() ensures NameUniqueFrom(COMMON_METRICS, 12) { assert COMMON_METRICS[12].meterName == "incoming-byte-rate"; }
  lemma CommonRow13Unique() ensures NameUniqueFrom(COMMON_METRICS, 13) { assert COMMON_METRICS[13].meterName == "incoming-byte-total"; }
  lemma CommonRow14Unique() ensures NameUniqueFrom(COMMON_METRICS, 14) { assert COMMON_METRICS[14].meterName == "response-rate"; }
  lemma CommonRow15Unique() ensures NameUniqueFrom(COMMON_METRICS, 15) { assert COMMON_METRICS[15].meterName == "response-total"; }
  lemma CommonRow16Unique() ensures NameUniqueFrom(COMMON_METRICS, 16) { assert COMMON_METRICS[16].meterName == "select-rate"; }
  lemma CommonRow17Unique() ensures NameUniqueFrom(COMMON_METRICS, 17) { assert COMMON_METRICS[17].meterName == "select-total"; }
  lemma CommonRow18Unique() ensures NameUniqueFrom(COMMON_METRICS, 18) { assert COMMON_METRICS[18].meterName == "io-wait-time-avg"; }
  lemma CommonRow19Unique() ensures NameUniqueFrom(COMMON_METRICS, 19) { assert COMMON_METRICS[19].meterName == "io-wait-ratio"; }
  lemma CommonRow20Unique() ensures NameUniqueFrom(COMMON_METRICS, 20) { assert COMMON_METRICS[20].meterName == "io-time-avg"; }
  lemma CommonRow21Unique() ensures NameUniqueFrom(COMMON_METRICS, 21) { assert COMMON_METRICS[21].meterName == "io-ratio"; }
  lemma CommonRow22Unique() ensures NameUniqueFrom(COMMON_METRICS, 22) { assert COMMON_METRICS[22].meterName == "connection-count"; }
  lemma CommonRow23Unique() ensures NameUniqueFrom(COMMON_METRICS, 23) { assert COMMON_METRICS[23].meterName == "successful-authentication-rate"; }
  lemma CommonRow24Unique() ensures NameUniqueFrom(COMMON_METRICS, 24) { assert COMMON_METRICS[24].meterName == "successful-authentication-total"; }
  lemma CommonRow25Unique() ensures NameUniqueFrom(COMMON_METRICS, 25) { assert COMMON_METRICS[25].meterName == "failed-authentication-rate"; }
  lemma CommonRow26Unique() ensures NameUniqueFrom(COMMON_METRICS, 26) { assert COMMON_METRICS[26].meterName == "failed-authentication-total"; }
  lemma CommonRow27Unique() ensures NameUniqueFrom(COMMON_METRICS, 27) { assert COMMON_METRICS[27].meterName == "successful-reauthentication-rate"; }
  lemma CommonRow28Unique() ensures NameUniqueFrom(COMMON_METRICS, 28) { assert COMMON_METRICS[28].meterName == "successful-reauthentication-total"; }
  lemma CommonRow29Unique() ensures NameUniqueFrom(COMMON_METRICS, 29) { assert COMMON_METRICS[29].meterName == "reauthentication-latency-max"; }
  lemma CommonRow30Unique() ensures NameUniqueFrom(COMMON_METRICS, 30) { assert COMMON_METRICS[30].meterName == "reauthentication-latency-avg"; }
  lemma CommonRow31Unique() ensures NameUniqueFrom(COMMON_METRICS, 31) { assert COMMON_METRICS[31].meterName == "failed-reauthentication-rate"; }
  lemma CommonRow32Unique() ensures NameUniqueFrom(COMMON_METRICS, 32) { assert COMMON_METRICS[32].meterName == "failed-reauthentication-total"; }

  lemma CommonRowUnique(i: nat)
    requires i < |COMMON_METRICS|
    ensures NameUniqueFrom(COMMON_METRICS, i)
  {
    if i == 0 { CommonRow0Unique();
    } else if i == 1 { CommonRow1Unique();
    } else if i == 2 { CommonRow2Unique();
    } else if i == 3 { CommonRow3Unique();
    } else if i == 4 { CommonRow4Unique();
    } else if i == 5 { CommonRow5Unique();
    } else if i == 6 { CommonRow6Unique();
    } else if i == 7 { CommonRow7Unique();
    } else if i == 8 { CommonRow8Unique();
    } else if i == 9 { CommonRow9Unique();
    } else if i == 10 { CommonRow10Unique();
    } else if i == 11 { CommonRow11Unique();
    } else if i == 12 { CommonRow12Unique();
    } else if i == 13 { CommonRow13Unique();
    } else if i == 14 { CommonRow14Unique();
    } else if i == 15 { CommonRow15Unique();
    } else if i == 16 { CommonRow16Unique();
    } else if i == 17 { CommonRow17Unique();
    } else if i == 18 { CommonRow18Unique();
    } else if i == 19 { CommonRow19Unique();
    } else if i == 20 { CommonRow20Unique();
    } else if i == 21 { CommonRow21Unique();
    } else if i == 22 { CommonRow22Unique();
    } else if i == 23 { CommonRow23Unique();
    } else if i == 24 { CommonRow24Unique();
    } else if i == 25 { CommonRow25Unique();
    } else if i == 26 { CommonRow26Unique();
    } else if i == 27 { CommonRow27Unique();
    } else if i == 28 { CommonRow28Unique();
    } else if i == 29 { CommonRow29Unique();
    } else if i == 30 { CommonRow30Unique();
    } else if i == 31 { CommonRow31Unique();
    } else if i == 32 { CommonRow32Unique();
    }
  }

  lemma CoordinatorRow0Unique() ensures NameUniqueFrom(COORDINATOR_METRICS, 0) { assert COORDINATOR_METRICS[0].meterName == "commit-latency-avg"; }
  lemma CoordinatorRow1Unique() ensures NameUniqueFrom(COORDINATOR_METRICS, 1) { assert COORDINATOR_METRICS[1].meterName == "commit-latency-max"; }
  lemma CoordinatorRow2Unique() ensures NameUniqueFrom(COORDINATOR_METRICS, 2) { assert COORDINATOR_METRICS[2].meterName == "commit-rate"; }
  lemma CoordinatorRow3Unique() ensures NameUniqueFrom(COORDINATOR_METRICS, 3) { assert COORDINATOR_METRICS[3].meterName == "commit-total"; }
  lemma CoordinatorRow4Unique() ensures NameUniqueFrom(COORDINATOR_METRICS, 4) { assert COORDINATOR_METRICS[4].meterName == "assigned-partitions"; }
  lemma CoordinatorRow5Unique() ensures NameUniqueFrom(COORDINATOR_METRICS, 5) { assert COORDINATOR_METRICS[5].meterName == "heartbeat-response-time-max"; }
  lemma CoordinatorRow6Unique() ensures NameUniqueFrom(COORDINATOR_METRICS, 6) { assert COORDINATOR_METRICS[6].meterName == "heartbeat-rate"; }
  lemma CoordinatorRow7Unique() ensures NameUniqueFrom(COORDINATOR_METRICS, 7) { assert COORDINATOR_METRICS[7].meterName == "heartbeat-total"; }
  lemma CoordinatorRow8Unique() ensures NameUniqueFrom(COORDINATOR_METRICS, 8) { assert COORDINATOR_METRICS[8].meterName == "join-time-avg"; }
  lemma CoordinatorRow9Unique() ensures NameUniqueFrom(COORDINATOR_METRICS, 9) { assert COORDINATOR_METRICS[9].meterName == "join-time-max"; }
  lemma CoordinatorRow10Unique() ensures NameUniqueFrom(COORDINATOR_METRICS, 10) { assert COORDINATOR_METRICS[10].meterName == "join-rate"; }
  lemma CoordinatorRow11Unique() ensures NameUniqueFrom(COORDINATOR_METRICS, 11) { assert COORDINATOR_METRICS[11].meterName == "join-total"; }
  lemma CoordinatorRow12Unique() ensures NameUniqueFrom(COORDINATOR_METRICS, 12) { assert COORDINATOR_METRICS[12].meterName == "sync-time-avg"; }
  lemma CoordinatorRow13Unique() ensures NameUniqueFrom(COORDINATOR_METRICS, 13) { assert COORDINATOR_METRICS[13].meterName == "sync-time-max"; }
  lemma CoordinatorRow14Unique() ensures NameUniqueFrom(COORDINATOR_METRICS, 14) { assert COORDINATOR_METRICS[14].meterName == "sync-rate"; }
  lemma CoordinatorRow15Unique() ensures NameUniqueFrom(COORDINATOR_METRICS, 15) { assert COORDINATOR_METRICS[15].meterName == "sync-total"; }
  lemma CoordinatorRow16Unique() ensures NameUniqueFrom(COORDINATOR_METRICS, 16) { assert COORDINATOR_METRICS[16].meterName == "rebalance-latency-avg"; }
  lemma CoordinatorRow17Unique() ensures NameUniqueFrom(COORDINATOR_METRICS, 17) { assert COORDINATOR_METRICS[17].meterName == "rebalance-latency-max"; }
  lemma CoordinatorRow18Unique() ensures NameUniqueFrom(COORDINATOR_METRICS, 18) { assert COORDINATOR_METRICS[18].meterName == "rebalance-latency-total"; }
  lemma CoordinatorRow19Unique() ensures NameUniqueFrom(COORDINATOR_METRICS, 19) { assert COORDINATOR_METRICS[19].meterName == "rebalance-total"; }
  lemma CoordinatorRow20Unique() ensures NameUniqueFrom(COORDINATOR_METRICS, 20) { assert COORDINATOR_METRICS[20].meterName == "rebalance-rate-per-hour"; }
  lemma CoordinatorRow21Unique() ensures NameUniqueFrom(COORDINATOR_METRICS, 21) { assert COORDINATOR_METRICS[21].meterName == "failed-rebalance-total"; }
  lemma CoordinatorRow22Unique() ensures NameUniqueFrom(COORDINATOR_METRICS, 22) { assert COORDINATOR_METRICS[22].meterName == "failed-rebalance-rate-per-hour"; }
  lemma CoordinatorRow23Unique() ensures NameUniqueFrom(COORDINATOR_METRICS, 23) { assert COORDINATOR_METRICS[23].meterName == "last-rebalance-ago"; }
  lemma CoordinatorRow24Unique() ensures NameUniqueFrom(COORDINATOR_METRICS, 24) { assert COORDINATOR_METRICS[24].meterName == "last-heartbeat-ago"; }
  lemma CoordinatorRow25Unique() ensures NameUniqueFrom(COORDINATOR_METRICS, 25) { assert COORDINATOR_METRICS[25].meterName == "partitions-revoked-latency-avg"; }
  lemma CoordinatorRow26Unique() ensures NameUniqueFrom(COORDINATOR_METRICS, 26) { assert COORDINATOR_METRICS[26].meterName == "partitions-revoked-latency-max"; }
  lemma CoordinatorRow27Unique() ensures NameUniqueFrom(COORDINATOR_METRICS, 27) { assert COORDINATOR_METRICS[27].meterName == "partitions-assigned-latency-avg"; }
  lemma CoordinatorRow28Unique() ensures NameUniqueFrom(COORDINATOR_METRICS, 28) { assert COORDINATOR_METRICS[28].meterName == "partitions-assigned-latency-max"; }
  lemma CoordinatorRow29Unique() ensures NameUniqueFrom(COORDINATOR_METRICS, 29) { assert COORDINATOR_METRICS[29].meterName == "partitions-lost-latency-avg"; }

  lemma CoordinatorRowUnique(i: nat)
    requires i < |COORDINATOR_METRICS|
    ensures NameUniqueFrom(COORDINATOR_METRICS, i)
  {
    if i == 0 { CoordinatorRow0Unique();
    } else if i == 1 { CoordinatorRow1Unique();
    } else if i == 2 { CoordinatorRow2Unique();
    } else if i == 3 { CoordinatorRow3Unique();
    } else if i == 4 { CoordinatorRow4Unique();
    } else if i == 5 { CoordinatorRow5Unique();
    } else if i == 6 { CoordinatorRow6Unique();
    } else if i == 7 { CoordinatorRow7Unique();
    } else if i == 8 { CoordinatorRow8Unique();
    } else if i == 9 { CoordinatorRow9Unique();
    } else if i == 10 { CoordinatorRow10Unique();
    } else if i == 11 { CoordinatorRow11Unique();
    } else if i == 12 { CoordinatorRow12Unique();
    } else if i == 13 { CoordinatorRow13Unique();
    } else if i == 14 { CoordinatorRow14Unique();
    } else if i == 15 { CoordinatorRow15Unique();
    } else if i == 16 { CoordinatorRow16Unique();
    } else if i == 17 { CoordinatorRow17Unique();
    } else if i == 18 { CoordinatorRow18Unique();
    } else if i == 19 { CoordinatorRow19Unique();
    } else if i == 20 { CoordinatorRow20Unique();
    } else if i == 21 { CoordinatorRow21Unique();
    } else if i == 22 { CoordinatorRow22Unique();
    } else if i == 23 { CoordinatorRow23Unique();
    } else if i == 24 { CoordinatorRow24Unique();
    } else if i == 25 { CoordinatorRow25Unique();
    } else if i == 26 { CoordinatorRow26Unique();
    } else if i == 27 { CoordinatorRow27Unique();
    } else if i == 28 { CoordinatorRow28Unique();
    } else if i == 29 { CoordinatorRow29Unique();
    }
  }

  lemma SenderRow0Unique() ensures NameUniqueFrom(SENDER_METRICS, 0) { assert SENDER_METRICS[0].meterName == "batch-size-avg"; }
  lemma SenderRow1Unique() ensures NameUniqueFrom(SENDER_METRICS, 1) { assert SENDER_METRICS[1].meterName == "batch-size-max"; }
  lemma SenderRow2Unique() ensures NameUniqueFrom(SENDER_METRICS, 2) { assert SENDER_METRICS[2].meterName == "batch-split-rate"; }
  lemma SenderRow3Unique() ensures NameUniqueFrom(SENDER_METRICS, 3) { assert SENDER_METRICS[3].meterName == "batch-split-total"; }
  lemma SenderRow4Unique() ensures NameUniqueFrom(SENDER_METRICS, 4) { assert SENDER_METRICS[4].meterName == "compression-rate-avg"; }
  lemma SenderRow5Unique() ensures NameUniqueFrom(SENDER_METRICS, 5) { assert SENDER_METRICS[5].meterName == "metadata-age"; }
  lemma SenderRow6Unique() ensures NameUniqueFrom(SENDER_METRICS, 6) { assert SENDER_METRICS[6].meterName == "produce-throttle-time-avg"; }
  lemma SenderRow7Unique() ensures NameUniqueFrom(SENDER_METRICS, 7) { assert SENDER_METRICS[7].meterName == "produce-throttle-time-max"; }
  lemma SenderRow8Unique() ensures NameUniqueFrom(SENDER_METRICS, 8) { assert SENDER_METRICS[8].meterName == "record-queue-time-avg"; }
  lemma SenderRow9Unique() ensures NameUniqueFrom(SENDER_METRICS, 9) { assert SENDER_METRICS[9].meterName == "record-queue-time-max"; }
  lemma SenderRow10Unique() ensures NameUniqueFrom(SENDER_METRICS, 10) { assert SENDER_METRICS[10].meterName == "record-size-avg"; }
  lemma SenderRow11Unique() ensures NameUniqueFrom(SENDER_METRICS, 11) { assert SENDER_METRICS[11].meterName == "record-size-max"; }
  lemma SenderRow12Unique() ensures NameUniqueFrom(SENDER_METRICS, 12) { assert SENDER_METRICS[12].meterName == "records-per-request-avg"; }
  lemma SenderRow13Unique() ensures NameUniqueFrom(SENDER_METRICS, 13) { assert SENDER_METRICS[13].meterName == "request-latency-avg"; }
  lemma SenderRow14Unique() ensures NameUniqueFrom(SENDER_METRICS, 14) { assert SENDER_METRICS[14].meterName == "request-latency-max"; }

  lemma SenderRowUnique(i: nat)
    requires i < |SENDER_METRICS|
    ensures NameUniqueFrom(SENDER_METRICS, i)
  {
    if i == 0 { SenderRow0Unique();
    } else if i == 1 { SenderRow1Unique();
    } else if i == 2 { SenderRow2Unique();
    } else if i == 3 { SenderRow3Unique();
    } else if i == 4 { SenderRow4Unique();
    } else if i == 5 { SenderRow5Unique();
    } else if i == 6 { SenderRow6Unique();
    } else if i == 7 { SenderRow7Unique();
    } else if i == 8 { SenderRow8Unique();
    } else if i == 9 { SenderRow9Unique();
    } else if i == 10 { SenderRow10Unique();
    } else if i == 11 { SenderRow11Unique();
    } else if i == 12 { SenderRow12Unique();
    } else if i == 13 { SenderRow13Unique();
    } else if i == 14 { SenderRow14Unique();
    }
  }
  lemma CommonMetricsDistinct()
    ensures DistinctNames(COMMON_METRICS)
  {
    forall i | 0 <= i < |COMMON_METRICS| ensures NameUniqueFrom(COMMON_METRICS, i) {
      CommonRowUnique(i);
    }
    UniqueFromEveryRow(COMMON_METRICS);
  }

  lemma CoordinatorMetricsDistinct()
    ensures DistinctNames(COORDINATOR_METRICS)
  {
    forall i | 0 <= i < |COORDINATOR_METRICS| ensures NameUniqueFrom(COORDINATOR_METRICS, i) {
      CoordinatorRowUnique(i);
    }
    UniqueFromEveryRow(COORDINATOR_METRICS);
  }

  lemma SenderMetricsDistinct()
    ensures DistinctNames(SENDER_METRICS)
  {
    forall i | 0 <= i < |SENDER_METRICS| ensures NameUniqueFrom(SENDER_METRICS, i) {
      SenderRowUnique(i);
    }
    UniqueFromEveryRow(SENDER_METRICS);
  }

  // The consumer, producer and per-topic sender tables are short enough to
  // compare whole.

  lemma ConsumerMetricsDistinct()
    ensures DistinctNames(CONSUMER_METRICS)
  {
  }

  lemma ProducerMetricsDistinct()
    ensures DistinctNames(PRODUCER_METRICS)
  {
  }

  lemma PerTopicSenderMetricsDistinct()
    ensures DistinctNames(PER_TOPIC_SENDER_METRICS)
  {
  }

  /** Every table of the two Kafka binders declares distinct meter names: the
      rows of any binding method of a catalog, whatever the tags. */
  lemma TablesDistinct(catalog: Catalog, tags: seq<Tag>)
    ensures DistinctNames(CatalogRows(catalog, tags))
  {
    match catalog
    case CommonMetrics => CommonMetricsDistinct();
    case CoordinatorMetrics => CoordinatorMetricsDistinct();
    case SenderMetrics => SenderMetricsDistinct();
    case FetchManagerMetrics => FetchTableDistinct(FetchTierOf(tags));
    case ConsumerMetrics => ConsumerMetricsDistinct();
    case ProducerMetrics => ProducerMetricsDistinct();
    case PerTopicSenderMetrics => PerTopicSenderMetricsDistinct();
  }

  /** Binding one Kafka MBean with a catalog's method: nothing throws, and each
      row whose prefixed name is new under the context's tags becomes a meter
      of the row's kind reading the row's attribute of that MBean. */
  lemma CatalogBindsRow(view: map<MeterId, MeterInfo>, presetTags: seq<Tag>, obj: ObjectName,
                        prefix: string, catalog: Catalog, i: nat)
    requires var rows := CatalogRows(catalog, Concat(presetTags, ExtractTagsFromObjectName(obj)));
      i < |rows|
      && MeterId(prefix + rows[i].meterName, Concat(presetTags, ExtractTagsFromObjectName(obj))) !in view
    ensures var tags := Concat(presetTags, ExtractTagsFromObjectName(obj));
      var row := CatalogRows(catalog, tags)[i];
      var out := BindOutcome(view, presetTags, ExtractTagsFromObjectName, CatalogCallback(prefix, catalog), obj);
      !out.failed && MeterId(prefix + row.meterName, tags) in out.view
      && out.view[MeterId(prefix + row.meterName, tags)] == MeterInfo(row.kind, row.description, obj, row.attrName)
  {
    var tags := Concat(presetTags, ExtractTagsFromObjectName(obj));
    var rows := CatalogRows(catalog, tags);
    var ds := WithPrefix(prefix, rows);
    assert DistinctNames(rows) by { TablesDistinct(catalog, tags); }
    WithPrefixKeepsDistinct(prefix, rows);
    assert CatalogCallback(prefix, catalog)(obj, tags) == Invocation(ds, false);
    DeclaredMeter(view, obj, tags, ds, i);
  }

  /** A fetch-manager MBean gets the meters of the tier its merged tags select
      (FetchTierOfMBean says which), each registered as its row declares. */
  lemma FetchMBeanMeters(view: map<MeterId, MeterInfo>, presetTags: seq<Tag>, obj: ObjectName, prefix: string, i: nat)
    requires var tags := Concat(presetTags, ExtractTagsFromObjectName(obj));
      var rows := FetchTable(FetchTierOf(tags));
      i < |rows| && MeterId(prefix + rows[i].meterName, tags) !in view
    ensures var tags := Concat(presetTags, ExtractTagsFromObjectName(obj));
      var row := FetchTable(FetchTierOf(tags))[i];
      var out := BindOutcome(view, presetTags, ExtractTagsFromObjectName, CatalogCallback(prefix, FetchManagerMetrics), obj);
      !out.failed && MeterId(prefix + row.meterName, tags) in out.view
      && out.view[MeterId(prefix + row.meterName, tags)] == MeterInfo(row.kind, row.description, obj, row.attrName)
  {
    var tags := Concat(presetTags, ExtractTagsFromObjectName(obj));
    FetchTableDistinct(FetchTierOf(tags));
    assert CatalogRows(FetchManagerMetrics, tags) == FetchTable(FetchTierOf(tags));
    CatalogBindsRow(view, presetTags, obj, prefix, FetchManagerMetrics, i);
  }

  // ===========================================================================
  // The two binders
  // ===========================================================================

  /** After the first `k` registrations, visiting `orders`: the listeners and
      cleanup entries they subscribed, and what their scans did to the
      registry. */
  ghost predicate Progress(binder: JmxMeterBinder, registry: MeterRegistry, regs: seq<Registration>,
                           l0: seq<Listener>, c0: seq<nat>, n0: nat, v0: map<MeterId, MeterInfo>,
                           k: nat, orders: seq<seq<ObjectName>>)
    reads binder, binder.server, registry
  {
    k <= |regs| && |orders| <= |regs|
    && binder.server.listeners == l0 + Subscriptions(n0, binder, registry, regs[..k])
    && binder.cleanup == c0 + IdRange(n0, k)
    && binder.server.nextListenerId == n0 + k
    && registry.View() == ScanAll(v0, binder.tags, binder.tagger, regs, orders)
  }

  /** The i-th scan of `orders` visited the MBeans of `mbeans` that the i-th
      registration's pattern matches. */
  ghost predicate ScansOf(binder: JmxMeterBinder, mbeans: set<ObjectName>, regs: seq<Registration>, orders: seq<seq<ObjectName>>)
    requires |orders| <= |regs|
  {
    forall i :: 0 <= i < |orders| ==>
      ScansMatching(mbeans, NamePattern(binder.jmxDomain, regs[i].mbeanType), binder.PatternParses(regs[i].mbeanType), orders[i])
  }

  /** The index of the first registration of `regs`, from `k` on, whose
      bindMetricsForMBeanType call does not subscribe (`|regs|` when all do):
      how many of the calls from `k` on succeed before one fails. */
  ghost function Subscribing(binder: JmxMeterBinder, regs: seq<Registration>, k: nat): (n: nat)
    requires k <= |regs|
    ensures k <= n <= |regs|
    decreases |regs| - k
  {
    if k == |regs| || !binder.Subscribes(regs[k].mbeanType) then k else Subscribing(binder, regs, k + 1)
  }

  /** Every registration before Subscribing(binder, regs, 0) subscribes, and
      the one at that index, if any, does not. */
  lemma {:induction false} SubscribingIsFirstFailure(binder: JmxMeterBinder, regs: seq<Registration>, k: nat)
    requires k <= |regs|
    ensures forall i :: k <= i < Subscribing(binder, regs, k) ==> binder.Subscribes(regs[i].mbeanType)
    ensures Subscribing(binder, regs, k) < |regs| ==> !binder.Subscribes(regs[Subscribing(binder, regs, k)].mbeanType)
    decreases |regs| - k
  {
    if k < |regs| && binder.Subscribes(regs[k].mbeanType) {
      SubscribingIsFirstFailure(binder, regs, k + 1);
    }
  }

  /** One more scan that visited the MBeans of its registration's type. */
  lemma ScansOfStep(binder: JmxMeterBinder, mbeans: set<ObjectName>, regs: seq<Registration>,
                    orders: seq<seq<ObjectName>>, order: seq<ObjectName>)
    requires |orders| < |regs| && ScansOf(binder, mbeans, regs, orders)
    requires var t := regs[|orders|].mbeanType;
      ScansMatching(mbeans, NamePattern(binder.jmxDomain, t), binder.PatternParses(t), order)
    ensures ScansOf(binder, mbeans, regs, orders + [order])
  {
    var orders' := orders + [order];
    forall i | 0 <= i < |orders'|
      ensures ScansMatching(mbeans, NamePattern(binder.jmxDomain, regs[i].mbeanType), binder.PatternParses(regs[i].mbeanType), orders'[i])
    {
      if i < |orders| {
        assert orders'[i] == orders[i];
      }
    }
  }

  /** The body of both bindTo methods: the four bindMetricsForMBeanType calls
      of `regs`, in order. The first one that fails ends bindTo (its exception
      propagates), so exactly `issued` of them subscribed a listener: those
      before the first type whose pattern does not parse, or all four when the
      server has its delegate and every pattern parses. The i-th call visits
      the existing MBeans of its type, in the order `orders[i]`, and the
      registry is what those scans made of it. */
  method BindRegistrations(binder: JmxMeterBinder, registry: MeterRegistry, regs: seq<Registration>)
    returns (r: Outcome, ghost issued: nat, ghost orders: seq<seq<ObjectName>>)
    requires |regs| == 4
    requires forall k, obj, tags :: 0 <= k < |regs| ==> !regs[k].callback(obj, tags).fails
    requires binder.server.Valid() && registry.Valid() && binder.Owns()
    modifies binder, binder.server, registry
    ensures binder.server.Valid() && registry.Valid() && binder.Owns()
    ensures binder.server.mbeans == old(binder.server.mbeans)
    ensures r != CallbackError
    ensures issued <= 4 && (r == Ok <==> issued == 4)
    ensures issued == Subscribing(binder, regs, 0)
    ensures |orders| == (if r == Ok then issued else issued + 1)
    ensures ScansOf(binder, old(binder.server.mbeans.Keys), regs, orders)
    ensures registry.View() == ScanAll(old(registry.View()), binder.tags, binder.tagger, regs, orders)
    ensures binder.server.listeners
         == old(binder.server.listeners) + Subscriptions(old(binder.server.nextListenerId), binder, registry, regs[..issued])
    ensures binder.cleanup == old(binder.cleanup) + IdRange(old(binder.server.nextListenerId), issued)
    ensures binder.server.nextListenerId == old(binder.server.nextListenerId) + issued
  {
    ghost var l0, c0, n0, v0, m0 := binder.server.listeners, binder.cleanup, binder.server.nextListenerId, registry.View(), binder.server.mbeans.Keys;
    ghost var order: seq<ObjectName>;
    assert regs[..0] == [];
    issued, orders := 0, [];
    r, order := Issue(binder, registry, regs, 0, l0, c0, n0, v0, m0, orders);
    orders := orders + [order];
    if r == Ok {
      issued := 1;
      r, order := Issue(binder, registry, regs, 1, l0, c0, n0, v0, m0, orders);
      orders := orders + [order];
      if r == Ok {
        issued := 2;
        r, order := Issue(binder, registry, regs, 2, l0, c0, n0, v0, m0, orders);
        orders := orders + [order];
        if r == Ok {
          issued := 3;
          r, order := Issue(binder, registry, regs, 3, l0, c0, n0, v0, m0, orders);
          orders := orders + [order];
          if r == Ok {
            issued := 4;
          }
        }
      }
    }
    assert Progress(binder, registry, regs, l0, c0, n0, v0, issued, orders);
  }

  /** One bindMetricsForMBeanType call, for the k-th registration: it visits
      the existing MBeans of its type, and a success subscribes one more
      listener. */
  method Issue(binder: JmxMeterBinder, registry: MeterRegistry, regs: seq<Registration>, k: nat,
               ghost l0: seq<Listener>, ghost c0: seq<nat>, ghost n0: nat,
               ghost v0: map<MeterId, MeterInfo>, ghost m0: set<ObjectName>, ghost orders: seq<seq<ObjectName>>)
    returns (r: Outcome, ghost order: seq<ObjectName>)
    requires k < |regs| && |orders| == k
    requires forall obj, tags :: !regs[k].callback(obj, tags).fails
    requires binder.server.Valid() && registry.Valid() && binder.Owns()
    requires Progress(binder, registry, regs, l0, c0, n0, v0, k, orders)
    requires binder.server.mbeans.Keys == m0 && ScansOf(binder, m0, regs, orders)
    requires Subscribing(binder, regs, 0) == Subscribing(binder, regs, k)
    modifies binder, binder.server, registry
    ensures binder.server.Valid() && registry.Valid() && binder.Owns()
    ensures r != CallbackError
    ensures r == Ok <==> binder.Subscribes(regs[k].mbeanType)
    ensures r == Ok ==> Subscribing(binder, regs, 0) == Subscribing(binder, regs, k + 1)
    ensures r != Ok ==> Subscribing(binder, regs, 0) == k
    ensures binder.server.mbeans == old(binder.server.mbeans)
    ensures ScansOf(binder, m0, regs, orders + [order])
    ensures r == Ok ==> Progress(binder, registry, regs, l0, c0, n0, v0, k + 1, orders + [order])
    ensures r != Ok ==> Progress(binder, registry, regs, l0, c0, n0, v0, k, orders + [order])
  {
    ghost var listeners, cleanup, id := binder.server.listeners, binder.cleanup, binder.server.nextListenerId;
    ghost var before := registry.View();
    r, order := binder.BindMetricsForMBeanType(registry, regs[k].mbeanType, regs[k].callback);
    ScanAllStep(v0, binder.tags, binder.tagger, regs, orders, order);
    ScanNeverFails(before, binder.tags, binder.tagger, regs[k].callback, order);
    ScansOfStep(binder, m0, regs, orders, order);
    if r == Ok {
      SubscribedOneMore(l0, c0, n0, binder, registry, regs, k, listeners, cleanup, id, binder.server.listeners, binder.cleanup);
    }
  }

  /** KafkaConsumerMetrics: a meter binder for the MBeans of a Kafka consumer. */
  class KafkaConsumerMetrics {
    const binder: JmxMeterBinder
    const meterNamePrefix: string

    /** The binder watches the consumer domain and tags meters with the
        preset tags merged with ExtractTagsFromObjectName. */
    constructor (tags: seq<Tag>, meterNamePrefix: string, server: MBeanServer)
      ensures fresh(binder) && binder.cleanup == [] && binder.Owns()
      ensures binder.jmxDomain == CONSUMER_DOMAIN && binder.tagger == ExtractTagsFromObjectName
      ensures binder.tags == tags && binder.server == server
      ensures this.meterNamePrefix == meterNamePrefix
    {
      binder := new JmxMeterBinder(CONSUMER_DOMAIN, ExtractTagsFromObjectName, tags, server);
      this.meterNamePrefix := meterNamePrefix;
    }

    /** The same, with the default prefix. */
    constructor WithDefaultPrefix(tags: seq<Tag>, server: MBeanServer)
      ensures fresh(binder) && binder.cleanup == [] && binder.Owns()
      ensures binder.jmxDomain == CONSUMER_DOMAIN && binder.tagger == ExtractTagsFromObjectName
      ensures binder.tags == tags && binder.server == server
      ensures meterNamePrefix == CONSUMER_DEFAULT_PREFIX
    {
      binder := new JmxMeterBinder(CONSUMER_DOMAIN, ExtractTagsFromObjectName, tags, server);
      meterNamePrefix := CONSUMER_DEFAULT_PREFIX;
    }

    /** bindTo: the four registrations of ConsumerRegistrations, in order. */
    method BindTo(registry: MeterRegistry) returns (r: Outcome, ghost issued: nat, ghost orders: seq<seq<ObjectName>>)
      requires binder.server.Valid() && registry.Valid() && binder.Owns()
      modifies binder, binder.server, registry
      ensures binder.server.Valid() && registry.Valid() && binder.Owns()
      ensures binder.server.mbeans == old(binder.server.mbeans)
      ensures r != CallbackError
      ensures issued <= 4 && (r == Ok <==> issued == 4)
      ensures issued == Subscribing(binder, ConsumerRegistrations(meterNamePrefix), 0)
      ensures r == Ok <==> forall i :: 0 <= i < 4 ==> binder.Subscribes(ConsumerRegistrations(meterNamePrefix)[i].mbeanType)
      ensures |orders| == (if r == Ok then issued else issued + 1)
      ensures ScansOf(binder, old(binder.server.mbeans.Keys), ConsumerRegistrations(meterNamePrefix), orders)
      ensures registry.View() == ScanAll(old(registry.View()), binder.tags, binder.tagger, ConsumerRegistrations(meterNamePrefix), orders)
      ensures binder.server.listeners
           == old(binder.server.listeners)
              + Subscriptions(old(binder.server.nextListenerId), binder, registry, ConsumerRegistrations(meterNamePrefix)[..issued])
      ensures binder.cleanup == old(binder.cleanup) + IdRange(old(binder.server.nextListenerId), issued)
      ensures binder.server.nextListenerId == old(binder.server.nextListenerId) + issued
    {
      ConsumerRegistrationsNeverThrow(meterNamePrefix);
      r, issued, orders := BindRegistrations(binder, registry, ConsumerRegistrations(meterNamePrefix));
      SubscribingIsFirstFailure(binder, ConsumerRegistrations(meterNamePrefix), 0);
    }

    /** AbstractKafkaMetrics.close: runs the binder's cleanup. */
    method Close()
      requires binder.server.Valid() && binder.Owns()
      modifies binder.server
      ensures binder.server.Valid() && binder.Owns()
      ensures binder.server.listeners == WithoutIds(old(binder.server.listeners), binder.cleanup)
      ensures forall i :: 0 <= i < |binder.server.listeners| ==> binder.server.listeners[i].id !in binder.cleanup
      ensures forall l :: l in binder.server.listeners ==> l.binder != binder
      ensures binder.server.mbeans == old(binder.server.mbeans)
      ensures binder.server.nextListenerId == old(binder.server.nextListenerId)
    {
      binder.Close();
    }
  }

  /** KafkaProducerMetrics: a meter binder for the MBeans of a Kafka producer. */
  class KafkaProducerMetrics {
    const binder: JmxMeterBinder
    const meterNamePrefix: string

    /** The binder watches the producer domain and tags meters with the
        preset tags merged with ExtractTagsFromObjectName. */
    constructor (tags: seq<Tag>, meterNamePrefix: string, server: MBeanServer)
      ensures fresh(binder) && binder.cleanup == [] && binder.Owns()
      ensures binder.jmxDomain == PRODUCER_DOMAIN && binder.tagger == ExtractTagsFromObjectName
      ensures binder.tags == tags && binder.server == server
      ensures this.meterNamePrefix == meterNamePrefix
    {
      binder := new JmxMeterBinder(PRODUCER_DOMAIN, ExtractTagsFromObjectName, tags, server);
      this.meterNamePrefix := meterNamePrefix;
    }

    /** The same, with the default prefix. */
    constructor WithDefaultPrefix(tags: seq<Tag>, server: MBeanServer)
      ensures fresh(binder) && binder.cleanup == [] && binder.Owns()
      ensures binder.jmxDomain == PRODUCER_DOMAIN && binder.tagger == ExtractTagsFromObjectName
      ensures binder.tags == tags && binder.server == server
      ensures meterNamePrefix == PRODUCER_DEFAULT_PREFIX
    {
      binder := new JmxMeterBinder(PRODUCER_DOMAIN, ExtractTagsFromObjectName, tags, server);
      meterNamePrefix := PRODUCER_DEFAULT_PREFIX;
    }

    /** bindTo: the four registrations of ProducerRegistrations, in order. */
    method BindTo(registry: MeterRegistry) returns (r: Outcome, ghost issued: nat, ghost orders: seq<seq<ObjectName>>)
      requires binder.server.Valid() && registry.Valid() && binder.Owns()
      modifies binder, binder.server, registry
      ensures binder.server.Valid() && registry.Valid() && binder.Owns()
      ensures binder.server.mbeans == old(binder.server.mbeans)
      ensures r != CallbackError
      ensures issued <= 4 && (r == Ok <==> issued == 4)
      ensures issued == Subscribing(binder, ProducerRegistrations(meterNamePrefix), 0)
      ensures r == Ok <==> forall i :: 0 <= i < 4 ==> binder.Subscribes(ProducerRegistrations(meterNamePrefix)[i].mbeanType)
      ensures |orders| == (if r == Ok then issued else issued + 1)
      ensures ScansOf(binder, old(binder.server.mbeans.Keys), ProducerRegistrations(meterNamePrefix), orders)
      ensures registry.View() == ScanAll(old(registry.View()), binder.tags, binder.tagger, ProducerRegistrations(meterNamePrefix), orders)
      ensures binder.server.listeners
           == old(binder.server.listeners)
              + Subscriptions(old(binder.server.nextListenerId), binder, registry, ProducerRegistrations(meterNamePrefix)[..issued])
      ensures binder.cleanup == old(binder.cleanup) + IdRange(old(binder.server.nextListenerId), issued)
      ensures binder.server.nextListenerId == old(binder.server.nextListenerId) + issued
    {
      ProducerRegistrationsNeverThrow(meterNamePrefix);
      r, issued, orders := BindRegistrations(binder, registry, ProducerRegistrations(meterNamePrefix));
      SubscribingIsFirstFailure(binder, ProducerRegistrations(meterNamePrefix), 0);
    }

    /** AbstractKafkaMetrics.close: runs the binder's cleanup. */
    method Close()
      requires binder.server.Valid() && binder.Owns()
      modifies binder.server
      ensures binder.server.Valid() && binder.Owns()
      ensures binder.server.listeners == WithoutIds(old(binder.server.listeners), binder.cleanup)
      ensures forall i :: 0 <= i < |binder.server.listeners| ==> binder.server.listeners[i].id !in binder.cleanup
      ensures forall l :: l in binder.server.listeners ==> l.binder != binder
      ensures binder.server.mbeans == old(binder.server.mbeans)
      ensures binder.server.nextListenerId == old(binder.server.nextListenerId)
    {
      binder.Close();
    }
  }
}
