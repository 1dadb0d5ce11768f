# micrometer-binder-jmx in Dafny

A model of the binding core of micrometer-binder-jmx. The library turns the
attributes of JMX MBeans into Micrometer meters. The model covers:

- `Tags` (tags.dfy): Micrometer tags, `TagsUtil.hasKeys` / `getKeys`, and
  `Tags.concat` as a key-sorted merge.
- `Jmx` (jmx.dfy): the binding engine.
  - The MBean server is a directory of object names with their attributes and
    the listeners registered on its delegate.
  - The meter registry is a map from meter id (name and tags) to meter.
  - `BindingContext` registers meters whose accessors unbind themselves when
    their attribute cannot be read.
  - `JmxMeterBinder` binds the MBeans of one type that exist now, subscribes
    to those registered later, and removes its subscriptions on close.
- `Kafka` (kafka.dfy): the tags extracted from a Kafka client MBean name, the
  consumer and producer meter catalogs (one row per `ctx.bind*` call, in
  order), the fetch-manager tier selection, and the two Kafka binders.
- `Threading` (threading.dfy): the `java.lang:type=Threading` binder.

The stateful parts are classes:

- `MBeanServer`, `MeterRegistry`, `HandleCell`, `BindingContext` and
  `JmxMeterBinder`;
- the three binders `KafkaConsumerMetrics`, `KafkaProducerMetrics` and
  `ThreadingMetrics`.

Each method is proved against a function that specifies it:

- `Declared` gives the registry after a callback's binds.
- `BindOutcome` gives the result of binding one MBean.
- `Scan` gives the result of binding the existing MBeans in the order they
  were visited.
- `ScanAll` gives the result of several registrations.
- `Enabled` and `Delivered` describe a notification's delivery.
- `WithoutIds` describes the listeners that remain after removal.

A binding callback is a function value. Given the context's name and tags, it
returns the binds it performs and whether it then throws. A tags extractor is
a function from object name to tags.

The accessor's `catch` (BindingContext.java:65) covers `ClassCastException`
and `JMException`. So an attribute value that is not a `Number`, or an MBean or
attribute that is missing, removes the meter and yields NaN. A null value,
whose unboxing throws NullPointerException, and a getter's runtime exception,
which arrives as RuntimeMBeanException, are not caught. They escape the
accessor and the meter stays; the model calls such a read `Uncaught`.

## Model

| member | source | states |
|---|---|---|
| Tags.GetKeys | src/main/java/com/github/sukhinin/micrometer/jmx/TagsUtil.java:17-19 | the keys have the length of the tags and the i-th key is the i-th tag's key |
| Tags.AnyKeyEqualsIff | src/main/java/com/github/sukhinin/micrometer/jmx/TagsUtil.java:13 | the inner anyMatch holds exactly when the name is among getKeys |
| Tags.HasKeysIff | src/main/java/com/github/sukhinin/micrometer/jmx/TagsUtil.java:11-15 | hasKeys holds iff every requested key is among getKeys (so it holds for no keys and fails when a key is absent) |
| Tags.HasKeysDependsOnKeySetOnly | src/main/java/com/github/sukhinin/micrometer/jmx/TagsUtil.java:11-15 | the order and repetition of the requested keys do not change hasKeys |
| Tags.GetKeysSpansKeySet | src/main/java/com/github/sukhinin/micrometer/jmx/TagsUtil.java:17-19 | getKeys lists exactly the keys the tags carry |
| Tags.Concat | src/main/java/com/github/sukhinin/micrometer/jmx/JmxMeterBinder.java:81 | the merged tags are sorted by key, their key set is the union of both key sets, and every merged tag comes from an input |
| Tags.ConcatKeepsDistinctTags | src/main/java/com/github/sukhinin/micrometer/jmx/JmxMeterBinder.java:81 | without key collisions the merge holds exactly the tags of both inputs |
| Tags.ConcatSymmetric | src/test/java/com/github/sukhinin/micrometer/jmx/JmxMeterBinderTest.java:49 | without key collisions concat(preset, extracted) equals concat(extracted, preset), so the test's reversed order is the same merge |
| Tags.ConcatIsSortedUnion | src/test/java/com/github/sukhinin/micrometer/jmx/kafka/KafkaConsumerMetricsTest.java:57 | without key collisions concat is the one key-sorted arrangement of the tags of both inputs |
| Jmx.GetKeyProperty | src/main/java/com/github/sukhinin/micrometer/jmx/JmxMeterBinder.java:67 | a key property is found exactly when the name has it, with its value |
| Jmx.Registered | src/main/java/com/github/sukhinin/micrometer/jmx/BindingContext.java:41-42 | registering adds the id and keeps every other meter; a new id gets the declared meter, an existing id keeps its meter |
| Jmx.HandleCell.Set | src/main/java/com/github/sukhinin/micrometer/jmx/BindingContext.java:43 | the handle cell, empty before, holds the registered meter |
| Jmx.MeterRegistry.Register | src/main/java/com/github/sukhinin/micrometer/jmx/BindingContext.java:41-42 | register-or-get: the handle is the id, and an existing meter under the id stays |
| Jmx.MeterRegistry.Remove | src/main/java/com/github/sukhinin/micrometer/jmx/BindingContext.java:66 | only the meter with that handle disappears |
| Jmx.MeterRegistry.Poll | src/main/java/com/github/sukhinin/micrometer/jmx/BindingContext.java:40 | a read of a meter reports a numeric attribute's value and changes nothing; an uncaught exception escapes and changes nothing; otherwise it reports NaN and exactly that meter is gone |
| Jmx.DeclaredKeys | src/main/java/com/github/sukhinin/micrometer/jmx/BindingContext.java:38-60 | a callback's binds add exactly one meter id per declaration, all with the context's tags, and keep the meters already there |
| Jmx.DeclaredMeter | src/main/java/com/github/sukhinin/micrometer/jmx/BindingContext.java:38-60 | a declaration with a new meter name is registered with its kind, description, object name and attribute |
| Jmx.ScanNeverFails | src/main/java/com/github/sukhinin/micrometer/jmx/JmxMeterBinder.java:52-54 | a callback that never throws never stops the scan of existing MBeans |
| Jmx.EveryNameHasPrefix | src/main/java/com/github/sukhinin/micrometer/jmx/kafka/KafkaConsumerMetrics.java:50-128 | every declared meter name is the prefix followed by the row's name, with the row's kind and attribute |
| Jmx.WithPrefixKeepsDistinct | src/main/java/com/github/sukhinin/micrometer/jmx/kafka/AbstractKafkaMetrics.java:32-65 | distinct row names stay distinct with the prefix |
| Jmx.WithPrefix | src/main/java/com/github/sukhinin/micrometer/jmx/kafka/KafkaConsumerMetrics.java:50-54 | the declarations keep their number and order, and the i-th is the i-th row with `meterNamePrefix` put before its meter name |
| Jmx.FilterAgreesWithQuery | src/main/java/com/github/sukhinin/micrometer/jmx/JmxMeterBinder.java:62-68 | the filter enables a registration iff the query pattern `domain:type=T,*` matches the name, and never enables an unregistration |
| Jmx.UnregistrationReachesNobody | src/main/java/com/github/sukhinin/micrometer/jmx/JmxMeterBinder.java:63-65 | an unregistration notification is delivered to no listener and changes no registry |
| Jmx.IsNotificationEnabled | src/main/java/com/github/sukhinin/micrometer/jmx/JmxMeterBinder.java:62-68 | the NotificationFilter: a registration notification for the binder's domain whose `type` property is the listener's type; Jmx.FilterAgreesWithQuery proves it equal to the query-pattern match |
| Jmx.ThrowsAt | src/main/java/com/github/sukhinin/micrometer/jmx/JmxMeterBinder.java:79-86 | a reached listener's handler throws exactly when bindMetersForMBean fails on its registry as left by the earlier deliveries |
| Jmx.Failures | src/main/java/com/github/sukhinin/micrometer/jmx/JmxMeterBinder.java:58-61 | the ids, in listener order, of the listeners whose handler throws during one delivery |
| Jmx.FailuresStep | src/main/java/com/github/sukhinin/micrometer/jmx/JmxMeterBinder.java:58-61 | one more listener adds its id exactly when its handler throws |
| Jmx.FailuresFromListeners | src/main/java/com/github/sukhinin/micrometer/jmx/JmxMeterBinder.java:58-61 | only ids of the listeners delivered to are reported |
| Jmx.FailuresIff | src/main/java/com/github/sukhinin/micrometer/jmx/JmxMeterBinder.java:58-61 | with distinct ids, a listener's id is among the failures exactly when its handler throws |
| Jmx.WithoutIdsMembers | src/main/java/com/github/sukhinin/micrometer/jmx/JmxMeterBinder.java:72 | after removal no listed id is left and every unlisted listener is kept |
| Jmx.WithoutIdsTwice | src/main/java/com/github/sukhinin/micrometer/jmx/JmxMeterBinder.java:90-92 | removing two id lists one after the other removes their union |
| Jmx.WithoutIdsIdempotent | src/main/java/com/github/sukhinin/micrometer/jmx/JmxMeterBinder.java:71-75 | a second removal of the same ids removes nothing, so a second close changes nothing |
| Jmx.MBeanServer.GetAttribute | src/main/java/com/github/sukhinin/micrometer/jmx/BindingContext.java:64 | a missing MBean or attribute reads as Missing, otherwise the stored attribute |
| Jmx.MBeanServer.QueryNames | src/main/java/com/github/sukhinin/micrometer/jmx/JmxMeterBinder.java:51 | the names returned are exactly the registered names the pattern matches |
| Jmx.MBeanServer.AddNotificationListener | src/main/java/com/github/sukhinin/micrometer/jmx/JmxMeterBinder.java:69 | with the delegate present, one listener with a fresh id is appended; without it nothing changes |
| Jmx.MBeanServer.RemoveNotificationListener | src/main/java/com/github/sukhinin/micrometer/jmx/JmxMeterBinder.java:72-73 | the listener with that id is removed; the result says whether it was there or the delegate is missing |
| Jmx.MBeanServer.SendNotification | src/main/java/com/github/sukhinin/micrometer/jmx/JmxMeterBinder.java:58-68 | the notification reaches exactly the enabled listeners, in order; each registry ends up as Delivered says; a listener's id is reported exactly when its handler throws (ThrowsAt), and only reached listeners are reported |
| Jmx.MBeanServer.DeliverAll | src/main/java/com/github/sukhinin/micrometer/jmx/JmxMeterBinder.java:58-68 | the delivery loop: the registries end as Delivered says, the reached listeners are Enabled, and the reported ids are exactly Failures |
| Jmx.MBeanServer.DeliverNext | src/main/java/com/github/sukhinin/micrometer/jmx/JmxMeterBinder.java:58-68 | one listener: it is reached exactly when its filter enables the notification, it throws exactly as ThrowsAt says, and only its own registry changes, as Delivered says |
| Jmx.MBeanServer.DeliverTo | src/main/java/com/github/sukhinin/micrometer/jmx/JmxMeterBinder.java:58-61 | the NotificationListener: binds the MBean the notification names in the listener's registry, with the result and the new contents BindOutcome gives; no other registry changes |
| Jmx.MBeanServer.RegisterMBean | src/main/java/com/github/sukhinin/micrometer/jmx/JmxMeterBinder.java:57-68 | a new name is always registered: the MBean is added, every subscribed callback whose filter enables it binds it, and exactly the throwing listeners are reported; a duplicate name is InstanceAlreadyExists and changes nothing |
| Jmx.MBeanServer.UnregisterMBean | src/main/java/com/github/sukhinin/micrometer/jmx/JmxMeterBinder.java:63-65 | a registered MBean is always removed and no registry changes; an unknown name is NotRegistered |
| Jmx.MBeanServer.SetAttribute | src/main/java/com/github/sukhinin/micrometer/jmx/BindingContext.java:64 | one attribute of one MBean changes and nothing else |
| Jmx.BindingContext.constructor | src/main/java/com/github/sukhinin/micrometer/jmx/BindingContext.java:23-28 | the context keeps the server, registry, object name and tags it was given |
| Jmx.BindingContext.GetObjectName | src/main/java/com/github/sukhinin/micrometer/jmx/BindingContext.java:30-32 | the name of the MBean the context was built for, which the callback receives |
| Jmx.BindingContext.GetTags | src/main/java/com/github/sukhinin/micrometer/jmx/BindingContext.java:34-36 | the tags the context was built with, which the callback receives and every bind uses |
| Jmx.BindingContext.BindMeter | src/main/java/com/github/sukhinin/micrometer/jmx/BindingContext.java:39-43 | one meter is registered with the name, description and context tags given, and its handle cell names it |
| Jmx.BindingContext.BindGauge | src/main/java/com/github/sukhinin/micrometer/jmx/BindingContext.java:38-44 | one gauge is registered with the context's tags |
| Jmx.BindingContext.BindTimeGauge | src/main/java/com/github/sukhinin/micrometer/jmx/BindingContext.java:46-52 | one time gauge of the given unit is registered with the context's tags |
| Jmx.BindingContext.BindFunctionCounter | src/main/java/com/github/sukhinin/micrometer/jmx/BindingContext.java:54-60 | one function counter is registered with the context's tags |
| Jmx.BindingContext.Perform | src/main/java/com/github/sukhinin/micrometer/jmx/JmxMeterBinder.java:82 | a callback's binds, run in order, leave the registry as Declared says |
| Jmx.BindingContext.GetAttributeValueOrUnbindMeter | src/main/java/com/github/sukhinin/micrometer/jmx/BindingContext.java:62-69 | a numeric attribute is returned and the registry stays; a ClassCastException or JMException removes the meter in the cell and returns NaN; any other exception escapes and removes nothing |
| Jmx.JmxMeterBinder.constructor | src/main/java/com/github/sukhinin/micrometer/jmx/JmxMeterBinder.java:34-39 | the binder keeps domain, extractor, tags and server, has no cleanup entries, and no listener of the server calls back into it yet |
| Jmx.JmxMeterBinder.BindMetricsForMBeanType | src/main/java/com/github/sukhinin/micrometer/jmx/JmxMeterBinder.java:41-48 | every existing matching MBean is bound once, in some order; a throwing callback stops the scan and no subscription is made; a bad pattern or missing delegate is a ConfigError; success appends one listener and one cleanup entry, so every listener of the binder stays one its cleanup removes |
| Jmx.JmxMeterBinder.BindMetersForExistingMBeans | src/main/java/com/github/sukhinin/micrometer/jmx/JmxMeterBinder.java:50-55 | the query pattern is `jmxDomain:type=T,*`; each matching MBean is visited once and bound as Scan says, stopping at the first throw |
| Jmx.JmxMeterBinder.BindEach | src/main/java/com/github/sukhinin/micrometer/jmx/JmxMeterBinder.java:51-53 | the loop over the queried names visits each name at most once, only queried names, and all of them unless a callback throws; the registry ends as Scan of the visit order and the result reports whether a callback threw |
| Jmx.JmxMeterBinder.EnsureMetersBindingForFutureMBeans | src/main/java/com/github/sukhinin/micrometer/jmx/JmxMeterBinder.java:57-77 | one listener for the type is added and its id is appended to the cleanup entries |
| Jmx.JmxMeterBinder.BindMetersForMBean | src/main/java/com/github/sukhinin/micrometer/jmx/JmxMeterBinder.java:79-86 | the context gets concat(preset tags, extracted tags), and the registry ends up as BindOutcome says |
| Jmx.JmxMeterBinder.Close | src/main/java/com/github/sukhinin/micrometer/jmx/JmxMeterBinder.java:88-93 | every cleanup entry runs, in order; since each listener of the binder is one its cleanup removes, none is left, so no further callback reaches it; the other listeners, the MBeans and the next listener id stay |
| Jmx.JmxMeterBinder.RunCleanup | src/main/java/com/github/sukhinin/micrometer/jmx/JmxMeterBinder.java:89-92 | the loop over the cleanup runnables: each removes its listener by id and ignores a missing one (lines 71-75), so the listeners end as WithoutIds of the cleanup ids; the MBeans and the next id stay |
| Kafka.ExtractTagsFromObjectName | src/main/java/com/github/sukhinin/micrometer/jmx/kafka/AbstractKafkaMetrics.java:73-97 | at most four tags, each under an extracted key, with the value of its property copied verbatim |
| Kafka.ExtractedKeySet | src/main/java/com/github/sukhinin/micrometer/jmx/kafka/AbstractKafkaMetrics.java:76-94 | a tag key is extracted iff the name has its property (`client-id` for `client.id`) |
| Kafka.ExtractedOrder | src/main/java/com/github/sukhinin/micrometer/jmx/kafka/AbstractKafkaMetrics.java:74-94 | the tags come in the order client.id, topic, partition, node |
| Kafka.ExtractedKeysDistinct | src/main/java/com/github/sukhinin/micrometer/jmx/kafka/AbstractKafkaMetrics.java:73-97 | the extracted keys are distinct |
| Kafka.ExtractIgnoresOtherProperties | src/main/java/com/github/sukhinin/micrometer/jmx/kafka/AbstractKafkaMetrics.java:73-97 | names that agree on the four properties give the same tags; `type` and every other property are ignored |
| Kafka.MBeanTagKeys | src/test/java/com/github/sukhinin/micrometer/jmx/kafka/KafkaConsumerMetricsTest.java:51-65 | a Kafka meter's tag keys are the preset keys and the extracted keys the name has properties for |
| Kafka.CommonNanosecondRows | src/main/java/com/github/sukhinin/micrometer/jmx/kafka/AbstractKafkaMetrics.java:50-52 | the two `-ns-avg` attributes are nanosecond time gauges whose meter names drop the `-ns` |
| Kafka.CommonMetricsKeepNames | src/main/java/com/github/sukhinin/micrometer/jmx/kafka/AbstractKafkaMetrics.java:32-65 | every other common row is named after its attribute and is not a nanosecond gauge |
| Kafka.ConsumerMetricsNaming | src/main/java/com/github/sukhinin/micrometer/jmx/kafka/KafkaConsumerMetrics.java:49-54 | `last-poll-seconds-ago` is a seconds time gauge named `last-poll-ago`; the other rows keep their names |
| Kafka.CoordinatorSecondsRows | src/main/java/com/github/sukhinin/micrometer/jmx/kafka/KafkaConsumerMetrics.java:86-87 | the two `-seconds-ago` attributes are seconds time gauges named with `-ago` |
| Kafka.CoordinatorMetricsKeepNames | src/main/java/com/github/sukhinin/micrometer/jmx/kafka/KafkaConsumerMetrics.java:62-94 | the other coordinator rows keep their attribute names and are not seconds gauges |
| Kafka.FetchTablesKeepNames | src/main/java/com/github/sukhinin/micrometer/jmx/kafka/KafkaConsumerMetrics.java:102-130 | the three fetch-manager tables name every meter after its attribute |
| Kafka.ProducerTablesKeepNames | src/main/java/com/github/sukhinin/micrometer/jmx/kafka/KafkaProducerMetrics.java:49-97 | every producer, sender and per-topic meter is named after its attribute; `metadata-age` is a seconds time gauge |
| Kafka.SenderTimeUnits | src/main/java/com/github/sukhinin/micrometer/jmx/kafka/KafkaProducerMetrics.java:62-79 | every sender time gauge except `metadata-age` is in milliseconds |
| Kafka.PerTopicKinds | src/main/java/com/github/sukhinin/micrometer/jmx/kafka/KafkaProducerMetrics.java:87-97 | per-topic attributes ending in `-total` are exactly the function counters; the rest are gauges |
| Kafka.FetchTierOf | src/main/java/com/github/sukhinin/micrometer/jmx/kafka/KafkaConsumerMetrics.java:104-129 | the partition tier iff both topic and partition are tag keys, the topic tier iff topic alone, the client tier iff no topic (even with partition) |
| Kafka.FetchTierOfMBean | src/main/java/com/github/sukhinin/micrometer/jmx/kafka/KafkaConsumerMetrics.java:104-129 | the same in terms of the MBean's properties and the preset tag keys |
| Kafka.ConsumerRegistrationsNeverThrow | src/main/java/com/github/sukhinin/micrometer/jmx/kafka/KafkaConsumerMetrics.java:36-41 | none of the four consumer callbacks throws |
| Kafka.ProducerRegistrationsNeverThrow | src/main/java/com/github/sukhinin/micrometer/jmx/kafka/KafkaProducerMetrics.java:36-41 | none of the four producer callbacks throws |
| Kafka.ConsumerRegistrations | src/main/java/com/github/sukhinin/micrometer/jmx/kafka/KafkaConsumerMetrics.java:37-40 | the four calls of KafkaConsumerMetrics.bindTo, in order: type consumer-metrics with the common and the consumer methods, then consumer-coordinator-metrics and consumer-fetch-manager-metrics |
| Kafka.ProducerRegistrations | src/main/java/com/github/sukhinin/micrometer/jmx/kafka/KafkaProducerMetrics.java:37-40 | the four calls of KafkaProducerMetrics.bindTo, in order: type producer-metrics with the common, producer and sender methods, then producer-topic-metrics |
| Kafka.CatalogCallback | src/main/java/com/github/sukhinin/micrometer/jmx/kafka/KafkaConsumerMetrics.java:37-40 | the method reference `this::bind...Metrics`: binds the catalog's rows under the prefix and never throws (Kafka.ConsumerRegistrationsNeverThrow, Kafka.CatalogBindsRow) |
| Kafka.CatalogRows | src/main/java/com/github/sukhinin/micrometer/jmx/kafka/KafkaConsumerMetrics.java:49-129 | the rows each `bind*Metrics` method binds: CONSUMER_METRICS, COORDINATOR_METRICS and the fetch table FetchTierOf selects here, COMMON_METRICS for bindCommonMetrics (AbstractKafkaMetrics.java:31-66), and PRODUCER_METRICS, SENDER_METRICS and PER_TOPIC_SENDER_METRICS for the producer methods (KafkaProducerMetrics.java:49-97); their kinds, names and distinctness are stated by the table lemmas above and Kafka.TablesDistinct |
| Kafka.Subscribing | src/main/java/com/github/sukhinin/micrometer/jmx/kafka/KafkaConsumerMetrics.java:36-41 | how many of the registrations from k on subscribe before the first that does not; SubscribingIsFirstFailure states what that index means |
| Kafka.SubscribingIsFirstFailure | src/main/java/com/github/sukhinin/micrometer/jmx/JmxMeterBinder.java:41-48 | every registration before that index has a parsing pattern and a delegate, and the one at it, if any, has not |
| Kafka.FetchTableDistinct | src/main/java/com/github/sukhinin/micrometer/jmx/kafka/KafkaConsumerMetrics.java:102-130 | each fetch-manager tier declares distinct meter names |
| Kafka.CommonMetricsDistinct | src/main/java/com/github/sukhinin/micrometer/jmx/kafka/AbstractKafkaMetrics.java:31-66 | the 34 common rows declare distinct meter names |
| Kafka.CoordinatorMetricsDistinct | src/main/java/com/github/sukhinin/micrometer/jmx/kafka/KafkaConsumerMetrics.java:62-94 | the 31 coordinator rows declare distinct meter names |
| Kafka.SenderMetricsDistinct | src/main/java/com/github/sukhinin/micrometer/jmx/kafka/KafkaProducerMetrics.java:62-79 | the 16 sender rows declare distinct meter names |
| Kafka.ConsumerMetricsDistinct | src/main/java/com/github/sukhinin/micrometer/jmx/kafka/KafkaConsumerMetrics.java:49-54 | the consumer rows declare distinct meter names |
| Kafka.ProducerMetricsDistinct | src/main/java/com/github/sukhinin/micrometer/jmx/kafka/KafkaProducerMetrics.java:49-54 | the producer rows declare distinct meter names |
| Kafka.PerTopicSenderMetricsDistinct | src/main/java/com/github/sukhinin/micrometer/jmx/kafka/KafkaProducerMetrics.java:87-97 | the per-topic sender rows declare distinct meter names |
| Kafka.TablesDistinct | src/main/java/com/github/sukhinin/micrometer/jmx/kafka/KafkaConsumerMetrics.java:36-41 | the rows of every binding method of either Kafka binder, for any tags, declare distinct meter names |
| Kafka.CatalogBindsRow | src/main/java/com/github/sukhinin/micrometer/jmx/JmxMeterBinder.java:79-86 | binding a Kafka MBean with a catalog never throws, and each new row becomes a meter of the row's kind on that MBean's attribute, under prefix + name and the merged tags; this holds for every table, since every table's names are distinct |
| Kafka.FetchMBeanMeters | src/main/java/com/github/sukhinin/micrometer/jmx/kafka/KafkaConsumerMetrics.java:102-130 | a fetch-manager MBean gets the meters of the tier its tags select, each as its row declares |
| Kafka.BindRegistrations | src/main/java/com/github/sukhinin/micrometer/jmx/kafka/KafkaConsumerMetrics.java:36-41 | the four registrations are issued in order until one fails; exactly the leading ones whose pattern parses on a server with its delegate succeed, and a failure is a ConfigError; the i-th call visits the existing MBeans of its type, each once, all of them when its pattern parses and none when it does not; the successful ones append their listeners and cleanup entries in order, and the registry is what their scans made it |
| Kafka.KafkaConsumerMetrics.constructor | src/main/java/com/github/sukhinin/micrometer/jmx/kafka/AbstractKafkaMetrics.java:20-23 | a fresh binder for domain `kafka.consumer` with the Kafka extractor, the tags, the server and the prefix |
| Kafka.KafkaConsumerMetrics.WithDefaultPrefix | src/main/java/com/github/sukhinin/micrometer/jmx/kafka/KafkaConsumerMetrics.java:23-25 | the same with prefix `kafka.consumer.` |
| Kafka.KafkaConsumerMetrics.BindTo | src/main/java/com/github/sukhinin/micrometer/jmx/kafka/KafkaConsumerMetrics.java:36-41 | consumer-metrics (common), consumer-metrics (consumer), consumer-coordinator-metrics, consumer-fetch-manager-metrics, in order; never a callback error; Ok exactly when all four patterns parse and the server has its delegate; every existing MBean of each type that parses is bound, each once |
| Kafka.KafkaConsumerMetrics.Close | src/main/java/com/github/sukhinin/micrometer/jmx/kafka/AbstractKafkaMetrics.java:68-71 | the binder's cleanup runs: no listener of the binder and no listener with a cleanup id is left, the other listeners stay, and the MBeans and the next listener id do not change |
| Kafka.KafkaProducerMetrics.constructor | src/main/java/com/github/sukhinin/micrometer/jmx/kafka/KafkaProducerMetrics.java:31-33 | a fresh binder for domain `kafka.producer` with the Kafka extractor, the tags, the server and the prefix |
| Kafka.KafkaProducerMetrics.WithDefaultPrefix | src/main/java/com/github/sukhinin/micrometer/jmx/kafka/KafkaProducerMetrics.java:23-25 | the same with prefix `kafka.producer.` |
| Kafka.KafkaProducerMetrics.BindTo | src/main/java/com/github/sukhinin/micrometer/jmx/kafka/KafkaProducerMetrics.java:36-41 | producer-metrics three times (common, producer, sender), then producer-topic-metrics; never a callback error; Ok exactly when all four patterns parse and the server has its delegate; every existing MBean of each type that parses is bound, each once |
| Kafka.KafkaProducerMetrics.Close | src/main/java/com/github/sukhinin/micrometer/jmx/kafka/AbstractKafkaMetrics.java:68-71 | the binder's cleanup runs: no listener of the binder and no listener with a cleanup id is left, the other listeners stay, and the MBeans and the next listener id do not change |
| Threading.ThreadingRows | src/main/java/com/github/sukhinin/micrometer/jmx/threading/ThreadingMetrics.java:43-46 | each description is its attribute name; TotalStartedThreadCount is the only function counter, the rest are gauges; names are distinct |
| Threading.ContextTagsArePresetTags | src/main/java/com/github/sukhinin/micrometer/jmx/threading/ThreadingMetrics.java:36 | with the empty extractor a context's tags are exactly the (sorted) preset tags |
| Threading.NoTags | src/main/java/com/github/sukhinin/micrometer/jmx/threading/ThreadingMetrics.java:36 | the binder's extractor `obj -> Collections.emptyList()`: no tags for any name |
| Threading.ThreadingCallback | src/main/java/com/github/sukhinin/micrometer/jmx/threading/ThreadingMetrics.java:42-47 | the bindTo lambda never throws and binds the same four rows with the prefix whatever the MBean and tags |
| Threading.ThreadingBindsRow | src/main/java/com/github/sukhinin/micrometer/jmx/threading/ThreadingMetrics.java:42-47 | binding the Threading MBean never throws, and each new row becomes its meter under prefix + name |
| Threading.ThreadingMetrics.constructor | src/main/java/com/github/sukhinin/micrometer/jmx/threading/ThreadingMetrics.java:35-38 | a fresh binder for domain `java.lang` with the empty extractor, the tags, the server and the prefix |
| Threading.ThreadingMetrics.WithDefaultPrefix | src/main/java/com/github/sukhinin/micrometer/jmx/threading/ThreadingMetrics.java:27-29 | the same with prefix `java.lang.` |
| Threading.ThreadingMetrics.BindTo | src/main/java/com/github/sukhinin/micrometer/jmx/threading/ThreadingMetrics.java:40-48 | one registration, for type `Threading`; it never fails on the callback; every existing `java.lang:type=Threading` MBean is bound once when the pattern parses, none when it does not; Ok exactly when the pattern parses and the server has its delegate, and then one listener and one cleanup entry are appended and the listener id advances by one; otherwise nothing is subscribed and the id stays |
| Threading.ThreadingMetrics.Close | src/main/java/com/github/sukhinin/micrometer/jmx/threading/ThreadingMetrics.java:50-53 | the binder's cleanup runs: no listener of the binder and no listener with a cleanup id is left, the other listeners stay, and the MBeans and the next listener id do not change |

## Left out

- ObjectName parsing: the server's `isWellFormedName` parameter decides which
  pattern strings parse. The wildcard semantics of `queryNames` are reduced to
  the domain and `type` match that `domain:type=T,*` denotes.
- The iteration order of `queryNames`' result set is unspecified. It is kept
  as a ghost `order` out-parameter, and every contract holds for any order.
- `ManagementFactory.getPlatformMBeanServer()` is a platform singleton, so the
  constructors that default to it are not modelled. Every binder takes its
  server as a parameter; only the default prefix has its own constructor.
- Micrometer's builders, meter types and registry internals are not modelled.
  A meter is a kind, a description and an accessor, keyed by name and tags.
  The registry's base-unit conversion of time gauges is not modelled.
- Jmx.Registered: an id that is already registered keeps its meter, even when
  the existing meter has a different kind. Micrometer's register-or-get throws
  IllegalArgumentException in that case (a TimeGauge over an existing Gauge,
  say); bindMetersForMBean would wrap it and the scan would stop. Within one
  table the names are distinct (Kafka.TablesDistinct), but a registry that
  already holds meters can clash.
- Numbers are `real` and NaN is a `Reading` constructor; no floating point.
- Concurrency (the `CopyOnWriteArrayList`, the `AtomicReference`, notification
  threads) is sequential state here. Notification delivery is a method of the
  server.
- Java exceptions become results: the `Missing`, `NotNumber` and `Uncaught`
  attributes, the `Raised` reading and the `Outcome` values `ConfigError` and
  `CallbackError`. What Micrometer does with an exception that escapes an
  accessor (a `Raised` reading) is outside the model. A listener that throws
  during delivery is reported by id, exactly when its handler throws, and
  delivery goes on.
- The NullPointerException of the filter on a name with no `type` property
  (JmxMeterBinder.java:67) is not modelled. Such a name is simply not enabled.
- The null checks of the constructors have nothing to check: the arguments
  are values or references that cannot be null.
- Kafka descriptions: the Kafka rows carry the empty string as description.
  The documentation sentences of the source are not copied. The threading
  rows keep their descriptions, which are the attribute names.
- Tags.Concat: keys that collide between the preset and the extracted tags
  are resolved by letting the later tag win. Micrometer's own collision rule
  is outside the model, and no lemma depends on it.
