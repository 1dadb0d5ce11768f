/** ThreadingMetrics: a meter binder for the `java.lang:type=Threading` MBean
    of the platform. Its meters carry only the preset tags, and each meter's
    description is its attribute's name. */
module Threading {
  import opened Tags
  import opened Jmx

  const THREADING_DOMAIN: string := "java.lang"
  const THREADING_DEFAULT_PREFIX: string := "java.lang."
  const THREADING_TYPE: string := "Threading"

  /** The binder's tags extractor, `obj -> Collections.emptyList()`. */
  function NoTags(obj: ObjectName): seq<Tag>
  {
    []
  }

  /** The four binds of the callback, before the prefix is prepended. */
  const THREADING_METRICS: seq<Declaration> := [
    Declaration(Gauge, "DaemonThreadCount", "daemon-thread-count", "DaemonThreadCount"),
    Declaration(Gauge, "PeakThreadCount", "peak-thread-count", "PeakThreadCount"),
    Declaration(Gauge, "ThreadCount", "thread-count", "ThreadCount"),
    Declaration(FunctionCounter, "TotalStartedThreadCount", "total-started-thread-count", "TotalStartedThreadCount")
  ]

  /** The callback lambda of bindTo: binds the four rows with the prefix, and
      never throws. */
  function ThreadingCallback(prefix: string): (callback: BindingCallback)
    ensures forall obj, tags :: !callback(obj, tags).fails
    ensures forall obj, tags, obj', tags' :: callback(obj, tags) == callback(obj', tags')
  {
    (obj: ObjectName, tags: seq<Tag>) => Invocation(WithPrefix(prefix, THREADING_METRICS), false)
  }

  /** Every description is the attribute's name; the only counter is
      TotalStartedThreadCount, the other three are gauges; the meter names
      are distinct. */
  lemma ThreadingRows()
    ensures forall i :: 0 <= i < |THREADING_METRICS| ==> THREADING_METRICS[i].description == THREADING_METRICS[i].attrName
    ensures forall i :: 0 <= i < |THREADING_METRICS| ==>
              (THREADING_METRICS[i].kind == FunctionCounter <==> THREADING_METRICS[i].attrName == "TotalStartedThreadCount")
    ensures forall i :: 0 <= i < |THREADING_METRICS| ==> THREADING_METRICS[i].kind in {Gauge, FunctionCounter}
    ensures DistinctNames(THREADING_METRICS)
  {
  }

  /** With no extracted tags, a context's tags are the preset tags in key
      order: exactly the preset tags when those are already sorted. */
  lemma ContextTagsArePresetTags(presetTags: seq<Tag>, obj: ObjectName)
    requires Sorted(presetTags)
    ensures Concat(presetTags, NoTags(obj)) == presetTags
  {
    SortedHasDistinctKeys(presetTags);
    assert presetTags + NoTags(obj) == presetTags;
    ConcatIsSortedUnion(presetTags, NoTags(obj), presetTags);
  }

  /** Binding the Threading MBean never throws, and each of the four meters
      whose prefixed name is new under the preset tags is registered as its
      row declares. */
  lemma ThreadingBindsRow(view: map<MeterId, MeterInfo>, presetTags: seq<Tag>, obj: ObjectName, prefix: string, i: nat)
    requires i < |THREADING_METRICS|
    requires MeterId(prefix + THREADING_METRICS[i].meterName, Concat(presetTags, NoTags(obj))) !in view
    ensures var tags := Concat(presetTags, NoTags(obj));
      var row := THREADING_METRICS[i];
      var out := BindOutcome(view, presetTags, NoTags, ThreadingCallback(prefix), obj);
      !out.failed && MeterId(prefix + row.meterName, tags) in out.view
      && out.view[MeterId(prefix + row.meterName, tags)] == MeterInfo(row.kind, row.attrName, obj, row.attrName)
  {
    var tags := Concat(presetTags, NoTags(obj));
    var ds := WithPrefix(prefix, THREADING_METRICS);
    ThreadingRows();
    WithPrefixKeepsDistinct(prefix, THREADING_METRICS);
    assert ThreadingCallback(prefix)(obj, tags) == Invocation(ds, false);
    DeclaredMeter(view, obj, tags, ds, i);
  }

  /** ThreadingMetrics keeps the prefix in a non-final field; nothing
      reassigns it, so here it is a constant. */
  class ThreadingMetrics {
    const binder: JmxMeterBinder
    const meterNamePrefix: string

    constructor (tags: seq<Tag>, meterNamePrefix: string, server: MBeanServer)
      ensures fresh(binder) && binder.cleanup == [] && binder.Owns()
      ensures binder.jmxDomain == THREADING_DOMAIN && binder.tagger == NoTags
      ensures binder.tags == tags && binder.server == server
      ensures this.meterNamePrefix == meterNamePrefix
    {
      binder := new JmxMeterBinder(THREADING_DOMAIN, NoTags, tags, server);
      this.meterNamePrefix := meterNamePrefix;
    }

    /** The same, with the default prefix `java.lang.`. */
    constructor WithDefaultPrefix(tags: seq<Tag>, server: MBeanServer)
      ensures fresh(binder) && binder.cleanup == [] && binder.Owns()
      ensures binder.jmxDomain == THREADING_DOMAIN && binder.tagger == NoTags
      ensures binder.tags == tags && binder.server == server
      ensures meterNamePrefix == THREADING_DEFAULT_PREFIX
    {
      binder := new JmxMeterBinder(THREADING_DOMAIN, NoTags, tags, server);
      meterNamePrefix := THREADING_DEFAULT_PREFIX;
    }

    /** bindTo: one bindMetricsForMBeanType call for type `Threading`. The
        callback never throws, so the call fails only on its configuration. */
    method BindTo(registry: MeterRegistry) returns (r: Outcome, ghost order: seq<ObjectName>)
      requires binder.server.Valid() && registry.Valid() && binder.Owns()
      modifies binder, binder.server, registry
      ensures binder.server.Valid() && registry.Valid() && binder.Owns()
      ensures binder.server.mbeans == old(binder.server.mbeans)
      ensures r != CallbackError
      ensures r == Ok <==> binder.Subscribes(THREADING_TYPE)
      ensures ScansMatching(old(binder.server.mbeans.Keys), NamePattern(binder.jmxDomain, THREADING_TYPE),
                            binder.PatternParses(THREADING_TYPE), order)
      ensures registry.View() == Scan(old(registry.View()), binder.tags, binder.tagger, ThreadingCallback(meterNamePrefix), order).view
      ensures r == Ok ==> (binder.cleanup == old(binder.cleanup) + [old(binder.server.nextListenerId)]
                        && binder.server.listeners == old(binder.server.listeners)
                           + [Listener(old(binder.server.nextListenerId), binder, registry, THREADING_TYPE, ThreadingCallback(meterNamePrefix))])
      ensures r != Ok ==> binder.cleanup == old(binder.cleanup) && binder.server.listeners == old(binder.server.listeners)
      ensures binder.server.nextListenerId == old(binder.server.nextListenerId) + (if r == Ok then 1 else 0)
    {
      ghost var before := registry.View();
      r, order := binder.BindMetricsForMBeanType(registry, THREADING_TYPE, ThreadingCallback(meterNamePrefix));
      ScanNeverFails(before, binder.tags, binder.tagger, ThreadingCallback(meterNamePrefix), order);
    }

    /** close: runs the binder's cleanup. */
    method Close()
      requires binder.server.Valid() && binder.Owns()
      modifies binder.server
      ensures binder.server.Valid() && binder.Owns()
      ensures binder.server.listeners == WithoutIds(old(binder.server.listeners), binder.cleanup)
      ensures forall i :: 0 <= i < |binder.server.listeners| ==> binder.server.listeners[i].id !in binder.cleanup
      ensures forall l :: l in binder.server.listeners ==> l.binder != binder
      ensures binder.server.mbeans == old(binder.server.mbeans)
      ensures binder.server.nextListenerId == old(binder.server.nextListenerId)
    {
      binder.Close();
    }
  }
}
