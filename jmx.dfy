/** The binding engine of the jmx package: an MBean server reduced to a
    directory of object names with their attributes and a list of notification
    listeners; a meter registry reduced to a map of meters; the per-MBean
    BindingContext whose meters unbind themselves when their attribute cannot be
    read; and JmxMeterBinder, which binds the MBeans of one type that exist now
    and subscribes to those registered later.

    The MBean server and the meter registry belong to libraries outside this
    model; they appear here as plain state, with only the behaviour the engine
    relies on. */
module Jmx {
  import opened Tags

  datatype Option<T> = None | Some(value: T)

  // ===========================================================================
  // Object names, attributes and notifications
  // ===========================================================================

  /** An MBean name: a domain and its key properties. */
  datatype ObjectName = ObjectName(domain: string, properties: map<string, string>)

  /** ObjectName.getKeyProperty: the value of a key property, if the name has it. */
  function GetKeyProperty(obj: ObjectName, key: string): (v: Option<string>)
    ensures v.Some? <==> key in obj.properties
    ensures v.Some? ==> v.value == obj.properties[key]
  {
    if key in obj.properties then Some(obj.properties[key]) else None
  }

  /** What reading an attribute yields: a Number; a value that is not a Number
      (the cast throws ClassCastException); a JMException (no such MBean or
      attribute); or an exception the accessor does not catch: a null value,
      whose unboxing throws NullPointerException, or a runtime exception of the
      getter, which arrives as a RuntimeMBeanException. */
  datatype Attribute = Numeric(value: real) | NotNumber | Missing | Uncaught

  const REGISTRATION_NOTIFICATION: string := "JMX.mbean.registered"
  const UNREGISTRATION_NOTIFICATION: string := "JMX.mbean.unregistered"

  /** An MBeanServerNotification: its type and the name of the MBean concerned. */
  datatype Notification = Notification(notificationType: string, mbeanName: ObjectName)

  /** The pattern `domain:type=T,*`: every name of that domain whose `type` key
      property is T, whatever its other properties. */
  datatype NamePattern = NamePattern(domain: string, typeValue: string)
  {
    /** The pattern in ObjectName syntax. */
    function Text(): string
    {
      domain + ":type=" + typeValue + ",*"
    }

    predicate Matches(obj: ObjectName)
    {
      obj.domain == domain && GetKeyProperty(obj, "type") == Some(typeValue)
    }
  }

  // ===========================================================================
  // Meters
  // ===========================================================================

  datatype TimeUnit = Nanoseconds | Microseconds | Milliseconds | Seconds | Minutes | Hours | Days

  datatype MeterKind = Gauge | TimeGauge(unit: TimeUnit) | FunctionCounter

  /** A meter's identity in the registry: its name and its tags. */
  datatype MeterId = MeterId(name: string, tags: seq<Tag>)

  /** What the binding engine decides about a meter: its kind (and unit), its
      description, and the MBean attribute its accessor reads. */
  datatype MeterInfo = MeterInfo(kind: MeterKind, description: string, source: ObjectName, attrName: string)

  /** The value accessor a binding installs: it reads `attrName` through its
      context and, on failure, removes the meter held in `meterRef`. */
  datatype Accessor = Accessor(context: BindingContext, attrName: string, meterRef: HandleCell)

  datatype Meter = Meter(kind: MeterKind, description: string, accessor: Accessor)

  /** What a meter's accessor yields on one read: a value, NaN, or an
      exception that escapes the accessor to the registry. */
  datatype Reading = Value(v: real) | NaN | Raised

  function InfoOf(m: Meter): MeterInfo
  {
    MeterInfo(m.kind, m.description, m.accessor.context.obj, m.accessor.attrName)
  }

  /** The registry's register-or-get: an id already present keeps its meter. */
  function Registered(view: map<MeterId, MeterInfo>, id: MeterId, info: MeterInfo): (r: map<MeterId, MeterInfo>)
    ensures id in r
    ensures r.Keys == view.Keys + {id}
    ensures forall k :: k in view ==> r[k] == view[k]
    ensures id !in view ==> r[id] == info
  {
    if id in view then view else view[id := info]
  }

  /** The AtomicReference each binding allocates, so that its accessor can name
      the meter it belongs to. It is written once, right after registration. */
  class HandleCell {
    var meter: Option<MeterId>

    constructor ()
      ensures meter == None
    {
      meter := None;
    }

    method Set(m: MeterId)
      requires meter == None
      modifies this
      ensures meter == Some(m)
    {
      meter := Some(m);
    }
  }

  /** The meter registry, keyed by meter id. */
  class MeterRegistry {
    var meters: map<MeterId, Meter>

    ghost function Cells(): set<HandleCell>
      reads this
    {
      set id | id in meters :: meters[id].accessor.meterRef
    }

    /** Every registered meter's handle cell names that very meter, and its
        accessor unbinds from this registry. */
    ghost predicate Valid()
      reads this, Cells()
    {
      forall id :: id in meters ==>
        meters[id].accessor.meterRef.meter == Some(id) && meters[id].accessor.context.registry == this
    }

    /** The registry's contents, without the accessors' object references. */
    ghost function View(): map<MeterId, MeterInfo>
      reads this
    {
      map id | id in meters :: InfoOf(meters[id])
    }

    constructor ()
      ensures Valid() && meters == map[]
    {
      meters := map[];
    }

    /** Registers `m` under `id` unless a meter with that id exists, and returns
        the handle of the meter now registered under `id`. */
    method Register(id: MeterId, m: Meter) returns (handle: MeterId)
      modifies this
      ensures handle == id
      ensures meters == if id in old(meters) then old(meters) else old(meters)[id := m]
    {
      if id !in meters {
        meters := meters[id := m];
      }
      handle := id;
    }

    /** registry.remove: drops the meter with that handle; absent is a no-op. */
    method Remove(handle: MeterId)
      modifies this
      ensures meters == old(meters) - {handle}
    {
      meters := meters - {handle};
    }

    /** One read of meter `id`, as the registry performs it when it publishes
        the meter: the meter's accessor runs. A numeric attribute is reported
        and nothing changes; an exception the accessor does not catch escapes
        and nothing changes either; otherwise the meter is gone afterwards and
        the read reports NaN. Every other meter stays registered. */
    method Poll(id: MeterId) returns (r: Reading)
      requires Valid() && id in meters
      modifies this
      ensures Valid()
      ensures var a := old(meters[id].accessor);
        match a.context.server.GetAttribute(a.context.obj, a.attrName)
        case Numeric(v) => r == Value(v) && meters == old(meters)
        case Uncaught => r == Raised && meters == old(meters)
        case _ => r == NaN && meters == old(meters) - {id} && id !in meters
    {
      var a := meters[id].accessor;
      r := a.context.GetAttributeValueOrUnbindMeter(this, a.meterRef, a.context.obj, a.attrName);
    }
  }

  // ===========================================================================
  // Binding declarations and callbacks
  // ===========================================================================

  /** One `ctx.bind*` call of a binding callback. */
  datatype Declaration = Declaration(kind: MeterKind, attrName: string, meterName: string, description: string)

  /** What one invocation of a binding callback does: the binds it performs in
      order, and whether it then throws. */
  datatype Invocation = Invocation(declarations: seq<Declaration>, fails: bool)

  /** BindingCallback: what the callback does for a context with this name and these tags. */
  type BindingCallback = (ObjectName, seq<Tag>) -> Invocation

  /** TagsExtractor. */
  type TagsExtractor = ObjectName -> seq<Tag>

  /** The registry after a context with name `obj` and tags `tags` performs `ds`. */
  ghost function Declared(view: map<MeterId, MeterInfo>, obj: ObjectName, tags: seq<Tag>, ds: seq<Declaration>): map<MeterId, MeterInfo>
    decreases |ds|
  {
    if ds == [] then view
    else
      var d := ds[|ds| - 1];
      Registered(Declared(view, obj, tags, ds[..|ds| - 1]), MeterId(d.meterName, tags), MeterInfo(d.kind, d.description, obj, d.attrName))
  }

  lemma {:induction false} DeclaredKeys(view: map<MeterId, MeterInfo>, obj: ObjectName, tags: seq<Tag>, ds: seq<Declaration>)
    ensures Declared(view, obj, tags, ds).Keys == view.Keys + set d | d in ds :: MeterId(d.meterName, tags)
    ensures forall k :: k in view ==> Declared(view, obj, tags, ds)[k] == view[k]
    decreases |ds|
  {
    if ds != [] {
      var init := ds[..|ds| - 1];
      DeclaredKeys(view, obj, tags, init);
      assert ds == init + [ds[|ds| - 1]];
      assert forall d :: d in ds <==> d in init || d == ds[|ds| - 1];
    }
  }

  /** A declaration whose meter name no other declaration uses, and is not yet
      registered with these tags, ends up registered exactly as declared, with
      the context's tags. */
  lemma {:induction false} DeclaredMeter(view: map<MeterId, MeterInfo>, obj: ObjectName, tags: seq<Tag>, ds: seq<Declaration>, i: nat)
    requires i < |ds|
    requires MeterId(ds[i].meterName, tags) !in view
    requires forall j :: 0 <= j < |ds| && j != i ==> ds[j].meterName != ds[i].meterName
    ensures MeterId(ds[i].meterName, tags) in Declared(view, obj, tags, ds)
    ensures Declared(view, obj, tags, ds)[MeterId(ds[i].meterName, tags)]
         == MeterInfo(ds[i].kind, ds[i].description, obj, ds[i].attrName)
    decreases |ds|
  {
    var init := ds[..|ds| - 1];
    var id := MeterId(ds[i].meterName, tags);
    if i == |ds| - 1 {
      DeclaredKeys(view, obj, tags, init);
      assert forall d :: d in init ==> MeterId(d.meterName, tags) != id;
    } else {
      DeclaredMeter(view, obj, tags, init, i);
    }
  }

  /** The outcome of binding one MBean: the registry afterwards and whether the
      callback threw. */
  datatype BindResult = BindResult(view: map<MeterId, MeterInfo>, failed: bool)

  /** bindMetersForMBean: the context's tags are concat(preset tags, extracted
      tags), and the callback's binds are performed in that context. */
  ghost function BindOutcome(view: map<MeterId, MeterInfo>, presetTags: seq<Tag>, tagger: TagsExtractor,
                             callback: BindingCallback, obj: ObjectName): BindResult
  {
    var tags := Concat(presetTags, tagger(obj));
    var inv := callback(obj, tags);
    BindResult(Declared(view, obj, tags, inv.declarations), inv.fails)
  }

  /** Binding the MBeans of `order` one after the other, stopping at the first
      callback that throws. */
  ghost function Scan(view: map<MeterId, MeterInfo>, presetTags: seq<Tag>, tagger: TagsExtractor,
                      callback: BindingCallback, order: seq<ObjectName>): BindResult
    decreases |order|
  {
    if order == [] then BindResult(view, false)
    else
      var before := Scan(view, presetTags, tagger, callback, order[..|order| - 1]);
      if before.failed then before
      else BindOutcome(before.view, presetTags, tagger, callback, order[|order| - 1])
  }

  /** A callback that never throws never stops a scan. */
  lemma {:induction false} ScanNeverFails(view: map<MeterId, MeterInfo>, presetTags: seq<Tag>, tagger: TagsExtractor,
                                          callback: BindingCallback, order: seq<ObjectName>)
    requires forall obj, tags :: !callback(obj, tags).fails
    ensures !Scan(view, presetTags, tagger, callback, order).failed
    decreases |order|
  {
    if order != [] {
      ScanNeverFails(view, presetTags, tagger, callback, order[..|order| - 1]);
    }
  }

  /** The declarations a callback makes from a table, with the prefix prepended
      to every meter name. */
  function WithPrefix(prefix: string, rows: seq<Declaration>): (ds: seq<Declaration>)
    ensures |ds| == |rows|
    ensures forall i :: 0 <= i < |rows| ==> ds[i] == rows[i].(meterName := prefix + rows[i].meterName)
    decreases |rows|
  {
    if rows == [] then [] else [rows[0].(meterName := prefix + rows[0].meterName)] + WithPrefix(prefix, rows[1..])
  }

  /** Every declared meter name starts with the prefix, and the rest of it is
      the row's meter name; kind and attribute are the row's. */
  lemma EveryNameHasPrefix(prefix: string, rows: seq<Declaration>)
    ensures forall i :: 0 <= i < |rows| ==>
      var d := WithPrefix(prefix, rows)[i];
      prefix <= d.meterName && d.meterName[|prefix|..] == rows[i].meterName
      && d.kind == rows[i].kind && d.attrName == rows[i].attrName
  {
    forall i | 0 <= i < |rows|
      ensures var d := WithPrefix(prefix, rows)[i];
        prefix <= d.meterName && d.meterName[|prefix|..] == rows[i].meterName
    {
      var d := WithPrefix(prefix, rows)[i];
      assert d.meterName == prefix + rows[i].meterName;
      assert d.meterName[..|prefix|] == prefix;
    }
  }

  /** No two rows declare the same meter name. */
  ghost predicate DistinctNames(rows: seq<Declaration>)
  {
    forall i, j :: 0 <= i < j < |rows| ==> rows[i].meterName != rows[j].meterName
  }

  lemma WithPrefixKeepsDistinct(prefix: string, rows: seq<Declaration>)
    requires DistinctNames(rows)
    ensures DistinctNames(WithPrefix(prefix, rows))
  {
    EveryNameHasPrefix(prefix, rows);
  }

  ghost predicate NoDuplicates<T>(s: seq<T>)
  {
    forall i, j :: 0 <= i < j < |s| ==> s[i] != s[j]
  }

  // ===========================================================================
  // Notification listeners
  // ===========================================================================

  /** The listener a binder registers for one bindMetricsForMBeanType call,
      with what its lambda captured. */
  datatype Listener = Listener(id: nat, binder: JmxMeterBinder, registry: MeterRegistry,
                               mbeanType: string, callback: BindingCallback)

  /** The listener's NotificationFilter: registration notifications for names of
      the binder's domain whose `type` property is the listener's type. */
  predicate IsNotificationEnabled(l: Listener, n: Notification)
  {
    n.notificationType == REGISTRATION_NOTIFICATION
    && n.mbeanName.domain == l.binder.jmxDomain
    && GetKeyProperty(n.mbeanName, "type") == Some(l.mbeanType)
  }

  /** The filter lets a registration through exactly when the query pattern of
      the listener's binder and type matches the new name, so a new MBean is
      bound exactly when it would have been found by the initial query. */
  lemma FilterAgreesWithQuery(l: Listener, obj: ObjectName)
    ensures IsNotificationEnabled(l, Notification(REGISTRATION_NOTIFICATION, obj))
        <==> NamePattern(l.binder.jmxDomain, l.mbeanType).Matches(obj)
    ensures !IsNotificationEnabled(l, Notification(UNREGISTRATION_NOTIFICATION, obj))
  {
  }

  /** The listeners a notification is delivered to, in registration order. */
  ghost function Enabled(ls: seq<Listener>, n: Notification): seq<Listener>
    decreases |ls|
  {
    if ls == [] then []
    else Enabled(ls[..|ls| - 1], n) + (if IsNotificationEnabled(ls[|ls| - 1], n) then [ls[|ls| - 1]] else [])
  }

  /** The contents of `registry` after `n` has been delivered to `ls`. */
  ghost function Delivered(view: map<MeterId, MeterInfo>, registry: MeterRegistry, ls: seq<Listener>, n: Notification): map<MeterId, MeterInfo>
    decreases |ls|
  {
    if ls == [] then view
    else
      var before := Delivered(view, registry, ls[..|ls| - 1], n);
      var l := ls[|ls| - 1];
      if l.registry == registry && IsNotificationEnabled(l, n)
      then BindOutcome(before, l.binder.tags, l.binder.tagger, l.callback, n.mbeanName).view
      else before
  }

  /** One more listener: the notification reaches it when its filter enables
      it, and only its own registry changes. */
  lemma DeliveryStep(view: map<MeterId, MeterInfo>, registry: MeterRegistry, ls: seq<Listener>, i: nat, n: Notification)
    requires i < |ls|
    ensures Enabled(ls[..i + 1], n) == Enabled(ls[..i], n) + (if IsNotificationEnabled(ls[i], n) then [ls[i]] else [])
    ensures Delivered(view, registry, ls[..i + 1], n)
         == if ls[i].registry == registry && IsNotificationEnabled(ls[i], n)
            then BindOutcome(Delivered(view, registry, ls[..i], n), ls[i].binder.tags, ls[i].binder.tagger, ls[i].callback, n.mbeanName).view
            else Delivered(view, registry, ls[..i], n)
  {
    assert ls[..i + 1][..i] == ls[..i];
  }

  /** Whether the handler of `ls[k]` throws when `n` reaches it, its registry
      having started from `v0` before the delivery to `ls[..k]`. */
  ghost predicate ThrowsAt(v0: map<MeterId, MeterInfo>, ls: seq<Listener>, k: nat, n: Notification)
    requires k < |ls|
  {
    IsNotificationEnabled(ls[k], n)
    && BindOutcome(Delivered(v0, ls[k].registry, ls[..k], n), ls[k].binder.tags, ls[k].binder.tagger,
                   ls[k].callback, n.mbeanName).failed
  }

  /** The ids, in order, of the listeners among `ls` whose handler throws when
      `n` is delivered, each registry starting from its contents in `before`. */
  ghost function Failures(before: map<MeterRegistry, map<MeterId, MeterInfo>>, ls: seq<Listener>, n: Notification): seq<nat>
    requires forall k :: 0 <= k < |ls| ==> ls[k].registry in before
    decreases |ls|
  {
    if ls == [] then []
    else Failures(before, ls[..|ls| - 1], n)
         + (if ThrowsAt(before[ls[|ls| - 1].registry], ls, |ls| - 1, n) then [ls[|ls| - 1].id] else [])
  }

  /** One more listener: its id is reported exactly when its handler throws. */
  lemma FailuresStep(before: map<MeterRegistry, map<MeterId, MeterInfo>>, ls: seq<Listener>, i: nat, n: Notification)
    requires i < |ls| && forall k :: 0 <= k < |ls| ==> ls[k].registry in before
    ensures Failures(before, ls[..i + 1], n)
         == Failures(before, ls[..i], n) + (if ThrowsAt(before[ls[i].registry], ls, i, n) then [ls[i].id] else [])
  {
    assert ls[..i + 1][..i] == ls[..i];
  }

  /** Only the ids of listeners in `ls` are reported. */
  lemma {:induction false} FailuresFromListeners(before: map<MeterRegistry, map<MeterId, MeterInfo>>, ls: seq<Listener>, n: Notification)
    requires forall k :: 0 <= k < |ls| ==> ls[k].registry in before
    ensures forall id :: id in Failures(before, ls, n) ==> exists k :: 0 <= k < |ls| && ls[k].id == id
    decreases |ls|
  {
    if ls != [] {
      var m := |ls| - 1;
      FailuresFromListeners(before, ls[..m], n);
      forall id | id in Failures(before, ls, n) ensures exists k :: 0 <= k < |ls| && ls[k].id == id {
        if id in Failures(before, ls[..m], n) {
          var k :| 0 <= k < m && ls[..m][k].id == id;
          assert ls[k].id == id;
        } else {
          assert ls[m].id == id;
        }
      }
    }
  }

  /** With distinct ids, a listener's id is reported exactly when its handler
      throws. */
  lemma {:induction false} FailuresIff(before: map<MeterRegistry, map<MeterId, MeterInfo>>, ls: seq<Listener>, n: Notification)
    requires DistinctIds(ls) && forall k :: 0 <= k < |ls| ==> ls[k].registry in before
    ensures forall k :: 0 <= k < |ls| ==> (ls[k].id in Failures(before, ls, n) <==> ThrowsAt(before[ls[k].registry], ls, k, n))
    decreases |ls|
  {
    if ls != [] {
      var m := |ls| - 1;
      var init := ls[..m];
      FailuresIff(before, init, n);
      FailuresFromListeners(before, init, n);
      forall k | 0 <= k < |ls|
        ensures ls[k].id in Failures(before, ls, n) <==> ThrowsAt(before[ls[k].registry], ls, k, n)
      {
        if k < m {
          assert init[k] == ls[k] && init[..k] == ls[..k];
          assert ThrowsAt(before[init[k].registry], init, k, n) == ThrowsAt(before[ls[k].registry], ls, k, n);
        } else {
          assert ls[m].id !in Failures(before, init, n);
        }
      }
    }
  }

  /** The ids of some listeners. */
  ghost function IdsOf(ls: seq<Listener>): set<nat>
  {
    set l | l in ls :: l.id
  }

  /** Appending a listener adds its id. */
  lemma IdsOfAppend(ls: seq<Listener>, l: Listener)
    ensures IdsOf(ls + [l]) == IdsOf(ls) + {l.id}
  {
    assert forall x :: x in ls + [l] <==> x in ls || x == l;
  }

  /** An unregistration reaches no listener and changes no registry. */
  lemma {:induction false} UnregistrationReachesNobody(view: map<MeterId, MeterInfo>, registry: MeterRegistry, ls: seq<Listener>, obj: ObjectName)
    ensures Enabled(ls, Notification(UNREGISTRATION_NOTIFICATION, obj)) == []
    ensures Delivered(view, registry, ls, Notification(UNREGISTRATION_NOTIFICATION, obj)) == view
    decreases |ls|
  {
    if ls != [] {
      UnregistrationReachesNobody(view, registry, ls[..|ls| - 1], obj);
    }
  }

  /** The listeners left after removing every listener whose id is in `ids`. */
  function WithoutIds(ls: seq<Listener>, ids: seq<nat>): seq<Listener>
    decreases |ls|
  {
    if ls == [] then []
    else (if ls[0].id in ids then [] else [ls[0]]) + WithoutIds(ls[1..], ids)
  }

  /** When every listener of `b` has its id among `ids`, removing `ids`
      leaves no listener of `b` and no listener with one of those ids. */
  lemma WithoutIdsDropsOwned(ls: seq<Listener>, ids: seq<nat>, b: JmxMeterBinder)
    requires forall l :: l in ls && l.binder == b ==> l.id in ids
    ensures forall i :: 0 <= i < |WithoutIds(ls, ids)| ==> WithoutIds(ls, ids)[i].id !in ids
    ensures forall l :: l in WithoutIds(ls, ids) ==> l.binder != b
  {
    WithoutIdsMembers(ls, ids);
    var r := WithoutIds(ls, ids);
    forall l | l in r ensures l.binder != b {
      var i :| 0 <= i < |r| && r[i] == l;
      assert l in ls && l.id !in ids;
    }
  }

  /** What is left is every listener whose id is not listed, in order: no
      listed id survives, and an unlisted listener is kept. */
  lemma {:induction false} WithoutIdsMembers(ls: seq<Listener>, ids: seq<nat>)
    ensures var r := WithoutIds(ls, ids);
      (forall i :: 0 <= i < |r| ==> r[i] in ls && r[i].id !in ids)
      && (forall i :: 0 <= i < |ls| && ls[i].id !in ids ==> ls[i] in r)
    decreases |ls|
  {
    if ls != [] {
      var tail := ls[1..];
      WithoutIdsMembers(tail, ids);
      var rest := WithoutIds(tail, ids);
      var r := WithoutIds(ls, ids);
      forall i | 0 <= i < |r| ensures r[i] in ls && r[i].id !in ids {
        if ls[0].id !in ids {
          if i > 0 {
            assert r[i] == rest[i - 1];
          }
        } else {
          assert r[i] == rest[i];
        }
      }
      forall i | 0 <= i < |ls| && ls[i].id !in ids ensures ls[i] in r {
        if i > 0 {
          assert ls[i] == tail[i - 1];
        }
      }
    }
  }

  /** Removal distributes over concatenation. */
  lemma {:induction false} WithoutIdsAppend(s: seq<Listener>, t: seq<Listener>, ids: seq<nat>)
    ensures WithoutIds(s + t, ids) == WithoutIds(s, ids) + WithoutIds(t, ids)
    decreases |s|
  {
    if s == [] {
      assert s + t == t;
    } else {
      assert (s + t)[1..] == s[1..] + t;
      WithoutIdsAppend(s[1..], t, ids);
    }
  }

  lemma WithoutIdsSingle(l: Listener, ids: seq<nat>)
    ensures WithoutIds([l], ids) == if l.id in ids then [] else [l]
  {
    assert [l][1..] == [];
  }

  /** Removing no id keeps every listener. */
  lemma {:induction false} WithoutNoIds(ls: seq<Listener>)
    ensures WithoutIds(ls, []) == ls
    decreases |ls|
  {
    if ls != [] {
      WithoutNoIds(ls[1..]);
      assert ls == [ls[0]] + ls[1..];
    }
  }

  /** Removing two id sets one after the other removes their union. */
  /** Removing the ids of a prefix of `ids`, then the next one, removes the
      longer prefix. */
  lemma WithoutIdsPrefixStep(ls: seq<Listener>, ids: seq<nat>, i: nat)
    requires i < |ids|
    ensures WithoutIds(WithoutIds(ls, ids[..i]), [ids[i]]) == WithoutIds(ls, ids[..i + 1])
  {
    WithoutIdsTwice(ls, ids[..i], [ids[i]]);
    assert ids[..i + 1] == ids[..i] + [ids[i]];
  }

  lemma {:induction false} WithoutIdsTwice(ls: seq<Listener>, a: seq<nat>, b: seq<nat>)
    ensures WithoutIds(WithoutIds(ls, a), b) == WithoutIds(ls, a + b)
    decreases |ls|
  {
    if ls != [] {
      var head, tail := [ls[0]], ls[1..];
      assert ls == head + tail;
      WithoutIdsTwice(tail, a, b);
      WithoutIdsAppend(head, tail, a);
      WithoutIdsAppend(head, tail, a + b);
      WithoutIdsAppend(WithoutIds(head, a), WithoutIds(tail, a), b);
      WithoutIdsSingle(ls[0], a);
      WithoutIdsSingle(ls[0], a + b);
      if ls[0].id in a {
        assert WithoutIds(WithoutIds(head, a), b) == [];
      } else {
        WithoutIdsSingle(ls[0], b);
      }
    }
  }

  /** Only which ids are listed matters. */
  lemma {:induction false} WithoutIdsSameIds(ls: seq<Listener>, a: seq<nat>, b: seq<nat>)
    requires forall x :: x in a <==> x in b
    ensures WithoutIds(ls, a) == WithoutIds(ls, b)
    decreases |ls|
  {
    if ls != [] {
      WithoutIdsSameIds(ls[1..], a, b);
    }
  }

  /** A second removal of the same ids removes nothing. */
  lemma WithoutIdsIdempotent(ls: seq<Listener>, ids: seq<nat>)
    ensures WithoutIds(WithoutIds(ls, ids), ids) == WithoutIds(ls, ids)
  {
    WithoutIdsTwice(ls, ids, ids);
    assert forall x :: x in ids + ids <==> x in ids;
    WithoutIdsSameIds(ls, ids + ids, ids);
  }

  datatype RemoveResult = Removed | ListenerNotFound | InstanceNotFound

  datatype RegisterResult = RegisteredOk | InstanceAlreadyExists | NotRegistered

  // ===========================================================================
  // The MBean server
  // ===========================================================================

  /** The MBean server: registered MBeans with their attributes, and the
      listeners registered on the MBeanServerDelegate. Two facts about the JMX
      runtime are parameters: which strings the ObjectName parser accepts, and
      whether the delegate MBean is present (listeners cannot be added or
      removed without it). */
  class MBeanServer {
    var mbeans: map<ObjectName, map<string, Attribute>>
    var listeners: seq<Listener>
    var nextListenerId: nat
    const isWellFormedName: string -> bool
    const hasDelegate: bool

    ghost predicate Valid()
      reads this
    {
      (forall i :: 0 <= i < |listeners| ==> listeners[i].id < nextListenerId && listeners[i].binder.server == this)
      && DistinctIds(listeners)
      && (!hasDelegate ==> listeners == [])
    }

    constructor (isWellFormedName: string -> bool, hasDelegate: bool)
      ensures Valid()
      ensures mbeans == map[] && listeners == [] && nextListenerId == 0
      ensures this.isWellFormedName == isWellFormedName && this.hasDelegate == hasDelegate
    {
      mbeans := map[];
      listeners := [];
      nextListenerId := 0;
      this.isWellFormedName := isWellFormedName;
      this.hasDelegate := hasDelegate;
    }

    /** getAttribute followed by the cast to Number. */
    function GetAttribute(obj: ObjectName, attrName: string): (a: Attribute)
      reads this
      ensures (obj !in mbeans || attrName !in mbeans[obj]) ==> a == Missing
      ensures obj in mbeans && attrName in mbeans[obj] ==> a == mbeans[obj][attrName]
    {
      if obj in mbeans && attrName in mbeans[obj] then mbeans[obj][attrName] else Missing
    }

    /** queryNames(pattern, null). */
    method QueryNames(pattern: NamePattern) returns (names: set<ObjectName>)
      ensures forall o :: o in names <==> o in mbeans && pattern.Matches(o)
    {
      names := set o | o in mbeans && pattern.Matches(o);
    }

    /** addNotificationListener on the delegate: the new listener gets a fresh id. */
    method AddNotificationListener(binder: JmxMeterBinder, registry: MeterRegistry, mbeanType: string,
                                   callback: BindingCallback) returns (ok: bool, id: nat)
      requires Valid() && binder.server == this
      modifies this
      ensures Valid()
      ensures ok == hasDelegate && mbeans == old(mbeans)
      ensures ok ==> (id == old(nextListenerId) && nextListenerId == old(nextListenerId) + 1
                      && listeners == old(listeners) + [Listener(id, binder, registry, mbeanType, callback)])
      ensures !ok ==> listeners == old(listeners) && nextListenerId == old(nextListenerId)
    {
      if !hasDelegate {
        return false, 0;
      }
      id := nextListenerId;
      listeners := listeners + [Listener(id, binder, registry, mbeanType, callback)];
      nextListenerId := nextListenerId + 1;
      ok := true;
    }

    /** removeNotificationListener on the delegate: removes the listener, or
        reports that the delegate or the listener cannot be found. */
    method RemoveNotificationListener(id: nat) returns (result: RemoveResult)
      requires Valid()
      modifies this
      ensures Valid()
      ensures listeners == WithoutIds(old(listeners), [id])
      ensures mbeans == old(mbeans) && nextListenerId == old(nextListenerId)
      ensures result == Removed <==> exists l :: l in old(listeners) && l.id == id
      ensures result == InstanceNotFound <==> !hasDelegate
    {
      var found := exists i :: 0 <= i < |listeners| && listeners[i].id == id;
      var remaining := WithoutIds(listeners, [id]);
      WithoutIdsKeepsDistinct(listeners, [id]);
      WithoutIdsMembers(listeners, [id]);
      listeners := remaining;
      result := if !hasDelegate then InstanceNotFound else if found then Removed else ListenerNotFound;
    }

    /** Delivers a notification from the delegate to every listener whose filter
        enables it, in registration order. A listener that throws does not stop
        the delivery to the others; the ids of those that threw are returned. */
    method SendNotification(n: Notification) returns (failed: seq<nat>, ghost delivered: seq<Listener>)
      requires Valid()
      requires forall l :: l in listeners ==> l.registry.Valid()
      modifies set l | l in listeners :: l.registry
      ensures forall l :: l in listeners ==> l.registry.Valid()
      ensures delivered == Enabled(listeners, n)
      ensures forall id :: id in failed ==> id in IdsOf(delivered)
      ensures forall k :: 0 <= k < |listeners| ==>
                (listeners[k].id in failed <==> ThrowsAt(old(listeners[k].registry.View()), listeners, k, n))
      ensures forall l :: l in listeners ==> l.registry.View() == Delivered(old(l.registry.View()), l.registry, listeners, n)
    {
      var ls := listeners;
      ghost var regs := set l | l in ls :: l.registry;
      ghost var before := map r | r in regs :: r.View();
      assert ls[..0] == [];
      failed, delivered := DeliverAll(ls, n, regs, before);
      assert ls[..|ls|] == ls;
      FailuresIff(before, ls, n);
      forall k | 0 <= k < |ls|
        ensures ls[k].id in failed <==> ThrowsAt(old(ls[k].registry.View()), ls, k, n)
      {
        var r := ls[k].registry;
        assert r in regs && before[r] == old(r.View());
      }
      forall l | l in ls
        ensures l.registry.View() == Delivered(old(l.registry.View()), l.registry, ls, n)
      {
        var r := l.registry;
        assert r in regs && before[r] == old(r.View());
      }
    }

    /** The delivery loop of SendNotification: every listener of `ls` in turn,
        each registry in `regs` starting from its contents in `before`. */
    method DeliverAll(ls: seq<Listener>, n: Notification, ghost regs: set<MeterRegistry>,
                      ghost before: map<MeterRegistry, map<MeterId, MeterInfo>>)
      returns (failed: seq<nat>, ghost delivered: seq<Listener>)
      requires forall k :: 0 <= k < |ls| ==> ls[k].registry in regs
      requires forall r :: r in regs ==> r.Valid()
      requires DeliveredUpTo(regs, before, ls, 0, n)
      modifies regs
      ensures forall r :: r in regs ==> r.Valid()
      ensures DeliveredUpTo(regs, before, ls, |ls|, n)
      ensures delivered == Enabled(ls, n)
      ensures forall id :: id in failed ==> id in IdsOf(delivered)
      ensures failed == Failures(before, ls, n)
    {
      failed, delivered := [], [];
      for i := 0 to |ls|
        invariant forall r :: r in regs ==> r.Valid()
        invariant DeliveredUpTo(regs, before, ls, i, n)
        invariant delivered == Enabled(ls[..i], n)
        invariant forall id :: id in failed ==> id in IdsOf(delivered)
        invariant failed == Failures(before, ls[..i], n)
      {
        var l := ls[i];
        var reached, threw := DeliverNext(ls, i, n, regs, before);
        DeliveryStep(map[], l.registry, ls, i, n);
        FailuresStep(before, ls, i, n);
        if threw {
          failed := failed + [l.id];
        }
        if reached {
          IdsOfAppend(delivered, l);
          delivered := delivered + [l];
        }
      }
      assert ls[..|ls|] == ls;
    }

    /** Delivery of `n` to the listeners `ls[..i]` has brought every registry
        in `regs` from its contents in `before` to what Delivered says. */
    ghost predicate DeliveredUpTo(regs: set<MeterRegistry>, before: map<MeterRegistry, map<MeterId, MeterInfo>>,
                                  ls: seq<Listener>, i: nat, n: Notification)
      reads regs
    {
      i <= |ls|
      && forall r :: r in regs ==> r in before && r.View() == Delivered(before[r], r, ls[..i], n)
    }

    /** One step of the delivery: the listener `ls[i]` is reached when its
        filter enables `n`, and only its own registry changes. */
    method DeliverNext(ls: seq<Listener>, i: nat, n: Notification, ghost regs: set<MeterRegistry>,
                       ghost before: map<MeterRegistry, map<MeterId, MeterInfo>>) returns (reached: bool, threw: bool)
      requires i < |ls| && ls[i].registry in regs
      requires forall r :: r in regs ==> r.Valid()
      requires DeliveredUpTo(regs, before, ls, i, n)
      modifies ls[i].registry
      ensures forall r :: r in regs ==> r.Valid()
      ensures DeliveredUpTo(regs, before, ls, i + 1, n)
      ensures reached == IsNotificationEnabled(ls[i], n)
      ensures threw == ThrowsAt(before[ls[i].registry], ls, i, n)
    {
      var l := ls[i];
      forall r | r in regs
        ensures Delivered(before[r], r, ls[..i + 1], n)
             == if l.registry == r && IsNotificationEnabled(l, n)
                then BindOutcome(Delivered(before[r], r, ls[..i], n), l.binder.tags, l.binder.tagger, l.callback, n.mbeanName).view
                else Delivered(before[r], r, ls[..i], n)
      {
        DeliveryStep(before[r], r, ls, i, n);
      }
      reached, threw := IsNotificationEnabled(l, n), false;
      if reached {
        threw := DeliverTo(l, n, regs);
      }
    }

    /** Runs one listener's handler: binds the MBean the notification names
        in that listener's registry. No other registry changes. */
    method DeliverTo(l: Listener, n: Notification, ghost regs: set<MeterRegistry>) returns (threw: bool)
      requires l.registry in regs
      requires forall r :: r in regs ==> r.Valid()
      modifies l.registry
      ensures forall r :: r in regs ==> r.Valid()
      ensures forall r :: r in regs && r != l.registry ==> r.View() == old(r.View())
      ensures BindResult(l.registry.View(), threw)
           == BindOutcome(old(l.registry.View()), l.binder.tags, l.binder.tagger, l.callback, n.mbeanName)
    {
      threw := l.binder.BindMetersForMBean(l.registry, n.mbeanName, l.callback);
    }

    /** registerMBean: the new MBean becomes visible with its attributes and the
        registration notification goes out. */
    method RegisterMBean(obj: ObjectName, attributes: map<string, Attribute>)
      returns (result: RegisterResult, failed: seq<nat>, ghost delivered: seq<Listener>)
      requires Valid()
      requires forall l :: l in listeners ==> l.registry.Valid()
      modifies this, set l | l in listeners :: l.registry
      ensures Valid() && listeners == old(listeners) && nextListenerId == old(nextListenerId)
      ensures forall l :: l in listeners ==> l.registry.Valid()
      ensures result == InstanceAlreadyExists <==> obj in old(mbeans)
      ensures obj !in old(mbeans) ==> result == RegisteredOk
      ensures result == InstanceAlreadyExists ==> mbeans == old(mbeans) && delivered == [] && failed == []
      ensures result == RegisteredOk ==> (mbeans == old(mbeans)[obj := attributes]
                && delivered == Enabled(listeners, Notification(REGISTRATION_NOTIFICATION, obj))
                && forall id :: id in failed ==> id in IdsOf(delivered))
      ensures result == RegisteredOk ==> forall k :: 0 <= k < |listeners| ==>
                (listeners[k].id in failed
                 <==> ThrowsAt(old(listeners[k].registry.View()), listeners, k, Notification(REGISTRATION_NOTIFICATION, obj)))
      ensures result == RegisteredOk ==> forall l :: l in listeners ==>
                l.registry.View() == Delivered(old(l.registry.View()), l.registry, listeners, Notification(REGISTRATION_NOTIFICATION, obj))
      ensures result == InstanceAlreadyExists ==> forall l :: l in listeners ==> l.registry.View() == old(l.registry.View())
    {
      if obj in mbeans {
        return InstanceAlreadyExists, [], [];
      }
      mbeans := mbeans[obj := attributes];
      failed, delivered := SendNotification(Notification(REGISTRATION_NOTIFICATION, obj));
      result := RegisteredOk;
    }

    /** unregisterMBean: the MBean disappears, so every later read of its
        attributes fails; no listener of a binder is enabled for the
        unregistration notification. */
    method UnregisterMBean(obj: ObjectName) returns (result: RegisterResult)
      requires Valid()
      requires forall l :: l in listeners ==> l.registry.Valid()
      modifies this, set l | l in listeners :: l.registry
      ensures Valid() && listeners == old(listeners) && nextListenerId == old(nextListenerId)
      ensures forall l :: l in listeners ==> l.registry.Valid() && l.registry.View() == old(l.registry.View())
      ensures result == NotRegistered <==> obj !in old(mbeans)
      ensures obj in old(mbeans) ==> result == RegisteredOk
      ensures mbeans == old(mbeans) - {obj}
    {
      if obj !in mbeans {
        return NotRegistered;
      }
      mbeans := mbeans - {obj};
      var failed, delivered := SendNotification(Notification(UNREGISTRATION_NOTIFICATION, obj));
      forall l | l in listeners
        ensures Delivered(old(l.registry.View()), l.registry, listeners, Notification(UNREGISTRATION_NOTIFICATION, obj)) == old(l.registry.View())
      {
        UnregistrationReachesNobody(old(l.registry.View()), l.registry, listeners, obj);
      }
      result := RegisteredOk;
    }

    /** The MBean's attribute takes a new value (or stops being a number). */
    method SetAttribute(obj: ObjectName, attrName: string, a: Attribute)
      requires obj in mbeans
      modifies this
      ensures mbeans == old(mbeans)[obj := old(mbeans)[obj][attrName := a]]
      ensures listeners == old(listeners) && nextListenerId == old(nextListenerId)
    {
      mbeans := mbeans[obj := mbeans[obj][attrName := a]];
    }
  }

  ghost predicate DistinctIds(ls: seq<Listener>)
  {
    forall i, j :: 0 <= i < j < |ls| ==> ls[i].id != ls[j].id
  }

  lemma {:induction false} WithoutIdsKeepsDistinct(ls: seq<Listener>, ids: seq<nat>)
    requires DistinctIds(ls)
    ensures DistinctIds(WithoutIds(ls, ids))
    decreases |ls|
  {
    if ls != [] {
      var tail := ls[1..];
      WithoutIdsKeepsDistinct(tail, ids);
      var rest := WithoutIds(tail, ids);
      var r := WithoutIds(ls, ids);
      if ls[0].id in ids {
        assert r == rest;
      } else {
        assert r == [ls[0]] + rest;
        WithoutIdsMembers(tail, ids);
        forall x | x in rest ensures x.id != ls[0].id {
          var k :| 0 <= k < |tail| && tail[k] == x;
          assert ls[k + 1] == x;
        }
        PrependKeepsDistinct(ls[0], rest);
      }
    }
  }

  /** A listener whose id no other has keeps the ids distinct in front. */
  lemma PrependKeepsDistinct(l: Listener, rest: seq<Listener>)
    requires DistinctIds(rest)
    requires forall x :: x in rest ==> x.id != l.id
    ensures DistinctIds([l] + rest)
  {
    var r := [l] + rest;
    forall i, j | 0 <= i < j < |r| ensures r[i].id != r[j].id {
      assert r[j] == rest[j - 1];
      if i > 0 {
        assert r[i] == rest[i - 1];
      }
    }
  }

  // ===========================================================================
  // BindingContext
  // ===========================================================================

  /** The context a binding callback receives for one MBean. */
  class BindingContext {
    const server: MBeanServer
    const registry: MeterRegistry
    const obj: ObjectName
    const tags: seq<Tag>

    /** The four arguments are references or values that cannot be null here,
        so Objects.requireNonNull has nothing left to check. */
    constructor (server: MBeanServer, registry: MeterRegistry, obj: ObjectName, tags: seq<Tag>)
      ensures this.server == server && this.registry == registry && this.obj == obj && this.tags == tags
    {
      this.server := server;
      this.registry := registry;
      this.obj := obj;
      this.tags := tags;
    }

    function GetObjectName(): ObjectName
    {
      obj
    }

    function GetTags(): seq<Tag>
    {
      tags
    }

    /** The common body of the three bind methods: allocate the handle cell,
        register the meter whose accessor reads `attrName`, then fill the cell
        with the registered meter. */
    method BindMeter(kind: MeterKind, attrName: string, meterName: string, description: string)
      requires registry.Valid()
      modifies registry
      ensures registry.Valid()
      ensures registry.View() == Registered(old(registry.View()), MeterId(meterName, tags), MeterInfo(kind, description, obj, attrName))
    {
      var meterRef := new HandleCell();
      var m := Meter(kind, description, Accessor(this, attrName, meterRef));
      var meter := registry.Register(MeterId(meterName, tags), m);
      meterRef.Set(meter);
      assert registry.View() == Registered(old(registry.View()), MeterId(meterName, tags), InfoOf(m));
    }

    method BindGauge(attrName: string, meterName: string, description: string)
      requires registry.Valid()
      modifies registry
      ensures registry.Valid()
      ensures registry.View() == Registered(old(registry.View()), MeterId(meterName, tags), MeterInfo(Gauge, description, obj, attrName))
    {
      BindMeter(Gauge, attrName, meterName, description);
    }

    method BindTimeGauge(attrName: string, meterName: string, description: string, timeUnit: TimeUnit)
      requires registry.Valid()
      modifies registry
      ensures registry.Valid()
      ensures registry.View() == Registered(old(registry.View()), MeterId(meterName, tags), MeterInfo(TimeGauge(timeUnit), description, obj, attrName))
    {
      BindMeter(TimeGauge(timeUnit), attrName, meterName, description);
    }

    method BindFunctionCounter(attrName: string, meterName: string, description: string)
      requires registry.Valid()
      modifies registry
      ensures registry.Valid()
      ensures registry.View() == Registered(old(registry.View()), MeterId(meterName, tags), MeterInfo(FunctionCounter, description, obj, attrName))
    {
      BindMeter(FunctionCounter, attrName, meterName, description);
    }

    /** The binds of one callback invocation, performed in order. */
    method Perform(ds: seq<Declaration>)
      requires registry.Valid()
      modifies registry
      ensures registry.Valid()
      ensures registry.View() == Declared(old(registry.View()), obj, tags, ds)
    {
      for i := 0 to |ds|
        invariant registry.Valid()
        invariant registry.View() == Declared(old(registry.View()), obj, tags, ds[..i])
      {
        var d := ds[i];
        assert ds[..i + 1][..i] == ds[..i];
        match d.kind
        case Gauge => BindGauge(d.attrName, d.meterName, d.description);
        case TimeGauge(unit) => BindTimeGauge(d.attrName, d.meterName, d.description, unit);
        case FunctionCounter => BindFunctionCounter(d.attrName, d.meterName, d.description);
      }
      assert ds[..|ds|] == ds;
    }

    /** The accessor's body: a numeric attribute is returned as it is; a
        ClassCastException or JMException removes the meter named by `meterRef`
        and yields NaN; any other exception escapes and removes nothing. */
    method GetAttributeValueOrUnbindMeter(registry: MeterRegistry, meterRef: HandleCell, obj: ObjectName, attrName: string)
      returns (r: Reading)
      requires meterRef.meter.Some?
      modifies registry
      ensures match server.GetAttribute(obj, attrName)
        case Numeric(v) => r == Value(v) && registry.meters == old(registry.meters)
        case Uncaught => r == Raised && registry.meters == old(registry.meters)
        case _ => r == NaN && registry.meters == old(registry.meters) - {meterRef.meter.value}
    {
      match server.GetAttribute(obj, attrName)
      case Numeric(v) =>
        r := Value(v);
      case Uncaught =>
        r := Raised;
      case _ =>
        registry.Remove(meterRef.meter.value);
        r := NaN;
    }
  }

  // ===========================================================================
  // JmxMeterBinder
  // ===========================================================================

  datatype Outcome = Ok | ConfigError | CallbackError

  /** One bindMetricsForMBeanType call a meter binder issues: an MBean type and
      the callback for it. */
  datatype Registration = Registration(mbeanType: string, callback: BindingCallback)

  /** The listeners that the registrations `regs` add, in order, when the
      server's next listener id is `firstId`. */
  ghost function Subscriptions(firstId: nat, binder: JmxMeterBinder, registry: MeterRegistry, regs: seq<Registration>): seq<Listener>
    decreases |regs|
  {
    if regs == [] then []
    else
      var last := regs[|regs| - 1];
      Subscriptions(firstId, binder, registry, regs[..|regs| - 1])
        + [Listener(firstId + |regs| - 1, binder, registry, last.mbeanType, last.callback)]
  }

  /** Issuing one more registration adds one listener, with the next id. */
  lemma SubscriptionsStep(firstId: nat, binder: JmxMeterBinder, registry: MeterRegistry, regs: seq<Registration>, k: nat)
    requires k < |regs|
    ensures Subscriptions(firstId, binder, registry, regs[..k + 1])
         == Subscriptions(firstId, binder, registry, regs[..k])
            + [Listener(firstId + k, binder, registry, regs[k].mbeanType, regs[k].callback)]
  {
    assert regs[..k + 1][..k] == regs[..k];
  }

  /** The registry after the registrations `regs` have scanned the existing
      MBeans, the i-th registration visiting `orders[i]`. */
  ghost function ScanAll(view: map<MeterId, MeterInfo>, presetTags: seq<Tag>, tagger: TagsExtractor,
                         regs: seq<Registration>, orders: seq<seq<ObjectName>>): map<MeterId, MeterInfo>
    requires |orders| <= |regs|
    decreases |orders|
  {
    if orders == [] then view
    else
      var k := |orders| - 1;
      Scan(ScanAll(view, presetTags, tagger, regs, orders[..k]), presetTags, tagger, regs[k].callback, orders[k]).view
  }

  /** One more successful registration extends both the subscribed listeners
      and the cleanup entries by one, with the next id. */
  lemma SubscribedOneMore(l0: seq<Listener>, c0: seq<nat>, n0: nat, binder: JmxMeterBinder, registry: MeterRegistry,
                          regs: seq<Registration>, k: nat, listeners: seq<Listener>, cleanup: seq<nat>,
                          id: nat, listeners': seq<Listener>, cleanup': seq<nat>)
    requires k < |regs| && id == n0 + k
    requires listeners == l0 + Subscriptions(n0, binder, registry, regs[..k])
    requires cleanup == c0 + IdRange(n0, k)
    requires listeners' == listeners + [Listener(id, binder, registry, regs[k].mbeanType, regs[k].callback)]
    requires cleanup' == cleanup + [id]
    ensures listeners' == l0 + Subscriptions(n0, binder, registry, regs[..k + 1])
    ensures cleanup' == c0 + IdRange(n0, k + 1)
  {
    SubscriptionsStep(n0, binder, registry, regs, k);
  }

  /** One more registration scans one more list of MBeans. */
  lemma ScanAllStep(view: map<MeterId, MeterInfo>, presetTags: seq<Tag>, tagger: TagsExtractor,
                    regs: seq<Registration>, orders: seq<seq<ObjectName>>, order: seq<ObjectName>)
    requires |orders| < |regs|
    ensures ScanAll(view, presetTags, tagger, regs, orders + [order])
         == Scan(ScanAll(view, presetTags, tagger, regs, orders), presetTags, tagger, regs[|orders|].callback, order).view
  {
    assert (orders + [order])[..|orders|] == orders;
  }

  /** The ids firstId, firstId + 1, ..., firstId + count - 1. */
  function IdRange(firstId: nat, count: nat): (ids: seq<nat>)
    ensures |ids| == count
    ensures forall i :: 0 <= i < count ==> ids[i] == firstId + i
    decreases count
  {
    if count == 0 then [] else IdRange(firstId, count - 1) + [firstId + count - 1]
  }

  /** `order` lists existing MBeans that match `pattern`, each at most once; a
      pattern that parses lists all of them, one that does not lists none. This
      is what a bindMetricsForMBeanType call whose callback never throws visits. */
  ghost predicate ScansMatching(mbeans: set<ObjectName>, pattern: NamePattern, parses: bool, order: seq<ObjectName>)
  {
    NoDuplicates(order)
    && (forall o :: o in order ==> o in mbeans && pattern.Matches(o))
    && (parses ==> forall o :: o in mbeans && pattern.Matches(o) ==> o in order)
    && (!parses ==> order == [])
  }

  class JmxMeterBinder {
    const jmxDomain: string
    const tagger: TagsExtractor
    const tags: seq<Tag>
    const server: MBeanServer
    /** One cleanup entry per subscription: the id of the listener it removes. */
    var cleanup: seq<nat>

    constructor (jmxDomain: string, tagger: TagsExtractor, tags: seq<Tag>, server: MBeanServer)
      ensures this.jmxDomain == jmxDomain && this.tagger == tagger && this.tags == tags && this.server == server
      ensures cleanup == [] && Owns()
    {
      this.jmxDomain := jmxDomain;
      this.tagger := tagger;
      this.tags := tags;
      this.server := server;
      cleanup := [];
      new;
      assert forall l :: l in server.listeners ==> l.binder != this;
    }

    /** Every listener of the server that calls back into this binder is one
        its cleanup entries remove: the listener is a lambda private to the
        binder, so only the binder's own subscriptions create one. */
    ghost predicate Owns()
      reads this, server
    {
      forall l :: l in server.listeners && l.binder == this ==> l.id in cleanup
    }

    /** The query pattern for `mbeanType` parses. */
    predicate PatternParses(mbeanType: string)
    {
      server.isWellFormedName(NamePattern(jmxDomain, mbeanType).Text())
    }

    /** bindMetricsForMBeanType for `mbeanType` subscribes, unless a callback
        throws: its query pattern parses and the server has its delegate. */
    predicate Subscribes(mbeanType: string)
    {
      PatternParses(mbeanType) && server.hasDelegate
    }

    /** Binds every existing MBean of type `mbeanType` in the binder's domain,
        then subscribes for those registered later. The query pattern is
        `jmxDomain:type=mbeanType,*`; a pattern the parser rejects, or a failed
        subscription, is a ConfigError; a callback that throws stops the scan
        and no subscription is made. `order` is the (unspecified) order in
        which the existing MBeans were visited. */
    method BindMetricsForMBeanType(registry: MeterRegistry, mbeanType: string, callback: BindingCallback)
      returns (r: Outcome, ghost order: seq<ObjectName>)
      requires server.Valid() && registry.Valid() && Owns()
      modifies this, server, registry
      ensures server.Valid() && registry.Valid() && Owns()
      ensures server.mbeans == old(server.mbeans)
      ensures NoDuplicates(order)
      ensures forall o :: o in order ==> o in old(server.mbeans) && NamePattern(jmxDomain, mbeanType).Matches(o)
      ensures registry.View() == Scan(old(registry.View()), tags, tagger, callback, order).view
      ensures r == CallbackError <==> Scan(old(registry.View()), tags, tagger, callback, order).failed
      ensures !server.isWellFormedName(jmxDomain + ":type=" + mbeanType + ",*") ==> r == ConfigError && order == []
      ensures r == Ok <==> server.isWellFormedName(NamePattern(jmxDomain, mbeanType).Text()) && r != CallbackError && server.hasDelegate
      ensures r != CallbackError && server.isWellFormedName(NamePattern(jmxDomain, mbeanType).Text()) ==>
                forall o :: o in old(server.mbeans) && NamePattern(jmxDomain, mbeanType).Matches(o) ==> o in order
      ensures r == Ok ==> (cleanup == old(cleanup) + [old(server.nextListenerId)]
                        && server.listeners == old(server.listeners) + [Listener(old(server.nextListenerId), this, registry, mbeanType, callback)]
                        && server.nextListenerId == old(server.nextListenerId) + 1)
      ensures r != Ok ==> (cleanup == old(cleanup) && server.listeners == old(server.listeners)
                        && server.nextListenerId == old(server.nextListenerId))
    {
      r, order := BindMetersForExistingMBeans(registry, mbeanType, callback);
      if r != Ok {
        return;
      }
      r := EnsureMetersBindingForFutureMBeans(registry, mbeanType, callback);
    }

    method BindMetersForExistingMBeans(registry: MeterRegistry, mbeanType: string, callback: BindingCallback)
      returns (r: Outcome, ghost order: seq<ObjectName>)
      requires registry.Valid()
      modifies registry
      ensures registry.Valid()
      ensures r != ConfigError <==> server.isWellFormedName(NamePattern(jmxDomain, mbeanType).Text())
      ensures r == ConfigError ==> order == []
      ensures NoDuplicates(order)
      ensures forall o :: o in order ==> o in server.mbeans && NamePattern(jmxDomain, mbeanType).Matches(o)
      ensures registry.View() == Scan(old(registry.View()), tags, tagger, callback, order).view
      ensures r == CallbackError <==> Scan(old(registry.View()), tags, tagger, callback, order).failed
      ensures r == Ok ==> forall o :: o in server.mbeans && NamePattern(jmxDomain, mbeanType).Matches(o) ==> o in order
    {
      var pattern := NamePattern(jmxDomain, mbeanType);
      order := [];
      if !server.isWellFormedName(pattern.Text()) {
        return ConfigError, order;
      }
      var objects := server.QueryNames(pattern);
      var threw;
      threw, order := BindEach(registry, objects, callback);
      r := if threw then CallbackError else Ok;
    }

    /** The for loop over the query result: binds the MBeans of `objects` one
        at a time, in some order, and stops at the first callback that throws. */
    method BindEach(registry: MeterRegistry, objects: set<ObjectName>, callback: BindingCallback)
      returns (threw: bool, ghost order: seq<ObjectName>)
      requires registry.Valid()
      modifies registry
      ensures registry.Valid()
      ensures NoDuplicates(order)
      ensures forall o :: o in order ==> o in objects
      ensures registry.View() == Scan(old(registry.View()), tags, tagger, callback, order).view
      ensures threw == Scan(old(registry.View()), tags, tagger, callback, order).failed
      ensures !threw ==> forall o :: o in objects ==> o in order
    {
      order := [];
      var remaining := objects;
      while remaining != {}
        invariant remaining <= objects
        invariant forall o :: o in objects <==> o in remaining || o in order
        invariant forall o :: o in order ==> o !in remaining
        invariant NoDuplicates(order)
        invariant registry.Valid()
        invariant registry.View() == Scan(old(registry.View()), tags, tagger, callback, order).view
        invariant !Scan(old(registry.View()), tags, tagger, callback, order).failed
        decreases remaining
      {
        var obj :| obj in remaining;
        threw := BindMetersForMBean(registry, obj, callback);
        ghost var before := order;
        order := order + [obj];
        assert order[..|order| - 1] == before;
        remaining := remaining - {obj};
        if threw {
          return;
        }
      }
      threw := false;
    }

    /** Adds the listener with its filter and records the cleanup entry that
        will remove it. */
    method EnsureMetersBindingForFutureMBeans(registry: MeterRegistry, mbeanType: string, callback: BindingCallback)
      returns (r: Outcome)
      requires server.Valid() && Owns()
      modifies this, server
      ensures server.Valid() && Owns() && server.mbeans == old(server.mbeans)
      ensures r == Ok <==> server.hasDelegate
      ensures r != Ok ==> r == ConfigError
      ensures r == Ok ==> (cleanup == old(cleanup) + [old(server.nextListenerId)]
                        && server.listeners == old(server.listeners) + [Listener(old(server.nextListenerId), this, registry, mbeanType, callback)]
                        && server.nextListenerId == old(server.nextListenerId) + 1)
      ensures r != Ok ==> (cleanup == old(cleanup) && server.listeners == old(server.listeners)
                        && server.nextListenerId == old(server.nextListenerId))
    {
      var ok, id := server.AddNotificationListener(this, registry, mbeanType, callback);
      if !ok {
        return ConfigError;
      }
      cleanup := cleanup + [id];
      r := Ok;
    }

    /** Builds the context for `obj` with tags concat(preset, extracted) and
        runs the callback in it; returns whether the callback threw. */
    method BindMetersForMBean(registry: MeterRegistry, obj: ObjectName, callback: BindingCallback) returns (threw: bool)
      requires registry.Valid()
      modifies registry
      ensures registry.Valid()
      ensures BindResult(registry.View(), threw) == BindOutcome(old(registry.View()), tags, tagger, callback, obj)
    {
      var ctxTags := Concat(tags, tagger(obj));
      var context := new BindingContext(server, registry, obj, ctxTags);
      var invocation := callback(context.GetObjectName(), context.GetTags());
      context.Perform(invocation.declarations);
      threw := invocation.fails;
    }

    /** close: runs the cleanup, so that no listener of this binder is left
        and no more callbacks reach it. */
    method Close()
      requires server.Valid() && Owns()
      modifies server
      ensures server.Valid() && Owns()
      ensures server.listeners == WithoutIds(old(server.listeners), cleanup)
      ensures forall i :: 0 <= i < |server.listeners| ==> server.listeners[i].id !in cleanup
      ensures forall l :: l in server.listeners ==> l.binder != this
      ensures server.mbeans == old(server.mbeans) && server.nextListenerId == old(server.nextListenerId)
    {
      ghost var initial := server.listeners;
      RunCleanup();
      WithoutIdsDropsOwned(initial, cleanup, this);
    }

    /** Runs every cleanup entry once, in order; a listener that is already gone
        is ignored, so closing again changes nothing and raises nothing. */
    method RunCleanup()
      requires server.Valid()
      modifies server
      ensures server.Valid()
      ensures server.listeners == WithoutIds(old(server.listeners), cleanup)
      ensures server.mbeans == old(server.mbeans) && server.nextListenerId == old(server.nextListenerId)
    {
      var s, entries := server, cleanup;
      ghost var initial := s.listeners;
      WithoutNoIds(initial);
      for i := 0 to |entries|
        invariant s.Valid()
        invariant s.listeners == WithoutIds(initial, entries[..i])
        invariant s.mbeans == old(s.mbeans) && s.nextListenerId == old(s.nextListenerId)
      {
        var _ := s.RemoveNotificationListener(entries[i]);
        WithoutIdsPrefixStep(initial, entries, i);
      }
      assert entries[..|entries|] == entries;
    }
  }
}
