/**
 * The object-path bookkeeping of `AbstractDBusInterface`
 * (plugins/dbus/abstractdbusinterface.h).
 *
 * The C++ class keeps a process-wide static `interfaceMap` from D-Bus object
 * path to interface object, and a static list of implemented property names.
 * Here both live in an explicit `Registry` object handed to the operations
 * that touch them.  Interfaces, properties and connections are represented by
 * identity only.
 *
 * `setObjectPath` is modelled as written: it erases the entry keyed by the NEW
 * path and then stores this interface under it, so an entry left under the
 * interface's previous path stays in the map.
 */
module DBusInterface {

  /** `Zone::Type`, the zone an interface filters on. */
  type ZoneType = int

  /** An `AbstractProperty*`, by identity. */
  datatype PropertyRef = PropertyRef(id: nat)

  /** A `GDBusConnection*`, by identity; `NullConnection` for `nullptr`. */
  datatype ConnectionRef = NullConnection | Connection(id: nat)

  /**
   * The map update `setObjectPath(op)` performs on `interfaceMap`: erase the
   * key `op` if present, then store `x` under `op`.
   */
  function Rebind<I>(m: map<string, I>, op: string, x: I): (r: map<string, I>)
    ensures op in r && r[op] == x
    ensures r.Keys == m.Keys + {op}
    ensures forall k :: k in m && k != op ==> r[k] == m[k]
  {
    var erased := if op in m then m - {op} else m;
    erased[op := x]
  }

  /** The map grows by one entry exactly when `op` was not a key already. */
  lemma RebindSize<I>(m: map<string, I>, op: string, x: I)
    ensures |Rebind(m, op, x)| == if op in m then |m| else |m| + 1
  {
  }

  /** Binding the same path to the same interface twice is binding it once. */
  lemma RebindIdempotent<I>(m: map<string, I>, op: string, x: I)
    ensures Rebind(Rebind(m, op, x), op, x) == Rebind(m, op, x)
  {
  }

  /**
   * Moving an interface from path `p` to another path `op` does not free `p`:
   * both paths now resolve to the interface.
   */
  lemma RebindKeepsPreviousPath<I>(m: map<string, I>, p: string, op: string, x: I)
    requires p in m && m[p] == x && p != op
    ensures p in Rebind(m, op, x) && Rebind(m, op, x)[p] == x
    ensures op in Rebind(m, op, x) && Rebind(m, op, x)[op] == x
  {
  }

  /** The map after a run of `setObjectPath` calls, each a (path, interface) pair. */
  function RebindAll<I>(m: map<string, I>, calls: seq<(string, I)>): map<string, I>
    decreases |calls|
  {
    if calls == [] then m
    else RebindAll(Rebind(m, calls[0].0, calls[0].1), calls[1..])
  }

  /** The paths named by a run of `setObjectPath` calls. */
  function PathsOf<I>(calls: seq<(string, I)>): set<string>
    decreases |calls|
  {
    if calls == [] then {} else {calls[0].0} + PathsOf(calls[1..])
  }

  /**
   * `setObjectPath` never removes a key: after any run of calls the map's keys
   * are the keys it started with plus every path that was set.
   */
  lemma {:induction false} RebindAllKeys<I>(m: map<string, I>, calls: seq<(string, I)>)
    ensures RebindAll(m, calls).Keys == m.Keys + PathsOf(calls)
    decreases |calls|
  {
    if calls != [] {
      RebindAllKeys(Rebind(m, calls[0].0, calls[0].1), calls[1..]);
    }
  }

  /** The process-wide static state of `AbstractDBusInterface`. */
  class Registry {
    /** `interfaceMap`: object path to interface. */
    var interfaceMap: map<string, Interface>
    /** `mimplementedProperties`. */
    var implementedProperties: seq<string>

    /** The statics as the program starts: both empty. */
    constructor ()
      ensures interfaceMap == map[] && implementedProperties == []
    {
      interfaceMap := map[];
      implementedProperties := [];
    }
  }

  /** The per-object fields of an `AbstractDBusInterface`. */
  datatype Fields = Fields(
    objectPath: string,
    propertyName: string,
    zone: ZoneType,
    properties: map<string, PropertyRef>,
    connection: ConnectionRef)

  class Interface {
    const interfaceName: string
    var objectPath: string
    var propertyName: string
    var zoneFilter: ZoneType
    var properties: map<string, PropertyRef>
    var connection: ConnectionRef

    /** All mutable fields at once, to say what an operation leaves alone. */
    function State(): Fields
      reads this
    {
      Fields(objectPath, propertyName, zoneFilter, properties, connection)
    }

    /**
     * An interface in the given state.  It does not touch the registry: the
     * operations below are proved for every starting state.
     */
    constructor (interfaceName: string, objectPath: string, connection: ConnectionRef,
                 propertyName: string, zone: ZoneType, properties: map<string, PropertyRef>)
      ensures this.interfaceName == interfaceName
      ensures State() == Fields(objectPath, propertyName, zone, properties, connection)
    {
      this.interfaceName := interfaceName;
      this.objectPath := objectPath;
      this.propertyName := propertyName;
      this.zoneFilter := zone;
      this.properties := properties;
      this.connection := connection;
    }

    /** `setDBusConnection`: replaces the connection and nothing else. */
    method SetDBusConnection(c: ConnectionRef)
      modifies this
      ensures connection == c
      ensures State() == old(State()).(connection := c)
    {
      connection := c;
    }

    /**
     * `setObjectPath(op)`: erase `interfaceMap[op]` if present, set the path,
     * then `interfaceMap[op] = this`.  Every other entry is unchanged,
     * including one under this interface's previous path.
     */
    method SetObjectPath(registry: Registry, op: string)
      modifies this, registry
      ensures objectPath == op
      ensures State() == old(State()).(objectPath := op)
      ensures registry.implementedProperties == old(registry.implementedProperties)
      ensures registry.interfaceMap == Rebind(old(registry.interfaceMap), op, this)
      ensures registry.interfaceMap[op] == this
      ensures registry.interfaceMap.Keys == old(registry.interfaceMap.Keys) + {op}
      ensures forall k :: k in old(registry.interfaceMap) && k != op ==>
                registry.interfaceMap[k] == old(registry.interfaceMap[k])
    {
      if op in registry.interfaceMap {
        registry.interfaceMap := registry.interfaceMap - {op};
      }
      objectPath := op;
      registry.interfaceMap := registry.interfaceMap[op := this];
    }

    /** `objectPath()`: the current path. */
    function ObjectPath(): (r: string)
      reads this
      ensures r == State().objectPath
    {
      objectPath
    }

    /** `propertyName()`: the current property name. */
    function PropertyName(): (r: string)
      reads this
      ensures r == State().propertyName
    {
      propertyName
    }

    /** `zone()`: the zone filter. */
    function Zone(): (r: ZoneType)
      reads this
      ensures r == State().zone
    {
      zoneFilter
    }

    /** `getProperties()`: a copy of the name-to-property map. */
    function GetProperties(): (r: map<string, PropertyRef>)
      reads this
      ensures r == State().properties
    {
      properties
    }

    /** The static `implementedProperties()`: a copy of the name list. */
    static function ImplementedProperties(registry: Registry): (r: seq<string>)
      reads registry
      ensures r == registry.implementedProperties
    {
      registry.implementedProperties
    }
  }

  /**
   * Two calls of `setObjectPath` with the same path leave the same state as
   * one, and moving an interface leaves its old path registered.
   */
  method SetObjectPathClient(registry: Registry, a: Interface, op: string)
    modifies a, registry
  {
    var before := a.ObjectPath();
    var wasRegistered := before in registry.interfaceMap && registry.interfaceMap[before] == a;
    a.SetObjectPath(registry, op);
    var once := registry.interfaceMap;
    a.SetObjectPath(registry, op);
    RebindIdempotent(once, op, a);
    assert registry.interfaceMap == once;
    assert a.ObjectPath() == op;
    if wasRegistered && before != op {
      assert registry.interfaceMap[before] == a && registry.interfaceMap[op] == a;
    }
  }
}
