# Property values and D-Bus object paths of the automotive message broker

This project models two small stateful pieces of the automotive message broker in Dafny and proves what they promise.

- **The type-erased property value** (`lib/abstractpropertytype.h`). `AbstractPropertyType` holds one `boost::any`, which is a value together with its run-time type tag. `BasicPropertyType<T>` fixes `T`. It can be built from a `T`, by copy, or by parsing a string, and its `toString` formats the held `T`. Module `PropertyType` (file `property_type.dfy`) models both C++ classes as one class, `PropertyValue`. Its constant `typeArg` records which C++ class an object is. A `boost::any` becomes the datatype `Any`, and `any_cast` becomes `AnyCast`. The two exceptions, `bad_any_cast` and `bad_lexical_cast`, become `Err` results.
- **The object-path registry of `AbstractDBusInterface`** (`plugins/dbus/abstractdbusinterface.h`). The process-wide static `interfaceMap` (path to interface) and the static list of implemented property names live in an explicit `Registry` object. That object is passed to the operations that touch it. Module `DBusInterface` (file `dbus_interface.dfy`) has the class `Interface` with its accessors and setters. The function `Rebind` is the map update that `setObjectPath` performs.

`setObjectPath` is modelled exactly as the header writes it. It erases the entry keyed by the **new** path `op`, sets the path, and then stores the interface under `op`. The entry under the interface's previous path is left in the map. One might expect moving an interface to free its old path; the code does not, and the model follows the code: `RebindKeepsPreviousPath` and `RebindAllKeys` state the consequence. No key is ever removed, and a moved interface stays reachable under its old path.

`wrappers.dfy` holds the shared `Option` datatype.

## Model

| member | source | states |
|---|---|---|
| `PropertyType.AnyCast` | lib/abstractpropertytype.h:40-44 | any_cast succeeds exactly when the held tag is the requested type and returns the held value unchanged; otherwise bad_any_cast, with no coercion and no match for an empty any |
| `PropertyType.PropertyValue.Value` | lib/abstractpropertytype.h:40-44 | value<T>() succeeds iff the stored value has type T, returns that value, and fails with bad_any_cast otherwise; it only reads the object |
| `PropertyType.PropertyValue.SetValue` | lib/abstractpropertytype.h:35-38 | setValue replaces the value and its tag together: afterwards value<U>() returns the new value for its own type U and fails for every other type, whatever was held before |
| `PropertyType.PropertyValue.BaseToString` | lib/abstractpropertytype.h:30-33 | the base toString always returns the empty string |
| `PropertyType.PropertyValue.ToString` | lib/abstractpropertytype.h:78-84 | virtual toString: a plain AbstractPropertyType gives ""; a BasicPropertyType<T> gives the formatting of the held T, or bad_any_cast when it no longer holds a T; it reads only and changes nothing |
| `PropertyType.PropertyValue.Abstract` | lib/abstractpropertytype.h:27-50 | a default-constructed AbstractPropertyType holds an empty any, so value<T>() fails for every T |
| `PropertyType.PropertyValue.constructor` | lib/abstractpropertytype.h:67-71 | for a non-string T, BasicPropertyType<T>(val) is a T-typed object with value<T>() == val |
| `PropertyType.PropertyValue.Copy` | lib/abstractpropertytype.h:56-59 | for a non-string T, the copy constructor yields a fresh T-typed object holding the source's value; it fails with bad_any_cast exactly when the source no longer holds a T |
| `PropertyType.PropertyValue.Assign` | lib/abstractpropertytype.h:61-65 | for a non-string T, copy assignment stores the other object's T value and returns this object; when the other object holds no T it fails with bad_any_cast and leaves this object unchanged |
| `PropertyType.PropertyValue.FromString` | lib/abstractpropertytype.h:73-76 | for a non-string T, the string constructor succeeds exactly when the parser for T accepts the text, and stores that parse as a T; otherwise it fails with bad_lexical_cast |
| `PropertyType.LexicalCast` | lib/abstractpropertytype.h:73-76 | lexical_cast<T> succeeds iff the parser for T accepts the text, the result is the parser's value tagged T, and failure is bad_lexical_cast |
| `DBusInterface.Rebind` | plugins/dbus/abstractdbusinterface.h:60-67 | after erase-then-insert, op maps to the interface, the key set is the old keys plus op, and every other entry keeps its old value |
| `DBusInterface.RebindSize` | plugins/dbus/abstractdbusinterface.h:62-66 | the map grows by one entry when op was new and keeps its size when op was already a key |
| `DBusInterface.RebindIdempotent` | plugins/dbus/abstractdbusinterface.h:60-67 | setting the same path twice leaves the same map as setting it once |
| `DBusInterface.RebindKeepsPreviousPath` | plugins/dbus/abstractdbusinterface.h:60-67 | moving an interface from path p to another path op leaves both p and op resolving to it |
| `DBusInterface.RebindAllKeys` | plugins/dbus/abstractdbusinterface.h:60-67 | after any run of setObjectPath calls the map's keys are the initial keys plus every path set, so no entry is ever removed |
| `DBusInterface.Registry.constructor` | plugins/dbus/abstractdbusinterface.h:100-101 | the static interfaceMap and implemented-properties list start empty |
| `DBusInterface.Interface.SetObjectPath` | plugins/dbus/abstractdbusinterface.h:60-67 | objectPath becomes op; interfaceMap becomes Rebind of the old map, so interfaceMap[op] is this object, other entries (including the previous path's) are unchanged, and the keys gain op; no other field changes |
| `DBusInterface.Interface.SetDBusConnection` | plugins/dbus/abstractdbusinterface.h:41-44 | only the connection field changes; path, name, zone and properties are untouched, and the registry is outside its frame |
| `DBusInterface.Interface.ObjectPath` | plugins/dbus/abstractdbusinterface.h:58 | returns the current path, which is the op of the last SetObjectPath; reads only this object |
| `DBusInterface.Interface.PropertyName` | plugins/dbus/abstractdbusinterface.h:69 | returns the current property name; reads only this object |
| `DBusInterface.Interface.Zone` | plugins/dbus/abstractdbusinterface.h:71 | returns the zone filter; reads only this object |
| `DBusInterface.Interface.GetProperties` | plugins/dbus/abstractdbusinterface.h:73 | returns the name-to-property map as a value, so it is a copy; reads only this object |
| `DBusInterface.Interface.ImplementedProperties` | plugins/dbus/abstractdbusinterface.h:52 | the static accessor returns the registry's list of names as a value; reads only the registry |

## Left out

- D-Bus transport: `registerObject`, `unregisterObject`, `startRegistration`, the GDBus `getProperty`/`setProperty` callbacks and the overridable `getProperty`/`setProperty`, and the `introspectionXml`, `regId` and `interfaceName` uses. They are GLib/GIO calls, and their bodies are not part of this model.
- `addProperty`, `updateValue`, `implementsProperty` and `getObjectsForProperty` are declared in the header without bodies. They are not modelled, so there is no reverse index from property names and no zone-filtered lookup.
- The `AbstractDBusInterface` constructor and destructor bodies are not part of this model. The Dafny constructor of `Interface` takes every field as a parameter and does not touch the registry. So the operations are proved for any starting state.
- `boost::lexical_cast` and `std::stringstream` are uninterpreted parsers and formatters, held in the `Lexical` datatype. No particular text form is specified, and no string round trip is claimed.
- Only `int` and `bool` instantiations of `BasicPropertyType<T>` are modelled, so `PropertyValue.constructor`, `PropertyValue.Copy`, `PropertyValue.FromString` and `PropertyValue.Assign` require `T` not to be `std::string`: for that `T` the value constructor and the string constructor have the same signature and the class does not compile. A `std::string` can still be held in the `boost::any` of a plain `AbstractPropertyType`. Floating-point instantiations are left out.
- `Format` is the uninterpreted `operator<<` of the library; nothing is promised about the text it produces.
- Integers are unbounded, because nothing in the header does arithmetic on them.
- C++ const-qualification is not modelled. The copy constructor and `operator=` call the non-const `value<T>()` on a `const &` argument. The model treats that call as allowed.
- Concurrency: the header has no locks around the static map, and the model is sequential.
- Object lifetime and raw-pointer ownership: interfaces, properties and connections are represented by identity only.
