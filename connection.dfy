/** The connection registry `Demir\Database\Connection`: a process-wide map from names to
    database handles. Constructing a `Connection` registers a handle under a name, `get`
    returns the handle registered under a name and `has` says whether there is one. The
    handle is opaque here: the registry never looks inside it. */
module Connections {
  import opened Wrappers

  /** The exception `get` raises for a name without a handle; it carries that name. */
  datatype ConnectionError = ConnectionNotFound(name: string)

  /** The name both registering and looking up use when none is given. */
  const DefaultName := "default"

  /** The static `$collection` of the source, as one object that every caller shares. */
  class Registry<H> {
    var collection: map<string, H>

    /** The collection before any connection is made. */
    constructor ()
      ensures collection == map[]
    {
      collection := map[];
    }

    /** `new Connection($pdo, $name = 'default')`: the handle is stored under the name,
        replacing any handle registered there before; every other name keeps its handle. */
    method Register(pdo: H, name: string := DefaultName)
      modifies this
      ensures collection == old(collection)[name := pdo]
      ensures name in collection && collection[name] == pdo
      ensures forall other :: other != name ==>
                (other in collection <==> other in old(collection))
                && (other in old(collection) ==> collection[other] == old(collection)[other])
    {
      collection := collection[name := pdo];
    }

    /** `Connection::has($name)`: whether a handle is registered under the name. */
    function Has(name: string): (r: bool)
      reads this
      ensures r <==> name in collection.Keys
    {
      name in collection
    }

    /** `Connection::get($name = 'default')`: the handle registered under the name, and
        the not-found error when there is none. Nothing changes. */
    method Get(name: string := DefaultName) returns (r: Result<H, ConnectionError>)
      ensures r.Success? <==> Has(name)
      ensures r.Success? ==> name in collection && r.value == collection[name]
      ensures r.Failure? ==> r.error == ConnectionNotFound(name)
    {
      if Has(name) {
        r := Success(collection[name]);
      } else {
        r := Failure(ConnectionNotFound(name));
      }
    }
  }

  /** The registry's walk-through: a handle registered without a name is what `get()`
      returns, `has('default')` holds, a second registration of the same handle under
      another name makes both lookups agree, and a name never registered is not found. */
  method RegisterAndLookUp<H(==)>(pdo: H, other: string, missing: string)
    returns (sameAsDefault: bool, hasDefault: bool, sameUnderBoth: bool, found: bool)
    requires other != DefaultName && missing != DefaultName && missing != other
    ensures sameAsDefault && hasDefault && sameUnderBoth && !found
  {
    var registry := new Registry<H>();
    registry.Register(pdo);
    var byDefault := registry.Get();
    sameAsDefault := byDefault == Success(pdo);
    hasDefault := registry.Has(DefaultName);
    registry.Register(pdo, other);
    var byOther := registry.Get(other);
    var again := registry.Get();
    sameUnderBoth := byOther.Success? && again.Success? && byOther.value == again.value;
    var lost := registry.Get(missing);
    found := lost.Success?;
  }
}
