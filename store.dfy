// The current AbstractResourceStore: an alias-keyed table that get, put,
// putAll and remove change in place. PodStore, ServiceStore,
// ProvisioningProbeStore (and the deployment store) are this class at
// one element type.

module Store {
  import opened Common
  import StoreSpec

  class ResourceStore<T> {
    /** The `resources` HashMap. */
    var resources: map<string, T>

    constructor ()
      ensures resources == map[]
    {
      resources := map[];
    }

    function Get(name: Nullable<string>): (r: Result<T>)
      reads this
      ensures r.Ok? <==> name.NonNull? && name.value in resources
      ensures r.Ok? ==> r.value == resources[name.value]
      ensures name.Null? ==> r == Err(NullDeref(StoreSpec.NAME_IS_NULL))
      ensures name.NonNull? && name.value !in resources ==> r == Err(StoreSpec.NotFound(name.value))
    {
      StoreSpec.Get(resources, name)
    }

    /** getAll(): a copy of the table. A Dafny map is a value, so later
        changes to the copy or to the store never reach the other. */
    function GetAll(): (r: map<string, T>)
      reads this
      ensures r.Keys == resources.Keys
      ensures forall k :: k in r ==> Get(NonNull(k)) == Ok(r[k])
    {
      resources
    }

    function Contains(name: Nullable<string>): (r: Result<bool>)
      reads this
      ensures name.Null? ==> r == Err(NullDeref(StoreSpec.NAME_IS_NULL))
      ensures name.NonNull? ==> r == Ok(name.value in GetAll())
    {
      StoreSpec.Contains(resources, name)
    }

    method Put(name: Nullable<string>, value: Nullable<T>) returns (r: Outcome)
      modifies this
      ensures r.Pass? <==> name.NonNull? && value.NonNull?
      ensures r.Pass? ==> resources == StoreSpec.Put(old(resources), name, value).value
      ensures r.Fail? ==> r.error == StoreSpec.Put(old(resources), name, value).error && resources == old(resources)
    {
      var p := StoreSpec.Put(resources, name, value);
      if p.Ok? {
        resources := p.value;
        r := Pass;
      } else {
        r := Fail(p.error);
      }
    }

    method PutAll(all: Nullable<map<string, T>>) returns (r: Outcome)
      modifies this
      ensures r.Pass? <==> all.NonNull?
      ensures r.Pass? ==> resources == StoreSpec.PutAll(old(resources), all).value
      ensures r.Fail? ==> r.error == StoreSpec.PutAll(old(resources), all).error && resources == old(resources)
    {
      var p := StoreSpec.PutAll(resources, all);
      if p.Ok? {
        resources := p.value;
        r := Pass;
      } else {
        r := Fail(p.error);
      }
    }

    method Remove(name: Nullable<string>) returns (r: Result<T>)
      modifies this
      ensures r.Ok? <==> name.NonNull? && name.value in old(resources)
      ensures r.Ok? ==> r.value == old(resources)[name.value] && resources == StoreSpec.Remove(old(resources), name).value.rest
      ensures r.Err? ==> r.error == StoreSpec.Remove(old(resources), name).error && resources == old(resources)
    {
      var p := StoreSpec.Remove(resources, name);
      if p.Ok? {
        resources := p.value.rest;
        r := Ok(p.value.removed);
      } else {
        r := Err(p.error);
      }
    }
  }
}
