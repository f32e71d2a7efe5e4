// What AbstractResourceStore does to its alias map, as functions of the
// map before the call. Both store versions are specified by these; the
// legacy one simply has no `contains`.

module StoreSpec {
  import opened Common

  const NAME_IS_NULL := "Name is null."
  const VALUE_IS_NULL := "Value is null."
  const ALL_IS_NULL := "All is null."

  function NotFound(name: string): Error
  {
    ResourceNotFound("Resource not found: " + name)
  }

  /** get(name): the stored value, not-found for an absent alias, and a
      null name is rejected first. */
  function Get<T>(m: map<string, T>, name: Nullable<string>): (r: Result<T>)
    ensures r.Ok? <==> name.NonNull? && name.value in m
    ensures r.Ok? ==> r.value == m[name.value]
    ensures name.Null? ==> r == Err(NullDeref(NAME_IS_NULL))
    ensures name.NonNull? && name.value !in m ==> r == Err(NotFound(name.value))
  {
    match name
    case Null => Err(NullDeref(NAME_IS_NULL))
    case NonNull(n) => if n in m then Ok(m[n]) else Err(NotFound(n))
  }

  /** contains(name): whether the alias is a key; a null name is rejected. */
  function Contains<T>(m: map<string, T>, name: Nullable<string>): (r: Result<bool>)
    ensures name.Null? ==> r == Err(NullDeref(NAME_IS_NULL))
    ensures name.NonNull? ==> r.Ok?
    ensures r == Ok(true) <==> Get(m, name).Ok?
  {
    match name
    case Null => Err(NullDeref(NAME_IS_NULL))
    case NonNull(n) => Ok(n in m)
  }

  /** put(name, value): the map with that one alias bound; null name or
      null value is rejected and nothing changes. */
  function Put<T>(m: map<string, T>, name: Nullable<string>, value: Nullable<T>): (r: Result<map<string, T>>)
    ensures r.Ok? <==> name.NonNull? && value.NonNull?
    ensures name.Null? ==> r == Err(NullDeref(NAME_IS_NULL))
    ensures name.NonNull? && value.Null? ==> r == Err(NullDeref(VALUE_IS_NULL))
    ensures r.Ok? ==> Get(r.value, name) == Ok(value.value)
    ensures r.Ok? ==> r.value.Keys == m.Keys + {name.value}
    ensures r.Ok? ==> forall k :: k in m && k != name.value ==> r.value[k] == m[k]
  {
    if name.Null? then Err(NullDeref(NAME_IS_NULL))
    else if value.Null? then Err(NullDeref(VALUE_IS_NULL))
    else Ok(m[name.value := value.value])
  }

  /** putAll(all): the map overridden by `all`; a null map is rejected. */
  function PutAll<T>(m: map<string, T>, all: Nullable<map<string, T>>): (r: Result<map<string, T>>)
    ensures all.Null? <==> r == Err(NullDeref(ALL_IS_NULL))
    ensures all.NonNull? ==> r.Ok?
    ensures r.Ok? ==> r.value.Keys == m.Keys + all.value.Keys
    ensures r.Ok? ==> forall k :: k in all.value ==> r.value[k] == all.value[k]
    ensures r.Ok? ==> forall k :: k in m && k !in all.value ==> r.value[k] == m[k]
  {
    match all
    case Null => Err(NullDeref(ALL_IS_NULL))
    case NonNull(a) => Ok(m + a)
  }

  datatype Removal<T> = Removal(removed: T, rest: map<string, T>)

  /** remove(name): the value that was bound and the map without the
      alias; an absent alias fails with not-found. */
  function Remove<T>(m: map<string, T>, name: Nullable<string>): (r: Result<Removal<T>>)
    ensures r.Ok? <==> name.NonNull? && name.value in m
    ensures name.Null? ==> r == Err(NullDeref(NAME_IS_NULL))
    ensures name.NonNull? && name.value !in m ==> r == Err(NotFound(name.value))
    ensures r.Ok? ==> Get(m, name) == Ok(r.value.removed)
    ensures r.Ok? ==> r.value.rest.Keys == m.Keys - {name.value}
    ensures r.Ok? ==> forall k :: k in r.value.rest ==> r.value.rest[k] == m[k]
  {
    match name
    case Null => Err(NullDeref(NAME_IS_NULL))
    case NonNull(n) =>
      if n in m then Ok(Removal(m[n], map k | k in m && k != n :: m[k]))
      else Err(NotFound(n))
  }

  /** Removing an alias just put restores the map it was put into, when the
      alias was new, and hands back the value that was put. */
  lemma RemoveUndoesPut<T>(m: map<string, T>, name: string, value: T)
    requires name !in m
    ensures Put(m, NonNull(name), NonNull(value)).Ok?
    ensures Remove(Put(m, NonNull(name), NonNull(value)).value, NonNull(name)) == Ok(Removal(value, m))
  {
    var m' := m[name := value];
    var rest := map k | k in m' && k != name :: m'[k];
    assert rest == m;
  }

  /** After a removal the alias is gone: get fails and contains is false. */
  lemma GoneAfterRemove<T>(m: map<string, T>, name: string)
    requires name in m
    ensures Get(Remove(m, NonNull(name)).value.rest, NonNull(name)) == Err(NotFound(name))
    ensures Contains(Remove(m, NonNull(name)).value.rest, NonNull(name)) == Ok(false)
  {
  }

  /** putAll of a one-entry map is put of that entry. */
  lemma PutAllSingletonIsPut<T>(m: map<string, T>, name: string, value: T)
    ensures PutAll(m, NonNull(map[name := value])) == Put(m, NonNull(name), NonNull(value))
  {
    assert m + map[name := value] == m[name := value];
  }
}
