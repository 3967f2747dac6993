/**
 * The saved field configurations (frontend/lib/db.ts): an IndexedDB object
 * store keyed by an auto-incremented `id`, with a unique index on `name`.
 * The store is held in memory here; every `Date.now()` the source reads is
 * a parameter.
 */
module ConfigDb {
  import opened Wrappers
  import opened Fields

  /** `FieldConfiguration`; `id` is absent until the store assigns one. */
  datatype FieldConfiguration = FieldConfiguration(
    id: Option<nat>,
    name: string,
    fields: seq<FieldDefinition>,
    createdAt: int,
    updatedAt: int,
    lastUsedAt: Option<int>)

  /** Some record other than the one at `key` already has this name. */
  ghost predicate NameHeldElsewhere(records: map<nat, FieldConfiguration>, name: string, key: nat) {
    exists k :: k in records && k != key && records[k].name == name
  }

  /** The key a put or add of `value` is stored under: its own id, else the generator's next key. */
  function KeyFor(value: FieldConfiguration, nextKey: nat): nat {
    if value.id.Some? then value.id.value else nextKey
  }

  /** The generator after storing under `key`: it moves past every key used so far. */
  function GeneratorAfter(nextKey: nat, key: nat): (r: nat)
    ensures r > key && r >= nextKey
  {
    if key >= nextKey then key + 1 else nextKey
  }

  class ConfigStore {
    /** The object store `configurations`, keyed by id. */
    var records: map<nat, FieldConfiguration>
    /** The unique index `by-name`. */
    var byName: map<string, nat>
    /** The key generator's current number. */
    var nextKey: nat

    ghost predicate Valid()
      reads this
    {
      && nextKey >= 1
      && (forall k :: k in records ==> records[k].id == Some(k) && k < nextKey)
      && (forall n :: n in byName ==> byName[n] in records && records[byName[n]].name == n)
      && (forall k :: k in records ==> records[k].name in byName && byName[records[k].name] == k)
    }

    /** An empty store; the key generator starts at 1. */
    constructor ()
      ensures Valid() && records == map[] && nextKey == 1
    {
      records := map[];
      byName := map[];
      nextKey := 1;
    }

    /** The unique index keeps names unique across records. */
    lemma NamesUnique(a: nat, b: nat)
      requires Valid() && a in records && b in records
      requires records[a].name == records[b].name
      ensures a == b
    {
      assert byName[records[a].name] == a;
    }

    /** `getConfiguration(id)`. */
    function GetConfiguration(id: nat): (r: Option<FieldConfiguration>)
      reads this
      requires Valid()
      ensures r.Some? <==> id in records
      ensures r.Some? ==> r.value.id == Some(id) && GetConfigurationByName(r.value.name) == r
    {
      if id in records then Some(records[id]) else None
    }

    /** `getConfigurationByName(name)`: a lookup through the unique index. */
    function GetConfigurationByName(name: string): (r: Option<FieldConfiguration>)
      reads this
      requires Valid()
      ensures r.Some? <==> exists k :: k in records && records[k].name == name
      ensures r.Some? ==> r.value.name == name && r.value.id.Some? && r.value.id.value in records &&
                          records[r.value.id.value] == r.value
    {
      if name in byName then Some(records[byName[name]]) else None
    }

    /** `getAllConfigurations()`: every record, in key order. */
    function GetAllConfigurations(): (r: seq<FieldConfiguration>)
      reads this
      requires Valid()
      ensures forall i :: 0 <= i < |r| ==> r[i].id.Some? && r[i].id.value in records && records[r[i].id.value] == r[i]
      ensures forall i, j :: 0 <= i < j < |r| ==> r[i].id.value < r[j].id.value
      ensures forall k :: k in records ==> records[k] in r
    {
      RecordsFrom(0)
    }

    /** The records with key `lo` or above, in key order. */
    function RecordsFrom(lo: nat): (r: seq<FieldConfiguration>)
      reads this
      requires Valid()
      ensures forall i :: 0 <= i < |r| ==>
        r[i].id.Some? && lo <= r[i].id.value && r[i].id.value in records && records[r[i].id.value] == r[i]
      ensures forall i, j :: 0 <= i < j < |r| ==> r[i].id.value < r[j].id.value
      ensures forall k :: k in records && lo <= k ==> records[k] in r
      decreases nextKey - lo
    {
      if lo >= nextKey then []
      else
        var rest := RecordsFrom(lo + 1);
        if lo in records then [records[lo]] + rest else rest
    }

    /**
     * The store's `put(value)`: under `value.id`, or a generated key when
     * it has none. A name held by another record violates the unique index:
     * the put fails and nothing changes.
     */
    method Put(value: FieldConfiguration) returns (ok: bool, key: nat)
      requires Valid()
      modifies this
      ensures Valid()
      ensures key == KeyFor(value, old(nextKey))
      ensures ok <==> !NameHeldElsewhere(old(records), value.name, key)
      ensures ok ==> records == old(records)[key := value.(id := Some(key))]
      ensures ok ==> nextKey == GeneratorAfter(old(nextKey), key)
      ensures !ok ==> records == old(records) && nextKey == old(nextKey)
    {
      key := KeyFor(value, nextKey);
      if value.name in byName && byName[value.name] != key {
        return false, key;
      }
      assert !NameHeldElsewhere(records, value.name, key) by {
        forall k | k in records && k != key ensures records[k].name != value.name {
          assert byName[records[k].name] == k;
        }
      }
      var index := if key in records then byName - {records[key].name} else byName;
      records := records[key := value.(id := Some(key))];
      byName := index[value.name := key];
      nextKey := GeneratorAfter(nextKey, key);
      ok := true;
    }

    /** The store's `add(value)` for a value without id: always under a fresh generated key. */
    method Add(value: FieldConfiguration) returns (ok: bool, key: nat)
      requires Valid() && value.id.None?
      modifies this
      ensures Valid()
      ensures key == old(nextKey) && key !in old(records)
      ensures ok <==> !NameHeldElsewhere(old(records), value.name, key)
      ensures ok ==> records == old(records)[key := value.(id := Some(key))] && nextKey == key + 1
      ensures !ok ==> records == old(records) && nextKey == old(nextKey)
    {
      ok, key := Put(value);
    }

    /**
     * `saveConfiguration(config)`: update the record of that name, or
     * insert a new one. `now` and `later` are the clock's first and second
     * readings; an insert reads it twice.
     */
    method SaveConfiguration(config: FieldConfiguration, now: int, later: int) returns (id: nat)
      requires Valid() && config.id.None?
      modifies this
      ensures Valid()
      ensures id in records && records[id].fields == config.fields
      ensures GetConfigurationByName(config.name) == Some(records[id])
      // an existing name: same id, only `fields` and `updatedAt` replaced
      ensures old(GetConfigurationByName(config.name)).Some? ==>
        var existing := old(GetConfigurationByName(config.name)).value;
        existing.id == Some(id) && nextKey == old(nextKey) &&
        records == old(records)[id := existing.(fields := config.fields, updatedAt := now)]
      // a new name: one more record, under a fresh id, with the clock's timestamps
      ensures old(GetConfigurationByName(config.name)).None? ==>
        id == old(nextKey) && id !in old(records) && nextKey == id + 1 &&
        records == old(records)[id := config.(id := Some(id), createdAt := now, updatedAt := later)]
      ensures |records| == |old(records)| + (if old(GetConfigurationByName(config.name)).Some? then 0 else 1)
    {
      var existing := GetConfigurationByName(config.name);
      if existing.Some? {
        var updated := existing.value.(fields := config.fields, updatedAt := now);
        var ok, key := Put(updated);
        assert ok;
        id := existing.value.id.value;
      } else {
        var ok, key := Add(config.(createdAt := now, updatedAt := later));
        id := key;
      }
    }

    /** `updateConfiguration(config)`: put the whole record with `updatedAt` from the clock. */
    method UpdateConfiguration(config: FieldConfiguration, now: int) returns (ok: bool)
      requires Valid()
      modifies this
      ensures Valid()
      ensures var key := KeyFor(config, old(nextKey));
        && (ok <==> !NameHeldElsewhere(old(records), config.name, key))
        && (ok ==> records == old(records)[key := config.(id := Some(key), updatedAt := now)])
        && (ok ==> nextKey == GeneratorAfter(old(nextKey), key))
      ensures !ok ==> records == old(records) && nextKey == old(nextKey)
    {
      var key;
      ok, key := Put(config.(updatedAt := now));
    }

    /** `deleteConfiguration(id)`: removes that record only. */
    method DeleteConfiguration(id: nat)
      requires Valid()
      modifies this
      ensures Valid()
      ensures records == old(records) - {id} && nextKey == old(nextKey)
    {
      if id in records {
        byName := byName - {records[id].name};
      }
      records := records - {id};
    }

    /** `markConfigurationAsUsed(id)`: sets only `lastUsedAt`; a missing id changes nothing. */
    method MarkConfigurationAsUsed(id: nat, now: int)
      requires Valid()
      modifies this
      ensures Valid()
      ensures id in old(records) ==> records == old(records)[id := old(records)[id].(lastUsedAt := Some(now))]
      ensures id !in old(records) ==> records == old(records)
      ensures nextKey == old(nextKey)
    {
      if id in records {
        var ok, key := Put(records[id].(lastUsedAt := Some(now)));
        assert ok;
      }
    }
  }
}
