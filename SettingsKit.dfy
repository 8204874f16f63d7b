/** What the two settings modules share: stored values, objects read member by
    member, the storage reads, and the change detection and write plan of their
    settings persistence. */
module SettingsKit {
  import opened Js

  /** A value held in a settings object or a storage area. */
  datatype Value = Str(s: string) | Flag(b: bool) | Null

  /** A settings object or the contents of a storage area, by key. */
  type Record = map<string, Value>

  /** JavaScript truthiness of a stored value. */
  predicate Truthy(v: Value) {
    (v.Str? && v.s != "") || (v.Flag? && v.b)
  }

  /** `a || b`. */
  function OrV(a: Value, b: Value): (r: Value)
    ensures Truthy(a) ==> r == a
    ensures !Truthy(a) ==> r == b
  {
    if Truthy(a) then a else b
  }

  /** `o.key`, where an absent member (`undefined`) is as falsy as `null`. */
  function Member(o: Record, key: string): (r: Value)
    ensures key in o ==> r == o[key]
    ensures key !in o ==> r == Null
  {
    if key in o then o[key] else Null
  }

  /** `storageService.get(key, area)`: the stored value, or `null` when absent. */
  function Get(area: Record, key: string): (r: Value)
    ensures key in area ==> r == area[key]
    ensures key !in area ==> r == Null
  {
    Member(area, key)
  }

  /** `Object.entries(current).some(([k, v]) => previous[k] !== v)`. */
  predicate Changed(previous: Record, current: Record) {
    exists k :: k in current && (k !in previous || previous[k] != current[k])
  }

  /** The guards of the settings subscription: a non-empty object is written out
      when it differs from the snapshot, or when there is no snapshot yet. */
  predicate MustWrite(previous: Record, current: Record) {
    |current| != 0 && (Changed(previous, current) || |previous| == 0)
  }

  /** The key entries the subscription saves to both areas: the truthy ones. */
  function KeyWrites(current: Record, keys: set<string>): (r: Record)
    ensures forall k :: k in r <==> k in keys && k in current && Truthy(current[k])
    ensures forall k :: k in r ==> r[k] == current[k]
  {
    map k | k in keys && k in current && Truthy(current[k]) :: current[k]
  }

  /** The entries the subscription's loop saves to sync: all but the keys. */
  function PlainEntries(current: Record, keys: set<string>): (r: Record)
    ensures forall k :: k in r <==> k in current && k !in keys
    ensures forall k :: k in r ==> r[k] == current[k]
  {
    map k | k in current && k !in keys :: current[k]
  }

  /** `for (const [key, value] of Object.entries(current)) if (key is not a key
      name) await storageService.set(key, value, "sync")`. */
  method SyncEntries(area: Record, current: Record, keys: set<string>) returns (r: Record)
    ensures r == area + PlainEntries(current, keys)
  {
    r := area;
    var rest := current.Keys;
    while rest != {}
      invariant rest <= current.Keys
      invariant forall k :: k in r <==> k in area || (k in current && k !in rest && k !in keys)
      invariant forall k :: k in r ==> r[k] == if k in current && k !in rest && k !in keys then current[k] else area[k]
      decreases rest
    {
      var k :| k in rest;
      if k !in keys {
        r := r[k := current[k]];
      }
      rest := rest - {k};
    }
  }

  /** An object with a member is not empty. */
  lemma HasMember(m: Record, k: string)
    requires k in m
    ensures |m| != 0
  {
    assert k in m.Keys;
  }

  /** Once a snapshot exists, a merge into it is written out exactly when it
      changes the object. */
  lemma MergeWrittenIff(previous: Record, updates: Record)
    requires |previous| != 0
    ensures MustWrite(previous, previous + updates) <==> previous + updates != previous
  {
    var current := previous + updates;
    assert |current| != 0 by {
      var k :| k in previous;
      assert k in current;
    }
    if Changed(previous, current) {
      var k :| k in current && (k !in previous || previous[k] != current[k]);
      assert current != previous;
    } else {
      assert forall k :: k in current ==> k in previous && previous[k] == current[k];
      assert forall k :: k in previous ==> k in current;
      assert current == previous;
    }
  }

  /** A merge that gives a key a new value is written out. */
  lemma NewValueIsWritten(previous: Record, updates: Record, k: string)
    requires k in updates && (k !in previous || previous[k] != updates[k])
    ensures MustWrite(previous, previous + updates)
  {
    var current := previous + updates;
    assert k in current && current[k] == updates[k];
  }
}
