/** The metadata container (`Essence\Media`): named string fields that keep
    the order in which they were first set, as a PHP array does. */
module Media {
  import opened Essence

  /** `keys` lists the field names in insertion order; `fields` holds their values. */
  datatype Media = Media(keys: seq<string>, fields: map<string, string>) {

    /** The key list names every field exactly once. */
    ghost predicate Valid() {
      && (forall i, j :: 0 <= i < j < |keys| ==> keys[i] != keys[j])
      && (forall k :: k in keys <==> k in fields)
    }

    predicate Has(field: string) {
      field in fields
    }

    /** `get`: the value of `field`, or `None` when it is absent. */
    function Get(field: string): Option<string> {
      if field in fields then Some(fields[field]) else None
    }

    /** `set`: an unconditional write. A new field goes to the end of the
        order; an existing one keeps its place and takes the new value. */
    function Set(field: string, value: string): (m: Media)
      ensures Valid() ==> m.Valid()
      ensures m.Get(field) == Some(value)
      ensures forall f :: f != field ==> m.Get(f) == Get(f)
      ensures m.keys == if Has(field) then keys else keys + [field]
    {
      if field in fields then Media(keys, fields[field := value])
      else Media(keys + [field], fields[field := value])
    }

    /** `setDefault`: writes `value` only when `field` is absent. */
    function SetDefault(field: string, value: string): (m: Media)
      ensures Valid() ==> m.Valid()
      ensures m.Get(field) == if Has(field) then Get(field) else Some(value)
      ensures forall f :: f != field ==> m.Get(f) == Get(f)
      ensures m.keys == if Has(field) then keys else keys + [field]
    {
      if field in fields then this else Set(field, value)
    }
  }

  /** A container with no fields, as `new Media([])` builds. */
  function Empty(): (m: Media)
    ensures m.Valid() && m.keys == []
    ensures forall f :: m.Get(f) == None
  {
    Media([], map[])
  }

  /** A second `setDefault` on the same field, whatever its value, changes nothing. */
  lemma SetDefaultIdempotent(m: Media, field: string, v: string, w: string)
    ensures m.SetDefault(field, v).SetDefault(field, w) == m.SetDefault(field, v)
  {
  }
}
