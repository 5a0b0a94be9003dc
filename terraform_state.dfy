/** The state bag the Terraform plugin SDK hands to every CRUD callback
    (`*schema.ResourceData`): the resource ID, the attribute values, and the
    attributes whose planned value differs from the prior state. Setting the
    ID to "" marks the resource as gone. */
module TerraformState {
  import opened Common

  class ResourceData {
    var id: string
    var attrs: map<string, Value>
    var changed: set<string>

    constructor (id: string, attrs: map<string, Value>, changed: set<string>)
      ensures this.id == id && this.attrs == attrs && this.changed == changed
    {
      this.id := id;
      this.attrs := attrs;
      this.changed := changed;
    }

    /** `d.Get(key).(string)`: "" when the attribute is not set. */
    function GetString(key: string): string
      reads this
    {
      if key in attrs && attrs[key].Str? then attrs[key].s else ""
    }

    /** `d.Get(key).(int)`: 0 when the attribute is not set. */
    function GetInt(key: string): int
      reads this
    {
      if key in attrs && attrs[key].Int? then attrs[key].i else 0
    }

    /** The string elements of a list or set attribute. */
    function GetStrings(key: string): seq<string>
      reads this
    {
      if key in attrs && attrs[key].List? then StringsOf(attrs[key].items) else []
    }

    /** `d.GetOk(key)` for a set of strings: set and not the empty set. */
    predicate GetOkStrings(key: string)
      reads this
    {
      GetStrings(key) != []
    }

    /** `d.HasChange(key)`. */
    predicate HasChange(key: string)
      reads this
    {
      key in changed
    }

    /** `d.SetId(v)`. */
    method SetId(v: string)
      modifies this
      ensures id == v && attrs == old(attrs) && changed == old(changed)
    {
      id := v;
    }

    /** `d.Set(key, v)`. */
    method Set(key: string, v: Value)
      modifies this
      ensures attrs == old(attrs)[key := v]
      ensures id == old(id) && changed == old(changed)
    {
      attrs := attrs[key := v];
    }

    /** A run of `d.Set` calls on distinct keys, one per entry of `updates`. */
    method SetFields(updates: map<string, Value>)
      modifies this
      ensures attrs == old(attrs) + updates
      ensures id == old(id) && changed == old(changed)
    {
      attrs := attrs + updates;
    }
  }

  function StringsOf(vs: seq<Value>): seq<string> {
    if vs == [] then []
    else (if vs[0].Str? then [vs[0].s] else []) + StringsOf(vs[1..])
  }

  function StrList(ss: seq<string>): seq<Value> {
    seq(|ss|, i requires 0 <= i < |ss| => Str(ss[i]))
  }
}
