/** Terraform's schema.ResourceData, reduced to what the converters use: a
    resource id, the attribute state, and the schema that decides which
    writes are accepted. */
module ResourceState {
  import opened Attr

  type Schema = map<string, Kind>

  /** One d.Set(key, value). A checked write is followed by
      `if err != nil { return err }` in the source; an unchecked one ignores
      the error and carries on. */
  datatype Write = Write(key: string, value: Value, checked: bool)

  /** The SDK accepts a write to a key the schema declares with the value's type. */
  predicate Admits(schema: Schema, key: string, v: Value)
  {
    key in schema && HasKind(v, schema[key])
  }

  /** The state after a run of writes, and the error that stopped it, if any. */
  datatype Applied = Applied(attrs: Obj, err: Option<string>)

  function SetError(key: string): string
  {
    "Invalid address to set: " + key
  }

  /** Applies the writes in order; a rejected unchecked write changes nothing,
      a rejected checked write stops the run with its error. */
  function ApplyWrites(schema: Schema, attrs: Obj, ws: seq<Write>): (r: Applied)
    decreases |ws|
  {
    if ws == [] then Applied(attrs, None)
    else if Admits(schema, ws[0].key, ws[0].value) then ApplyWrites(schema, attrs[ws[0].key := ws[0].value], ws[1..])
    else if ws[0].checked then Applied(attrs, Some(SetError(ws[0].key)))
    else ApplyWrites(schema, attrs, ws[1..])
  }

  /** One write on its own, whose error is ignored: it lands when the schema accepts it. */
  function SetOne(schema: Schema, a: Obj, k: string, v: Value): Obj
  {
    if Admits(schema, k, v) then a[k := v] else a
  }

  /** The first write of a run, then the rest. */
  lemma ApplyCons(schema: Schema, a: Obj, w: Write, ws: seq<Write>)
    ensures ApplyWrites(schema, a, [w] + ws) ==
      if Admits(schema, w.key, w.value) then ApplyWrites(schema, a[w.key := w.value], ws)
      else if w.checked then Applied(a, Some(SetError(w.key)))
      else ApplyWrites(schema, a, ws)
  {
    assert ([w] + ws)[1..] == ws;
  }

  /** A run of two parts: the second starts where the first ends, unless the first failed. */
  lemma {:induction false} ApplyConcat(schema: Schema, a: Obj, ws1: seq<Write>, ws2: seq<Write>)
    ensures ApplyWrites(schema, a, ws1 + ws2) ==
      var r := ApplyWrites(schema, a, ws1);
      if r.err.Some? then r else ApplyWrites(schema, r.attrs, ws2)
    decreases |ws1|
  {
    if ws1 != [] {
      assert ws1 + ws2 == [ws1[0]] + (ws1[1..] + ws2);
      assert ws1 == [ws1[0]] + ws1[1..];
      ApplyCons(schema, a, ws1[0], ws1[1..] + ws2);
      ApplyCons(schema, a, ws1[0], ws1[1..]);
      if Admits(schema, ws1[0].key, ws1[0].value) {
        ApplyConcat(schema, a[ws1[0].key := ws1[0].value], ws1[1..], ws2);
      } else if !ws1[0].checked {
        ApplyConcat(schema, a, ws1[1..], ws2);
      }
    } else {
      assert ws1 + ws2 == ws2;
    }
  }

  /** The plain assignment of all writes, in order. */
  function Assign(attrs: Obj, ws: seq<Write>): Obj
    decreases |ws|
  {
    if ws == [] then attrs else Assign(attrs[ws[0].key := ws[0].value], ws[1..])
  }

  predicate AllAdmitted(schema: Schema, ws: seq<Write>)
  {
    forall i :: 0 <= i < |ws| ==> Admits(schema, ws[i].key, ws[i].value)
  }

  /** When the schema accepts every write, nothing fails and every write lands. */
  lemma {:induction false} ApplyAllAdmitted(schema: Schema, attrs: Obj, ws: seq<Write>)
    requires AllAdmitted(schema, ws)
    ensures ApplyWrites(schema, attrs, ws) == Applied(Assign(attrs, ws), None)
    decreases |ws|
  {
    if ws != [] {
      assert Admits(schema, ws[0].key, ws[0].value);
      ApplyAllAdmitted(schema, attrs[ws[0].key := ws[0].value], ws[1..]);
    }
  }

  /** A checked write the schema rejects ends the run with its error, and
      the writes before it stay applied. */
  lemma {:induction false} ApplyStopsAt(schema: Schema, attrs: Obj, ws: seq<Write>, j: nat)
    requires j < |ws| && AllAdmitted(schema, ws[..j])
    requires ws[j].checked && !Admits(schema, ws[j].key, ws[j].value)
    ensures ApplyWrites(schema, attrs, ws) == Applied(Assign(attrs, ws[..j]), Some(SetError(ws[j].key)))
    decreases j
  {
    if j > 0 {
      assert Admits(schema, ws[..j][0].key, ws[..j][0].value);
      assert ws[1..][..j - 1] == ws[..j][1..];
      ApplyStopsAt(schema, attrs[ws[0].key := ws[0].value], ws[1..], j - 1);
    }
  }

  /** A run fails exactly when one of its checked writes is rejected. */
  lemma {:induction false} ApplyFails(schema: Schema, attrs: Obj, ws: seq<Write>)
    ensures ApplyWrites(schema, attrs, ws).err.Some? <==>
      exists i :: 0 <= i < |ws| && ws[i].checked && !Admits(schema, ws[i].key, ws[i].value)
    decreases |ws|
  {
    if ws != [] {
      ApplyFails(schema, if Admits(schema, ws[0].key, ws[0].value) then attrs[ws[0].key := ws[0].value] else attrs, ws[1..]);
      if exists i :: 0 <= i < |ws[1..]| && ws[1..][i].checked && !Admits(schema, ws[1..][i].key, ws[1..][i].value) {
        var i :| 0 <= i < |ws[1..]| && ws[1..][i].checked && !Admits(schema, ws[1..][i].key, ws[1..][i].value);
        assert ws[i + 1] == ws[1..][i];
      }
      if exists i :: 0 <= i < |ws| && ws[i].checked && !Admits(schema, ws[i].key, ws[i].value) {
        var i :| 0 <= i < |ws| && ws[i].checked && !Admits(schema, ws[i].key, ws[i].value);
        if i > 0 {
          assert ws[1..][i - 1] == ws[i];
        }
      }
    }
  }

  /** A key no write names keeps its old entry, or its absence, however the run ends. */
  lemma {:induction false} ApplyUntouched(schema: Schema, attrs: Obj, ws: seq<Write>, k: string)
    requires forall i :: 0 <= i < |ws| ==> ws[i].key != k
    ensures var m := ApplyWrites(schema, attrs, ws).attrs;
      (k in m <==> k in attrs) && (k in attrs ==> m[k] == attrs[k])
    decreases |ws|
  {
    if ws != [] {
      assert ws[0].key != k;
      ApplyUntouched(schema, if Admits(schema, ws[0].key, ws[0].value) then attrs[ws[0].key := ws[0].value] else attrs, ws[1..], k);
    }
  }

  /** The writes of a flatten function: the attributes `vals`, set in the
      order `order`; those named in `checked` return their error. */
  function Writes(order: seq<string>, vals: Obj, checked: set<string>): (ws: seq<Write>)
    requires forall i :: 0 <= i < |order| ==> order[i] in vals
    ensures |ws| == |order|
    ensures forall i :: 0 <= i < |order| ==> ws[i] == Write(order[i], vals[order[i]], order[i] in checked)
  {
    seq(|order|, i requires 0 <= i < |order| => Write(order[i], vals[order[i]], order[i] in checked))
  }

  /** The keys of `order` that `vals` holds, in order: the attributes a
      flatten emits only when they are non-empty. */
  function Present(order: seq<string>, vals: Obj): (r: seq<string>)
    ensures forall i :: 0 <= i < |r| ==> r[i] in vals
    ensures forall k :: k in r <==> k in order && k in vals
  {
    if order == [] then []
    else (if order[0] in vals then [order[0]] else []) + Present(order[1..], vals)
  }

  /** A key of `order` ends up holding its `vals` value ... */
  lemma {:induction false} AssignWritesAt(a: Obj, order: seq<string>, vals: Obj, checked: set<string>, k: string)
    requires forall i :: 0 <= i < |order| ==> order[i] in vals
    requires k in order
    ensures k in Assign(a, Writes(order, vals, checked))
    ensures Assign(a, Writes(order, vals, checked))[k] == vals[k]
    decreases |order|
  {
    var ws := Writes(order, vals, checked);
    var a' := a[order[0] := vals[order[0]]];
    assert ws[1..] == Writes(order[1..], vals, checked);
    if k in order[1..] {
      AssignWritesAt(a', order[1..], vals, checked, k);
    } else {
      assert k == order[0];
      AssignWritesElsewhere(a', order[1..], vals, checked, k);
    }
  }

  /** ... and every other key keeps what it held. */
  lemma {:induction false} AssignWritesElsewhere(a: Obj, order: seq<string>, vals: Obj, checked: set<string>, k: string)
    requires forall i :: 0 <= i < |order| ==> order[i] in vals
    requires k !in order
    ensures k in Assign(a, Writes(order, vals, checked)) <==> k in a
    ensures k in a ==> Assign(a, Writes(order, vals, checked))[k] == a[k]
    decreases |order|
  {
    if order != [] {
      var ws := Writes(order, vals, checked);
      assert ws[1..] == Writes(order[1..], vals, checked);
      AssignWritesElsewhere(a[order[0] := vals[order[0]]], order[1..], vals, checked, k);
    }
  }

  /** Writes covering exactly the keys of `vals` leave `a` overridden by `vals`. */
  lemma AssignWritesAll(a: Obj, order: seq<string>, vals: Obj, checked: set<string>)
    requires forall i :: 0 <= i < |order| ==> order[i] in vals
    requires forall k :: k in vals ==> k in order
    ensures Assign(a, Writes(order, vals, checked)) == a + vals
  {
    var m := Assign(a, Writes(order, vals, checked));
    forall k | k in vals
      ensures k in m && m[k] == vals[k]
    {
      AssignWritesAt(a, order, vals, checked, k);
    }
    forall k | k !in vals
      ensures (k in m <==> k in a) && (k in a ==> m[k] == a[k])
    {
      AssignWritesElsewhere(a, order, vals, checked, k);
    }
  }

  /** A run of writes the schema accepts in full succeeds, and leaves the
      state holding every attribute it wrote, over the old ones. */
  lemma WritesHold(schema: Schema, a: Obj, order: seq<string>, vals: Obj, checked: set<string>)
    requires forall i :: 0 <= i < |order| ==> order[i] in vals
    requires forall k :: k in vals ==> k in order
    requires AllAdmitted(schema, Writes(order, vals, checked))
    ensures ApplyWrites(schema, a, Writes(order, vals, checked)) == Applied(a + vals, None)
    ensures Holds(a + vals, vals)
  {
    ApplyAllAdmitted(schema, a, Writes(order, vals, checked));
    AssignWritesAll(a, order, vals, checked);
  }

  class ResourceData {
    const schema: Schema
    var id: string
    var attrs: Obj

    constructor (schema: Schema, id: string, attrs: Obj)
      ensures this.schema == schema && this.id == id && this.attrs == attrs
    {
      this.schema := schema;
      this.id := id;
      this.attrs := attrs;
    }

    /** d.Get(key): the stored value, or the zero value of the key's type when unset. */
    function Get(key: string): (v: Value)
      reads this
      ensures key in attrs ==> v == attrs[key]
      ensures key !in attrs && key in schema ==> v == Zero(schema[key])
    {
      if key in attrs then attrs[key]
      else if key in schema then Zero(schema[key])
      else Null
    }

    /** An attribute the state holds is what Get reports. */
    lemma HeldGet(vals: Obj, k: string)
      requires Holds(attrs, vals) && k in vals
      ensures Get(k) == vals[k]
    {
    }

    method SetId(v: string)
      modifies this`id
      ensures id == v
    {
      id := v;
    }

    method Set(key: string, v: Value) returns (err: Option<string>)
      modifies this`attrs
      ensures err == if Admits(schema, key, v) then None else Some(SetError(key))
      ensures attrs == if err.None? then old(attrs)[key := v] else old(attrs)
    {
      if key in schema && HasKind(v, schema[key]) {
        attrs := attrs[key := v];
        err := None;
      } else {
        err := Some(SetError(key));
      }
    }

    /** A run of d.Set calls, each checked one followed by an early return. */
    method SetAll(ws: seq<Write>) returns (err: Option<string>)
      modifies this`attrs
      ensures Applied(attrs, err) == ApplyWrites(schema, old(attrs), ws)
    {
      var i := 0;
      err := None;
      while i < |ws|
        invariant 0 <= i <= |ws|
        invariant ApplyWrites(schema, old(attrs), ws) == ApplyWrites(schema, attrs, ws[i..])
      {
        assert ws[i..][1..] == ws[i + 1..];
        var e := Set(ws[i].key, ws[i].value);
        if e.Some? && ws[i].checked {
          err := e;
          return;
        }
        i := i + 1;
      }
    }
  }
}
