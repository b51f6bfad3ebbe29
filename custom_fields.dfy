/** `CustomFieldsBuilder.build`: turns the flattened record into the
    case-management system's typed custom fields, one classification per
    entry in a fixed order of tests. */
module CustomFields {
  import opened Common
  import opened Strings
  import opened OrderedDict
  import opened Records

  /** The custom-field types `date`, `number`, `boolean` and `string`. */
  datatype FieldType = DateType | NumberType | BooleanType | StringType

  /** One entry of the helper's dictionary: `{type: value, 'order': n}`. */
  datatype CustomField = CustomField(kind: FieldType, value: Value, order: nat)

  /** The helper's dictionary, custom-field name to entry, in insertion order. */
  type CustomFieldSet = Assoc<string, CustomField>

  /** `add_date` / `add_number` / `add_boolean` / `add_string` of the
      case-management client's `CustomFieldHelper`: stores the entry under
      `name`, numbered with the count of entries already present. */
  function AddField(fields: CustomFieldSet, name: string, kind: FieldType, value: Value): (r: CustomFieldSet)
    ensures Get(r, name) == Some(CustomField(kind, value, |fields|))
    ensures forall k :: k != name ==> Get(r, k) == Get(fields, k)
    ensures name !in Keys(fields) ==> Keys(r) == Keys(fields) + [name]
    ensures name in Keys(fields) ==> Keys(r) == Keys(fields)
  {
    Put(fields, name, CustomField(kind, value, |fields|))
  }

  /** `'time' in key.lower() or 'date' in key.lower()`. */
  predicate TimeLike(key: string)
  {
    Contains(Lower(key), "time") || Contains(Lower(key), "date")
  }

  /** `isinstance(v, int)`: in Python a `bool` is an `int` too. */
  predicate IsPyInt(v: Value)
  {
    v.Int? || v.Bool?
  }

  /** The integer a Python `int` or `bool` stands for. */
  function PyInt(v: Value): int
    requires IsPyInt(v)
  {
    match v
    case Int(i) => i
    case Bool(b) => if b then 1 else 0
  }

  /** The branch of `build` that one entry takes: the field type and value it
      is added with, or `None` when `add_string` rejects it and it is skipped. */
  function Classify(key: string, v: Value): (r: Option<(FieldType, Value)>)
    ensures TimeLike(key) && IsPyInt(v) ==> r == Some((DateType, Int(PyInt(v) * 1000)))
    ensures !TimeLike(key) && v.Bool? ==> r == Some((BooleanType, v))
    ensures !TimeLike(key) && v.Int? ==> r == Some((NumberType, v))
    ensures v.DateTime? ==> r == Some((NumberType, Int(v.seconds * 1000)))
    ensures v.Str? ==> r == Some((StringType, v))
    ensures r.None? <==> v.Other? && !v.stringable
    ensures r.Some? && r.value.0 == BooleanType ==> v.Bool?
    ensures r.Some? && r.value.0 == DateType ==> TimeLike(key) && IsPyInt(v)
  {
    if TimeLike(key) && IsPyInt(v) then Some((DateType, Int(PyInt(v) * 1000)))
    else if v.DateTime? then Some((NumberType, Int(v.seconds * 1000)))
    else if v.Bool? then Some((BooleanType, v))
    else if v.Int? then Some((NumberType, v))
    else if v.Str? then Some((StringType, v))
    else if v.stringable then Some((StringType, v))
    else None
  }

  /** The entries of `fields` processed in order, as a specification. */
  function BuildFields(fields: Assoc<string, Value>): CustomFieldSet
  {
    if fields == [] then []
    else
      var acc := BuildFields(fields[..|fields| - 1]);
      var (key, v) := fields[|fields| - 1];
      match Classify(key, v)
      case None => acc
      case Some((kind, x)) => AddField(acc, key, kind, x)
  }

  /** `CustomFieldsBuilder.build`: one pass over the entries, adding each
      classified entry to the helper. */
  method Build(fields: Assoc<string, Value>) returns (r: CustomFieldSet)
    ensures r == BuildFields(fields)
  {
    r := [];
    var i := 0;
    while i < |fields|
      invariant 0 <= i <= |fields|
      invariant r == BuildFields(fields[..i])
    {
      assert fields[..i + 1][..i] == fields[..i];
      var (key, v) := fields[i];
      var c := Classify(key, v);
      if c.Some? {
        r := AddField(r, key, c.value.0, c.value.1);
      }
      i := i + 1;
    }
    assert fields[..|fields|] == fields;
  }

  /** The entries that survive classification, in input order. */
  function Kept(fields: Assoc<string, Value>): (r: Assoc<string, Value>)
    ensures |r| <= |fields|
  {
    if fields == [] then []
    else
      var init := Kept(fields[..|fields| - 1]);
      var (key, v) := fields[|fields| - 1];
      if Classify(key, v).Some? then init + [(key, v)] else init
  }

  /** `Kept` holds exactly the input entries that `Classify` accepts: each
      of its entries is such an input entry, and each such input entry is in
      it. */
  lemma {:induction false} KeptEntries(fields: Assoc<string, Value>)
    ensures forall i :: 0 <= i < |Kept(fields)| ==>
      Kept(fields)[i] in fields && Classify(Kept(fields)[i].0, Kept(fields)[i].1).Some?
    ensures forall j :: 0 <= j < |fields| && Classify(fields[j].0, fields[j].1).Some? ==>
      fields[j] in Kept(fields)
  {
    if fields != [] {
      var init := fields[..|fields| - 1];
      KeptEntries(init);
      var r := Kept(fields);
      forall i | 0 <= i < |r| ensures r[i] in fields && Classify(r[i].0, r[i].1).Some? {
        if i < |Kept(init)| {
          assert r[i] == Kept(init)[i];
          assert Kept(init)[i] in init;
        } else {
          var last := fields[|fields| - 1];
          assert Classify(last.0, last.1).Some? && r == Kept(init) + [last];
          assert r[i] == last;
        }
      }
      forall j | 0 <= j < |fields| && Classify(fields[j].0, fields[j].1).Some? ensures fields[j] in r {
        if j < |init| {
          assert fields[j] == init[j];
          assert fields[j] in Kept(init);
        }
      }
    }
  }

  /** The keys of `Kept` come from the input. */
  lemma {:induction false} KeptKeys(fields: Assoc<string, Value>)
    ensures forall k :: k in Keys(Kept(fields)) ==> k in Keys(fields)
  {
    if fields != [] {
      var init := fields[..|fields| - 1];
      KeptKeys(init);
      assert forall k :: k in Keys(init) ==> k in Keys(fields);
    }
  }

  /** Dropping entries keeps the keys distinct. */
  lemma {:induction false} KeptDistinct(fields: Assoc<string, Value>)
    requires Distinct(Keys(fields))
    ensures Distinct(Keys(Kept(fields)))
  {
    if fields != [] {
      var n := |fields| - 1;
      var init := fields[..n];
      assert Keys(init) == Keys(fields)[..n];
      KeptDistinct(init);
      KeptKeys(init);
      assert fields[n].0 !in Keys(init) by {
        assert Keys(fields)[n] == fields[n].0;
      }
    }
  }

  /** For a dictionary (distinct keys), `build` emits exactly the entries that
      survive classification, in input order, each at most once, numbered by
      position, typed and valued as `Classify` says. */
  lemma {:induction false} BuildFieldsShape(fields: Assoc<string, Value>)
    requires Distinct(Keys(fields))
    ensures var r, kept := BuildFields(fields), Kept(fields);
      && |r| == |kept|
      && Keys(r) == Keys(kept)
      && forall i :: 0 <= i < |r| ==>
           && Classify(kept[i].0, kept[i].1).Some?
           && r[i].1 == CustomField(Classify(kept[i].0, kept[i].1).value.0,
                                    Classify(kept[i].0, kept[i].1).value.1, i)
  {
    if fields != [] {
      var n := |fields| - 1;
      var init := fields[..n];
      assert Keys(init) == Keys(fields)[..n];
      BuildFieldsShape(init);
      var (key, v) := fields[n];
      if Classify(key, v).Some? {
        KeptKeys(init);
        assert key !in Keys(init) by {
          assert Keys(fields)[n] == key;
        }
        assert key !in Keys(Kept(init));
        var acc := BuildFields(init);
        var c := Classify(key, v).value;
        var r := AddField(acc, key, c.0, c.1);
        assert r == acc + [(key, CustomField(c.0, c.1, |acc|))];
      }
    }
  }

  /** `build` never emits more fields than it was given keys. */
  lemma BuildFieldsBound(fields: Assoc<string, Value>)
    requires Distinct(Keys(fields))
    ensures |BuildFields(fields)| <= |fields|
  {
    BuildFieldsShape(fields);
  }

  /** `{"eventTime": 1000}` becomes a date field of 1000000, and
      `{"active": True}` a boolean field. */
  lemma ClassifyExamples()
    ensures Classify("eventTime", Int(1000)) == Some((DateType, Int(1000000)))
    ensures Classify("active", Bool(true)) == Some((BooleanType, Bool(true)))
  {
    EventTimeIsTimeLike();
    ActiveIsNotTimeLike();
  }

  lemma EventTimeIsTimeLike()
    ensures TimeLike("eventTime")
  {
    var a := Lower("eventTime");
    assert a[5..] == "time";
    assert Contains(a[5..], "time");
  }

  lemma ActiveIsNotTimeLike()
    ensures !TimeLike("active")
  {
    var a := Lower("active");
    assert a == "active";
    if Contains(a, "time") {
      ContainsChar(a, "time", 'm');
    }
    if Contains(a, "date") {
      ContainsChar(a, "date", 'd');
    }
  }

  /** A string that holds `sub` holds each character of `sub`. */
  lemma {:induction false} ContainsChar(s: string, sub: string, c: char)
    requires c in sub && Contains(s, sub)
    ensures c in s
  {
    if !(|sub| <= |s| && s[..|sub|] == sub) {
      ContainsChar(s[1..], sub, c);
    }
  }
}
