/** Putting JSON into one order of keys, so that resending a document changes nothing. */
module CanonicalJson {
  import opened Sequences

  /** Stored JSON; an object keeps its fields in the order they arrived. */
  datatype Json =
    | JNull
    | JBool(flag: bool)
    | JNumber(number: real)
    | JString(text: string)
    | JArray(items: seq<Json>)
    | JObject(fields: seq<Field>)

  datatype Field = Field(name: string, value: Json)

  /** Lexicographic order of names. */
  predicate NameLe(a: string, b: string) {
    a == "" || (b != "" && (a[0] < b[0] || (a[0] == b[0] && NameLe(a[1..], b[1..]))))
  }

  function ByName(): (Field, Field) -> bool {
    (a: Field, b: Field) => NameLe(a.name, b.name)
  }

  /** Every object's fields sorted by name, at every depth. */
  function Canonical(v: Json): Json {
    match v
    case JArray(items) => JArray(seq(|items|, i requires 0 <= i < |items| => Canonical(items[i])))
    case JObject(fields) => JObject(Sort(ByName(), CanonicalFields(v)))
    case _ => v
  }

  function CanonicalFields(v: Json): (r: seq<Field>)
    requires v.JObject?
    ensures |r| == |v.fields|
    ensures forall i :: 0 <= i < |r| ==> r[i] == Field(v.fields[i].name, Canonical(v.fields[i].value))
    decreases v, 0
  {
    seq(|v.fields|, i requires 0 <= i < |v.fields| => Field(v.fields[i].name, Canonical(v.fields[i].value)))
  }

  /** No object names a field twice. */
  ghost predicate WellFormed(v: Json) {
    match v
    case JArray(items) => forall i :: 0 <= i < |items| ==> WellFormed(items[i])
    case JObject(fields) =>
      && (forall i, j :: 0 <= i < j < |fields| ==> fields[i].name != fields[j].name)
      && (forall i :: 0 <= i < |fields| ==> WellFormed(fields[i].value))
    case _ => true
  }

  /** The same JSON up to the order of fields, defined by lookup and not by sorting. */
  ghost predicate SameJson(v: Json, w: Json) {
    match v
    case JArray(items) =>
      w.JArray? && |items| == |w.items| && forall i :: 0 <= i < |items| ==> SameJson(items[i], w.items[i])
    case JObject(fields) =>
      && w.JObject?
      && |fields| == |w.fields|
      && forall i :: 0 <= i < |fields| ==>
           exists j :: 0 <= j < |w.fields| && fields[i].name == w.fields[j].name && SameJson(fields[i].value, w.fields[j].value)
    case _ => v == w
  }

  lemma {:induction false} NameLeTotal(a: string, b: string)
    ensures NameLe(a, b) || NameLe(b, a)
    ensures NameLe(a, b) && NameLe(b, a) ==> a == b
  {
    if a != "" && b != "" && a[0] == b[0] {
      NameLeTotal(a[1..], b[1..]);
      assert a == [a[0]] + a[1..] && b == [b[0]] + b[1..];
    }
  }

  lemma {:induction false} NameLeTransitive(a: string, b: string, c: string)
    requires NameLe(a, b) && NameLe(b, c)
    ensures NameLe(a, c)
  {
    if a != "" && a[0] == b[0] && b[0] == c[0] {
      NameLeTransitive(a[1..], b[1..], c[1..]);
    }
  }

  lemma ByNameIsPreorder()
    ensures TotalPreorder(ByName())
  {
    forall x: Field, y: Field ensures ByName()(x, y) || ByName()(y, x) {
      NameLeTotal(x.name, y.name);
    }
    forall x: Field, y: Field, z: Field | ByName()(x, y) && ByName()(y, z) ensures ByName()(x, z) {
      NameLeTransitive(x.name, y.name, z.name);
    }
  }

  /** Canonical forms agree exactly when the documents differ at most in the order of fields. */
  lemma {:induction false} CanonicalDecides(v: Json, w: Json)
    requires WellFormed(v) && WellFormed(w)
    ensures Canonical(v) == Canonical(w) <==> SameJson(v, w)
    decreases v
  {
    match v
    case JArray(items) =>
      if w.JArray? && |items| == |w.items| {
        forall i | 0 <= i < |items| ensures Canonical(items[i]) == Canonical(w.items[i]) <==> SameJson(items[i], w.items[i]) {
          CanonicalDecides(items[i], w.items[i]);
        }
        CanonicalArrays(v, w);
      } else if w.JArray? {
        assert |Canonical(v).items| != |Canonical(w).items|;
      }
    case JObject(fields) =>
      if w.JObject? {
        forall i, j | 0 <= i < |v.fields| && 0 <= j < |w.fields|
          ensures Canonical(v.fields[i].value) == Canonical(w.fields[j].value) <==> SameJson(v.fields[i].value, w.fields[j].value)
        {
          CanonicalDecides(v.fields[i].value, w.fields[j].value);
        }
        CanonicalObjects(v, w);
      }
    case _ =>
  }

  lemma CanonicalArrays(v: Json, w: Json)
    requires v.JArray? && w.JArray? && |v.items| == |w.items|
    requires forall i :: 0 <= i < |v.items| ==>
               (Canonical(v.items[i]) == Canonical(w.items[i]) <==> SameJson(v.items[i], w.items[i]))
    ensures Canonical(v) == Canonical(w) <==> SameJson(v, w)
  {
    var a, b := Canonical(v).items, Canonical(w).items;
    if Canonical(v) == Canonical(w) {
      forall i | 0 <= i < |v.items| ensures SameJson(v.items[i], w.items[i]) {
        assert a[i] == b[i];
      }
    } else {
      assert a != b;
    }
  }

  ghost predicate ValuesDecided(v: Json, w: Json)
    requires v.JObject? && w.JObject?
  {
    forall i, j :: 0 <= i < |v.fields| && 0 <= j < |w.fields| ==>
      (Canonical(v.fields[i].value) == Canonical(w.fields[j].value) <==> SameJson(v.fields[i].value, w.fields[j].value))
  }

  /** Every field of the one list is in the other. */
  ghost predicate Included(a: seq<Field>, b: seq<Field>) {
    forall x :: x in a ==> x in b
  }

  lemma FieldLike(v: Json, w: Json, i: nat) returns (j: nat)
    requires v.JObject? && w.JObject? && ValuesDecided(v, w) && i < |v.fields|
    requires CanonicalFields(v)[i] in CanonicalFields(w)
    ensures j < |w.fields| && v.fields[i].name == w.fields[j].name && SameJson(v.fields[i].value, w.fields[j].value)
  {
    j :| 0 <= j < |CanonicalFields(w)| && CanonicalFields(w)[j] == CanonicalFields(v)[i];
  }

  lemma FieldsFound(v: Json, w: Json)
    requires v.JObject? && w.JObject? && ValuesDecided(v, w) && SameJson(v, w)
    ensures Included(CanonicalFields(v), CanonicalFields(w))
  {
    var a, b := CanonicalFields(v), CanonicalFields(w);
    forall x | x in a ensures x in b {
      var i :| 0 <= i < |a| && a[i] == x;
      var j :| 0 <= j < |w.fields| && v.fields[i].name == w.fields[j].name && SameJson(v.fields[i].value, w.fields[j].value);
      assert b[j] == x;
    }
  }

  lemma FieldsGiven(v: Json, w: Json)
    requires v.JObject? && w.JObject? && ValuesDecided(v, w) && |v.fields| == |w.fields|
    requires Included(CanonicalFields(v), CanonicalFields(w))
    ensures SameJson(v, w)
  {
    forall i | 0 <= i < |v.fields|
      ensures exists j :: 0 <= j < |w.fields| && v.fields[i].name == w.fields[j].name && SameJson(v.fields[i].value, w.fields[j].value)
    {
      assert CanonicalFields(v)[i] in CanonicalFields(v);
      var j := FieldLike(v, w, i);
    }
  }

  /** Every field of `v` has its like in `w` exactly when its canonical form is one of `w`'s. */
  lemma FieldsDecided(v: Json, w: Json)
    requires v.JObject? && w.JObject? && ValuesDecided(v, w) && |v.fields| == |w.fields|
    ensures SameJson(v, w) <==> Included(CanonicalFields(v), CanonicalFields(w))
  {
    if SameJson(v, w) {
      FieldsFound(v, w);
    }
    if Included(CanonicalFields(v), CanonicalFields(w)) {
      FieldsGiven(v, w);
    }
  }

  lemma CanonicalObjects(v: Json, w: Json)
    requires v.JObject? && w.JObject? && WellFormed(v) && WellFormed(w) && ValuesDecided(v, w)
    ensures Canonical(v) == Canonical(w) <==> SameJson(v, w)
  {
    ByNameIsPreorder();
    var a, b := CanonicalFields(v), CanonicalFields(w);
    SortMembers(ByName(), a);
    SortMembers(ByName(), b);
    if |a| == |b| {
      FieldsDecided(v, w);
      if SameJson(v, w) {
        SameMembersPermute(a, b);
        forall x, y | x in a && y in a && ByName()(x, y) && ByName()(y, x) ensures x == y {
          NameLeTotal(x.name, y.name);
        }
        SortCanonical(ByName(), a, b);
      } else {
        var x :| x in a && x !in b;
        assert x in Canonical(v).fields && x !in Canonical(w).fields;
      }
    } else {
      assert |Canonical(v).fields| != |Canonical(w).fields|;
    }
  }
}
