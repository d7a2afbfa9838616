/** `PianteFilters` as a JavaScript object: an ordered list of properties.
    Object spread (`{ ...a, ...b }`) and `JSON.stringify` both follow the
    insertion order of the keys, so the order is part of the value. */
module Filters {
  import Json

  /** The properties of `PianteFilters`. */
  datatype Field = Search | Indoor | Flowers | Watering | Edible | Page | Limit

  function FieldName(k: Field): (name: string)
    ensures name != []
    ensures forall i :: 0 <= i < |name| ==> Json.Plain(name[i])
  {
    match k
    case Search => "search"
    case Indoor => "indoor"
    case Flowers => "flowers"
    case Watering => "watering"
    case Edible => "edible"
    case Page => "page"
    case Limit => "limit"
  }

  /** No two property names share their first letter. */
  lemma FieldNameInitials(x: Field, y: Field)
    ensures FieldName(x)[0] == FieldName(y)[0] ==> x == y
  {
  }

  /** A property value. `Undefined` is a key that is present with the value
      `undefined`: spread copies it, `JSON.stringify` leaves it out. */
  datatype Value = Undefined | Str(s: string) | Flag(b: bool) | Num(n: int)

  type Filters = seq<(Field, Value)>

  /** The value has the type the interface gives the field. */
  predicate FitsField(k: Field, v: Value)
  {
    match v
    case Undefined => true
    case Str(_) => k == Search || k == Watering
    case Flag(_) => k == Indoor || k == Flowers || k == Edible
    case Num(_) => k == Page || k == Limit
  }

  /** The keys, in insertion order. */
  function Fields(f: Filters): (ks: seq<Field>)
    ensures |ks| == |f|
  {
    if f == [] then [] else [f[0].0] + Fields(f[1..])
  }

  /** A JavaScript object: every key at most once, each value well typed. */
  predicate WellFormed(f: Filters)
  {
    f == [] || (f[0].0 !in Fields(f[1..]) && FitsField(f[0].0, f[0].1) && WellFormed(f[1..]))
  }

  /** Property read: the value at the first occurrence of the key, and
      `Undefined` for a missing key. */
  function Get(f: Filters, k: Field): (v: Value)
    ensures k !in Fields(f) ==> v == Undefined
    ensures forall i :: 0 <= i < |f| && f[i].0 == k && (forall j :: 0 <= j < i ==> f[j].0 != k) ==> v == f[i].1
  {
    if f == [] then Undefined
    else if f[0].0 == k then f[0].1
    else
      assert forall i :: 1 <= i < |f| ==> f[i] == f[1..][i - 1];
      Get(f[1..], k)
  }

  /** Property assignment `f[k] = v`: an existing key keeps its place, a new
      key goes last. */
  function Set(f: Filters, k: Field, v: Value): (r: Filters)
    ensures Get(r, k) == v
    ensures forall k' :: k' != k ==> Get(r, k') == Get(f, k')
    ensures k in Fields(f) ==> Fields(r) == Fields(f)
    ensures k !in Fields(f) ==> r == f + [(k, v)] && Fields(r) == Fields(f) + [k]
    ensures WellFormed(f) && FitsField(k, v) ==> WellFormed(r)
  {
    if f == [] then [(k, v)]
    else if f[0].0 == k then [(k, v)] + f[1..]
    else
      var rest := Set(f[1..], k, v);
      var r := [f[0]] + rest;
      assert r[0] == f[0] && r[1..] == rest;
      assert Fields(r) == [f[0].0] + Fields(rest);
      assert Fields(f) == [f[0].0] + Fields(f[1..]);
      r
  }

  /** The keys of `b` that `a` lacks, in `b`'s order. */
  function NewFields(a: seq<Field>, b: seq<Field>): (ks: seq<Field>)
    ensures forall k :: k in ks <==> k in b && k !in a
  {
    if b == [] then [] else (if b[0] in a then [] else [b[0]]) + NewFields(a, b[1..])
  }

  lemma {:induction false} NewFieldsSkip(a: seq<Field>, k: Field, b: seq<Field>)
    requires k !in b
    ensures NewFields(a + [k], b) == NewFields(a, b)
  {
    if b != [] {
      NewFieldsSkip(a, k, b[1..]);
    }
  }

  /** Object spread `{ ...a, ...b }`: every key of `b` is assigned in `b`'s
      order, so `b` wins on shared keys, the keys of `a` keep their places and
      the keys only `b` has follow, in `b`'s order. */
  function Merge(a: Filters, b: Filters): (r: Filters)
    requires WellFormed(a) && WellFormed(b)
    ensures WellFormed(r)
    ensures forall k :: Get(r, k) == if k in Fields(b) then Get(b, k) else Get(a, k)
    ensures Fields(r) == Fields(a) + NewFields(Fields(a), Fields(b))
    decreases |b|
  {
    if b == [] then a
    else
      var a' := Set(a, b[0].0, b[0].1);
      var r := Merge(a', b[1..]);
      assert Fields(b) == [b[0].0] + Fields(b[1..]);
      MergeStepFields(Fields(a), b[0].0, Fields(b[1..]));
      assert forall k :: Get(r, k) == if k in Fields(b) then Get(b, k) else Get(a, k) by {
        forall k
          ensures Get(r, k) == if k in Fields(b) then Get(b, k) else Get(a, k)
        {
          MergeStepGet(a, b, r, k);
        }
      }
      r
  }

  /** One step of the spread, for the key order: assigning the key `k0`
      and then spreading keys `fb` orders the keys as spreading `[k0] + fb`. */
  lemma {:induction false} MergeStepFields(fa: seq<Field>, k0: Field, fb: seq<Field>)
    requires k0 !in fb
    ensures var fa' := if k0 in fa then fa else fa + [k0];
            fa' + NewFields(fa', fb) == fa + NewFields(fa, [k0] + fb)
  {
    var b := [k0] + fb;
    assert b[0] == k0 && b[1..] == fb;
    var rest := NewFields(fa, fb);
    if k0 !in fa {
      assert NewFields(fa, b) == [k0] + rest;
      NewFieldsSkip(fa, k0, fb);
      assert (fa + [k0]) + rest == fa + ([k0] + rest);
    } else {
      assert NewFields(fa, b) == [] + rest == rest;
    }
  }

  /** One step of the spread, for the values: `b`'s first property is read
      from `b`, every other key as spreading the rest of `b` gives it. */
  lemma {:induction false} MergeStepGet(a: Filters, b: Filters, r: Filters, k: Field)
    requires WellFormed(b) && b != []
    requires Get(r, k) == if k in Fields(b[1..]) then Get(b[1..], k) else Get(Set(a, b[0].0, b[0].1), k)
    ensures Get(r, k) == if k in Fields(b) then Get(b, k) else Get(a, k)
  {
    assert Fields(b) == [b[0].0] + Fields(b[1..]);
  }

  lemma {:induction false} NewFieldsOfExtension(a: seq<Field>, x: seq<Field>)
    requires forall k :: k in x ==> k !in a
    ensures NewFields(a, a + x) == x
  {
    NewFieldsOfSelf(a, a);
    NewFieldsAppend(a, a, x);
    NewFieldsAllNew(a, x);
  }

  lemma {:induction false} NewFieldsOfSelf(a: seq<Field>, b: seq<Field>)
    requires forall k :: k in b ==> k in a
    ensures NewFields(a, b) == []
  {
    if b != [] {
      NewFieldsOfSelf(a, b[1..]);
    }
  }

  lemma {:induction false} NewFieldsAllNew(a: seq<Field>, x: seq<Field>)
    requires forall k :: k in x ==> k !in a
    ensures NewFields(a, x) == x
  {
    if x != [] {
      NewFieldsAllNew(a, x[1..]);
    }
  }

  lemma {:induction false} NewFieldsAppend(a: seq<Field>, b: seq<Field>, c: seq<Field>)
    ensures NewFields(a, b + c) == NewFields(a, b) + NewFields(a, c)
  {
    if b != [] {
      var bc := b + c;
      assert bc[0] == b[0] && bc[1..] == b[1..] + c;
      NewFieldsAppend(a, b[1..], c);
      assert NewFields(a, bc) == (if b[0] in a then [] else [b[0]]) + NewFields(a, b[1..] + c);
      assert NewFields(a, b) == (if b[0] in a then [] else [b[0]]) + NewFields(a, b[1..]);
    } else {
      assert b + c == c;
    }
  }

  /** Two objects with the same keys in the same order and the same values
      are the same object. */
  lemma {:induction false} Extensionality(x: Filters, y: Filters)
    requires WellFormed(x) && WellFormed(y)
    requires Fields(x) == Fields(y)
    requires forall k :: Get(x, k) == Get(y, k)
    ensures x == y
  {
    if x != [] {
      assert Fields(x)[0] == x[0].0 && Fields(y)[0] == y[0].0;
      assert x[0].1 == Get(x, x[0].0) == Get(y, y[0].0) == y[0].1;
      assert Fields(x[1..]) == Fields(x)[1..] == Fields(y)[1..] == Fields(y[1..]);
      forall k
        ensures Get(x[1..], k) == Get(y[1..], k)
      {
        if k != x[0].0 {
          assert Get(x, k) == Get(x[1..], k);
          assert Get(y, k) == Get(y[1..], k);
        }
      }
      Extensionality(x[1..], y[1..]);
    }
  }

  /** The keys of a JavaScript object are distinct. */
  lemma {:induction false} DistinctFields(c: Filters, p: seq<Field>, x: seq<Field>)
    requires WellFormed(c) && Fields(c) == p + x
    ensures forall k :: k in x ==> k !in p
  {
    if p != [] {
      assert Fields(c) == [c[0].0] + Fields(c[1..]);
      assert Fields(c[1..]) == Fields(c)[1..] == (p + x)[1..] == p[1..] + x;
      assert p[0] == (p + x)[0] == Fields(c)[0] == c[0].0;
      DistinctFields(c[1..], p[1..], x);
      forall k | k in x
        ensures k != p[0]
      {
        assert k in p[1..] + x;
        assert c[0].0 !in Fields(c[1..]);
      }
    }
  }

  /** Spreading `a` under an object whose keys already start with `a`'s keys
      changes nothing: `{ ...a, ...c } == c`. */
  lemma {:induction false} MergeUnder(a: Filters, c: Filters)
    requires WellFormed(a) && WellFormed(c)
    requires Fields(a) <= Fields(c)
    ensures Merge(a, c) == c
  {
    var fa, x := Fields(a), Fields(c)[|Fields(a)|..];
    assert Fields(c) == fa + x;
    DistinctFields(c, fa, x);
    NewFieldsOfExtension(fa, x);
    var m := Merge(a, c);
    assert Fields(m) == Fields(c);
    forall k
      ensures Get(m, k) == Get(c, k)
    {
      if k !in Fields(c) {
        assert k !in fa;
      }
    }
    Extensionality(m, c);
  }

  /** Spreading `a` again under `{ ...a, ...b }` changes nothing. */
  lemma {:induction false} MergeAbsorbs(a: Filters, b: Filters)
    requires WellFormed(a) && WellFormed(b)
    ensures Merge(a, Merge(a, b)) == Merge(a, b)
  {
    MergeUnder(a, Merge(a, b));
  }

  /** A key `b` does not have keeps its place and value under the spread: in
      particular `a`'s first property stays first. */
  lemma {:induction false} MergeKeepsFirst(a: Filters, b: Filters)
    requires WellFormed(a) && WellFormed(b)
    requires a != [] && a[0].0 !in Fields(b)
    ensures Merge(a, b) != [] && Merge(a, b)[0] == a[0]
  {
    var m := Merge(a, b);
    var k0 := a[0].0;
    assert Fields(a)[0] == k0;
    assert Fields(m)[0] == k0;
    assert m[0].0 == k0;
    assert Get(m, k0) == Get(a, k0);
  }

  /** `JSON.stringify` of a defined property value; its first character
      tells a string, a boolean and a number apart. */
  function ValueText(v: Value): (s: string)
    requires v != Undefined
    ensures s != []
    ensures s[0] == '"' <==> v.Str?
    ensures (s[0] == 't' || s[0] == 'f') <==> v.Flag?
    ensures v.Flag? ==> (s[0] == 't' <==> v.b)
  {
    match v
    case Str(s) => Json.Quote(s)
    case Flag(b) => Json.Boolean(b)
    case Num(n) => Json.Number(n)
  }

  /** `JSON.stringify` of one property. */
  function Member(k: Field, v: Value): (s: string)
    requires v != Undefined
    ensures s != [] && s[0] == '"'
  {
    Json.Quote(FieldName(k)) + ":" + ValueText(v)
  }

  /** The rendered properties, in order, leaving out the `undefined` ones. */
  function Members(f: Filters): seq<string>
  {
    if f == [] then []
    else if f[0].1 == Undefined then Members(f[1..])
    else [Member(f[0].0, f[0].1)] + Members(f[1..])
  }

  /** `JSON.stringify(filters)`. */
  function Stringify(f: Filters): (s: string)
    ensures 2 <= |s| && s[0] == '{' && s[|s| - 1] == '}'
  {
    "{" + Json.JoinCommas(Members(f)) + "}"
  }

  /** The properties `JSON.stringify` renders: those not set to `undefined`,
      in their order. */
  function Defined(f: Filters): (d: Filters)
    ensures AllDefined(d)
    ensures forall p :: p in d <==> p in f && p.1 != Undefined
  {
    if f == [] then []
    else
      assert forall p :: p in f <==> p == f[0] || p in f[1..];
      (if f[0].1 == Undefined then [] else [f[0]]) + Defined(f[1..])
  }

  predicate AllDefined(d: Filters)
  {
    forall i :: 0 <= i < |d| ==> d[i].1 != Undefined
  }

  lemma {:induction false} MembersOfDefined(f: Filters)
    ensures Members(Defined(f)) == Members(f)
  {
    if f != [] {
      MembersOfDefined(f[1..]);
      var d := Defined(f);
      if f[0].1 != Undefined {
        assert d[0] == f[0] && d[1..] == Defined(f[1..]);
      } else {
        assert d == Defined(f[1..]);
      }
    }
  }

  /** Leaving out the `undefined` properties changes no property read of a
      JavaScript object. */
  lemma {:induction false} GetDefined(f: Filters, k: Field)
    requires WellFormed(f)
    ensures Get(Defined(f), k) == Get(f, k)
  {
    if f != [] {
      GetDefined(f[1..], k);
      var d := Defined(f);
      if f[0].1 != Undefined {
        assert d[0] == f[0] && d[1..] == Defined(f[1..]);
      } else {
        assert d == Defined(f[1..]);
      }
    }
  }

  /** The rendered properties and the closing brace: `Stringify` after its
      opening brace. */
  function Body(d: Filters): string
  {
    Json.JoinCommas(Members(d)) + "}"
  }

  /** The text after the first property: the closing brace, or a comma and
      the rest. */
  function After(d: Filters): (t: string)
    ensures t != [] && (t[0] == '}' <==> d == []) && (t[0] == ',' <==> d != [])
  {
    if d == [] then "}" else "," + Body(d)
  }

  /** The rendering of defined properties: nothing but the closing brace for
      none, otherwise the first property and then the rest. */
  lemma {:induction false} BodySplit(d: Filters)
    requires AllDefined(d)
    ensures d == [] ==> Body(d) == "}"
    ensures d != [] ==> Body(d) == Member(d[0].0, d[0].1) + After(d[1..])
  {
    if d != [] {
      MembersCons(d);
      BodyCons(Member(d[0].0, d[0].1), Members(d[1..]));
    }
  }

  lemma BodyCons(m: string, rest: seq<string>)
    ensures Json.JoinCommas([m] + rest) + "}" == m + (if rest == [] then "}" else "," + (Json.JoinCommas(rest) + "}"))
  {
    Json.JoinCommasCons(m, rest);
    if rest != [] {
      var j := Json.JoinCommas(rest);
      assert (m + "," + j) + "}" == m + ("," + (j + "}"));
    }
  }

  /** The rendered properties of defined ones: the first, then the rest. */
  lemma MembersCons(d: Filters)
    requires AllDefined(d) && d != []
    ensures Members(d) == [Member(d[0].0, d[0].1)] + Members(d[1..])
    ensures Members(d[1..]) == [] <==> d[1..] == []
  {
    if d[1..] != [] {
      assert d[1..][0].1 != Undefined;
    }
  }

  /** A rendered value followed by a comma or a closing brace is read back
      unambiguously: the value and what follows it are both determined. */
  lemma {:induction false} ValueDelimits(v1: Value, v2: Value, t1: string, t2: string)
    requires v1 != Undefined && v2 != Undefined
    requires t1 == [] || !Json.Digit(t1[0])
    requires t2 == [] || !Json.Digit(t2[0])
    requires ValueText(v1) + t1 == ValueText(v2) + t2
    ensures v1 == v2 && t1 == t2
  {
    var a, b := ValueText(v1), ValueText(v2);
    assert (a + t1)[0] == a[0] && (b + t2)[0] == b[0];
    if v1.Str? {
      Json.QuoteDelimits(v1.s, v2.s, t1, t2);
    } else if v1.Flag? {
      assert a == b;
      assert t1 == (a + t1)[|a|..] == (b + t2)[|b|..] == t2;
    } else {
      Json.NumberDelimits(v1.n, v2.n, t1, t2);
    }
  }

  /** A quoted property name followed by anything is read back
      unambiguously: the key and what follows are determined. */
  lemma {:induction false} KeyDelimits(k1: Field, k2: Field, r1: string, r2: string)
    requires Json.Quote(FieldName(k1)) + r1 == Json.Quote(FieldName(k2)) + r2
    ensures k1 == k2 && r1 == r2
  {
    Json.QuoteDelimits(FieldName(k1), FieldName(k2), r1, r2);
    FieldNameInitials(k1, k2);
  }

  lemma MemberSplit(k: Field, v: Value, t: string)
    requires v != Undefined
    ensures Member(k, v) + t == Json.Quote(FieldName(k)) + (":" + (ValueText(v) + t))
  {
  }

  /** A rendered property followed by a comma or a closing brace is read back
      unambiguously: its key, its value and what follows are determined. */
  lemma {:induction false} MemberDelimits(k1: Field, v1: Value, k2: Field, v2: Value, t1: string, t2: string)
    requires v1 != Undefined && v2 != Undefined
    requires t1 == [] || !Json.Digit(t1[0])
    requires t2 == [] || !Json.Digit(t2[0])
    requires Member(k1, v1) + t1 == Member(k2, v2) + t2
    ensures k1 == k2 && v1 == v2 && t1 == t2
  {
    var x1, x2 := ValueText(v1) + t1, ValueText(v2) + t2;
    MemberSplit(k1, v1, t1);
    MemberSplit(k2, v2, t2);
    KeyDelimits(k1, k2, ":" + x1, ":" + x2);
    assert x1 == (":" + x1)[1..] == (":" + x2)[1..] == x2;
    ValueDelimits(v1, v2, t1, t2);
  }

  /** The rendering of defined properties is read back unambiguously. */
  lemma {:induction false} BodyDelimits(d1: Filters, d2: Filters)
    requires AllDefined(d1) && AllDefined(d2)
    requires Body(d1) == Body(d2)
    ensures d1 == d2
    decreases |d1|
  {
    BodySplit(d1);
    BodySplit(d2);
    if d1 != [] && d2 != [] {
      var r1, r2 := d1[1..], d2[1..];
      var t1, t2 := After(r1), After(r2);
      MemberDelimits(d1[0].0, d1[0].1, d2[0].0, d2[0].1, t1, t2);
      AllDefinedTail(d1);
      AllDefinedTail(d2);
      if r1 != [] && r2 != [] {
        Json.AppendCancel(",", Body(r1), Body(r2));
        BodyDelimits(r1, r2);
      }
      ConsParts(d1);
      ConsParts(d2);
    }
  }

  lemma AllDefinedTail(d: Filters)
    requires AllDefined(d) && d != []
    ensures AllDefined(d[1..])
  {
  }

  lemma ConsParts(d: Filters)
    requires d != []
    ensures d == [d[0]] + d[1..]
  {
  }

  /** `JSON.stringify` loses only what it leaves out: two filter objects
      render alike exactly when their defined properties are the same, with
      the same values, in the same order. */
  lemma {:induction false} StringifyInjective(f1: Filters, f2: Filters)
    ensures Stringify(f1) == Stringify(f2) <==> Defined(f1) == Defined(f2)
  {
    StringifyBody(f1);
    StringifyBody(f2);
    if Stringify(f1) == Stringify(f2) {
      assert Body(Defined(f1)) == Stringify(f1)[1..] == Stringify(f2)[1..] == Body(Defined(f2));
      BodyDelimits(Defined(f1), Defined(f2));
    }
  }

  /** A property renders as its name in double quotes, a colon and the value. */
  lemma MemberText(k: Field, v: Value)
    requires v != Undefined
    ensures Member(k, v) == "\"" + FieldName(k) + "\":" + ValueText(v)
  {
    Json.EscapeAllPlain(FieldName(k));
  }

  /** The rendering opens with the name of the first defined property, and
      is `{}` when there is none. */
  lemma {:induction false} StringifyOpensWithFirstKey(f: Filters)
    ensures Defined(f) == [] ==> Stringify(f) == "{}"
    ensures Defined(f) != [] ==> "{\"" + FieldName(Defined(f)[0].0) + "\":" <= Stringify(f)
  {
    var d := Defined(f);
    StringifyBody(f);
    BodySplit(d);
    if d != [] {
      MemberText(d[0].0, d[0].1);
      OpeningText(FieldName(d[0].0), ValueText(d[0].1), After(d[1..]));
    }
  }

  lemma OpeningText(name: string, v: string, a: string)
    ensures "{\"" + name + "\":" <= "{" + (("\"" + name + "\":" + v) + a)
  {
    assert "{" + (("\"" + name + "\":" + v) + a) == ("{\"" + name + "\":") + (v + a);
  }

  /** `Stringify` is the opening brace and the rendering of the defined properties. */
  lemma StringifyBody(f: Filters)
    ensures Stringify(f) == "{" + Body(Defined(f))
  {
    MembersOfDefined(f);
  }
}
