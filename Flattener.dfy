/**
 * `ReflectFormValues` / `reflectStruct` / `isTimeStruct` of
 * pkg/helpers/helpers.go: flattening a struct into `url.Values` through
 * its `form:"..."` tags.
 *
 * Reflection is replaced by an explicit description of the struct: each
 * field carries its `form` tag (empty when there is none), whether it is
 * exported, whether it is embedded, and its kind together with the value
 * the flattener reads from it.
 */
module Flattener {
  import opened GoStrings
  import opened Wrappers
  import opened NetUrl
  import opened Strconv

  /**
   * The kind of a field and its value. `Float` keeps only whether the
   * value compares unequal to 0.0 and its `strconv.FormatFloat(v, 'f', -1, 64)`
   * text; `Time` only `IsZero()` and its RFC 3339 text; `Ptr` the `%v`
   * text of the pointee, or `None` for a nil pointer. `Other` is every
   * kind the flattener does not handle (slices, maps, interfaces, ...).
   */
  datatype Kind =
    | Str(s: Bytes)
    | Int(i: int)
    | Uint(u: nat)
    | Float(nonZero: bool, formatted: Bytes)
    | Bool(b: bool)
    | Time(isZero: bool, rfc3339: Bytes)
    | Struct(fields: seq<Field>)
    | Ptr(target: Option<Bytes>)
    | Other

  datatype Field = Field(tag: Bytes, exported: bool, embedded: bool, kind: Kind)

  /** `field.Kind() == reflect.Struct`: a `time.Time` is a struct to reflection too. */
  predicate IsStructKind(k: Kind) {
    k.Struct? || k.Time?
  }

  /** `isTimeStruct`: the field's type is `time.Time` of package `time`. */
  predicate IsTimeStruct(k: Kind) {
    k.Time?
  }

  /**
   * The text a tagged, readable field contributes, if any: strings when
   * not empty, integers when not zero (base 10), floats when not zero,
   * booleans always, times when not zero, pointers when not nil; a tagged
   * non-time struct and every other kind contribute nothing.
   */
  function Emitted(k: Kind): (r: Option<Bytes>)
    ensures k.Str? ==> (r.Some? <==> k.s != []) && (r.Some? ==> r.value == k.s)
    ensures k.Int? ==> (r.Some? <==> k.i != 0) && (r.Some? ==> r.value == FormatInt(k.i))
    ensures k.Uint? ==> (r.Some? <==> k.u != 0) && (r.Some? ==> r.value == FormatUint(k.u))
    ensures k.Bool? ==> r.Some? && (r.value == "true" <==> k.b) && (r.value == "false" <==> !k.b)
    ensures k.Float? ==> (r.Some? <==> k.nonZero) && (r.Some? ==> r.value == k.formatted)
    ensures k.Time? ==> (r.Some? <==> !k.isZero) && (r.Some? ==> r.value == k.rfc3339)
    ensures k.Ptr? ==> r == k.target
    ensures k.Struct? || k.Other? ==> r.None?
  {
    match k
    case Str(s) => if s != [] then Some(s) else None
    case Int(i) =>
      if i != 0 then Some(FormatInt(i)) else None
    case Uint(u) =>
      if u != 0 then Some(FormatUint(u)) else None
    case Float(nonZero, formatted) => if nonZero then Some(formatted) else None
    case Bool(b) => Some(FormatBool(b))
    case Time(isZero, rfc3339) => if !isZero then Some(rfc3339) else None
    case Struct(_) => None
    case Ptr(target) => target
    case Other => None
  }

  /**
   * The form after `reflectStruct` has walked `fields`, in order, starting
   * from `values`. `readOnly` is reflection's sticky read-only flag: it is
   * set for the fields of a struct reached through an unexported field that
   * is not embedded, and a tagged field that is read-only or unexported
   * fails `CanInterface` and is skipped.
   */
  function Flatten(fields: seq<Field>, readOnly: bool, values: Values): Values
    decreases fields
  {
    if fields == [] then values else Flatten(fields[1..], readOnly, Step(fields[0], readOnly, values))
  }

  /** One field of `reflectStruct`'s loop. */
  function Step(f: Field, readOnly: bool, values: Values): Values
    decreases f
  {
    if f.tag == [] then
      if IsStructKind(f.kind) && !IsTimeStruct(f.kind) then
        Flatten(f.kind.fields, readOnly || (!f.exported && !f.embedded), values)
      else values
    else if readOnly || !f.exported then values
    else
      match Emitted(f.kind)
      case Some(text) => values[f.tag := [text]]
      case None => values
  }

  /** `reflectStruct`: writes the fields of one struct into the caller's form. */
  method ReflectStruct(fields: seq<Field>, readOnly: bool, values: Form)
    modifies values
    ensures values.entries == Flatten(fields, readOnly, old(values.entries))
    decreases fields
  {
    ghost var start := values.entries;
    for i := 0 to |fields|
      invariant Flatten(fields[i..], readOnly, values.entries) == Flatten(fields, readOnly, start)
    {
      var field := fields[i];
      assert fields[i..][1..] == fields[i + 1..];
      var tag := field.tag;

      if tag == [] {
        if IsStructKind(field.kind) && !IsTimeStruct(field.kind) {
          ReflectStruct(field.kind.fields, readOnly || (!field.exported && !field.embedded), values);
        }
        continue;
      }

      if readOnly || !field.exported {
        continue;
      }

      match field.kind {
        case Str(strVal) =>
          if strVal != [] {
            values.Set(tag, strVal);
          }
        case Int(n) =>
          if n != 0 {
            values.Set(tag, FormatInt(n));
          }
        case Uint(n) =>
          if n != 0 {
            values.Set(tag, FormatUint(n));
          }
        case Float(nonZero, formatted) =>
          if nonZero {
            values.Set(tag, formatted);
          }
        case Bool(b) =>
          values.Set(tag, FormatBool(b));
        case Time(isZero, rfc3339) =>
          if !isZero {
            values.Set(tag, rfc3339);
          }
        case Struct(_) =>
        case Ptr(target) =>
          if target.Some? {
            values.Set(tag, target.value);
          }
        case Other =>
      }
    }
    assert fields[|fields|..] == [];
  }

  /** `ReflectFormValues`: the fields of `data` flattened into a fresh form. */
  method ReflectFormValues(data: seq<Field>) returns (values: Values)
    ensures values == Flatten(data, false, map[])
  {
    var form := new Form();
    ReflectStruct(data, false, form);
    values := form.entries;
  }

  // ---------------------------------------------------------------------------
  // Properties of the flattening
  // ---------------------------------------------------------------------------

  /** The tags a walk over `fields` may write: tagged fields, and those of untagged structs. */
  function Tags(fields: seq<Field>): set<Bytes>
    decreases fields
  {
    if fields == [] then {} else FieldTags(fields[0]) + Tags(fields[1..])
  }

  function FieldTags(f: Field): set<Bytes>
    decreases f
  {
    if f.tag != [] then {f.tag}
    else match f.kind
      case Struct(inner) => Tags(inner)
      case _ => {}
  }

  /** Every value in the form is a single string (as `Set` writes them). */
  ghost predicate SingleValued(values: Values) {
    forall k | k in values :: |values[k]| == 1
  }

  /**
   * Only tags are written, each with a single value, and every other key
   * keeps what it had.
   */
  lemma {:induction false} FlattenFrame(fields: seq<Field>, readOnly: bool, values: Values)
    ensures var r := Flatten(fields, readOnly, values);
      && (forall k | k in r :: k in values || k in Tags(fields))
      && (forall k | k !in Tags(fields) :: (k in r <==> k in values) && (k in values ==> r[k] == values[k]))
      && (SingleValued(values) ==> SingleValued(r))
    decreases fields
  {
    if fields != [] {
      StepFrame(fields[0], readOnly, values);
      FlattenFrame(fields[1..], readOnly, Step(fields[0], readOnly, values));
    }
  }

  lemma {:induction false} StepFrame(f: Field, readOnly: bool, values: Values)
    ensures var r := Step(f, readOnly, values);
      && (forall k | k in r :: k in values || k in FieldTags(f))
      && (forall k | k !in FieldTags(f) :: (k in r <==> k in values) && (k in values ==> r[k] == values[k]))
      && (SingleValued(values) ==> SingleValued(r))
    decreases f
  {
    if f.tag == [] && f.kind.Struct? {
      FlattenFrame(f.kind.fields, readOnly || (!f.exported && !f.embedded), values);
    }
  }

  /** Behind the sticky read-only flag nothing is written, however deep the nesting. */
  lemma {:induction false} FlattenReadOnly(fields: seq<Field>, values: Values)
    ensures Flatten(fields, true, values) == values
    decreases fields
  {
    if fields != [] {
      StepReadOnly(fields[0], values);
      FlattenReadOnly(fields[1..], values);
    }
  }

  lemma {:induction false} StepReadOnly(f: Field, values: Values)
    ensures Step(f, true, values) == values
    decreases f
  {
    if f.tag == [] && f.kind.Struct? {
      FlattenReadOnly(f.kind.fields, values);
    }
  }

  /** Walking two runs of fields is walking the first, then the second. */
  lemma {:induction false} FlattenAppend(a: seq<Field>, b: seq<Field>, readOnly: bool, values: Values)
    ensures Flatten(a + b, readOnly, values) == Flatten(b, readOnly, Flatten(a, readOnly, values))
    decreases |a|
  {
    if a != [] {
      assert (a + b)[0] == a[0] && (a + b)[1..] == a[1..] + b;
      FlattenAppend(a[1..], b, readOnly, Step(a[0], readOnly, values));
    } else {
      assert a + b == b;
    }
  }

  /**
   * An untagged struct field that is exported or embedded is transparent:
   * its fields are walked in its place, as if declared in the outer struct.
   */
  lemma StructFieldInline(before: seq<Field>, exported: bool, embedded: bool, inner: seq<Field>, after: seq<Field>, readOnly: bool, values: Values)
    requires exported || embedded
    ensures Flatten(before + [Field([], exported, embedded, Struct(inner))] + after, readOnly, values)
         == Flatten(before + inner + after, readOnly, values)
  {
    var e := Field([], exported, embedded, Struct(inner));
    FlattenAppend(before + [e], after, readOnly, values);
    FlattenAppend(before, [e], readOnly, values);
    FlattenAppend(before + inner, after, readOnly, values);
    FlattenAppend(before, inner, readOnly, values);
  }

  /**
   * Reflection clears the embedded read-only mark for the fields of an
   * unexported embedded struct, so its exported tagged fields are written.
   */
  lemma UnexportedEmbeddedWritten(tag: Bytes, text: Bytes)
    requires tag != [] && text != []
    ensures Flatten([Field([], false, true, Struct([Field(tag, true, false, Str(text))]))], false, map[])
         == map[tag := [text]]
  {
    var inner := [Field(tag, true, false, Str(text))];
    StructFieldInline([], false, true, inner, [], false, map[]);
    assert [] + [Field([], false, true, Struct(inner))] + [] == [Field([], false, true, Struct(inner))];
    assert [] + inner + [] == inner;
  }

  /** The fields of an unexported struct field that is neither tagged nor embedded are never written. */
  lemma UnexportedStructSkipped(before: seq<Field>, inner: seq<Field>, after: seq<Field>, readOnly: bool, values: Values)
    ensures Flatten(before + [Field([], false, false, Struct(inner))] + after, readOnly, values)
         == Flatten(before + after, readOnly, values)
  {
    var f := Field([], false, false, Struct(inner));
    FlattenAppend(before + [f], after, readOnly, values);
    FlattenAppend(before, [f], readOnly, values);
    FlattenAppend(before, after, readOnly, values);
    FlattenReadOnly(inner, Flatten(before, readOnly, values));
  }

  /**
   * A field the walk ignores leaves the result as if it were not declared:
   * an untagged field that is not a struct (an untagged `time.Time`
   * included), and a tagged field that is unexported or read-only.
   */
  lemma IgnoredField(before: seq<Field>, f: Field, after: seq<Field>, readOnly: bool, values: Values)
    requires (f.tag == [] && !f.kind.Struct?) || (f.tag != [] && (readOnly || !f.exported))
    ensures Flatten(before + [f] + after, readOnly, values) == Flatten(before + after, readOnly, values)
  {
    FlattenAppend(before + [f], after, readOnly, values);
    FlattenAppend(before, [f], readOnly, values);
    FlattenAppend(before, after, readOnly, values);
  }

  /** The last write wins: a readable tagged field that emits overrides every earlier field with its tag. */
  lemma LastWriteWins(fields: seq<Field>, last: Field, values: Values)
    requires last.tag != [] && last.exported && Emitted(last.kind).Some?
    ensures var r := Flatten(fields + [last], false, values);
      last.tag in r && r[last.tag] == [Emitted(last.kind).value]
  {
    FlattenAppend(fields, [last], false, values);
  }

  /** An empty string and a zero integer are omitted; `false` is not. */
  lemma ZeroValuesOmitted()
    ensures Flatten([Field("Name", true, false, Str("")), Field("Amount", true, false, Int(0)),
                     Field("Active", true, false, Bool(false))], false, map[])
         == map["Active" := ["false"]]
  {
  }

  /** The fields of `model.BaseModel` (pkg/model/model.go), all tagged strings. */
  function BaseModelFields(tradeDesc: Bytes, remark: Bytes, platformID: Bytes, checkMacValue: Bytes): seq<Field> {
    [Field("TradeDesc", true, false, Str(tradeDesc)), Field("Remark", true, false, Str(remark)),
     Field("PlatformID", true, false, Str(platformID)), Field("CheckMacValue", true, false, Str(checkMacValue))]
  }

  /**
   * A struct that embeds `model.BaseModel`, as the trade request of
   * pkg/trade/ecpay_trade.go does, is flattened with the embedded
   * `CheckMacValue` tag whenever that field is set, so a form built from a
   * signed request already carries a signature.
   */
  lemma EmbeddedCheckMacValue(tradeDesc: Bytes, remark: Bytes, platformID: Bytes, checkMacValue: Bytes)
    requires checkMacValue != []
    ensures var r := Flatten([Field([], true, true, Struct(BaseModelFields(tradeDesc, remark, platformID, checkMacValue)))], false, map[]);
      "CheckMacValue" in r && r["CheckMacValue"] == [checkMacValue]
  {
    var inner := BaseModelFields(tradeDesc, remark, platformID, checkMacValue);
    var e := Field([], true, true, Struct(inner));
    StructFieldInline([], true, true, inner, [], false, map[]);
    assert [] + [e] + [] == [e];
    assert [] + inner + [] == inner;
    assert inner == inner[..3] + [inner[3]];
    LastWriteWins(inner[..3], inner[3], map[]);
  }
}
