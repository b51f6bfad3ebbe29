/** The schema-driven view of a protobuf message that the flattener walks:
    each field carries its descriptor (name, label, kind) together with its
    value. The payload constructor fixes label and kind at once, so a field
    can never claim one kind and hold another. */
module Records {
  import opened Common
  import opened Strings

  /** `FieldDescriptor.LABEL_OPTIONAL` / `LABEL_REPEATED`. */
  datatype Label = LabelOptional | LabelRepeated

  /** `TYPE_MESSAGE` (wrapper when the message type is declared in
      `google/protobuf/wrappers.proto`), `TYPE_ENUM`, or any scalar type. */
  datatype Kind = ScalarKind | EnumKind | MessageKind(wrapper: bool)

  /** A Python value as the flattener emits it and the custom-field coercer
      classifies it. `DateTime` is a `datetime` whose `int(timestamp())` is
      `seconds`. `Other` is a value of any other type (a float, bytes, ...):
      `zero` says whether it is its type's default, `stringable` whether the
      case-management client's `add_string` accepts it. */
  datatype Value =
    | Int(i: int)
    | Bool(b: bool)
    | Str(s: string)
    | DateTime(seconds: int)
    | Other(zero: bool, stringable: bool)

  /** An enum type: the member name for each declared number. */
  datatype EnumType = EnumType(members: map<int, string>)

  /** `descriptor.enum_type.values_by_number[number].name`; `None` is the
      `KeyError` raised for a number with no declared member. */
  function EnumName(t: EnumType, number: int): (r: Option<string>)
    ensures r.Some? <==> number in t.members
    ensures r.Some? ==> r.value == t.members[number]
  {
    if number in t.members then Some(t.members[number]) else None
  }

  /** The names of a repeated enum field's numbers, in order; `None` as soon
      as one number has no member. */
  function EnumNames(t: EnumType, numbers: seq<int>): (r: Option<seq<string>>)
    ensures r.Some? <==> forall k :: 0 <= k < |numbers| ==> numbers[k] in t.members
    ensures r.Some? ==> |r.value| == |numbers|
    ensures r.Some? ==> forall k :: 0 <= k < |numbers| ==> r.value[k] == t.members[numbers[k]]
  {
    if numbers == [] then Some([])
    else
      match EnumNames(t, numbers[..|numbers| - 1])
      case None => None
      case Some(names) =>
        var last := numbers[|numbers| - 1];
        if last in t.members then Some(names + [t.members[last]]) else None
  }

  /** A field's value together with its label and kind. Repeated scalars and
      repeated wrappers hold text only: `'; '.join` accepts nothing else. */
  datatype Content =
    | Scalar(v: Value)                        // optional scalar
    | Scalars(items: seq<string>)             // repeated scalar
    | Enum(t: EnumType, number: int)          // optional enum
    | Enums(t: EnumType, numbers: seq<int>)   // repeated enum
    | Wrapped(w: Option<Value>)               // optional wrapper message: its `.value` when set
    | Wrappeds(items: seq<string>)            // repeated wrapper message, each `.value`
    | Nested(sub: Option<Msg>)                // optional non-wrapper message, when set
    | NestedList(ms: seq<Msg>)                // repeated non-wrapper message

  datatype Field = Field(name: string, content: Content)

  /** A message: its fields in declaration order (`DESCRIPTOR.fields`). */
  datatype Msg = Msg(fields: seq<Field>)

  function LabelOf(c: Content): Label
  {
    match c
    case Scalars(_) | Enums(_, _) | Wrappeds(_) | NestedList(_) => LabelRepeated
    case _ => LabelOptional
  }

  function KindOf(c: Content): Kind
  {
    match c
    case Scalar(_) | Scalars(_) => ScalarKind
    case Enum(_, _) | Enums(_, _) => EnumKind
    case Wrapped(_) | Wrappeds(_) => MessageKind(true)
    case Nested(_) | NestedList(_) => MessageKind(false)
  }

  /** The proto3 default of a scalar. */
  predicate IsZero(v: Value)
  {
    match v
    case Int(i) => i == 0
    case Bool(b) => !b
    case Str(s) => s == []
    case DateTime(_) => false
    case Other(zero, _) => zero
  }

  /** `ByteSize() == 0`: no field of the message is encoded. */
  predicate IsEmpty(m: Msg)
  {
    forall k :: 0 <= k < |m.fields| ==> IsDefault(m.fields[k].content)
  }

  /** A field contributes nothing to its message's encoding: a scalar or enum
      at its proto3 default, an empty repeated field, or a singular message
      that is not set. A set sub-message is encoded (tag and length) even when
      it is empty itself. */
  predicate IsDefault(c: Content)
  {
    match c
    case Scalar(v) => IsZero(v)
    case Scalars(items) => items == []
    case Enum(_, n) => n == 0
    case Enums(_, ns) => ns == []
    case Wrapped(w) => w.None?
    case Wrappeds(items) => items == []
    case Nested(sub) => sub.None?
    case NestedList(ms) => ms == []
  }

  /** The flattener's skip test: an optional message field, wrapper or not,
      whose value has `ByteSize() == 0`. An unset field reads as the empty
      default message; a set one is empty when none of its own fields is
      encoded. */
  predicate IsUnsetMessage(c: Content)
  {
    LabelOf(c) == LabelOptional && KindOf(c).MessageKind? && ValueIsEmpty(c)
  }

  /** `value.ByteSize() == 0` for the value a singular message field reads as. */
  predicate ValueIsEmpty(c: Content)
  {
    match c
    case Wrapped(w) => w.None? || IsZero(w.value)
    case Nested(sub) => sub.None? || IsEmpty(sub.value)
    case _ => false
  }

  /** A name whose every `_`-separated piece is non-empty (no leading,
      trailing or doubled underscore). */
  predicate ValidName(name: string)
  {
    forall k :: 0 <= k < |Split(name, '_')| ==> Split(name, '_')[k] != []
  }

  /** Every field name in the message, at every depth, is valid. */
  predicate WellNamed(m: Msg)
  {
    forall k :: 0 <= k < |m.fields| ==> WellNamedField(m.fields[k])
  }

  predicate WellNamedField(f: Field)
  {
    ValidName(f.name) &&
    match f.content
    case Nested(sub) => sub.Some? ==> WellNamed(sub.value)
    case NestedList(ms) => forall k :: 0 <= k < |ms| ==> WellNamed(ms[k])
    case _ => true
  }

  /** A set sub-message, wrapper or not, is encoded even when it is empty
      itself, so the message holding it is never skipped as unset. */
  lemma SetFieldIsEncoded(m: Msg, k: nat)
    requires k < |m.fields|
    requires m.fields[k].content.Nested? || m.fields[k].content.Wrapped?
    requires m.fields[k].content.Nested? ==> m.fields[k].content.sub.Some?
    requires m.fields[k].content.Wrapped? ==> m.fields[k].content.w.Some?
    ensures !IsEmpty(m)
    ensures !IsUnsetMessage(Nested(Some(m)))
  {
    assert !IsDefault(m.fields[k].content);
  }
}
