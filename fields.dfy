/**
 * The declarative field descriptors of the host's data-model library
 * (`NumberField`, `StringField`, `HTMLField`), reduced to the options the
 * schemas of this system use, and the bounds each one declares.
 *
 * The library's own coercion and error reporting are not modelled: a
 * descriptor here only says which values it admits.
 */
module Fields {

  datatype Option<+T> = None | Some(value: T)

  /** A numeric field. `initial` is its default; `min` and `max`, when present,
      are inclusive bounds; `integer` records that the field is declared
      integral (every value here is an `int`, so it constrains nothing more). */
  datatype NumberField = NumberField(
    required: bool,
    integer: bool,
    initial: int,
    min: Option<int>,
    max: Option<int>)

  /** A text field (an HTML field is one too). `choices`, when present, is the
      closed list of admitted values. */
  datatype StringField = StringField(initial: string, choices: Option<seq<string>>)

  /** The value lies within every bound the field declares. */
  predicate NumberAdmits(f: NumberField, v: int)
  {
    && (f.min.Some? ==> f.min.value <= v)
    && (f.max.Some? ==> v <= f.max.value)
  }

  /** The text is one of the field's choices, when it declares any. */
  predicate StringAdmits(f: StringField, s: string)
  {
    f.choices.Some? ==> s in f.choices.value
  }

  /** The field's own default satisfies the field's own bounds. */
  predicate NumberDefaultAdmitted(f: NumberField)
  {
    NumberAdmits(f, f.initial)
  }

  predicate StringDefaultAdmitted(f: StringField)
  {
    StringAdmits(f, f.initial)
  }
}
