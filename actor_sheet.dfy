/**
 * The two game rules inside the character sheet: the formula of an attribute
 * roll, and the "reactive horror" visual state chosen from the character's
 * sanity after each render.
 */
module ActorSheet {
  import opened Fields
  import opened DataModels
  import opened DiceNotation

  // ------------------------------------------------------------------
  // Attribute roll formula (#onRollAttribute)
  // ------------------------------------------------------------------

  /** A positive attribute rolls that many d20 and keeps the highest; zero
      (or less) rolls two d20 and keeps the lowest. */
  function AttributeFormula(attrVal: int): (f: string)
    ensures attrVal > 0 ==> |f| > 5 && f[..|f| - 5] == Decimal(attrVal) && f[|f| - 5..] == "d20kh"
    ensures attrVal <= 0 ==> f == "2d20kl"
  {
    if attrVal > 0 then Decimal(attrVal) + "d20kh" else "2d20kl"
  }

  /** The formula of the attribute stored under a key of the sheet's button.
      A key that names no attribute reads as undefined, which is not greater
      than 0, so it takes the keep-lowest branch. */
  function RollAttributeFormula(a: Atributos, attrKey: string): (f: string)
    ensures attrKey !in AttributeKeys ==> f == "2d20kl"
    ensures attrKey in AttributeKeys ==> f == AttributeFormula(AttributeValue(a, attrKey).value)
    ensures |f| >= 6 && (f[|f| - 2..] == "kh" <==> attrKey in AttributeKeys && AttributeValue(a, attrKey).value > 0)
  {
    match AttributeValue(a, attrKey)
    case None => "2d20kl"
    case Some(v) => AttributeFormula(v)
  }

  /** What the formula asks the dice roller for: `attrVal` d20 keeping the
      highest one when positive, otherwise two d20 keeping the lowest one. */
  lemma AttributeFormulaMeaning(attrVal: int)
    ensures attrVal > 0 ==> ParseRoll(AttributeFormula(attrVal)) == Some(DiceRoll(attrVal, 20, KeepHighest(1)))
    ensures attrVal <= 0 ==> AttributeFormula(attrVal) == "2d20kl"
    ensures attrVal <= 0 ==> ParseRoll(AttributeFormula(attrVal)) == Some(DiceRoll(2, 20, KeepLowest(1)))
  {
    assert Decimal(20) == "20";
    if attrVal > 0 {
      assert AttributeFormula(attrVal) == Decimal(attrVal) + "d" + Decimal(20) + "kh";
      ParseFormatted(attrVal, 20, "kh", KeepHighest(1));
    } else {
      assert Decimal(2) == "2";
      assert AttributeFormula(attrVal) == Decimal(2) + "d" + Decimal(20) + "kl";
      ParseFormatted(2, 20, "kl", KeepLowest(1));
    }
  }

  /** No attribute roll asks for zero dice: the count is the attribute when
      positive and 2 otherwise, so it is at least 1, and one d20 is kept. */
  lemma FormulaNeverZeroDice(a: Atributos, attrKey: string)
    ensures var r := ParseRoll(RollAttributeFormula(a, attrKey));
      && r.Some? && r.value.count >= 1 && r.value.faces == 20
      && r.value.keep in {KeepHighest(1), KeepLowest(1)}
      && (r.value.keep == KeepHighest(1) <==> attrKey in AttributeKeys && AttributeValue(a, attrKey).value > 0)
  {
    match AttributeValue(a, attrKey)
    case None => AttributeFormulaMeaning(0);
    case Some(v) => AttributeFormulaMeaning(v);
  }

  /** A worked case: attribute 3 gives "3d20kh". */
  lemma AttributeThreeFormula(a: Atributos)
    requires a.agilidade == 3
    ensures RollAttributeFormula(a, "agilidade") == "3d20kh"
  {
    assert Decimal(3) == "3";
  }

  // ------------------------------------------------------------------
  // Reactive horror state (_onRender)
  // ------------------------------------------------------------------

  datatype HorrorState = Calm | Shaken | Insane

  /** `(value / max) * 100 <= limit` in exact arithmetic under the host's
      number semantics: a zero maximum divides to +Infinity (value > 0),
      -Infinity (value < 0) or NaN (value == 0), and NaN compares false. */
  function PercentAtMost(value: int, max: int, limit: int): (r: bool)
    ensures max != 0 ==> (r <==> (value as real / max as real) * 100.0 <= limit as real)
  {
    PercentCrossMultiplied(value, max, limit);
    if max > 0 then value * 100 <= limit * max
    else if max < 0 then value * 100 >= limit * max
    else value < 0
  }

  /** For a non-zero maximum, comparing the percentage with a limit is the
      same as comparing the cross-multiplied integers. */
  lemma PercentCrossMultiplied(value: int, max: int, limit: int)
    ensures max > 0 ==> ((value as real / max as real) * 100.0 <= limit as real <==> value * 100 <= limit * max)
    ensures max < 0 ==> ((value as real / max as real) * 100.0 <= limit as real <==> value * 100 >= limit * max)
  {
    if max != 0 {
      var q := value as real / max as real;
      assert q * max as real == value as real;
      assert (q * 100.0) * max as real == (value * 100) as real;
    }
  }

  /** The state chosen from the sanity percentage: at most 25% is insane,
      at most 50% is shaken, anything above is neither. */
  function HorrorStateOf(value: int, max: int): (h: HorrorState)
    ensures max > 0 ==> (h == Insane <==> value * 100 <= 25 * max)
    ensures max > 0 ==> (h == Shaken <==> 25 * max < value * 100 <= 50 * max)
    ensures max > 0 ==> (h == Calm <==> 50 * max < value * 100)
    ensures max < 0 ==> (h == Insane <==> value * 100 >= 25 * max)
    ensures max < 0 ==> (h == Shaken <==> 50 * max <= value * 100 < 25 * max)
    ensures max == 0 ==> (h == Insane <==> value < 0) && h != Shaken
  {
    if PercentAtMost(value, max, 25) then Insane
    else if PercentAtMost(value, max, 50) then Shaken
    else Calm
  }

  function Severity(h: HorrorState): nat
  {
    match h
    case Calm => 0
    case Shaken => 1
    case Insane => 2
  }

  /** Losing sanity never makes the state less severe. */
  lemma HorrorWorsensAsSanityFalls(v1: int, v2: int, max: int)
    requires max > 0 && v1 <= v2
    ensures Severity(HorrorStateOf(v2, max)) <= Severity(HorrorStateOf(v1, max))
  {
  }

  const ShakenClass := "state-shaken"
  const InsaneClass := "state-insane"

  function StateClasses(h: HorrorState): set<string>
  {
    match h
    case Calm => {}
    case Shaken => {ShakenClass}
    case Insane => {InsaneClass}
  }

  /** The element's classes after the render: both state classes removed,
      then the one for the current state added. */
  function RenderedClasses(before: set<string>, h: HorrorState): (after: set<string>)
    ensures !(ShakenClass in after && InsaneClass in after)
    ensures InsaneClass in after <==> h == Insane
    ensures ShakenClass in after <==> h == Shaken
    ensures forall c | c != ShakenClass && c != InsaneClass :: c in after <==> c in before
  {
    before - {ShakenClass, InsaneClass} + StateClasses(h)
  }

  /** Rendering again with the same sanity leaves the classes as they are. */
  lemma RenderIdempotent(before: set<string>, h: HorrorState)
    ensures RenderedClasses(RenderedClasses(before, h), h) == RenderedClasses(before, h)
  {
  }

  /** The sheet's root element, reduced to its list of CSS classes. */
  class SheetElement {
    var classList: set<string>

    constructor (classes: set<string>)
      ensures classList == classes
    {
      classList := classes;
    }

    /** The horror part of the render step, reading the sanity pool of the
        sheet's character. */
    method RenderHorrorState(system: OPCharacterData)
      modifies this
      ensures classList == RenderedClasses(old(classList),
                                           HorrorStateOf(system.status.sanidade.value, system.status.sanidade.max))
    {
      var value := system.status.sanidade.value;
      var max := system.status.sanidade.max;

      classList := classList - {ShakenClass, InsaneClass};

      if PercentAtMost(value, max, 25) {
        classList := classList + {InsaneClass};
      } else if PercentAtMost(value, max, 50) {
        classList := classList + {ShakenClass};
      }
    }
  }
}
