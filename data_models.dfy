/**
 * The data models of the "Ordem Paranormal: Sobrevivendo ao Horror" game
 * system: the character record with its schema and its derived-stat
 * computation, and the inventory item record with its schema.
 */
module DataModels {
  import opened Fields

  // ------------------------------------------------------------------
  // Character schema (OPCharacterData.defineSchema)
  // ------------------------------------------------------------------

  /** The five attribute keys, in schema order. */
  const AttributeKeys: seq<string> := ["forca", "agilidade", "intelecto", "vigor", "presenca"]

  /** Every attribute: required, integral, default 1, at least 0, no maximum. */
  const AttributeField := NumberField(true, true, 1, Some(0), None)

  /** Value and maximum of each resource pool share one default; neither is bounded. */
  const PvField := NumberField(false, false, 20, None, None)
  const PeField := NumberField(false, false, 2, None, None)
  const SanidadeField := NumberField(false, false, 12, None, None)

  /** The two fields the schema's `skill` helper builds for a skill entry. */
  datatype SkillField = SkillField(bonus: NumberField, atributo: StringField)

  /** The `skill(attr)` helper: an integral bonus defaulting to 0, and a text
      field whose default is the governing attribute's key. */
  function SkillFieldFor(attr: string): (f: SkillField)
    ensures f.bonus.integer && f.bonus.initial == 0 && f.bonus.min == None && f.bonus.max == None
    ensures f.atributo.initial == attr && f.atributo.choices == None
    ensures NumberDefaultAdmitted(f.bonus) && StringDefaultAdmitted(f.atributo)
  {
    SkillField(NumberField(false, true, 0, None, None), StringField(attr, None))
  }

  /** The fixed catalogue of skills, each with the key of its governing attribute. */
  const SkillCatalogue: seq<(string, string)> := [
    ("acrobacia", "agilidade"), ("crime", "agilidade"), ("furtividade", "agilidade"),
    ("iniciativa", "agilidade"), ("pilotagem", "agilidade"), ("pontaria", "agilidade"),
    ("reflexos", "agilidade"),
    ("atletismo", "forca"), ("luta", "forca"),
    ("atualidades", "intelecto"), ("ciencias", "intelecto"), ("investigacao", "intelecto"),
    ("medicina", "intelecto"), ("ocultismo", "intelecto"), ("profissao", "intelecto"),
    ("sobrevivencia", "intelecto"), ("tatica", "intelecto"), ("tecnologia", "intelecto"),
    ("adestramento", "presenca"), ("artes", "presenca"), ("diplomacia", "presenca"),
    ("enganacao", "presenca"), ("intimidacao", "presenca"), ("intuicao", "presenca"),
    ("percepcao", "presenca"), ("religiao", "presenca"), ("vontade", "presenca"),
    ("fortitude", "vigor")
  ]

  const ClassChoices: seq<string> := ["combatente", "especialista", "ocultista", "sobrevivente"]
  const ClasseField := StringField("combatente", Some(ClassChoices))
  const OrigemField := StringField("", None)
  const NexField := NumberField(false, false, 5, Some(0), Some(99))
  /** Progression stage, used by the survivor class only. */
  const EstagioField := NumberField(false, false, 1, Some(1), None)

  // ------------------------------------------------------------------
  // Character record values
  // ------------------------------------------------------------------

  datatype Atributos = Atributos(forca: int, agilidade: int, intelecto: int, vigor: int, presenca: int)
  datatype Pool = Pool(value: int, max: int)
  datatype Status = Status(pv: Pool, pe: Pool, sanidade: Pool)
  datatype Skill = Skill(bonus: int, atributo: string)
  datatype Detalhes = Detalhes(classe: string, origem: string, nex: int, estagio: int)

  predicate ValidAtributos(a: Atributos)
  {
    && NumberAdmits(AttributeField, a.forca)
    && NumberAdmits(AttributeField, a.agilidade)
    && NumberAdmits(AttributeField, a.intelecto)
    && NumberAdmits(AttributeField, a.vigor)
    && NumberAdmits(AttributeField, a.presenca)
  }

  predicate ValidDetalhes(d: Detalhes)
  {
    && StringAdmits(ClasseField, d.classe)
    && StringAdmits(OrigemField, d.origem)
    && NumberAdmits(NexField, d.nex)
    && NumberAdmits(EstagioField, d.estagio)
  }

  function SkillNames(): set<string>
  {
    set i | 0 <= i < |SkillCatalogue| :: SkillCatalogue[i].0
  }

  /** A skill mapping has exactly one entry per catalogued skill. The bonus is
      any integer and the governing-attribute text is not restricted. */
  predicate ValidPericias(p: map<string, Skill>)
  {
    p.Keys == SkillNames()
  }

  /** `atributos[key]`: the attribute stored under a key, if the key is one of the five. */
  function AttributeValue(a: Atributos, key: string): (v: Option<int>)
    ensures v.Some? <==> key in AttributeKeys
    ensures forall i | 0 <= i < |AttributeKeys| ::
      key == AttributeKeys[i] ==> v == Some([a.forca, a.agilidade, a.intelecto, a.vigor, a.presenca][i])
  {
    if key == "forca" then Some(a.forca)
    else if key == "agilidade" then Some(a.agilidade)
    else if key == "intelecto" then Some(a.intelecto)
    else if key == "vigor" then Some(a.vigor)
    else if key == "presenca" then Some(a.presenca)
    else None
  }

  lemma SkillCatalogueShape()
    ensures |SkillCatalogue| == 28
    ensures forall i, j | 0 <= i < j < |SkillCatalogue| :: SkillCatalogue[i].0 != SkillCatalogue[j].0
    ensures forall i | 0 <= i < |SkillCatalogue| :: SkillCatalogue[i].1 in AttributeKeys
  {
  }

  /** The declared bounds, field by field, and each default within its own bounds. */
  lemma CharacterSchemaBounds()
    ensures forall v :: NumberAdmits(AttributeField, v) <==> 0 <= v
    ensures forall v :: NumberAdmits(NexField, v) <==> 0 <= v <= 99
    ensures forall v :: NumberAdmits(EstagioField, v) <==> 1 <= v
    ensures forall s :: StringAdmits(ClasseField, s) <==> s in ClassChoices
    ensures AttributeField.integer && SkillFieldFor("forca").bonus.integer
    ensures NumberDefaultAdmitted(AttributeField) && NumberDefaultAdmitted(NexField)
    ensures NumberDefaultAdmitted(EstagioField) && StringDefaultAdmitted(ClasseField)
    ensures StringDefaultAdmitted(OrigemField)
  {
  }

  function DefaultAtributos(): (a: Atributos)
    ensures ValidAtributos(a)
    ensures forall k | k in AttributeKeys :: AttributeValue(a, k) == Some(1)
  {
    var i := AttributeField.initial;
    Atributos(i, i, i, i, i)
  }

  function DefaultStatus(): (s: Status)
    ensures s.pv == Pool(20, 20) && s.pe == Pool(2, 2) && s.sanidade == Pool(12, 12)
    ensures NumberDefaultAdmitted(PvField) && NumberDefaultAdmitted(PeField) && NumberDefaultAdmitted(SanidadeField)
  {
    Status(Pool(PvField.initial, PvField.initial),
           Pool(PeField.initial, PeField.initial),
           Pool(SanidadeField.initial, SanidadeField.initial))
  }

  function DefaultPericias(): (p: map<string, Skill>)
    ensures ValidPericias(p)
    ensures forall name | name in p :: p[name].bonus == 0 && p[name].atributo in AttributeKeys
    ensures forall i | 0 <= i < |SkillCatalogue| ::
      SkillCatalogue[i].0 in p && p[SkillCatalogue[i].0] == Skill(0, SkillCatalogue[i].1)
  {
    SkillCatalogueShape();
    var p := map i | 0 <= i < |SkillCatalogue| ::
      SkillCatalogue[i].0 := Skill(SkillFieldFor(SkillCatalogue[i].1).bonus.initial,
                                   SkillFieldFor(SkillCatalogue[i].1).atributo.initial);
    assert forall i | 0 <= i < |SkillCatalogue| :: SkillCatalogue[i].0 in p;
    p
  }

  function DefaultDetalhes(): (d: Detalhes)
    ensures ValidDetalhes(d)
    ensures d.classe == "combatente" && d.origem == "" && d.nex == 5 && d.estagio == 1
  {
    Detalhes(ClasseField.initial, OrigemField.initial, NexField.initial, EstagioField.initial)
  }

  // ------------------------------------------------------------------
  // Derived statistics (OPCharacterData.prepareDerivedData)
  // ------------------------------------------------------------------

  datatype Maxima = Maxima(pv: int, pe: int, sanidade: int)

  function Max(x: int, y: int): int
  {
    if x >= y then x else y
  }

  /** The level, `max(1, floor(nex / 5))`. Dafny's `/` by a positive divisor
      rounds toward negative infinity, as `Math.floor` does. */
  function Nivel(nex: int): (n: int)
    ensures n >= 1
    ensures nex >= 5 ==> 5 * n <= nex < 5 * n + 5
    ensures nex < 10 ==> n == 1
  {
    Max(1, nex / 5)
  }

  /** Levels beyond the first. */
  function NexAdicional(nex: int): nat
  {
    Nivel(nex) - 1
  }

  /** The three resource maximums the class switch assigns, or None for a
      class the switch does not name (it has no default branch). */
  function ClassMaxima(classe: string, nex: int, estagio: int, a: Atributos): (r: Option<Maxima>)
    ensures r.Some? <==> classe in ClassChoices
  {
    var k := NexAdicional(nex);
    if classe == "combatente" then
      Some(Maxima((20 + a.vigor) + k * (4 + a.vigor), (2 + a.presenca) + k * (2 + a.presenca), 12 + k * 3))
    else if classe == "especialista" then
      Some(Maxima((16 + a.vigor) + k * (3 + a.vigor), (3 + a.presenca) + k * (3 + a.presenca), 16 + k * 4))
    else if classe == "ocultista" then
      Some(Maxima((12 + a.vigor) + k * (2 + a.vigor), (4 + a.presenca) + k * (4 + a.presenca), 20 + k * 5))
    else if classe == "sobrevivente" then
      var e := estagio - 1;
      Some(Maxima((8 + a.vigor) + e * 2, (2 + a.presenca) + e * 1, 8 + e * 2))
    else
      None
  }

  /** The pools after the class switch: every current value is kept; the
      maximums are replaced for a known class and kept otherwise. */
  function PreparedStatus(s: Status, d: Detalhes, a: Atributos): (r: Status)
    ensures r.pv.value == s.pv.value && r.pe.value == s.pe.value && r.sanidade.value == s.sanidade.value
    ensures d.classe !in ClassChoices ==> r == s
    ensures d.classe in ClassChoices ==>
      Maxima(r.pv.max, r.pe.max, r.sanidade.max) == ClassMaxima(d.classe, d.nex, d.estagio, a).value
  {
    match ClassMaxima(d.classe, d.nex, d.estagio, a)
    case None => s
    case Some(m) => Status(s.pv.(max := m.pv), s.pe.(max := m.pe), s.sanidade.(max := m.sanidade))
  }

  /** The effort that may be spent per turn. */
  function LimitePE(d: Detalhes): (l: int)
    ensures l >= 1
    ensures d.classe == "sobrevivente" ==> l == 1
    ensures d.classe != "sobrevivente" ==> l == Nivel(d.nex)
  {
    if d.classe == "sobrevivente" then 1 else Max(1, d.nex / 5)
  }

  /** Recomputing the pools a second time changes nothing. */
  lemma PreparedStatusIdempotent(s: Status, d: Detalhes, a: Atributos)
    ensures PreparedStatus(PreparedStatus(s, d, a), d, a) == PreparedStatus(s, d, a)
  {
  }

  /** For a known class the new maximums are a function of the attributes and
      details alone: whatever maximums were stored before are overwritten. */
  lemma PreparedMaximaRetroactive(s1: Status, s2: Status, d: Detalhes, a: Atributos)
    requires d.classe in ClassChoices
    ensures PreparedStatus(s1, d, a).pv.max == PreparedStatus(s2, d, a).pv.max
    ensures PreparedStatus(s1, d, a).pe.max == PreparedStatus(s2, d, a).pe.max
    ensures PreparedStatus(s1, d, a).sanidade.max == PreparedStatus(s2, d, a).sanidade.max
  {
  }

  // ------------------------------------------------------------------
  // Progression, one level at a time: an independent statement of the class table
  // ------------------------------------------------------------------

  /** What a character of a class has at the first level (or first stage). */
  function EntryMaxima(classe: string, a: Atributos): Maxima
  {
    if classe == "combatente" then Maxima(20 + a.vigor, 2 + a.presenca, 12)
    else if classe == "especialista" then Maxima(16 + a.vigor, 3 + a.presenca, 16)
    else if classe == "ocultista" then Maxima(12 + a.vigor, 4 + a.presenca, 20)
    else Maxima(8 + a.vigor, 2 + a.presenca, 8)
  }

  /** What every further level (or stage) of a class adds. */
  function LevelGain(classe: string, a: Atributos): Maxima
  {
    if classe == "combatente" then Maxima(4 + a.vigor, 2 + a.presenca, 3)
    else if classe == "especialista" then Maxima(3 + a.vigor, 3 + a.presenca, 4)
    else if classe == "ocultista" then Maxima(2 + a.vigor, 4 + a.presenca, 5)
    else Maxima(2, 1, 2)
  }

  function Plus(x: Maxima, y: Maxima): Maxima
  {
    Maxima(x.pv + y.pv, x.pe + y.pe, x.sanidade + y.sanidade)
  }

  predicate AtMost(x: Maxima, y: Maxima)
  {
    x.pv <= y.pv && x.pe <= y.pe && x.sanidade <= y.sanidade
  }

  /** The maximums after `steps` further levels, gained one at a time. */
  function MaximaAfter(classe: string, a: Atributos, steps: nat): Maxima
  {
    if steps == 0 then EntryMaxima(classe, a)
    else Plus(MaximaAfter(classe, a, steps - 1), LevelGain(classe, a))
  }

  /** Progression steps beyond the first: stages for a survivor, NEX levels otherwise. */
  function ProgressionSteps(d: Detalhes): int
  {
    if d.classe == "sobrevivente" then d.estagio - 1 else NexAdicional(d.nex)
  }

  lemma {:induction false} MaximaAfterClosedForm(classe: string, a: Atributos, steps: nat)
    ensures var e, g := EntryMaxima(classe, a), LevelGain(classe, a);
      MaximaAfter(classe, a, steps) == Maxima(e.pv + steps * g.pv, e.pe + steps * g.pe, e.sanidade + steps * g.sanidade)
  {
    if steps > 0 {
      MaximaAfterClosedForm(classe, a, steps - 1);
      var g := LevelGain(classe, a);
      assert (steps - 1) * g.pv + g.pv == steps * g.pv;
      assert (steps - 1) * g.pe + g.pe == steps * g.pe;
      assert (steps - 1) * g.sanidade + g.sanidade == steps * g.sanidade;
    }
  }

  /** The class switch assigns exactly the entry maximums plus one level gain
      per progression step. */
  lemma ClassMaximaIsProgression(d: Detalhes, a: Atributos)
    requires d.classe in ClassChoices
    requires NumberAdmits(EstagioField, d.estagio)
    ensures ProgressionSteps(d) >= 0
    ensures ClassMaxima(d.classe, d.nex, d.estagio, a) == Some(MaximaAfter(d.classe, a, ProgressionSteps(d)))
  {
    MaximaAfterClosedForm(d.classe, a, ProgressionSteps(d));
  }

  /** With non-negative attributes each level gain is non-negative, so the
      maximums never shrink as a character progresses. */
  lemma {:induction false} MaximaAfterMonotone(classe: string, a: Atributos, s1: nat, s2: nat)
    requires ValidAtributos(a)
    requires s1 <= s2
    ensures AtMost(MaximaAfter(classe, a, s1), MaximaAfter(classe, a, s2))
  {
    if s1 < s2 {
      MaximaAfterMonotone(classe, a, s1, s2 - 1);
    }
  }

  /** Progressing (more NEX, a later stage) never lowers a maximum. */
  lemma MaximaGrowWithProgress(d1: Detalhes, d2: Detalhes, a: Atributos)
    requires d1.classe == d2.classe && d1.classe in ClassChoices
    requires ValidAtributos(a)
    requires NumberAdmits(EstagioField, d1.estagio) && d1.estagio <= d2.estagio
    requires d1.nex <= d2.nex
    ensures AtMost(ClassMaxima(d1.classe, d1.nex, d1.estagio, a).value,
                   ClassMaxima(d2.classe, d2.nex, d2.estagio, a).value)
  {
    ClassMaximaIsProgression(d1, a);
    ClassMaximaIsProgression(d2, a);
    assert d1.nex / 5 <= d2.nex / 5;
    MaximaAfterMonotone(d1.classe, a, ProgressionSteps(d1), ProgressionSteps(d2));
  }

  /** For a valid record every known class gives at least 8 PV, 2 PE and 8
      sanity: no recomputed pool has a non-positive maximum. */
  lemma MaximaFloor(d: Detalhes, a: Atributos)
    requires d.classe in ClassChoices
    requires ValidAtributos(a) && NumberAdmits(EstagioField, d.estagio)
    ensures AtMost(Maxima(8, 2, 8), ClassMaxima(d.classe, d.nex, d.estagio, a).value)
  {
    ClassMaximaIsProgression(d, a);
    MaximaAfterMonotone(d.classe, a, 0, ProgressionSteps(d));
  }

  /** At the first level (NEX below 10%) a non-survivor has the entry row; a
      survivor has it at stage 1 whatever the NEX. */
  lemma FirstLevelMaxima(d: Detalhes, a: Atributos)
    requires d.classe in ClassChoices
    requires if d.classe == "sobrevivente" then d.estagio == 1 else d.nex < 10
    ensures ClassMaxima(d.classe, d.nex, d.estagio, a) == Some(EntryMaxima(d.classe, a))
  {
  }

  /** Survivor maximums follow the stage and never the NEX; the other classes
      follow the NEX and never the stage. */
  lemma ProgressionDriver(classe: string, nex1: int, nex2: int, e1: int, e2: int, a: Atributos)
    ensures classe == "sobrevivente" ==> ClassMaxima(classe, nex1, e1, a) == ClassMaxima(classe, nex2, e1, a)
    ensures classe != "sobrevivente" ==> ClassMaxima(classe, nex1, e1, a) == ClassMaxima(classe, nex1, e2, a)
  {
  }

  /** A worked case: an occultist at 10% NEX with vigor 3 has 20 PV. */
  lemma OccultistAtTenPercent(a: Atributos)
    requires a.vigor == 3
    ensures ClassMaxima("ocultista", 10, 1, a).value.pv == 20
  {
  }

  // ------------------------------------------------------------------
  // The character record
  // ------------------------------------------------------------------

  class OPCharacterData {
    var atributos: Atributos
    var status: Status
    var pericias: map<string, Skill>
    var detalhes: Detalhes
    /** Derived, never stored: effort per turn, ritual difficulty, passive defence. */
    var limitePE: int
    var dtRituais: int
    var defesa: int

    /** Every field within its declared bounds. */
    predicate Valid()
      reads this
    {
      ValidAtributos(atributos) && ValidPericias(pericias) && ValidDetalhes(detalhes)
    }

    /** The derived fields and the maximums agree with the rest of the record. */
    predicate Prepared()
      reads this
    {
      && status == PreparedStatus(status, detalhes, atributos)
      && limitePE == LimitePE(detalhes)
      && dtRituais == 10 + limitePE + atributos.presenca
      && defesa == 10 + atributos.agilidade
    }

    /** A record created from the schema defaults and then prepared, as the
        host prepares every document it constructs. The stored maximum of 20 PV
        and 2 PE is stale against the class table and is recomputed. */
    constructor ()
      ensures Valid() && Prepared()
      ensures atributos == DefaultAtributos() && pericias == DefaultPericias() && detalhes == DefaultDetalhes()
      ensures status == Status(Pool(20, 21), Pool(2, 3), Pool(12, 12))
      ensures limitePE == 1 && dtRituais == 12 && defesa == 11
    {
      atributos := DefaultAtributos();
      status := DefaultStatus();
      pericias := DefaultPericias();
      detalhes := DefaultDetalhes();
      limitePE, dtRituais, defesa := 0, 0, 0;
      new;
      PrepareDerivedData();
    }

    /** Recomputes the three resource maximums from the class table, then the
        three derived fields. Nothing else changes, and the current pool values
        are not clamped to the new maximums. */
    method PrepareDerivedData()
      modifies this
      ensures atributos == old(atributos) && pericias == old(pericias) && detalhes == old(detalhes)
      ensures status == PreparedStatus(old(status), detalhes, atributos)
      ensures limitePE == LimitePE(detalhes)
      ensures dtRituais == 10 + limitePE + atributos.presenca
      ensures defesa == 10 + atributos.agilidade
      ensures Prepared()
      ensures old(Prepared()) ==> unchanged(this)
    {
      var nex := detalhes.nex;
      var classe := detalhes.classe;

      var nivel := Max(1, nex / 5);
      var nexAdicional := nivel - 1;

      if classe == "combatente" {
        status := status.(pv := status.pv.(max := (20 + atributos.vigor) + nexAdicional * (4 + atributos.vigor)));
        status := status.(pe := status.pe.(max := (2 + atributos.presenca) + nexAdicional * (2 + atributos.presenca)));
        status := status.(sanidade := status.sanidade.(max := 12 + nexAdicional * 3));
      } else if classe == "especialista" {
        status := status.(pv := status.pv.(max := (16 + atributos.vigor) + nexAdicional * (3 + atributos.vigor)));
        status := status.(pe := status.pe.(max := (3 + atributos.presenca) + nexAdicional * (3 + atributos.presenca)));
        status := status.(sanidade := status.sanidade.(max := 16 + nexAdicional * 4));
      } else if classe == "ocultista" {
        status := status.(pv := status.pv.(max := (12 + atributos.vigor) + nexAdicional * (2 + atributos.vigor)));
        status := status.(pe := status.pe.(max := (4 + atributos.presenca) + nexAdicional * (4 + atributos.presenca)));
        status := status.(sanidade := status.sanidade.(max := 20 + nexAdicional * 5));
      } else if classe == "sobrevivente" {
        var estagioAdicional := detalhes.estagio - 1;
        status := status.(pv := status.pv.(max := (8 + atributos.vigor) + estagioAdicional * 2));
        status := status.(pe := status.pe.(max := (2 + atributos.presenca) + estagioAdicional * 1));
        status := status.(sanidade := status.sanidade.(max := 8 + estagioAdicional * 2));
      }

      limitePE := if classe == "sobrevivente" then 1 else Max(1, nex / 5);
      dtRituais := 10 + limitePE + atributos.presenca;
      defesa := 10 + atributos.agilidade;

      PreparedStatusIdempotent(old(status), detalhes, atributos);
    }
  }

  // ------------------------------------------------------------------
  // Item schema and record (OPItemData.defineSchema)
  // ------------------------------------------------------------------

  const DescricaoField := StringField("", None)
  /** Inventory slots occupied: required, integral, 1 to 4. */
  const EspacosField := NumberField(true, true, 1, Some(1), Some(4))
  /** Footprint on the case grid. */
  const LarguraField := NumberField(false, false, 1, Some(1), Some(2))
  const AlturaField := NumberField(false, false, 1, Some(1), Some(2))
  const PesoField := NumberField(false, false, 1, Some(0), None)

  datatype OPItemData = OPItemData(descricao: string, espacos: int, largura: int, altura: int, peso: int)

  predicate ValidItem(i: OPItemData)
  {
    && StringAdmits(DescricaoField, i.descricao)
    && NumberAdmits(EspacosField, i.espacos)
    && NumberAdmits(LarguraField, i.largura)
    && NumberAdmits(AlturaField, i.altura)
    && NumberAdmits(PesoField, i.peso)
  }

  /** The declared item bounds, and each default within its own bounds. */
  lemma ItemSchemaBounds()
    ensures forall v :: NumberAdmits(EspacosField, v) <==> 1 <= v <= 4
    ensures forall v :: NumberAdmits(LarguraField, v) <==> 1 <= v <= 2
    ensures forall v :: NumberAdmits(AlturaField, v) <==> 1 <= v <= 2
    ensures forall v :: NumberAdmits(PesoField, v) <==> 0 <= v
    ensures EspacosField.integer
    ensures NumberDefaultAdmitted(EspacosField) && NumberDefaultAdmitted(LarguraField)
    ensures NumberDefaultAdmitted(AlturaField) && NumberDefaultAdmitted(PesoField)
    ensures StringDefaultAdmitted(DescricaoField)
  {
  }

  function DefaultItem(): (i: OPItemData)
    ensures ValidItem(i)
    ensures i.espacos == 1 && i.largura == 1 && i.altura == 1 && i.peso == 1
  {
    OPItemData(DescricaoField.initial, EspacosField.initial, LarguraField.initial,
               AlturaField.initial, PesoField.initial)
  }
}
