/**
 * The decision engine of the breast-cancer surgery support tool: a patient
 * record and the ordered, first-match-wins chain of clinical rules that turns
 * it into a recommendation label and an explanation text.
 */
module Beslisregels {

  /** One patient's answers; the size is an exact real (no floating point). */
  datatype PatientGegevens = PatientGegevens(
    tumorGrootteCm: real,
    multicentrisch: bool,
    eerdereBestralingBorst: bool,
    zwangerschap: bool,
    radiotherapieBeschikbaar: bool
  )

  /** A value that may be absent: the form yields no record, a table no matching rule. */
  datatype Option<T> = None | Some(value: T)

  /** The three recommendation labels the engine can return. */
  datatype Aanbeveling = Mastectomie | Borstsparend | OverlegTeam

  /** The six rules, in the order the engine tries them; each has its own explanation. */
  datatype Regel = Multicentrisch | BestralingNietMogelijk | Zwanger | KleineTumor | GroteTumor | Overleg

  /** The size limit (in cm) up to and including which breast-conserving surgery is advised. */
  const GrensCm: real := 5.0

  function Label(a: Aanbeveling): string
  {
    match a
    case Mastectomie => "Mastectomie aanbevolen"
    case Borstsparend => "Borstsparende operatie aanbevolen"
    case OverlegTeam => "Overleg met behandelteam aanbevolen"
  }

  /** The label a rule recommends: every rule but the small-tumour rule and the fallback advises mastectomy. */
  function AanbevelingVan(g: Regel): Aanbeveling
  {
    match g
    case KleineTumor => Borstsparend
    case Overleg => OverlegTeam
    case _ => Mastectomie
  }

  /** The explanation texts, one per rule. */
  const TekstMulticentrisch: string :=
      "Er zitten meerdere tumoren in verschillende delen van de borst. "
      + "In dat geval is het meestal niet mogelijk om alleen het aangetaste stukje weg te halen. "
      + "Daarom wordt vaak gekozen voor het verwijderen van de hele borst (mastectomie)."

  const TekstGeenBestraling: string :=
      "Na een borstsparende operatie is bestraling van de borst altijd nodig om terugkeer van de tumor te voorkomen. "
      + "Omdat bestraling in dit geval niet mogelijk of niet beschikbaar is, is het veiliger om de hele borst te verwijderen (mastectomie)."

  const TekstZwanger: string :=
      "Tijdens de zwangerschap kan bestraling niet veilig worden uitgevoerd. "
      + "Daarom wordt vaak gekozen voor een mastectomie, zodat de behandeling niet hoeft te worden uitgesteld tot na de bevalling."

  const TekstKleineTumor: string :=
      "De tumor is klein genoeg om alleen het aangetaste deel van de borst weg te halen. "
      + "Daarna volgt meestal bestraling van de borst om het risico op terugkeer te verkleinen. "
      + "Deze combinatie levert doorgaans hetzelfde resultaat op als een borstverwijdering."

  const TekstGroteTumor: string :=
      "De tumor is relatief groot, waardoor het moeilijk is om de borst mooi te behouden na een operatie. "
      + "Daarom wordt meestal gekozen om de hele borst te verwijderen (mastectomie)."

  const TekstOverleg: string :=
      "De situatie is complex en niet eenduidig. "
      + "Het is verstandig om dit te bespreken met het behandelteam en uw arts en samen te beslissen welke behandeling het beste past."

  /** The explanation text bound to each rule. */
  function Toelichting(g: Regel): string
  {
    match g
    case Multicentrisch => TekstMulticentrisch
    case BestralingNietMogelijk => TekstGeenBestraling
    case Zwanger => TekstZwanger
    case KleineTumor => TekstKleineTumor
    case GroteTumor => TekstGroteTumor
    case Overleg => TekstOverleg
  }

  /** The (label, explanation) pair the engine returns when rule g fires. */
  function Uitkomst(g: Regel): (string, string)
  {
    (Label(AanbevelingVan(g)), Toelichting(g))
  }

  /** The patients for whom breast-conserving surgery is advised, stated as one condition. */
  predicate BscKandidaat(p: PatientGegevens)
  {
    !p.multicentrisch && p.radiotherapieBeschikbaar && !p.zwangerschap && p.tumorGrootteCm <= GrensCm
  }

  /**
   * The ordered rule chain: the first rule whose condition holds decides,
   * tried as multicentric tumour, radiotherapy unavailable, pregnancy, small
   * tumour, large tumour, and a fallback that asks for the team's advice.
   * With a real size the fallback is never reached, and the advice is
   * breast-conserving exactly for the BscKandidaat patients.
   */
  function Besluit(p: PatientGegevens): (g: Regel)
    ensures g != Overleg
    ensures AanbevelingVan(g) == Borstsparend <==> BscKandidaat(p)
  {
    if p.multicentrisch then Multicentrisch
    else if !p.radiotherapieBeschikbaar then BestralingNietMogelijk
    else if p.zwangerschap && p.radiotherapieBeschikbaar then Zwanger
    else if p.tumorGrootteCm <= GrensCm then KleineTumor
    else if p.tumorGrootteCm > GrensCm then GroteTumor
    else Overleg
  }

  /**
   * The decision function: the (label, explanation) pair of the rule that
   * fires. The label is mastectomy or breast-conserving surgery, the latter
   * exactly for the BscKandidaat patients, and the fallback pair never comes out.
   */
  function Beoordeel(p: PatientGegevens): (r: (string, string))
    ensures r.0 == "Borstsparende operatie aanbevolen" <==> BscKandidaat(p)
    ensures r.0 != "Borstsparende operatie aanbevolen" ==> r.0 == "Mastectomie aanbevolen"
    ensures r.1 != TekstOverleg
  {
    Uitkomst(Besluit(p))
  }

  /** Each rule has its own explanation text: the outcome pair identifies the rule that fired. */
  lemma ToelichtingUniek(g: Regel, h: Regel)
    requires g != h
    ensures Toelichting(g) != Toelichting(h)
    ensures Uitkomst(g) != Uitkomst(h)
  {
  }

  /** Rule 1 dominates: a multicentric tumour means mastectomy, whatever the other fields. */
  lemma MulticentrischDomineert(p: PatientGegevens)
    requires p.multicentrisch
    ensures Beoordeel(p) == Uitkomst(Multicentrisch)
    ensures Beoordeel(p).0 == "Mastectomie aanbevolen"
  {
  }

  /** Rule 2: without radiotherapy (and a unicentric tumour) mastectomy is advised for any size or pregnancy. */
  lemma GeenBestralingGeeftMastectomie(p: PatientGegevens)
    requires !p.multicentrisch && !p.radiotherapieBeschikbaar
    ensures Beoordeel(p) == Uitkomst(BestralingNietMogelijk)
    ensures Beoordeel(p).0 == "Mastectomie aanbevolen"
  {
  }

  /** Rule 3: pregnancy overrides size once rules 1 and 2 have not fired. */
  lemma ZwangerschapGaatVoorGrootte(p: PatientGegevens)
    requires !p.multicentrisch && p.radiotherapieBeschikbaar && p.zwangerschap
    ensures Beoordeel(p) == Uitkomst(Zwanger)
    ensures Beoordeel(p).0 == "Mastectomie aanbevolen"
  {
  }

  /**
   * The radiotherapy conjunct of rule 3 is redundant: whenever the chain gets
   * past rules 1 and 2, radiotherapy is available, so rule 3 fires exactly on
   * pregnancy; and a unicentric, pregnant patient gets mastectomy either way,
   * with the pregnancy text exactly when radiotherapy is available.
   */
  lemma ZwangerschapConjunctOverbodig(p: PatientGegevens)
    ensures Besluit(p) !in {Multicentrisch, BestralingNietMogelijk} ==> p.radiotherapieBeschikbaar
    ensures Besluit(p) !in {Multicentrisch, BestralingNietMogelijk} ==> (Besluit(p) == Zwanger <==> p.zwangerschap)
    ensures !p.multicentrisch && p.zwangerschap ==> Beoordeel(p).0 == Label(Mastectomie)
    ensures !p.multicentrisch && p.zwangerschap ==> (Beoordeel(p) == Uitkomst(Zwanger) <==> p.radiotherapieBeschikbaar)
  {
  }

  /** Rules 4 and 5 split the sizes at 5.0 cm, 5.0 itself going to breast-conserving surgery. */
  lemma GrootteGrens(p: PatientGegevens)
    requires !p.multicentrisch && p.radiotherapieBeschikbaar && !p.zwangerschap
    ensures p.tumorGrootteCm <= 5.0 ==> Beoordeel(p) == Uitkomst(KleineTumor)
    ensures p.tumorGrootteCm > 5.0 ==> Beoordeel(p) == Uitkomst(GroteTumor)
    ensures Beoordeel(p.(tumorGrootteCm := 5.0)).0 == "Borstsparende operatie aanbevolen"
  {
  }

  /** The fallback pair is never returned, for any real size. */
  lemma OverlegOnbereikbaar(p: PatientGegevens)
    ensures Beoordeel(p) != Uitkomst(Overleg)
    ensures Beoordeel(p).0 != "Overleg met behandelteam aanbevolen"
  {
  }

  /** The prior-radiation answer is never consulted: changing it alone never changes the result. */
  lemma EerdereBestralingIrrelevant(p: PatientGegevens, b: bool)
    ensures Beoordeel(p.(eerdereBestralingBorst := b)) == Beoordeel(p)
  {
  }

  /** Breast-conserving advice at some size stays so for every smaller size. */
  lemma BorstsparendMonotoon(p: PatientGegevens, s: real)
    requires Beoordeel(p).0 == Label(Borstsparend)
    requires s <= p.tumorGrootteCm
    ensures Beoordeel(p.(tumorGrootteCm := s)) == Uitkomst(KleineTumor)
  {
  }
}
