/**
 * The form handler's part that matters for the decision: it refuses to
 * advise while a yes/no question is unanswered, turns the "Ja"/"Nee" answers
 * into the patient record (the first question, "is the tumour in one area?",
 * inverted into the multicentric flag) and hands the record to the engine.
 * The tumour size arrives already parsed as an exact real.
 */
module Formulier {
  import opened Beslisregels

  /** The handler's answer: the engine's (label, explanation) pair, or the error message shown instead. */
  datatype Resultaat = Advies(aanbeveling: string, toelichting: string) | Fout(melding: string)

  /** The message shown when a yes/no question is left empty. */
  const MeldingOnbeantwoord: string := "Beantwoord alle vragen voordat u het advies berekent."

  /**
   * The record built from the four dropdown answers: none when any answer is
   * empty; otherwise multicentric exactly when the one-area question is
   * answered "Nee", and the other three flags exactly when answered "Ja".
   */
  function LeesGegevens(grootte: real, eenGebied: string, eerdereBestraling: string,
                        zwanger: string, radiotherapie: string): (r: Option<PatientGegevens>)
    ensures r.None? <==> eenGebied == "" || eerdereBestraling == "" || zwanger == "" || radiotherapie == ""
    ensures r.Some? ==> r.value.tumorGrootteCm == grootte
    ensures r.Some? ==> (r.value.multicentrisch <==> eenGebied == "Nee")
    ensures r.Some? ==> (r.value.eerdereBestralingBorst <==> eerdereBestraling == "Ja")
    ensures r.Some? ==> (r.value.zwangerschap <==> zwanger == "Ja")
    ensures r.Some? ==> (r.value.radiotherapieBeschikbaar <==> radiotherapie == "Ja")
  {
    if "" in [eenGebied, eerdereBestraling, zwanger, radiotherapie] then None
    else Some(PatientGegevens(
      tumorGrootteCm := grootte,
      multicentrisch := eenGebied == "Nee",
      eerdereBestralingBorst := eerdereBestraling == "Ja",
      zwangerschap := zwanger == "Ja",
      radiotherapieBeschikbaar := radiotherapie == "Ja"))
  }

  /**
   * The handler from the answers to what the user sees: the error message
   * when a question is unanswered; otherwise the engine's advice, which is
   * breast-conserving surgery exactly when the one-area question is not
   * answered "Nee", radiotherapy is answered "Ja", pregnancy is not answered
   * "Ja" and the size is at most 5.0 cm, and mastectomy in every other case;
   * the pair shown is the engine's pair for the record the answers build.
   */
  function BerekenAanbeveling(grootte: real, eenGebied: string, eerdereBestraling: string,
                              zwanger: string, radiotherapie: string): (r: Resultaat)
    ensures r.Fout? <==> eenGebied == "" || eerdereBestraling == "" || zwanger == "" || radiotherapie == ""
    ensures r.Fout? ==> r.melding == MeldingOnbeantwoord
    ensures r.Advies? ==>
      (r.aanbeveling == "Borstsparende operatie aanbevolen" <==>
       eenGebied != "Nee" && radiotherapie == "Ja" && zwanger != "Ja" && grootte <= 5.0)
    ensures r.Advies? && r.aanbeveling != "Borstsparende operatie aanbevolen" ==>
      r.aanbeveling == "Mastectomie aanbevolen"
    ensures r.Advies? ==>
      LeesGegevens(grootte, eenGebied, eerdereBestraling, zwanger, radiotherapie).Some? &&
      (r.aanbeveling, r.toelichting) == Beoordeel(LeesGegevens(grootte, eenGebied, eerdereBestraling, zwanger, radiotherapie).value)
  {
    match LeesGegevens(grootte, eenGebied, eerdereBestraling, zwanger, radiotherapie)
    case None => Fout(MeldingOnbeantwoord)
    case Some(p) =>
      var (aanbeveling, toelichting) := Beoordeel(p);
      Advies(aanbeveling, toelichting)
  }

  /**
   * The inverted first question, fixed as intended: answering "Nee" to "is
   * the tumour in one area?" gives the multicentric mastectomy advice whatever
   * the other answers, and answering "Ja" never does.
   */
  lemma EenGebiedOmgekeerd(grootte: real, eerdereBestraling: string, zwanger: string, radiotherapie: string)
    requires eerdereBestraling != "" && zwanger != "" && radiotherapie != ""
    ensures BerekenAanbeveling(grootte, "Nee", eerdereBestraling, zwanger, radiotherapie)
            == Advies("Mastectomie aanbevolen", TekstMulticentrisch)
    ensures BerekenAanbeveling(grootte, "Ja", eerdereBestraling, zwanger, radiotherapie).toelichting
            != TekstMulticentrisch
  {
  }

  /** The prior-radiation answer, once given, never changes the advice. */
  lemma EerdereBestralingAntwoordIrrelevant(grootte: real, eenGebied: string, b1: string, b2: string,
                                            zwanger: string, radiotherapie: string)
    requires b1 != "" && b2 != ""
    ensures BerekenAanbeveling(grootte, eenGebied, b1, zwanger, radiotherapie)
            == BerekenAanbeveling(grootte, eenGebied, b2, zwanger, radiotherapie)
  {
  }
}
