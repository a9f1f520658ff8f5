/**
 * The decision engine read as a rule table: an ordered list of rules, each
 * with its own firing condition, evaluated first-match-wins. The chain in
 * Beslisregels.Besluit is proved to agree with this table on every patient.
 */
module Regeltabel {
  import opened Beslisregels

  /** The condition under which each rule fires, as the engine tests it. */
  predicate Vuurt(g: Regel, p: PatientGegevens)
  {
    match g
    case Multicentrisch => p.multicentrisch
    case BestralingNietMogelijk => !p.radiotherapieBeschikbaar
    case Zwanger => p.zwangerschap && p.radiotherapieBeschikbaar
    case KleineTumor => p.tumorGrootteCm <= GrensCm
    case GroteTumor => p.tumorGrootteCm > GrensCm
    case Overleg => true
  }

  /** The rules in the order in which the engine tries them. */
  const Volgorde: seq<Regel> := [Multicentrisch, BestralingNietMogelijk, Zwanger, KleineTumor, GroteTumor, Overleg]

  /**
   * The position of the first rule of rs that fires for p, or |rs| when none
   * does: every earlier rule stays silent.
   */
  function EersteTreffer(rs: seq<Regel>, p: PatientGegevens): (i: nat)
    ensures i <= |rs|
    ensures i < |rs| ==> Vuurt(rs[i], p)
    ensures forall j :: 0 <= j < i ==> !Vuurt(rs[j], p)
  {
    if rs == [] then 0
    else if Vuurt(rs[0], p) then 0
    else
      var k := EersteTreffer(rs[1..], p);
      assert forall j :: 1 <= j < 1 + k ==> rs[j] == rs[1..][j - 1];
      1 + k
  }

  /** First match wins: the rule a table picks for p (one that fires with no earlier rule firing), or None when no rule fires. */
  function Evalueer(rs: seq<Regel>, p: PatientGegevens): (r: Option<Regel>)
    ensures r.Some? ==> r.value in rs && Vuurt(r.value, p)
    ensures r.Some? ==> exists i :: 0 <= i < |rs| && rs[i] == r.value && forall j :: 0 <= j < i ==> !Vuurt(rs[j], p)
    ensures r.None? <==> forall g :: g in rs ==> !Vuurt(g, p)
  {
    var i := EersteTreffer(rs, p);
    if i < |rs| then Some(rs[i]) else None
  }

  /** The first match is characterised exactly by its position: no earlier rule fires, and rule i does. */
  lemma EersteTrefferPrecies(rs: seq<Regel>, p: PatientGegevens, i: nat)
    ensures EersteTreffer(rs, p) == i <==>
      i <= |rs| && (i < |rs| ==> Vuurt(rs[i], p)) && forall j :: 0 <= j < i ==> !Vuurt(rs[j], p)
  {
  }

  /** Either size rule fires for every real size, so some rule before the fallback always matches. */
  lemma GrootteRegelsUitputtend(p: PatientGegevens)
    ensures Vuurt(KleineTumor, p) != Vuurt(GroteTumor, p)
    ensures EersteTreffer(Volgorde, p) < |Volgorde| - 1
  {
    assert Vuurt(Volgorde[3], p) || Vuurt(Volgorde[4], p);
  }

  /** The engine's chain agrees with first-match evaluation of the rule table, for every patient. */
  lemma BesluitVolgtRegeltabel(p: PatientGegevens)
    ensures Evalueer(Volgorde, p) == Some(Besluit(p))
  {
    var g := Besluit(p);
    var i := if g == Multicentrisch then 0 else if g == BestralingNietMogelijk then 1
             else if g == Zwanger then 2 else if g == KleineTumor then 3 else 4;
    assert Volgorde[i] == g;
    EersteTrefferPrecies(Volgorde, p, i);
  }
}
