# CDSS: breast-conserving surgery or mastectomy, in Dafny

This project models the decision core of a small clinical decision support
tool for breast cancer surgery. The tool's form collects five patient
attributes: the tumour size in cm, whether the tumour sits in one area, prior
radiation of the breast, pregnancy, and whether radiotherapy is possible. The
core turns them into one of two advices, breast-conserving surgery or
mastectomy, each with an explanation text bound to the rule that decided it.

- `beslisregels.dfy` (module `Beslisregels`): the patient record
  `PatientGegevens`, the six rules (`Regel`) with their labels and their exact
  explanation texts, the ordered first-match-wins chain `Besluit`, and the
  decision function `Beoordeel` that returns the `(label, explanation)` pair.
  Around them are lemmas for each rule's dominance, the 5.0 cm boundary, the
  unreachable fallback, the unused prior-radiation field and monotonicity in
  the size.
- `regeltabel.dfy` (module `Regeltabel`): the same engine read as an ordered
  rule table with one firing condition per rule. `EersteTreffer` is the
  position of the first rule that fires. It is proved to be exactly that
  position, and the chain `Besluit` is proved to agree with the table for
  every patient.
- `formulier.dfy` (module `Formulier`): the live form handler's mapping from
  the four dropdown answers to the record. It refuses to advise while any
  answer is empty. It inverts the first question ("is the tumour in one
  area?") into the multicentric flag. Then it calls the engine.

Two behaviours of the program are worth knowing:

- The program's own error text calls a valid size "een positief getal"
  (CDSS.py:90), but the live handler never checks the sign of the parsed
  size (CDSS.py:168-177). Any parsed number reaches the engine, and a
  negative size gets breast-conserving advice when no earlier rule fires.
  The model takes any real size, as the handler does.
- The fallback "Overleg met behandelteam aanbevolen" (CDSS.py:46-48) cannot
  be reached for any real size, and the model proves this. A NaN from
  `float()` does reach it, because both size tests fail; NaN is outside this
  model (see below).

## Model

| member | source | states |
|---|---|---|
| Beslisregels.Besluit | CDSS.py:16-48 | the rule chain never ends in the fallback, and it picks the breast-conserving rule exactly when the tumour is unicentric, radiotherapy is available, the patient is not pregnant and the size is at most 5.0 |
| Beslisregels.Beoordeel | CDSS.py:16-48 | the returned label is "Borstsparende operatie aanbevolen" exactly for those patients, otherwise "Mastectomie aanbevolen"; the fallback explanation is never returned |
| Beslisregels.ToelichtingUniek | CDSS.py:18-48 | distinct rules have distinct explanation texts, so the returned pair identifies the rule that fired |
| Beslisregels.MulticentrischDomineert | CDSS.py:17-21 | a multicentric tumour gives mastectomy with the multicentric text, whatever size, pregnancy or radiotherapy |
| Beslisregels.GeenBestralingGeeftMastectomie | CDSS.py:23-26 | a unicentric tumour without radiotherapy gives mastectomy with the radiotherapy text, for any size and pregnancy |
| Beslisregels.ZwangerschapGaatVoorGrootte | CDSS.py:28-31 | unicentric, radiotherapy available and pregnant gives mastectomy with the pregnancy text, whatever the size |
| Beslisregels.ZwangerschapConjunctOverbodig | CDSS.py:23-31 | once the chain gets past rules 1 and 2, radiotherapy is available, so rule 3 fires exactly on pregnancy and its radiotherapy conjunct is redundant; a unicentric pregnant patient always gets mastectomy, with the pregnancy text exactly when radiotherapy is available |
| Beslisregels.GrootteGrens | CDSS.py:34-44 | with no earlier rule firing, a size of at most 5.0 (5.0 included) gives the breast-conserving pair and a larger size the large-tumour mastectomy pair |
| Beslisregels.OverlegOnbereikbaar | CDSS.py:34-48 | for every real size the "Overleg met behandelteam aanbevolen" fallback is never returned |
| Beslisregels.EerdereBestralingIrrelevant | CDSS.py:16-48 | changing only the prior-radiation field never changes the result |
| Beslisregels.BorstsparendMonotoon | CDSS.py:34-38 | a patient advised breast-conserving surgery at some size is advised it at every smaller size |
| Regeltabel.EersteTreffer | CDSS.py:16-48 | the position of the first rule in the list whose condition holds: no earlier rule fires, and the one at that position does |
| Regeltabel.Evalueer | CDSS.py:16-48 | first-match evaluation returns a rule of the table that fires at a position where no earlier rule fires, or nothing exactly when no rule fires |
| Regeltabel.EersteTrefferPrecies | CDSS.py:16-48 | the first-match position is characterised in both directions by "no earlier rule fires and this one does" |
| Regeltabel.GrootteRegelsUitputtend | CDSS.py:34-48 | exactly one of the two size rules fires for every real size, so the first match always comes before the fallback |
| Regeltabel.BesluitVolgtRegeltabel | CDSS.py:16-48 | the chain agrees with first-match evaluation of the ordered rule table for every patient |
| Formulier.LeesGegevens | CDSS.py:180-191 | no record when any answer is empty; otherwise the size is kept, multicentric holds exactly when the one-area answer is "Nee", and the other three flags hold exactly when their answer is "Ja" |
| Formulier.BerekenAanbeveling | CDSS.py:180-194 | an unanswered question gives the error message; otherwise the advice is breast-conserving exactly when the one-area answer is not "Nee", radiotherapy is "Ja", pregnancy is not "Ja" and the size is at most 5.0, and mastectomy otherwise; the label and explanation shown are the engine's pair for the record built from the answers |
| Formulier.EenGebiedOmgekeerd | CDSS.py:187 | answering "Nee" to "is the tumour in one area?" gives the multicentric mastectomy advice; answering "Ja" never gives the multicentric text |
| Formulier.EerdereBestralingAntwoordIrrelevant | CDSS.py:188 | once answered, the prior-radiation answer never changes the advice |

## Left out

- Parsing the size text with Python's `float()` (CDSS.py:168-177): the size is handed in already parsed, as an exact real. IEEE-754 behaviour is not modelled. That includes NaN, for which both size tests fail and the fallback would be returned.
- The empty-size and non-numeric-size error messages (CDSS.py:169-177): they belong to that parsing step.
- Writing the advice into the result label (CDSS.py:195): presentation only. `BerekenAanbeveling` returns the pair that is shown.
- The first definition of the handler (CDSS.py:86-102): it is replaced by the second before the button is bound, so it never runs.
- The tkinter interface: the tooltip class, window and style setup, `add_question`, `reset_gui`, the message boxes and the main loop. These are widget side effects with no decision logic.
