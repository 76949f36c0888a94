# patrimoine — a verified model of portfolio valuation

This project models the valuation rules of the `patrimoine` library, a
personal-wealth ("patrimoine") tracker written in Java:

- **Argent.** A cash balance is worth nothing before its opening date.
  From then on it is worth its stored value plus the effect of the monthly
  flows registered on it.
- **FluxArgent.** A monthly flow credits or debits its target balance by a
  fixed amount. This happens on one day of the month, within a window
  `[debut, fin]`. Building a flow registers it on its balance. Registering
  the same flow again changes nothing.
- **Materiel.** A physical good is worth nothing before its acquisition
  date. After that its value changes linearly with the days elapsed since
  its reference date `t`, at an annual rate, truncated to an integer.
- **Patrimoine.** A portfolio is a set of such holdings, and its total is
  the sum of their values. A flow listed in the portfolio adds nothing of
  its own: it acts only through its target balance.
- **EvolutionPatrimoine.** Values a portfolio on every day of an
  inclusive range. It fills three tables:
  - the daily totals;
  - the totals as a series in date order;
  - one series of daily values per holding.

The calendar is that of `java.time.LocalDate`, the proleptic Gregorian
calendar. `Calendrier.dfy` defines it: valid dates, day counts from the
epoch, `plusDays`, `minusDays`, `plusMonths`, `minusMonths` and the number
of days between two dates.

The Java classes are known here through their unit tests, so the model is
behaviour-level. Each test scenario is built as its test builds it, and the
value the test expects is proved:

- `ScenariosPossessions.dfy` holds the scenarios of the Argent, FluxArgent
  and Materiel tests.
- `ScenariosEvolution.dfy` holds the scenarios of the EvolutionPatrimoine
  tests.
- `DatesDesScenarios.dfy` proves each date shift that a scenario writes
  out as a literal date, for example 13 May 2024 minus 100 days is 3 Feb
  2024.

Layout:

| file | content |
|---|---|
| `Calendrier.dfy` | dates, epoch days, day and month shifts, the dates with a given day-of-month in a range |
| `Sommes.dfy` | the sum of the values of a finite map, with insertion and removal lemmas |
| `Possessions.dfy` | `Argent` (class: its registry of flows changes in place), `FluxArgent` (class: building one registers it), `Materiel` (value), valuation of a holding |
| `Modele.dfy` | `Patrimoine`, the day-by-day evaluation loop and the class `EvolutionPatrimoine` |
| `DatesDesScenarios.dfy` | the date shifts used by the scenarios |
| `ScenariosPossessions.dfy`, `ScenariosEvolution.dfy` | the test scenarios |

The rules the tests fix, as modelled:

- **Which operations count.** A flow with day-of-month `a` moves a balance
  with reference date `t`, valued at `d`, once for each date `o` with
  `o.day == a` and `max(t, debut) <= o <= min(d, fin)`.
  - An operation on `t` itself counts, and so does one on `d`.
  - Operations before `t` do not count.
  - A window whose start is after its end holds no operation.
- **Registration is set-like.** A balance's registry holds each flow once,
  so its value depends only on the set of flows registered
  (`ValeurSelonEnsembleDesFinances`).
- **A listed flow adds nothing.** A flow listed in a portfolio adds nothing
  of its own. Ilo's portfolio lists both the balance and its flow, and its
  total on 13 May is 600_000, the balance's value alone
  (EvolutionPatrimoineTest.java:32, 43-44; `FluxSansValeurPropre`).
- **Materiel uses simple interest.** Its value is
  `v + v * rate * days / 365`, not compounded. 974 days at -10% take
  2_000_000 to 1_466_301.

## Model

Paths are relative to the repository root.

| member | source | states |
|---|---|---|
| Calendrier.PlusDays | src/test/java/school/hei/patrimoine/modele/EvolutionPatrimoineTest.java:27-28 | `plusDays(n)` is the date whose epoch day is n more than the start's |
| Calendrier.NextDay | src/test/java/school/hei/patrimoine/modele/EvolutionPatrimoineTest.java:34-39 | the next day is one epoch day later (the evolution steps day by day) |
| Calendrier.MinusDays | src/test/java/school/hei/patrimoine/modele/possession/FluxArgentTest.java:40 | `minusDays(n)` is the date whose epoch day is n less |
| Calendrier.MinusDaysUndoesPlusDays | src/test/java/school/hei/patrimoine/modele/EvolutionPatrimoineTest.java:27-28 | going n days forward then n days back returns to the start date |
| Calendrier.PlusDaysOrder | src/test/java/school/hei/patrimoine/modele/EvolutionPatrimoineTest.java:27-28 | `plusDays(n)` is later than the start exactly when n > 0 |
| Calendrier.EpochDayOrder | src/test/java/school/hei/patrimoine/modele/possession/MaterielTest.java:14-19 | the epoch-day line orders dates exactly as the calendar does (both directions) |
| Calendrier.EpochDayInjective | src/test/java/school/hei/patrimoine/modele/possession/MaterielTest.java:14-19 | two dates with the same epoch day are the same date |
| Calendrier.DaysBetween | src/test/java/school/hei/patrimoine/modele/possession/MaterielTest.java:14-19 | the signed day count is negative exactly when the second date is earlier, and zero exactly when the dates are equal |
| Calendrier.PlusDaysBetween | src/test/java/school/hei/patrimoine/modele/possession/MaterielTest.java:14-19 | adding the days between two dates to the first gives the second |
| Calendrier.PlusMonths | src/test/java/school/hei/patrimoine/modele/possession/FluxArgentTest.java:99 | `plusMonths(n)` lands n months later, on the same day or, when that day does not exist, on the month's last day |
| Calendrier.MinusMonths | src/test/java/school/hei/patrimoine/modele/EvolutionPatrimoineTest.java:195 | `minusMonths(n)` lands n months earlier, never on a later day-of-month, and on an earlier one only when that is the last day of its month |
| Calendrier.PlusMonthsRoundTrip | src/test/java/school/hei/patrimoine/modele/EvolutionPatrimoineTest.java:195 | when the start's day-of-month is at most 28, n months forward and back returns the start |
| Calendrier.OccurrencesFrom | src/test/java/school/hei/patrimoine/modele/possession/FluxArgentTest.java:46-50 | counted month by month: exactly the dates of [lo, hi] with the given day from a month on, increasing |
| Calendrier.Occurrences | src/test/java/school/hei/patrimoine/modele/possession/FluxArgentTest.java:46-50 | exactly the dates of [lo, hi] with the given day-of-month, each once, in order; none when hi is before lo |
| Calendrier.OccurrencesOneDay | src/test/java/school/hei/patrimoine/modele/possession/ArgentTest.java:70-76 | a one-day range holds its day exactly when the day-of-month matches |
| Sommes.SommeAjout | src/test/java/school/hei/patrimoine/modele/EvolutionPatrimoineTest.java:41-52 | adding a new holding adds its value to the total |
| Sommes.SommeSansZeros | src/test/java/school/hei/patrimoine/modele/EvolutionPatrimoineTest.java:43-44 | dropping keys worth zero leaves the total unchanged |
| Possessions.Argent.constructor | src/test/java/school/hei/patrimoine/modele/possession/ArgentTest.java:12-20 | construction keeps name, opening date, reference date, value and currency, with no flow registered |
| Possessions.Argent.SansDevise | src/test/java/school/hei/patrimoine/modele/possession/ArgentTest.java:27 | the four-argument constructor leaves the currency unnamed |
| Possessions.Argent.OuvertA | src/test/java/school/hei/patrimoine/modele/possession/ArgentTest.java:59 | the three-argument constructor opens the balance at its reference date |
| Possessions.Argent.AddFinances | src/test/java/school/hei/patrimoine/modele/possession/ArgentTest.java:72 | registering adds the flow to the set of flows; a flow already registered leaves the registry as it was |
| Possessions.Argent.ValeurComptableFuture | src/test/java/school/hei/patrimoine/modele/possession/ArgentTest.java:24-30 | a balance is worth 0 before its opening date |
| Possessions.Argent.ProjectionFuture | src/test/java/school/hei/patrimoine/modele/possession/ArgentTest.java:29-30 | the projection keeps name, opening date and currency, is dated d, and its stored value is the balance's value at d |
| Possessions.SommeFluxEnsembliste | src/test/java/school/hei/patrimoine/modele/possession/ArgentTest.java:70-76 | summing the flows in registration order equals summing over the set of registered flows |
| Possessions.ValeurSelonEnsembleDesFinances | src/test/java/school/hei/patrimoine/modele/possession/ArgentTest.java:70-76 | two balances with the same data and the same set of flows are worth the same on every date |
| Possessions.SommeFluxSansOperation | src/test/java/school/hei/patrimoine/modele/possession/ArgentTest.java:56-62 | flows with no operation in the span add nothing |
| Possessions.ValeurSansOperation | src/test/java/school/hei/patrimoine/modele/possession/ArgentTest.java:56-62 | with no operation between t and d, a balance is worth its stored value on any date from its opening on |
| Possessions.ValeurAuJourDeReference | src/test/java/school/hei/patrimoine/modele/possession/FluxArgentTest.java:45 | at its reference date t a balance is worth its stored value when no registered flow's day-of-month is t's day |
| Possessions.ValeurAvecUnFlux | src/test/java/school/hei/patrimoine/modele/possession/ArgentTest.java:48-52 | with one flow, the value is the stored value plus the amount times the number of operations in [max(t, debut), min(d, fin)] |
| Possessions.FluxArgent.constructor | src/test/java/school/hei/patrimoine/modele/possession/ArgentTest.java:48-49 | building a flow keeps its fields and appends it to its balance's registry |
| Possessions.FluxArgent.Operations | src/test/java/school/hei/patrimoine/modele/possession/FluxArgentTest.java:46-50 | the operations are exactly the dates with the flow's day in both [t, d] and [debut, fin], in order |
| Possessions.FluxArgent.OperationsUnJour | src/test/java/school/hei/patrimoine/modele/possession/ArgentTest.java:70-76 | on the reference date the flow operates exactly when that day is its day and lies in its window |
| Possessions.FluxArgent.FenetreVide | src/test/java/school/hei/patrimoine/modele/possession/FluxArgentTest.java:27-42 | a window that starts after it ends, ended before t, or starts after d contributes 0 |
| Possessions.FluxArgent.ProjectionFuture | src/test/java/school/hei/patrimoine/modele/possession/FluxArgentTest.java:61-63 | a projected flow keeps its fields and targets the projected balance, which holds the value at d |
| Possessions.Tronque | src/test/java/school/hei/patrimoine/modele/possession/MaterielTest.java:19 | the Java `(int)` cast: the integer within one of x, toward zero, on both signs |
| Possessions.LineaireCroissant | src/test/java/school/hei/patrimoine/modele/possession/MaterielTest.java:47-53 | with non-negative value and rate, the linear value grows with the days elapsed |
| Possessions.TronqueCroissant | src/test/java/school/hei/patrimoine/modele/possession/MaterielTest.java:47-53 | truncation preserves order |
| Possessions.Materiel.ValeurComptableFuture | src/test/java/school/hei/patrimoine/modele/possession/MaterielTest.java:37-43 | 0 before acquisition; from then on the linear value truncated toward zero: within one unit of it, no more than it when it is non-negative and no less than it when it is negative |
| Possessions.Materiel.ProjectionFuture | src/test/java/school/hei/patrimoine/modele/possession/MaterielTest.java:62 | the projection is the same good dated d, holding the value at d |
| Possessions.Materiel.ProjectionIdempotente | src/test/java/school/hei/patrimoine/modele/possession/MaterielTest.java:62-68 | valuing a projection at its own date gives back the projected value |
| Possessions.Materiel.ValeurCroissante | src/test/java/school/hei/patrimoine/modele/possession/MaterielTest.java:47-53 | with non-negative value and rate the value never decreases from acquisition on |
| Possessions.MaterielSansDevise | src/test/java/school/hei/patrimoine/modele/possession/MaterielTest.java:23-33 | the five-argument constructor keeps every field and defaults the currency to NonNommee |
| Possessions.ValeurPossession | src/test/java/school/hei/patrimoine/modele/EvolutionPatrimoineTest.java:32 | a balance or a good counts at its value; a flow counts 0 |
| Modele.Patrimoine.ValeurComptableFuture | src/test/java/school/hei/patrimoine/modele/EvolutionPatrimoineTest.java:41-52 | a portfolio with no holding is worth 0 on any date; that the total is the sum of the holdings' values is stated day by day by `TotalSelonSeries` |
| Modele.Patrimoine.ValeursAu | src/test/java/school/hei/patrimoine/modele/EvolutionPatrimoineTest.java:41-52 | one value per holding of the portfolio, and no other key |
| Modele.FluxSansValeurPropre | src/test/java/school/hei/patrimoine/modele/EvolutionPatrimoineTest.java:43-44 | a portfolio's total equals that of the same portfolio without its flows |
| Modele.ValeurDUnePossession | src/test/java/school/hei/patrimoine/modele/EvolutionPatrimoineTest.java:187 | a one-holding portfolio is worth that holding |
| Modele.ValeurDeDeuxPossessions | src/test/java/school/hei/patrimoine/modele/EvolutionPatrimoineTest.java:196-207 | a portfolio of two distinct holdings is worth the sum of their values |
| Modele.PatrimoineVide | src/test/java/school/hei/patrimoine/modele/EvolutionPatrimoineTest.java:105-115 | an empty portfolio is worth 0 on every date |
| Modele.NombreDeJours | src/test/java/school/hei/patrimoine/modele/EvolutionPatrimoineTest.java:78-79 | a range has no day exactly when it ends before it starts |
| Modele.ValeursDuJour | src/test/java/school/hei/patrimoine/modele/EvolutionPatrimoineTest.java:41-52 | the loop over the holdings yields each holding's value and the portfolio's total |
| Modele.JourneeAjoutee | src/test/java/school/hei/patrimoine/modele/EvolutionPatrimoineTest.java:34-39 | recording the next day extends the three tables of i days to those of i + 1 days |
| Modele.JourAjouteALaTable | src/test/java/school/hei/patrimoine/modele/EvolutionPatrimoineTest.java:41-52 | recording the next day's total extends the daily table and its series by exactly that day, at index i |
| Modele.JourAjouteAuxSeries | src/test/java/school/hei/patrimoine/modele/EvolutionPatrimoineTest.java:34-39 | appending each holding's value on the next day extends every per-holding series by that day's value |
| Modele.EvolutionAchevee | src/test/java/school/hei/patrimoine/modele/EvolutionPatrimoineTest.java:34-39 | after all days of the range, the table holds exactly the days of [debut, fin] |
| Modele.Prolonger | src/test/java/school/hei/patrimoine/modele/EvolutionPatrimoineTest.java:133-138 | each holding's series gains that day's value at its end, and no holding is added |
| Modele.CalculerEvolution | src/test/java/school/hei/patrimoine/modele/EvolutionPatrimoineTest.java:34-52 | the day loop fills the daily table with each day's total, the series in date order and a series per holding |
| Modele.TotalSelonSeries | src/test/java/school/hei/patrimoine/modele/EvolutionPatrimoineTest.java:133-138 | each day's total is the sum of that day's entries in the per-holding series |
| Modele.SerieSelonTable | src/test/java/school/hei/patrimoine/modele/EvolutionPatrimoineTest.java:78-79 | the i-th entry of the series is the daily total of the day i days after the start |
| Modele.EvolutionPatrimoine.constructor | src/test/java/school/hei/patrimoine/modele/EvolutionPatrimoineTest.java:34-39 | building an evolution fills its tables as CalculerEvolution states |
| Modele.SansFluxPasDOperation | src/test/java/school/hei/patrimoine/modele/EvolutionPatrimoineTest.java:97-98 | with no flow registered on its balances, a portfolio has no operation in the range to flag as impossible |
| DatesDesScenarios.JoursApres | src/test/java/school/hei/patrimoine/modele/possession/FluxArgentTest.java:32 | a date whose epoch day is n more is `plusDays(n)`, and n days back from it is the start |
| DatesDesScenarios.CentJoursApresOuvertureDeITM | src/test/java/school/hei/patrimoine/modele/possession/FluxArgentTest.java:32 | 26 Oct 2021 plus 100 days is 3 Feb 2022 |
| DatesDesScenarios.CentJoursAvantDiplomation | src/test/java/school/hei/patrimoine/modele/possession/FluxArgentTest.java:40 | 26 Dec 2024 minus 100 days is 17 Sep 2024 |
| DatesDesScenarios.CentJoursApresDiplomation | src/test/java/school/hei/patrimoine/modele/possession/FluxArgentTest.java:50 | 26 Dec 2024 plus 100 days is 5 Apr 2025 |
| DatesDesScenarios.CentJoursAvant13Mai | src/test/java/school/hei/patrimoine/modele/EvolutionPatrimoineTest.java:27 | 13 May 2024 minus 100 days is 3 Feb 2024 |
| DatesDesScenarios.CentJoursApres13Mai | src/test/java/school/hei/patrimoine/modele/EvolutionPatrimoineTest.java:28 | 13 May 2024 plus 100 days is 21 Aug 2024 |
| DatesDesScenarios.DeuxCentsJoursAvant13Mai | src/test/java/school/hei/patrimoine/modele/EvolutionPatrimoineTest.java:149 | 13 May 2024 minus 200 days is 26 Oct 2023 |
| DatesDesScenarios.DeuxCentsJoursApres13Mai | src/test/java/school/hei/patrimoine/modele/EvolutionPatrimoineTest.java:150 | 13 May 2024 plus 200 days is 29 Nov 2024 |
| DatesDesScenarios.UnJourAvant13Mai | src/test/java/school/hei/patrimoine/modele/possession/ArgentTest.java:49 | 13 May 2024 minus 1 day is 12 May 2024 |
| DatesDesScenarios.TrenteJoursAvant13Mai | src/test/java/school/hei/patrimoine/modele/possession/FluxArgentTest.java:93 | 13 May 2024 minus 30 days is 13 Apr 2024 |
| DatesDesScenarios.TrenteJoursApres13Mai | src/test/java/school/hei/patrimoine/modele/possession/FluxArgentTest.java:94 | 13 May 2024 plus 30 days is 12 Jun 2024 |
| DatesDesScenarios.DixJoursAvant13Mai | src/test/java/school/hei/patrimoine/modele/possession/FluxArgentTest.java:74 | 13 May 2024 minus 10 days is 3 May 2024 |
| DatesDesScenarios.DixJoursApres13Mai | src/test/java/school/hei/patrimoine/modele/possession/FluxArgentTest.java:80 | 13 May 2024 plus 10 days is 23 May 2024 |
| DatesDesScenarios.UnMoisAvant13Mai | src/test/java/school/hei/patrimoine/modele/EvolutionPatrimoineTest.java:195 | 13 May 2024 minus one month is 13 Apr 2024 |
| DatesDesScenarios.UnMoisApres13Mai | src/test/java/school/hei/patrimoine/modele/possession/FluxArgentTest.java:99 | 13 May 2024 plus one month is 13 Jun 2024 |
| ScenariosPossessions.ArgentInitialisation | src/test/java/school/hei/patrimoine/modele/possession/ArgentTest.java:12-20 | a balance built with a later evaluation date reads back "Espèces", 13 May 2024, 600_000, unnamed currency |
| ScenariosPossessions.ArgentAvantOuverture | src/test/java/school/hei/patrimoine/modele/possession/ArgentTest.java:24-30 | projected the day before its opening, the balance is worth 0 |
| ScenariosPossessions.ArgentApresOuverture | src/test/java/school/hei/patrimoine/modele/possession/ArgentTest.java:34-40 | with no flow, projected two days after opening, it is worth 600_000 |
| ScenariosPossessions.ArgentAvecFlux | src/test/java/school/hei/patrimoine/modele/possession/ArgentTest.java:44-52 | a flow built on the balance, without `addFinancés`, takes 600_000 to 500_000 on 15 May (operation on d counts) |
| ScenariosPossessions.ArgentValeurFuture | src/test/java/school/hei/patrimoine/modele/possession/ArgentTest.java:56-62 | with no flow, the value on 15 May is the stored 1000 |
| ScenariosPossessions.ArgentFinanceEnregistreeDeuxFois | src/test/java/school/hei/patrimoine/modele/possession/ArgentTest.java:66-76 | a flow registered twice counts once and its operation on t counts: 1100 |
| ScenariosPossessions.ValeurAvecTroisFlux | src/test/java/school/hei/patrimoine/modele/possession/FluxArgentTest.java:13-42 | with three flows, the value is the stored value plus the three contributions |
| ScenariosPossessions.ValeurDuCompteDuTrainDeVie | src/test/java/school/hei/patrimoine/modele/possession/FluxArgentTest.java:27-42 | from 13 May 2024 on, the gifts' windows add nothing and only student life moves the account |
| ScenariosPossessions.CompteDuTrainDeVieAvantOuverture | src/test/java/school/hei/patrimoine/modele/possession/FluxArgentTest.java:44 | 100 days before its opening the account is worth 0, flows registered or not |
| ScenariosPossessions.CompteDuTrainDeVieAu13Mai | src/test/java/school/hei/patrimoine/modele/possession/FluxArgentTest.java:45 | on 13 May 2024 the account is worth 600_000: the operations before t are ignored |
| ScenariosPossessions.CompteDuTrainDeVieAu26Juin | src/test/java/school/hei/patrimoine/modele/possession/FluxArgentTest.java:46-47 | on 26 June 2024 one operation (1 June) leaves 100_000 |
| ScenariosPossessions.SeptPremiersDuMois | src/test/java/school/hei/patrimoine/modele/possession/FluxArgentTest.java:48 | there are seven 1sts of the month between 13 May and 26 Dec 2024 |
| ScenariosPossessions.CompteDuTrainDeVieApresDiplomation | src/test/java/school/hei/patrimoine/modele/possession/FluxArgentTest.java:48-50 | from graduation on (26 Dec 2024, and 100 days later) the account is worth -2_900_000 |
| ScenariosPossessions.TrainDeVieFinanceParCompteCourant | src/test/java/school/hei/patrimoine/modele/possession/FluxArgentTest.java:13-42 | building the account and its three flows leaves the three flows registered on it, with the scenario's data |
| ScenariosPossessions.FluxProjectionFuture | src/test/java/school/hei/patrimoine/modele/possession/FluxArgentTest.java:54-63 | the projected flow's target holds 1100 on 1 June: 1 May counts, 1 June is past the window |
| ScenariosPossessions.FluxFinAvantPeriode | src/test/java/school/hei/patrimoine/modele/possession/FluxArgentTest.java:67-83 | a window ended the day before t leaves the projected target at 600_000, name kept |
| ScenariosPossessions.FluxDernierJourDuMois | src/test/java/school/hei/patrimoine/modele/possession/FluxArgentTest.java:87-101 | day 31 operates on 31 May, so a month after 13 May the target is 550_000, below 600_000 |
| ScenariosPossessions.MacSApprecieNegativement | src/test/java/school/hei/patrimoine/modele/possession/MaterielTest.java:14-19 | 2_000_000 at -10% a year over 974 days is 1_466_301 |
| ScenariosPossessions.MaterielAvantAcquisition | src/test/java/school/hei/patrimoine/modele/possession/MaterielTest.java:37-43 | projected the day before acquisition the good is worth 0 |
| ScenariosPossessions.MaterielApresAcquisition | src/test/java/school/hei/patrimoine/modele/possession/MaterielTest.java:47-53 | one year (366 days) at 5% takes 1_000_000 to 1_050_136, above 1_000_000 |
| ScenariosPossessions.MaterielProjectionUnAn | src/test/java/school/hei/patrimoine/modele/possession/MaterielTest.java:57-68 | 365 days at 5% take 1000 to 1050 |
| ScenariosPossessions.MaterielProjectionAvantAcquisition | src/test/java/school/hei/patrimoine/modele/possession/MaterielTest.java:72-83 | before an acquisition later than t the good is worth 0 |
| ScenariosEvolution.TotalDIlo | src/test/java/school/hei/patrimoine/modele/EvolutionPatrimoineTest.java:21-32 | up to 17 May, Ilo's total is 0 before 13 May, then 600_000 less 100_000 per 15th since 13 May |
| ScenariosEvolution.JourDIlo | src/test/java/school/hei/patrimoine/modele/EvolutionPatrimoineTest.java:41-52 | every day of 12–17 May is in the table and holds that day's total |
| ScenariosEvolution.JournalDIlo | src/test/java/school/hei/patrimoine/modele/EvolutionPatrimoineTest.java:41-52 | the table holds 0, 600_000, 600_000, 500_000, 500_000, 500_000 for 12–17 May |
| ScenariosEvolution.SerieDIloAu | src/test/java/school/hei/patrimoine/modele/EvolutionPatrimoineTest.java:78-79 | the series has six entries, and entry i is the total of 12 May plus i days |
| ScenariosEvolution.SerieDIlo | src/test/java/school/hei/patrimoine/modele/EvolutionPatrimoineTest.java:78-79 | the series is [0, 600_000, 600_000, 500_000, 500_000, 500_000] |
| ScenariosEvolution.EvolutionAvecTrainDeVie | src/test/java/school/hei/patrimoine/modele/EvolutionPatrimoineTest.java:20-39 | building Ilo's portfolio and its evolution over 12–17 May yields the tables of that portfolio |
| ScenariosEvolution.PatrimoineEvolue | src/test/java/school/hei/patrimoine/modele/EvolutionPatrimoineTest.java:19-53 | with the flow window at ±100 days, the daily totals are 0, 600_000, 600_000, 500_000, 500_000, 500_000 |
| ScenariosEvolution.SerieValeursComptablesPatrimoine | src/test/java/school/hei/patrimoine/modele/EvolutionPatrimoineTest.java:56-80 | the series of totals is [0, 600_000, 600_000, 500_000, 500_000, 500_000] |
| ScenariosEvolution.FluxArgentDepassePeriode | src/test/java/school/hei/patrimoine/modele/EvolutionPatrimoineTest.java:142-170 | widening the window to ±200 days gives the same totals |
| ScenariosEvolution.FluxImpossiblesVide | src/test/java/school/hei/patrimoine/modele/EvolutionPatrimoineTest.java:83-99 | cash alone with no flow: no operation in the range to flag |
| ScenariosEvolution.SerieParPossessionPatrimoineVide | src/test/java/school/hei/patrimoine/modele/EvolutionPatrimoineTest.java:102-116 | an empty portfolio has an empty per-holding map |
| ScenariosEvolution.SerieParPossessionSansEvolution | src/test/java/school/hei/patrimoine/modele/EvolutionPatrimoineTest.java:119-139 | over the one day 13 May, the map holds the cash with series [600_000] |
| ScenariosEvolution.PossessionsInchangeantes | src/test/java/school/hei/patrimoine/modele/EvolutionPatrimoineTest.java:173-188 | over the one day 13 May, the total is 600_000 |
| ScenariosEvolution.MaterielDIlo | src/test/java/school/hei/patrimoine/modele/EvolutionPatrimoineTest.java:195 | the good worth 1000 on 13 May is still worth 1000 on 17 May (four days at 5%) |
| ScenariosEvolution.EvolutionAvecMateriel | src/test/java/school/hei/patrimoine/modele/EvolutionPatrimoineTest.java:192-203 | building the cash, the good and their evolution over 13–17 May yields that portfolio's tables |
| ScenariosEvolution.JournalAvecMateriel | src/test/java/school/hei/patrimoine/modele/EvolutionPatrimoineTest.java:205-207 | on 13 and 17 May the total is 601_000 |
| ScenariosEvolution.PossessionsEvolutives | src/test/java/school/hei/patrimoine/modele/EvolutionPatrimoineTest.java:191-208 | the totals on 13 and 17 May are 601_000, above 600_000 |
| ScenariosEvolution.PossessionDateAcquisitionFuture | src/test/java/school/hei/patrimoine/modele/EvolutionPatrimoineTest.java:211-229 | cash opened on 20 May and a good acquired on 30 May give 0 on 13 and 17 May |

## Left out

- Possessions.Argent.ValeurComptableFuture: its own contract states only the case before the opening date. The value from the opening date on is stated by `ValeurAvecUnFlux`, `ValeurSansOperation`, `ValeurAuJourDeReference` and `ValeurSelonEnsembleDesFinances`.
- Possessions.Materiel.ValeurComptableFuture: the rate is a Dafny `real` (an exact rational), not an IEEE 754 double. The value is the exact linear value truncated toward zero, which can differ from Java's double arithmetic in the last unit.
- The rule that decides which flows of an evolution are impossible. The tests show only the empty case. The model defines the operations in the range among which such flows are looked for (`OperationsDansLaPeriode`) and proves that a portfolio without flows has none.
- Clamping a flow's day-of-month to the last day of a short month (day 31 in June, say). No test reaches it, so a day that a month lacks simply has no operation in that month.
- Valuing a balance at a date between its opening date and its reference date `t`. No test covers it. The model applies the same rule, which gives the stored value.
- Possessions.ArgentProjete: a projection carries no flows. Valuing it at a date other than the one it was projected to ignores the flows of the balance it came from. Its value is stated only for the projected date, through `Argent.ProjectionFuture`.
- Java `int` widths. Amounts, a monthly flow times its count of operations, and the saturating `(int)` cast of a good's value are unbounded Dafny `int` here, so no overflow is modelled. No test comes near the 32-bit range.
- Modele.EvolutionPatrimoine.constructor: a range that ends before it starts is a precondition here. `CalculerEvolution` itself handles it and yields empty tables.
- Identity, hashing and `equals` of Java sets and maps. Holdings are Dafny datatype values; balances and flows are compared by reference, as Java objects with no `equals` of their own would be.
- `Personne` and `Devise` are opaque labels. Names are plain strings, and the currency is never converted.
- The scenarios write the shifted dates as literal dates, such as `Date(2024, 2, 3)` for 13 May 2024 minus 100 days. Each shift is proved in `DatesDesScenarios`, and a comment at the use names the lemma.
- The Java classes of the library themselves (`Argent`, `FluxArgent`, `Materiel`, `Patrimoine`, `EvolutionPatrimoine`) are not part of this model. Their behaviour is taken from the tests listed above.
- Reports, file loading and any other input or output.
