/** A portfolio (Patrimoine) of holdings and its day-by-day evolution over
    an inclusive range of dates (EvolutionPatrimoine). Every day is valued
    afresh from the portfolio as given, never from the previous day. */
module Modele {
  import opened Calendrier
  import opened Sommes
  import opened Possessions

  /** The owner: an opaque label. */
  datatype Personne = Personne(nom: string)

  datatype Patrimoine = Patrimoine(nom: string, possesseur: Personne, t: LocalDate, possessions: set<Possession>)
  {
    /** The cash balances among the holdings: what a valuation reads. */
    ghost function Argents(): set<Argent> {
      set p | p in possessions && p.EnArgent? :: p.argent
    }

    /** The value of each holding at date d. */
    ghost function ValeursAu(d: LocalDate): (m: map<Possession, int>)
      reads Argents()
      ensures m.Keys == possessions
    {
      map p | p in possessions :: ValeurPossession(p, d)
    }

    /** The portfolio's total at date d: the sum of its holdings' values;
        with no holding it is 0. */
    ghost function ValeurComptableFuture(d: LocalDate): (r: int)
      reads Argents()
      ensures possessions == {} ==> r == 0
    {
      var m := ValeursAu(d);
      assert possessions == {} ==> m == map[];
      Somme(m)
    }

    /** The same portfolio without the flows it lists. */
    ghost function SansFlux(): Patrimoine {
      Patrimoine(nom, possesseur, t, set p | p in possessions && !p.EnFlux?)
    }
  }

  /** A flow listed in a portfolio adds nothing of its own to a day's total:
      the total is that of the portfolio without its flows. */
  lemma FluxSansValeurPropre(pat: Patrimoine, d: LocalDate)
    ensures pat.ValeurComptableFuture(d) == pat.SansFlux().ValeurComptableFuture(d)
  {
    var flux := set p | p in pat.possessions && p.EnFlux?;
    var m := pat.ValeursAu(d);
    SommeSansZeros(m, flux);
    assert m - flux == pat.SansFlux().ValeursAu(d);
  }

  /** A portfolio of a single holding is worth that holding. */
  lemma ValeurDUnePossession(pat: Patrimoine, p: Possession, d: LocalDate)
    requires pat.possessions == {p}
    ensures pat.ValeurComptableFuture(d) == ValeurPossession(p, d)
  {
    SommeAjout(map[], p, ValeurPossession(p, d));
    assert pat.ValeursAu(d) == map[p := ValeurPossession(p, d)];
  }

  /** A portfolio of two distinct holdings is worth the sum of their values. */
  lemma ValeurDeDeuxPossessions(pat: Patrimoine, p: Possession, q: Possession, d: LocalDate)
    requires pat.possessions == {p, q} && p != q
    ensures pat.ValeurComptableFuture(d) == ValeurPossession(p, d) + ValeurPossession(q, d)
  {
    var m := map[p := ValeurPossession(p, d)];
    SommeAjout(map[], p, ValeurPossession(p, d));
    SommeAjout(m, q, ValeurPossession(q, d));
    assert pat.ValeursAu(d) == m[q := ValeurPossession(q, d)];
  }

  /** An empty portfolio is worth nothing on any day. */
  lemma PatrimoineVide(pat: Patrimoine, d: LocalDate)
    requires pat.possessions == {}
    ensures pat.ValeurComptableFuture(d) == 0
  {
    assert pat.ValeursAu(d) == map[];
  }

  /** The number of days of the inclusive range [debut, fin]. */
  function NombreDeJours(debut: LocalDate, fin: LocalDate): (n: nat)
    ensures n == 0 <==> Before(fin, debut)
  {
    if Before(fin, debut) then 0 else DaysBetween(debut, fin) + 1
  }

  /** The tables of an evolution from debut once its first i days are done:
      the daily table with its series of totals, and the per-holding series. */
  ghost predicate EvolutionPartielle(pat: Patrimoine, debut: LocalDate, i: nat,
                                     evolutionJournaliere: map<LocalDate, int>, serie: seq<int>,
                                     parPossession: map<Possession, seq<int>>)
    reads pat.Argents()
  {
    && TablePartielle(pat, debut, i, evolutionJournaliere, serie)
    && SeriesPartielles(pat, debut, i, evolutionJournaliere, parPossession)
  }

  /** A total for each of the first i days from debut and for no other day,
      and the same totals as a series in date order (the day
      DaysBetween(debut, jour) after debut at that index). */
  ghost predicate TablePartielle(pat: Patrimoine, debut: LocalDate, i: nat,
                                 evolutionJournaliere: map<LocalDate, int>, serie: seq<int>)
    reads pat.Argents()
  {
    && (forall jour: LocalDate :: jour in evolutionJournaliere <==> NotAfter(debut, jour) && DaysBetween(debut, jour) < i)
    && (forall jour :: jour in evolutionJournaliere ==> evolutionJournaliere[jour] == pat.ValeurComptableFuture(jour))
    && |serie| == i
    && (forall jour :: jour in evolutionJournaliere ==>
          0 <= DaysBetween(debut, jour) < i && serie[DaysBetween(debut, jour)] == evolutionJournaliere[jour])
  }

  /** For each holding, the series of its values on the days of the table,
      in the same order. */
  ghost predicate SeriesPartielles(pat: Patrimoine, debut: LocalDate, i: nat,
                                   evolutionJournaliere: map<LocalDate, int>,
                                   parPossession: map<Possession, seq<int>>)
    reads pat.Argents()
  {
    && parPossession.Keys == pat.possessions
    && (forall p :: p in parPossession ==> |parPossession[p]| == i)
    && (forall p, jour :: p in parPossession && jour in evolutionJournaliere && 0 <= DaysBetween(debut, jour) < i ==>
          parPossession[p][DaysBetween(debut, jour)] == ValeurPossession(p, jour))
  }

  /** What an evolution over [debut, fin] holds: the tables of its
      NombreDeJours(debut, fin) days, which are exactly the days of the range. */
  ghost predicate EvolutionConforme(pat: Patrimoine, debut: LocalDate, fin: LocalDate,
                                    evolutionJournaliere: map<LocalDate, int>, serie: seq<int>,
                                    parPossession: map<Possession, seq<int>>)
    reads pat.Argents()
  {
    && (forall jour: LocalDate :: jour in evolutionJournaliere <==> NotAfter(debut, jour) && NotAfter(jour, fin))
    && EvolutionPartielle(pat, debut, NombreDeJours(debut, fin), evolutionJournaliere, serie, parPossession)
  }

  /** The values of the holdings on one day, and their total. */
  method ValeursDuJour(pat: Patrimoine, jour: LocalDate) returns (total: int, valeurs: map<Possession, int>)
    ensures valeurs == pat.ValeursAu(jour)
    ensures total == pat.ValeurComptableFuture(jour)
  {
    total, valeurs := 0, map[];
    var restant := pat.possessions;
    while restant != {}
      invariant restant <= pat.possessions
      invariant valeurs.Keys == pat.possessions - restant
      invariant forall p :: p in valeurs ==> valeurs[p] == ValeurPossession(p, jour)
      invariant total == Somme(valeurs)
      decreases restant
    {
      var p :| p in restant;
      var v := ValeurPossession(p, jour);
      SommeAjout(valeurs, p, v);
      total, valeurs := total + v, valeurs[p := v];
      restant := restant - {p};
    }
    assert valeurs == pat.ValeursAu(jour);
  }

  /** Recording the day i days after debut extends the tables of the first
      i days to those of the first i + 1. */
  lemma JourneeAjoutee(pat: Patrimoine, debut: LocalDate, i: nat, jour: LocalDate,
                       evolutionJournaliere: map<LocalDate, int>, serie: seq<int>,
                       parPossession: map<Possession, seq<int>>, total: int, valeurs: map<Possession, int>)
    requires EvolutionPartielle(pat, debut, i, evolutionJournaliere, serie, parPossession)
    requires EpochDay(jour) == EpochDay(debut) + i
    requires valeurs == pat.ValeursAu(jour) && total == pat.ValeurComptableFuture(jour)
    ensures EvolutionPartielle(pat, debut, i + 1, evolutionJournaliere[jour := total], serie + [total],
                               Prolonger(parPossession, valeurs))
  {
    JourAjouteALaTable(pat, debut, i, jour, evolutionJournaliere, serie, total);
    JourAjouteAuxSeries(pat, debut, i, jour, evolutionJournaliere, parPossession, total, valeurs);
  }

  /** The one day i days after debut. */
  lemma JourUnique(debut: LocalDate, i: nat, jour: LocalDate)
    requires EpochDay(jour) == EpochDay(debut) + i
    ensures DaysBetween(debut, jour) == i
    ensures forall autre: LocalDate :: DaysBetween(debut, autre) == i ==> autre == jour
  {
    forall autre: LocalDate | DaysBetween(debut, autre) == i ensures autre == jour {
      EpochDayInjective(autre, jour);
    }
  }

  lemma JourAjouteALaTable(pat: Patrimoine, debut: LocalDate, i: nat, jour: LocalDate,
                           evolutionJournaliere: map<LocalDate, int>, serie: seq<int>, total: int)
    requires TablePartielle(pat, debut, i, evolutionJournaliere, serie)
    requires EpochDay(jour) == EpochDay(debut) + i
    requires total == pat.ValeurComptableFuture(jour)
    ensures TablePartielle(pat, debut, i + 1, evolutionJournaliere[jour := total], serie + [total])
  {
    JourUnique(debut, i, jour);
  }

  lemma JourAjouteAuxSeries(pat: Patrimoine, debut: LocalDate, i: nat, jour: LocalDate,
                            evolutionJournaliere: map<LocalDate, int>,
                            parPossession: map<Possession, seq<int>>, total: int, valeurs: map<Possession, int>)
    requires SeriesPartielles(pat, debut, i, evolutionJournaliere, parPossession)
    requires EpochDay(jour) == EpochDay(debut) + i
    requires valeurs == pat.ValeursAu(jour)
    ensures SeriesPartielles(pat, debut, i + 1, evolutionJournaliere[jour := total], Prolonger(parPossession, valeurs))
  {
    JourUnique(debut, i, jour);
  }

  /** Once all NombreDeJours(debut, fin) days are recorded, the tables hold
      exactly the days of [debut, fin]. */
  lemma EvolutionAchevee(pat: Patrimoine, debut: LocalDate, fin: LocalDate,
                         evolutionJournaliere: map<LocalDate, int>, serie: seq<int>,
                         parPossession: map<Possession, seq<int>>)
    requires EvolutionPartielle(pat, debut, NombreDeJours(debut, fin), evolutionJournaliere, serie, parPossession)
    ensures EvolutionConforme(pat, debut, fin, evolutionJournaliere, serie, parPossession)
  {
    EpochDayOrder(fin, debut);
    forall jour: LocalDate
      ensures NotAfter(debut, jour) && DaysBetween(debut, jour) < NombreDeJours(debut, fin)
              <==> NotAfter(debut, jour) && NotAfter(jour, fin)
    {
      EpochDayOrder(jour, debut);
      EpochDayOrder(fin, jour);
    }
  }

  /** Appends one day's value to each holding's series. */
  function Prolonger(series: map<Possession, seq<int>>, valeurs: map<Possession, int>): (r: map<Possession, seq<int>>)
    requires series.Keys <= valeurs.Keys
    ensures r.Keys == series.Keys
    ensures forall p :: p in r ==> r[p] == series[p] + [valeurs[p]]
  {
    map p | p in series :: series[p] + [valeurs[p]]
  }

  /** Values the portfolio on each day of [debut, fin] (no day at all when fin
      is before debut), filling the daily table, the series of totals and the
      per-holding series. */
  method CalculerEvolution(pat: Patrimoine, debut: LocalDate, fin: LocalDate)
    returns (evolutionJournaliere: map<LocalDate, int>, serie: seq<int>, parPossession: map<Possession, seq<int>>)
    ensures EvolutionConforme(pat, debut, fin, evolutionJournaliere, serie, parPossession)
  {
    var n := NombreDeJours(debut, fin);
    evolutionJournaliere, serie := map[], [];
    parPossession := map p | p in pat.possessions :: [];
    // The balances exist before the loop, so the daily calls leave them as they are.
    assert forall a :: a in pat.Argents() ==> allocated(a);
    var i, jour := 0, debut;
    while i < n
      invariant 0 <= i <= n
      invariant EpochDay(jour) == EpochDay(debut) + i
      invariant EvolutionPartielle(pat, debut, i, evolutionJournaliere, serie, parPossession)
    {
      var total, valeurs := ValeursDuJour(pat, jour);
      JourneeAjoutee(pat, debut, i, jour, evolutionJournaliere, serie, parPossession, total, valeurs);
      evolutionJournaliere := evolutionJournaliere[jour := total];
      serie := serie + [total];
      parPossession := Prolonger(parPossession, valeurs);
      i, jour := i + 1, NextDay(jour);
    }
    EvolutionAchevee(pat, debut, fin, evolutionJournaliere, serie, parPossession);
  }

  /** Each day's total is the sum of that day's entries in the per-holding
      series. */
  lemma TotalSelonSeries(pat: Patrimoine, debut: LocalDate, fin: LocalDate,
                         evolutionJournaliere: map<LocalDate, int>, serie: seq<int>,
                         parPossession: map<Possession, seq<int>>, i: nat)
    requires EvolutionConforme(pat, debut, fin, evolutionJournaliere, serie, parPossession)
    requires i < |serie|
    ensures serie[i] == Somme(map p | p in parPossession :: parPossession[p][i])
  {
    var jour := PlusDays(debut, i);
    SerieSelonTable(pat, debut, fin, evolutionJournaliere, serie, parPossession, i);
    assert DaysBetween(debut, jour) == i;
    var m := map p | p in parPossession :: parPossession[p][i];
    forall p | p in m ensures m[p] == pat.ValeursAu(jour)[p] {
      assert parPossession[p][DaysBetween(debut, jour)] == ValeurPossession(p, jour);
    }
    assert m == pat.ValeursAu(jour);
  }

  /** The series of totals lists the daily table in date order. */
  lemma SerieSelonTable(pat: Patrimoine, debut: LocalDate, fin: LocalDate,
                        evolutionJournaliere: map<LocalDate, int>, serie: seq<int>,
                        parPossession: map<Possession, seq<int>>, i: nat)
    requires EvolutionConforme(pat, debut, fin, evolutionJournaliere, serie, parPossession)
    requires i < |serie|
    ensures PlusDays(debut, i) in evolutionJournaliere
    ensures serie[i] == evolutionJournaliere[PlusDays(debut, i)]
  {
    var jour := PlusDays(debut, i);
    assert DaysBetween(debut, jour) == i;
    EpochDayOrder(jour, debut);
    EpochDayOrder(fin, jour);
  }

  class EvolutionPatrimoine {
    const nom: string
    const patrimoine: Patrimoine
    const debut: LocalDate
    const fin: LocalDate
    /** The portfolio's total on each day of the range. */
    const evolutionJournaliere: map<LocalDate, int>
    /** The totals in date order. */
    const serieValeursComptablesPatrimoine: seq<int>
    /** Each holding's daily values in date order. */
    const serieValeursComptablesParPossession: map<Possession, seq<int>>

    /** Builds every table at once; a range ending before it starts is a
        caller error. */
    constructor (nom: string, patrimoine: Patrimoine, debut: LocalDate, fin: LocalDate)
      requires NotAfter(debut, fin)
      ensures this.nom == nom && this.patrimoine == patrimoine && this.debut == debut && this.fin == fin
      // Compared with true so that the evolution is checked as one fact.
      ensures EvolutionConforme(patrimoine, debut, fin, evolutionJournaliere,
                                serieValeursComptablesPatrimoine, serieValeursComptablesParPossession) == true
    {
      // The balances exist already, so building this evolution leaves them as they are.
      assert forall a :: a in patrimoine.Argents() ==> allocated(a);
      var journal, serie, parPossession := CalculerEvolution(patrimoine, debut, fin);
      this.nom, this.patrimoine, this.debut, this.fin := nom, patrimoine, debut, fin;
      evolutionJournaliere, serieValeursComptablesPatrimoine := journal, serie;
      serieValeursComptablesParPossession := parPossession;
    }
  }

  /** The operations, within [debut, fin], of the flows registered on the
      portfolio's balances: where the impossible flows of an evolution are
      looked for (the rule that picks them is not part of this model). */
  ghost function OperationsDansLaPeriode(pat: Patrimoine, debut: LocalDate, fin: LocalDate): set<(FluxArgent, LocalDate)>
    reads pat.Argents()
  {
    set p, f, o | p in pat.possessions && p.EnArgent? && f in p.argent.finances
                  && o in f.Operations(p.argent.t, fin) && NotAfter(debut, o) :: (f, o)
  }

  /** A portfolio whose balances carry no flow has no operation to flag, so
      its list of impossible flows is empty. */
  lemma SansFluxPasDOperation(pat: Patrimoine, debut: LocalDate, fin: LocalDate)
    requires forall p :: p in pat.possessions && p.EnArgent? ==> p.argent.finances == []
    ensures OperationsDansLaPeriode(pat, debut, fin) == {}
  {
  }
}
