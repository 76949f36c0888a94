/** The scenarios of a portfolio's evolution over a few days of May 2024,
    each built as its test builds it, with the tables the test reads proved
    to hold the values it expects. */
module ScenariosEvolution {
  import opened Calendrier
  import opened Possessions
  import opened Modele
  import opened DatesDesScenarios

  /** Ilo's cash: 600_000 from 13 May 2024, and a living cost of -100_000 on
      the 15th whose window covers 13 to 17 May. The portfolio lists both. */
  ghost predicate IloEtSonTrainDeVie(pat: Patrimoine, financeur: Argent, trainDeVie: FluxArgent)
    reads financeur
  {
    && pat.possessions == {EnArgent(financeur), EnFlux(trainDeVie)}
    && financeur.finances == [trainDeVie]
    && financeur.t == Date(2024, 5, 13) && financeur.dateOuverture == Date(2024, 5, 13)
    && financeur.valeurComptable == 600_000
    && trainDeVie.fluxMensuel == -100_000 && trainDeVie.dateOperation == 15
    && NotAfter(trainDeVie.debut, Date(2024, 5, 13)) && NotAfter(Date(2024, 5, 17), trainDeVie.fin)
  }

  /** Up to 17 May the total is the cash, less 100_000 per 15th since 13 May. */
  lemma TotalDIlo(pat: Patrimoine, financeur: Argent, trainDeVie: FluxArgent, d: LocalDate)
    requires IloEtSonTrainDeVie(pat, financeur, trainDeVie)
    requires NotAfter(d, Date(2024, 5, 17))
    ensures pat.ValeurComptableFuture(d) ==
      if Before(d, Date(2024, 5, 13)) then 0 else 600_000 - 100_000 * |Occurrences(15, Date(2024, 5, 13), d)|
  {
    ValeurDeDeuxPossessions(pat, EnArgent(financeur), EnFlux(trainDeVie), d);
    ValeurAvecUnFlux(financeur, trainDeVie, d);
    assert Later(financeur.t, trainDeVie.debut) == Date(2024, 5, 13);
    assert Earlier(d, trainDeVie.fin) == d;
  }

  /** The evolution from 12 to 17 May of Ilo's portfolio: the tables it holds. */
  ghost predicate EvolutionDIlo(e: EvolutionPatrimoine, financeur: Argent, trainDeVie: FluxArgent)
    reads financeur
  {
    && IloEtSonTrainDeVie(e.patrimoine, financeur, trainDeVie)
    && e.debut == Date(2024, 5, 12) && e.fin == Date(2024, 5, 17)
    && EvolutionConforme(e.patrimoine, e.debut, e.fin, e.evolutionJournaliere,
                         e.serieValeursComptablesPatrimoine, e.serieValeursComptablesParPossession)
  }

  /** Each day of the evolution from 13 May on holds the total of that day. */
  lemma JourDIlo(e: EvolutionPatrimoine, financeur: Argent, trainDeVie: FluxArgent, d: LocalDate)
    requires EvolutionDIlo(e, financeur, trainDeVie)
    requires NotAfter(Date(2024, 5, 12), d) && NotAfter(d, Date(2024, 5, 17))
    ensures d in e.evolutionJournaliere
    ensures e.evolutionJournaliere[d] ==
      if Before(d, Date(2024, 5, 13)) then 0 else 600_000 - 100_000 * |Occurrences(15, Date(2024, 5, 13), d)|
  {
    TotalDIlo(e.patrimoine, financeur, trainDeVie, d);
  }

  /** Nothing on 12 May, before the opening; 600_000 on 13 and 14 May; then
      500_000 once the 15th has passed. */
  lemma JournalDIlo(e: EvolutionPatrimoine, financeur: Argent, trainDeVie: FluxArgent)
    requires EvolutionDIlo(e, financeur, trainDeVie)
    ensures Date(2024, 5, 12) in e.evolutionJournaliere && Date(2024, 5, 13) in e.evolutionJournaliere
    ensures Date(2024, 5, 14) in e.evolutionJournaliere && Date(2024, 5, 15) in e.evolutionJournaliere
    ensures Date(2024, 5, 16) in e.evolutionJournaliere && Date(2024, 5, 17) in e.evolutionJournaliere
    ensures e.evolutionJournaliere[Date(2024, 5, 12)] == 0
    ensures e.evolutionJournaliere[Date(2024, 5, 13)] == 600_000
    ensures e.evolutionJournaliere[Date(2024, 5, 14)] == 600_000
    ensures e.evolutionJournaliere[Date(2024, 5, 15)] == 500_000
    ensures e.evolutionJournaliere[Date(2024, 5, 16)] == 500_000
    ensures e.evolutionJournaliere[Date(2024, 5, 17)] == 500_000
  {
    JourDIlo(e, financeur, trainDeVie, Date(2024, 5, 12));
    JourDIlo(e, financeur, trainDeVie, Date(2024, 5, 13));
    JourDIlo(e, financeur, trainDeVie, Date(2024, 5, 14));
    JourDIlo(e, financeur, trainDeVie, Date(2024, 5, 15));
    JourDIlo(e, financeur, trainDeVie, Date(2024, 5, 16));
    JourDIlo(e, financeur, trainDeVie, Date(2024, 5, 17));
    assert Occurrences(15, Date(2024, 5, 13), Date(2024, 5, 13)) == [];
    assert Occurrences(15, Date(2024, 5, 13), Date(2024, 5, 14)) == [];
    assert Occurrences(15, Date(2024, 5, 13), Date(2024, 5, 15)) == [Date(2024, 5, 15)];
    assert Occurrences(15, Date(2024, 5, 13), Date(2024, 5, 16)) == [Date(2024, 5, 15)];
    assert Occurrences(15, Date(2024, 5, 13), Date(2024, 5, 17)) == [Date(2024, 5, 15)];
  }

  /** The series holds at index i the total of the day i days after 12 May. */
  lemma SerieDIloAu(e: EvolutionPatrimoine, financeur: Argent, trainDeVie: FluxArgent, d: LocalDate, i: nat)
    requires EvolutionDIlo(e, financeur, trainDeVie)
    requires d in e.evolutionJournaliere && EpochDay(d) == EpochDay(Date(2024, 5, 12)) + i
    ensures |e.serieValeursComptablesPatrimoine| == 6
    ensures i < 6 && e.serieValeursComptablesPatrimoine[i] == e.evolutionJournaliere[d]
  {
    assert DaysBetween(Date(2024, 5, 12), Date(2024, 5, 17)) == 5;
    assert DaysBetween(e.debut, d) == i;
  }

  /** The totals in date order. */
  lemma SerieDIlo(e: EvolutionPatrimoine, financeur: Argent, trainDeVie: FluxArgent)
    requires EvolutionDIlo(e, financeur, trainDeVie)
    ensures e.serieValeursComptablesPatrimoine == [0, 600_000, 600_000, 500_000, 500_000, 500_000]
  {
    JournalDIlo(e, financeur, trainDeVie);
    SerieDIloAu(e, financeur, trainDeVie, Date(2024, 5, 12), 0);
    SerieDIloAu(e, financeur, trainDeVie, Date(2024, 5, 13), 1);
    SerieDIloAu(e, financeur, trainDeVie, Date(2024, 5, 14), 2);
    SerieDIloAu(e, financeur, trainDeVie, Date(2024, 5, 15), 3);
    SerieDIloAu(e, financeur, trainDeVie, Date(2024, 5, 16), 4);
    SerieDIloAu(e, financeur, trainDeVie, Date(2024, 5, 17), 5);
    var serie := e.serieValeursComptablesPatrimoine;
    assert serie[0] == 0 && serie[1] == 600_000 && serie[2] == 600_000;
    assert serie[3] == 500_000 && serie[4] == 500_000 && serie[5] == 500_000;
    SixTermes(serie, 0, 600_000, 600_000, 500_000, 500_000, 500_000);
  }

  /** Two series of six terms agreeing term by term are the same. */
  lemma SixTermes(s: seq<int>, a: int, b: int, c: int, d: int, e: int, f: int)
    requires |s| == 6
    requires s[0] == a && s[1] == b && s[2] == c && s[3] == d && s[4] == e && s[5] == f
    ensures s == [a, b, c, d, e, f]
  {
  }

  /** Ilo's portfolio with a living cost named nomDuFlux whose window runs
      from debutDuFlux to finDuFlux, followed from 12 to 17 May. */
  method EvolutionAvecTrainDeVie(nomDuFlux: string, debutDuFlux: LocalDate, finDuFlux: LocalDate)
    returns (e: EvolutionPatrimoine, financeur: Argent, trainDeVie: FluxArgent)
    requires NotAfter(debutDuFlux, Date(2024, 5, 13)) && NotAfter(Date(2024, 5, 17), finDuFlux)
    ensures EvolutionDIlo(e, financeur, trainDeVie)
  {
    var ilo := Personne("Ilo");
    var au13mai24 := Date(2024, 5, 13);
    financeur := new Argent.OuvertA("Espèces", au13mai24, 600_000);
    trainDeVie := new FluxArgent(nomDuFlux, financeur, debutDuFlux, finDuFlux, -100_000, 15);
    var patrimoineIloAu13mai24 :=
      Patrimoine("patrimoineIloAu13mai24", ilo, au13mai24, {EnArgent(financeur), EnFlux(trainDeVie)});
    e := new EvolutionPatrimoine("Nom", patrimoineIloAu13mai24, Date(2024, 5, 12), Date(2024, 5, 17));
  }

  /** The daily totals of Ilo's portfolio with a living cost from 100 days
      before to 100 days after 13 May (CentJoursAvant13Mai, CentJoursApres13Mai). */
  method PatrimoineEvolue() returns (totaux: seq<int>)
    ensures totaux == [0, 600_000, 600_000, 500_000, 500_000, 500_000]
  {
    var e, financeur, trainDeVie := EvolutionAvecTrainDeVie("Vie courante", Date(2024, 2, 3), Date(2024, 8, 21));
    JournalDIlo(e, financeur, trainDeVie);
    var journal := e.evolutionJournaliere;
    totaux := [journal[Date(2024, 5, 12)], journal[Date(2024, 5, 13)], journal[Date(2024, 5, 14)],
               journal[Date(2024, 5, 15)], journal[Date(2024, 5, 16)], journal[Date(2024, 5, 17)]];
  }

  /** The same portfolio read as the series of totals. */
  method SerieValeursComptablesPatrimoine() returns (serie: seq<int>)
    ensures serie == [0, 600_000, 600_000, 500_000, 500_000, 500_000]
  {
    var e, financeur, trainDeVie := EvolutionAvecTrainDeVie("Vie courante", Date(2024, 2, 3), Date(2024, 8, 21));
    SerieDIlo(e, financeur, trainDeVie);
    serie := e.serieValeursComptablesPatrimoine;
  }

  /** A flow whose window reaches 200 days either side of 13 May gives the same
      totals (DeuxCentsJoursAvant13Mai, DeuxCentsJoursApres13Mai). */
  method FluxArgentDepassePeriode() returns (totaux: seq<int>)
    ensures totaux == [0, 600_000, 600_000, 500_000, 500_000, 500_000]
  {
    var e, financeur, trainDeVie := EvolutionAvecTrainDeVie("Flux Dépassé", Date(2023, 10, 26), Date(2024, 11, 29));
    JournalDIlo(e, financeur, trainDeVie);
    var journal := e.evolutionJournaliere;
    totaux := [journal[Date(2024, 5, 12)], journal[Date(2024, 5, 13)], journal[Date(2024, 5, 14)],
               journal[Date(2024, 5, 15)], journal[Date(2024, 5, 16)], journal[Date(2024, 5, 17)]];
  }

  /** A portfolio of cash alone, with no flow registered on it, has no
      operation in the range to flag: its list of impossible flows is empty. */
  method FluxImpossiblesVide() returns (e: EvolutionPatrimoine)
    ensures OperationsDansLaPeriode(e.patrimoine, e.debut, e.fin) == {}
  {
    var au13mai24 := Date(2024, 5, 13);
    var financeur := new Argent.OuvertA("Espèces", au13mai24, 600_000);
    var patrimoineIloAu13mai24 := Patrimoine("patrimoineIloAu13mai24", Personne("Ilo"), au13mai24, {EnArgent(financeur)});
    e := new EvolutionPatrimoine("Nom", patrimoineIloAu13mai24, Date(2024, 5, 12), Date(2024, 5, 17));
    SansFluxPasDOperation(e.patrimoine, e.debut, e.fin);
  }

  /** An empty portfolio has no per-holding series. */
  method SerieParPossessionPatrimoineVide() returns (serieValeurs: map<Possession, seq<int>>)
    ensures serieValeurs == map[]
  {
    var patrimoineVide := Patrimoine("patrimoineVide", Personne("Ilo"), Date(2024, 5, 13), {});
    var e := new EvolutionPatrimoine("Nom", patrimoineVide, Date(2024, 5, 1), Date(2024, 5, 20));
    serieValeurs := e.serieValeursComptablesParPossession;
  }

  /** Over the single day 13 May, the cash's series is its one value. */
  method SerieParPossessionSansEvolution() returns (contientFinanceur: bool, serieFinanceur: seq<int>)
    ensures contientFinanceur && serieFinanceur == [600_000]
  {
    var au13mai24 := Date(2024, 5, 13);
    var financeur := new Argent.OuvertA("Espèces", au13mai24, 600_000);
    var patrimoineIloAu13mai24 := Patrimoine("patrimoineIloAu13mai24", Personne("Ilo"), au13mai24, {EnArgent(financeur)});
    var e := new EvolutionPatrimoine("Nom", patrimoineIloAu13mai24, au13mai24, au13mai24);
    var series := e.serieValeursComptablesParPossession;
    contientFinanceur := EnArgent(financeur) in series;
    assert DaysBetween(au13mai24, au13mai24) == 0;
    assert au13mai24 in e.evolutionJournaliere;
    serieFinanceur := series[EnArgent(financeur)];
  }

  /** Over the single day 13 May, the total is the cash. */
  method PossessionsInchangeantes() returns (valeur: int)
    ensures valeur == 600_000
  {
    var au13mai24 := Date(2024, 5, 13);
    var financeur := new Argent.OuvertA("Espèces", au13mai24, 600_000);
    var patrimoineIloAu13mai24 := Patrimoine("patrimoineIloAu13mai24", Personne("Ilo"), au13mai24, {EnArgent(financeur)});
    var e := new EvolutionPatrimoine("Nom", patrimoineIloAu13mai24, au13mai24, au13mai24);
    assert au13mai24 in e.evolutionJournaliere;
    ValeurDUnePossession(patrimoineIloAu13mai24, EnArgent(financeur), au13mai24);
    valeur := e.evolutionJournaliere[au13mai24];
  }

  /** The good of the next scenario, worth 1000 on 13 May 2024: 5% a year
      over four days adds less than one unit by 17 May. */
  lemma MaterielDIlo()
    ensures MaterielSansDevise("Matériel", Date(2024, 5, 13), 1_000, Date(2024, 4, 13), 0.05)
              .ValeurComptableFuture(Date(2024, 5, 13)) == 1_000
    ensures MaterielSansDevise("Matériel", Date(2024, 5, 13), 1_000, Date(2024, 4, 13), 0.05)
              .ValeurComptableFuture(Date(2024, 5, 17)) == 1_000
  {
    assert DaysBetween(Date(2024, 5, 13), Date(2024, 5, 13)) == 0;
    assert DaysBetween(Date(2024, 5, 13), Date(2024, 5, 17)) == 4;
  }

  /** Ilo's cash of 600_000 from 13 May 2024, with no flow, and the good of
      MaterielDIlo, followed from 13 to 17 May. */
  ghost predicate IloEtSonMateriel(e: EvolutionPatrimoine, financeur: Argent, materiel: Materiel)
    reads financeur
  {
    && e.patrimoine.possessions == {EnArgent(financeur), EnMateriel(materiel)}
    && financeur.finances == [] && financeur.dateOuverture == Date(2024, 5, 13)
    && financeur.valeurComptable == 600_000
    && materiel == MaterielSansDevise("Matériel", Date(2024, 5, 13), 1_000, Date(2024, 4, 13), 0.05)
    && e.debut == Date(2024, 5, 13) && e.fin == Date(2024, 5, 17)
    && EvolutionConforme(e.patrimoine, e.debut, e.fin, e.evolutionJournaliere,
                         e.serieValeursComptablesPatrimoine, e.serieValeursComptablesParPossession)
  }

  /** Cash and a good acquired a month before 13 May (UnMoisAvant13Mai),
      followed from 13 to 17 May. */
  method EvolutionAvecMateriel() returns (e: EvolutionPatrimoine, financeur: Argent, materiel: Materiel)
    ensures IloEtSonMateriel(e, financeur, materiel)
  {
    var au13mai24 := Date(2024, 5, 13);
    financeur := new Argent.OuvertA("Espèces", au13mai24, 600_000);
    materiel := MaterielSansDevise("Matériel", au13mai24, 1_000, Date(2024, 4, 13), 0.05);
    var pat := Patrimoine("patrimoineIloAu13mai24", Personne("Ilo"), au13mai24, {EnArgent(financeur), EnMateriel(materiel)});
    e := new EvolutionPatrimoine("Nom", pat, au13mai24, Date(2024, 5, 17));
  }

  /** The good adds its 1000 to the cash on 13 May and still on 17 May. */
  lemma JournalAvecMateriel(e: EvolutionPatrimoine, financeur: Argent, materiel: Materiel, d: LocalDate)
    requires IloEtSonMateriel(e, financeur, materiel)
    requires d == Date(2024, 5, 13) || d == Date(2024, 5, 17)
    ensures d in e.evolutionJournaliere && e.evolutionJournaliere[d] == 601_000
  {
    ValeurDeDeuxPossessions(e.patrimoine, EnArgent(financeur), EnMateriel(materiel), d);
    MaterielDIlo();
  }

  /** The totals on 13 and 17 May both exceed the cash alone. */
  method PossessionsEvolutives() returns (au13: int, au17: int)
    ensures au13 == 601_000 && au17 == 601_000
    ensures au13 > 600_000 && au17 > 600_000
  {
    var e, financeur, materiel := EvolutionAvecMateriel();
    JournalAvecMateriel(e, financeur, materiel, Date(2024, 5, 13));
    JournalAvecMateriel(e, financeur, materiel, Date(2024, 5, 17));
    au13, au17 := e.evolutionJournaliere[Date(2024, 5, 13)], e.evolutionJournaliere[Date(2024, 5, 17)];
  }

  /** Cash opened on 20 May and a good acquired on 30 May are worth nothing
      from 13 to 17 May. */
  method PossessionDateAcquisitionFuture() returns (au13: int, au17: int)
    ensures au13 == 0 && au17 == 0
  {
    var futureDate := Date(2024, 5, 20);
    var financeur := new Argent.OuvertA("Espèces", futureDate, 600_000);
    var materiel := MaterielSansDevise("Matériel", futureDate, 1_000, Date(2024, 5, 30), 0.05);
    var pat := Patrimoine("patrimoineIloAu13mai24", Personne("Ilo"), futureDate, {EnArgent(financeur), EnMateriel(materiel)});
    var au13mai24, au17mai24 := Date(2024, 5, 13), Date(2024, 5, 17);
    var e := new EvolutionPatrimoine("Nom", pat, au13mai24, au17mai24);
    assert au13mai24 in e.evolutionJournaliere && au17mai24 in e.evolutionJournaliere;
    ValeurDeDeuxPossessions(pat, EnArgent(financeur), EnMateriel(materiel), au13mai24);
    ValeurDeDeuxPossessions(pat, EnArgent(financeur), EnMateriel(materiel), au17mai24);
    au13, au17 := e.evolutionJournaliere[au13mai24], e.evolutionJournaliere[au17mai24];
  }
}
