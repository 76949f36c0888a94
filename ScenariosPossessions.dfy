/** The scenarios that fix the valuation of each kind of holding, each built
    as its test builds it and each proved to give the value the test
    expects. */
module ScenariosPossessions {
  import opened Calendrier
  import opened Possessions
  import opened DatesDesScenarios

  // ---------------------------------------------------------------------
  // Argent
  // ---------------------------------------------------------------------

  /** A balance built with an evaluation date after its opening keeps the
      name, opening date, value and currency it was given. */
  method ArgentInitialisation() returns (nom: string, dateOuverture: LocalDate, valeur: int, devise: Devise)
    ensures nom == "Espèces" && dateOuverture == Date(2024, 5, 13)
    ensures valeur == 600_000 && devise == NonNommee
  {
    var argent := new Argent("Espèces", Date(2024, 5, 13), Date(2024, 5, 14), 600_000, NonNommee);
    nom, dateOuverture, valeur, devise := argent.nom, argent.dateOuverture, argent.valeurComptable, argent.devise;
  }

  /** A balance is worth nothing the day before it opens. */
  method ArgentAvantOuverture() returns (valeur: int)
    ensures valeur == 0
  {
    var dateOuverture := Date(2024, 5, 13);
    var argent := new Argent.SansDevise("Espèces", dateOuverture, dateOuverture, 600_000);
    valeur := argent.ProjectionFuture(Date(2024, 5, 12)).valeurComptable;
  }

  /** Without flows, a balance keeps its value after opening. */
  method ArgentApresOuverture() returns (valeur: int)
    ensures valeur == 600_000
  {
    var dateOuverture := Date(2024, 5, 13);
    var argent := new Argent.SansDevise("Espèces", dateOuverture, dateOuverture, 600_000);
    valeur := argent.ProjectionFuture(Date(2024, 5, 15)).valeurComptable;
  }

  /** A flow of -100_000 on the 15th, active from 12 to 15 May, has one
      operation between the opening on 13 May and 15 May. */
  method ArgentAvecFlux() returns (valeur: int)
    ensures valeur == 500_000
  {
    var dateOuverture := Date(2024, 5, 13);
    var dateFuture := Date(2024, 5, 15);
    var argent := new Argent.SansDevise("Espèces", dateOuverture, dateOuverture, 600_000);
    // The day before the opening (UnJourAvant13Mai).
    var flux := new FluxArgent("Flux", argent, Date(2024, 5, 12), dateFuture, -100_000, 15);
    assert Later(argent.t, flux.debut) == Date(2024, 5, 13);
    assert Occurrences(15, Date(2024, 5, 13), Date(2024, 5, 15)) == [Date(2024, 5, 15)];
    ValeurAvecUnFlux(argent, flux, dateFuture);
    valeur := argent.ProjectionFuture(dateFuture).valeurComptable;
  }

  /** A balance opened at t with no flow is worth its stored value later on. */
  method ArgentValeurFuture() returns (valeur: int)
    ensures valeur == 1000
  {
    var argent := new Argent.OuvertA("Argent", Date(2024, 5, 1), 1000);
    valeur := argent.ValeurComptableFuture(Date(2024, 5, 15));
  }

  /** Registering a flow a second time does not count it twice: its one
      operation, on 1 May, adds 100 once. */
  method ArgentFinanceEnregistreeDeuxFois() returns (valeur: int)
    ensures valeur == 1100
  {
    var t := Date(2024, 5, 1);
    var tFutur := Date(2024, 5, 15);
    var argent := new Argent.OuvertA("Argent", t, 1000);
    var flux := new FluxArgent("Flux", argent, t, tFutur, 100, t.day);
    argent.AddFinances(flux);
    assert argent.finances == [flux];
    assert Later(argent.t, flux.debut) == Date(2024, 5, 1) && Earlier(tFutur, flux.fin) == Date(2024, 5, 15);
    assert Occurrences(1, Date(2024, 5, 1), Date(2024, 5, 15)) == [Date(2024, 5, 1)];
    ValeurAvecUnFlux(argent, flux, tFutur);
    valeur := argent.ProjectionFuture(tFutur).valeurComptable;
  }

  // ---------------------------------------------------------------------
  // FluxArgent
  // ---------------------------------------------------------------------

  /** A balance with three registered flows moves by the sum of their
      contributions. */
  lemma ValeurAvecTroisFlux(a: Argent, f: FluxArgent, g: FluxArgent, h: FluxArgent, d: LocalDate)
    requires a.finances == [f, g, h]
    ensures !Before(d, a.dateOuverture) ==>
      a.ValeurComptableFuture(d) == a.valeurComptable + f.Contribution(a.t, d) + g.Contribution(a.t, d) + h.Contribution(a.t, d)
  {
    var fs := a.finances;
    assert fs[1..] == [g, h] && fs[1..][1..] == [h] && fs[1..][1..][1..] == [];
    assert SommeFlux(fs[1..][1..], a.t, d) == h.Contribution(a.t, d);
    assert SommeFlux(fs[1..], a.t, d) == g.Contribution(a.t, d) + h.Contribution(a.t, d);
    assert SommeFlux(fs, a.t, d) == f.Contribution(a.t, d) + g.Contribution(a.t, d) + h.Contribution(a.t, d);
  }

  /** The current account of the student-life scenario: opened on 13 May
      2024 with 600_000, paying -500_000 on the 1st from 26 Oct 2021 to 26 Dec
      2024, and carrying two gifts whose windows end before 13 May 2024 or
      before they start. */
  ghost predicate CompteDuTrainDeVie(a: Argent, vie: FluxArgent, dons1: FluxArgent, dons2: FluxArgent)
    reads a
  {
    && a.finances == [vie, dons1, dons2]
    && a.t == Date(2024, 5, 13) && a.dateOuverture == Date(2024, 5, 13) && a.valeurComptable == 600_000
    && vie.debut == Date(2021, 10, 26) && vie.fin == Date(2024, 12, 26)
    && vie.fluxMensuel == -500_000 && vie.dateOperation == 1
    && dons1.fin == Date(2022, 2, 3)
    && dons2.debut == Date(2024, 12, 26) && dons2.fin == Date(2024, 9, 17)
  }

  /** From 13 May 2024 on, only student life moves the account. */
  lemma ValeurDuCompteDuTrainDeVie(a: Argent, vie: FluxArgent, dons1: FluxArgent, dons2: FluxArgent, d: LocalDate)
    requires CompteDuTrainDeVie(a, vie, dons1, dons2)
    requires NotAfter(Date(2024, 5, 13), d)
    ensures a.ValeurComptableFuture(d) ==
      600_000 - 500_000 * |Occurrences(1, Date(2024, 5, 13), Earlier(d, Date(2024, 12, 26)))|
  {
    dons1.FenetreVide(a.t, d);
    dons2.FenetreVide(a.t, d);
    ValeurAvecTroisFlux(a, vie, dons1, dons2, d);
    assert Later(a.t, vie.debut) == Date(2024, 5, 13);
  }

  lemma CompteDuTrainDeVieAu13Mai(a: Argent, vie: FluxArgent, dons1: FluxArgent, dons2: FluxArgent)
    requires CompteDuTrainDeVie(a, vie, dons1, dons2)
    ensures a.ValeurComptableFuture(Date(2024, 5, 13)) == 600_000
  {
    ValeurDuCompteDuTrainDeVie(a, vie, dons1, dons2, Date(2024, 5, 13));
    assert Occurrences(1, Date(2024, 5, 13), Date(2024, 5, 13)) == [];
  }

  /** 1 June is the one operation by 26 June. */
  lemma CompteDuTrainDeVieAu26Juin(a: Argent, vie: FluxArgent, dons1: FluxArgent, dons2: FluxArgent)
    requires CompteDuTrainDeVie(a, vie, dons1, dons2)
    ensures a.ValeurComptableFuture(Date(2024, 6, 26)) == 100_000
  {
    ValeurDuCompteDuTrainDeVie(a, vie, dons1, dons2, Date(2024, 6, 26));
    assert Occurrences(1, Date(2024, 5, 13), Date(2024, 6, 26)) == [Date(2024, 6, 1)];
  }

  /** The 1st of June to December 2024: seven dates, counted back from
      December (proleptic month 24299). */
  lemma SeptPremiersDuMois()
    ensures |Occurrences(1, Date(2024, 5, 13), Date(2024, 12, 26))| == 7
  {
    var lo, hi := Date(2024, 5, 13), Date(2024, 12, 26);
    assert |OccurrencesFrom(1, 24299, lo, hi)| == 1;
    assert |OccurrencesFrom(1, 24298, lo, hi)| == 2;
    assert |OccurrencesFrom(1, 24297, lo, hi)| == 3;
    assert |OccurrencesFrom(1, 24296, lo, hi)| == 4;
    assert |OccurrencesFrom(1, 24295, lo, hi)| == 5;
    assert |OccurrencesFrom(1, 24294, lo, hi)| == 6;
    assert |OccurrencesFrom(1, 24293, lo, hi)| == 7;
  }

  /** The 1st of June to December: seven operations by graduation, and none after it. */
  lemma CompteDuTrainDeVieApresDiplomation(a: Argent, vie: FluxArgent, dons1: FluxArgent, dons2: FluxArgent, d: LocalDate)
    requires CompteDuTrainDeVie(a, vie, dons1, dons2)
    requires NotAfter(Date(2024, 12, 26), d)
    ensures a.ValeurComptableFuture(d) == -2_900_000
  {
    ValeurDuCompteDuTrainDeVie(a, vie, dons1, dons2, d);
    assert Earlier(d, Date(2024, 12, 26)) == Date(2024, 12, 26);
    SeptPremiersDuMois();
  }

  /** Before its opening on 13 May 2024, 100 days earlier, the account is worth nothing. */
  lemma CompteDuTrainDeVieAvantOuverture(a: Argent, vie: FluxArgent, dons1: FluxArgent, dons2: FluxArgent)
    requires CompteDuTrainDeVie(a, vie, dons1, dons2)
    ensures a.ValeurComptableFuture(Date(2024, 2, 3)) == 0
  {
  }

  /** A current account from 13 May 2024 funding student life (-500_000 on
      the 1st until 26 Dec 2024), with two gifts of 400_000 on the 30th whose
      windows miss it: one ended in 2022, the other ends before it starts.
      The lemmas above give its value on each date the scenario checks. */
  method TrainDeVieFinanceParCompteCourant() returns (compteCourant: Argent, vieEstudiantine: FluxArgent,
                                                      donsAuDebut: FluxArgent, donsALaFin: FluxArgent)
    ensures CompteDuTrainDeVie(compteCourant, vieEstudiantine, donsAuDebut, donsALaFin)
  {
    var au13mai24 := Date(2024, 5, 13);
    compteCourant := new Argent.OuvertA("Compte courant", au13mai24, 600_000);
    var aLOuvertureDeITM := Date(2021, 10, 26);
    var aLaDiplomation := Date(2024, 12, 26);
    vieEstudiantine := new FluxArgent("Ma super(?) vie d'etudiant", compteCourant,
                                      aLOuvertureDeITM, aLaDiplomation, -500_000, 1);
    // 100 days after the opening of ITM (CentJoursApresOuvertureDeITM).
    donsAuDebut := new FluxArgent("La générosité des parents au début", compteCourant,
                                  aLOuvertureDeITM, Date(2022, 2, 3), 400_000, 30);
    // 100 days before graduation (CentJoursAvantDiplomation).
    donsALaFin := new FluxArgent("La générosité des parents à la fin", compteCourant,
                                 aLaDiplomation, Date(2024, 9, 17), 400_000, 30);
  }

  /** Projecting a flow projects its target: the operation of 1 May makes
      the balance 1100 on 1 June. */
  method FluxProjectionFuture() returns (valeur: int)
    ensures valeur == 1100
  {
    var debut := Date(2024, 5, 1);
    var argent := new Argent.OuvertA("Argent", debut, 1000);
    var flux := new FluxArgent("Flux", argent, debut, Date(2024, 5, 31), 100, debut.day);
    assert Later(argent.t, flux.debut) == Date(2024, 5, 1);
    assert Earlier(Date(2024, 6, 1), flux.fin) == Date(2024, 5, 31);
    assert Occurrences(1, Date(2024, 5, 1), Date(2024, 5, 31)) == [Date(2024, 5, 1)];
    ValeurAvecUnFlux(argent, flux, Date(2024, 6, 1));
    valeur := flux.ProjectionFuture(Date(2024, 6, 1)).argent.valeurComptable;
  }

  /** A flow whose window ended the day before the balance's date leaves the
      projected balance, name included, as it was. */
  method FluxFinAvantPeriode() returns (nom: string, valeur: int)
    ensures nom == "Espèces" && valeur == 600_000
  {
    var au13mai24 := Date(2024, 5, 13);
    var argent := new Argent.OuvertA("Espèces", au13mai24, 600_000);
    // From 10 days before to the day before 13 May (DixJoursAvant13Mai, UnJourAvant13Mai; projected at DixJoursApres13Mai).
    var flux := new FluxArgent("Flux Fin Avant", argent, Date(2024, 5, 3), Date(2024, 5, 12), -100_000, 15);
    var dix := Date(2024, 5, 23);
    flux.FenetreVide(argent.t, dix);
    ValeurAvecUnFlux(argent, flux, dix);
    var projection := flux.ProjectionFuture(dix);
    nom, valeur := projection.argent.nom, projection.argent.valeurComptable;
  }

  /** An operation day of 31 falls on 31 May between 13 May and 13 June, so
      the balance is lower a month later. */
  method FluxDernierJourDuMois() returns (valeur: int)
    ensures valeur == 550_000 && valeur < 600_000
  {
    var au13mai24 := Date(2024, 5, 13);
    var argent := new Argent.OuvertA("Espèces", au13mai24, 600_000);
    // 30 days either side of 13 May (TrenteJoursAvant13Mai, TrenteJoursApres13Mai).
    var flux := new FluxArgent("Flux Fin Mois", argent, Date(2024, 4, 13), Date(2024, 6, 12), -50_000, 31);
    assert PlusMonths(Date(2024, 5, 13), 1) == Date(2024, 6, 13);
    assert Later(argent.t, flux.debut) == Date(2024, 5, 13);
    assert Earlier(Date(2024, 6, 13), flux.fin) == Date(2024, 6, 12);
    assert Occurrences(31, Date(2024, 5, 13), Date(2024, 6, 12)) == [Date(2024, 5, 31)];
    ValeurAvecUnFlux(argent, flux, PlusMonths(au13mai24, 1));
    valeur := flux.ProjectionFuture(PlusMonths(au13mai24, 1)).argent.valeurComptable;
  }

  // ---------------------------------------------------------------------
  // Materiel
  // ---------------------------------------------------------------------

  /** A laptop worth 2_000_000 on 26 Oct 2021 losing 10% a year is worth
      1_466_301 974 days later. */
  lemma MacSApprecieNegativement()
    ensures MaterielSansDevise("MacBook Pro", Date(2021, 10, 26), 2_000_000, MinusDays(Date(2021, 10, 26), 2), -0.10)
              .ValeurComptableFuture(Date(2024, 6, 26)) == 1_466_301
  {
    assert DaysBetween(Date(2021, 10, 26), Date(2024, 6, 26)) == 974;
  }

  /** A good is worth nothing the day before its acquisition. */
  lemma MaterielAvantAcquisition()
    ensures MaterielSansDevise("Ordinateur", Date(2023, 5, 13), 1_000_000, Date(2023, 5, 13), 0.05)
              .ProjectionFuture(Date(2023, 5, 12)).valeurComptable == 0
  {
  }

  /** 5% a year over the 366 days to 13 May 2024 raises 1_000_000 to 1_050_136. */
  lemma MaterielApresAcquisition()
    ensures MaterielSansDevise("Ordinateur", Date(2023, 5, 13), 1_000_000, Date(2023, 5, 13), 0.05)
              .ProjectionFuture(Date(2024, 5, 13)).valeurComptable == 1_050_136
  {
    assert DaysBetween(Date(2023, 5, 13), Date(2024, 5, 13)) == 366;
  }

  /** One ordinary year at 5% takes 1000 to exactly 1050. */
  lemma MaterielProjectionUnAn()
    ensures MaterielSansDevise("Materiel", Date(2024, 5, 1), 1000, Date(2024, 5, 1), 0.05)
              .ProjectionFuture(Date(2025, 5, 1)).valeurComptable == 1050
  {
    assert DaysBetween(Date(2024, 5, 1), Date(2025, 5, 1)) == 365;
  }

  /** Before an acquisition later than t the good is worth nothing. */
  lemma MaterielProjectionAvantAcquisition()
    ensures MaterielSansDevise("Materiel", Date(2024, 5, 1), 1000, Date(2024, 6, 1), 0.05)
              .ProjectionFuture(Date(2024, 5, 15)).valeurComptable == 0
  {
  }
}
