/** The dates the scenarios write out, each proved equal to the shift the
    scenario applies to a reference date (LocalDate.plusDays, minusDays,
    plusMonths, minusMonths): one shift per lemma, since evaluating a shift
    of many days on literal dates is costly for the solver. */
module DatesDesScenarios {
  import opened Calendrier

  /** A date n days after d is recognised by its epoch day. */
  lemma JoursApres(d: LocalDate, n: int, r: LocalDate)
    requires EpochDay(r) == EpochDay(d) + n
    ensures PlusDays(d, n) == r && MinusDays(r, n) == d
  {
    EpochDayInjective(PlusDays(d, n), r);
    EpochDayInjective(MinusDays(r, n), d);
  }

  lemma CentJoursApresOuvertureDeITM()
    ensures PlusDays(Date(2021, 10, 26), 100) == Date(2022, 2, 3)
  {
    JoursApres(Date(2021, 10, 26), 100, Date(2022, 2, 3));
  }

  lemma CentJoursAvantDiplomation()
    ensures MinusDays(Date(2024, 12, 26), 100) == Date(2024, 9, 17)
  {
    JoursApres(Date(2024, 9, 17), 100, Date(2024, 12, 26));
  }

  lemma CentJoursApresDiplomation()
    ensures PlusDays(Date(2024, 12, 26), 100) == Date(2025, 4, 5)
  {
    JoursApres(Date(2024, 12, 26), 100, Date(2025, 4, 5));
  }

  lemma CentJoursAvant13Mai()
    ensures MinusDays(Date(2024, 5, 13), 100) == Date(2024, 2, 3)
  {
    JoursApres(Date(2024, 2, 3), 100, Date(2024, 5, 13));
  }

  lemma CentJoursApres13Mai()
    ensures PlusDays(Date(2024, 5, 13), 100) == Date(2024, 8, 21)
  {
    JoursApres(Date(2024, 5, 13), 100, Date(2024, 8, 21));
  }

  lemma DeuxCentsJoursAvant13Mai()
    ensures MinusDays(Date(2024, 5, 13), 200) == Date(2023, 10, 26)
  {
    JoursApres(Date(2023, 10, 26), 200, Date(2024, 5, 13));
  }

  lemma DeuxCentsJoursApres13Mai()
    ensures PlusDays(Date(2024, 5, 13), 200) == Date(2024, 11, 29)
  {
    JoursApres(Date(2024, 5, 13), 200, Date(2024, 11, 29));
  }

  lemma UnJourAvant13Mai()
    ensures MinusDays(Date(2024, 5, 13), 1) == Date(2024, 5, 12)
  {
  }

  lemma TrenteJoursAvant13Mai()
    ensures MinusDays(Date(2024, 5, 13), 30) == Date(2024, 4, 13)
  {
    JoursApres(Date(2024, 4, 13), 30, Date(2024, 5, 13));
  }

  lemma TrenteJoursApres13Mai()
    ensures PlusDays(Date(2024, 5, 13), 30) == Date(2024, 6, 12)
  {
    JoursApres(Date(2024, 5, 13), 30, Date(2024, 6, 12));
  }

  lemma DixJoursAvant13Mai()
    ensures MinusDays(Date(2024, 5, 13), 10) == Date(2024, 5, 3)
  {
    JoursApres(Date(2024, 5, 3), 10, Date(2024, 5, 13));
  }

  lemma DixJoursApres13Mai()
    ensures PlusDays(Date(2024, 5, 13), 10) == Date(2024, 5, 23)
  {
    JoursApres(Date(2024, 5, 13), 10, Date(2024, 5, 23));
  }

  lemma UnMoisAvant13Mai()
    ensures MinusMonths(Date(2024, 5, 13), 1) == Date(2024, 4, 13)
  {
  }

  lemma UnMoisApres13Mai()
    ensures PlusMonths(Date(2024, 5, 13), 1) == Date(2024, 6, 13)
  {
  }
}
