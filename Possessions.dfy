/** The holdings of a portfolio and how each is valued at a date: a cash
    balance (Argent) together with the monthly flows registered on it
    (FluxArgent), and a physical good (Materiel) whose value changes
    linearly with the days elapsed. */
module Possessions {
  import opened Calendrier
  import opened Sommes

  /** The currency label: opaque, compared only for equality. */
  datatype Devise = NonNommee | Nommee(code: string)

  predicate NoDuplicates<T(==)>(s: seq<T>) {
    forall i, j :: 0 <= i < j < |s| ==> s[i] != s[j]
  }

  // ---------------------------------------------------------------------
  // Cash balance
  // ---------------------------------------------------------------------

  /** A cash balance as a projection returns it: a snapshot at date t. */
  datatype ArgentProjete = ArgentProjete(nom: string, dateOuverture: LocalDate, t: LocalDate,
                                         valeurComptable: int, devise: Devise)
  {
    /** The snapshot carries no flows: it holds its value from its opening date on. */
    function ValeurComptableFuture(d: LocalDate): (r: int)
      ensures Before(d, dateOuverture) ==> r == 0
      ensures !Before(d, dateOuverture) ==> r == valeurComptable
    {
      if Before(d, dateOuverture) then 0 else valeurComptable
    }
  }

  class Argent {
    const nom: string
    const dateOuverture: LocalDate
    /** The date at which valeurComptable is the balance. */
    const t: LocalDate
    const valeurComptable: int
    const devise: Devise
    /** The flows registered on this balance, each once, in registration order. */
    var finances: seq<FluxArgent>

    ghost predicate Valid()
      reads this
    {
      NoDuplicates(finances)
    }

    /** The set of registered flows. */
    function FinancesEnsemble(): set<FluxArgent>
      reads this
    {
      Elements(finances)
    }

    constructor (nom: string, dateOuverture: LocalDate, t: LocalDate, valeurComptable: int, devise: Devise)
      ensures Valid() && finances == []
      ensures this.nom == nom && this.dateOuverture == dateOuverture && this.t == t
      ensures this.valeurComptable == valeurComptable && this.devise == devise
    {
      this.nom, this.dateOuverture, this.t := nom, dateOuverture, t;
      this.valeurComptable, this.devise := valeurComptable, devise;
      finances := [];
    }

    /** A balance whose currency is left unnamed. */
    constructor SansDevise(nom: string, dateOuverture: LocalDate, t: LocalDate, valeurComptable: int)
      ensures Valid() && finances == []
      ensures this.nom == nom && this.dateOuverture == dateOuverture && this.t == t
      ensures this.valeurComptable == valeurComptable && devise == NonNommee
    {
      this.nom, this.dateOuverture, this.t := nom, dateOuverture, t;
      this.valeurComptable, this.devise := valeurComptable, NonNommee;
      finances := [];
    }

    /** A balance opened at its reference date t, currency unnamed. */
    constructor OuvertA(nom: string, t: LocalDate, valeurComptable: int)
      ensures Valid() && finances == []
      ensures this.nom == nom && dateOuverture == t && this.t == t
      ensures this.valeurComptable == valeurComptable && devise == NonNommee
    {
      this.nom, this.dateOuverture, this.t := nom, t, t;
      this.valeurComptable, this.devise := valeurComptable, NonNommee;
      finances := [];
    }

    /** Registers a flow on this balance; registering it again changes nothing. */
    method AddFinances(f: FluxArgent)
      requires Valid()
      modifies this
      ensures Valid()
      ensures FinancesEnsemble() == old(FinancesEnsemble()) + {f}
      ensures f in old(finances) ==> finances == old(finances)
      ensures f !in old(finances) ==> finances == old(finances) + [f]
    {
      if f !in finances {
        finances := finances + [f];
      }
    }

    /** The balance at date d: nothing before the opening date; otherwise the
        stored value plus, for each registered flow, its amount times the
        number of its operations from t to d within its window. */
    function ValeurComptableFuture(d: LocalDate): (r: int)
      reads this
      ensures Before(d, dateOuverture) ==> r == 0
    {
      if Before(d, dateOuverture) then 0 else valeurComptable + SommeFlux(finances, t, d)
    }

    /** The balance projected to date d. */
    function ProjectionFuture(d: LocalDate): (r: ArgentProjete)
      reads this
      ensures r.nom == nom && r.dateOuverture == dateOuverture && r.devise == devise && r.t == d
      ensures r.valeurComptable == ValeurComptableFuture(d)
      ensures r.ValeurComptableFuture(d) == ValeurComptableFuture(d)
    {
      ArgentProjete(nom, dateOuverture, d, ValeurComptableFuture(d), devise)
    }
  }

  /** The summed contributions, to a balance with reference date t valued at
      d, of the flows fs. */
  function SommeFlux(fs: seq<FluxArgent>, t: LocalDate, d: LocalDate): int {
    if fs == [] then 0 else fs[0].Contribution(t, d) + SommeFlux(fs[1..], t, d)
  }

  /** The contributions of the flows fs, keyed by flow. */
  function Contributions(fs: set<FluxArgent>, t: LocalDate, d: LocalDate): (m: map<FluxArgent, int>)
    ensures m.Keys == fs
    ensures forall f :: f in m ==> m[f] == f.Contribution(t, d)
  {
    map f | f in fs :: f.Contribution(t, d)
  }

  /** The flows listed in fs, as a set. */
  function Elements(fs: seq<FluxArgent>): set<FluxArgent> {
    set f | f in fs
  }

  lemma ElementsCons(fs: seq<FluxArgent>)
    requires fs != []
    ensures Elements(fs) == {fs[0]} + Elements(fs[1..])
  {
    assert fs == [fs[0]] + fs[1..];
  }

  lemma ContributionsAjout(s: set<FluxArgent>, f: FluxArgent, t: LocalDate, d: LocalDate)
    ensures Contributions(s + {f}, t, d) == Contributions(s, t, d)[f := f.Contribution(t, d)]
  {
  }

  /** Summing along the registration order gives the sum over the set of
      registered flows: the registry behaves as a set. */
  lemma {:induction false} SommeFluxEnsembliste(fs: seq<FluxArgent>, t: LocalDate, d: LocalDate)
    requires NoDuplicates(fs)
    ensures SommeFlux(fs, t, d) == Somme(Contributions(Elements(fs), t, d))
  {
    if fs != [] {
      var rest := fs[1..];
      assert NoDuplicates(rest);
      SommeFluxEnsembliste(rest, t, d);
      assert fs[0] !in Elements(rest) by {
        forall j | 0 <= j < |rest| ensures rest[j] != fs[0] {
          assert rest[j] == fs[j + 1];
        }
      }
      ElementsCons(fs);
      ContributionsAjout(Elements(rest), fs[0], t, d);
      assert Elements(fs) == Elements(rest) + {fs[0]};
      SommeAjout(Contributions(Elements(rest), t, d), fs[0], fs[0].Contribution(t, d));
    }
  }

  /** Two balances with the same stored data and the same set of registered
      flows have the same value at every date, whatever the order in which
      their flows were registered. */
  lemma ValeurSelonEnsembleDesFinances(a: Argent, b: Argent, d: LocalDate)
    requires a.Valid() && b.Valid()
    requires a.dateOuverture == b.dateOuverture && a.t == b.t && a.valeurComptable == b.valeurComptable
    requires a.FinancesEnsemble() == b.FinancesEnsemble()
    ensures a.ValeurComptableFuture(d) == b.ValeurComptableFuture(d)
  {
    SommeFluxEnsembliste(a.finances, a.t, d);
    SommeFluxEnsembliste(b.finances, b.t, d);
    assert Elements(a.finances) == a.FinancesEnsemble() == b.FinancesEnsemble() == Elements(b.finances);
  }

  /** Flows that have no operation between t and d add nothing. */
  lemma {:induction false} SommeFluxSansOperation(fs: seq<FluxArgent>, t: LocalDate, d: LocalDate)
    requires forall i :: 0 <= i < |fs| ==> fs[i].Operations(t, d) == []
    ensures SommeFlux(fs, t, d) == 0
  {
    if fs != [] {
      SommeFluxSansOperation(fs[1..], t, d);
    }
  }

  /** Only operations between t and d move the balance: when no registered
      flow operates in that span, the value at any d from the opening date on
      is the stored value. */
  lemma ValeurSansOperation(a: Argent, d: LocalDate)
    requires forall f :: f in a.finances ==> f.Operations(a.t, d) == []
    requires NotAfter(a.dateOuverture, d)
    ensures a.ValeurComptableFuture(d) == a.valeurComptable
  {
    SommeFluxSansOperation(a.finances, a.t, d);
  }

  /** At its reference date a balance holds its stored value unless a
      registered flow operates on that very day. */
  lemma ValeurAuJourDeReference(a: Argent)
    requires NotAfter(a.dateOuverture, a.t)
    requires forall f :: f in a.finances ==> f.dateOperation != a.t.day
    ensures a.ValeurComptableFuture(a.t) == a.valeurComptable
  {
    forall f | f in a.finances ensures f.Operations(a.t, a.t) == [] {
      f.OperationsUnJour(a.t);
    }
    ValeurSansOperation(a, a.t);
  }

  /** A balance with one registered flow moves by that flow's amount once
      per operation. */
  lemma ValeurAvecUnFlux(a: Argent, f: FluxArgent, d: LocalDate)
    requires a.finances == [f]
    ensures a.ValeurComptableFuture(d) ==
      if Before(d, a.dateOuverture) then 0
      else a.valeurComptable + f.fluxMensuel * |Occurrences(f.dateOperation, Later(a.t, f.debut), Earlier(d, f.fin))|
  {
    assert a.finances[1..] == [];
    assert SommeFlux(a.finances, a.t, d) == f.Contribution(a.t, d);
  }

  // ---------------------------------------------------------------------
  // Monthly flow
  // ---------------------------------------------------------------------

  /** A flow as a projection returns it: its target is the projected balance. */
  datatype FluxArgentProjete = FluxArgentProjete(nom: string, argent: ArgentProjete, debut: LocalDate,
                                                 fin: LocalDate, fluxMensuel: int, dateOperation: int)

  class FluxArgent {
    const nom: string
    /** The balance this flow debits or credits. */
    const argent: Argent
    const debut: LocalDate
    const fin: LocalDate
    /** The signed amount of each operation. */
    const fluxMensuel: int
    /** The day-of-month of the operations. */
    const dateOperation: int

    /** Creating a flow registers it on its target balance. */
    constructor (nom: string, argent: Argent, debut: LocalDate, fin: LocalDate, fluxMensuel: int, dateOperation: int)
      requires argent.Valid()
      modifies argent
      ensures this.nom == nom && this.argent == argent && this.debut == debut && this.fin == fin
      ensures this.fluxMensuel == fluxMensuel && this.dateOperation == dateOperation
      ensures argent.Valid() && argent.finances == old(argent.finances) + [this]
    {
      this.nom, this.argent, this.debut, this.fin := nom, argent, debut, fin;
      this.fluxMensuel, this.dateOperation := fluxMensuel, dateOperation;
      new;
      argent.AddFinances(this);
    }

    /** The operations that move a balance with reference date t when it is
        valued at d: the dates with day-of-month dateOperation that lie both in
        [t, d] and in the window [debut, fin], in calendar order. */
    function Operations(t: LocalDate, d: LocalDate): (r: seq<LocalDate>)
      ensures forall o: LocalDate :: o in r <==>
        o.day == dateOperation && NotAfter(t, o) && NotAfter(o, d) && NotAfter(debut, o) && NotAfter(o, fin)
      ensures StrictlyIncreasing(r)
    {
      Occurrences(dateOperation, Later(t, debut), Earlier(d, fin))
    }

    function Contribution(t: LocalDate, d: LocalDate): int {
      fluxMensuel * |Operations(t, d)|
    }

    /** On the reference date itself, the flow operates exactly when that day
        carries its day-of-month and lies in its window. */
    lemma OperationsUnJour(t: LocalDate)
      ensures Operations(t, t) ==
        if t.day == dateOperation && NotAfter(debut, t) && NotAfter(t, fin) then [t] else []
    {
      if NotAfter(debut, t) && NotAfter(t, fin) {
        OccurrencesOneDay(dateOperation, t);
      }
    }

    /** An empty window (start after end), one that ended before t or one
        that starts after d contributes nothing. */
    lemma FenetreVide(t: LocalDate, d: LocalDate)
      requires Before(fin, debut) || Before(fin, t) || Before(d, debut)
      ensures Contribution(t, d) == 0
    {
      assert Before(Earlier(d, fin), Later(t, debut));
    }

    /** The flow projected to date d: the same flow, aimed at the projected balance. */
    function ProjectionFuture(d: LocalDate): (r: FluxArgentProjete)
      reads argent
      ensures r.argent == argent.ProjectionFuture(d)
      ensures r.argent.valeurComptable == argent.ValeurComptableFuture(d)
      ensures r.nom == nom && r.debut == debut && r.fin == fin
      ensures r.fluxMensuel == fluxMensuel && r.dateOperation == dateOperation
    {
      FluxArgentProjete(nom, argent.ProjectionFuture(d), debut, fin, fluxMensuel, dateOperation)
    }
  }

  // ---------------------------------------------------------------------
  // Physical good
  // ---------------------------------------------------------------------

  /** Java's (int) cast of a real: truncation toward zero. */
  function Tronque(x: real): (r: int)
    ensures 0.0 <= x ==> r as real <= x < r as real + 1.0
    ensures x < 0.0 ==> r as real - 1.0 < x <= r as real
  {
    if 0.0 <= x then x.Floor else -((-x).Floor)
  }

  /** Value v after `jours` days at annual rate `taux`, changing in
      proportion to the days elapsed over a 365-day year (no compounding). */
  function Lineaire(v: real, taux: real, jours: int): real {
    v + v * taux * (jours as real) / 365.0
  }

  /** The linear law grows with the days elapsed when value and rate are
      non-negative. */
  lemma LineaireCroissant(v: real, taux: real, n1: int, n2: int)
    requires 0.0 <= v && 0.0 <= taux && n1 <= n2
    ensures Lineaire(v, taux, n1) <= Lineaire(v, taux, n2)
  {
    var k := v * taux;
    assert 0.0 <= k;
    assert k * (n1 as real) <= k * (n2 as real);
  }

  lemma TronqueCroissant(x: real, y: real)
    requires x <= y
    ensures Tronque(x) <= Tronque(y)
  {
  }

  datatype Materiel = Materiel(nom: string, t: LocalDate, valeurComptable: int, dateAcquisition: LocalDate,
                               tauxDAppreciationAnnuelle: real, devise: Devise)
  {
    /** The exact value at d: the stored value changed by the annual rate in
        proportion to the days elapsed since t (simple, not compound). */
    function ValeurLineaire(d: LocalDate): real {
      Lineaire(valeurComptable as real, tauxDAppreciationAnnuelle, DaysBetween(t, d))
    }

    /** The value at d: nothing before acquisition, else the linear value
        truncated toward zero. */
    function ValeurComptableFuture(d: LocalDate): (r: int)
      ensures Before(d, dateAcquisition) ==> r == 0
      ensures !Before(d, dateAcquisition) ==> (r as real) - 1.0 < ValeurLineaire(d) < (r as real) + 1.0
      ensures !Before(d, dateAcquisition) && 0.0 <= ValeurLineaire(d) ==> 0 <= r && r as real <= ValeurLineaire(d)
      ensures !Before(d, dateAcquisition) && ValeurLineaire(d) < 0.0 ==> r <= 0 && ValeurLineaire(d) <= r as real
    {
      if Before(d, dateAcquisition) then 0 else Tronque(ValeurLineaire(d))
    }

    /** The good projected to date d: reference date d, the value at d. */
    function ProjectionFuture(d: LocalDate): (r: Materiel)
      ensures r.t == d && r.valeurComptable == ValeurComptableFuture(d)
      ensures r.nom == nom && r.dateAcquisition == dateAcquisition
      ensures r.tauxDAppreciationAnnuelle == tauxDAppreciationAnnuelle && r.devise == devise
    {
      Materiel(nom, d, ValeurComptableFuture(d), dateAcquisition, tauxDAppreciationAnnuelle, devise)
    }

    /** Valuing a projection at its own date gives back the projected value. */
    lemma ProjectionIdempotente(d: LocalDate)
      ensures ProjectionFuture(d).ValeurComptableFuture(d) == ValeurComptableFuture(d)
    {
      var p := ProjectionFuture(d);
      assert DaysBetween(d, d) == 0;
      assert p.ValeurLineaire(d) == p.valeurComptable as real;
    }

    /** With a non-negative stored value and rate, the value never decreases
        from the acquisition date on. */
    lemma ValeurCroissante(d1: LocalDate, d2: LocalDate)
      requires 0 <= valeurComptable && 0.0 <= tauxDAppreciationAnnuelle
      requires NotAfter(dateAcquisition, d1) && NotAfter(d1, d2)
      ensures ValeurComptableFuture(d1) <= ValeurComptableFuture(d2)
    {
      EpochDayOrder(d2, d1);
      var n1, n2 := DaysBetween(t, d1), DaysBetween(t, d2);
      assert n1 <= n2;
      LineaireCroissant(valeurComptable as real, tauxDAppreciationAnnuelle, n1, n2);
      TronqueCroissant(ValeurLineaire(d1), ValeurLineaire(d2));
    }
  }

  /** The constructor without a currency: the good's currency is NonNommee. */
  function MaterielSansDevise(nom: string, t: LocalDate, valeurComptable: int, dateAcquisition: LocalDate,
                              tauxDAppreciationAnnuelle: real): (m: Materiel)
    ensures m.devise == NonNommee
    ensures m.nom == nom && m.t == t && m.valeurComptable == valeurComptable
    ensures m.dateAcquisition == dateAcquisition && m.tauxDAppreciationAnnuelle == tauxDAppreciationAnnuelle
  {
    Materiel(nom, t, valeurComptable, dateAcquisition, tauxDAppreciationAnnuelle, NonNommee)
  }

  // ---------------------------------------------------------------------
  // Holdings of a portfolio
  // ---------------------------------------------------------------------

  datatype Possession = EnArgent(argent: Argent) | EnFlux(flux: FluxArgent) | EnMateriel(materiel: Materiel)

  /** The value a holding contributes at date d. A flow contributes nothing
      of its own: its effect is in the value of its target balance. */
  function ValeurPossession(p: Possession, d: LocalDate): (r: int)
    reads if p.EnArgent? then {p.argent} else {}
    ensures p.EnFlux? ==> r == 0
    ensures p.EnArgent? ==> r == p.argent.ValeurComptableFuture(d)
    ensures p.EnMateriel? ==> r == p.materiel.ValeurComptableFuture(d)
  {
    match p
    case EnArgent(a) => a.ValeurComptableFuture(d)
    case EnFlux(_) => 0
    case EnMateriel(m) => m.ValeurComptableFuture(d)
  }
}
