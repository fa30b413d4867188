/**
 * The read helpers: lookups by primary key, the filtered and paginated list
 * of applications, plain paginated lists, and row counts, all as functions of
 * the store and the parameters (the session is the store).
 */
module QueryHelpers {
  import opened Wrappers
  import opened Text
  import opened Tables
  import opened Models

  /** Evaluating a query expression that names an attribute the mapped class (or module) lacks. */
  datatype QueryError = MissingAttribute(name: string)

  // ---------------------------------------------------------------------------
  // get_demande
  // ---------------------------------------------------------------------------

  /** An application with its branch, client and contribution loaded eagerly. */
  datatype DemandeDetailed = DemandeDetailed(
    demande: Demande,
    agence: Option<Agence>,
    client: Option<SituationPro>,
    apport: Option<Apport>)

  /** `get_demande`: the application with the given number, its three relationships resolved in the same fetch. */
  function GetDemande(s: Store, demande_id: int): (r: Option<DemandeDetailed>)
    ensures r.None? <==> demande_id !in Keys(s.demandes, DemandeKey)
    ensures r.Some? ==> r.value.demande in s.demandes && r.value.demande.numero_demande == demande_id
    ensures r.Some? ==> r.value.agence == AgenceOf(s, r.value.demande)
    ensures r.Some? ==> r.value.client == ClientOf(s, r.value.demande)
    ensures r.Some? ==> r.value.apport == ApportOf(s, r.value.demande)
  {
    match Lookup(s.demandes, DemandeKey, demande_id)
    case None => None
    case Some(d) => Some(DemandeDetailed(d, AgenceOf(s, d), ClientOf(s, d), ApportOf(s, d)))
  }

  /**
   * In a valid store the application fetched for `demande_id` is the one row
   * with that number; its branch and client are present exactly when the
   * foreign keys are set, carry those keys, and its contribution is the one
   * keyed by the same number, or absent when there is none.
   */
  lemma GetDemandeResolves(s: Store, demande_id: int, d: Demande)
    requires Valid(s)
    requires d in s.demandes && d.numero_demande == demande_id
    ensures GetDemande(s, demande_id).Some? && GetDemande(s, demande_id).value.demande == d
    ensures var r := GetDemande(s, demande_id).value;
      && (r.agence.Some? <==> d.numero_agence.Some?)
      && (r.agence.Some? ==> r.agence.value in s.agences && r.agence.value.numero_agence == d.numero_agence.value)
      && (r.client.Some? <==> d.numero_client.Some?)
      && (r.client.Some? ==> r.client.value in s.situations_pro && r.client.value.numero_client == d.numero_client.value)
      && (r.apport.None? <==> forall a :: a in s.apports ==> a.numero_demande != demande_id)
      && (r.apport.Some? ==> r.apport.value in s.apports && r.apport.value.numero_demande == demande_id)
  {
    LookupExact(s.demandes, DemandeKey, demande_id, d);
    ForeignKeysResolve(s, d);
  }

  // ---------------------------------------------------------------------------
  // get_demandes
  // ---------------------------------------------------------------------------

  /** The optional query parameters of `get_demandes`, in declaration order. */
  datatype DemandeFilters = DemandeFilters(
    montant_operation: Option<int>,
    duree: Option<int>,
    date_de_demande: Option<string>,
    date_de_cloture: Option<string>,
    numero_client: Option<int>,
    accord: Option<string>,
    numero_agence: Option<int>,
    duree_de_traitement: Option<int>,
    code_accord: Option<int>,
    score_emprunteur: Option<string>,
    montant_prete: Option<int>)

  const NoFilters := DemandeFilters(None, None, None, None, None, None, None, None, None, None, None)

  /** One `.filter(...)` step over a column `Demande` has. */
  datatype Criterion =
    | MontantOperation(value: int)
    | Duree(value: int)
    | NumeroClient(value: int)
    | Accord(pattern: string)
    | NumeroAgence(value: int)
    | DureeDeTraitement(value: int)
    | CodeAccord(value: int)

  /**
   * `accord ILIKE '%pattern%'`: a NULL column never matches; otherwise the
   * pattern, case-folded, must occur in the case-folded column value.
   */
  predicate AccordMatches(pattern: string, accord: Option<string>) {
    accord.Some? && Contains(Lower(accord.value), Lower(pattern))
  }

  /** A row passes a step; an equality with NULL is never true. */
  predicate Holds(c: Criterion, d: Demande) {
    match c
    case MontantOperation(v) => d.montant_operation == Some(v)
    case Duree(v) => d.duree == Some(v)
    case NumeroClient(v) => d.numero_client == Some(v)
    case Accord(p) => AccordMatches(p, d.accord)
    case NumeroAgence(v) => d.numero_agence == Some(v)
    case DureeDeTraitement(v) => d.duree_de_traitement == Some(v)
    case CodeAccord(v) => d.code_accord == Some(v)
  }

  /** A row passes every step of `cs`, taken in order. */
  predicate SatisfiesAll(cs: seq<Criterion>, d: Demande) {
    cs == [] || (Holds(cs[0], d) && SatisfiesAll(cs[1..], d))
  }

  /** The test a row must pass to survive every step in `cs`. */
  function Passing(cs: seq<Criterion>): Demande -> bool {
    d => SatisfiesAll(cs, d)
  }

  /** The rows passing every step in `cs`, in store order. */
  function Select(rows: seq<Demande>, cs: seq<Criterion>): (r: seq<Demande>)
    ensures |r| <= |rows|
  {
    Filter(rows, Passing(cs))
  }

  /** Selection keeps exactly the rows passing every step. */
  lemma SelectMembers(rows: seq<Demande>, cs: seq<Criterion>)
    ensures forall d :: d in Select(rows, cs) <==> d in rows && SatisfiesAll(cs, d)
  {
    FilterMembers(rows, Passing(cs));
  }

  lemma SatisfiesAllOne(c: Criterion, d: Demande)
    ensures SatisfiesAll([c], d) <==> Holds(c, d)
  {
    assert [c][1..] == [];
  }

  lemma {:induction false} SatisfiesAllAppend(a: seq<Criterion>, b: seq<Criterion>, d: Demande)
    ensures SatisfiesAll(a + b, d) <==> SatisfiesAll(a, d) && SatisfiesAll(b, d)
  {
    if a == [] {
      assert a + b == b;
    } else {
      SatisfiesAllAppend(a[1..], b, d);
      assert (a + b)[0] == a[0];
      assert (a + b)[1..] == a[1..] + b;
    }
  }

  /** Selection keeps store order: rows of an earlier segment come first. */
  lemma SelectAppend(a: seq<Demande>, b: seq<Demande>, cs: seq<Criterion>)
    ensures Select(a + b, cs) == Select(a, cs) + Select(b, cs)
  {
    FilterAppend(a, b, Passing(cs));
  }

  /** With no step, nothing is filtered out. */
  lemma SelectNothing(rows: seq<Demande>)
    ensures Select(rows, []) == rows
  {
    FilterAll(rows, Passing([]));
  }

  /** Filtering the selection by one more step is selecting with that step appended. */
  lemma SelectRefine(rows: seq<Demande>, cs: seq<Criterion>, c: Criterion)
    ensures Select(Select(rows, cs), [c]) == Select(rows, cs + [c])
  {
    forall d | d in rows ensures Passing(cs + [c])(d) <==> Passing(cs)(d) && Passing([c])(d) {
      SatisfiesAllAppend(cs, [c], d);
    }
    FilterTwice(rows, Passing(cs), Passing([c]), Passing(cs + [c]));
  }

  /** The step `c` when its filter is supplied, otherwise no step. */
  function Step(supplied: bool, c: Criterion): seq<Criterion> {
    if supplied then [c] else []
  }

  /** The steps `get_demandes` applies, in source order, one per supplied filter on an existing column. */
  function Criteria(f: DemandeFilters): seq<Criterion> {
    Step(f.montant_operation.Some?, MontantOperation(f.montant_operation.GetOr(0)))
    + Step(f.duree.Some?, Duree(f.duree.GetOr(0)))
    + Step(f.numero_client.Some?, NumeroClient(f.numero_client.GetOr(0)))
    + Step(f.accord.Some?, Accord(f.accord.GetOr("")))
    + Step(f.numero_agence.Some?, NumeroAgence(f.numero_agence.GetOr(0)))
    + Step(f.duree_de_traitement.Some?, DureeDeTraitement(f.duree_de_traitement.GetOr(0)))
    + Step(f.code_accord.Some?, CodeAccord(f.code_accord.GetOr(0)))
  }

  /** The filters' meaning stated field by field: a filter left as None constrains nothing. */
  predicate Satisfies(f: DemandeFilters, d: Demande) {
    && (f.montant_operation.Some? ==> d.montant_operation == f.montant_operation)
    && (f.duree.Some? ==> d.duree == f.duree)
    && (f.numero_client.Some? ==> d.numero_client == f.numero_client)
    && (f.accord.Some? ==> AccordMatches(f.accord.value, d.accord))
    && (f.numero_agence.Some? ==> d.numero_agence == f.numero_agence)
    && (f.duree_de_traitement.Some? ==> d.duree_de_traitement == f.duree_de_traitement)
    && (f.code_accord.Some? ==> d.code_accord == f.code_accord)
  }

  /** A row passes an optional step when the step is absent or the row passes it. */
  lemma StepMeaning(supplied: bool, c: Criterion, d: Demande)
    ensures SatisfiesAll(Step(supplied, c), d) <==> (supplied ==> Holds(c, d))
  {
    if supplied { SatisfiesAllOne(c, d); }
  }

  /** An equality step built from a supplied filter value compares the column with that value. */
  lemma SameValue(filter: Option<int>, column: Option<int>)
    ensures (filter.Some? ==> column == Some(filter.GetOr(0))) <==> (filter.Some? ==> column == filter)
  {
  }

  /** Applying the steps one after the other is the conjunction of the supplied filters. */
  lemma CriteriaMeanSatisfies(f: DemandeFilters, d: Demande)
    ensures SatisfiesAll(Criteria(f), d) <==> Satisfies(f, d)
  {
    var c1 := Step(f.montant_operation.Some?, MontantOperation(f.montant_operation.GetOr(0)));
    var c2 := Step(f.duree.Some?, Duree(f.duree.GetOr(0)));
    var c3 := Step(f.numero_client.Some?, NumeroClient(f.numero_client.GetOr(0)));
    var c4 := Step(f.accord.Some?, Accord(f.accord.GetOr("")));
    var c5 := Step(f.numero_agence.Some?, NumeroAgence(f.numero_agence.GetOr(0)));
    var c6 := Step(f.duree_de_traitement.Some?, DureeDeTraitement(f.duree_de_traitement.GetOr(0)));
    var c7 := Step(f.code_accord.Some?, CodeAccord(f.code_accord.GetOr(0)));
    StepMeaning(f.montant_operation.Some?, MontantOperation(f.montant_operation.GetOr(0)), d);
    StepMeaning(f.duree.Some?, Duree(f.duree.GetOr(0)), d);
    StepMeaning(f.numero_client.Some?, NumeroClient(f.numero_client.GetOr(0)), d);
    StepMeaning(f.accord.Some?, Accord(f.accord.GetOr("")), d);
    StepMeaning(f.numero_agence.Some?, NumeroAgence(f.numero_agence.GetOr(0)), d);
    StepMeaning(f.duree_de_traitement.Some?, DureeDeTraitement(f.duree_de_traitement.GetOr(0)), d);
    StepMeaning(f.code_accord.Some?, CodeAccord(f.code_accord.GetOr(0)), d);
    SameValue(f.montant_operation, d.montant_operation);
    SameValue(f.duree, d.duree);
    SameValue(f.numero_client, d.numero_client);
    assert f.accord.Some? ==> f.accord.GetOr("") == f.accord.value;
    SameValue(f.numero_agence, d.numero_agence);
    SameValue(f.duree_de_traitement, d.duree_de_traitement);
    SameValue(f.code_accord, d.code_accord);
    SatisfiesAllAppend(c1, c2, d);
    SatisfiesAllAppend(c1 + c2, c3, d);
    SatisfiesAllAppend(c1 + c2 + c3, c4, d);
    SatisfiesAllAppend(c1 + c2 + c3 + c4, c5, d);
    SatisfiesAllAppend(c1 + c2 + c3 + c4 + c5, c6, d);
    SatisfiesAllAppend(c1 + c2 + c3 + c4 + c5 + c6, c7, d);
  }

  /**
   * The first supplied filter, in the order `get_demandes` evaluates them,
   * whose column `Demande` does not have.
   */
  function UnsupportedFilter(f: DemandeFilters): (r: Option<string>)
    ensures r.None? <==>
      f.date_de_demande.None? && f.date_de_cloture.None? && f.score_emprunteur.None? && f.montant_prete.None?
    ensures r.Some? ==> r.value !in DemandeAttributes
  {
    if f.date_de_demande.Some? then Some("date_de_demande")
    else if f.date_de_cloture.Some? then Some("date_de_cloture")
    else if f.score_emprunteur.Some? then Some("score_emprunteur")
    else if f.montant_prete.Some? then Some("montant_prete")
    else None
  }

  /** The applications satisfying every supplied filter, in store order. */
  function Matching(s: Store, f: DemandeFilters): (r: seq<Demande>)
    ensures forall d :: d in r <==> d in s.demandes && Satisfies(f, d)
  {
    var r := Select(s.demandes, Criteria(f));
    SelectMembers(s.demandes, Criteria(f));
    forall d ensures SatisfiesAll(Criteria(f), d) <==> Satisfies(f, d) { CriteriaMeanSatisfies(f, d); }
    r
  }

  /**
   * What `get_demandes` returns: an error when a filter on a missing column is
   * supplied, otherwise the `skip`/`limit` page of the matching applications.
   */
  function DemandesQuery(s: Store, skip: nat, limit: nat, f: DemandeFilters): (r: Result<seq<Demande>, QueryError>)
    ensures r.Err? <==> UnsupportedFilter(f).Some?
    ensures r.Err? ==> r.error == MissingAttribute(UnsupportedFilter(f).value)
    ensures r.Ok? ==> |r.value| <= limit
    ensures r.Ok? ==> forall d :: d in r.value ==> d in s.demandes && Satisfies(f, d)
  {
    match UnsupportedFilter(f)
    case Some(name) => Err(MissingAttribute(name))
    case None => Ok(Page(Matching(s, f), skip, limit))
  }

  /**
   * One `if <filter> is not None: query = query.filter(...)` block of
   * `get_demandes`: `query` is the selection of `rows` by the steps applied so
   * far, and stays so after the step is applied or skipped.
   */
  method Narrow(ghost rows: seq<Demande>, query: seq<Demande>, ghost applied: seq<Criterion>, supplied: bool, c: Criterion)
    returns (narrowed: seq<Demande>, ghost now: seq<Criterion>)
    requires query == Select(rows, applied)
    ensures now == applied + Step(supplied, c)
    ensures narrowed == Select(rows, now)
  {
    narrowed, now := query, applied;
    if supplied {
      SelectRefine(rows, applied, c);
      narrowed, now := Select(query, [c]), applied + [c];
    } else {
      assert applied + [] == applied;
    }
  }

  /** `get_demandes`: the query is narrowed by one `.filter` per supplied parameter, then paged. */
  method GetDemandes(s: Store, skip: nat, limit: nat, f: DemandeFilters) returns (r: Result<seq<Demande>, QueryError>)
    ensures r == DemandesQuery(s, skip, limit, f)
  {
    // `applied` lists the steps taken so far; `query` is always their selection.
    var query := s.demandes;
    ghost var applied: seq<Criterion> := [];
    SelectNothing(s.demandes);
    query, applied := Narrow(s.demandes, query, applied, f.montant_operation.Some?, MontantOperation(f.montant_operation.GetOr(0)));
    assert applied == Step(f.montant_operation.Some?, MontantOperation(f.montant_operation.GetOr(0)));
    query, applied := Narrow(s.demandes, query, applied, f.duree.Some?, Duree(f.duree.GetOr(0)));
    // `Demande` has no `date_de_demande` column: evaluating the filter raises.
    if f.date_de_demande.Some? {
      return Err(MissingAttribute("date_de_demande"));
    }
    // Nor a `date_de_cloture` column.
    if f.date_de_cloture.Some? {
      return Err(MissingAttribute("date_de_cloture"));
    }
    query, applied := Narrow(s.demandes, query, applied, f.numero_client.Some?, NumeroClient(f.numero_client.GetOr(0)));
    query, applied := Narrow(s.demandes, query, applied, f.accord.Some?, Accord(f.accord.GetOr("")));
    query, applied := Narrow(s.demandes, query, applied, f.numero_agence.Some?, NumeroAgence(f.numero_agence.GetOr(0)));
    query, applied := Narrow(s.demandes, query, applied, f.duree_de_traitement.Some?, DureeDeTraitement(f.duree_de_traitement.GetOr(0)));
    query, applied := Narrow(s.demandes, query, applied, f.code_accord.Some?, CodeAccord(f.code_accord.GetOr(0)));
    // Nor `score_emprunteur`, nor `montant_prete`.
    if f.score_emprunteur.Some? {
      return Err(MissingAttribute("score_emprunteur"));
    }
    if f.montant_prete.Some? {
      return Err(MissingAttribute("montant_prete"));
    }
    assert applied == Criteria(f);
    r := Ok(Page(query, skip, limit));
  }

  /** The four filters that fail name attributes `Demande` lacks; the seven that work name columns it has. */
  lemma UnsupportedFiltersAreNotColumns()
    ensures "date_de_demande" !in DemandeAttributes && "date_de_cloture" !in DemandeAttributes
    ensures "score_emprunteur" !in DemandeAttributes && "montant_prete" !in DemandeAttributes
    ensures "montant_operation" in DemandeAttributes && "duree" in DemandeAttributes
    ensures "numero_client" in DemandeAttributes && "accord" in DemandeAttributes
    ensures "numero_agence" in DemandeAttributes && "duree_de_traitement" in DemandeAttributes
    ensures "code_accord" in DemandeAttributes
  {
  }

  /** With every filter left as None the result is the plain `skip`/`limit` page of the whole table. */
  lemma NoFiltersIsPlainPage(s: Store, skip: nat, limit: nat)
    ensures DemandesQuery(s, skip, limit, NoFilters) == Ok(Page(s.demandes, skip, limit))
  {
    assert Criteria(NoFilters) == [];
    SelectNothing(s.demandes);
  }

  /** Every matching application that lies in the requested window is returned, at its place. */
  lemma DemandesQueryIsWindowOfMatches(s: Store, skip: nat, limit: nat, f: DemandeFilters, i: nat)
    requires UnsupportedFilter(f).None?
    requires skip <= i < skip + limit && i < |Matching(s, f)|
    ensures DemandesQuery(s, skip, limit, f).Ok?
    ensures DemandesQuery(s, skip, limit, f).value[i - skip] == Matching(s, f)[i]
  {
  }

  /** The matches keep store order: matches from an earlier part of the table come first. */
  lemma MatchingKeepsStoreOrder(s: Store, f: DemandeFilters, n: nat)
    requires n <= |s.demandes|
    ensures Matching(s, f) == Matching(s.(demandes := s.demandes[..n]), f) + Matching(s.(demandes := s.demandes[n..]), f)
  {
    assert s.demandes == s.demandes[..n] + s.demandes[n..];
    SelectAppend(s.demandes[..n], s.demandes[n..], Criteria(f));
  }

  /** Selecting from a table with unique application numbers keeps them unique. */
  lemma SelectKeepsKeysUnique(rows: seq<Demande>, cs: seq<Criterion>)
    requires UniqueKeys(rows, DemandeKey)
    ensures UniqueKeys(Select(rows, cs), DemandeKey)
  {
    FilterKeepsKeysUnique(rows, DemandeKey, Passing(cs));
  }

  /** `accord` matching ignores letter case on both sides, and a NULL `accord` never matches. */
  lemma AccordIgnoresCase(pattern: string, value: string)
    ensures AccordMatches(pattern, Some(value)) == AccordMatches(Lower(pattern), Some(Lower(value)))
    ensures !AccordMatches(pattern, None)
  {
    LowerIdempotent(pattern);
    LowerIdempotent(value);
  }

  /** The filter "OUI" keeps a row whose `accord` is "oui" or "Oui". */
  lemma AccordOuiExample()
    ensures AccordMatches("OUI", Some("oui")) && AccordMatches("OUI", Some("Oui"))
  {
    assert Lower("OUI") == "oui";
    assert Lower("Oui") == "oui";
    assert OccursAt("oui", "oui", 0);
  }

  // ---------------------------------------------------------------------------
  // Lookups and plain lists
  // ---------------------------------------------------------------------------

  /** `get_agence`. */
  function GetAgence(s: Store, agence_id: int): (r: Option<Agence>)
    ensures r.Some? ==> r.value in s.agences && r.value.numero_agence == agence_id
    ensures r.None? <==> forall a :: a in s.agences ==> a.numero_agence != agence_id
  {
    Lookup(s.agences, AgenceKey, agence_id)
  }

  /** `get_situation_pro`. */
  function GetSituationPro(s: Store, client_id: int): (r: Option<SituationPro>)
    ensures r.Some? ==> r.value in s.situations_pro && r.value.numero_client == client_id
    ensures r.None? <==> forall p :: p in s.situations_pro ==> p.numero_client != client_id
  {
    Lookup(s.situations_pro, SituationProKey, client_id)
  }

  /** `get_situation_famille`. */
  function GetSituationFamille(s: Store, client_id: int): (r: Option<SituationFamille>)
    ensures r.Some? ==> r.value in s.situations_famille && r.value.numero_client == client_id
    ensures r.None? <==> forall f :: f in s.situations_famille ==> f.numero_client != client_id
  {
    Lookup(s.situations_famille, SituationFamilleKey, client_id)
  }

  /** `get_apport`. */
  function GetApport(s: Store, demande_id: int): (r: Option<Apport>)
    ensures r.Some? ==> r.value in s.apports && r.value.numero_demande == demande_id
    ensures r.None? <==> forall a :: a in s.apports ==> a.numero_demande != demande_id
  {
    Lookup(s.apports, ApportKey, demande_id)
  }

  /** `get_demande_by_id`, reading the flat table `all_demandes`. */
  function GetDemandeById(s: Store, numero_demande: int): (r: Option<AllDemande>)
    ensures r.Some? ==> r.value in s.all_demandes && r.value.numero_demande == numero_demande
    ensures r.None? <==> forall x :: x in s.all_demandes ==> x.numero_demande != numero_demande
  {
    Lookup(s.all_demandes, AllDemandeKey, numero_demande)
  }

  /** In a valid store every lookup by key returns exactly the row carrying that key. */
  lemma LookupsAreExact(s: Store, id: int)
    requires Valid(s)
    ensures forall a :: a in s.agences && a.numero_agence == id ==> GetAgence(s, id) == Some(a)
    ensures forall p :: p in s.situations_pro && p.numero_client == id ==> GetSituationPro(s, id) == Some(p)
    ensures forall f :: f in s.situations_famille && f.numero_client == id ==> GetSituationFamille(s, id) == Some(f)
    ensures forall a :: a in s.apports && a.numero_demande == id ==> GetApport(s, id) == Some(a)
    ensures forall x :: x in s.all_demandes && x.numero_demande == id ==> GetDemandeById(s, id) == Some(x)
  {
    forall a | a in s.agences && a.numero_agence == id ensures GetAgence(s, id) == Some(a) {
      LookupExact(s.agences, AgenceKey, id, a);
    }
    forall p | p in s.situations_pro && p.numero_client == id ensures GetSituationPro(s, id) == Some(p) {
      LookupExact(s.situations_pro, SituationProKey, id, p);
    }
    forall f | f in s.situations_famille && f.numero_client == id ensures GetSituationFamille(s, id) == Some(f) {
      LookupExact(s.situations_famille, SituationFamilleKey, id, f);
    }
    forall a | a in s.apports && a.numero_demande == id ensures GetApport(s, id) == Some(a) {
      LookupExact(s.apports, ApportKey, id, a);
    }
    forall x | x in s.all_demandes && x.numero_demande == id ensures GetDemandeById(s, id) == Some(x) {
      LookupExact(s.all_demandes, AllDemandeKey, id, x);
    }
  }

  /** `get_agences`: the rows from position `skip` on, at most `limit` of them. */
  function GetAgences(s: Store, skip: nat, limit: nat): (r: seq<Agence>)
    ensures |r| <= limit && |r| == if skip < |s.agences| then Min(limit, |s.agences| - skip) else 0
    ensures forall i :: 0 <= i < |r| ==> r[i] == s.agences[skip + i]
  {
    Page(s.agences, skip, limit)
  }

  /** `get_situations_pro`. */
  function GetSituationsPro(s: Store, skip: nat, limit: nat): (r: seq<SituationPro>)
    ensures |r| <= limit && |r| == if skip < |s.situations_pro| then Min(limit, |s.situations_pro| - skip) else 0
    ensures forall i :: 0 <= i < |r| ==> r[i] == s.situations_pro[skip + i]
  {
    Page(s.situations_pro, skip, limit)
  }

  /** `get_situations_famille`. */
  function GetSituationsFamille(s: Store, skip: nat, limit: nat): (r: seq<SituationFamille>)
    ensures |r| <= limit && |r| == if skip < |s.situations_famille| then Min(limit, |s.situations_famille| - skip) else 0
    ensures forall i :: 0 <= i < |r| ==> r[i] == s.situations_famille[skip + i]
  {
    Page(s.situations_famille, skip, limit)
  }

  /** `get_apports`. */
  function GetApports(s: Store, skip: nat, limit: nat): (r: seq<Apport>)
    ensures |r| <= limit && |r| == if skip < |s.apports| then Min(limit, |s.apports| - skip) else 0
    ensures forall i :: 0 <= i < |r| ==> r[i] == s.apports[skip + i]
  {
    Page(s.apports, skip, limit)
  }

  /** `get_all_demandes`, reading the flat table `all_demandes`. */
  function GetAllDemandes(s: Store, skip: nat, limit: nat): (r: seq<AllDemande>)
    ensures |r| <= limit && |r| == if skip < |s.all_demandes| then Min(limit, |s.all_demandes| - skip) else 0
    ensures forall i :: 0 <= i < |r| ==> r[i] == s.all_demandes[skip + i]
  {
    Page(s.all_demandes, skip, limit)
  }

  // ---------------------------------------------------------------------------
  // The flat-table helpers as written: they name `models.AllDB`
  // ---------------------------------------------------------------------------

  /** `get_all_demandes` as written: the query names `models.AllDB`, which the models module does not define. */
  function GetAllDemandesAsWritten(s: Store, skip: nat, limit: nat): (r: Result<seq<AllDemande>, QueryError>)
    ensures r == Err(MissingAttribute("AllDB"))
  {
    if "AllDB" in ModelClasses then Ok(GetAllDemandes(s, skip, limit)) else Err(MissingAttribute("AllDB"))
  }

  /** `get_demande_by_id` as written, naming `models.AllDB` too. */
  function GetDemandeByIdAsWritten(s: Store, numero_demande: int): (r: Result<Option<AllDemande>, QueryError>)
    ensures r == Err(MissingAttribute("AllDB"))
  {
    if "AllDB" in ModelClasses then Ok(GetDemandeById(s, numero_demande)) else Err(MissingAttribute("AllDB"))
  }

  /**
   * As written, both flat-table helpers fail on every store, even one whose
   * flat table holds the requested row, which the helpers over the class
   * `All_demande` return.
   */
  lemma AllDbNameMismatch(row: AllDemande)
    ensures "AllDB" !in ModelClasses && "All_demande" in ModelClasses
    ensures forall s: Store, skip: nat, limit: nat :: GetAllDemandesAsWritten(s, skip, limit) == Err(MissingAttribute("AllDB"))
    ensures forall s: Store, id: int :: GetDemandeByIdAsWritten(s, id) == Err(MissingAttribute("AllDB"))
    ensures var s := EmptyStore.(all_demandes := [row]);
      GetDemandeById(s, row.numero_demande) == Some(row) && GetAllDemandes(s, 0, 100) == [row]
  {
    var s := EmptyStore.(all_demandes := [row]);
    assert GetAllDemandes(s, 0, 100) == [row];
  }

  // ---------------------------------------------------------------------------
  // Counts
  // ---------------------------------------------------------------------------

  function GetDemandeCount(s: Store): nat { |s.demandes| }
  function GetAgenceCount(s: Store): nat { |s.agences| }
  function GetSituationProCount(s: Store): nat { |s.situations_pro| }
  function GetSituationFamilleCount(s: Store): nat { |s.situations_famille| }
  function GetApportCount(s: Store): nat { |s.apports| }

  /** In a valid store each count is the number of distinct keys in its table. */
  lemma CountsAreDistinctKeys(s: Store)
    requires Valid(s)
    ensures GetDemandeCount(s) == |Keys(s.demandes, DemandeKey)|
    ensures GetAgenceCount(s) == |Keys(s.agences, AgenceKey)|
    ensures GetSituationProCount(s) == |Keys(s.situations_pro, SituationProKey)|
    ensures GetSituationFamilleCount(s) == |Keys(s.situations_famille, SituationFamilleKey)|
    ensures GetApportCount(s) == |Keys(s.apports, ApportKey)|
  {
    UniqueKeysCount(s.demandes, DemandeKey);
    UniqueKeysCount(s.agences, AgenceKey);
    UniqueKeysCount(s.situations_pro, SituationProKey);
    UniqueKeysCount(s.situations_famille, SituationFamilleKey);
    UniqueKeysCount(s.apports, ApportKey);
  }
}
