/**
 * The HTTP handlers as functions from the store and the request parameters
 * to a response: parameter defaults and declared bounds, forwarding to the
 * helpers, the not-found mapping of the single-item routes, and the analytics
 * object.
 */
module Api {
  import opened Wrappers
  import opened Text
  import opened Tables
  import opened Models
  import opened QueryHelpers

  /** What a handler produces. */
  datatype Response<T> =
    | Body(value: T)                       // 200 with the row(s)
    | NotFound(detail: string)             // HTTPException with status 404 and this detail
    | ErrorPayload(error: string)          // a 200 body {"error": ...} instead of a row
    | Unprocessable(fields: seq<string>)   // query parameters outside their declared bounds
    | ServerError(cause: QueryError)       // an exception raised inside the helper
    | BackendDefined                       // a negative OFFSET or LIMIT reached the database

  const DefaultSkip := 0
  const DefaultLimit := 100
  const MaxLimit := 1000

  /** The paging parameters after validation. */
  datatype Paging = Rejected(fields: seq<string>) | ToBackend | Accepted(skip: nat, limit: nat)

  /**
   * `skip: int = Query(0, ge=0)` and `limit: int = Query(100, le=1000)`: an
   * absent parameter takes its default; `skip < 0` and `limit > 1000` are
   * refused; a negative `limit` passes, with no lower bound.
   */
  function BoundedPaging(skip: Option<int>, limit: Option<int>): (p: Paging)
    ensures var sk, li := skip.GetOr(DefaultSkip), limit.GetOr(DefaultLimit);
      && (p.Rejected? <==> sk < 0 || li > MaxLimit)
      && (p.Rejected? ==> ("skip" in p.fields <==> sk < 0) && ("limit" in p.fields <==> li > MaxLimit))
      && (p.ToBackend? <==> 0 <= sk && li < 0)
      && (p.Accepted? ==> p.skip == sk && p.limit == li && p.limit <= MaxLimit)
  {
    var sk, li := skip.GetOr(DefaultSkip), limit.GetOr(DefaultLimit);
    var refused := (if sk < 0 then ["skip"] else []) + (if li > MaxLimit then ["limit"] else []);
    if refused != [] then Rejected(refused)
    else if li < 0 then ToBackend
    else Accepted(sk, li)
  }

  /** `skip: int = 0, limit: int = 100` with no declared bounds: nothing is refused. */
  function UnboundedPaging(skip: Option<int>, limit: Option<int>): (p: Paging)
    ensures !p.Rejected?
    ensures var sk, li := skip.GetOr(DefaultSkip), limit.GetOr(DefaultLimit);
      && (p.Accepted? <==> 0 <= sk && 0 <= li)
      && (p.Accepted? ==> p.skip == sk && p.limit == li)
  {
    var sk, li := skip.GetOr(DefaultSkip), limit.GetOr(DefaultLimit);
    if sk < 0 || li < 0 then ToBackend else Accepted(sk, li)
  }

  /** Absent parameters mean the first hundred rows; 5000 is refused; -1 is let through. */
  lemma PagingExamples()
    ensures BoundedPaging(None, None) == Accepted(0, 100)
    ensures BoundedPaging(None, Some(5000)) == Rejected(["limit"])
    ensures BoundedPaging(Some(-1), Some(5000)) == Rejected(["skip", "limit"])
    ensures BoundedPaging(None, Some(-1)) == ToBackend
    ensures UnboundedPaging(None, Some(5000)) == Accepted(0, 5000)
  {
  }

  /** The 404 response for a lookup that found no row, or the row itself. */
  function FoundOr404<T>(row: Option<T>, detail: string): (r: Response<T>)
    ensures r.Body? <==> row.Some?
    ensures r.Body? ==> r.value == row.value
    ensures r.NotFound? <==> row.None?
    ensures r.NotFound? ==> r.detail == detail
  {
    match row
    case Some(x) => Body(x)
    case None => NotFound(detail)
  }

  // ---------------------------------------------------------------------------
  // /demandes
  // ---------------------------------------------------------------------------

  /** `GET /demandes/{demande_id}`. */
  function ReadDemande(s: Store, demande_id: int): (r: Response<DemandeDetailed>)
    ensures r.Body? || r.NotFound?
    ensures r.NotFound? <==> demande_id !in Keys(s.demandes, DemandeKey)
    ensures r.NotFound? ==> r.detail == Message("Demande ", demande_id, " non trouvée")
    ensures r.Body? ==> r.value.demande in s.demandes && r.value.demande.numero_demande == demande_id
    ensures r.Body? ==> Some(r.value) == GetDemande(s, demande_id)
    ensures r.Body? ==> && r.value.agence == AgenceOf(s, r.value.demande)
                        && r.value.client == ClientOf(s, r.value.demande)
                        && r.value.apport == ApportOf(s, r.value.demande)
  {
    FoundOr404(GetDemande(s, demande_id), Message("Demande ", demande_id, " non trouvée"))
  }

  /**
   * `GET /demandes`: the paging parameters are checked, then every parameter
   * is passed to `get_demandes` as received.
   */
  function ListDemandes(s: Store, skip: Option<int>, limit: Option<int>, f: DemandeFilters): (r: Response<seq<Demande>>)
    ensures r.Body? || r.Unprocessable? || r.ServerError? || r.BackendDefined?
    ensures r.Unprocessable? <==> BoundedPaging(skip, limit).Rejected?
    ensures r.ServerError? <==> !BoundedPaging(skip, limit).Rejected? && UnsupportedFilter(f).Some?
    ensures r.ServerError? ==> r.cause == MissingAttribute(UnsupportedFilter(f).value)
    ensures r.Body? ==> var p := BoundedPaging(skip, limit);
      p.Accepted? && DemandesQuery(s, p.skip, p.limit, f) == Ok(r.value)
    ensures r.Body? <==> BoundedPaging(skip, limit).Accepted? && UnsupportedFilter(f).None?
    ensures r.BackendDefined? <==> BoundedPaging(skip, limit).ToBackend? && UnsupportedFilter(f).None?
  {
    match BoundedPaging(skip, limit)
    case Rejected(fields) => Unprocessable(fields)
    case ToBackend =>
      // The helper evaluates its filters before the negative limit reaches the database.
      (match UnsupportedFilter(f)
       case Some(name) => ServerError(MissingAttribute(name))
       case None => BackendDefined)
    case Accepted(sk, li) =>
      (match DemandesQuery(s, sk, li, f)
       case Ok(rows) => Body(rows)
       case Err(e) => ServerError(e))
  }

  /** Within the bounds and with supported filters, `/demandes` answers with a page of the matches. */
  lemma ListDemandesIsPage(s: Store, f: DemandeFilters, skip: nat, limit: nat)
    requires UnsupportedFilter(f).None? && limit <= MaxLimit
    ensures ListDemandes(s, Some(skip), Some(limit), f) == Body(Page(Matching(s, f), skip, limit))
  {
    assert BoundedPaging(Some(skip), Some(limit)) == Accepted(skip, limit);
    assert DemandesQuery(s, skip, limit, f) == Ok(Page(Matching(s, f), skip, limit));
  }

  /**
   * Two consecutive pages of `/demandes` under the same filters share no
   * application and reassemble into the page spanning both.
   */
  lemma ConsecutiveDemandePages(s: Store, f: DemandeFilters, n: nat)
    requires Valid(s) && UnsupportedFilter(f).None? && n <= MaxLimit
    ensures ListDemandes(s, Some(0), Some(n), f).Body? && ListDemandes(s, Some(n), Some(n), f).Body?
    ensures var first, second := ListDemandes(s, Some(0), Some(n), f).value, ListDemandes(s, Some(n), Some(n), f).value;
      && Keys(first, DemandeKey) !! Keys(second, DemandeKey)
      && first + second == Page(Matching(s, f), 0, 2 * n)
      && (2 * n <= MaxLimit ==> first + second == ListDemandes(s, Some(0), Some(2 * n), f).value)
  {
    ListDemandesIsPage(s, f, 0, n);
    ListDemandesIsPage(s, f, n, n);
    if 2 * n <= MaxLimit {
      ListDemandesIsPage(s, f, 0, 2 * n);
    }
    MatchingPages(s, f, n);
  }

  /** Under unique application numbers, consecutive pages of the matches are key-disjoint and join up. */
  lemma MatchingPages(s: Store, f: DemandeFilters, n: nat)
    requires UniqueKeys(s.demandes, DemandeKey)
    ensures var m := Matching(s, f);
      && Keys(Page(m, 0, n), DemandeKey) !! Keys(Page(m, n, n), DemandeKey)
      && Page(m, 0, n) + Page(m, n, n) == Page(m, 0, 2 * n)
  {
    MatchingKeysUnique(s, f);
    PageHalves(Matching(s, f), DemandeKey, n);
  }

  /** Filtering keeps application numbers unique. */
  lemma MatchingKeysUnique(s: Store, f: DemandeFilters)
    requires UniqueKeys(s.demandes, DemandeKey)
    ensures UniqueKeys(Matching(s, f), DemandeKey)
  {
    SelectKeepsKeysUnique(s.demandes, Criteria(f));
  }

  // ---------------------------------------------------------------------------
  // /agences, /situations_pro, /situations_famille, /apports
  // ---------------------------------------------------------------------------

  /** `GET /agences`. */
  function ListAgences(s: Store, skip: Option<int>, limit: Option<int>): (r: Response<seq<Agence>>)
    ensures r.Body? || r.Unprocessable? || r.BackendDefined?
    ensures r.Unprocessable? <==> BoundedPaging(skip, limit).Rejected?
    ensures r.Body? ==> var p := BoundedPaging(skip, limit);
      p.Accepted? && r.value == GetAgences(s, p.skip, p.limit) && |r.value| <= MaxLimit
    ensures r.Body? <==> BoundedPaging(skip, limit).Accepted?
    ensures r.BackendDefined? <==> BoundedPaging(skip, limit).ToBackend?
  {
    match BoundedPaging(skip, limit)
    case Rejected(fields) => Unprocessable(fields)
    case ToBackend => BackendDefined
    case Accepted(sk, li) => Body(GetAgences(s, sk, li))
  }

  /** `GET /agences/{agence_id}`. */
  function ReadAgence(s: Store, agence_id: int): (r: Response<Agence>)
    ensures r.Body? || r.NotFound?
    ensures r.NotFound? <==> forall a :: a in s.agences ==> a.numero_agence != agence_id
    ensures r.NotFound? ==> r.detail == Message("Agence ", agence_id, " non trouvée")
    ensures r.Body? ==> r.value in s.agences && r.value.numero_agence == agence_id
  {
    FoundOr404(GetAgence(s, agence_id), Message("Agence ", agence_id, " non trouvée"))
  }

  /** `GET /situations_pro`. */
  function ListSituationsPro(s: Store, skip: Option<int>, limit: Option<int>): (r: Response<seq<SituationPro>>)
    ensures r.Body? || r.Unprocessable? || r.BackendDefined?
    ensures r.Unprocessable? <==> BoundedPaging(skip, limit).Rejected?
    ensures r.Body? ==> var p := BoundedPaging(skip, limit);
      p.Accepted? && r.value == GetSituationsPro(s, p.skip, p.limit) && |r.value| <= MaxLimit
    ensures r.Body? <==> BoundedPaging(skip, limit).Accepted?
    ensures r.BackendDefined? <==> BoundedPaging(skip, limit).ToBackend?
  {
    match BoundedPaging(skip, limit)
    case Rejected(fields) => Unprocessable(fields)
    case ToBackend => BackendDefined
    case Accepted(sk, li) => Body(GetSituationsPro(s, sk, li))
  }

  /** `GET /situations_pro/{client_id}`. */
  function ReadSituationPro(s: Store, client_id: int): (r: Response<SituationPro>)
    ensures r.Body? || r.NotFound?
    ensures r.NotFound? <==> forall p :: p in s.situations_pro ==> p.numero_client != client_id
    ensures r.NotFound? ==> r.detail == Message("Situation pro du client ", client_id, " non trouvée")
    ensures r.Body? ==> r.value in s.situations_pro && r.value.numero_client == client_id
  {
    FoundOr404(GetSituationPro(s, client_id), Message("Situation pro du client ", client_id, " non trouvée"))
  }

  /** `GET /situations_famille`. */
  function ListSituationsFamille(s: Store, skip: Option<int>, limit: Option<int>): (r: Response<seq<SituationFamille>>)
    ensures r.Body? || r.Unprocessable? || r.BackendDefined?
    ensures r.Unprocessable? <==> BoundedPaging(skip, limit).Rejected?
    ensures r.Body? ==> var p := BoundedPaging(skip, limit);
      p.Accepted? && r.value == GetSituationsFamille(s, p.skip, p.limit) && |r.value| <= MaxLimit
    ensures r.Body? <==> BoundedPaging(skip, limit).Accepted?
    ensures r.BackendDefined? <==> BoundedPaging(skip, limit).ToBackend?
  {
    match BoundedPaging(skip, limit)
    case Rejected(fields) => Unprocessable(fields)
    case ToBackend => BackendDefined
    case Accepted(sk, li) => Body(GetSituationsFamille(s, sk, li))
  }

  /** `GET /situations_famille/{client_id}`. */
  function ReadSituationFamille(s: Store, client_id: int): (r: Response<SituationFamille>)
    ensures r.Body? || r.NotFound?
    ensures r.NotFound? <==> forall f :: f in s.situations_famille ==> f.numero_client != client_id
    ensures r.NotFound? ==> r.detail == Message("Situation familiale du client ", client_id, " non trouvée")
    ensures r.Body? ==> r.value in s.situations_famille && r.value.numero_client == client_id
  {
    FoundOr404(GetSituationFamille(s, client_id), Message("Situation familiale du client ", client_id, " non trouvée"))
  }

  /** `GET /apports`. */
  function ListApports(s: Store, skip: Option<int>, limit: Option<int>): (r: Response<seq<Apport>>)
    ensures r.Body? || r.Unprocessable? || r.BackendDefined?
    ensures r.Unprocessable? <==> BoundedPaging(skip, limit).Rejected?
    ensures r.Body? ==> var p := BoundedPaging(skip, limit);
      p.Accepted? && r.value == GetApports(s, p.skip, p.limit) && |r.value| <= MaxLimit
    ensures r.Body? <==> BoundedPaging(skip, limit).Accepted?
    ensures r.BackendDefined? <==> BoundedPaging(skip, limit).ToBackend?
  {
    match BoundedPaging(skip, limit)
    case Rejected(fields) => Unprocessable(fields)
    case ToBackend => BackendDefined
    case Accepted(sk, li) => Body(GetApports(s, sk, li))
  }

  /** `GET /apports/{demande_id}`. */
  function ReadApport(s: Store, demande_id: int): (r: Response<Apport>)
    ensures r.Body? || r.NotFound?
    ensures r.NotFound? <==> forall a :: a in s.apports ==> a.numero_demande != demande_id
    ensures r.NotFound? ==> r.detail == Message("Apport pour demande ", demande_id, " non trouvé")
    ensures r.Body? ==> r.value in s.apports && r.value.numero_demande == demande_id
  {
    FoundOr404(GetApport(s, demande_id), Message("Apport pour demande ", demande_id, " non trouvé"))
  }

  /** A 404 detail names the requested key: two requests get the same detail only for the same id. */
  lemma NotFoundDetailNamesKey(s: Store, a: int, b: int)
    requires ReadDemande(s, a).NotFound? && ReadDemande(s, b).NotFound?
    requires ReadDemande(s, a).detail == ReadDemande(s, b).detail
    ensures a == b
  {
    MessageIdentifiesId("Demande ", " non trouvée", a, b);
  }

  // ---------------------------------------------------------------------------
  // /all_demandes (the flat ML table)
  // ---------------------------------------------------------------------------

  /** `GET /all_demandes/`: defaults 0 and 100, no bounds. */
  function ListAllDemandes(s: Store, skip: Option<int>, limit: Option<int>): (r: Response<seq<AllDemande>>)
    ensures r.Body? || r.BackendDefined?
    ensures r.Body? <==> UnboundedPaging(skip, limit).Accepted?
    ensures r.Body? ==> var p := UnboundedPaging(skip, limit);
      r.value == GetAllDemandes(s, p.skip, p.limit)
  {
    match UnboundedPaging(skip, limit)
    case Accepted(sk, li) => Body(GetAllDemandes(s, sk, li))
    case _ => BackendDefined
  }

  /** `GET /all_demandes/{numero_demande}`: a missing row yields an error payload, never a 404. */
  function ReadAllDemande(s: Store, numero_demande: int): (r: Response<AllDemande>)
    ensures r.Body? || r.ErrorPayload?
    ensures r.ErrorPayload? <==> forall x :: x in s.all_demandes ==> x.numero_demande != numero_demande
    ensures r.ErrorPayload? ==> r.error == "Demande non trouvée"
    ensures r.Body? ==> r.value in s.all_demandes && r.value.numero_demande == numero_demande
  {
    match GetDemandeById(s, numero_demande)
    case None => ErrorPayload("Demande non trouvée")
    case Some(x) => Body(x)
  }

  // ---------------------------------------------------------------------------
  // /analytics
  // ---------------------------------------------------------------------------

  datatype AnalyticsResponse = AnalyticsResponse(
    demande_count: nat,
    agence_count: nat,
    situationpro_count: nat,
    situationfamille_count: nat,
    apport_count: nat)

  /** `GET /analytics`: one counter per normalized table, each its table's row count. */
  function GetAnalytics(s: Store): (r: AnalyticsResponse)
    ensures r.demande_count == |s.demandes| && r.agence_count == |s.agences|
    ensures r.situationpro_count == |s.situations_pro| && r.situationfamille_count == |s.situations_famille|
    ensures r.apport_count == |s.apports|
  {
    AnalyticsResponse(
      demande_count := GetDemandeCount(s),
      agence_count := GetAgenceCount(s),
      situationpro_count := GetSituationProCount(s),
      situationfamille_count := GetSituationFamilleCount(s),
      apport_count := GetApportCount(s))
  }

  /**
   * In a valid store the counters count distinct keys, and the one-to-one
   * tables never outnumber the tables they hang off.
   */
  lemma AnalyticsInValidStore(s: Store)
    requires Valid(s)
    ensures var r := GetAnalytics(s);
      && r.situationfamille_count <= r.situationpro_count
      && r.apport_count <= r.demande_count
      && r.agence_count == |Keys(s.agences, AgenceKey)|
      && r.demande_count == |Keys(s.demandes, DemandeKey)|
  {
    OneToOneCardinality(s);
    CountsAreDistinctKeys(s);
  }

  /**
   * An empty store: every list is empty, every single-item route reports the
   * row missing, and every counter is zero.
   */
  lemma EmptyStoreScenario(id: int)
    ensures ListDemandes(EmptyStore, None, None, NoFilters) == Body([])
    ensures ListAgences(EmptyStore, None, None) == Body([])
    ensures ListSituationsPro(EmptyStore, None, None) == Body([])
    ensures ListSituationsFamille(EmptyStore, None, None) == Body([])
    ensures ListApports(EmptyStore, None, None) == Body([])
    ensures ListAllDemandes(EmptyStore, None, None) == Body([])
    ensures ReadDemande(EmptyStore, id).NotFound? && ReadAgence(EmptyStore, id).NotFound?
    ensures ReadSituationPro(EmptyStore, id).NotFound? && ReadSituationFamille(EmptyStore, id).NotFound?
    ensures ReadApport(EmptyStore, id).NotFound?
    ensures ReadAllDemande(EmptyStore, id) == ErrorPayload("Demande non trouvée")
    ensures GetAnalytics(EmptyStore) == AnalyticsResponse(0, 0, 0, 0, 0)
  {
    NoFiltersIsPlainPage(EmptyStore, 0, 100);
  }
}
