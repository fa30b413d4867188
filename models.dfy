/**
 * The credit-risk schema: one datatype per mapped class, the store as one
 * sequence of rows per table (in store order), the key and foreign-key
 * constraints as a well-formedness predicate, and the ORM relationships as
 * functions over the store.
 *
 * Every column that is not a primary key is nullable, as SQLAlchemy declares
 * columns by default, and is therefore an `Option`.
 */
module Models {
  import opened Wrappers
  import opened Tables

  /** A loan application (table `demandes`). */
  datatype Demande = Demande(
    numero_demande: int,
    montant_operation: Option<int>,
    duree: Option<int>,
    numero_client: Option<int>,       // foreign key to situation_pro.numero_client
    accord: Option<string>,
    numero_agence: Option<int>,       // foreign key to agences.numero_agence
    duree_de_traitement: Option<int>,
    code_accord: Option<int>)

  /** A branch (table `agences`). */
  datatype Agence = Agence(numero_agence: int, ville: Option<string>, adresse: Option<string>)

  /** A client's professional situation (table `situation_pro`). */
  datatype SituationPro = SituationPro(
    numero_client: int,
    revenu_mensuel_moyen: Option<int>,
    code_regularite_revenus: Option<int>,
    regularite_des_revenus: Option<string>,
    code_statut_emploi: Option<int>,
    regularite_emploi: Option<string>)

  /** A client's family situation (table `situation_famille`); its key is also a foreign key. */
  datatype SituationFamille = SituationFamille(
    numero_client: int,
    statut_familliale: Option<string>,
    nombre_enfants: Option<int>,
    age: Option<int>,
    nom_client: Option<string>,
    statut_activite: Option<string>)

  /** A contribution to one application (table `apports`); its key is also a foreign key. */
  datatype Apport = Apport(numero_demande: int, apport: Option<int>)

  /** A row of the denormalized ML table `all_demandes`: no foreign keys. */
  datatype AllDemande = AllDemande(
    numero_demande: int,
    montant_operation: Option<int>,
    duree: Option<int>,
    numero_client: Option<int>,
    accord: Option<string>,
    numero_agence: Option<int>,
    duree_de_traitement: Option<int>,
    code_accord: Option<int>,
    apport: Option<int>,
    revenu_mensuel_moyen: Option<int>,
    code_regularite_revenus: Option<int>,
    regularite_des_revenus: Option<string>,
    code_statut_emploi: Option<int>,
    regularite_emploi: Option<string>,
    situation_familliale: Option<string>,
    nombre_enfants: Option<int>,
    age: Option<int>,
    nom_client: Option<string>,
    statut_activite: Option<string>,
    ville: Option<string>,
    adresse: Option<string>)

  /** The whole database, one sequence per table. */
  datatype Store = Store(
    demandes: seq<Demande>,
    agences: seq<Agence>,
    situations_pro: seq<SituationPro>,
    situations_famille: seq<SituationFamille>,
    apports: seq<Apport>,
    all_demandes: seq<AllDemande>)

  const EmptyStore := Store([], [], [], [], [], [])

  // Primary keys.
  function DemandeKey(d: Demande): int { d.numero_demande }
  function AgenceKey(a: Agence): int { a.numero_agence }
  function SituationProKey(p: SituationPro): int { p.numero_client }
  function SituationFamilleKey(f: SituationFamille): int { f.numero_client }
  function ApportKey(a: Apport): int { a.numero_demande }
  function AllDemandeKey(r: AllDemande): int { r.numero_demande }

  /** A nullable foreign-key column: NULL, or a key present in the referenced table. */
  predicate References(fk: Option<int>, keys: set<int>) {
    fk.Some? ==> fk.value in keys
  }

  /** The constraints the schema declares: primary keys, foreign keys and the shared one-to-one keys. */
  ghost predicate Valid(s: Store) {
    && UniqueKeys(s.demandes, DemandeKey)
    && UniqueKeys(s.agences, AgenceKey)
    && UniqueKeys(s.situations_pro, SituationProKey)
    && UniqueKeys(s.situations_famille, SituationFamilleKey)
    && UniqueKeys(s.apports, ApportKey)
    && UniqueKeys(s.all_demandes, AllDemandeKey)
    && (forall d :: d in s.demandes ==>
          References(d.numero_client, Keys(s.situations_pro, SituationProKey))
          && References(d.numero_agence, Keys(s.agences, AgenceKey)))
    && (forall f :: f in s.situations_famille ==> f.numero_client in Keys(s.situations_pro, SituationProKey))
    && (forall a :: a in s.apports ==> a.numero_demande in Keys(s.demandes, DemandeKey))
  }

  /** The attributes a `Demande` object has: its eight columns and its three relationships. */
  const DemandeAttributes: set<string> := {
    "numero_demande", "montant_operation", "duree", "numero_client", "accord",
    "numero_agence", "duree_de_traitement", "code_accord", "agence", "client", "apport"}

  /** The mapped classes the `models` module defines. */
  const ModelClasses: set<string> := {
    "Demande", "Agence", "SituationPro", "SituationFamille", "Apport", "All_demande"}

  // ---------------------------------------------------------------------------
  // Relationships
  // ---------------------------------------------------------------------------

  /** `Demande.agence`: the branch the application's `numero_agence` designates. */
  function AgenceOf(s: Store, d: Demande): (r: Option<Agence>)
    ensures r.Some? ==> r.value in s.agences && d.numero_agence == Some(r.value.numero_agence)
    ensures r.None? <==> !(d.numero_agence.Some? && d.numero_agence.value in Keys(s.agences, AgenceKey))
  {
    match d.numero_agence
    case None => None
    case Some(k) => Lookup(s.agences, AgenceKey, k)
  }

  /** `Demande.client`: the professional situation the application's `numero_client` designates. */
  function ClientOf(s: Store, d: Demande): (r: Option<SituationPro>)
    ensures r.Some? ==> r.value in s.situations_pro && d.numero_client == Some(r.value.numero_client)
    ensures r.None? <==> !(d.numero_client.Some? && d.numero_client.value in Keys(s.situations_pro, SituationProKey))
  {
    match d.numero_client
    case None => None
    case Some(k) => Lookup(s.situations_pro, SituationProKey, k)
  }

  /** `Demande.apport` (a scalar relationship): the contribution keyed by the application's number. */
  function ApportOf(s: Store, d: Demande): (r: Option<Apport>)
    ensures r.Some? ==> r.value in s.apports && r.value.numero_demande == d.numero_demande
    ensures r.None? <==> d.numero_demande !in Keys(s.apports, ApportKey)
  {
    Lookup(s.apports, ApportKey, d.numero_demande)
  }

  /** `Agence.demandes`: the applications carrying the branch's number, in store order. */
  function DemandesOfAgence(s: Store, a: Agence): (r: seq<Demande>)
    ensures forall d :: d in r <==> d in s.demandes && d.numero_agence == Some(a.numero_agence)
  {
    var keep := (d: Demande) => d.numero_agence == Some(a.numero_agence);
    FilterMembers(s.demandes, keep);
    Filter(s.demandes, keep)
  }

  /** `SituationPro.demandes`: the applications carrying the client's number, in store order. */
  function DemandesOfClient(s: Store, p: SituationPro): (r: seq<Demande>)
    ensures forall d :: d in r <==> d in s.demandes && d.numero_client == Some(p.numero_client)
  {
    var keep := (d: Demande) => d.numero_client == Some(p.numero_client);
    FilterMembers(s.demandes, keep);
    Filter(s.demandes, keep)
  }

  /** `SituationPro.famille` (a scalar relationship): the family situation sharing the client's number. */
  function FamilleOf(s: Store, p: SituationPro): (r: Option<SituationFamille>)
    ensures r.Some? ==> r.value in s.situations_famille && r.value.numero_client == p.numero_client
    ensures r.None? <==> p.numero_client !in Keys(s.situations_famille, SituationFamilleKey)
  {
    Lookup(s.situations_famille, SituationFamilleKey, p.numero_client)
  }

  /** `SituationFamille.client`: the professional situation its key refers to. */
  function ClientOfFamille(s: Store, f: SituationFamille): (r: Option<SituationPro>)
    ensures r.Some? ==> r.value in s.situations_pro && r.value.numero_client == f.numero_client
    ensures r.None? <==> f.numero_client !in Keys(s.situations_pro, SituationProKey)
  {
    Lookup(s.situations_pro, SituationProKey, f.numero_client)
  }

  /** `Apport.demande`: the application its key refers to. */
  function DemandeOfApport(s: Store, a: Apport): (r: Option<Demande>)
    ensures r.Some? ==> r.value in s.demandes && r.value.numero_demande == a.numero_demande
    ensures r.None? <==> a.numero_demande !in Keys(s.demandes, DemandeKey)
  {
    Lookup(s.demandes, DemandeKey, a.numero_demande)
  }

  // ---------------------------------------------------------------------------
  // What the constraints guarantee
  // ---------------------------------------------------------------------------

  /** In a valid store, every non-null foreign key of an application resolves to the row it names. */
  lemma ForeignKeysResolve(s: Store, d: Demande)
    requires Valid(s) && d in s.demandes
    ensures d.numero_agence.Some? <==> AgenceOf(s, d).Some?
    ensures d.numero_client.Some? <==> ClientOf(s, d).Some?
  {
  }

  /** Each family situation and each contribution has the parent row its key refers to. */
  lemma SharedKeysResolve(s: Store)
    requires Valid(s)
    ensures forall f :: f in s.situations_famille ==> ClientOfFamille(s, f).Some?
    ensures forall a :: a in s.apports ==> DemandeOfApport(s, a).Some?
  {
  }

  /** `Agence.demandes` and `Demande.agence` are inverse views of one foreign key. */
  lemma AgenceBackPopulates(s: Store, a: Agence, d: Demande)
    requires Valid(s) && a in s.agences && d in s.demandes
    ensures d in DemandesOfAgence(s, a) <==> AgenceOf(s, d) == Some(a)
  {
    LookupExact(s.agences, AgenceKey, a.numero_agence, a);
  }

  /** `SituationPro.demandes` and `Demande.client` are inverse views of one foreign key. */
  lemma ClientBackPopulates(s: Store, p: SituationPro, d: Demande)
    requires Valid(s) && p in s.situations_pro && d in s.demandes
    ensures d in DemandesOfClient(s, p) <==> ClientOf(s, d) == Some(p)
  {
    LookupExact(s.situations_pro, SituationProKey, p.numero_client, p);
  }

  /** `SituationPro.famille` and `SituationFamille.client` form a one-to-one link. */
  lemma FamilleOneToOne(s: Store, p: SituationPro, f: SituationFamille)
    requires Valid(s) && p in s.situations_pro && f in s.situations_famille
    ensures FamilleOf(s, p) == Some(f) <==> ClientOfFamille(s, f) == Some(p)
  {
    LookupExact(s.situations_famille, SituationFamilleKey, p.numero_client, f);
    LookupExact(s.situations_pro, SituationProKey, f.numero_client, p);
  }

  /** `Demande.apport` and `Apport.demande` form a one-to-one link. */
  lemma ApportOneToOne(s: Store, d: Demande, a: Apport)
    requires Valid(s) && d in s.demandes && a in s.apports
    ensures ApportOf(s, d) == Some(a) <==> DemandeOfApport(s, a) == Some(d)
  {
    LookupExact(s.apports, ApportKey, d.numero_demande, a);
    LookupExact(s.demandes, DemandeKey, a.numero_demande, d);
  }

  /** There are never more family situations than clients, nor more contributions than applications. */
  lemma OneToOneCardinality(s: Store)
    requires Valid(s)
    ensures |s.situations_famille| <= |s.situations_pro|
    ensures |s.apports| <= |s.demandes|
  {
    assert UniqueKeys(s.situations_famille, SituationFamilleKey) && UniqueKeys(s.apports, ApportKey);
    forall k | k in Keys(s.situations_famille, SituationFamilleKey)
      ensures k in Keys(s.situations_pro, SituationProKey)
    {
      var i :| 0 <= i < |s.situations_famille| && SituationFamilleKey(s.situations_famille[i]) == k;
      assert s.situations_famille[i] in s.situations_famille;
    }
    ReferencingTableBound(s.situations_famille, SituationFamilleKey, s.situations_pro, SituationProKey);
    forall k | k in Keys(s.apports, ApportKey) ensures k in Keys(s.demandes, DemandeKey) {
      var i :| 0 <= i < |s.apports| && ApportKey(s.apports[i]) == k;
      assert s.apports[i] in s.apports;
    }
    ReferencingTableBound(s.apports, ApportKey, s.demandes, DemandeKey);
  }

  /**
   * The flat table is constrained by its own key only: replacing its rows by
   * any key-unique sequence keeps a valid store valid.
   */
  lemma FlatTableIndependent(s: Store, rows: seq<AllDemande>)
    requires Valid(s) && UniqueKeys(rows, AllDemandeKey)
    ensures Valid(s.(all_demandes := rows))
  {
  }
}
