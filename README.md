# Credit-risk read API — a Dafny model

This project models the read-only data-access layer of a small credit-risk
API: five normalized tables (applications `demandes`, branches `agences`,
professional situations `situation_pro`, family situations
`situation_famille`, contributions `apports`) and one flat ML table
(`all_demandes`), the query helpers that read them, and the HTTP handlers
that expose the helpers.

- `wrappers.dfy` (`Wrappers`): `Option` and `Result`.
- `text.dfy` (`Text`): ASCII case folding and substring search (the meaning
  of `ILIKE '%p%'`), and the decimal rendering of an `int` that the
  handlers' f-string error messages perform, with its round trip.
- `tables.dfy` (`Tables`): what the query builders mean over a table held
  as a sequence of rows in store order. `.filter(pk == id).first()` is
  `Lookup`, `.filter(...)` is `Filter` (with its order lemmas), and `.offset(skip).limit(limit)` is
  `Page`. It also holds key sets and the consequences of a primary-key
  constraint.
- `models.dfy` (`Models`): one datatype per mapped class, with the source's
  column names. Non-key columns are `Option`s because SQLAlchemy columns are
  nullable by default. The `Store` holds one sequence per table. `Valid`
  states the primary keys, the foreign keys `Demande.numero_client` and
  `Demande.numero_agence`, and the shared one-to-one keys
  `SituationFamille.numero_client` and `Apport.numero_demande`. Each ORM
  relationship is a function over the store, and lemmas show that both sides
  of each relationship agree.
- `query_helpers.dfy` (`QueryHelpers`): the helpers. `get_demandes` is a
  method that narrows its local `query` one supplied filter at a time, as
  the source does. Each `if ... : query = query.filter(...)` block is one call of `Narrow`. The method is proved equal to `DemandesQuery`: either the error
  raised by a filter on a missing column, or the `skip`/`limit` page of the
  applications that satisfy every supplied filter. The other helpers are
  functions.
- `api.dfy` (`Api`): the handlers as functions from the store and the
  request parameters to a `Response`. A response is a body, a 404 detail, an
  error payload, a refusal of out-of-bounds paging parameters, a server
  error raised inside a helper, or `BackendDefined` when a negative
  `OFFSET`/`LIMIT` reaches the database.

Behaviour the model keeps as the code has it:

- Four parameters of `get_demandes` (`date_de_demande`, `date_de_cloture`,
  `score_emprunteur`, `montant_prete`) name attributes `Demande` does not
  have. Supplying any of them raises `AttributeError` while the query is
  built, before any paging. The model returns
  `Err(MissingAttribute(name))` for the first one supplied, in the order the
  code evaluates them.
- `GET /all_demandes/{id}` answers a missing row with the payload
  `{"error": "Demande non trouvée"}`, not with a 404.
- `limit=5000` is refused (`le=1000`), not clamped. No lower bound is
  declared on `limit`.
- Pages follow store order. The code sets no `ORDER BY`.
- `main.py` defines two handlers named `read_demande` (lines 42 and 201). The
  second rebinds the Python name, but both routes are registered when they
  are declared, so the model keeps both routes: `ReadDemande` and
  `ReadAllDemande`.

## Model

| member | source | states |
|---|---|---|
| `Text.Contains` | api/query_helpers.py:59 | the substring test holds exactly when the pattern occurs at some position of the value |
| `Text.DecimalRoundTrip` | api/main.py:45 | the decimal text an f-string gives an id parses back to that id, negative ids included |
| `Text.MessageIdentifiesId` | api/main.py:45 | two messages with the same fixed text around an id are equal only if the ids are equal |
| `Tables.Lookup` | api/query_helpers.py:79 | `.filter(pk == id).first()` returns a row of the table carrying `id`, and returns nothing exactly when no row carries it |
| `Tables.LookupExact` | api/query_helpers.py:93 | under a primary-key constraint, the lookup returns a row exactly when that row is in the table with that key |
| `Tables.Page` | api/query_helpers.py:71 | `.offset(skip).limit(limit)` holds at most `limit` rows, exactly `min(limit, n - skip)` of them, and they are the table's rows from position `skip` on, in order |
| `Tables.PagesConcat` | api/query_helpers.py:85 | two consecutive pages, joined, are the page that spans both |
| `Tables.ConsecutivePagesDisjoint` | api/query_helpers.py:99 | under a primary-key constraint, consecutive pages share no key |
| `Tables.UniqueKeysCount` | api/models.py:10 | a table with a primary-key constraint has as many distinct keys as rows |
| `Tables.ReferencingTableBound` | api/models.py:68 | a table whose key is also a foreign key never has more rows than the table it references |
| `Models.AgenceOf` | api/models.py:20 | `Demande.agence` is a branch in the store whose number is the application's `numero_agence`, and is absent exactly when that column is NULL or names no branch |
| `Models.ClientOf` | api/models.py:21 | `Demande.client` is the professional situation whose number is the application's `numero_client`, and is absent exactly when that column is NULL or dangling |
| `Models.ApportOf` | api/models.py:22 | `Demande.apport` is a contribution keyed by the application's number, and is absent exactly when no contribution carries it |
| `Models.DemandesOfAgence` | api/models.py:33 | `Agence.demandes` contains exactly the applications carrying the branch's number |
| `Models.DemandesOfClient` | api/models.py:47 | `SituationPro.demandes` contains exactly the applications carrying the client's number |
| `Models.FamilleOf` | api/models.py:48 | `SituationPro.famille` is the family situation sharing the client's number, or nothing when none does |
| `Models.ClientOfFamille` | api/models.py:62 | `SituationFamille.client` is the professional situation its key refers to |
| `Models.DemandeOfApport` | api/models.py:72 | `Apport.demande` is the application its key refers to |
| `Models.ForeignKeysResolve` | api/models.py:13 | in a valid store, an application's branch and client are present exactly when its foreign-key columns are non-NULL |
| `Models.SharedKeysResolve` | api/models.py:54 | in a valid store, every family situation has its client and every contribution has its application |
| `Models.AgenceBackPopulates` | api/models.py:20 | in a valid store, an application is in a branch's `demandes` exactly when that branch is the application's `agence` |
| `Models.ClientBackPopulates` | api/models.py:47 | in a valid store, an application is in a client's `demandes` exactly when that client is the application's `client` |
| `Models.FamilleOneToOne` | api/models.py:48 | in a valid store, `famille` and `SituationFamille.client` are inverse: each links a client to at most one family situation and back |
| `Models.ApportOneToOne` | api/models.py:22 | in a valid store, `Demande.apport` and `Apport.demande` are inverse: each application has at most one contribution and back |
| `Models.OneToOneCardinality` | api/models.py:54 | in a valid store there are no more family situations than clients and no more contributions than applications |
| `Models.FlatTableIndependent` | api/models.py:78-101 | the flat table carries no foreign key: any key-unique set of rows keeps a valid store valid |
| `QueryHelpers.GetDemande` | api/query_helpers.py:11-22 | `get_demande` returns nothing exactly when no application has the number; otherwise an application with that number, with its branch, client and contribution resolved |
| `QueryHelpers.GetDemandeResolves` | api/query_helpers.py:15-19 | in a valid store the fetched application is the one with the number; its branch and client are present exactly when its foreign keys are set and carry those keys; its contribution is the one with the same number, or absent when there is none |
| `Tables.FilterMembers` | api/query_helpers.py:49 | `.filter(test)` holds exactly the rows of the table that pass the test |
| `Tables.FilterAppend` | api/query_helpers.py:48-71 | filtering keeps store order: the kept rows of an earlier segment come first |
| `Tables.FilterTwice` | api/query_helpers.py:48-51 | two `.filter` calls in a row select what one filter by both tests selects |
| `Tables.FilterKeepsKeysUnique` | api/models.py:10 | filtering a table with unique keys keeps them unique |
| `QueryHelpers.SelectMembers` | api/query_helpers.py:48-65 | a selection holds exactly the rows passing every filter step |
| `QueryHelpers.SelectAppend` | api/query_helpers.py:42-46 | selecting keeps store order: rows from an earlier segment of the table come first |
| `QueryHelpers.SelectRefine` | api/query_helpers.py:49 | narrowing a selection with one more `.filter` is selecting with that step added |
| `QueryHelpers.SelectNothing` | api/query_helpers.py:42 | a query with no filter step keeps every row |
| `QueryHelpers.CriteriaMeanSatisfies` | api/query_helpers.py:48-65 | applying the supplied filters one after another is the AND of the supplied filters, field by field; a filter left as None constrains nothing |
| `QueryHelpers.UnsupportedFilter` | api/query_helpers.py:52-55 | a failing filter is reported exactly when one of the four parameters is supplied, and the attribute it names is not an attribute of `Demande` |
| `QueryHelpers.UnsupportedFiltersAreNotColumns` | api/models.py:7-22 | the four failing parameters name attributes `Demande` lacks; the seven working filters name columns it has |
| `QueryHelpers.Matching` | api/query_helpers.py:48-69 | holds exactly the applications that satisfy every supplied filter |
| `QueryHelpers.DemandesQuery` | api/query_helpers.py:25-71 | fails exactly when a filter on a missing column is supplied, naming it; otherwise returns at most `limit` applications, each in the store and satisfying every supplied filter |
| `QueryHelpers.Narrow` | api/query_helpers.py:48-49 | one `if <filter> is not None: query = query.filter(...)` block: the query stays the selection of the table by the steps applied so far, with this step added exactly when its filter is supplied |
| `QueryHelpers.GetDemandes` | api/query_helpers.py:42-71 | filtering `query` step by step, then paging, returns exactly `DemandesQuery`: the error, or the page of the applications that match all supplied filters |
| `QueryHelpers.NoFiltersIsPlainPage` | api/query_helpers.py:71 | with every filter None, the result is the `skip`/`limit` page of the whole table |
| `QueryHelpers.DemandesQueryIsWindowOfMatches` | api/query_helpers.py:71 | every matching application inside the requested window is returned, at its position |
| `QueryHelpers.MatchingKeepsStoreOrder` | api/query_helpers.py:48-69 | the matches of a table split in two are the matches of the first part followed by those of the second |
| `QueryHelpers.SelectKeepsKeysUnique` | api/models.py:10 | filtering a table with unique application numbers keeps them unique |
| `QueryHelpers.AccordIgnoresCase` | api/query_helpers.py:58-59 | the `accord` filter gives the same answer after case-folding either side, and never keeps a NULL `accord` |
| `QueryHelpers.AccordOuiExample` | api/query_helpers.py:59 | the filter "OUI" keeps rows whose `accord` is "oui" or "Oui" |
| `QueryHelpers.GetAgence` | api/query_helpers.py:77-79 | returns a branch with that number, or nothing exactly when none has it |
| `QueryHelpers.GetSituationPro` | api/query_helpers.py:91-93 | returns a professional situation with that client number, or nothing exactly when none has it |
| `QueryHelpers.GetSituationFamille` | api/query_helpers.py:105-107 | returns a family situation with that client number, or nothing exactly when none has it |
| `QueryHelpers.GetApport` | api/query_helpers.py:119-121 | returns a contribution for that application, or nothing exactly when none exists |
| `QueryHelpers.GetDemandeById` | api/query_helpers.py:136-137 | returns a flat-table row with that number, or nothing exactly when none has it |
| `QueryHelpers.LookupsAreExact` | api/query_helpers.py:119-121 | in a valid store, every lookup by key returns the one row that carries the key |
| `QueryHelpers.GetAgences` | api/query_helpers.py:82-85 | at most `limit` branches, taken from position `skip` on in store order |
| `QueryHelpers.GetSituationsPro` | api/query_helpers.py:96-99 | at most `limit` professional situations, from position `skip` on |
| `QueryHelpers.GetSituationsFamille` | api/query_helpers.py:110-113 | at most `limit` family situations, from position `skip` on |
| `QueryHelpers.GetApports` | api/query_helpers.py:124-127 | at most `limit` contributions, from position `skip` on |
| `QueryHelpers.GetAllDemandes` | api/query_helpers.py:133-134 | at most `limit` flat-table rows, from position `skip` on |
| `QueryHelpers.GetAllDemandesAsWritten` | api/query_helpers.py:134 | the helper as written fails with the missing attribute `AllDB` on every store and every `skip`/`limit` |
| `QueryHelpers.GetDemandeByIdAsWritten` | api/query_helpers.py:137 | the lookup as written fails with the missing attribute `AllDB` on every store and every id |
| `QueryHelpers.AllDbNameMismatch` | api/query_helpers.py:134 | as written both flat-table helpers fail on every store, even when the row is there and the corrected helpers return it |
| `QueryHelpers.CountsAreDistinctKeys` | api/query_helpers.py:143-156 | in a valid store each count equals the number of distinct keys in its table |
| `Api.BoundedPaging` | api/main.py:56-57 | defaults are `skip=0` and `limit=100`; a request is refused exactly when `skip < 0` or `limit > 1000`, naming each offending parameter; a negative `limit` passes |
| `Api.UnboundedPaging` | api/main.py:197 | defaults 0 and 100; nothing is refused |
| `Api.PagingExamples` | api/main.py:57 | absent parameters give page (0, 100); `limit=5000` is refused; `limit=-1` is let through; `/all_demandes/` accepts 5000 |
| `Api.FoundOr404` | api/main.py:44-45 | a missing row gives a 404 with the detail, and a found row is returned unchanged |
| `Api.ReadDemande` | api/main.py:42-46 | 404 exactly when no application has the number, with detail "Demande {id} non trouvée"; otherwise exactly what `get_demande` returns: the application with that number, with its branch, client and contribution resolved |
| `Api.ListDemandes` | api/main.py:55-86 | refused exactly when paging is out of bounds; otherwise a server error exactly when a failing filter is supplied; otherwise a body exactly when the paging is accepted (defaults included), and it is what `get_demandes` returns for the same parameters; a negative `limit` reaches the database only with supported filters |
| `Api.ListDemandesIsPage` | api/main.py:71-86 | within the bounds and with only supported filters, the response is the `skip`/`limit` page of the applications matching every filter |
| `Api.ConsecutiveDemandePages` | api/main.py:71 | for any accepted page size `n`, pages `skip=0,limit=n` and `skip=n,limit=n` under the same filters share no application and join into the `2n` page of the matches, which is the `/demandes` response for `limit=2n` when that is within the bound |
| `Api.ListAgences` | api/main.py:98-99 | refused exactly when paging is out of bounds; a body exactly when the paging is accepted (defaults included), and it is `get_agences` with the same `skip`/`limit`, at most 1000 rows; `BackendDefined` exactly when a negative `limit` reaches the database |
| `Api.ReadAgence` | api/main.py:108-112 | 404 exactly when no branch has the number, with detail "Agence {id} non trouvée"; otherwise that branch |
| `Api.ListSituationsPro` | api/main.py:124-125 | refused exactly when paging is out of bounds; a body exactly when the paging is accepted (defaults included), and it is `get_situations_pro` with the same `skip`/`limit`, at most 1000 rows; `BackendDefined` exactly when a negative `limit` reaches the database |
| `Api.ReadSituationPro` | api/main.py:134-138 | 404 exactly when no professional situation has the number, with its detail; otherwise that row |
| `Api.ListSituationsFamille` | api/main.py:150-151 | refused exactly when paging is out of bounds; a body exactly when the paging is accepted (defaults included), and it is `get_situations_famille` with the same `skip`/`limit`, at most 1000 rows; `BackendDefined` exactly when a negative `limit` reaches the database |
| `Api.ReadSituationFamille` | api/main.py:160-164 | 404 exactly when no family situation has the number, with its detail; otherwise that row |
| `Api.ListApports` | api/main.py:176-177 | refused exactly when paging is out of bounds; a body exactly when the paging is accepted (defaults included), and it is `get_apports` with the same `skip`/`limit`, at most 1000 rows; `BackendDefined` exactly when a negative `limit` reaches the database |
| `Api.ReadApport` | api/main.py:186-190 | 404 exactly when no contribution exists for the application, with its detail; otherwise that row |
| `Api.NotFoundDetailNamesKey` | api/main.py:45 | two 404 details of `/demandes/{id}` are equal only for the same id |
| `Api.ListAllDemandes` | api/main.py:196-198 | never refused; a body exactly when `skip` and `limit` are non-negative, and it is `get_all_demandes` with them |
| `Api.ReadAllDemande` | api/main.py:200-205 | a missing row gives the payload `{"error": "Demande non trouvée"}` and never a 404; otherwise the row with that number |
| `Api.GetAnalytics` | api/main.py:218-225 | five counters, each equal to its own table's row count |
| `Api.AnalyticsInValidStore` | api/main.py:218-225 | in a valid store the family-situation count is at most the client count, the contribution count is at most the application count, and counts are distinct keys |
| `Api.EmptyStoreScenario` | api/main.py:196-225 | on an empty store every list is empty, every single-item route reports the row missing, and every counter is zero |

## Left out

- Session lifecycle: `get_db` (api/main.py:17-22) and the session factory. Each handler takes the store as a parameter.
- Framework machinery: routing, `response_model` serialization and HTTP status objects. `schemas.py` is not part of this model. So the projection to the "Simple"/"Detailed" shapes is not modelled, and neither is the validation FastAPI would apply to the `{"error": ...}` dict returned by `/all_demandes/{id}`.
- Type coercion of path and query parameters (for example a non-integer id) is not modelled. Parameters arrive as `int` or `string`. `Unprocessable` names the offending paging parameters but does not model the framework's error body.
- Translation to SQL and database failures: the outcome of a database error is not modelled. `BackendDefined` stands for a negative `OFFSET` or `LIMIT` reaching the database, whose effect depends on the backend.
- Store order: the code sets no `ORDER BY`, so the model takes the sequence order of each table as the store order.
- `QueryHelpers.AccordMatches`: `%` and `_` inside the `accord` parameter are not treated as `LIKE` wildcards. Case folding is ASCII-only, whereas the database's `ILIKE` may fold other letters too.
- `Tables.Lookup`: its contract does not state that, when keys repeat, the returned row is the first in store order. That can only happen in a store that breaks its primary-key constraint; `Tables.LookupExact` covers valid stores.
- The `get_*_count` helpers are plain row counts and have no contract of their own. Their properties are in `QueryHelpers.CountsAreDistinctKeys` and `Api.GetAnalytics`.
- The relative import at api/models.py:75-76 is a packaging detail.
- The health-check route (api/main.py:28-30) returns a constant message.
- `sdk/test_sdk.py` is a network client script with no logic of its own.
- Concurrency: each request reads an immutable store.

## Findings

| source | as written | input that shows it | evidently intended | confidence | as-written member | corrected member |
|---|---|---|---|---|---|---|
| api/query_helpers.py:134 | `get_all_demandes` queries `models.AllDB`, but the models module defines that class as `All_demande` (api/models.py:78), so evaluating the query raises `AttributeError` | any call, for example `skip=0, limit=100` on a store whose flat table holds one row | page the `all_demandes` table | high, not executed | `QueryHelpers.GetAllDemandesAsWritten` | `QueryHelpers.GetAllDemandes` |
| api/query_helpers.py:137 | `get_demande_by_id` also queries `models.AllDB` and raises the same way | `numero_demande` equal to the key of a row present in the flat table | look the row up in the `all_demandes` table | high, not executed | `QueryHelpers.GetDemandeByIdAsWritten` | `QueryHelpers.GetDemandeById` |

`QueryHelpers.AllDbNameMismatch` proves both rows: the as-written helpers return `Err(MissingAttribute("AllDB"))` on every store, while the corrected helpers return a row that is present. The handlers of `/all_demandes/` use the corrected helpers.
