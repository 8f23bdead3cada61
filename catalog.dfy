/** The guide's fixed troubleshooting catalog: one list of entries per
    product, PostgreSQL first, then Odoo. The remediation payload of each
    entry (steps, commands, media, notes) is only ever rendered, so an entry
    here keeps just what the search and the views look at. */
module Catalog {
  import opened Optional

  datatype Category = PostgreSQL | Odoo

  /** A troubleshooting item: its key, its heading, the literal error text
      it explains, its optional tags and the product it belongs to. */
  datatype Entry = Entry(
    id: string,
    title: string,
    error: string,
    tags: Option<seq<string>>,
    category: Category)

  /** The ids of a list of entries are pairwise distinct. */
  ghost predicate DistinctIds(es: seq<Entry>)
  {
    forall i, j :: 0 <= i < j < |es| ==> es[i].id != es[j].id
  }

  /** Every entry of the list belongs to product `c`. */
  ghost predicate AllOf(es: seq<Entry>, c: Category)
  {
    forall e :: e in es ==> e.category == c
  }

  const PG_ACCESS_DENIED := Entry(
    "pg-access-denied",
    "Accès refusé au démarrage",
    "pg_ctl -D \"F:\\PostgreSQL\\18\\data\" -l logfile start\n"
      + "en attente du démarrage du serveur....Accès refusé.\n"
      + "pg_ctl : n'a pas pu démarrer le serveur",
    Some(["permissions", "démarrage"]),
    PostgreSQL)

  const PG_CONNECTION_REFUSED := Entry(
    "pg-connection-refused",
    "Connection refused",
    "psql: erreur : la connexion au serveur sur « localhost » (::1), port 5432 a échoué : Connection refused\n"
      + "Le serveur est-il actif sur cet hôte et accepte-t-il les connexions ?",
    Some(["connexion", "port"]),
    PostgreSQL)

  const PG_MISSING_COLUMN := Entry(
    "pg-missing-column",
    "Erreur : colonne manquante lors d’une requête",
    "Erreur : column analytics_events.created_at does not exist\n"
      + "Code: 42703",
    Some(["requête", "colonnes", "erreur SQL"]),
    PostgreSQL)

  const ODOO_UNICODE_ERROR := Entry(
    "odoo-unicode-error",
    "UnicodeDecodeError lors de la connexion",
    "UnicodeDecodeError: 'utf-8' codec can't decode byte 0xf4 in position 73: invalid continuation byte",
    Some(["encodage", "utf8"]),
    Odoo)

  const ODOO_RELATION_NOT_EXIST := Entry(
    "odoo-relation-not-exist",
    "La relation ir_module_module n'existe pas",
    "ERROR: ERREUR: la relation « ir_module_module » n'existe pas\n"
      + "LINE 3: FROM ir_module_module",
    Some(["base de données", "initialisation"]),
    Odoo)

  const ODOO_INTERNAL_SERVER_ERROR := Entry(
    "odoo-internal-server-error",
    "Internal Server Error sur l'interface web",
    "Internal Server Error\n"
      + "The server encountered an internal error and was unable to complete your request.",
    Some(["serveur", "base de données"]),
    Odoo)

  const ODOO_PSYCOPG2_CONNECTION := Entry(
    "odoo-psycopg2-connection",
    "OperationalError: could not connect to server",
    "psycopg2.OperationalError: could not connect to server: Connection refused\n"
      + "Is the server running on host \"localhost\" and accepting TCP/IP connections on port 5432?",
    Some(["connexion", "postgresql", "port"]),
    Odoo)

  /** `troubleshootingData.postgresql`. */
  const PG_ENTRIES: seq<Entry> := [PG_ACCESS_DENIED, PG_CONNECTION_REFUSED, PG_MISSING_COLUMN]

  /** `troubleshootingData.odoo`. */
  const ODOO_ENTRIES: seq<Entry> :=
    [ODOO_UNICODE_ERROR, ODOO_RELATION_NOT_EXIST, ODOO_INTERNAL_SERVER_ERROR, ODOO_PSYCOPG2_CONNECTION]

  /** `allErrors`: the PostgreSQL entries followed by the Odoo entries. */
  const ALL_ERRORS: seq<Entry> := PG_ENTRIES + ODOO_ENTRIES

  /** `troubleshootingData`: the catalog kept as its two product lists. */
  datatype TroubleshootingData = TroubleshootingData(postgresql: seq<Entry>, odoo: seq<Entry>)

  const TROUBLESHOOTING_DATA := TroubleshootingData(PG_ENTRIES, ODOO_ENTRIES)

  /** The flat catalog the search runs through. */
  function AllErrors(data: TroubleshootingData): (all: seq<Entry>)
    ensures data == TROUBLESHOOTING_DATA ==> all == ALL_ERRORS
  {
    data.postgresql + data.odoo
  }

  /** Each product's list holds only that product's entries, and the whole
      catalog is the two lists back to back. */
  lemma CatalogByProduct()
    ensures AllOf(PG_ENTRIES, PostgreSQL) && AllOf(ODOO_ENTRIES, Odoo)
    ensures |PG_ENTRIES| == 3 && |ODOO_ENTRIES| == 4 && |ALL_ERRORS| == 7
    ensures ALL_ERRORS[..3] == PG_ENTRIES && ALL_ERRORS[3..] == ODOO_ENTRIES
  {
  }

  /** No two catalog entries share an id. */
  lemma CatalogIdsDistinct()
    ensures DistinctIds(ALL_ERRORS)
  {
  }
}
