/** The static column catalog shared by the server and the dashboard. */
module Columns {

  /** COLUMNS_ORDER, the dashboard's column order, served to it by the /config.js route. */
  const ColumnsOrder: seq<string> := [
    "Date",
    "Ville",
    "Ventes - Fever - Or",
    "Quota - Fever - Or",
    "Ventes - Regiondo - Or",
    "Quota - Regiondo - Or",
    "Ventes - OT - Or",
    "Quota - OT - Or",
    "Total - Ventes - Or",
    "Total - Quota - Or",
    "Delta - Or",
    "Ventes - Fever - Platinium",
    "Quota - Fever - Platinium",
    "Ventes - Regiondo - Platinium",
    "Quota - Regiondo - Platinium",
    "Ventes - OT - Platinium",
    "Quota - OT - Platinium",
    "Total - Ventes - Platinium",
    "Total - Quota - Platinium",
    "Delta - Platinium",
    "Ventes - Fever - Argent",
    "Quota - Fever - Argent",
    "Ventes - Regiondo - Argent",
    "Quota - Regiondo - Argent",
    "Ventes - OT - Argent",
    "Quota - OT - Argent",
    "Total - Ventes - Argent",
    "Total - Quota - Argent",
    "Delta - Argent",
    "Total - Ventes - Fever",
    "Total - Ventes - Fever (%)",
    "Total - Ventes - Regiondo",
    "Total - Ventes - Regiondo (%)",
    "Total - Ventes - OT",
    "Total - Ventes - OT (%)",
    "Total - Ventes",
    "Total - Quota",
    "Total - Delta",
    "Taux de remplissage"
  ]

  /** TARGET_FIELDS, the field allowlist the server sends with every page request. */
  const TargetFields: seq<string> := [
    "Date",
    "Ville",
    "Ventes - Fever - Or",
    "Quota - Fever - Or",
    "Ventes - Regiondo - Or",
    "Quota - Regiondo - Or",
    "Ventes - OT - Or",
    "Quota - OT - Or",
    "Total - Ventes - Or",
    "Total - Quota - Or",
    "Delta - Or",
    "Ventes - Fever - Platinium",
    "Quota - Fever - Platinium",
    "Ventes - Regiondo - Platinium",
    "Quota - Regiondo - Platinium",
    "Ventes - OT - Platinium",
    "Quota - OT - Platinium",
    "Total - Ventes - Platinium",
    "Total - Quota - Platinium",
    "Delta - Platinium",
    "Ventes - Fever - Argent",
    "Quota - Fever - Argent",
    "Ventes - Regiondo - Argent",
    "Quota - Regiondo - Argent",
    "Ventes - OT - Argent",
    "Quota - OT - Argent",
    "Total - Ventes - Argent",
    "Total - Quota - Argent",
    "Delta - Argent",
    "Total - Ventes - Fever",
    "Total - Ventes - Fever (%)",
    "Total - Ventes - Regiondo",
    "Total - Ventes - Regiondo (%)",
    "Total - Ventes - OT",
    "Total - Ventes - OT (%)",
    "Total - Ventes",
    "Total - Quota",
    "Total - Delta",
    "Taux de remplissage"
  ]

  /** The server requests exactly the columns the dashboard lays out, in the same order,
      so every column a row can show is one the cache asked for. */
  lemma TargetFieldsAreDisplayColumns()
    ensures TargetFields == ColumnsOrder
    ensures |ColumnsOrder| == 39 && ColumnsOrder[0] == "Date" && ColumnsOrder[1] == "Ville"
  {
  }
}
