/**
 * The registrations report (src/pages/Registros.tsx): the listing query,
 * the guarded writes of the fetched lists, and the rows of the two
 * spreadsheet exports.
 */
module Registros {
  import opened Wrappers
  import opened Js

  /** A registration as listed by the backend; `None` is a null or missing
      field. */
  datatype Registro = Registro(
    id: string, storeName: Option<string>, name: Option<string>, dni: Option<string>,
    email: Option<string>, prizeName: Option<string>, createdAt: Option<string>)

  datatype Tienda = Tienda(id: string, name: string)

  /** A spreadsheet cell: a text, or no value at all. */
  datatype Cell = Text(text: string) | Empty

  /** One spreadsheet row: column headers with their cells, in order. */
  type Row = seq<(string, Cell)>

  function Headers(row: Row): (hs: seq<string>)
    ensures |hs| == |row| && forall i :: 0 <= i < |row| ==> hs[i] == row[i].0
  {
    if row == [] then [] else [row[0].0] + Headers(row[1..])
  }

  /** `value ?? '—'`: null becomes a dash, an empty string is kept. */
  function OrDash(value: Option<string>): (c: Cell)
    ensures value.Some? ==> c == Text(value.value)
    ensures value.None? ==> c == Text("\U{2014}")
  {
    Text(Coalesce(value, "\U{2014}"))
  }

  /** `convertirFechaPeru`: `-` for a missing or empty date, otherwise the
      date in the report's time zone, which `format` stands for. */
  function DateCell(createdAt: Option<string>, format: string -> string): (c: Cell)
    ensures !Truthy(createdAt) ==> c == Text("-")
    ensures Truthy(createdAt) ==> c == Text(format(createdAt.value))
  {
    if Truthy(createdAt) then Text(format(createdAt.value)) else Text("-")
  }

  // ---------------------------------------------------------------------
  // Listing query
  // ---------------------------------------------------------------------

  /** The listing's query parameters as `fetchRegistros` builds them. */
  method BuildQuery(campaign: string, selected: string) returns (params: seq<(string, string)>)
    ensures |params| >= 1 && params[0] == ("campaign", campaign)
    ensures ("storeId", selected) in params <==> selected != []
    ensures |params| == if selected != [] then 2 else 1
  {
    params := [("campaign", campaign)];
    if selected != [] {
      params := params + [("storeId", selected)];
    }
  }

  // ---------------------------------------------------------------------
  // Exports
  // ---------------------------------------------------------------------

  const CampaignHeaders: seq<string> :=
    ["ID Registro", "Tienda", "Nombre Cliente", "DNI", "Email", "Estado", "Premio", "Fecha Registro"]

  const StoreHeaders: seq<string> := ["Tienda", "Cliente", "DNI", "Email", "Premio", "Fecha Registro"]

  /** One row of the campaign export. The status is derived from the prize:
      a winner exactly when the prize name is non-empty. */
  function CampaignRow(r: Registro, format: string -> string): (row: Row)
    ensures Headers(row) == CampaignHeaders
    ensures row[0].1 == Text(r.id)
    ensures row[1].1 == Text(Coalesce(r.storeName, "Desconocida"))
    ensures row[2].1 == OrDash(r.name) && row[3].1 == OrDash(r.dni) && row[4].1 == OrDash(r.email)
    ensures row[5].1 == Text("GANADOR") <==> Truthy(r.prizeName)
    ensures row[5].1 == Text("GANADOR") || row[5].1 == Text("NO GAN\U{D3}")
    ensures row[6].1 == OrDash(r.prizeName)
    ensures row[7].1 == DateCell(r.createdAt, format)
  {
    [("ID Registro", Text(r.id)),
     ("Tienda", Text(Coalesce(r.storeName, "Desconocida"))),
     ("Nombre Cliente", OrDash(r.name)),
     ("DNI", OrDash(r.dni)),
     ("Email", OrDash(r.email)),
     ("Estado", Text(if Truthy(r.prizeName) then "GANADOR" else "NO GAN\U{D3}")),
     ("Premio", OrDash(r.prizeName)),
     ("Fecha Registro", DateCell(r.createdAt, format))]
  }

  /** One row of the per-store export: no id and no status column, and the
      store name without a fallback. */
  function StoreRow(r: Registro, format: string -> string): (row: Row)
    ensures Headers(row) == StoreHeaders
    ensures "ID Registro" !in Headers(row) && "Estado" !in Headers(row)
    ensures row[0].1 == (if r.storeName.Some? then Text(r.storeName.value) else Empty)
    ensures row[1].1 == OrDash(r.name) && row[2].1 == OrDash(r.dni) && row[3].1 == OrDash(r.email)
    ensures row[4].1 == OrDash(r.prizeName) && row[5].1 == DateCell(r.createdAt, format)
  {
    [("Tienda", if r.storeName.Some? then Text(r.storeName.value) else Empty),
     ("Cliente", OrDash(r.name)),
     ("DNI", OrDash(r.dni)),
     ("Email", OrDash(r.email)),
     ("Premio", OrDash(r.prizeName)),
     ("Fecha Registro", DateCell(r.createdAt, format))]
  }

  /** The campaign export's rows: exactly one per record, in order. */
  function CampaignRows(records: seq<Registro>, format: string -> string): (rows: seq<Row>)
    ensures |rows| == |records|
    ensures forall i :: 0 <= i < |records| ==> rows[i] == CampaignRow(records[i], format)
  {
    if records == [] then [] else [CampaignRow(records[0], format)] + CampaignRows(records[1..], format)
  }

  /** The per-store export's rows: exactly one per record, in order. */
  function StoreRows(records: seq<Registro>, format: string -> string): (rows: seq<Row>)
    ensures |rows| == |records|
    ensures forall i :: 0 <= i < |records| ==> rows[i] == StoreRow(records[i], format)
  {
    if records == [] then [] else [StoreRow(records[0], format)] + StoreRows(records[1..], format)
  }

  /** The number of winner rows in the campaign export equals the number of
      records with a non-empty prize name. */
  lemma {:induction false} WinnerRowsCount(records: seq<Registro>, format: string -> string)
    ensures CountWinnerRows(CampaignRows(records, format)) == CountWinners(records)
  {
    if records != [] {
      WinnerRowsCount(records[1..], format);
      assert CampaignRows(records, format)[1..] == CampaignRows(records[1..], format);
    }
  }

  function CountWinners(records: seq<Registro>): nat {
    if records == [] then 0 else (if Truthy(records[0].prizeName) then 1 else 0) + CountWinners(records[1..])
  }

  function CountWinnerRows(rows: seq<Row>): nat {
    if rows == [] then 0
    else (if |rows[0]| > 5 && rows[0][5].1 == Text("GANADOR") then 1 else 0) + CountWinnerRows(rows[1..])
  }

  /** The reply to an export's listing request; `data` is `None` when the body
      has none. The status is not checked. */
  datatype ExportReply = ExportThrown | ExportReceived(data: Option<seq<Registro>>)

  datatype ExportResult =
    | NoExport
    | ExportFailed(alert: string)
    | Exported(fileName: string, sheet: string, rows: seq<Row>)

  /** `handleDescargarCampaña` */
  function CampaignExport(campaign: string, reply: ExportReply, format: string -> string): (e: ExportResult)
    ensures reply.ExportThrown? ==> e == ExportFailed("Error al descargar. Revisa la consola.")
    ensures reply.ExportReceived? ==>
              e == Exported("registros_" + campaign + "_completo.xlsx", "Registros",
                            CampaignRows(reply.data.GetOr([]), format))
  {
    match reply
    case ExportThrown => ExportFailed("Error al descargar. Revisa la consola.")
    case ExportReceived(data) =>
      Exported("registros_" + campaign + "_completo.xlsx", "Registros", CampaignRows(data.GetOr([]), format))
  }

  /** `tiendasUnicas.find(t => t.id === id)` */
  function FindTienda(tiendas: seq<Tienda>, id: string): (o: Option<Tienda>)
    ensures o.None? <==> forall i :: 0 <= i < |tiendas| ==> tiendas[i].id != id
    ensures o.Some? ==> exists i :: 0 <= i < |tiendas| && tiendas[i] == o.value && o.value.id == id &&
                          forall j :: 0 <= j < i ==> tiendas[j].id != id
  {
    if tiendas == [] then None
    else if tiendas[0].id == id then Some(tiendas[0])
    else
      var o := FindTienda(tiendas[1..], id);
      assert o.Some? ==> exists i :: 0 <= i < |tiendas| && tiendas[i] == o.value && o.value.id == id &&
                           forall j :: 0 <= j < i ==> tiendas[j].id != id by {
        if o.Some? {
          var i :| 0 <= i < |tiendas| - 1 && tiendas[1..][i] == o.value && o.value.id == id &&
                   forall j :: 0 <= j < i ==> tiendas[1..][j].id != id;
          assert tiendas[i + 1] == o.value;
          forall j | 0 <= j < i + 1 ensures tiendas[j].id != id {
            if j > 0 { assert tiendas[j] == tiendas[1..][j - 1]; }
          }
        }
      }
      o
  }

  /** The file label of the per-store export: the selected store's name, or
      `Tienda` when it is unknown or empty. */
  function StoreLabel(tiendas: seq<Tienda>, selected: string): (name: string)
    ensures FindTienda(tiendas, selected).None? ==> name == "Tienda"
    ensures FindTienda(tiendas, selected).Some? && FindTienda(tiendas, selected).value.name != [] ==>
              name == FindTienda(tiendas, selected).value.name
    ensures FindTienda(tiendas, selected).Some? && FindTienda(tiendas, selected).value.name == [] ==>
              name == "Tienda"
    ensures name != []
  {
    var t := FindTienda(tiendas, selected);
    Or(if t.Some? then Some(t.value.name) else None, "Tienda")
  }

  /** `handleDescargarTienda`: nothing at all without a selected store. */
  function StoreExport(campaign: string, selected: string, tiendas: seq<Tienda>, reply: ExportReply,
                       format: string -> string): (e: ExportResult)
    ensures selected == [] <==> e == NoExport
    ensures selected != [] && reply.ExportThrown? ==> e == ExportFailed("Error al descargar por tienda. Revisa la consola.")
    ensures selected != [] && reply.ExportReceived? ==>
              e == Exported("registros_tienda_" + StoreLabel(tiendas, selected) + ".xlsx", "Registros",
                            StoreRows(reply.data.GetOr([]), format))
  {
    if selected == [] then NoExport
    else match reply
      case ExportThrown => ExportFailed("Error al descargar por tienda. Revisa la consola.")
      case ExportReceived(data) =>
        Exported("registros_tienda_" + StoreLabel(tiendas, selected) + ".xlsx", "Registros",
                 StoreRows(data.GetOr([]), format))
  }

  // ---------------------------------------------------------------------
  // The page's state
  // ---------------------------------------------------------------------

  /** The listing reply: `ListAborted` when the request was cancelled (a newer
      selection superseded it), `ListFailed` for any other rejection or a
      non-ok status. */
  datatype ListReply = ListAborted | ListFailed | ListReceived(data: Option<seq<Registro>>)

  /** The store list reply; `hasData` is false when the body has no `data`. */
  datatype TiendasReply =
    | TiendasThrown
    | TiendasReceived(ok: bool, hasData: bool, stores: Option<seq<Tienda>>)

  class RegistrosView {
    const campaign: string
    var registros: seq<Registro>
    var cargando: bool
    var tiendaSeleccionada: string
    var tiendasUnicas: seq<Tienda>

    constructor (campaign: string)
      ensures this.campaign == campaign && registros == [] && !cargando
      ensures tiendaSeleccionada == [] && tiendasUnicas == []
    {
      this.campaign := campaign;
      registros := [];
      cargando := false;
      tiendaSeleccionada := [];
      tiendasUnicas := [];
    }

    method SelectStore(id: string)
      modifies this`tiendaSeleccionada
      ensures tiendaSeleccionada == id
    {
      tiendaSeleccionada := id;
    }

    /** `fetchRegistros`: only a received reply overwrites the list (an
        absent `data` gives the empty list); an aborted or failed request
        leaves it. `cargando` ends false on every path. */
    method FetchRegistros(reply: ListReply) returns (query: seq<(string, string)>)
      modifies this`registros, this`cargando
      ensures |query| >= 1 && query[0] == ("campaign", campaign)
      ensures ("storeId", tiendaSeleccionada) in query <==> tiendaSeleccionada != []
      ensures !cargando
      ensures reply.ListReceived? ==> registros == reply.data.GetOr([])
      ensures !reply.ListReceived? ==> registros == old(registros)
    {
      cargando := true;
      query := BuildQuery(campaign, tiendaSeleccionada);
      match reply {
        case ListAborted =>
        case ListFailed =>
        case ListReceived(data) =>
          registros := data.GetOr([]);
      }
      cargando := false;
    }

    /** `fetchTiendas`: an ok reply with data replaces the store list (a
        missing `stores` gives the empty list); anything else keeps it. */
    method FetchTiendas(reply: TiendasReply)
      modifies this`tiendasUnicas
      ensures reply.TiendasReceived? && reply.ok && reply.hasData ==> tiendasUnicas == reply.stores.GetOr([])
      ensures !(reply.TiendasReceived? && reply.ok && reply.hasData) ==> tiendasUnicas == old(tiendasUnicas)
    {
      match reply {
        case TiendasThrown =>
        case TiendasReceived(ok, hasData, stores) =>
          if ok && hasData {
            tiendasUnicas := stores.GetOr([]);
          }
      }
    }
  }
}
