/**
 * The "Editar Tienda" form (src/components/ui/EditStoreModal.tsx): it loads
 * the store's prizes when shown, lets the user change either stock of a
 * prize, shows the total available stock and hands name and prizes to
 * `onSubmit`.
 */
module EditStoreModal {
  import opened Wrappers
  import opened Js

  /** A prize as the form edits it (`PremioEdit`). */
  datatype PremioEdit = PremioEdit(id: string, nombre: string, stockInicial: int, stockDisponible: int)

  /** A prize as the backend sends it. */
  datatype BackendPrize = BackendPrize(
    id: string, name: string, description: string,
    initialStock: int, availableStock: int, createdAt: string)

  /** The reply to `GET /api/v1/admin/prizes/store/:storeId`; `prizes` is
      `None` when `data.prizes` is not an array. */
  datatype PrizesReply =
    | PrizesThrown(reason: string)
    | PrizesReceived(ok: bool, success: bool, message: Option<string>, prizes: Option<seq<BackendPrize>>)

  /** The store the form edits (`StoreData`). */
  datatype StoreData = StoreData(id: string, name: string)

  datatype StockField = StockInicial | StockDisponible

  /** The backend list mapped to the form's shape: one entry per backend
      prize, in order, with `name`, `initial_stock` and `available_stock`
      renamed. */
  function MapPrizes(list: seq<BackendPrize>): (r: seq<PremioEdit>)
    ensures |r| == |list|
    ensures forall i :: 0 <= i < |list| ==>
              r[i].id == list[i].id && r[i].nombre == list[i].name &&
              r[i].stockInicial == list[i].initialStock && r[i].stockDisponible == list[i].availableStock
  {
    if list == [] then []
    else
      var p := list[0];
      [PremioEdit(p.id, p.name, p.initialStock, p.availableStock)] + MapPrizes(list[1..])
  }

  /** The prizes shown after a successful load: a non-array reply gives none. */
  function LoadedPrizes(prizes: Option<seq<BackendPrize>>): (r: seq<PremioEdit>)
    ensures prizes.None? ==> r == []
    ensures prizes.Some? ==> |r| == |prizes.value|
  {
    MapPrizes(prizes.GetOr([]))
  }

  /** `p` with `field` set to `qty`. */
  function WithField(p: PremioEdit, field: StockField, qty: int): PremioEdit {
    match field
    case StockInicial => p.(stockInicial := qty)
    case StockDisponible => p.(stockDisponible := qty)
  }

  /** `prev.map(p => p.id === id ? { ...p, [field]: qty } : p)`: same length
      and order, ids and names untouched, only `field` of the prizes with
      this id changed. */
  function UpdatePrize(prizes: seq<PremioEdit>, id: string, field: StockField, qty: int): (r: seq<PremioEdit>)
    ensures |r| == |prizes|
    ensures forall i :: 0 <= i < |r| ==> r[i].id == prizes[i].id && r[i].nombre == prizes[i].nombre
    ensures forall i :: 0 <= i < |r| && prizes[i].id != id ==> r[i] == prizes[i]
    ensures forall i :: 0 <= i < |r| && prizes[i].id == id ==>
              (if field == StockInicial
               then r[i].stockInicial == qty && r[i].stockDisponible == prizes[i].stockDisponible
               else r[i].stockDisponible == qty && r[i].stockInicial == prizes[i].stockInicial)
  {
    if prizes == [] then []
    else
      var p := prizes[0];
      [if p.id == id then WithField(p, field, qty) else p] + UpdatePrize(prizes[1..], id, field, qty)
  }

  /** `prizes.reduce((acc, curr) => acc + (curr.stock_disponible || 0), 0)` */
  function SumAvailable(prizes: seq<PremioEdit>): int {
    if prizes == [] then 0 else prizes[0].stockDisponible + SumAvailable(prizes[1..])
  }

  /** The total is never negative while every available stock is non-negative. */
  lemma {:induction false} SumAvailableNonNegative(prizes: seq<PremioEdit>)
    requires forall i :: 0 <= i < |prizes| ==> prizes[i].stockDisponible >= 0
    ensures SumAvailable(prizes) >= 0
  {
    if prizes != [] {
      SumAvailableNonNegative(prizes[1..]);
    }
  }

  /** Editing an initial stock leaves the total unchanged. */
  lemma {:induction false} TotalIgnoresInitialStock(prizes: seq<PremioEdit>, id: string, qty: int)
    ensures SumAvailable(UpdatePrize(prizes, id, StockInicial, qty)) == SumAvailable(prizes)
  {
    if prizes != [] {
      TotalIgnoresInitialStock(prizes[1..], id, qty);
    }
  }

  /** Editing the available stock of the one prize with this id moves the
      total by exactly the change. */
  lemma {:induction false} TotalAfterAvailableChange(prizes: seq<PremioEdit>, k: nat, qty: int)
    requires k < |prizes|
    requires forall i :: 0 <= i < |prizes| && i != k ==> prizes[i].id != prizes[k].id
    ensures SumAvailable(UpdatePrize(prizes, prizes[k].id, StockDisponible, qty))
            == SumAvailable(prizes) - prizes[k].stockDisponible + qty
  {
    var id := prizes[k].id;
    var r := UpdatePrize(prizes, id, StockDisponible, qty);
    if k == 0 {
      UnchangedWithoutId(prizes[1..], id, qty);
    } else {
      TotalAfterAvailableChange(prizes[1..], k - 1, qty);
    }
  }

  /** A list without the id is left as it is. */
  lemma {:induction false} UnchangedWithoutId(prizes: seq<PremioEdit>, id: string, qty: int)
    requires forall i :: 0 <= i < |prizes| ==> prizes[i].id != id
    ensures UpdatePrize(prizes, id, StockDisponible, qty) == prizes
  {
    if prizes != [] {
      UnchangedWithoutId(prizes[1..], id, qty);
    }
  }

  class EditStoreForm {
    var name: string
    var prizes: seq<PremioEdit>
    var loading: bool
    var fetchError: Option<string>

    constructor ()
      ensures name == "" && prizes == [] && !loading && fetchError == None
    {
      name := "";
      prizes := [];
      loading := false;
      fetchError := None;
    }

    /** The displayed total of available stock. */
    function Total(): int
      reads this
    {
      SumAvailable(prizes)
    }

    /** The effect on `[data, show]`, with the prize fetch's reply. Hidden or
        without data: prizes and error cleared, nothing else touched.
        Otherwise: name taken from the store, the loaded prizes shown on
        success, the error text on failure, and loading over. */
    method Sync(show: bool, data: Option<StoreData>, reply: PrizesReply)
      modifies this
      ensures data.None? || !show ==>
                prizes == [] && fetchError == None && name == old(name) && loading == old(loading)
      ensures data.Some? && show ==> name == data.value.name && !loading
      ensures data.Some? && show && reply.PrizesReceived? && reply.ok && reply.success ==>
                prizes == LoadedPrizes(reply.prizes) && fetchError == None
      ensures data.Some? && show && reply.PrizesReceived? && !(reply.ok && reply.success) ==>
                prizes == old(prizes) && fetchError == Some(Or(reply.message, "Fallo al obtener premios de la tienda."))
      ensures data.Some? && show && reply.PrizesThrown? ==>
                prizes == old(prizes) && fetchError == Some(reply.reason)
    {
      if data.None? || !show {
        prizes := [];
        fetchError := None;
        return;
      }
      name := data.value.name;
      loading := true;
      fetchError := None;
      match reply {
        case PrizesThrown(reason) =>
          fetchError := Some(reason);
        case PrizesReceived(ok, success, message, list) =>
          if !ok || !success {
            fetchError := Some(Or(message, "Fallo al obtener premios de la tienda."));
          } else {
            prizes := LoadedPrizes(list);
          }
      }
      loading := false;
    }

    /** A stock field's `onChange`: `Math.max(0, Number(value) || 0)` stored
        in `field` of the prizes with this id. */
    method HandlePrizeChange(id: string, field: StockField, value: JsNumber)
      modifies this`prizes
      ensures prizes == UpdatePrize(old(prizes), id, field, ClampZero(OrZero(value)))
    {
      prizes := UpdatePrize(prizes, id, field, ClampZero(OrZero(value)));
    }

    /** `handleSubmit`: nothing without data, otherwise the current name and
        prizes, unchanged, for `onSubmit`. */
    method HandleSubmit(data: Option<StoreData>) returns (call: Option<(string, seq<PremioEdit>)>)
      ensures data.None? <==> call.None?
      ensures call.Some? ==> call.value.0 == name && call.value.1 == prizes
    {
      if data.None? {
        return None;
      }
      call := Some((name, prizes));
    }
  }
}
