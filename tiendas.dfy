/**
 * The admin store screen (src/pages/Tiendas.tsx): the local list of stores
 * with their available-prize counts, kept in step with the backend after a
 * fetch, a create, a deactivation and an edit, and the requests each
 * handler sends.
 */
module Tiendas {
  import opened Wrappers
  import opened Js
  import NewStoreModal
  import opened EditStoreModal

  datatype Store = Store(
    id: string, name: string, campaign: string, isActive: bool,
    createdAt: string, updatedAt: string, availablePrizesCount: int,
    prizes: Option<seq<PremioEdit>>)

  // ---------------------------------------------------------------------
  // Backend replies and requests
  // ---------------------------------------------------------------------

  /** `GET /admin/stores`; `stores` is `None` when `data.stores` is not an array. */
  datatype StoresReply =
    | StoresThrown(reason: string)
    | StoresReceived(ok: bool, stores: Option<seq<Store>>, message: Option<string>)

  /** `GET /admin/prizes/counts`; `counts` is `None` when `data.counts` is missing. */
  datatype CountsReply =
    | CountsThrown(reason: string)
    | CountsReceived(ok: bool, counts: Option<map<string, int>>)

  /** `POST /admin/stores` */
  datatype CreateStoreReply =
    | CreateThrown(reason: string)
    | CreateReceived(ok: bool, storeId: Option<string>, message: Option<string>)

  /** `PATCH /admin/stores/:id/deactivate` */
  datatype DeactivateReply =
    | DeactivateThrown(reason: string)
    | DeactivateReceived(status: int, message: Option<string>)

  /** The reply to one request of a batch: accepted, refused with an optional
      server message, or the fetch itself failed. */
  datatype CallReply = Done | Refused(message: Option<string>) | CallThrown(reason: string)

  /** The body of one `POST /admin/prizes`. */
  datatype PrizeRequest = PrizeRequest(storeId: string, name: string, description: string, initialStock: int)

  /** One request of an edit: `PUT /admin/stores/:id` or `PUT /admin/prizes/:id`. */
  datatype UpdateRequest =
    | RenameStore(storeId: string, name: string)
    | UpdatePrizeStock(prizeId: string, name: string, availableStock: int)

  /** The reason `Promise.all` rejects with: the first failing request, taken
      in request order. */
  function FirstRejection<R>(reqs: seq<R>, reject: R -> Option<string>): (o: Option<string>)
    ensures o.None? <==> forall i :: 0 <= i < |reqs| ==> reject(reqs[i]).None?
    ensures o.Some? ==> exists i :: 0 <= i < |reqs| && reject(reqs[i]) == o &&
                          forall j :: 0 <= j < i ==> reject(reqs[j]).None?
  {
    if reqs == [] then None
    else if reject(reqs[0]).Some? then reject(reqs[0])
    else
      var o := FirstRejection(reqs[1..], reject);
      assert o.Some? ==> exists i :: 0 <= i < |reqs| && reject(reqs[i]) == o &&
                          forall j :: 0 <= j < i ==> reject(reqs[j]).None? by {
        if o.Some? {
          var i :| 0 <= i < |reqs| - 1 && reject(reqs[1..][i]) == o &&
                   forall j :: 0 <= j < i ==> reject(reqs[1..][j]).None?;
          assert forall j :: 0 <= j < i + 1 ==> reject(reqs[j]).None? by {
            forall j | 0 <= j < i + 1 ensures reject(reqs[j]).None? {
              if j > 0 { assert reqs[j] == reqs[1..][j - 1]; }
            }
          }
          assert reqs[i + 1] == reqs[1..][i];
        }
      }
      o
  }

  // ---------------------------------------------------------------------
  // fetchData
  // ---------------------------------------------------------------------

  /** Why `fetchData` fails, if it does: a rejected fetch, or a stores reply
      that is not ok or has no `stores` array. The counts reply never fails it
      unless its fetch rejects. */
  function FetchFailure(stores: StoresReply, counts: CountsReply): (r: Option<string>)
    ensures r.None? <==> stores.StoresReceived? && stores.ok && stores.stores.Some? && counts.CountsReceived?
    ensures stores.StoresReceived? && counts.CountsReceived? && (!stores.ok || stores.stores.None?) ==>
              r == Some(Or(stores.message, "La respuesta de la API no contiene el listado de tiendas."))
  {
    match (stores, counts)
    case (StoresThrown(reason), _) => Some(reason)
    case (_, CountsThrown(reason)) => Some(reason)
    case (StoresReceived(ok, list, message), _) =>
      if !ok || list.None? then Some(Or(message, "La respuesta de la API no contiene el listado de tiendas."))
      else None
  }

  /** `resultCounts.data?.counts || {}`: used whenever present, even when the
      counts reply is not ok. */
  function CountsOf(counts: CountsReply): Option<map<string, int>> {
    match counts
    case CountsReceived(_, c) => c
    case CountsThrown(_) => None
  }

  /** `countsMap[id] || 0` */
  function CountFor(counts: Option<map<string, int>>, id: string): int {
    if counts.Some? && id in counts.value then counts.value[id] else 0
  }

  /** The fetched stores, in order, each with its count taken from the map
      (0 when the id is absent or the map is missing) and nothing else changed. */
  function MergeCounts(stores: seq<Store>, counts: Option<map<string, int>>): (r: seq<Store>)
    ensures |r| == |stores|
    ensures forall i :: 0 <= i < |stores| ==>
              r[i] == stores[i].(availablePrizesCount := CountFor(counts, stores[i].id))
    ensures forall i :: 0 <= i < |stores| && (counts.None? || stores[i].id !in counts.value) ==>
              r[i].availablePrizesCount == 0
  {
    if stores == [] then []
    else [stores[0].(availablePrizesCount := CountFor(counts, stores[0].id))] + MergeCounts(stores[1..], counts)
  }

  // ---------------------------------------------------------------------
  // handleCreate
  // ---------------------------------------------------------------------

  /** The new store's id: only an ok reply with a non-empty `storeId` has one. */
  function CreatedId(reply: CreateStoreReply): (id: Option<string>)
    ensures id.Some? <==> reply.CreateReceived? && reply.ok && Truthy(reply.storeId)
    ensures id.Some? ==> id == reply.storeId
  {
    match reply
    case CreateReceived(ok, storeId, _) => if ok && Truthy(storeId) then storeId else None
    case CreateThrown(_) => None
  }

  function CreateFailure(reply: CreateStoreReply): string {
    match reply
    case CreateThrown(reason) => reason
    case CreateReceived(_, _, message) => Or(message, "Fallo al crear la tienda.")
  }

  /** One prize request per input prize, in order, each tied to the new store. */
  function PrizeRequests(storeId: string, prizes: seq<NewStoreModal.PrizeInput>, campaign: string): (reqs: seq<PrizeRequest>)
    ensures |reqs| == |prizes|
    ensures forall i :: 0 <= i < |prizes| ==>
              reqs[i].storeId == storeId && reqs[i].name == prizes[i].nombre &&
              reqs[i].initialStock == prizes[i].stock &&
              reqs[i].description == "Premio de " + prizes[i].nombre + " para " + campaign
  {
    if prizes == [] then []
    else
      var p := prizes[0];
      [PrizeRequest(storeId, p.nombre, "Premio de " + p.nombre + " para " + campaign, p.stock)]
        + PrizeRequests(storeId, prizes[1..], campaign)
  }

  /** Why one prize creation is rejected, if it is. */
  function PrizeRejection(req: PrizeRequest, reply: CallReply): Option<string> {
    match reply
    case Done => None
    case Refused(message) => Some(Or(message, "Fallo al crear el premio: " + req.name))
    case CallThrown(reason) => Some(reason)
  }

  /** The rejection of the batch of prize creations, if any. */
  function PrizeBatchRejection(reqs: seq<PrizeRequest>, backend: PrizeRequest -> CallReply): Option<string> {
    FirstRejection(reqs, (req: PrizeRequest) => PrizeRejection(req, backend(req)))
  }

  /** `prizes.reduce((sum, p) => sum + p.stock, 0)` */
  function SumStocks(prizes: seq<NewStoreModal.PrizeInput>): int {
    if prizes == [] then 0 else prizes[0].stock + SumStocks(prizes[1..])
  }

  /** A selection from the form only holds positive stocks, so the new
      store's count is positive. */
  lemma {:induction false} SumStocksPositive(prizes: seq<NewStoreModal.PrizeInput>)
    requires prizes != []
    requires forall i :: 0 <= i < |prizes| ==> prizes[i].stock > 0
    ensures SumStocks(prizes) > 0
  {
    if |prizes| > 1 {
      SumStocksPositive(prizes[1..]);
    }
  }

  /** The row put in front of the list after a create. */
  function NewStore(id: string, name: string, campaign: string, now: string,
                    prizes: seq<NewStoreModal.PrizeInput>): (s: Store)
    ensures s.id == id && s.name == name && s.isActive
    ensures s.availablePrizesCount == SumStocks(prizes)
  {
    Store(id, name, campaign, true, now, now, SumStocks(prizes), None)
  }

  // ---------------------------------------------------------------------
  // handleDelete
  // ---------------------------------------------------------------------

  /** `store.id === id ? { ...store, is_active: false } : store` over the list. */
  function MarkInactive(data: seq<Store>, id: string): seq<Store> {
    if data == [] then []
    else [if data[0].id == id then data[0].(isActive := false) else data[0]] + MarkInactive(data[1..], id)
  }

  /** `.filter(store => store.is_active)` */
  function KeepActive(data: seq<Store>): seq<Store> {
    if data == [] then []
    else (if data[0].isActive then [data[0]] else []) + KeepActive(data[1..])
  }

  /** The list after a successful deactivation, as written: map, then filter. */
  function Deactivate(data: seq<Store>, id: string): seq<Store> {
    KeepActive(MarkInactive(data, id))
  }

  /** The previously active stores whose id differs from `id`, in their
      original relative order. */
  function ActiveExcept(data: seq<Store>, id: string): (r: seq<Store>)
    ensures |r| <= |data|
    ensures forall s :: s in r <==> s in data && s.isActive && s.id != id
  {
    if data == [] then []
    else (if data[0].isActive && data[0].id != id then [data[0]] else []) + ActiveExcept(data[1..], id)
  }

  /** The map-then-filter of `handleDelete` keeps exactly the active stores
      other than the target, in order. */
  lemma {:induction false} DeactivateKeepsOthers(data: seq<Store>, id: string)
    ensures Deactivate(data, id) == ActiveExcept(data, id)
  {
    if data != [] {
      DeactivateKeepsOthers(data[1..], id);
      assert MarkInactive(data, id)[1..] == MarkInactive(data[1..], id);
    }
  }

  /** Why a deactivation fails, if it does. */
  function DeactivateFailure(reply: DeactivateReply): (r: Option<string>)
    ensures reply.DeactivateReceived? && reply.status == 404 ==>
              r == Some("Tienda no encontrada o ya estaba inactiva.")
    ensures r.None? <==> reply.DeactivateReceived? && 200 <= reply.status <= 299
  {
    match reply
    case DeactivateThrown(reason) => Some(reason)
    case DeactivateReceived(status, message) =>
      if status == 404 then Some("Tienda no encontrada o ya estaba inactiva.")
      else if !(200 <= status <= 299) then Some(Or(message, "Error al desactivar la tienda."))
      else None
  }

  // ---------------------------------------------------------------------
  // handleUpdate
  // ---------------------------------------------------------------------

  /** One prize update per edited prize, in order. */
  function PrizeUpdates(prizes: seq<PremioEdit>): (reqs: seq<UpdateRequest>)
    ensures |reqs| == |prizes|
    ensures forall i :: 0 <= i < |prizes| ==>
              reqs[i] == UpdatePrizeStock(prizes[i].id, prizes[i].nombre, prizes[i].stockDisponible)
  {
    if prizes == [] then []
    else [UpdatePrizeStock(prizes[0].id, prizes[0].nombre, prizes[0].stockDisponible)] + PrizeUpdates(prizes[1..])
  }

  /** The requests of an edit: a rename first, only when the name changed,
      then one update per prize. */
  function UpdatePlan(store: Store, name: string, prizes: seq<PremioEdit>): (reqs: seq<UpdateRequest>)
    ensures |reqs| == |prizes| + (if name != store.name then 1 else 0)
    ensures forall i :: 0 <= i < |reqs| ==> (reqs[i].RenameStore? <==> i == 0 && name != store.name)
  {
    (if name != store.name then [RenameStore(store.id, name)] else []) + PrizeUpdates(prizes)
  }

  /** `updatePromises` as `handleUpdate` builds it: `push` of the rename, then
      `push` of each prize update inside `forEach`. */
  method PlanUpdates(store: Store, name: string, prizes: seq<PremioEdit>) returns (reqs: seq<UpdateRequest>)
    ensures reqs == UpdatePlan(store, name, prizes)
  {
    reqs := [];
    if name != store.name {
      reqs := reqs + [RenameStore(store.id, name)];
    }
    ghost var head := reqs;
    var i := 0;
    while i < |prizes|
      invariant 0 <= i <= |prizes|
      invariant reqs == head + PrizeUpdates(prizes[..i])
    {
      assert prizes[..i + 1] == prizes[..i] + [prizes[i]];
      PrizeUpdatesAppend(prizes[..i], [prizes[i]]);
      reqs := reqs + [UpdatePrizeStock(prizes[i].id, prizes[i].nombre, prizes[i].stockDisponible)];
      i := i + 1;
    }
    assert prizes[..i] == prizes;
  }

  lemma {:induction false} PrizeUpdatesAppend(a: seq<PremioEdit>, b: seq<PremioEdit>)
    ensures PrizeUpdates(a + b) == PrizeUpdates(a) + PrizeUpdates(b)
  {
    if a == [] {
      assert a + b == b;
    } else {
      assert (a + b)[1..] == a[1..] + b;
      PrizeUpdatesAppend(a[1..], b);
    }
  }

  /** Why one update request is rejected, if it is. */
  function UpdateRejection(req: UpdateRequest, reply: CallReply): Option<string> {
    match reply
    case Done => None
    case Refused(message) =>
      Some(Or(message, match req
                       case RenameStore(_, _) => "Fallo al actualizar el nombre de la tienda."
                       case UpdatePrizeStock(_, n, _) => "Fallo al actualizar el premio " + n + "."))
    case CallThrown(reason) => Some(reason)
  }

  /** The rejection of the batch of edit requests, if any. */
  function UpdateBatchRejection(reqs: seq<UpdateRequest>, backend: UpdateRequest -> CallReply): Option<string> {
    FirstRejection(reqs, (req: UpdateRequest) => UpdateRejection(req, backend(req)))
  }

  /** The list after a successful edit: every row with this id gets the new
      name, prizes and count; every other row, and the length, are kept. */
  function ReplaceRow(data: seq<Store>, storeId: string, name: string, prizes: seq<PremioEdit>, now: string)
    : (r: seq<Store>)
    ensures |r| == |data|
    ensures forall i :: 0 <= i < |data| && data[i].id != storeId ==> r[i] == data[i]
    ensures forall i :: 0 <= i < |data| && data[i].id == storeId ==>
              r[i] == data[i].(name := name, updatedAt := now, prizes := Some(prizes),
                               availablePrizesCount := SumAvailable(prizes))
  {
    if data == [] then []
    else
      var s := data[0];
      [if s.id == storeId
       then s.(name := name, updatedAt := now, prizes := Some(prizes), availablePrizesCount := SumAvailable(prizes))
       else s] + ReplaceRow(data[1..], storeId, name, prizes, now)
  }

  // ---------------------------------------------------------------------
  // handleEdit
  // ---------------------------------------------------------------------

  /** `data.find(store => store.id === id)` */
  function FindStore(data: seq<Store>, id: string): (o: Option<Store>)
    ensures o.None? <==> forall i :: 0 <= i < |data| ==> data[i].id != id
    ensures o.Some? ==> exists i :: 0 <= i < |data| && data[i] == o.value && o.value.id == id &&
                          forall j :: 0 <= j < i ==> data[j].id != id
  {
    if data == [] then None
    else if data[0].id == id then Some(data[0])
    else
      var o := FindStore(data[1..], id);
      assert o.Some? ==> exists i :: 0 <= i < |data| && data[i] == o.value && o.value.id == id &&
                           forall j :: 0 <= j < i ==> data[j].id != id by {
        if o.Some? {
          var i :| 0 <= i < |data| - 1 && data[1..][i] == o.value && o.value.id == id &&
                   forall j :: 0 <= j < i ==> data[1..][j].id != id;
          assert data[i + 1] == o.value;
          forall j | 0 <= j < i + 1 ensures data[j].id != id {
            if j > 0 { assert data[j] == data[1..][j - 1]; }
          }
        }
      }
      o
  }

  /** Why loading a store's prizes for editing fails, if it does. */
  function EditFailure(reply: PrizesReply): (r: Option<string>)
    ensures r.None? <==> reply.PrizesReceived? && reply.ok && reply.success && reply.prizes.Some?
  {
    match reply
    case PrizesThrown(reason) => Some(reason)
    case PrizesReceived(ok, success, message, prizes) =>
      if !ok || !success || prizes.None? then Some(Or(message, "Fallo al obtener la lista de premios."))
      else None
  }

  // ---------------------------------------------------------------------
  // sortedData and handleGoHome
  // ---------------------------------------------------------------------

  ghost predicate TotalPreorder(leq: (Store, Store) -> bool) {
    && (forall a, b :: leq(a, b) || leq(b, a))
    && (forall a, b, c :: leq(a, b) && leq(b, c) ==> leq(a, c))
  }

  ghost predicate SortedBy(s: seq<Store>, leq: (Store, Store) -> bool) {
    forall i, j :: 0 <= i < j < |s| ==> leq(s[i], s[j])
  }

  /** `x` placed after every leading element that may precede it. */
  function Insert(x: Store, s: seq<Store>, leq: (Store, Store) -> bool): (r: seq<Store>)
    ensures multiset(r) == multiset(s) + multiset{x}
  {
    if s == [] then [x]
    else if leq(s[0], x) then
      assert s == [s[0]] + s[1..];
      [s[0]] + Insert(x, s[1..], leq)
    else [x] + s
  }

  /** Everything `Insert` produces from `x` and `s` comes from one of them. */
  lemma InsertFrom(x: Store, s: seq<Store>, leq: (Store, Store) -> bool, y: Store)
    requires y in Insert(x, s, leq)
    ensures y == x || y in s
  {
    assert y in multiset(Insert(x, s, leq));
  }

  /** A head that precedes the rest of a sorted list may be put back in front. */
  lemma SortedCons(h: Store, rest: seq<Store>, leq: (Store, Store) -> bool)
    requires SortedBy(rest, leq)
    requires forall y :: y in rest ==> leq(h, y)
    ensures SortedBy([h] + rest, leq)
  {
    var r := [h] + rest;
    forall i, j | 0 <= i < j < |r| ensures leq(r[i], r[j]) {
      assert r[j] == rest[j - 1];
      if i > 0 {
        assert r[i] == rest[i - 1];
      }
    }
  }

  /** Inserting into a sorted list keeps it sorted. */
  lemma {:induction false} InsertSorted(x: Store, s: seq<Store>, leq: (Store, Store) -> bool)
    requires TotalPreorder(leq) && SortedBy(s, leq)
    ensures SortedBy(Insert(x, s, leq), leq)
  {
    if s == [] {
    } else if leq(s[0], x) {
      var rest := Insert(x, s[1..], leq);
      InsertSorted(x, s[1..], leq);
      forall y | y in rest ensures leq(s[0], y) {
        InsertFrom(x, s[1..], leq, y);
        if y != x {
          var j :| 0 <= j < |s[1..]| && s[1..][j] == y;
          assert s[j + 1] == y;
        }
      }
      SortedCons(s[0], rest, leq);
    } else {
      forall y | y in s ensures leq(x, y) {
        var j :| 0 <= j < |s| && s[j] == y;
        assert leq(s[0], x) || leq(x, s[0]);
        if j > 0 {
          assert leq(s[0], s[j]);
        }
      }
      SortedCons(x, s, leq);
    }
  }

  /** `[...data].sort(cmp)`: a sorted copy that holds exactly the same stores. */
  function SortCopy(data: seq<Store>, leq: (Store, Store) -> bool): (r: seq<Store>)
    ensures multiset(r) == multiset(data) && |r| == |data|
    ensures TotalPreorder(leq) ==> SortedBy(r, leq)
  {
    if data == [] then []
    else
      var init := data[..|data| - 1];
      assert data == init + [data[|data| - 1]];
      var sortedInit := SortCopy(init, leq);
      var r := Insert(data[|data| - 1], sortedInit, leq);
      assert |r| == |multiset(r)|;
      assert TotalPreorder(leq) ==> SortedBy(r, leq) by {
        if TotalPreorder(leq) {
          InsertSorted(data[|data| - 1], sortedInit, leq);
        }
      }
      r
  }

  /** `handleGoHome`: back to `/<id>` when the page was opened with a store,
      else to `/`. */
  function GoHomeRoute(currentStoreId: Option<string>): (route: string)
    ensures |route| >= 1 && route[0] == '/'
    ensures route == "/" <==> !Truthy(currentStoreId)
    ensures Truthy(currentStoreId) ==> route[1..] == currentStoreId.value
  {
    if Truthy(currentStoreId) then "/" + currentStoreId.value else "/"
  }

  // ---------------------------------------------------------------------
  // The component's state
  // ---------------------------------------------------------------------

  class StoreAdmin {
    const campaign: string
    var data: seq<Store>
    var loading: bool
    var error: Option<string>
    var message: Option<string>
    var newModalOpen: bool
    var editModalOpen: bool
    var editingLoading: bool
    var selectedStore: Option<Store>

    constructor (campaign: string)
      ensures this.campaign == campaign && data == [] && loading
      ensures error == None && message == None && selectedStore == None
      ensures !newModalOpen && !editModalOpen && !editingLoading
    {
      this.campaign := campaign;
      data := [];
      loading := true;
      error := None;
      message := None;
      newModalOpen := false;
      editModalOpen := false;
      editingLoading := false;
      selectedStore := None;
    }

    /** `fetchData`: on success the list is replaced by the merged stores; on
        failure only `error` is set; `loading` ends false either way. */
    method FetchData(stores: StoresReply, counts: CountsReply)
      modifies this`data, this`loading, this`error
      ensures !loading
      ensures FetchFailure(stores, counts).Some? ==>
                data == old(data) && error == Some("Error al cargar datos: " + FetchFailure(stores, counts).value)
      ensures FetchFailure(stores, counts).None? ==>
                data == MergeCounts(stores.stores.value, CountsOf(counts)) && error == old(error)
    {
      loading := true;
      var failure := FetchFailure(stores, counts);
      if failure.Some? {
        error := Some("Error al cargar datos: " + failure.value);
      } else {
        data := MergeCounts(stores.stores.value, CountsOf(counts));
      }
      loading := false;
    }

    /** `handleCreate`: no prize request without a store id; otherwise one per
        input prize. Only when every request succeeds is the new store put in
        front of the unchanged previous list. */
    method HandleCreate(name: string, prizes: seq<NewStoreModal.PrizeInput>, storeReply: CreateStoreReply,
                        backend: PrizeRequest -> CallReply, now: string)
      returns (sent: seq<PrizeRequest>, outcome: Outcome)
      modifies this`data, this`message, this`newModalOpen
      ensures CreatedId(storeReply).None? ==>
                sent == [] && outcome == Fail(CreateFailure(storeReply)) &&
                data == old(data) && message == old(message) && newModalOpen == old(newModalOpen)
      ensures CreatedId(storeReply).Some? ==>
                sent == PrizeRequests(CreatedId(storeReply).value, prizes, campaign)
      ensures CreatedId(storeReply).Some? &&
              PrizeBatchRejection(sent, backend).Some? ==>
                outcome == Fail(PrizeBatchRejection(sent, backend).value) &&
                data == old(data) && message == old(message) && newModalOpen == old(newModalOpen)
      ensures outcome == Pass <==> CreatedId(storeReply).Some? && PrizeBatchRejection(sent, backend).None?
      ensures outcome == Pass ==>
                data == [NewStore(CreatedId(storeReply).value, name, campaign, now, prizes)] + old(data) &&
                message == Some("Tienda y premios creados exitosamente") && !newModalOpen
    {
      var id := CreatedId(storeReply);
      if id.None? {
        return [], Fail(CreateFailure(storeReply));
      }
      sent := PrizeRequests(id.value, prizes, campaign);
      var rejection := PrizeBatchRejection(sent, backend);
      if rejection.Some? {
        return sent, Fail(rejection.value);
      }
      message := Some("Tienda y premios creados exitosamente");
      newModalOpen := false;
      data := [NewStore(id.value, name, campaign, now, prizes)] + data;
      outcome := Pass;
    }

    /** `handleDelete`: on success the list loses the target and every
        inactive row; on failure only `error` changes. */
    method HandleDelete(id: string, reply: DeactivateReply)
      modifies this`data, this`message, this`error
      ensures DeactivateFailure(reply).Some? ==>
                error == DeactivateFailure(reply) && data == old(data) && message == old(message)
      ensures DeactivateFailure(reply).None? ==>
                data == Deactivate(old(data), id) && message == Some("Tienda desactivada exitosamente.") &&
                error == old(error)
    {
      var failure := DeactivateFailure(reply);
      if failure.Some? {
        error := failure;
        return;
      }
      message := Some("Tienda desactivada exitosamente.");
      data := Deactivate(data, id);
    }

    /** `handleUpdate`: without a selected store nothing is sent. Otherwise
        the planned requests are sent; on success only the edited row
        changes, on failure only `error` does. */
    method HandleUpdate(name: string, prizes: seq<PremioEdit>, backend: UpdateRequest -> CallReply, now: string)
      returns (sent: seq<UpdateRequest>)
      modifies this`data, this`loading, this`error, this`message, this`editModalOpen
      ensures old(selectedStore).None? ==>
                sent == [] && error == Some("No hay tienda seleccionada para actualizar.") && !editModalOpen &&
                data == old(data) && loading == old(loading) && message == old(message)
      ensures old(selectedStore).Some? ==>
                sent == UpdatePlan(selectedStore.value, name, prizes) && !loading
      ensures old(selectedStore).Some? &&
              UpdateBatchRejection(sent, backend).Some? ==>
                error == Some("Fallo al guardar cambios: " +
                              UpdateBatchRejection(sent, backend).value) &&
                data == old(data) && message == old(message) && editModalOpen == old(editModalOpen)
      ensures old(selectedStore).Some? &&
              UpdateBatchRejection(sent, backend).None? ==>
                data == ReplaceRow(old(data), selectedStore.value.id, name, prizes, now) &&
                message == Some("Tienda y " + NatToString(|prizes|) + " premios actualizados exitosamente.") &&
                error == None && !editModalOpen
    {
      if selectedStore.None? {
        error := Some("No hay tienda seleccionada para actualizar.");
        editModalOpen := false;
        return [];
      }
      var store := selectedStore.value;
      loading := true;
      error := None;
      sent := PlanUpdates(store, name, prizes);
      var rejection := UpdateBatchRejection(sent, backend);
      if rejection.Some? {
        error := Some("Fallo al guardar cambios: " + rejection.value);
      } else {
        message := Some("Tienda y " + NatToString(|prizes|) + " premios actualizados exitosamente.");
        editModalOpen := false;
        data := ReplaceRow(data, store.id, name, prizes, now);
      }
      loading := false;
    }

    /** `handleEdit`: an unknown id does nothing; otherwise the store, with its
        prizes in the form's shape, is selected and the modal opened, or the
        selection is cleared and the error shown. */
    method HandleEdit(itemId: string, reply: PrizesReply)
      modifies this`error, this`editingLoading, this`selectedStore, this`editModalOpen
      ensures FindStore(data, itemId).None? ==>
                error == old(error) && editingLoading == old(editingLoading) &&
                selectedStore == old(selectedStore) && editModalOpen == old(editModalOpen)
      ensures FindStore(data, itemId).Some? && EditFailure(reply).None? ==>
                selectedStore == Some(FindStore(data, itemId).value.(prizes := Some(MapPrizes(reply.prizes.value)))) &&
                editModalOpen && error == None && !editingLoading
      ensures FindStore(data, itemId).Some? && EditFailure(reply).Some? ==>
                selectedStore == None && error == Some("Error al editar: " + EditFailure(reply).value) &&
                editModalOpen == old(editModalOpen) && !editingLoading
    {
      var fullStore := FindStore(data, itemId);
      if fullStore.None? {
        return;
      }
      error := None;
      editingLoading := true;
      var failure := EditFailure(reply);
      if failure.Some? {
        error := Some("Error al editar: " + failure.value);
        selectedStore := None;
      } else {
        selectedStore := Some(fullStore.value.(prizes := Some(MapPrizes(reply.prizes.value))));
        editModalOpen := true;
      }
      editingLoading := false;
    }
  }
}
