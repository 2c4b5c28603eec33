/**
 * The older, unused store form (src/components/ui/store-modal.tsx). Unlike
 * `NewStoreModal` it keeps raw `Math.max(0, Number(value))` results, so a
 * non-numeric entry is stored as NaN, and it always calls `onCreate` and
 * then `onClose`, even with nothing selected.
 */
module LegacyStoreModal {
  import opened Wrappers
  import opened Js
  import opened JsRecord
  import NewStoreModal

  /** A quantity entry as an integer: NaN never passes `> 0`, so it counts as 0. */
  function AsStocks(q: Record<JsNumber>): (r: Record<int>)
    ensures |r| == |q|
    ensures forall k :: Get(r, k) == (match Get(q, k) case Some(x) => Some(OrZero(x)) case None => None)
  {
    if q == [] then []
    else [(q[0].0, OrZero(q[0].1))] + AsStocks(q[1..])
  }

  class LegacyStoreForm {
    const prizeOptions: seq<string>
    var name: string
    var quantities: Record<JsNumber>

    /** Every stored quantity is NaN or a non-negative number. */
    ghost predicate Valid()
      reads this
    {
      DistinctKeys(quantities) && forall e :: e in quantities ==> e.1.NaN? || e.1.n >= 0
    }

    constructor (prizeOptions: seq<string>)
      ensures Valid() && this.prizeOptions == prizeOptions
      ensures name == "" && quantities == []
    {
      this.prizeOptions := prizeOptions;
      name := "";
      quantities := [];
    }

    /** The effect on `[prizeOptions]`: every option's quantity set to 0. */
    method Init()
      modifies this`quantities
      ensures Valid()
      ensures forall k :: k in prizeOptions <==> Get(quantities, k).Some?
      ensures forall k :: k in prizeOptions ==> Get(quantities, k) == Some(Num(0))
    {
      var init := FillAll(prizeOptions, Num(0));
      quantities := init;
    }

    /** `handleQtyChange`: `Math.max(0, Number(value))` stored under `prize`,
        every other entry kept. */
    method HandleQtyChange(prize: string, value: JsNumber)
      requires Valid()
      modifies this`quantities
      ensures Valid()
      ensures Get(quantities, prize) == Some(MaxZero(value))
      ensures forall k :: k != prize ==> Get(quantities, k) == Get(old(quantities), k)
    {
      var v := MaxZero(value);
      PutGet(quantities, prize, v);
      PutEntries(quantities, prize, v);
      PutKeepsDistinct(quantities, prize, v);
      forall k | k != prize ensures Get(Put(quantities, prize, v), k) == Get(quantities, k) {
        PutOther(quantities, prize, v, k);
      }
      quantities := Put(quantities, prize, v);
    }

    /** The name field's `onChange`. */
    method SetName(value: string)
      modifies this`name
      ensures name == value
    {
      name := value;
    }

    /** `handleSubmit`: `onCreate` gets the current name and the options with
        a positive quantity, in option order, and `onClose` always follows. */
    method HandleSubmit() returns (createdName: string, created: seq<NewStoreModal.PrizeInput>, closed: bool)
      ensures createdName == name
      ensures created == NewStoreModal.Selection(prizeOptions, AsStocks(quantities))
      ensures forall i :: 0 <= i < |created| ==>
                Get(quantities, created[i].nombre) == Some(Num(created[i].stock)) && created[i].stock > 0
      ensures closed
    {
      createdName := name;
      created := NewStoreModal.Selection(prizeOptions, AsStocks(quantities));
      forall i | 0 <= i < |created|
        ensures Get(quantities, created[i].nombre) == Some(Num(created[i].stock))
      {
        var q := Get(quantities, created[i].nombre);
        assert NewStoreModal.StockOf(AsStocks(quantities), created[i].nombre) > 0;
        assert q.Some? && q.value.Num?;
      }
      closed := true;
    }
  }
}
