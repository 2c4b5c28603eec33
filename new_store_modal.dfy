/**
 * The "Nueva Tienda" form (src/components/ui/NewStoreModal.tsx): one stock
 * field per prize option, an automatic total, and a submit that sends only
 * the prizes with stock, guarded against double submission.
 */
module NewStoreModal {
  import opened Wrappers
  import opened Js
  import opened JsRecord

  /** One prize line handed to `onCreate`. */
  datatype PrizeInput = PrizeInput(nombre: string, stock: int)

  /** The stock typed for option `p`: `stockValues[p] || 0`. */
  function StockOf(values: Record<int>, p: string): int {
    Get(values, p).GetOr(0)
  }

  /** The prizes sent on submit: the options whose stock is positive, in
      option order, each paired with its stock. */
  function Selection(options: seq<string>, values: Record<int>): (sel: seq<PrizeInput>)
    ensures |sel| <= |options|
    ensures forall i :: 0 <= i < |sel| ==>
              sel[i].nombre in options && sel[i].stock > 0 && sel[i].stock == StockOf(values, sel[i].nombre)
  {
    if options == [] then []
    else
      var v := StockOf(values, options[0]);
      (if v > 0 then [PrizeInput(options[0], v)] else []) + Selection(options[1..], values)
  }

  /** Every option with positive stock is sent. */
  lemma {:induction false} SelectionComplete(options: seq<string>, values: Record<int>, p: string)
    requires p in options && StockOf(values, p) > 0
    ensures PrizeInput(p, StockOf(values, p)) in Selection(options, values)
  {
    if options[0] != p {
      SelectionComplete(options[1..], values, p);
    }
  }

  /** The selection is empty exactly when no option has positive stock. */
  lemma SelectionEmpty(options: seq<string>, values: Record<int>)
    ensures Selection(options, values) == [] <==> forall p :: p in options ==> StockOf(values, p) <= 0
  {
    forall p | p in options && StockOf(values, p) > 0
      ensures Selection(options, values) != []
    {
      SelectionComplete(options, values, p);
    }
  }

  /** The selection keeps option order: it distributes over concatenation. */
  lemma {:induction false} SelectionAppend(o1: seq<string>, o2: seq<string>, values: Record<int>)
    ensures Selection(o1 + o2, values) == Selection(o1, values) + Selection(o2, values)
  {
    if o1 != [] {
      assert (o1 + o2)[0] == o1[0];
      assert (o1 + o2)[1..] == o1[1..] + o2;
      SelectionAppend(o1[1..], o2, values);
    } else {
      assert o1 + o2 == o2;
    }
  }

  /** A record of zeros sums to zero. */
  lemma ZeroedTotal(s: Record<int>)
    requires forall e :: e in s ==> e.1 == 0
    ensures Sum(Values(s)) == 0
  {
    var vs := Values(s);
    forall j | 0 <= j < |vs| ensures vs[j] == 0 {
      assert s[j] in s;
    }
    SumZeros(vs);
  }

  /** What a submit does before `onCreate` settles. */
  datatype SubmitStep =
    | Ignored                                              // already submitting
    | EmptySelection                                       // alert, nothing sent
    | CallCreate(name: string, selected: seq<PrizeInput>)  // `onCreate(name, selected)` in flight

  /** What happens once `onCreate` has settled. */
  datatype Settled = Closed | ErrorAlert(text: string)

  class NewStoreForm {
    const prizeOptions: seq<string>
    var name: string
    var stockValues: Record<int>
    var submitting: bool

    /** Every stored stock is non-negative. */
    ghost predicate Valid()
      reads this
    {
      DistinctKeys(stockValues) && forall e :: e in stockValues ==> e.1 >= 0
    }

    constructor (prizeOptions: seq<string>)
      ensures Valid() && this.prizeOptions == prizeOptions
      ensures name == "" && stockValues == [] && !submitting
    {
      this.prizeOptions := prizeOptions;
      name := "";
      stockValues := [];
      submitting := false;
    }

    /** The read-only "Total de premios" field: the sum of all stored stocks. */
    function Total(): (t: int)
      reads this
      requires Valid()
      ensures t >= 0
    {
      var vs := Values(stockValues);
      assert forall i :: 0 <= i < |vs| ==> vs[i] >= 0 by {
        forall i | 0 <= i < |vs| ensures vs[i] >= 0 {
          assert stockValues[i] in stockValues;
        }
      }
      SumNonNegative(vs);
      Sum(vs)
    }

    /** The effect run when the modal is shown: every option's stock to 0 and
        the name cleared. */
    method Open(show: bool)
      requires Valid()
      modifies this`name, this`stockValues
      ensures Valid()
      ensures !show ==> name == old(name) && stockValues == old(stockValues)
      ensures show ==> name == ""
      ensures show ==> forall k :: k in prizeOptions <==> Get(stockValues, k).Some?
      ensures show ==> forall k :: k in prizeOptions ==> Get(stockValues, k) == Some(0)
      ensures show ==> Total() == 0
    {
      if show {
        var s := FillAll(prizeOptions, 0);
        ZeroedTotal(s);
        stockValues := s;
        name := "";
      }
    }

    /** The stock field's `onChange`: `Math.max(0, parseInt(value) || 0)`
        stored under `p`, nothing else touched. */
    method SetStock(p: string, parsed: JsNumber)
      requires Valid()
      modifies this`stockValues
      ensures Valid()
      ensures Get(stockValues, p) == Some(ClampZero(OrZero(parsed)))
      ensures forall k :: k != p ==> Get(stockValues, k) == Get(old(stockValues), k)
      ensures Total() == old(Total()) - StockOf(old(stockValues), p) + ClampZero(OrZero(parsed))
    {
      var v := ClampZero(OrZero(parsed));
      PutGet(stockValues, p, v);
      PutEntries(stockValues, p, v);
      PutKeepsDistinct(stockValues, p, v);
      SumAfterPut(stockValues, p, v);
      forall k | k != p ensures Get(Put(stockValues, p, v), k) == Get(stockValues, k) {
        PutOther(stockValues, p, v, k);
      }
      stockValues := Put(stockValues, p, v);
    }

    /** `handleSubmit` up to the `await`: a no-op while submitting; an empty
        selection is rejected and the flag reset; otherwise `onCreate` is
        called with the current name and the selection, and the flag stays
        set until it settles. */
    method Submit() returns (step: SubmitStep)
      requires Valid()
      modifies this`submitting
      ensures Valid()
      ensures old(submitting) ==> step == Ignored && submitting
      ensures !old(submitting) && Selection(prizeOptions, stockValues) == [] ==>
                step == EmptySelection && !submitting
      ensures !old(submitting) && Selection(prizeOptions, stockValues) != [] ==>
                step == CallCreate(name, Selection(prizeOptions, stockValues)) && submitting
    {
      if submitting {
        return Ignored;
      }
      submitting := true;
      var selected := Selection(prizeOptions, stockValues);
      if |selected| == 0 {
        submitting := false;
        return EmptySelection;
      }
      step := CallCreate(name, selected);
    }

    /** `handleSubmit` after the `await`: `onClose` only on success, an alert
        on failure, and the flag cleared either way. */
    method CreateSettled(outcome: Outcome) returns (after: Settled)
      modifies this`submitting
      ensures !submitting
      ensures after == Closed <==> outcome == Pass
      ensures outcome.Fail? ==> after == ErrorAlert("Error: " + outcome.error)
    {
      after := match outcome
        case Pass => Closed
        case Fail(e) => ErrorAlert("Error: " + e);
      submitting := false;
    }
  }
}
