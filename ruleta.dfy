/**
 * The prize wheel (src/pages/Ruleta.tsx): which prizes the wheel shows, the
 * gate in front of a spin, and which segment a won prize lands on.
 */
module Ruleta {
  import opened Wrappers
  import opened Js
  import UseRegistration
  import RegisterPage

  datatype WheelPrize = WheelPrize(id: int, caption: string)

  const AllPrizes: seq<WheelPrize> :=
    [WheelPrize(1, "Abanico"), WheelPrize(2, "Pelota Inflable"), WheelPrize(3, "Frisbee"),
     WheelPrize(4, "Premio Sodimac")]

  const MockInventory: map<int, int> := map[1 := 10, 2 := 5, 3 := 5, 4 := 5]

  /** `mockInventory[id] ?? 0` */
  function InventoryOf(inventory: map<int, int>, id: int): int {
    if id in inventory then inventory[id] else 0
  }

  /** The prizes with stock left, in their original order. */
  function InStock(prizes: seq<WheelPrize>, inventory: map<int, int>): (r: seq<WheelPrize>)
    ensures |r| <= |prizes|
    ensures forall p :: p in r <==> p in prizes && InventoryOf(inventory, p.id) > 0
  {
    if prizes == [] then []
    else (if InventoryOf(inventory, prizes[0].id) > 0 then [prizes[0]] else []) + InStock(prizes[1..], inventory)
  }

  /** The filter keeps order: filtering a concatenation filters each part. */
  lemma {:induction false} InStockAppend(a: seq<WheelPrize>, b: seq<WheelPrize>, inventory: map<int, int>)
    ensures InStock(a + b, inventory) == InStock(a, inventory) + InStock(b, inventory)
  {
    if a == [] {
      assert a + b == b;
    } else {
      assert (a + b)[0] == a[0];
      assert (a + b)[1..] == a[1..] + b;
      InStockAppend(a[1..], b, inventory);
    }
  }

  /** `activePrizes`: every prize without a store id, else the prizes in stock. */
  function ActivePrizes(activeStoreId: Option<string>, prizes: seq<WheelPrize>, inventory: map<int, int>)
    : (r: seq<WheelPrize>)
    ensures !Truthy(activeStoreId) ==> r == prizes
    ensures Truthy(activeStoreId) ==> r == InStock(prizes, inventory)
  {
    if !Truthy(activeStoreId) then prizes else InStock(prizes, inventory)
  }

  /** When every prize has stock left the filter keeps them all. */
  lemma {:induction false} InStockKeepsAll(prizes: seq<WheelPrize>, inventory: map<int, int>)
    requires forall i :: 0 <= i < |prizes| ==> InventoryOf(inventory, prizes[i].id) > 0
    ensures InStock(prizes, inventory) == prizes
  {
    if prizes != [] {
      InStockKeepsAll(prizes[1..], inventory);
      assert [prizes[0]] + prizes[1..] == prizes;
    }
  }

  /** With the built-in inventory every prize is in stock, so the wheel always
      shows all four. */
  lemma MockInventoryKeepsAll(activeStoreId: Option<string>)
    ensures ActivePrizes(activeStoreId, AllPrizes, MockInventory) == AllPrizes
  {
    forall i | 0 <= i < |AllPrizes| ensures InventoryOf(MockInventory, AllPrizes[i].id) > 0 {
      assert AllPrizes[i].id in MockInventory.Keys;
    }
    InStockKeepsAll(AllPrizes, MockInventory);
  }

  /** The label key a prize name is matched against: the lower-cased label
      up to its first `/`. */
  function LabelKey(caption: string): (key: string)
    ensures forall c :: c in key ==> !IsUpper(c) && c != '/'
  {
    ToLower(BeforeFirst(ToLower(caption), '/'))
  }

  /** The `findIndex` predicate: the lower-cased prize name contains the key. */
  predicate MatchesPrize(prizeName: string, p: WheelPrize) {
    Contains(ToLower(prizeName), LabelKey(p.caption))
  }

  /** `findIndex` from position `from` on: the first matching prize at or
      after `from`, or -1 when none matches there. */
  function FindFrom(prizes: seq<WheelPrize>, prizeName: string, from: nat): (i: int)
    requires from <= |prizes|
    decreases |prizes| - from
    ensures i == -1 || from <= i < |prizes|
    ensures i == -1 <==> forall j :: from <= j < |prizes| ==> !MatchesPrize(prizeName, prizes[j])
    ensures 0 <= i ==> MatchesPrize(prizeName, prizes[i]) &&
                       forall j :: from <= j < i ==> !MatchesPrize(prizeName, prizes[j])
  {
    if from == |prizes| then -1
    else if MatchesPrize(prizeName, prizes[from]) then from
    else FindFrom(prizes, prizeName, from + 1)
  }

  /** `findIndex`: the first matching prize, or -1 when none matches. */
  function FindIndex(prizes: seq<WheelPrize>, prizeName: string): (i: int)
    ensures -1 <= i < |prizes|
    ensures i == -1 <==> forall j :: 0 <= j < |prizes| ==> !MatchesPrize(prizeName, prizes[j])
    ensures 0 <= i ==> MatchesPrize(prizeName, prizes[i]) &&
                       forall j :: 0 <= j < i ==> !MatchesPrize(prizeName, prizes[j])
  {
    FindFrom(prizes, prizeName, 0)
  }

  /** The segment the wheel stops on: the first match, else the first segment. */
  function TargetIndex(prizes: seq<WheelPrize>, prizeName: string): (i: int)
    requires prizes != []
    ensures 0 <= i < |prizes|
    ensures (exists j :: 0 <= j < |prizes| && MatchesPrize(prizeName, prizes[j])) ==>
              MatchesPrize(prizeName, prizes[i]) && forall j :: 0 <= j < i ==> !MatchesPrize(prizeName, prizes[j])
    ensures (forall j :: 0 <= j < |prizes| ==> !MatchesPrize(prizeName, prizes[j])) ==> i == 0
  {
    var k := FindIndex(prizes, prizeName);
    if k != -1 then k else 0
  }

  // ---------------------------------------------------------------------
  // The page's state
  // ---------------------------------------------------------------------

  class Wheel {
    const activeStoreId: Option<string>
    const prizes: seq<WheelPrize>
    /** The registration hook the page uses. */
    const hook: UseRegistration.Registration
    var isSpinning: bool
    var winningId: Option<int>

    constructor (param: Option<string>, query: Option<string>, campaign: string)
      ensures activeStoreId == RegisterPage.ActiveStoreId(param, query)
      ensures prizes == ActivePrizes(activeStoreId, AllPrizes, MockInventory) && prizes == AllPrizes
      ensures fresh(hook) && hook.storeId == param && hook.campaign == campaign
      ensures !isSpinning && winningId == None
    {
      activeStoreId := RegisterPage.ActiveStoreId(param, query);
      MockInventoryKeepsAll(RegisterPage.ActiveStoreId(param, query));
      prizes := ActivePrizes(RegisterPage.ActiveStoreId(param, query), AllPrizes, MockInventory);
      hook := new UseRegistration.Registration(param, campaign);
      isSpinning := false;
      winningId := None;
    }

    /** `onSpinClick`: blocked while spinning, while loading or without a
        store id. Exactly a success with a prize name lands on the target
        segment, marks its prize and opens `/exit` anonymously with that name
        and the registration id; any other result stops the spin. */
    method OnSpinClick(upload: UseRegistration.UploadReply, register: UseRegistration.RegisterReply)
      returns (spun: bool, exit: Option<RegisterPage.ExitState>)
      requires prizes != []
      modifies this`isSpinning, this`winningId, hook`loading, hook`message
      ensures spun <==> !old(isSpinning) && !old(hook.loading) && Truthy(activeStoreId)
      ensures !spun ==> isSpinning == old(isSpinning) && winningId == old(winningId) &&
                        hook.loading == old(hook.loading) && hook.message == old(hook.message)
      ensures spun && exit.None? ==> !isSpinning && winningId == None
      ensures exit.Some? ==> spun && isSpinning && exit.value.isAnonymous &&
                             exit.value.storeId == activeStoreId &&
                             winningId == Some(prizes[TargetIndex(prizes, exit.value.prizeName)].id)
      ensures spun ==> !hook.loading &&
                       hook.message == UseRegistration.SpinAttempt(hook.storeId, hook.campaign, hook.name, hook.phone,
                                                                   hook.voucher, upload, register).message
      ensures exit.Some? <==> spun && UseRegistration.Wins(hook.storeId, hook.campaign, hook.name, hook.phone,
                                                           hook.voucher, upload, register)
      ensures exit.Some? ==>
                exit.value == RegisterPage.ExitState(register.prize.value, register.registerId, true, activeStoreId)
      ensures AllSpace(old(hook.phone)) ==> exit.None?
    {
      if isSpinning || hook.loading || !Truthy(activeStoreId) {
        return false, None;
      }
      isSpinning := true;
      winningId := None;
      var result, calls := hook.HandleSpin(upload, register);
      UseRegistration.WinsExactly(hook.storeId, hook.campaign, hook.name, hook.phone, hook.voucher, upload, register);
      spun := true;
      if result.success && Truthy(result.prizeName) {
        var target := TargetIndex(prizes, result.prizeName.value);
        winningId := Some(prizes[target].id);
        exit := Some(RegisterPage.ExitState(result.prizeName.value, result.registerId, true, activeStoreId));
      } else {
        isSpinning := false;
        exit := None;
      }
    }
  }
}
