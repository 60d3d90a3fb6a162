/** The trade-creation wizard: the seven-field answer record, its shallow
    last-write-wins merge, the four steps and the fields each one binds,
    the step cursor, and the component state that the event handlers change. */
module MultiPartForm {

  // ---------------------------------------------------------------------
  // The answer record
  // ---------------------------------------------------------------------

  /** The names of the seven fields of the answer record. */
  datatype Field =
    | BuyerAddress
    | SellerTokenAddress
    | SellerTokenAmount
    | BuyerTokenAddress
    | BuyerTokenAmount
    | DatePeriod
    | TimePeriod

  /** The answer record: every field is a string. */
  datatype FormData = FormData(
    buyerAddress: string,
    sellerTokenAddress: string,
    sellerTokenAmount: string,
    buyerTokenAddress: string,
    buyerTokenAmount: string,
    datePeriod: string,
    timePeriod: string)

  /** A partial record: the fields it holds and their values; an absent key
      is a field the partial does not mention. */
  type Partial = map<Field, string>

  /** Reads one field of a record by name. */
  function Get(d: FormData, f: Field): string
  {
    match f
    case BuyerAddress => d.buyerAddress
    case SellerTokenAddress => d.sellerTokenAddress
    case SellerTokenAmount => d.sellerTokenAmount
    case BuyerTokenAddress => d.buyerTokenAddress
    case BuyerTokenAmount => d.buyerTokenAmount
    case DatePeriod => d.datePeriod
    case TimePeriod => d.timePeriod
  }

  /** Two records that agree on every field are the same record. */
  lemma FieldwiseEqual(a: FormData, b: FormData)
    requires forall f :: Get(a, f) == Get(b, f)
    ensures a == b
  {
    assert Get(a, BuyerAddress) == Get(b, BuyerAddress);
    assert Get(a, SellerTokenAddress) == Get(b, SellerTokenAddress);
    assert Get(a, SellerTokenAmount) == Get(b, SellerTokenAmount);
    assert Get(a, BuyerTokenAddress) == Get(b, BuyerTokenAddress);
    assert Get(a, BuyerTokenAmount) == Get(b, BuyerTokenAmount);
    assert Get(a, DatePeriod) == Get(b, DatePeriod);
    assert Get(a, TimePeriod) == Get(b, TimePeriod);
  }

  /** The record the wizard starts from. */
  function Initial(): (d: FormData)
    ensures forall f :: Get(d, f) == ""
  {
    FormData("", "", "", "", "", "", "")
  }

  /** The value a field takes after the merge: the partial's, when it has one. */
  function Pick(fields: Partial, f: Field, current: string): string
  {
    if f in fields then fields[f] else current
  }

  /** The shallow merge `{ ...prev, ...fields }`: every field the partial
      holds takes the partial's value, every other field keeps its value. */
  function Merge(prev: FormData, fields: Partial): (r: FormData)
    ensures forall f :: f in fields ==> Get(r, f) == fields[f]
    ensures forall f :: f !in fields ==> Get(r, f) == Get(prev, f)
  {
    FormData(
      Pick(fields, BuyerAddress, prev.buyerAddress),
      Pick(fields, SellerTokenAddress, prev.sellerTokenAddress),
      Pick(fields, SellerTokenAmount, prev.sellerTokenAmount),
      Pick(fields, BuyerTokenAddress, prev.buyerTokenAddress),
      Pick(fields, BuyerTokenAmount, prev.buyerTokenAmount),
      Pick(fields, DatePeriod, prev.datePeriod),
      Pick(fields, TimePeriod, prev.timePeriod))
  }

  /** Merging the empty partial changes nothing. */
  lemma MergeEmpty(d: FormData)
    ensures Merge(d, map[]) == d
  {
    FieldwiseEqual(Merge(d, map[]), d);
  }

  /** Two successive merges are one merge of the two partials, the later
      one winning on the fields both hold. */
  lemma MergeSequential(d: FormData, p: Partial, q: Partial)
    ensures Merge(Merge(d, p), q) == Merge(d, p + q)
  {
    FieldwiseEqual(Merge(Merge(d, p), q), Merge(d, p + q));
  }

  /** Applying the same partial twice gives the record that applying it once gives. */
  lemma MergeIdempotent(d: FormData, p: Partial)
    ensures Merge(Merge(d, p), p) == Merge(d, p)
  {
    MergeSequential(d, p, p);
    assert p + p == p;
  }

  /** Merges of partials that share no field can be applied in either order. */
  lemma MergeDisjointCommute(d: FormData, p: Partial, q: Partial)
    requires p.Keys !! q.Keys
    ensures Merge(Merge(d, p), q) == Merge(Merge(d, q), p)
  {
    FieldwiseEqual(Merge(Merge(d, p), q), Merge(Merge(d, q), p));
  }

  /** Setting the buyer address and then the seller token amount leaves both
      set and every other field as it was. */
  lemma BuyerAddressThenSellerAmount(d: FormData, address: string, amount: string)
    ensures var r := Merge(Merge(d, map[BuyerAddress := address]), map[SellerTokenAmount := amount]);
      r.buyerAddress == address && r.sellerTokenAmount == amount &&
      forall f :: f != BuyerAddress && f != SellerTokenAmount ==> Get(r, f) == Get(d, f)
  {
    var p := map[BuyerAddress := address];
    var q := map[SellerTokenAmount := amount];
    var m := Merge(Merge(d, p), q);
    assert Get(m, BuyerAddress) == address;
    assert Get(m, SellerTokenAmount) == amount;
  }

  // ---------------------------------------------------------------------
  // The steps and the fields they bind
  // ---------------------------------------------------------------------

  /** The four step components of the wizard. */
  datatype Step =
    | BuyerAddressStep
    | SellerTokenStep
    | BuyerTokenStep
    | TimePeriodStep

  /** The fields whose inputs a step renders, in the order they appear;
      each of those inputs is `required`. */
  function Bindings(s: Step): (fs: seq<Field>)
    ensures 1 <= |fs| <= 2
    ensures forall i, j :: 0 <= i < j < |fs| ==> fs[i] != fs[j]
  {
    match s
    case BuyerAddressStep => [BuyerAddress]
    case SellerTokenStep => [SellerTokenAddress, SellerTokenAmount]
    case BuyerTokenStep => [BuyerTokenAddress, BuyerTokenAmount]
    case TimePeriodStep => [DatePeriod, TimePeriod]
  }

  /** The number of steps handed to the step hook. */
  const StepCount: nat := 4

  /** The fixed step sequence, in the order the wizard walks it. */
  const Steps: seq<Step> := [BuyerAddressStep, SellerTokenStep, BuyerTokenStep, TimePeriodStep]

  /** A cursor into the step sequence. */
  type StepIndex = i: int | 0 <= i < StepCount

  /** The index of the one step whose input writes field `f`. */
  function StepOf(f: Field): (k: StepIndex)
    ensures f in Bindings(Steps[k])
    ensures forall j: StepIndex :: f in Bindings(Steps[j]) ==> j == k
  {
    match f
    case BuyerAddress => 0
    case SellerTokenAddress => 1
    case SellerTokenAmount => 1
    case BuyerTokenAddress => 2
    case BuyerTokenAmount => 2
    case DatePeriod => 3
    case TimePeriod => 3
  }

  /** The change handler of the input for field `f`: the partial it passes to
      `updateFields`. */
  function OnChange(f: Field, value: string): Partial
  {
    map[f := value]
  }

  /** A change handler writes its own field and no other. */
  lemma OnChangeWritesOneField(d: FormData, f: Field, value: string)
    ensures Get(Merge(d, OnChange(f, value)), f) == value
    ensures forall g :: g != f ==> Get(Merge(d, OnChange(f, value)), g) == Get(d, g)
  {
  }

  /** The browser lets a step be submitted only when every input it renders
      is non-empty. */
  predicate StepComplete(d: FormData, s: Step)
  {
    forall i :: 0 <= i < |Bindings(s)| ==> Get(d, Bindings(s)[i]) != ""
  }

  /** Every field of the record is filled. */
  predicate AllFilled(d: FormData)
  {
    forall f :: Get(d, f) != ""
  }

  /** The record is completely filled exactly when every step is complete. */
  lemma AllFilledIffStepsComplete(d: FormData)
    ensures AllFilled(d) <==> forall k: StepIndex :: StepComplete(d, Steps[k])
  {
    if forall k: StepIndex :: StepComplete(d, Steps[k]) {
      forall f ensures Get(d, f) != "" {
        var k := StepOf(f);
        assert StepComplete(d, Steps[k]);
        var i :| 0 <= i < |Bindings(Steps[k])| && Bindings(Steps[k])[i] == f;
      }
    }
  }

  // ---------------------------------------------------------------------
  // The step cursor
  // ---------------------------------------------------------------------

  /** The hook's `isFirstStep`. */
  predicate IsFirstStep(c: StepIndex) { c == 0 }

  /** The hook's `isLastStep`. */
  predicate IsLastStep(c: StepIndex) { c == StepCount - 1 }

  /** The hook's `next`: one step forward, staying put on the last step. */
  function Advance(c: StepIndex): StepIndex
  {
    if IsLastStep(c) then c else c + 1
  }

  /** The hook's `back`: one step back, staying put on the first step. */
  function Retreat(c: StepIndex): StepIndex
  {
    if IsFirstStep(c) then c else c - 1
  }

  /** `back` undoes `next` wherever `next` moved, and the other way round. */
  lemma AdvanceRetreatInverse(c: StepIndex)
    ensures !IsLastStep(c) ==> Advance(c) == c + 1 && Retreat(Advance(c)) == c
    ensures !IsFirstStep(c) ==> Retreat(c) == c - 1 && Advance(Retreat(c)) == c
    ensures IsLastStep(c) ==> Advance(c) == c
    ensures IsFirstStep(c) ==> Retreat(c) == c
  {
  }

  /** `n` calls of `next` from cursor `c`. */
  function AdvanceTimes(c: StepIndex, n: nat): StepIndex
    decreases n
  {
    if n == 0 then c else AdvanceTimes(Advance(c), n - 1)
  }

  /** `n` calls of `back` from cursor `c`. */
  function RetreatTimes(c: StepIndex, n: nat): StepIndex
    decreases n
  {
    if n == 0 then c else RetreatTimes(Retreat(c), n - 1)
  }

  /** Repeated `next` saturates at the last step instead of overshooting. */
  lemma {:induction false} AdvanceTimesSaturates(c: StepIndex, n: nat)
    ensures AdvanceTimes(c, n) == if c + n < StepCount then c + n else StepCount - 1
    decreases n
  {
    if n > 0 {
      AdvanceTimesSaturates(Advance(c), n - 1);
    }
  }

  /** Repeated `back` saturates at the first step instead of going below 0. */
  lemma {:induction false} RetreatTimesSaturates(c: StepIndex, n: nat)
    ensures RetreatTimes(c, n) == if c - n >= 0 then c - n else 0
    decreases n
  {
    if n > 0 {
      RetreatTimesSaturates(Retreat(c), n - 1);
    }
  }

  /** From the first step, four calls of `next` visit 1, 2, 3 and then stay on 3,
      and `back` leaves the cursor on the first step. */
  lemma FourAdvancesFromStart()
    ensures AdvanceTimes(0, 1) == 1 && AdvanceTimes(0, 2) == 2
    ensures AdvanceTimes(0, 3) == 3 && AdvanceTimes(0, 4) == 3
    ensures IsFirstStep(Retreat(0))
  {
    AdvanceTimesSaturates(0, 4);
  }

  /** The Back button is rendered only off the first step. */
  predicate BackOffered(c: StepIndex) { !IsFirstStep(c) }

  /** The label of the submit button. */
  function SubmitLabel(c: StepIndex): (text: string)
    ensures text == "Finish" <==> IsLastStep(c)
    ensures text == "Next" <==> !IsLastStep(c)
  {
    if IsLastStep(c) then "Finish" else "Next"
  }

  // ---------------------------------------------------------------------
  // The component
  // ---------------------------------------------------------------------

  /** What a press of the submit button does. */
  datatype SubmitOutcome =
    | Blocked                      // a required input of the current step is empty
    | Advanced                     // the cursor moved one step forward
    | Finalised(answers: FormData) // on the last step: the settlement is added

  /** The wizard's state: the answer record held in `useState` and the step
      cursor held by the step hook. */
  class Wizard {
    var data: FormData
    var cursor: StepIndex

    /** Every step the cursor has passed was complete, and still is. */
    ghost predicate Valid()
      reads this
    {
      forall k: StepIndex :: k < cursor ==> StepComplete(data, Steps[k])
    }

    constructor ()
      ensures data == Initial() && cursor == 0
      ensures Valid()
    {
      data := Initial();
      cursor := 0;
    }

    function CurrentStep(): Step
      reads this
    {
      Steps[cursor]
    }

    /** `updateFields`: merge a partial into the record. */
    method UpdateFields(fields: Partial)
      modifies this
      ensures data == Merge(old(data), fields)
      ensures cursor == old(cursor)
    {
      data := Merge(data, fields);
    }

    /** A keystroke in the input for `f`, which only the current step renders. */
    method Change(f: Field, value: string)
      requires f in Bindings(CurrentStep())
      modifies this
      ensures data == Merge(old(data), OnChange(f, value))
      ensures cursor == old(cursor)
      ensures old(Valid()) ==> Valid()
    {
      ghost var before := data;
      UpdateFields(OnChange(f, value));
      forall k: StepIndex | k < cursor && old(Valid())
        ensures StepComplete(data, Steps[k])
      {
        assert StepComplete(before, Steps[k]);
        forall i | 0 <= i < |Bindings(Steps[k])|
          ensures Get(data, Bindings(Steps[k])[i]) != ""
        {
          var g := Bindings(Steps[k])[i];
          assert StepOf(g) == k && StepOf(f) == cursor;
        }
      }
    }

    /** The hook's `next`. */
    method Next()
      modifies this
      ensures cursor == Advance(old(cursor))
      ensures data == old(data)
    {
      cursor := Advance(cursor);
    }

    /** The Back button's handler, the hook's `back`; the button exists only
        when it is offered. */
    method Back()
      requires BackOffered(cursor)
      modifies this
      ensures cursor == old(cursor) - 1
      ensures cursor == Retreat(old(cursor))
      ensures data == old(data)
      ensures old(Valid()) ==> Valid()
    {
      cursor := Retreat(cursor);
    }

    /** `onSubmit`, behind the browser's check of the current step's
        `required` inputs: advance when not on the last step, finalise on it. */
    method Submit() returns (outcome: SubmitOutcome)
      modifies this
      ensures data == old(data)
      ensures outcome == Blocked <==> !StepComplete(old(data), Steps[old(cursor)])
      ensures outcome == Advanced <==>
        StepComplete(old(data), Steps[old(cursor)]) && !IsLastStep(old(cursor))
      ensures outcome.Finalised? <==>
        StepComplete(old(data), Steps[old(cursor)]) && IsLastStep(old(cursor))
      ensures outcome == Advanced ==> cursor == old(cursor) + 1
      ensures outcome != Advanced ==> cursor == old(cursor)
      ensures outcome.Finalised? ==> outcome.answers == data
      ensures old(Valid()) ==> Valid()
      ensures old(Valid()) && outcome.Finalised? ==> AllFilled(outcome.answers)
    {
      if !StepComplete(data, Steps[cursor]) {
        outcome := Blocked;
      } else if !IsLastStep(cursor) {
        Next();
        outcome := Advanced;
      } else {
        outcome := Finalised(data);
        if Valid() {
          AllFilledIffStepsComplete(data);
        }
      }
    }
  }
}
