/** The create-commitment wizard: three steps, the step-2 form checks, the derived
    penalty rate and loss warning, and the id shown after a simulated submission.
    `Number(amount)` is the uninterpreted `toNumber`, `router.push` is returned as a
    navigation target, and `Math.random()` is a sequence of draws in [0, 1). */
module CreateWizard {
  import opened Wrappers
  import opened JsValues

  type Step = s: int | 1 <= s <= 3 witness 1

  const FirstStep: Step := 1
  const LastStep: Step := 3

  /** `handleNext`: one step forward, except from the last step. */
  function HandleNext(step: Step): (r: Step)
    ensures step < LastStep ==> r == step + 1
    ensures step == LastStep ==> r == step
  {
    if step < LastStep then step + 1 else step
  }

  /** `handleBack`: one step back, and the home page from the first step. */
  function HandleBack(step: Step): (r: (Step, Option<string>))
    ensures step > FirstStep ==> r == (step - 1, None)
    ensures step == FirstStep ==> r == (step, Some("/"))
  {
    if step > FirstStep then (step - 1, None) else (step, Some("/"))
  }

  /** Back undoes Next below the last step, and Next undoes Back above the first. */
  lemma BackUndoesNext(step: Step)
    ensures step < LastStep ==> HandleBack(HandleNext(step)) == (step, None)
    ensures step > FirstStep ==> HandleNext(HandleBack(step).0) == step
  {
  }

  datatype WizardType = Safe | Balanced | Aggressive

  /** The mocked wallet balance. */
  const AvailableBalance := 10000
  const MinDuration := 1
  const MaxDuration := 365
  const MaxLossWarningAbove := 80

  /** `isStep2Valid`. `NaN` fails both amount comparisons. A form it accepts never
      shows an amount error. */
  function IsStep2Valid(amount: string, durationDays: int, maxLossPercent: int, toNumber: string -> JsNumber)
    : (valid: bool)
    ensures valid ==> AmountError(amount, toNumber).None?
  {
    && toNumber(amount).Num? && 0 < toNumber(amount).v <= AvailableBalance
    && MinDuration <= durationDays <= MaxDuration
    && 0 <= maxLossPercent <= 100
  }

  const AmountNotPositive := "Amount must be greater than 0"
  const AmountOverBalance := "Amount exceeds available balance"

  /** `amountError`: a non-empty amount that is not positive, then an amount over
      the balance. An empty amount and `NaN` raise nothing. */
  function AmountError(amount: string, toNumber: string -> JsNumber): (r: Option<string>)
    ensures amount != "" && toNumber(amount).Num? && toNumber(amount).v <= 0 ==> r == Some(AmountNotPositive)
    ensures (&& !(amount != "" && toNumber(amount).Num? && toNumber(amount).v <= 0)
             && toNumber(amount).Num? && toNumber(amount).v > AvailableBalance)
            ==> r == Some(AmountOverBalance)
    ensures r.None? <==>
              toNumber(amount).NaN?
              || (amount == "" && toNumber(amount).v <= AvailableBalance)
              || 0 < toNumber(amount).v <= AvailableBalance
  {
    var n := toNumber(amount);
    if amount != "" && n.Num? && n.v <= 0 then Some(AmountNotPositive)
    else if n.Num? && n.v > AvailableBalance then Some(AmountOverBalance)
    else None
  }

  /** A valid step 2 shows no amount error; and for a typed-in amount that is a
      number, no amount error with duration and loss in range is a valid step 2. */
  lemma Step2ValidAndAmountError(amount: string, durationDays: int, maxLossPercent: int,
                                 toNumber: string -> JsNumber)
    ensures IsStep2Valid(amount, durationDays, maxLossPercent, toNumber) ==> AmountError(amount, toNumber).None?
    ensures amount != "" && toNumber(amount).Num?
            && MinDuration <= durationDays <= MaxDuration && 0 <= maxLossPercent <= 100 ==>
              (IsStep2Valid(amount, durationDays, maxLossPercent, toNumber) <==> AmountError(amount, toNumber).None?)
  {
  }

  /** The early-exit penalty rate in percent. */
  function PenaltyRate(t: WizardType): (rate: int)
    ensures t == Aggressive <==> rate == 5
    ensures t == Balanced <==> rate == 3
    ensures t == Safe <==> rate == 2
  {
    match t
    case Aggressive => 5
    case Balanced => 3
    case Safe => 2
  }

  /** `maxLossWarning`. Among the losses the form accepts, the warning shows
      exactly for 81% to 100%. */
  function MaxLossWarning(maxLossPercent: int): (warn: bool)
    ensures 0 <= maxLossPercent <= 100 ==> (warn <==> 81 <= maxLossPercent <= 100)
  {
    maxLossPercent > MaxLossWarningAbove
  }

  /** A larger loss limit never hides a warning a smaller one shows. */
  lemma MaxLossWarningMonotone(a: int, b: int)
    requires a <= b
    ensures MaxLossWarning(a) ==> MaxLossWarning(b)
  {
  }

  // ------------------------------------------------------------ commitment ids

  const IdAlphabet := "ABCDEFGHIJKLMNOPQRSTUVWXYZ0123456789"
  const IdPrefix := "CMT-"
  const IdRandomLength := 7

  predicate IsIdChar(c: char) {
    ('A' <= c <= 'Z') || ('0' <= c <= '9')
  }

  /** The shape of a generated id: `CMT-` and seven characters from [A-Z0-9]. */
  predicate IsCommitmentIdShape(id: string) {
    && |id| == |IdPrefix| + IdRandomLength
    && id[..|IdPrefix|] == IdPrefix
    && forall i :: |IdPrefix| <= i < |id| ==> IsIdChar(id[i])
  }

  predicate IsDraw(x: real) {
    0.0 <= x < 1.0
  }

  /** `chars.charAt(Math.floor(draw * chars.length))`. */
  function CharOf(draw: real): (c: char)
    requires IsDraw(draw)
    ensures IsIdChar(c)
  {
    var k := (draw * |IdAlphabet| as real).Floor;
    assert 0 <= k < |IdAlphabet|;
    IdAlphabet[k]
  }

  /** `generateCommitmentId`, given the seven values `Math.random()` returns. */
  method GenerateCommitmentId(draws: seq<real>) returns (id: string)
    requires |draws| == IdRandomLength
    requires forall i :: 0 <= i < |draws| ==> IsDraw(draws[i])
    ensures IsCommitmentIdShape(id)
    ensures forall i :: 0 <= i < IdRandomLength ==> id[|IdPrefix| + i] == CharOf(draws[i])
  {
    id := IdPrefix;
    var i := 0;
    while i < IdRandomLength
      invariant 0 <= i <= IdRandomLength
      invariant |id| == |IdPrefix| + i && id[..|IdPrefix|] == IdPrefix
      invariant forall j :: 0 <= j < i ==> id[|IdPrefix| + j] == CharOf(draws[j])
      invariant forall k :: |IdPrefix| <= k < |id| ==> IsIdChar(id[k])
    {
      id := id + [CharOf(draws[i])];
      i := i + 1;
    }
  }

  // ------------------------------------------------------------ page state

  datatype Wizard = Wizard(
    currentStep: Step,
    commitmentType: WizardType,
    selectedType: Option<WizardType>,
    amount: string,
    asset: string,
    durationDays: int,
    maxLossPercent: int,
    showSuccessModal: bool,
    commitmentId: string)

  /** The page's initial state. */
  const Initial := Wizard(1, Balanced, None, "", "XLM", 90, 100, false, "")

  /** The user's actions, with the id a submission generates. */
  datatype Event =
    | SelectType(t: WizardType)
    | StepNext
    | Back
    | Next
    | Edit(amount: string, asset: string, durationDays: int, maxLossPercent: int)
    | Submitted(newId: string)
    | CreateAnother
    | CloseModal

  /** One action: the new state and where the router is sent, if anywhere. */
  function Handle(w: Wizard, e: Event): (r: (Wizard, Option<string>))
    ensures e.CreateAnother? ==> r == (Initial, None)
    ensures e.Next? ==> r == (w.(currentStep := HandleNext(w.currentStep)), None)
    ensures e.Back? ==> r.0 == w.(currentStep := HandleBack(w.currentStep).0)
                        && (r.1.Some? <==> w.currentStep == FirstStep)
    ensures e.Submitted? ==> r.0 == w.(commitmentId := e.newId, showSuccessModal := true)
    ensures !e.Submitted? && !e.CreateAnother? ==> r.0.commitmentId == w.commitmentId
    ensures e.SelectType? ==> r == (w.(selectedType := Some(e.t), commitmentType := e.t), None)
    ensures e.StepNext? ==> r == (w.(currentStep := 2), None)
    ensures e.Edit? ==>
              r == (w.(amount := e.amount, asset := e.asset, durationDays := e.durationDays,
                       maxLossPercent := e.maxLossPercent), None)
    ensures e.CloseModal? ==> r == (w.(showSuccessModal := false), Some("/commitments"))
    ensures r.1.Some? <==> e.CloseModal? || (e.Back? && w.currentStep == FirstStep)
  {
    match e
    case SelectType(t) => (w.(selectedType := Some(t), commitmentType := t), None)
    case StepNext => (w.(currentStep := 2), None)
    case Back =>
      var (step, target) := HandleBack(w.currentStep);
      (w.(currentStep := step), target)
    case Next => (w.(currentStep := HandleNext(w.currentStep)), None)
    case Edit(amount, asset, days, loss) =>
      (w.(amount := amount, asset := asset, durationDays := days, maxLossPercent := loss), None)
    case Submitted(id) => (w.(commitmentId := id, showSuccessModal := true), None)
    case CreateAnother => (Initial, None)
    case CloseModal => (w.(showSuccessModal := false), Some("/commitments"))
  }

  /** Choosing a type and continuing from step 1 lands on step 2 with that type
      both selected and in use, and the form as it was. */
  lemma SelectThenContinue(w: Wizard, t: WizardType)
    ensures var r := Handle(Handle(w, SelectType(t)).0, StepNext).0;
            && r.currentStep == 2 && r.selectedType == Some(t) && r.commitmentType == t
            && r.amount == w.amount && r.asset == w.asset
            && r.durationDays == w.durationDays && r.maxLossPercent == w.maxLossPercent
            && r.showSuccessModal == w.showSuccessModal && r.commitmentId == w.commitmentId
  {
  }

  /** Closing the success dialog after a submission hides it, keeps the generated
      id, and sends the router to the commitments list. */
  lemma CloseAfterSubmit(w: Wizard, id: string)
    ensures var r := Handle(Handle(w, Submitted(id)).0, CloseModal);
            && !r.0.showSuccessModal && r.0.commitmentId == id && r.1 == Some("/commitments")
            && r.0.currentStep == w.currentStep
  {
  }

  function Run(w: Wizard, es: seq<Event>): Wizard
    decreases |es|
  {
    if es == [] then w else Run(Handle(w, es[0]).0, es[1..])
  }

  /** Whenever the success dialog is open, it shows a well-formed id, as long as every
      submission used a generated one. */
  ghost predicate ModalShowsId(w: Wizard) {
    w.showSuccessModal ==> IsCommitmentIdShape(w.commitmentId)
  }

  lemma {:induction false} RunShowsIds(w: Wizard, es: seq<Event>)
    requires ModalShowsId(w)
    requires forall i :: 0 <= i < |es| && es[i].Submitted? ==> IsCommitmentIdShape(es[i].newId)
    ensures ModalShowsId(Run(w, es))
    decreases |es|
  {
    if es != [] {
      var next := Handle(w, es[0]).0;
      assert ModalShowsId(next);
      assert forall i :: 0 <= i < |es[1..]| && es[1..][i].Submitted? ==> IsCommitmentIdShape(es[1..][i].newId) by {
        forall i | 0 <= i < |es[1..]| && es[1..][i].Submitted?
          ensures IsCommitmentIdShape(es[1..][i].newId)
        {
          assert es[1..][i] == es[i + 1];
        }
      }
      RunShowsIds(next, es[1..]);
    }
  }

  /** "Create another" restores the initial form whatever happened before: the
      first step, a balanced commitment, no amount, XLM, 90 days and 100% loss, and
      the form is not yet valid when the empty amount reads as 0. */
  lemma CreateAnotherResets(w: Wizard, toNumber: string -> JsNumber)
    requires toNumber("") == Num(0)
    ensures var r := Handle(w, CreateAnother).0;
            && r.currentStep == FirstStep && r.commitmentType == Balanced && r.selectedType == None
            && r.amount == "" && r.asset == "XLM" && r.durationDays == 90 && r.maxLossPercent == 100
            && !r.showSuccessModal && r.commitmentId == ""
            && !IsStep2Valid(r.amount, r.durationDays, r.maxLossPercent, toNumber)
            && AmountError(r.amount, toNumber).None?
            && MaxLossWarning(r.maxLossPercent)
  {
  }
}
