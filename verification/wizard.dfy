/** The payment wizard of `src/pages/Index.tsx` as values: the controller's
    state, one transition function per event handler or timer callback, and
    the facts the handlers keep. The class in module `Controller` performs
    the same updates field by field and is specified by these functions. */
module Wizard {
  import opened Strings

  datatype Step = Form | PaymentMethod | CardPayment | SbpPayment | Processing | Success

  datatype PayMethod = Card | Sbp

  /** The three form fields the payer edits freely; the contract number has
      its own filtered input handler. */
  datatype Field = FullName | BirthDate | Amount

  datatype FormData = FormData(fullName: string, birthDate: string, contractNumber: string, amount: string)

  const EmptyForm := FormData("", "", "", "")

  /** A toast: title, description and whether it uses the destructive style. */
  datatype Notification = Notification(title: string, description: string, destructive: bool)

  const MissingFieldsNotice := Notification("Заполните все поля", "Все поля обязательны для заполнения", true)
  const BadContractNotice := Notification("Некорректный номер договора", "Номер должен содержать 8 цифр", true)
  const BadAmountNotice := Notification("Некорректная сумма", "Введите положительное число", true)
  const ExpiredNotice := Notification("Время истекло", "Пожалуйста, начните процесс оплаты заново", true)
  const PaidNotice := Notification("Оплата успешна!", "Ваш платёж обработан", false)
  const CopiedNotice := Notification("Скопировано", "Данные скопированы в буфер обмена", false)

  const ContractLength := 8
  const TransferWindow := 180
  const ProcessingWindow := 60
  const PaymentIdPrefix := "PAY-"

  /** What `parseFloat` returns: not a number, a finite value, or an infinity. */
  datatype ParsedNumber = NaN | Finite(value: real) | PositiveInfinity | NegativeInfinity

  /** The amount test `!(isNaN(x) || x <= 0)`. Positive infinity passes it. */
  predicate IsPositiveAmount(p: ParsedNumber) {
    p.PositiveInfinity? || (p.Finite? && p.value > 0.0)
  }

  datatype Rejection = MissingField | BadContractNumber | BadAmount

  datatype Verdict = Accepted | Rejected(reason: Rejection)

  /** The controller's state. `pendingChecks` counts the check-payment
      timeouts that are scheduled and have not fired yet; `log` is every
      toast shown so far, oldest first. */
  datatype State = State(
    step: Step,
    form: FormData,
    paymentMethod: PayMethod,
    timeLeft: int,
    isChecking: bool,
    paymentId: string,
    processingTime: int,
    pendingChecks: nat,
    log: seq<Notification>)

  const Initial := State(Form, EmptyForm, Card, TransferWindow, false, "", ProcessingWindow, 0, [])

  predicate InTransfer(step: Step) { step == CardPayment || step == SbpPayment }

  predicate IsContractInput(s: string) { AllDigits(s) && |s| <= ContractLength }

  // ---------------------------------------------------------------- form

  /** The contract-number input filter: drop every non-digit, keep the first
      eight digits. */
  function FilterContractNumber(value: string): (r: string)
    ensures IsContractInput(r)
    ensures r <= Filter(value, IsDigit)
    ensures |r| == if |Filter(value, IsDigit)| < ContractLength then |Filter(value, IsDigit)| else ContractLength
    ensures IsContractInput(value) ==> r == value
  {
    var cleaned := Filter(value, IsDigit);
    if IsContractInput(value) then FilterKeepsAll(value, IsDigit); cleaned
    else if |cleaned| <= ContractLength then cleaned else cleaned[..ContractLength]
  }

  /** Filtering an already filtered contract number changes nothing. */
  lemma FilterContractNumberIdempotent(value: string)
    ensures FilterContractNumber(FilterContractNumber(value)) == FilterContractNumber(value)
  {
  }

  function ContractNumberChanged(s: State, value: string): (r: State)
    ensures IsContractInput(r.form.contractNumber)
    ensures r.form.contractNumber == FilterContractNumber(value)
    ensures r.form.(contractNumber := s.form.contractNumber) == s.form
    ensures r.(form := s.form) == s
  {
    s.(form := s.form.(contractNumber := FilterContractNumber(value)))
  }

  /** The current text of a free-text field. */
  function FieldValue(f: FormData, k: Field): string {
    match k
    case FullName => f.fullName
    case BirthDate => f.birthDate
    case Amount => f.amount
  }

  /** One of the free-text fields takes a new value; the other two and the
      contract number are never touched here. */
  function FieldChanged(s: State, field: Field, value: string): (r: State)
    ensures FieldValue(r.form, field) == value
    ensures forall k :: k != field ==> FieldValue(r.form, k) == FieldValue(s.form, k)
    ensures r.form.contractNumber == s.form.contractNumber
    ensures r.(form := s.form) == s
  {
    match field
    case FullName => s.(form := s.form.(fullName := value))
    case BirthDate => s.(form := s.form.(birthDate := value))
    case Amount => s.(form := s.form.(amount := value))
  }

  predicate HasEmptyField(f: FormData) {
    f.fullName == "" || f.birthDate == "" || f.contractNumber == "" || f.amount == ""
  }

  /** The submit-time checks, in the order the handler applies them: the
      first failing check names the rejection. */
  function Validate(f: FormData, parseFloat: string -> ParsedNumber): (v: Verdict)
    ensures v == Rejected(MissingField) <==> HasEmptyField(f)
    ensures v == Rejected(BadContractNumber) <==> !HasEmptyField(f) && |f.contractNumber| != ContractLength
    ensures v == Rejected(BadAmount) <==>
      !HasEmptyField(f) && |f.contractNumber| == ContractLength && !IsPositiveAmount(parseFloat(f.amount))
    ensures v == Accepted <==>
      !HasEmptyField(f) && |f.contractNumber| == ContractLength && IsPositiveAmount(parseFloat(f.amount))
  {
    if HasEmptyField(f) then Rejected(MissingField)
    else if |f.contractNumber| != ContractLength then Rejected(BadContractNumber)
    else if !IsPositiveAmount(parseFloat(f.amount)) then Rejected(BadAmount)
    else Accepted
  }

  /** The toast for each failed check: its own title, always destructive. */
  function RejectionNotice(reason: Rejection): (n: Notification)
    ensures n.destructive
    ensures reason == MissingField <==> n == MissingFieldsNotice
    ensures reason == BadContractNumber <==> n == BadContractNotice
    ensures reason == BadAmount <==> n == BadAmountNotice
  {
    match reason
    case MissingField => MissingFieldsNotice
    case BadContractNumber => BadContractNotice
    case BadAmount => BadAmountNotice
  }

  function FormSubmitted(s: State, parseFloat: string -> ParsedNumber): (r: State)
    ensures r.(step := s.step, log := s.log) == s
    ensures Validate(s.form, parseFloat) == Accepted ==> r.step == PaymentMethod && r.log == s.log
    ensures Validate(s.form, parseFloat).Rejected? ==>
      r.step == s.step && |r.log| == |s.log| + 1 && r.log[..|s.log|] == s.log && r.log[|s.log|].destructive
    ensures Validate(s.form, parseFloat).Rejected? ==>
      r.log == s.log + [RejectionNotice(Validate(s.form, parseFloat).reason)]
  {
    match Validate(s.form, parseFloat)
    case Rejected(reason) => s.(log := s.log + [RejectionNotice(reason)])
    case Accepted => s.(step := PaymentMethod)
  }

  /** Anything that passes submit from a state whose contract number came
      through the input filter is exactly eight digits. */
  lemma AcceptedContractNumber(s: State, parseFloat: string -> ParsedNumber)
    requires IsContractInput(s.form.contractNumber)
    requires FormSubmitted(s, parseFloat).step == PaymentMethod && s.step == Form
    ensures AllDigits(s.form.contractNumber) && |s.form.contractNumber| == ContractLength
  {
  }

  // -------------------------------------------------------- method choice

  function MethodChanged(s: State, m: PayMethod): State {
    s.(paymentMethod := m)
  }

  function BackedToForm(s: State): State {
    s.(step := Form)
  }

  function MethodSelected(s: State): (r: State)
    ensures r.timeLeft == TransferWindow && InTransfer(r.step)
    ensures r.step == CardPayment <==> s.paymentMethod == Card
    ensures r.(step := s.step, timeLeft := s.timeLeft) == s
  {
    s.(timeLeft := TransferWindow, step := if s.paymentMethod == Card then CardPayment else SbpPayment)
  }

  function BackedToMethods(s: State): State {
    s.(step := PaymentMethod)
  }

  // ------------------------------------------------------- check payment

  /** The check button: verification starts and its completion is
      scheduled. */
  function CheckStarted(s: State): State {
    s.(isChecking := true, processingTime := ProcessingWindow, pendingChecks := s.pendingChecks + 1)
  }

  /** The scheduled completion fires. It is never cancelled, so it lands in
      Processing whatever the step is by then. */
  function CheckCompleted(s: State): (r: State)
    requires s.pendingChecks > 0
    ensures r.step == Processing && !r.isChecking && r.pendingChecks == s.pendingChecks - 1
    ensures r.paymentId == s.paymentId && r.log == s.log && r.form == s.form
    ensures r.(step := s.step, isChecking := s.isChecking, pendingChecks := s.pendingChecks) == s
  {
    s.(isChecking := false, step := Processing, pendingChecks := s.pendingChecks - 1)
  }

  // -------------------------------------------------------------- timers

  /** One firing of the transfer countdown interval, which is registered only
      on a transfer screen while time is left. */
  function TransferTicked(s: State): (r: State)
    ensures r.(step := s.step, timeLeft := s.timeLeft, log := s.log) == s
    ensures 1 <= s.timeLeft <= TransferWindow ==> 1 <= r.timeLeft <= TransferWindow
    ensures r.step != s.step <==> InTransfer(s.step) && s.timeLeft == 1
    ensures r.step != s.step ==>
      r.step == PaymentMethod && r.timeLeft == TransferWindow && r.log == s.log + [ExpiredNotice]
    ensures r.step == s.step ==> r.log == s.log
    ensures r.step == s.step && r.timeLeft != s.timeLeft ==> InTransfer(s.step) && r.timeLeft == s.timeLeft - 1
  {
    if InTransfer(s.step) && s.timeLeft > 0 then
      if s.timeLeft <= 1 then
        s.(step := PaymentMethod, timeLeft := TransferWindow, log := s.log + [ExpiredNotice])
      else
        s.(timeLeft := s.timeLeft - 1)
    else
      s
  }

  /** `Math.random().toString(36)`: "0" or "0." followed by lower-case
      base-36 digits. */
  predicate IsRandomBase36(t: string) {
    t == "0" || (|t| >= 2 && t[..2] == "0." && forall i :: 2 <= i < |t| ==> IsLowerBase36(t[i]))
  }

  predicate IsLowerBase36(c: char) { IsDigit(c) || 'a' <= c <= 'z' }

  predicate IsUpperBase36(c: char) { IsDigit(c) || 'A' <= c <= 'Z' }

  /** `toUpperCase` on base-36 text. */
  function UpperBase36(t: string): (r: string)
    requires forall i :: 0 <= i < |t| ==> IsLowerBase36(t[i])
    ensures |r| == |t|
    ensures forall i :: 0 <= i < |r| ==> IsUpperBase36(r[i])
  {
    if t == [] then [] else [UpperChar(t[0])] + UpperBase36(t[1..])
  }

  function UpperChar(c: char): (u: char)
    requires IsLowerBase36(c)
    ensures IsUpperBase36(u)
  {
    if 'a' <= c <= 'z' then (c as int - 'a' as int + 'A' as int) as char else c
  }

  /** `t.substr(start, count)` for non-negative arguments: the longest
      piece of `t` from `start` on that has at most `count` characters. */
  function Substr(t: string, start: nat, count: nat): (r: string)
    ensures |r| <= count
    ensures start < |t| ==> r <= t[start..]
    ensures start >= |t| ==> r == []
    ensures start < |t| ==> |r| == if |t| - start < count then |t| - start else count
  {
    if start >= |t| then [] else if start + count <= |t| then t[start..start + count] else t[start..]
  }

  /** The identifier `PAY-<now>-<suffix>` built from `Date.now()` and the
      text of `Math.random()` in base 36. */
  function PaymentIdFor(now: nat, random36: string): (id: string)
    requires IsRandomBase36(random36)
    ensures |id| > |PaymentIdPrefix| && id[..|PaymentIdPrefix|] == PaymentIdPrefix
  {
    var fraction := Substr(random36, 2, 9);
    assert forall i :: 0 <= i < |fraction| ==> IsLowerBase36(fraction[i]);
    PaymentIdPrefix + NatToDecimal(now) + "-" + UpperBase36(fraction)
  }

  /** The identifier splits back into its parts: after the prefix comes the
      decimal text of `now` up to the first '-', then the upper-cased
      `substr(2, 9)` of the random text: at most nine base-36 characters. */
  lemma PaymentIdFormat(now: nat, random36: string)
    requires IsRandomBase36(random36)
    ensures var id := PaymentIdFor(now, random36);
      var k := |PaymentIdPrefix| + |NatToDecimal(now)|;
      k < |id| && id[k] == '-' && AllDigits(id[|PaymentIdPrefix|..k]) &&
      DecimalValue(id[|PaymentIdPrefix|..k]) == now &&
      |id| - (k + 1) <= 9 &&
      forall i :: k < i < |id| ==> IsUpperBase36(id[i])
    ensures var id := PaymentIdFor(now, random36);
      var k := |PaymentIdPrefix| + |NatToDecimal(now)|;
      var fraction := Substr(random36, 2, 9);
      (forall i :: 0 <= i < |fraction| ==> IsLowerBase36(fraction[i])) &&
      k < |id| && id[k + 1..] == UpperBase36(fraction)
  {
    var id := PaymentIdFor(now, random36);
    var d := NatToDecimal(now);
    var k := |PaymentIdPrefix| + |d|;
    var fraction := Substr(random36, 2, 9);
    assert forall i :: 0 <= i < |fraction| ==> IsLowerBase36(fraction[i]);
    var u := UpperBase36(fraction);
    assert id == PaymentIdPrefix + d + "-" + u;
    assert id[|PaymentIdPrefix|..k] == d;
    assert id[k + 1..] == u;
    DecimalRoundTrip(now);
  }

  /** One firing of the processing countdown interval, registered only on the
      processing screen while time is left. At its end the identifier is
      generated from the clock and random text of that moment. */
  function ProcessingTicked(s: State, now: nat, random36: string): (r: State)
    requires IsRandomBase36(random36)
    ensures r.(step := s.step, processingTime := s.processingTime, paymentId := s.paymentId, log := s.log) == s
    ensures 1 <= s.processingTime <= ProcessingWindow ==> 1 <= r.processingTime <= ProcessingWindow
    ensures r.step != s.step <==> s.step == Processing && s.processingTime == 1
    ensures r.step != s.step ==>
      r.step == Success && r.paymentId == PaymentIdFor(now, random36) &&
      r.processingTime == ProcessingWindow && r.log == s.log + [PaidNotice]
    ensures r.step == s.step ==> r.paymentId == s.paymentId && r.log == s.log
    ensures r.step == s.step && r.processingTime != s.processingTime ==>
      s.step == Processing && r.processingTime == s.processingTime - 1
  {
    if s.step == Processing && s.processingTime > 0 then
      if s.processingTime <= 1 then
        s.(paymentId := PaymentIdFor(now, random36), step := Success,
           log := s.log + [PaidNotice], processingTime := ProcessingWindow)
      else
        s.(processingTime := s.processingTime - 1)
    else
      s
  }

  // ------------------------------------------------------------- receipt

  /** "New payment": back to an empty form with a fresh countdown; the chosen
      method, the processing countdown and the checking flag stay as they are. */
  function NewPaymentStarted(s: State): (r: State)
    ensures r.step == Form && r.form == EmptyForm && r.paymentId == "" && r.timeLeft == TransferWindow
    ensures r.paymentMethod == s.paymentMethod && r.processingTime == s.processingTime && r.isChecking == s.isChecking
    ensures r.pendingChecks == s.pendingChecks && r.log == s.log
  {
    s.(step := Form, form := EmptyForm, paymentId := "", timeLeft := TransferWindow)
  }

  lemma NewPaymentIdempotent(s: State)
    ensures NewPaymentStarted(NewPaymentStarted(s)) == NewPaymentStarted(s)
  {
  }

  /** A copy button: the text goes to the clipboard (not modelled) and a
      toast is shown. */
  function Copied(s: State): State {
    s.(log := s.log + [CopiedNotice])
  }

  /** `formatTime`: whole minutes only (the seconds are computed and dropped). */
  function FormatTime(seconds: int): (minutes: int)
    ensures minutes * 60 <= seconds < minutes * 60 + 60
  {
    seconds / 60
  }

  // ------------------------------------------------------ whole machine

  /** Everything that can happen to the controller: a handler called from
      the screen on show, or a timer firing. */
  datatype Event =
    | ContractInput(value: string)
    | FieldInput(field: Field, text: string)
    | Submit(parseFloat: string -> ParsedNumber)
    | ChooseMethod(choice: PayMethod)
    | BackFromMethods
    | ConfirmMethod
    | BackFromTransfer
    | ClickCheck
    | CheckTimeout
    | TransferSecond
    | ProcessingSecond(now: nat, random36: string)
    | ClickNewPayment
    | Copy

  /** When an event can occur: a handler only while the screen holding its
      control is rendered (the check button also not while it is disabled),
      a timeout only once scheduled, an interval tick at any time (it does
      nothing unless its interval is registered). */
  predicate Enabled(s: State, e: Event) {
    match e
    case ContractInput(_) => s.step == Form
    case FieldInput(_, _) => s.step == Form
    case Submit(_) => s.step == Form
    case ChooseMethod(_) => s.step == PaymentMethod
    case BackFromMethods => s.step == PaymentMethod
    case ConfirmMethod => s.step == PaymentMethod
    case BackFromTransfer => InTransfer(s.step)
    case ClickCheck => InTransfer(s.step) && !s.isChecking
    case CheckTimeout => s.pendingChecks > 0
    case TransferSecond => true
    case ProcessingSecond(_, random36) => IsRandomBase36(random36)
    case ClickNewPayment => s.step == Success
    case Copy => InTransfer(s.step)
  }

  function Next(s: State, e: Event): State
    requires Enabled(s, e)
  {
    match e
    case ContractInput(value) => ContractNumberChanged(s, value)
    case FieldInput(field, text) => FieldChanged(s, field, text)
    case Submit(parseFloat) => FormSubmitted(s, parseFloat)
    case ChooseMethod(choice) => MethodChanged(s, choice)
    case BackFromMethods => BackedToForm(s)
    case ConfirmMethod => MethodSelected(s)
    case BackFromTransfer => BackedToMethods(s)
    case ClickCheck => CheckStarted(s)
    case CheckTimeout => CheckCompleted(s)
    case TransferSecond => TransferTicked(s)
    case ProcessingSecond(now, random36) => ProcessingTicked(s, now, random36)
    case ClickNewPayment => NewPaymentStarted(s)
    case Copy => Copied(s)
  }

  /** What holds in every reachable state: the contract number is filtered,
      both countdowns stay within their windows (they are reset before they
      can reach zero), the checking flag is up exactly while a completion is
      scheduled and no completion is pending on the processing or receipt
      screens, and an identifier exists exactly on the receipt screen. */
  predicate Inv(s: State) {
    && IsContractInput(s.form.contractNumber)
    && 1 <= s.timeLeft <= TransferWindow
    && 1 <= s.processingTime <= ProcessingWindow
    && s.pendingChecks <= 1
    && (s.isChecking <==> s.pendingChecks > 0)
    && (s.pendingChecks > 0 ==> s.step != Processing && s.step != Success)
    && (s.paymentId != "" <==> s.step == Success)
    && (s.paymentId != "" ==> |s.paymentId| > |PaymentIdPrefix| && s.paymentId[..|PaymentIdPrefix|] == PaymentIdPrefix)
  }

  lemma InitialInv()
    ensures Inv(Initial)
  {
  }

  lemma NextPreservesInv(s: State, e: Event)
    requires Inv(s) && Enabled(s, e)
    ensures Inv(Next(s, e))
  {
  }

  predicate Allowed(s: State, es: seq<Event>)
    decreases |es|
  {
    es == [] || (Enabled(s, es[0]) && Allowed(Next(s, es[0]), es[1..]))
  }

  function Run(s: State, es: seq<Event>): State
    requires Allowed(s, es)
    decreases |es|
  {
    if es == [] then s else Run(Next(s, es[0]), es[1..])
  }

  /** Every state reached by allowed events from a good state is good; with
      InitialInv, every state the wizard can reach satisfies Inv. */
  lemma {:induction false} RunPreservesInv(s: State, es: seq<Event>)
    requires Inv(s) && Allowed(s, es)
    ensures Inv(Run(s, es))
    decreases |es|
  {
    if es != [] {
      NextPreservesInv(s, es[0]);
      RunPreservesInv(Next(s, es[0]), es[1..]);
    }
  }

  /** The identifier changes only in two places: the last processing tick
      sets it, and "new payment" clears it. */
  lemma PaymentIdChanges(s: State, e: Event)
    requires Enabled(s, e)
    ensures Next(s, e).paymentId != s.paymentId ==>
      (e.ProcessingSecond? && s.step == Processing && s.processingTime == 1 &&
       Next(s, e).paymentId == PaymentIdFor(e.now, e.random36)) ||
      (e.ClickNewPayment? && Next(s, e).paymentId == "")
  {
  }

  /** `n` consecutive firings of the transfer countdown. */
  function TransferTicks(s: State, n: nat): State
    decreases n
  {
    if n == 0 then s else TransferTicked(TransferTicks(s, n - 1))
  }

  /** Before the countdown runs out, each second takes one off it and
      nothing else changes. */
  lemma {:induction false} TransferCountsDown(s: State, n: nat)
    requires InTransfer(s.step) && n < s.timeLeft
    ensures TransferTicks(s, n) == s.(timeLeft := s.timeLeft - n)
    decreases n
  {
    if n > 0 {
      TransferCountsDown(s, n - 1);
    }
  }

  /** A transfer screen entered with `t` seconds left returns to method
      choice after exactly `t` seconds, with a fresh countdown and one
      expiry toast. */
  lemma TransferExpires(s: State)
    requires InTransfer(s.step) && s.timeLeft >= 1
    ensures TransferTicks(s, s.timeLeft) ==
      s.(step := PaymentMethod, timeLeft := TransferWindow, log := s.log + [ExpiredNotice])
  {
    TransferCountsDown(s, s.timeLeft - 1);
  }

  /** `n` consecutive firings of the processing countdown; only the clock
      and random text of the last one can matter. */
  function ProcessingTicks(s: State, n: nat, now: nat, random36: string): State
    requires IsRandomBase36(random36)
    decreases n
  {
    if n == 0 then s else ProcessingTicked(ProcessingTicks(s, n - 1, now, random36), now, random36)
  }

  lemma {:induction false} ProcessingCountsDown(s: State, n: nat, now: nat, random36: string)
    requires IsRandomBase36(random36)
    requires s.step == Processing && n < s.processingTime
    ensures ProcessingTicks(s, n, now, random36) == s.(processingTime := s.processingTime - n)
    decreases n
  {
    if n > 0 {
      ProcessingCountsDown(s, n - 1, now, random36);
    }
  }

  /** Processing that starts with `t` seconds left reaches the receipt after
      exactly `t` seconds, with an identifier and one success toast. */
  lemma ProcessingCompletes(s: State, now: nat, random36: string)
    requires IsRandomBase36(random36)
    requires s.step == Processing && s.processingTime >= 1
    ensures ProcessingTicks(s, s.processingTime, now, random36) ==
      s.(step := Success, paymentId := PaymentIdFor(now, random36),
         processingTime := ProcessingWindow, log := s.log + [PaidNotice])
  {
    ProcessingCountsDown(s, s.processingTime - 1, now, random36);
  }

  /** The example payer from the form's placeholders passes submit, and
      confirming the default method then opens the card screen with the full
      countdown. */
  lemma ExampleFlow(s: State, parseFloat: string -> ParsedNumber)
    requires s.form == FormData("Иванов Иван Иванович", "1990-01-01", "00283799", "1000")
    requires s.paymentMethod == Card
    requires parseFloat("1000") == Finite(1000.0)
    ensures FormSubmitted(s, parseFloat).step == PaymentMethod
    ensures MethodSelected(FormSubmitted(s, parseFloat)).step == CardPayment
    ensures MethodSelected(FormSubmitted(s, parseFloat)).timeLeft == TransferWindow
  {
    assert |s.form.contractNumber| == ContractLength;
  }
}
