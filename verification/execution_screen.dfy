/** `src/components/payment/PaymentExecutionScreen.tsx`: what the transfer
    and processing screens show, as a function of the props the controller
    passes down. */
module ExecutionScreen {
  import opened Strings
  import opened Wizard

  const CardNumberShown := "2200 9802 0524 3667"
  const CardNumberCopied := "2200980205243667"
  const PhoneShown := "+7 958 684 12 76"
  const PhoneCopied := "+79586841276"
  /** The recipient bank, shown on the SBP screen only. */
  const RecipientShown := "Фора Банк СПБ"

  /** Below this many seconds the transfer countdown turns red. */
  const UrgentBelow := 60

  const CheckLabel := "Проверить оплату"
  const CheckingLabel := "Проверка..."

  datatype View =
    | TransferView(
        channel: PayMethod,
        countdown: string,
        urgent: bool,
        targetShown: string,
        targetCopied: string,
        recipient: string,
        checkDisabled: bool,
        checkLabel: string)
    | ProcessingView(percent: int, remaining: string)
    | NoView

  /** The seconds part: `(t % 60).toString().padStart(2, "0")`. */
  function SecondsText(t: nat): (r: string)
    ensures |r| == 2 && AllDigits(r) && DecimalValue(r) == t % 60
  {
    DecimalRoundTrip(t % 60);
    ZeroPadValue(NatToDecimal(t % 60), 2);
    PadStart(NatToDecimal(t % 60), 2, '0')
  }

  /** The minutes part: `Math.floor(t / 60).toString()`. */
  function MinutesText(t: nat): (r: string)
    ensures |r| >= 1 && AllDigits(r) && DecimalValue(r) == t / 60
    ensures |r| > 1 ==> r[0] != '0'
  {
    DecimalRoundTrip(t / 60);
    NatToDecimal(t / 60)
  }

  /** The countdown text `M:SS`: whole minutes, a colon, and the remaining
      seconds zero-padded to two digits. */
  function CountdownText(t: nat): (r: string)
    ensures |r| >= 4 && r[|r| - 3] == ':'
    ensures r[..|r| - 3] == MinutesText(t) && r[|r| - 2..] == SecondsText(t)
  {
    var minutes, seconds := MinutesText(t), SecondsText(t);
    SplitAround(minutes, ':', seconds);
    minutes + [':'] + seconds
  }

  /** The two parts of the countdown text recombine to the seconds left:
      minutes * 60 + seconds == t, with the seconds part below 60. */
  lemma CountdownRecombines(t: nat)
    ensures DecimalValue(MinutesText(t)) * 60 + DecimalValue(SecondsText(t)) == t
    ensures DecimalValue(SecondsText(t)) < 60
  {
    var minutes, seconds := MinutesText(t), SecondsText(t);
    assert DecimalValue(minutes) == t / 60;
    assert DecimalValue(seconds) == t % 60;
  }

  /** The progress label `Math.floor((60 - p) / 60 * 100)`: the whole
      percentage of the processing window already elapsed, rounded down. */
  function ProgressPercent(processingTime: int): (percent: int)
    ensures percent * ProcessingWindow <= (ProcessingWindow - processingTime) * 100 < (percent + 1) * ProcessingWindow
    ensures processingTime == ProcessingWindow ==> percent == 0
    ensures processingTime == 0 ==> percent == 100
    ensures 0 <= processingTime <= ProcessingWindow ==> 0 <= percent <= 100
  {
    (ProcessingWindow - processingTime) * 100 / ProcessingWindow
  }

  /** Less time left never shows less progress. */
  lemma ProgressMonotone(p: int, q: int)
    requires p <= q
    ensures ProgressPercent(q) <= ProgressPercent(p)
  {
  }

  predicate SpaceFree(group: string) { forall i :: 0 <= i < |group| ==> IsNotSpace(group[i]) }

  /** Groups separated by single spaces, as the card and phone numbers are
      shown. */
  function JoinGroups(groups: seq<string>): string {
    if groups == [] then "" else if |groups| == 1 then groups[0] else groups[0] + " " + JoinGroups(groups[1..])
  }

  function Concat(groups: seq<string>): string {
    if groups == [] then "" else groups[0] + Concat(groups[1..])
  }

  lemma SkipSpace(group: string, rest: string)
    requires SpaceFree(group)
    ensures Filter(group + " " + rest, IsNotSpace) == group + Filter(rest, IsNotSpace)
  {
    assert group + " " + rest == (group + " ") + rest;
    FilterConcat(group + " ", rest, IsNotSpace);
    FilterConcat(group, " ", IsNotSpace);
    FilterKeepsAll(group, IsNotSpace);
    assert Filter(" ", IsNotSpace) == [];
  }

  /** Removing the spaces from space-separated groups leaves the groups
      run together. */
  lemma {:induction false} FilterJoin(groups: seq<string>)
    requires forall k :: 0 <= k < |groups| ==> SpaceFree(groups[k])
    ensures Filter(JoinGroups(groups), IsNotSpace) == Concat(groups)
  {
    if |groups| == 1 {
      FilterKeepsAll(groups[0], IsNotSpace);
      assert Concat(groups) == groups[0] + "";
    } else if groups != [] {
      SkipSpace(groups[0], JoinGroups(groups[1..]));
      FilterJoin(groups[1..]);
    }
  }

  /** The card copy button copies exactly the shown card number, spaces
      removed. */
  lemma CardCopyMatches()
    ensures Filter(CardNumberShown, IsNotSpace) == CardNumberCopied
  {
    var groups := ["2200", "9802", "0524", "3667"];
    assert JoinGroups(groups) == CardNumberShown;
    assert Concat(groups) == CardNumberCopied;
    FilterJoin(groups);
  }

  /** The phone copy button copies exactly the shown phone number, spaces
      removed. */
  lemma PhoneCopyMatches()
    ensures Filter(PhoneShown, IsNotSpace) == PhoneCopied
  {
    var groups := ["+7", "958", "684", "12", "76"];
    assert JoinGroups(groups) == PhoneShown;
    assert Concat(groups) == PhoneCopied;
    FilterJoin(groups);
  }

  /** The transfer target shown on a method's screen. */
  function TargetShown(channel: PayMethod): string {
    match channel
    case Card => CardNumberShown
    case Sbp => PhoneShown
  }

  /** What that screen's copy button puts on the clipboard: the shown target
      without its spaces. */
  function TargetCopied(channel: PayMethod): (r: string)
    ensures r == Filter(TargetShown(channel), IsNotSpace)
  {
    match channel
    case Card => CardCopyMatches(); CardNumberCopied
    case Sbp => PhoneCopyMatches(); PhoneCopied
  }

  /** The recipient line of a method's screen; the card screen has none. */
  function RecipientOf(channel: PayMethod): string {
    match channel
    case Card => ""
    case Sbp => RecipientShown
  }

  /** A transfer screen: countdown, target, recipient and the check button. */
  function TransferScreen(channel: PayMethod, timeLeft: nat, isChecking: bool): View {
    TransferView(channel, CountdownText(timeLeft), timeLeft < UrgentBelow,
                 TargetShown(channel), TargetCopied(channel), RecipientOf(channel),
                 isChecking, if isChecking then CheckingLabel else CheckLabel)
  }

  /** The screen for the given props; it renders nothing outside the two
      transfer steps and the processing step. */
  function Render(step: Step, timeLeft: nat, processingTime: nat, isChecking: bool): (v: View)
    ensures v.TransferView? <==> InTransfer(step)
    ensures v.ProcessingView? <==> step == Processing
    ensures v.TransferView? ==> (v.channel == Card <==> step == CardPayment)
    ensures v.TransferView? ==> (v.urgent <==> timeLeft < UrgentBelow)
    ensures v.TransferView? ==> v.checkDisabled == isChecking
    ensures v.TransferView? ==> v.targetShown == (if step == CardPayment then CardNumberShown else PhoneShown)
    ensures v.TransferView? ==> v.targetCopied == Filter(v.targetShown, IsNotSpace)
    ensures v.TransferView? ==> (v.recipient != "" <==> step == SbpPayment)
    ensures v.TransferView? && step == SbpPayment ==> v.recipient == RecipientShown
    ensures v.TransferView? ==> v.countdown == CountdownText(timeLeft)
    ensures v.ProcessingView? ==> v.remaining == CountdownText(processingTime)
    ensures v.ProcessingView? ==> v.percent == ProgressPercent(processingTime)
    ensures v.ProcessingView? && processingTime == ProcessingWindow ==> v.percent == 0
    ensures v.ProcessingView? && processingTime == 0 ==> v.percent == 100
  {
    match step
    case CardPayment => TransferScreen(Card, timeLeft, isChecking)
    case SbpPayment => TransferScreen(Sbp, timeLeft, isChecking)
    case Processing => ProcessingView(ProgressPercent(processingTime), CountdownText(processingTime))
    case _ => NoView
  }
}
