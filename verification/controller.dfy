/** The `Index` page controller of `src/pages/Index.tsx`: its React state as
    the fields of one object, each event handler and timer callback as a
    method that updates those fields in place. Every method is specified by
    the matching transition function of module `Wizard` and keeps
    `Wizard.Inv`. */
module Controller {
  import opened Wizard

  class PaymentWizard {
    var step: Step
    var formData: FormData
    var paymentMethod: PayMethod
    var timeLeft: int
    var isChecking: bool
    var paymentId: string
    var processingTime: int
    /** Check-payment timeouts scheduled and not yet fired: the event loop's
        queue, not a piece of the page's state. */
    ghost var pendingChecks: nat
    /** Toasts shown so far, oldest first. */
    var notifications: seq<Notification>

    ghost function Snapshot(): State
      reads this
    {
      State(step, formData, paymentMethod, timeLeft, isChecking, paymentId, processingTime, pendingChecks, notifications)
    }

    ghost predicate Valid()
      reads this
    {
      Inv(Snapshot())
    }

    /** Mount: every `useState` takes its initial value. */
    constructor ()
      ensures Snapshot() == Initial && Valid()
    {
      step := Form;
      formData := EmptyForm;
      paymentMethod := Card;
      timeLeft := TransferWindow;
      isChecking := false;
      paymentId := "";
      processingTime := ProcessingWindow;
      pendingChecks := 0;
      notifications := [];
      InitialInv();
    }

    /** `handleContractNumberChange`. */
    method ChangeContractNumber(value: string)
      requires Valid() && step == Form
      modifies this
      ensures Valid() && Snapshot() == ContractNumberChanged(old(Snapshot()), value)
    {
      NextPreservesInv(Snapshot(), ContractInput(value));
      formData := formData.(contractNumber := FilterContractNumber(value));
    }

    /** `setFormData({ ...formData, <field>: value })` from the payer form. */
    method ChangeField(field: Field, value: string)
      requires Valid() && step == Form
      modifies this
      ensures Valid() && Snapshot() == FieldChanged(old(Snapshot()), field, value)
    {
      NextPreservesInv(Snapshot(), FieldInput(field, value));
      match field {
        case FullName => formData := formData.(fullName := value);
        case BirthDate => formData := formData.(birthDate := value);
        case Amount => formData := formData.(amount := value);
      }
    }

    /** `handleFormSubmit`: the three checks in order, each failure a
        destructive toast and an early return. */
    method SubmitForm(parseFloat: string -> ParsedNumber)
      requires Valid() && step == Form
      modifies this
      ensures Valid() && Snapshot() == FormSubmitted(old(Snapshot()), parseFloat)
    {
      NextPreservesInv(Snapshot(), Submit(parseFloat));
      if formData.fullName == "" || formData.birthDate == "" || formData.contractNumber == "" || formData.amount == "" {
        notifications := notifications + [MissingFieldsNotice];
        return;
      }
      if |formData.contractNumber| != ContractLength {
        notifications := notifications + [BadContractNotice];
        return;
      }
      var amountNum := parseFloat(formData.amount);
      if !IsPositiveAmount(amountNum) {
        notifications := notifications + [BadAmountNotice];
        return;
      }
      step := PaymentMethod;
    }

    /** `setPaymentMethod` from the method radio group. */
    method ChangeMethod(choice: PayMethod)
      requires Valid() && step == PaymentMethod
      modifies this
      ensures Valid() && Snapshot() == MethodChanged(old(Snapshot()), choice)
    {
      NextPreservesInv(Snapshot(), ChooseMethod(choice));
      paymentMethod := choice;
    }

    /** The method screen's back button. */
    method BackToForm()
      requires Valid() && step == PaymentMethod
      modifies this
      ensures Valid() && Snapshot() == BackedToForm(old(Snapshot()))
    {
      NextPreservesInv(Snapshot(), BackFromMethods);
      step := Form;
    }

    /** `handlePaymentMethodSelect`. */
    method SelectMethod()
      requires Valid() && step == PaymentMethod
      modifies this
      ensures Valid() && Snapshot() == MethodSelected(old(Snapshot()))
    {
      NextPreservesInv(Snapshot(), ConfirmMethod);
      timeLeft := TransferWindow;
      if paymentMethod == Card {
        step := CardPayment;
      } else {
        step := SbpPayment;
      }
    }

    /** The transfer screens' back callback. */
    method BackToMethods()
      requires Valid() && InTransfer(step)
      modifies this
      ensures Valid() && Snapshot() == BackedToMethods(old(Snapshot()))
    {
      NextPreservesInv(Snapshot(), BackFromTransfer);
      step := PaymentMethod;
    }

    /** `handleCheckPayment`: the button is disabled while a check runs. */
    method CheckPayment()
      requires Valid() && InTransfer(step) && !isChecking
      modifies this
      ensures Valid() && Snapshot() == CheckStarted(old(Snapshot()))
    {
      NextPreservesInv(Snapshot(), ClickCheck);
      isChecking := true;
      processingTime := ProcessingWindow;
      pendingChecks := pendingChecks + 1;
    }

    /** The two-second timeout scheduled by `handleCheckPayment` fires. */
    method CompleteCheck()
      requires Valid() && pendingChecks > 0
      modifies this
      ensures Valid() && Snapshot() == CheckCompleted(old(Snapshot()))
    {
      NextPreservesInv(Snapshot(), CheckTimeout);
      isChecking := false;
      step := Processing;
      pendingChecks := pendingChecks - 1;
    }

    /** One second of the transfer countdown interval. */
    method TransferTick()
      requires Valid()
      modifies this
      ensures Valid() && Snapshot() == TransferTicked(old(Snapshot()))
    {
      NextPreservesInv(Snapshot(), TransferSecond);
      if InTransfer(step) && timeLeft > 0 {
        if timeLeft <= 1 {
          notifications := notifications + [ExpiredNotice];
          step := PaymentMethod;
          timeLeft := TransferWindow;
        } else {
          timeLeft := timeLeft - 1;
        }
      }
    }

    /** One second of the processing countdown interval; `now` and
        `random36` are what `Date.now()` and `Math.random().toString(36)`
        return at that moment. */
    method ProcessingTick(now: nat, random36: string)
      requires Valid() && IsRandomBase36(random36)
      modifies this
      ensures Valid() && Snapshot() == ProcessingTicked(old(Snapshot()), now, random36)
    {
      NextPreservesInv(Snapshot(), ProcessingSecond(now, random36));
      if step == Processing && processingTime > 0 {
        if processingTime <= 1 {
          paymentId := PaymentIdFor(now, random36);
          step := Success;
          notifications := notifications + [PaidNotice];
          processingTime := ProcessingWindow;
        } else {
          processingTime := processingTime - 1;
        }
      }
    }

    /** `handleNewPayment`. */
    method NewPayment()
      requires Valid() && step == Success
      modifies this
      ensures Valid() && Snapshot() == NewPaymentStarted(old(Snapshot()))
    {
      NextPreservesInv(Snapshot(), ClickNewPayment);
      step := Form;
      formData := EmptyForm;
      paymentId := "";
      timeLeft := TransferWindow;
    }

    /** `copyToClipboard`: only its toast is part of the state. */
    method CopyToClipboard(text: string)
      requires Valid() && InTransfer(step)
      modifies this
      ensures Valid() && Snapshot() == Copied(old(Snapshot()))
    {
      NextPreservesInv(Snapshot(), Copy);
      notifications := notifications + [CopiedNotice];
    }
  }
}
