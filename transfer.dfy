/** The transfer wizard of src/pages/Transfer.tsx: a three-step draft
    (recipient, amount, confirm) whose handlers validate the step's input,
    record field-scoped errors and move between steps. */
module TransferWizard {
  import opened Optional

  datatype Step = RecipientStep | AmountStep | ConfirmStep

  datatype Contact = Contact(id: string, name: string, payTag: string, isFrequent: bool)

  /** The `field` of a `TransferError`: the input the message belongs to. */
  datatype Field = RecipientField | PayTagField | AmountField | PinField | TransferField

  datatype TransferError = TransferError(field: Field, message: string)

  const RecipientRequiredMessage: string := "กรุณาเลือกผู้รับหรือใส่ PayTag"
  const PayTagFormatMessage: string := "PayTag ต้องขึ้นต้นด้วย @ และมีความยาว 4-21 ตัวอักษร"
  const AmountRequiredMessage: string := "กรุณาใส่จำนวนเงิน"
  const AmountRangeMessage: string := "จำนวนเงินต้องมากกว่า 0 และไม่เกิน 50,000 บาท"
  const PinRequiredMessage: string := "กรุณาใส่ PIN 6 หลัก"
  /** The message of the error the simulated submission throws. */
  const InsufficientBalanceMessage: string := "ยอดเงินในบัญชีไม่เพียงพอ"

  const MaxAmount: real := 50000.0
  const PinLength: nat := 6

  const SomchaiTag: string := "@somchai123"
  const NidaTag: string := "@nida456"
  const PrayuthTag: string := "@prayuth789"
  const MaleeTag: string := "@malee999"

  /** The four recipient shortcuts. */
  function RecentContacts(): seq<Contact> {
    [ Contact("1", "สมชาย ใจดี", SomchaiTag, true),
      Contact("2", "นิดา สวยงาม", NidaTag, true),
      Contact("3", "ประยุทธ์ มั่นคง", PrayuthTag, false),
      Contact("4", "มาลี ใจงาม", MaleeTag, false) ]
  }

  // ---------------------------------------------------------------------
  // Validation

  /** The character class `[a-zA-Z0-9_]`. */
  predicate IsTagChar(c: char) {
    ('a' <= c <= 'z') || ('A' <= c <= 'Z') || ('0' <= c <= '9') || c == '_'
  }

  /** Matches `[a-zA-Z0-9_]{lo,hi}$` against all of `s`, one character at a
      time. */
  function MatchTagRun(s: string, lo: nat, hi: nat): (ok: bool)
    ensures ok <==> lo <= |s| <= hi && forall i :: 0 <= i < |s| ==> IsTagChar(s[i])
  {
    if s == [] then lo == 0
    else hi > 0 && IsTagChar(s[0]) && MatchTagRun(s[1..], if lo > 0 then lo - 1 else 0, hi - 1)
  }

  /** `validatePayTag`: the regex `^@[a-zA-Z0-9_]{3,20}$`. Accepted tags are
      4 to 21 characters long, as the error message says. */
  function ValidatePayTag(tag: string): (ok: bool)
    ensures ok <==> 4 <= |tag| <= 21 && tag[0] == '@' && forall i :: 1 <= i < |tag| ==> IsTagChar(tag[i])
  {
    |tag| > 0 && tag[0] == '@' &&
      var ok := MatchTagRun(tag[1..], 3, 20);
      assert forall i :: 1 <= i < |tag| ==> tag[i] == tag[1..][i - 1];
      ok
  }

  lemma PayTagExamples()
    ensures ValidatePayTag("@somchai123")
    ensures !ValidatePayTag("@ab")
    ensures !ValidatePayTag("so@mchai")
    ensures ValidatePayTag("@abc") && ValidatePayTag("@" + seq(20, _ => 'x'))
    ensures !ValidatePayTag("@" + seq(21, _ => 'x')) && !ValidatePayTag("@ab-c")
  {
    assert "@ab-c"[3] == '-';
  }

  /** `validateAmount`: `parse` stands for `parseFloat`, with `None` for NaN. */
  predicate ValidateAmount(amt: string, parse: string -> Option<real>) {
    var num := parse(amt);
    num.Some? && num.value > 0.0 && num.value <= MaxAmount
  }

  /** The errors `handleRecipientSubmit` collects: a missing recipient and a
      malformed PayTag, which cannot both occur, so there is at most one. */
  function RecipientErrors(recipient: Option<Contact>, payTag: string): (errs: seq<TransferError>)
    ensures |errs| <= 1
    ensures (exists e :: e in errs && e.field == RecipientField) <==> recipient.None? && payTag == []
    ensures (exists e :: e in errs && e.field == PayTagField) <==> payTag != [] && !ValidatePayTag(payTag)
    ensures forall e :: e in errs ==> e.field == RecipientField || e.field == PayTagField
    ensures errs == [] <==> (recipient.Some? || payTag != []) && (payTag == [] || ValidatePayTag(payTag))
  {
    (if recipient.None? && payTag == [] then [TransferError(RecipientField, RecipientRequiredMessage)] else []) +
    (if payTag != [] && !ValidatePayTag(payTag) then [TransferError(PayTagField, PayTagFormatMessage)] else [])
  }

  /** The errors `handleAmountSubmit` collects: at most one, always for the
      amount field; the "required" message for an empty input and the range
      message for a non-empty invalid one. */
  function AmountErrors(amount: string, parse: string -> Option<real>): (errs: seq<TransferError>)
    ensures |errs| <= 1
    ensures forall e :: e in errs ==> e.field == AmountField
    ensures errs == [] <==> amount != [] && ValidateAmount(amount, parse)
    ensures amount == [] ==> errs == [TransferError(AmountField, AmountRequiredMessage)]
    ensures amount != [] && !ValidateAmount(amount, parse) ==>
              errs == [TransferError(AmountField, AmountRangeMessage)]
  {
    if amount == [] then [TransferError(AmountField, AmountRequiredMessage)]
    else if !ValidateAmount(amount, parse) then [TransferError(AmountField, AmountRangeMessage)]
    else []
  }

  /** The errors `handleTransfer` collects before submitting: one PIN error
      unless the PIN is exactly six characters long. */
  function PinErrors(pin: string): (errs: seq<TransferError>)
    ensures errs == [] <==> |pin| == PinLength
    ensures errs != [] ==> errs == [TransferError(PinField, PinRequiredMessage)]
  {
    if pin == [] || |pin| != 6 then [TransferError(PinField, PinRequiredMessage)] else []
  }

  lemma PinExamples()
    ensures PinErrors("12345") == [TransferError(PinField, PinRequiredMessage)]
    ensures PinErrors("") == [TransferError(PinField, PinRequiredMessage)]
    ensures PinErrors("123456") == [] && PinErrors("abcdef") == []
  {
  }

  // The four built-in tags, one lemma each to keep every proof small.
  lemma SomchaiTagValid() ensures ValidatePayTag(SomchaiTag) {}
  lemma NidaTagValid() ensures ValidatePayTag(NidaTag) {}
  lemma PrayuthTagValid() ensures ValidatePayTag(PrayuthTag) {}
  lemma MaleeTagValid() ensures ValidatePayTag(MaleeTag) {}

  /** Choosing any built-in contact gives a tag that passes validation, so the
      recipient step can advance. */
  lemma ContactsCanAdvance()
    ensures forall c :: c in RecentContacts() ==> ValidatePayTag(c.payTag)
    ensures forall c :: c in RecentContacts() ==> RecipientErrors(Some(c), c.payTag) == []
  {
    SomchaiTagValid();
    NidaTagValid();
    PrayuthTagValid();
    MaleeTagValid();
  }

  /** The boundary cases of the amount check, for any parser that reads these
      strings the way `parseFloat` does. */
  lemma AmountExamples(parse: string -> Option<real>)
    requires parse("0") == Some(0.0) && parse("-5") == Some(-5.0)
    requires parse("50000") == Some(50000.0) && parse("50000.01") == Some(5000001.0 / 100.0)
    requires parse("abc") == None
    ensures AmountErrors("0", parse) == [TransferError(AmountField, AmountRangeMessage)]
    ensures AmountErrors("-5", parse) == [TransferError(AmountField, AmountRangeMessage)]
    ensures AmountErrors("50000", parse) == []
    ensures AmountErrors("50000.01", parse) == [TransferError(AmountField, AmountRangeMessage)]
    ensures AmountErrors("abc", parse) == [TransferError(AmountField, AmountRangeMessage)]
    ensures AmountErrors("", parse) == [TransferError(AmountField, AmountRequiredMessage)]
  {
  }

  // ---------------------------------------------------------------------
  // The draft and its handlers

  class TransferDraft {
    var step: Step
    var recipient: Option<Contact>
    var payTag: string
    var amount: string
    var memo: string
    var pin: string
    var isLoading: bool
    var errors: seq<TransferError>

    /** Between events there is at most one error and no submission is in
        flight (the submission is modelled as one step). */
    predicate Valid()
      reads this
    {
      |errors| <= 1 && !isLoading
    }

    /** The state the wizard starts in and returns to after a successful
        transfer. */
    predicate IsEmptyDraft()
      reads this
    {
      step == RecipientStep && recipient == None && payTag == [] && amount == [] &&
      memo == [] && pin == [] && !isLoading
    }

    constructor ()
      ensures Valid() && IsEmptyDraft() && errors == []
    {
      step := RecipientStep;
      recipient := None;
      payTag, amount, memo, pin := [], [], [], [];
      isLoading := false;
      errors := [];
    }

    /** `setStep` together with the effect on `[step]`: a change of step
        clears the errors; setting the same step changes nothing. */
    method SetStep(s: Step)
      modifies this`step, this`errors
      ensures step == s
      ensures errors == if s != old(step) then [] else old(errors)
    {
      if s != step {
        step := s;
        errors := [];
      }
    }

    /** Clicking a contact shortcut. */
    method SelectContact(c: Contact)
      modifies this`recipient, this`payTag
      ensures recipient == Some(c) && payTag == c.payTag
    {
      recipient := Some(c);
      payTag := c.payTag;
    }

    method SetPayTag(s: string)
      modifies this`payTag
      ensures payTag == s
    {
      payTag := s;
    }

    method SetAmount(s: string)
      modifies this`amount
      ensures amount == s
    {
      amount := s;
    }

    method SetMemo(s: string)
      modifies this`memo
      ensures memo == s
    {
      memo := s;
    }

    method SetPin(s: string)
      modifies this`pin
      ensures pin == s
    {
      pin := s;
    }

    /** "Next" on the recipient step. */
    method HandleRecipientSubmit()
      requires Valid()
      modifies this`step, this`errors
      ensures Valid()
      ensures RecipientErrors(recipient, payTag) != [] ==>
                errors == RecipientErrors(recipient, payTag) && step == old(step)
      ensures RecipientErrors(recipient, payTag) == [] ==>
                step == AmountStep && errors == if old(step) != AmountStep then [] else old(errors)
    {
      var newErrors: seq<TransferError> := [];
      if recipient.None? && payTag == [] {
        newErrors := newErrors + [TransferError(RecipientField, RecipientRequiredMessage)];
      }
      if payTag != [] && !ValidatePayTag(payTag) {
        newErrors := newErrors + [TransferError(PayTagField, PayTagFormatMessage)];
      }
      if |newErrors| > 0 {
        errors := newErrors;
        return;
      }
      SetStep(AmountStep);
    }

    /** "Next" on the amount step. */
    method HandleAmountSubmit(parse: string -> Option<real>)
      requires Valid()
      modifies this`step, this`errors
      ensures Valid()
      ensures AmountErrors(amount, parse) != [] ==>
                errors == AmountErrors(amount, parse) && step == old(step)
      ensures AmountErrors(amount, parse) == [] ==>
                step == ConfirmStep && errors == if old(step) != ConfirmStep then [] else old(errors)
    {
      var newErrors: seq<TransferError> := [];
      if amount == [] {
        newErrors := newErrors + [TransferError(AmountField, AmountRequiredMessage)];
      } else if !ValidateAmount(amount, parse) {
        newErrors := newErrors + [TransferError(AmountField, AmountRangeMessage)];
      }
      if |newErrors| > 0 {
        errors := newErrors;
        return;
      }
      SetStep(ConfirmStep);
    }

    /** "Confirm" on the confirm step. `succeeds` is the outcome of the
        simulated call (`Math.random() < 0.2` fails it). A wrong-length PIN
        sets one PIN error and touches nothing else; a failed call leaves the
        draft and step and reports one transfer error; a successful one resets
        the draft to its empty state. */
    method HandleTransfer(succeeds: bool)
      requires Valid()
      modifies this
      ensures Valid()
      ensures |old(pin)| != PinLength ==>
                errors == PinErrors(old(pin)) && step == old(step) && recipient == old(recipient) &&
                payTag == old(payTag) && amount == old(amount) && memo == old(memo) && pin == old(pin)
      ensures |old(pin)| == PinLength && !succeeds ==>
                errors == [TransferError(TransferField, InsufficientBalanceMessage)] &&
                step == old(step) && recipient == old(recipient) && payTag == old(payTag) &&
                amount == old(amount) && memo == old(memo) && pin == old(pin)
      ensures |old(pin)| == PinLength && succeeds ==>
                IsEmptyDraft() && errors == if old(step) != RecipientStep then [] else old(errors)
    {
      var newErrors: seq<TransferError> := [];
      if pin == [] || |pin| != 6 {
        newErrors := newErrors + [TransferError(PinField, PinRequiredMessage)];
      }
      if |newErrors| > 0 {
        errors := newErrors;
        return;
      }
      isLoading := true;
      if !succeeds {
        errors := [TransferError(TransferField, InsufficientBalanceMessage)];
      } else {
        SetStep(RecipientStep);
        recipient := None;
        payTag := [];
        amount := [];
        memo := [];
        pin := [];
      }
      isLoading := false;
    }

    /** "Back" on the amount step: no validation. */
    method BackToRecipient()
      modifies this`step, this`errors
      ensures step == RecipientStep
      ensures errors == if old(step) != RecipientStep then [] else old(errors)
    {
      SetStep(RecipientStep);
    }

    /** "Back" on the confirm step: no validation. */
    method BackToAmount()
      modifies this`step, this`errors
      ensures step == AmountStep
      ensures errors == if old(step) != AmountStep then [] else old(errors)
    {
      SetStep(AmountStep);
    }
  }

  /** Picking a built-in contact and pressing "next" always reaches the
      amount step with no errors. */
  method ContactThenNext(k: nat) returns (step: Step, errors: seq<TransferError>)
    requires k < |RecentContacts()|
    ensures step == AmountStep && errors == []
  {
    var draft := new TransferDraft();
    draft.SelectContact(RecentContacts()[k]);
    ContactsCanAdvance();
    draft.HandleRecipientSubmit();
    step, errors := draft.step, draft.errors;
  }
}
