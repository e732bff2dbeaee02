/** The FluentValidation rules for the two commands that carry input. Every rule runs, and every
    failing check of a rule adds its message, in the order the rules are declared. */
module Validators {
  import opened Primitives
  import opened Commands
  import opened ValueObjects

  const MerchantIdRequired: string := "Merchant ID required"
  const AmountMustBePositive: string := "Amount must be positive"
  const AmountTooLarge: string := "Amount too large"
  const CurrencyRequired: string := "Currency required"
  const CurrencyLength: string := "Currency must be 3 characters (ISO 4217)"
  const ReferenceRequired: string := "Reference required"
  const ReferenceTooLong: string := "Reference max 50 characters"
  const WebhookUrlInvalid: string := "Webhook URL must be valid"

  /** The upper bound of LessThan on Amount. */
  const AmountLimit: int := 1_000_000_000

  /** A command every rule of CreatePaymentCommandValidator accepts. NotEmpty refuses the empty
      Guid and blank strings; Uri.TryCreate(url, UriKind.Absolute) is the parameter `isAbsoluteUri`. */
  predicate CreatePaymentCommandValid(cmd: CreatePaymentCommand, isAbsoluteUri: string -> bool) {
    && cmd.merchantId != EmptyGuid
    && 0 < cmd.amount < AmountLimit
    && !IsBlank(cmd.currency) && |cmd.currency| == 3
    && !IsBlank(cmd.reference) && |cmd.reference| <= 50
    && (cmd.webhookUrl.None? || isAbsoluteUri(cmd.webhookUrl.value))
  }

  /** The message of one check: present exactly when the check fails. */
  function Check(failing: bool, message: string): (r: seq<string>)
    ensures r == [] <==> !failing
    ensures forall m :: m in r <==> failing && m == message
  {
    if failing then [message] else []
  }

  /** RuleFor(Reference): NotEmpty, then MaximumLength(50). Shared by both validators. */
  function ReferenceRule(reference: string): (r: seq<string>)
    ensures ReferenceRequired in r <==> IsBlank(reference)
    ensures ReferenceTooLong in r <==> |reference| > 50
    ensures forall m :: m in r ==> m == ReferenceRequired || m == ReferenceTooLong
    ensures r == [] <==> !IsBlank(reference) && |reference| <= 50
  {
    assert |ReferenceRequired| == 18 && |ReferenceTooLong| == 27;
    Check(IsBlank(reference), ReferenceRequired) + Check(|reference| > 50, ReferenceTooLong)
  }

  /** RuleFor(Amount): GreaterThan(0), then LessThan(1_000_000_000). */
  function AmountRule(amount: Int32): (r: seq<string>)
    ensures AmountMustBePositive in r <==> amount <= 0
    ensures AmountTooLarge in r <==> amount >= AmountLimit
    ensures forall m :: m in r ==> m == AmountMustBePositive || m == AmountTooLarge
    ensures r == [] <==> 0 < amount < AmountLimit
  {
    assert |AmountMustBePositive| == 23 && |AmountTooLarge| == 16;
    Check(amount <= 0, AmountMustBePositive) + Check(amount >= AmountLimit, AmountTooLarge)
  }

  /** RuleFor(Currency): NotEmpty, then Length(3). */
  function CurrencyRule(currency: string): (r: seq<string>)
    ensures CurrencyRequired in r <==> IsBlank(currency)
    ensures CurrencyLength in r <==> |currency| != 3
    ensures forall m :: m in r ==> m == CurrencyRequired || m == CurrencyLength
    ensures r == [] <==> !IsBlank(currency) && |currency| == 3
  {
    assert |CurrencyRequired| == 17 && |CurrencyLength| == 40;
    Check(IsBlank(currency), CurrencyRequired) + Check(|currency| != 3, CurrencyLength)
  }

  /** CreatePaymentCommandValidator: the messages of the MerchantId, Amount, Currency, Reference
      and WebhookUrl rules, in that order. */
  function CreatePaymentErrors(cmd: CreatePaymentCommand, isAbsoluteUri: string -> bool): (r: seq<string>)
    ensures r == [] <==> CreatePaymentCommandValid(cmd, isAbsoluteUri)
  {
    Check(cmd.merchantId == EmptyGuid, MerchantIdRequired)
    + AmountRule(cmd.amount)
    + CurrencyRule(cmd.currency)
    + ReferenceRule(cmd.reference)
    + Check(cmd.webhookUrl.Some? && !isAbsoluteUri(cmd.webhookUrl.value), WebhookUrlInvalid)
  }

  /** The messages of CreatePaymentCommandValidator are those of its five rules. */
  lemma CreatePaymentErrorsOfRules(cmd: CreatePaymentCommand, isAbsoluteUri: string -> bool, m: string)
    ensures m in CreatePaymentErrors(cmd, isAbsoluteUri) <==>
              || m in Check(cmd.merchantId == EmptyGuid, MerchantIdRequired)
              || m in AmountRule(cmd.amount)
              || m in CurrencyRule(cmd.currency)
              || m in ReferenceRule(cmd.reference)
              || m in Check(cmd.webhookUrl.Some? && !isAbsoluteUri(cmd.webhookUrl.value), WebhookUrlInvalid)
  {
  }

  /** The MerchantId, Amount and WebhookUrl messages are reported exactly when their checks fail. */
  lemma CreatePaymentErrorsReportFailingChecks(cmd: CreatePaymentCommand, isAbsoluteUri: string -> bool)
    ensures var r := CreatePaymentErrors(cmd, isAbsoluteUri);
            && (MerchantIdRequired in r <==> cmd.merchantId == EmptyGuid)
            && (AmountMustBePositive in r <==> cmd.amount <= 0)
            && (AmountTooLarge in r <==> cmd.amount >= AmountLimit)
            && (WebhookUrlInvalid in r <==> cmd.webhookUrl.Some? && !isAbsoluteUri(cmd.webhookUrl.value))
  {
    MessagesDistinct();
    CreatePaymentErrorsOfRules(cmd, isAbsoluteUri, MerchantIdRequired);
    CreatePaymentErrorsOfRules(cmd, isAbsoluteUri, AmountMustBePositive);
    CreatePaymentErrorsOfRules(cmd, isAbsoluteUri, AmountTooLarge);
    CreatePaymentErrorsOfRules(cmd, isAbsoluteUri, WebhookUrlInvalid);
  }

  /** The Currency and Reference messages are reported exactly when their checks fail. */
  lemma CreatePaymentErrorsReportFieldChecks(cmd: CreatePaymentCommand, isAbsoluteUri: string -> bool)
    ensures var r := CreatePaymentErrors(cmd, isAbsoluteUri);
            && (CurrencyRequired in r <==> IsBlank(cmd.currency))
            && (CurrencyLength in r <==> |cmd.currency| != 3)
            && (ReferenceRequired in r <==> IsBlank(cmd.reference))
            && (ReferenceTooLong in r <==> |cmd.reference| > 50)
  {
    MessagesDistinct();
    CreatePaymentErrorsOfRules(cmd, isAbsoluteUri, CurrencyRequired);
    CreatePaymentErrorsOfRules(cmd, isAbsoluteUri, CurrencyLength);
    CreatePaymentErrorsOfRules(cmd, isAbsoluteUri, ReferenceRequired);
    CreatePaymentErrorsOfRules(cmd, isAbsoluteUri, ReferenceTooLong);
  }

  /** The eight messages are pairwise different: each has a length of its own. */
  lemma MessagesDistinct()
    ensures MerchantIdRequired !in {AmountMustBePositive, AmountTooLarge, CurrencyRequired, CurrencyLength,
                                    ReferenceRequired, ReferenceTooLong, WebhookUrlInvalid}
    ensures AmountMustBePositive !in {AmountTooLarge, CurrencyRequired, CurrencyLength, ReferenceRequired,
                                      ReferenceTooLong, WebhookUrlInvalid}
    ensures AmountTooLarge !in {CurrencyRequired, CurrencyLength, ReferenceRequired, ReferenceTooLong, WebhookUrlInvalid}
    ensures CurrencyRequired !in {CurrencyLength, ReferenceRequired, ReferenceTooLong, WebhookUrlInvalid}
    ensures CurrencyLength !in {ReferenceRequired, ReferenceTooLong, WebhookUrlInvalid}
    ensures ReferenceRequired !in {ReferenceTooLong, WebhookUrlInvalid}
    ensures ReferenceTooLong != WebhookUrlInvalid
  {
    assert |MerchantIdRequired| == 20 && |AmountMustBePositive| == 23 && |AmountTooLarge| == 16;
    assert |CurrencyRequired| == 17 && |CurrencyLength| == 40 && |ReferenceRequired| == 18;
    assert |ReferenceTooLong| == 27 && |WebhookUrlInvalid| == 25;
  }

  /** CompletePaymentCommandValidator: the Reference rule. */
  function CompletePaymentErrors(cmd: CompletePaymentCommand): (r: seq<string>)
    ensures ReferenceRequired in r <==> IsBlank(cmd.reference)
    ensures ReferenceTooLong in r <==> |cmd.reference| > 50
    ensures r == [] <==> NewPaymentReference(cmd.reference).Success?
  {
    ReferenceRule(cmd.reference)
  }

  /** The validator refuses strictly more than the value objects do: an amount of a billion or more
      is a valid Money, but too large for the validator. */
  lemma ValidatorBoundsAmountMoreTightly(cmd: CreatePaymentCommand, isAbsoluteUri: string -> bool)
    requires CreatePaymentErrors(cmd, isAbsoluteUri) == []
    ensures NewMoney(cmd.amount, cmd.currency).Success? && NewMoney(cmd.amount, cmd.currency).value.IsPositive()
    ensures NewPaymentReference(cmd.reference).Success?
    ensures forall a: Int32 {:trigger NewMoney(a, cmd.currency)} :: a >= AmountLimit ==>
              NewMoney(a, cmd.currency).Success? && AmountTooLarge in CreatePaymentErrors(cmd.(amount := a), isAbsoluteUri)
  {
  }
}
