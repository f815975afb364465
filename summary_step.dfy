/**
 * The summary step of the send flow: the checks run when the user slides to
 * send, the confirmation of an unconfirmed destination tag, and the step's
 * own small state (the confirmed tag, whether the page may scroll).
 */
module SummaryStep {
  import opened Common

  /** The asset being sent: the native currency (a plain string in the flow's
      context) or an issued currency, which may be the sender's own obligation. */
  datatype Currency = Native | Issued(obligation: bool)

  /** The chosen destination; the tag is kept as the string the tag overlays store. */
  datatype Destination = Destination(name: Option<string>, address: string, tag: Option<string>)

  /** What is known about the destination account. */
  datatype DestinationInfo = DestinationInfo(requireDestinationTag: bool)

  /** The values the step reads from the send flow's shared context.
      `amountParsesToZero` stands for `parseFloat(amount) === 0`. */
  datatype SendContext = SendContext(
    amount: Option<string>,
    amountParsesToZero: bool,
    sourceBalance: real,
    currency: Currency,
    destination: Option<Destination>,
    destinationInfo: Option<DestinationInfo>)

  /** What sliding to send leads to. */
  datatype GoNextOutcome =
    | PleaseEnterAmount                   // error alert, stays on the step
    | AccountNotActivated                 // error alert, stays on the step
    | DestinationTagRequired              // warning alert, stays on the step
    | ConfirmDestinationTag(tag: string)  // confirmation overlay for the tag
    | Proceed                             // the flow moves to the next step
    | MissingDestination                  // reading the tag of an absent destination throws

  // ---------------------------------------------------------------------------
  // The conditions the checks test
  // ---------------------------------------------------------------------------

  predicate IsSpace(c: char) {
    c == ' ' || c == '\t' || c == '\n' || c == '\r'
  }

  function TrimStart(s: string): string {
    if s != "" && IsSpace(s[0]) then TrimStart(s[1..]) else s
  }

  function TrimEnd(s: string): string {
    if s != "" && IsSpace(s[|s| - 1]) then TrimEnd(s[..|s| - 1]) else s
  }

  /** `Number(tag) === 0` for a tag written as decimal digits: after trimming
      white space, nothing but zeros is left (an empty string is 0 too). */
  predicate NumericallyZero(tag: string) {
    var t := TrimEnd(TrimStart(tag));
    forall i :: 0 <= i < |t| ==> t[i] == '0'
  }

  /** `!amount || parseFloat(amount) === 0`. */
  predicate AmountMissingOrZero(ctx: SendContext) {
    !Truthy(ctx.amount) || ctx.amountParsesToZero
  }

  predicate IsObligation(ctx: SendContext) {
    ctx.currency.Issued? && ctx.currency.obligation
  }

  /** `destinationInfo?.requireDestinationTag`. */
  predicate RequiresTag(ctx: SendContext) {
    ctx.destinationInfo.Some? && ctx.destinationInfo.value.requireDestinationTag
  }

  /** `!destination.tag || Number(destination.tag) === 0`. */
  predicate TagMissingOrZero(d: Destination) {
    !Truthy(d.tag) || NumericallyZero(d.tag.value)
  }

  /** `!isEmpty(destination.tag) && destination.tag !== confirmedDestinationTag`. */
  predicate TagUnconfirmed(d: Destination, confirmed: Option<string>) {
    Truthy(d.tag) && d.tag != confirmed
  }

  /** Everything that must hold before the flow may move on: an amount, an
      activated source, and, unless the asset is the sender's own obligation,
      a destination whose tag is present when required and confirmed when set. */
  predicate Cleared(ctx: SendContext, confirmed: Option<string>) {
    && !AmountMissingOrZero(ctx)
    && ctx.sourceBalance != 0.0
    && (IsObligation(ctx) ||
        (&& ctx.destination.Some?
         && (RequiresTag(ctx) ==> !TagMissingOrZero(ctx.destination.value))
         && !TagUnconfirmed(ctx.destination.value, confirmed)))
  }

  // ---------------------------------------------------------------------------
  // goNext
  // ---------------------------------------------------------------------------

  /** The first-match chain of checks run by goNext, given the tag the user
      last confirmed. */
  function Decide(ctx: SendContext, confirmed: Option<string>): (o: GoNextOutcome)
    ensures o == PleaseEnterAmount <==> AmountMissingOrZero(ctx)
    ensures o == AccountNotActivated <==> !AmountMissingOrZero(ctx) && ctx.sourceBalance == 0.0
    ensures !AmountMissingOrZero(ctx) && ctx.sourceBalance != 0.0 && IsObligation(ctx) ==> o == Proceed
    ensures o == MissingDestination <==>
      !AmountMissingOrZero(ctx) && ctx.sourceBalance != 0.0 && !IsObligation(ctx) && ctx.destination.None?
    ensures o == DestinationTagRequired <==>
      && !AmountMissingOrZero(ctx) && ctx.sourceBalance != 0.0 && !IsObligation(ctx)
      && ctx.destination.Some? && RequiresTag(ctx) && TagMissingOrZero(ctx.destination.value)
    ensures o.ConfirmDestinationTag? <==>
      && !AmountMissingOrZero(ctx) && ctx.sourceBalance != 0.0 && !IsObligation(ctx)
      && ctx.destination.Some?
      && !(RequiresTag(ctx) && TagMissingOrZero(ctx.destination.value))
      && TagUnconfirmed(ctx.destination.value, confirmed)
    ensures o.ConfirmDestinationTag? ==>
      && ctx.destination.Some? && ctx.destination.value.tag == Some(o.tag)
      && o.tag != "" && Some(o.tag) != confirmed
    ensures o == Proceed <==> Cleared(ctx, confirmed)
  {
    if AmountMissingOrZero(ctx) then PleaseEnterAmount
    else if ctx.sourceBalance == 0.0 then AccountNotActivated
    else if IsObligation(ctx) then Proceed
    else if ctx.destination.None? then MissingDestination
    else
      var d := ctx.destination.value;
      if RequiresTag(ctx) && TagMissingOrZero(d) then DestinationTagRequired
      else if TagUnconfirmed(d, confirmed) then ConfirmDestinationTag(d.tag.value)
      else Proceed
  }

  /** Confirming the tag the overlay asked about makes the next attempt proceed. */
  lemma ConfirmingTheTagProceeds(ctx: SendContext, confirmed: Option<string>)
    requires Decide(ctx, confirmed).ConfirmDestinationTag?
    ensures ctx.destination.Some?
    ensures Decide(ctx, ctx.destination.value.tag) == Proceed
  {
  }

  /** The confirmed tag only decides whether the confirmation overlay opens:
      two attempts that differ only in it agree unless one of them asks. */
  lemma ConfirmedTagOnlyAffectsConfirmation(ctx: SendContext, c1: Option<string>, c2: Option<string>)
    ensures Decide(ctx, c1) != Decide(ctx, c2) ==>
      Decide(ctx, c1).ConfirmDestinationTag? || Decide(ctx, c2).ConfirmDestinationTag?
  {
  }

  // ---------------------------------------------------------------------------
  // Fee badge
  // ---------------------------------------------------------------------------

  datatype Color = Green | Orange | Red | TextPrimary

  /** The colour of the fee badge for the selected fee's level. */
  function FeeColor(feeType: string): (c: Color)
    ensures c == Green <==> feeType == "low"
    ensures c == Orange <==> feeType == "medium"
    ensures c == Red <==> feeType == "high"
    ensures c == TextPrimary <==> feeType != "low" && feeType != "medium" && feeType != "high"
  {
    match feeType
    case "low" => Green
    case "medium" => Orange
    case "high" => Red
    case _ => TextPrimary
  }

  // ---------------------------------------------------------------------------
  // The step
  // ---------------------------------------------------------------------------

  /** A change the step asks of the send flow. */
  datatype FlowEffect = ClearDestination | NavigateBack

  class SummaryStep {
    var confirmedDestinationTag: Option<string>
    var destinationTagInputVisible: bool
    var canScroll: bool

    constructor ()
      ensures confirmedDestinationTag == None
      ensures !destinationTagInputVisible && canScroll
    {
      confirmedDestinationTag := None;
      destinationTagInputVisible := false;
      canScroll := true;
    }

    /** goNext: the outcome of sliding to send; the step's state is not changed. */
    method GoNext(ctx: SendContext) returns (o: GoNextOutcome)
      ensures o == Decide(ctx, confirmedDestinationTag)
      ensures o == Proceed <==> Cleared(ctx, confirmedDestinationTag)
    {
      if !Truthy(ctx.amount) || ctx.amountParsesToZero {
        return PleaseEnterAmount;
      }
      if ctx.sourceBalance == 0.0 {
        return AccountNotActivated;
      }
      if ctx.currency.Issued? && ctx.currency.obligation {
        return Proceed;
      }
      if ctx.destination.None? {
        return MissingDestination;
      }
      var d := ctx.destination.value;
      if RequiresTag(ctx) && (!Truthy(d.tag) || NumericallyZero(d.tag.value)) {
        return DestinationTagRequired;
      }
      if Truthy(d.tag) && d.tag != confirmedDestinationTag {
        return ConfirmDestinationTag(d.tag.value);
      }
      return Proceed;
    }

    /** The confirmation overlay's confirm: remember the destination's tag, then run goNext again. */
    method OnDestinationTagConfirm(ctx: SendContext) returns (o: GoNextOutcome)
      requires ctx.destination.Some?
      modifies this
      ensures confirmedDestinationTag == ctx.destination.value.tag
      ensures destinationTagInputVisible == old(destinationTagInputVisible) && canScroll == old(canScroll)
      ensures o == Decide(ctx, confirmedDestinationTag)
      ensures !o.ConfirmDestinationTag?
    {
      confirmedDestinationTag := ctx.destination.value.tag;
      o := GoNext(ctx);
    }

    /** goBack: clear the destination, then return to the previous step. */
    method GoBack() returns (effects: seq<FlowEffect>)
      ensures effects == [ClearDestination, NavigateBack]
    {
      effects := [ClearDestination];
      effects := effects + [NavigateBack];
    }

    method ToggleCanScroll()
      modifies this
      ensures canScroll == !old(canScroll)
      ensures confirmedDestinationTag == old(confirmedDestinationTag)
      ensures destinationTagInputVisible == old(destinationTagInputVisible)
    {
      canScroll := !canScroll;
    }
  }
}
