/**
 * The result step of the transaction review: which of four views follows a
 * signed transaction, the close button's label, and the texts of the failed
 * view.
 */
module ResultStep {
  import opened Common

  /** The ledger's outcome of a submitted transaction. */
  datatype TransactionResult = TransactionResult(success: bool, code: string, message: Option<string>)

  /** What the view reads from the review flow's context: whether a submit
      result exists, the transaction's result, if any, and `VerifyResult.success`. */
  datatype ResultContext = ResultContext(
    submitted: bool,
    transactionResult: Option<TransactionResult>,
    verifySuccess: Option<bool>)

  datatype ResultView = Signed | VerificationFailed | Success | Failed

  /** `transaction.TransactionResult?.success`. */
  predicate Succeeded(c: ResultContext) {
    c.transactionResult.Some? && c.transactionResult.value.success
  }

  /** The view rendered for the context. */
  function Classify(c: ResultContext): (v: ResultView)
    ensures v == Signed <==> !c.submitted
    ensures v == VerificationFailed <==> c.submitted && Succeeded(c) && c.verifySuccess == Some(false)
    ensures v == Success <==> c.submitted && Succeeded(c) && c.verifySuccess != Some(false)
    ensures v == Failed <==> c.submitted && !Succeeded(c)
  {
    if !c.submitted then Signed
    else if Succeeded(c) then
      (if c.verifySuccess == Some(false) then VerificationFailed else Success)
    else Failed
  }

  /** A transaction that was never submitted shows the signed view whatever its result says. */
  lemma UnsubmittedIgnoresResult(c: ResultContext, r: Option<TransactionResult>, verified: Option<bool>)
    requires !c.submitted
    ensures Classify(c) == Classify(ResultContext(false, r, verified))
  {
  }

  datatype Label = Next | Close

  /** The close button reads "next" when the payload has somewhere to return to. */
  function CloseLabel(returnUrl: Option<string>): (l: Label)
    ensures l == Next <==> returnUrl.Some? && returnUrl.value != ""
  {
    if Truthy(returnUrl) then Next else Close
  }

  /** The description line of the failed view. */
  function FailedDescription(r: Option<TransactionResult>): (text: string)
    ensures r.Some? && Truthy(r.value.message) ==> text == r.value.message.value
    ensures !(r.Some? && Truthy(r.value.message)) ==> text == "No Description"
  {
    if r.Some? && Truthy(r.value.message) then r.value.message.value else "No Description"
  }

  /** What the failed view's copy button puts on the clipboard: the message
      when there is one, otherwise the code (absent when there is no result). */
  function CopyText(r: Option<TransactionResult>): (text: Option<string>)
    ensures r.None? ==> text.None?
    ensures r.Some? && Truthy(r.value.message) ==> text == r.value.message
    ensures r.Some? && !Truthy(r.value.message) ==> text == Some(r.value.code)
  {
    match r
    case None => None
    case Some(tr) => if Truthy(tr.message) then tr.message else Some(tr.code)
  }

  /** Copy and description agree whenever the result carries a message. */
  lemma CopyMatchesDescription(r: Option<TransactionResult>)
    requires r.Some? && Truthy(r.value.message)
    ensures CopyText(r) == Some(FailedDescription(r))
  {
  }

  /** The details card of the signed view. */
  datatype SignedDetails = ApplicationDetails | TransactionId(hash: string) | NoDetails

  function SignedCard(isSignIn: bool, hash: Option<string>): (d: SignedDetails)
    ensures d == ApplicationDetails <==> isSignIn
    ensures d.TransactionId? <==> !isSignIn && Truthy(hash)
    ensures d.TransactionId? ==> hash == Some(d.hash)
  {
    if isSignIn then ApplicationDetails
    else if Truthy(hash) then TransactionId(hash.value)
    else NoDetails
  }
}
