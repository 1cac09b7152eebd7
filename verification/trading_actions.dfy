/** Normalisation of backend errors into user-facing messages, and the
    buy and sell mutations that produce them.

    The fixed messages are spelled as concatenations of short pieces; this
    changes nothing about their text and lets the verifier count their
    characters, which is how it shows that one message does not contain
    another's keyword.
 */
module TradingActions {
  import opened Wrappers
  import opened Text

  /** A value a rejected promise carries: an `Error` object with its name
      and message, or anything else (a string, `null`, a plain object),
      given by what `String(value)` prints for it. */
  datatype Thrown = ErrorObject(name: string, message: string) | Other(text: string)

  /** `new Error(message)`. */
  function NewError(message: string): Thrown {
    ErrorObject("Error", message)
  }

  // The keywords the backend's messages are searched for.
  const UnauthorizedKeyword: string := "Unauthorized"
  const OnlyUsersKeyword: string := "Only users can"
  const InsufficientKeyword: string := "Insufficient"
  const CashKeyword: string := InsufficientKeyword + " cash balance"
  const IcpKeyword: string := InsufficientKeyword + " ICP balance"

  // The messages the normalisation produces.
  const SetupMessage: string := "Account setup " + "required. " + "Please wait " + "a moment and " + "try again."
  const CashMessage: string := CashKeyword + " for this " + "purchase."
  const IcpMessage: string := IcpKeyword + " for this " + "sale."
  const DefaultMessage: string := "Transaction " + "failed. " + "Please try " + "again."

  /** The message thrown when the backend connection is not there yet. */
  const NoActorMessage: string := "Connection " + "not ready. " + "Please wait " + "a moment."

  /** `error?.message || String(error)`: the message when it is non-empty;
      otherwise what `String(error)` prints, which for an error with an
      empty message is its name. */
  function WorkingMessage(e: Thrown): (m: string)
    ensures e.ErrorObject? && e.message != "" ==> m == e.message
    ensures e.ErrorObject? && e.message == "" ==> m == e.name
    ensures e.Other? ==> m == e.text
  {
    match e
    case ErrorObject(name, message) => if message != "" then message else name
    case Other(text) => text
  }

  /** An authorisation problem, checked before everything else. */
  predicate NeedsSetup(m: string) {
    Contains(m, UnauthorizedKeyword) || Contains(m, OnlyUsersKeyword)
  }

  /** `parseBackendError`: the setup message for an authorisation problem,
      even if the text also mentions a balance; otherwise the cash message,
      then the ICP message; otherwise the working message itself, or the
      default when that is empty. */
  function ParseBackendError(e: Thrown): (r: string)
    ensures r != []
    ensures NeedsSetup(WorkingMessage(e)) ==> r == SetupMessage
    ensures !NeedsSetup(WorkingMessage(e)) && Contains(WorkingMessage(e), CashKeyword) ==> r == CashMessage
    ensures (!NeedsSetup(WorkingMessage(e)) && !Contains(WorkingMessage(e), CashKeyword)
             && Contains(WorkingMessage(e), IcpKeyword)) ==> r == IcpMessage
    ensures (!NeedsSetup(WorkingMessage(e)) && !Contains(WorkingMessage(e), CashKeyword)
             && !Contains(WorkingMessage(e), IcpKeyword)) ==>
              r == (if WorkingMessage(e) != [] then WorkingMessage(e) else DefaultMessage)
  {
    var m := WorkingMessage(e);
    if NeedsSetup(m) then SetupMessage
    else if Contains(m, CashKeyword) then CashMessage
    else if Contains(m, IcpKeyword) then IcpMessage
    else if m != [] then m
    else DefaultMessage
  }

  /** The set of texts `ParseBackendError` can return. */
  predicate IsNormalised(r: string) {
    || r == SetupMessage || r == CashMessage || r == IcpMessage || r == DefaultMessage
    || (r != [] && Generic(r))
  }

  /** `m` contains none of the keywords, so it is returned unchanged. */
  predicate Generic(m: string) {
    !NeedsSetup(m) && !Contains(m, CashKeyword) && !Contains(m, IcpKeyword)
  }

  /** A text without the capital letters `U`, `O` and `I` contains none of
      the keywords: each keyword starts with one of them. */
  lemma GenericByLetters(m: string)
    requires 'U' !in m && 'O' !in m && 'I' !in m
    ensures Generic(m)
  {
    ExcludesChar(m, UnauthorizedKeyword, 0);
    ExcludesChar(m, OnlyUsersKeyword, 0);
    ExcludesChar(m, CashKeyword, 0);
    ExcludesChar(m, IcpKeyword, 0);
  }

  // Which capital letters the fixed messages lack, one fact per lemma:
  // asked for together, these facts about literals cost the verifier far
  // more than one at a time.
  lemma SetupLacksU() ensures 'U' !in SetupMessage {}
  lemma SetupLacksO() ensures 'O' !in SetupMessage {}
  lemma SetupLacksI() ensures 'I' !in SetupMessage {}
  lemma DefaultLacksU() ensures 'U' !in DefaultMessage {}
  lemma DefaultLacksO() ensures 'O' !in DefaultMessage {}
  lemma DefaultLacksI() ensures 'I' !in DefaultMessage {}
  lemma NoActorLacksU() ensures 'U' !in NoActorMessage {}
  lemma NoActorLacksO() ensures 'O' !in NoActorMessage {}
  lemma NoActorLacksI() ensures 'I' !in NoActorMessage {}
  lemma CashLacksU() ensures 'U' !in CashMessage {}
  lemma CashLacksO() ensures 'O' !in CashMessage {}
  lemma IcpLacksU() ensures 'U' !in IcpMessage {}
  lemma IcpLacksO() ensures 'O' !in IcpMessage {}

  lemma SetupMessageIsGeneric()
    ensures Generic(SetupMessage)
  {
    SetupLacksU();
    SetupLacksO();
    SetupLacksI();
    GenericByLetters(SetupMessage);
  }

  lemma DefaultMessageIsGeneric()
    ensures Generic(DefaultMessage)
  {
    DefaultLacksU();
    DefaultLacksO();
    DefaultLacksI();
    GenericByLetters(DefaultMessage);
  }

  /** The connection message passes through normalisation unchanged. */
  lemma NoActorMessageIsGeneric()
    ensures Generic(NoActorMessage)
    ensures ParseBackendError(NewError(NoActorMessage)) == NoActorMessage
  {
    NoActorLacksU();
    NoActorLacksO();
    NoActorLacksI();
    GenericByLetters(NoActorMessage);
  }

  /** The cash message is classified as a cash problem again. */
  lemma CashMessageClassifies()
    ensures !NeedsSetup(CashMessage) && Contains(CashMessage, CashKeyword)
  {
    CashLacksU();
    CashLacksO();
    ExcludesChar(CashMessage, UnauthorizedKeyword, 0);
    ExcludesChar(CashMessage, OnlyUsersKeyword, 0);
    ContainsPrefix(CashMessage, CashKeyword);
  }

  /** The ICP message is classified as an ICP problem again. */
  lemma IcpMessageClassifies()
    ensures !NeedsSetup(IcpMessage) && !Contains(IcpMessage, CashKeyword) && Contains(IcpMessage, IcpKeyword)
  {
    IcpLacksU();
    IcpLacksO();
    ExcludesChar(IcpMessage, UnauthorizedKeyword, 0);
    ExcludesChar(IcpMessage, OnlyUsersKeyword, 0);
    IcpMessageLacksCash();
    ContainsPrefix(IcpMessage, IcpKeyword);
  }

  /** The ICP message does not contain the cash keyword: the `s` of "cash"
      would have to fall in "P balance for t", which has none. */
  lemma IcpMessageLacksCash()
    ensures !Contains(IcpMessage, CashKeyword)
  {
    var a, b, c, d := "Insufficient", " ICP balance", " for this ", "sale.";
    assert IcpMessage == a + b + c + d;
    var k1, k2 := "Insufficient", " cash balance";
    assert CashKeyword == k1 + k2;
    assert CashKeyword[15] == k2[3] == 's';
    assert IcpMessage[15..30] == b[3..] + c[..6];
    assert 's' !in b[3..] + c[..6];
    ExcludesInWindow(IcpMessage, CashKeyword, 15);
  }

  /** Every result is one of the normalised texts. */
  lemma ParseIsNormalised(e: Thrown)
    ensures IsNormalised(ParseBackendError(e))
  {
  }

  /** Normalising is idempotent: wrapping any result in a new `Error` and
      normalising again gives the same text back. This is what makes the
      double normalisation of an account-setup failure, once in the
      mutation and once in the panel, harmless. */
  lemma ParseIdempotent(e: Thrown, name: string)
    ensures ParseBackendError(ErrorObject(name, ParseBackendError(e))) == ParseBackendError(e)
  {
    var r := ParseBackendError(e);
    assert WorkingMessage(ErrorObject(name, r)) == r;
    SetupMessageIsGeneric();
    DefaultMessageIsGeneric();
    CashMessageClassifies();
    IcpMessageClassifies();
  }

  // ---------------------------------------------------------------------
  // The buy and sell mutations

  /** A settled mutation: it resolved, or it rejected with a value. */
  datatype Outcome = Done | Rejected(error: Thrown)

  /** The body shared by `useBuyICP` and `useSellICP`: without an actor it
      throws the connection message; a failure while creating the account
      is rethrown as a new `Error` with the normalised message; a failure of
      the trade itself propagates unchanged. The two failures are
      parameters: the account and trade calls are not declared by the
      backend interface in the form the hook uses, so their run-time
      behaviour is not fixed by the code. */
  function TradeMutation(hasActor: bool, accountFailure: Option<Thrown>, tradeFailure: Option<Thrown>): (o: Outcome)
    ensures !hasActor ==> o == Rejected(NewError(NoActorMessage))
    ensures hasActor && accountFailure.Some? ==> o == Rejected(NewError(ParseBackendError(accountFailure.value)))
    ensures hasActor && accountFailure.None? && tradeFailure.Some? ==> o == Rejected(tradeFailure.value)
    ensures o == Done <==> hasActor && accountFailure.None? && tradeFailure.None?
  {
    if !hasActor then Rejected(NewError(NoActorMessage))
    else if accountFailure.Some? then Rejected(NewError(ParseBackendError(accountFailure.value)))
    else if tradeFailure.Some? then Rejected(tradeFailure.value)
    else Done
  }
}
