/** How the disbursement client reads one exchange with the gateway.  Everything the payout
    protocol knows about a transfer comes through this classification. */
module Iris {
  import opened Wrappers
  import opened GoStrings
  import opened PayoutStatuses
  import Money

  /** One payout entry in the body of a create or a read answer. */
  datatype Entry = Entry(word: string, reference: string)

  datatype Body = Unreadable | Entries(entries: seq<Entry>)

  /** What came back over the wire: nothing, a body that broke off, or a full answer. */
  datatype Exchange =
    | NoAnswer
    | BrokenOff(brokenCode: int)
    | Answer(code: int, message: string, body: Body)

  datatype CallError =
    | OutcomeUnknown
    | IdempotencyConflict
    | InsufficientBalance
    | NotFound
    | GatewayError(retryable: bool)
    | UnusableAmount
    | UnmappedStatus

  datatype PayoutResult = PayoutResult(status: PayoutStatus, reference: string, word: string)

  const WORDS: seq<(string, PayoutStatus)> := [
    ("queued", Submitted), ("processed", Submitted), ("pending", Submitted), ("approved", Submitted),
    ("completed", Completed), ("success", Completed), ("succeeded", Completed),
    ("failed", Failed), ("rejected", Rejected)]

  function Lookup(word: string, words: seq<(string, PayoutStatus)>): (r: Option<PayoutStatus>)
    ensures AllReportable(words) && r.Some? ==> Reportable(r.value)
  {
    if words == [] then None
    else if words[0].0 == word then Some(words[0].1)
    else Lookup(word, words[1..])
  }

  /** The four statuses a gateway can report. */
  predicate Reportable(s: PayoutStatus) {
    s == Submitted || s == Completed || s == Failed || s == Rejected
  }

  predicate AllReportable(words: seq<(string, PayoutStatus)>) {
    forall i :: 0 <= i < |words| ==> Reportable(words[i].1)
  }

  lemma WordsAreReportable()
    ensures AllReportable(WORDS)
  {
  }

  /** The gateway's vocabulary, ignoring case and surrounding blanks; anything else is unmapped. */
  function MapStatus(word: string): (r: Option<PayoutStatus>)
    ensures r.Some? ==> Reportable(r.value)
  {
    WordsAreReportable();
    Lookup(ToLower(TrimSpace(word)), WORDS)
  }

  lemma LookupSkips(word: string, words: seq<(string, PayoutStatus)>, k: nat)
    requires k < |words|
    ensures Lookup(word, words[k..]) == if words[k].0 == word then Some(words[k].1) else Lookup(word, words[k + 1..])
  {
    assert words[k..][1..] == words[k + 1..];
  }

  /** Which word means what. */
  lemma Vocabulary(word: string)
    ensures var w := ToLower(TrimSpace(word));
      MapStatus(word)
      == if w == "queued" || w == "processed" || w == "pending" || w == "approved" then Some(Submitted)
         else if w == "completed" || w == "success" || w == "succeeded" then Some(Completed)
         else if w == "failed" then Some(Failed)
         else if w == "rejected" then Some(Rejected)
         else None
  {
    var w := ToLower(TrimSpace(word));
    assert WORDS[0..] == WORDS && WORDS[9..] == [];
    hide ToLower, TrimSpace, Lookup;
    LookupSkips(w, WORDS, 0);
    LookupSkips(w, WORDS, 1);
    LookupSkips(w, WORDS, 2);
    LookupSkips(w, WORDS, 3);
    LookupSkips(w, WORDS, 4);
    LookupSkips(w, WORDS, 5);
    LookupSkips(w, WORDS, 6);
    LookupSkips(w, WORDS, 7);
    LookupSkips(w, WORDS, 8);
    LookupNothing(w);
  }

  lemma LookupNothing(word: string)
    ensures Lookup(word, []) == None
  {
  }

  /** One request.  `mutating` marks a POST, for which a missing or garbled answer leaves the
      outcome open. */
  function Do(mutating: bool, x: Exchange): Result<seq<Entry>, CallError> {
    match x
    case NoAnswer => Err(if mutating then OutcomeUnknown else GatewayError(true))
    case BrokenOff(_) => Err(if mutating then OutcomeUnknown else GatewayError(true))
    case Answer(code, message, body) =>
      if code == 409 then Err(IdempotencyConflict)
      else if code >= 500 then Err(if mutating then OutcomeUnknown else GatewayError(true))
      else if code >= 400 then
        Err(if Contains(ToLower(message), "insufficient") then InsufficientBalance
            else if code == 404 && !mutating then NotFound
            else GatewayError(false))
      else
        match body
        case Unreadable => Err(if mutating then OutcomeUnknown else GatewayError(false))
        case Entries(entries) => Ok(entries)
  }

  /** A payout that can be put on the wire at all: its amount has a decimal form. */
  predicate Sendable(currency: string) {
    Money.Supported(currency)
  }

  /** The header is cut at a hundred characters. */
  function HeaderKey(key: string): string {
    Truncate(key, 100)
  }

  /** A key goes over the wire whole exactly when it has at most a hundred characters, so that two such keys
      are never taken for one another. */
  lemma KeysGoWhole(key: string, other: string)
    ensures |HeaderKey(key)| <= 100 && HeaderKey(key) <= key
    ensures HeaderKey(key) == key <==> |key| <= 100
    ensures |key| <= 100 && |other| <= 100 ==> (HeaderKey(key) == HeaderKey(other) <==> key == other)
  {
  }

  function ReadResult(e: Entry): (r: Result<PayoutResult, CallError>)
    ensures r.Ok? ==> Reportable(r.value.status)
  {
    match MapStatus(e.word)
    case None => Err(UnmappedStatus)
    case Some(status) => Ok(PayoutResult(status, e.reference, e.word))
  }

  function CreateOutcome(x: Exchange): (r: Result<PayoutResult, CallError>)
    ensures r.Ok? ==> Reportable(r.value.status)
  {
    match Do(true, x)
    case Err(e) => Err(e)
    case Ok(entries) => if entries == [] then Err(OutcomeUnknown) else ReadResult(entries[0])
  }

  function CreatePayout(currency: string, x: Exchange): (r: Result<PayoutResult, CallError>)
    ensures r.Ok? ==> Reportable(r.value.status)
  {
    if !Sendable(currency) then Err(UnusableAmount) else CreateOutcome(x)
  }

  /** A read answer is a single object rather than a list. */
  function GetPayout(x: Exchange): (r: Result<PayoutResult, CallError>)
    ensures r.Ok? ==> Reportable(r.value.status)
  {
    match Do(false, x)
    case Err(e) => Err(e)
    case Ok(entries) => ReadResult(if entries == [] then Entry("", "") else entries[0])
  }

  /** The gateway answered in full that it declined. */
  predicate Declined(x: Exchange) {
    x.Answer? && 400 <= x.code < 500
  }

  /** What the gateway says it holds, when it answered in full that it holds something. */
  function Held(x: Exchange): Option<Entry> {
    if x.Answer? && x.code < 400 && x.body.Entries? && x.body.entries != [] then Some(x.body.entries[0]) else None
  }

  predicate Mapped(word: string) {
    MapStatus(word).Some?
  }

  /** The contract the payout service relies on: an error other than "unknown" means the transfer
      did not happen.  It is met exactly when the answer's status word is in the vocabulary: an
      answer that holds a payout under any other word is reported as a plain failure. */
  lemma PlainErrorMeansDeclined(x: Exchange)
    requires CreateOutcome(x).Err? && CreateOutcome(x).error != OutcomeUnknown
    ensures Declined(x) <==> !(Held(x).Some? && !Mapped(Held(x).value.word))
    ensures Declined(x) <==> CreateOutcome(x).error != UnmappedStatus
  {
    hide MapStatus, Contains, ToLower;
  }

  /** Success and the open case, told apart by what was received. */
  lemma OutcomeIsDecided(x: Exchange)
    ensures CreateOutcome(x).Ok? <==> Held(x).Some? && Mapped(Held(x).value.word)
    ensures CreateOutcome(x) == Err(OutcomeUnknown) <==> !Declined(x) && Held(x).None?
  {
    hide MapStatus, Contains, ToLower;
  }
}
