/** Event names, and the keys that make publishing an occurrence twice impossible. */
module Events {
  import PaymentStatuses
  import GoStrings

  /** A name applications subscribe to. */
  type Type = string

  function TypeForStatus(s: PaymentStatuses.Status): Type {
    match s
    case Pending => "payment.pending"
    case Authorized => "payment.authorized"
    case Paid => "payment.paid"
    case Failed => "payment.failed"
    case Canceled => "payment.canceled"
    case Expired => "payment.expired"
    case Refunded => "payment.refunded"
    case PartiallyRefunded => "payment.partially_refunded"
  }

  function LowerName(s: PaymentStatuses.Status): string {
    match s
    case Pending => "pending"
    case Authorized => "authorized"
    case Paid => "paid"
    case Failed => "failed"
    case Canceled => "canceled"
    case Expired => "expired"
    case Refunded => "refunded"
    case PartiallyRefunded => "partially_refunded"
  }

  lemma Lowers(upper: string, lower: string)
    requires |upper| == |lower| && forall i :: 0 <= i < |upper| ==> lower[i] == GoStrings.LowerChar(upper[i])
    ensures GoStrings.ToLower(upper) == lower
  {
  }

  lemma NameLowers(s: PaymentStatuses.Status)
    ensures GoStrings.ToLower(PaymentStatuses.NameOf(s)) == LowerName(s)
  {
    hide GoStrings.ToLower;
    match s
    case PartiallyRefunded => Lowers("PARTIALLY_REFUNDED", "partially_refunded");
    case _ => ShortNameLowers(s);
  }

  lemma ShortNameLowers(s: PaymentStatuses.Status)
    requires s != PaymentStatuses.PartiallyRefunded
    ensures GoStrings.ToLower(PaymentStatuses.NameOf(s)) == LowerName(s)
  {
    hide GoStrings.ToLower;
    Lowers(PaymentStatuses.NameOf(s), LowerName(s));
  }

  /** The event of a status is named after it. */
  lemma TypeIsTheName(s: PaymentStatuses.Status)
    ensures TypeForStatus(s) == "payment." + GoStrings.ToLower(PaymentStatuses.NameOf(s))
  {
    NameLowers(s);
    hide GoStrings.ToLower, PaymentStatuses.NameOf;
  }

  /** Each status has an event of its own. */
  lemma TypesDiffer(s: PaymentStatuses.Status, other: PaymentStatuses.Status)
    ensures TypeForStatus(s) == TypeForStatus(other) <==> s == other
  {
  }

  // ---- keys ----

  function PaymentDedupeKey(id: string, t: Type, discriminator: string): string {
    "payment:" + id + ":" + t + (if discriminator != "" then ":" + discriminator else "")
  }

  function RefundDedupeKey(id: string, t: Type): string {
    "refund:" + id + ":" + t
  }

  function SubscriptionDedupeKey(id: string, t: Type, discriminator: string): string {
    "subscription:" + id + ":" + t + (if discriminator != "" then ":" + discriminator else "")
  }

  function PayoutDedupeKey(id: string, t: Type): string {
    "payout:" + id + ":" + t
  }

  /** What an event is about: the occurrence its key stands for. */
  datatype Subject =
    | OfPayment(id: string, discriminator: string)
    | OfRefund(id: string)
    | OfSubscription(id: string, discriminator: string)
    | OfPayout(id: string)

  function DedupeKey(s: Subject, t: Type): string {
    match s
    case OfPayment(id, discriminator) => PaymentDedupeKey(id, t, discriminator)
    case OfRefund(id) => RefundDedupeKey(id, t)
    case OfSubscription(id, discriminator) => SubscriptionDedupeKey(id, t, discriminator)
    case OfPayout(id) => PayoutDedupeKey(id, t)
  }

  predicate NoColon(s: string) { ':' !in s }

  function BeforeColon(s: string): nat {
    if s == "" || s[0] == ':' then 0 else 1 + BeforeColon(s[1..])
  }

  lemma {:induction false} ColonIsAfter(a: string, rest: string)
    requires NoColon(a)
    ensures BeforeColon(a + ":" + rest) == |a|
  {
    if a != "" {
      assert (a + ":" + rest)[1..] == a[1..] + ":" + rest;
      ColonIsAfter(a[1..], rest);
    }
  }

  /** The first colon splits a string in one way only. */
  lemma SplitsOnce(a: string, rest: string, b: string, rest': string)
    requires NoColon(a) && NoColon(b) && a + ":" + rest == b + ":" + rest'
    ensures a == b && rest == rest'
  {
    ColonIsAfter(a, rest);
    ColonIsAfter(b, rest');
    var s, s' := a + ":" + rest, b + ":" + rest';
    assert s[..|a|] == a && s'[..|b|] == b;
    assert s[|a| + 1..] == rest && s'[|b| + 1..] == rest';
  }

  function Family(s: Subject): string {
    match s
    case OfPayment(_, _) => "payment"
    case OfRefund(_) => "refund"
    case OfSubscription(_, _) => "subscription"
    case OfPayout(_) => "payout"
  }

  function Discriminator(s: Subject): string {
    match s
    case OfPayment(_, d) => d
    case OfSubscription(_, d) => d
    case _ => ""
  }

  function Tail(t: Type, discriminator: string): string {
    if discriminator != "" then t + ":" + discriminator else t
  }

  lemma KeyInParts(s: Subject, t: Type)
    ensures DedupeKey(s, t) == Family(s) + ":" + (s.id + ":" + Tail(t, Discriminator(s)))
  {
    match s
    case OfPayment(id, d) => assert "payment:" == "payment" + ":"; Regroup("payment:", "payment", id, t, d);
    case OfRefund(id) => assert "refund:" == "refund" + ":"; Regroup("refund:", "refund", id, t, "");
    case OfSubscription(id, d) => assert "subscription:" == "subscription" + ":"; Regroup("subscription:", "subscription", id, t, d);
    case OfPayout(id) => assert "payout:" == "payout" + ":"; Regroup("payout:", "payout", id, t, "");
  }

  lemma Regroup(prefix: string, family: string, id: string, t: Type, d: string)
    requires prefix == family + ":"
    ensures prefix + id + ":" + t + (if d != "" then ":" + d else "") == family + ":" + (id + ":" + Tail(t, d))
    ensures prefix + id + ":" + t == family + ":" + (id + ":" + t)
  {
    assert prefix + id + ":" + t == family + ":" + (id + ":" + t);
    if d != "" {
      assert prefix + id + ":" + t + (":" + d) == family + ":" + (id + ":" + (t + ":" + d));
    }
  }

  lemma TailSplits(t: Type, d: string, t': Type, d': string)
    requires NoColon(t) && NoColon(t') && Tail(t, d) == Tail(t', d')
    ensures t == t' && d == d'
  {
    assert d != "" ==> Tail(t, d)[|t|] == ':';
    assert d' != "" ==> Tail(t', d')[|t'|] == ':';
    if d != "" && d' != "" {
      SplitsOnce(t, d, t', d');
    }
  }

  lemma FamiliesDiffer(s: Subject, s': Subject)
    ensures NoColon(Family(s))
    ensures Family(s) == Family(s') ==>
      (s.OfPayment? == s'.OfPayment? && s.OfRefund? == s'.OfRefund?
       && s.OfSubscription? == s'.OfSubscription? && s.OfPayout? == s'.OfPayout?)
  {
    assert "payment"[1] == 'a' && "refund"[1] == 'e' && "subscription"[1] == 'u';
    assert "payment"[3] == 'm' && "payout"[3] == 'o';
  }

  /** Two occurrences share a key exactly when they are the same occurrence, across all families. */
  lemma KeysAreInjective(s: Subject, t: Type, s': Subject, t': Type)
    requires NoColon(s.id) && NoColon(s'.id) && NoColon(t) && NoColon(t')
    ensures DedupeKey(s, t) == DedupeKey(s', t') <==> s == s' && t == t'
  {
    if DedupeKey(s, t) == DedupeKey(s', t') {
      KeyInParts(s, t);
      KeyInParts(s', t');
      FamiliesDiffer(s, s');
      FamiliesDiffer(s', s);
      hide DedupeKey, Family, Tail, NoColon;
      SplitsOnce(Family(s), s.id + ":" + Tail(t, Discriminator(s)), Family(s'), s'.id + ":" + Tail(t', Discriminator(s')));
      SplitsOnce(s.id, Tail(t, Discriminator(s)), s'.id, Tail(t', Discriminator(s')));
      TailSplits(t, Discriminator(s), t', Discriminator(s'));
    }
  }
}
