/**
 * The rule evaluator: four fraud-indicator flags computed from one incoming
 * order and the set of IP addresses seen before it.
 */
module Rules {
  import opened Results
  import opened Strings

  /** The known throw-away email domains. */
  const DisposableDomains: set<string> := {"tempmail.com", "fakeemail.com", "disposable.com"}

  /** An incoming order as the dictionary the queue holds; every key may be missing. */
  datatype Order = Order(
    orderId: Option<int>,
    billingAddress: Option<string>,
    shippingAddress: Option<string>,
    email: Option<string>,
    phone: Option<string>,
    ipAddress: Option<string>,
    amount: Option<int>)

  /** The flag dictionary; `Items` lists its entries in insertion order. */
  datatype Flags = Flags(mismatch: bool, suspiciousEmail: bool, suspiciousPhone: bool, repeatedIp: bool)
  {
    function Items(): (items: seq<(string, bool)>)
      ensures |items| == 4
    {
      [("mismatch", mismatch), ("suspicious_email", suspiciousEmail),
       ("suspicious_phone", suspiciousPhone), ("repeated_ip", repeatedIp)]
    }

    /** `flags.values()` */
    function Values(): (values: seq<bool>)
      ensures |values| == 4
      ensures true in values <==> mismatch || suspiciousEmail || suspiciousPhone || repeatedIp
    {
      var values := seq(|Items()|, k requires 0 <= k < |Items()| => Items()[k].1);
      assert values == [mismatch, suspiciousEmail, suspiciousPhone, repeatedIp];
      values
    }
  }

  /** Billing and shipping addresses mismatch unless they agree character by character:
      no trimming, no case folding. */
  function IsAddressMismatch(billingAddress: string, shippingAddress: string): (r: bool)
    ensures !r <==> |billingAddress| == |shippingAddress|
                    && forall k :: 0 <= k < |billingAddress| ==> billingAddress[k] == shippingAddress[k]
  {
    billingAddress != shippingAddress
  }

  /** The text `email.split("@")[1]` denotes, located by index: from just after the first '@'
      up to the next '@' or the end; None when there is no '@'. */
  function DomainPart(email: string): Option<string> {
    var at := Find(email, '@');
    if at < 0 then None
    else
      var rest := email[at + 1..];
      var next := Find(rest, '@');
      Some(if next < 0 then rest else rest[..next])
  }

  /** `is_suspicious_email`: split on '@', take piece 1, lower-case it, look it up. */
  function IsSuspiciousEmail(email: string): bool {
    var parts := Split(email, '@');
    if |parts| < 2 then false  // IndexError is caught: malformed is not suspicious
    else Lower(parts[1]) in DisposableDomains
  }

  /** The email check is a lookup of the lower-cased domain part among the disposable domains. */
  lemma SuspiciousEmailIffDisposableDomain(email: string)
    ensures IsSuspiciousEmail(email) <==>
              DomainPart(email).Some? && Lower(DomainPart(email).value) in DisposableDomains
  {
    SplitAtFirst(email, '@');
    var at := Find(email, '@');
    if 0 <= at {
      SplitAtFirst(email[at + 1..], '@');
    }
  }

  /** An email without '@' is never suspicious. */
  lemma EmailWithoutAtIsNotSuspicious(email: string)
    requires '@' !in email
    ensures !IsSuspiciousEmail(email)
  {
    SuspiciousEmailIffDisposableDomain(email);
  }

  /** Every character equals the first one (vacuous for the empty string). */
  predicate AllSameChar(phone: string) {
    forall k :: 0 <= k < |phone| ==> phone[k] == phone[0]
  }

  /** The prefix and suffix patterns of fake phone numbers. */
  predicate FakePhonePattern(phone: string) {
    StartsWith(phone, "000") || StartsWith(phone, "999")
    || EndsWith(phone, "0000") || EndsWith(phone, "1111")
  }

  /** The phone check as written: the length guard can never hold, and `phone[0]`
      raises IndexError on the empty string. */
  function IsSuspiciousPhone(phone: string): (r: Result<bool>)
    ensures r.Raise? <==> phone == ""
    ensures r.Raise? ==> r.exc == IndexError
    ensures r.Ok? ==> (r.value <==> AllSameChar(phone) || FakePhonePattern(phone))
  {
    if |phone| < 9 && |phone| > 11 then Ok(true)
    else if |phone| == 0 then Raise(IndexError)
    else if CountChar(phone, phone[0]) == |phone| then Ok(true)
    else if StartsWith(phone, "000") || StartsWith(phone, "999") then Ok(true)
    else if EndsWith(phone, "0000") || EndsWith(phone, "1111") then Ok(true)
    else Ok(false)
  }

  /** A short number is not flagged for being short: "12345" passes. */
  lemma ShortPhoneIsNotFlagged()
    ensures IsSuspiciousPhone("12345") == Ok(false)
  {
    assert "12345"[1] != "12345"[0];
  }

  /** Any non-empty run of one repeated digit is flagged, whatever its length. */
  lemma RepeatedDigitPhoneIsFlagged(phone: string)
    requires phone != [] && AllSameChar(phone)
    ensures IsSuspiciousPhone(phone) == Ok(true)
  {
  }

  /** `apply_rules`: the four flags, in the fixed key order, against the given seen-IP set.
      Missing keys read as ""; only the phone check can raise. */
  function ApplyRules(order: Order, seenIps: set<string>): (r: Result<Flags>)
    ensures r.Raise? <==> order.phone.GetOr("") == ""
    ensures r.Raise? ==> r.exc == IndexError
    ensures r.Ok? ==>
              && r.value.mismatch == (order.billingAddress.GetOr("") != order.shippingAddress.GetOr(""))
              && r.value.suspiciousEmail == IsSuspiciousEmail(order.email.GetOr(""))
              && r.value.suspiciousPhone == (AllSameChar(order.phone.value) || FakePhonePattern(order.phone.value))
              && r.value.repeatedIp == (order.ipAddress.GetOr("") in seenIps)
  {
    var mismatch := IsAddressMismatch(order.billingAddress.GetOr(""), order.shippingAddress.GetOr(""));
    var suspiciousEmail := IsSuspiciousEmail(order.email.GetOr(""));
    var suspiciousPhone :- IsSuspiciousPhone(order.phone.GetOr(""));
    var repeatedIp := order.ipAddress.GetOr("") in seenIps;
    Ok(Flags(mismatch, suspiciousEmail, suspiciousPhone, repeatedIp))
  }

  /** The flag map always has exactly these four keys, in this order. */
  lemma FlagKeysInOrder(order: Order, seenIps: set<string>)
    requires ApplyRules(order, seenIps).Ok?
    ensures var items := ApplyRules(order, seenIps).value.Items();
            [items[0].0, items[1].0, items[2].0, items[3].0]
            == ["mismatch", "suspicious_email", "suspicious_phone", "repeated_ip"]
  {
  }
}
