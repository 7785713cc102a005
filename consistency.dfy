/**
 * How the generated training rows and the dashboard's judgement of the same rows relate:
 * the queue the dashboard starts with is the generator's output with the label and rule
 * columns dropped, and the rules recompute those columns from the remaining fields.
 */
module Consistency {
  import opened Results
  import opened Strings
  import Rules
  import MockData
  import Ingest

  /** A generated row as the queue holds it: the label and the four rule columns are dropped
      and every remaining key is present. */
  function IncomingOrder(row: MockData.Row): (order: Rules.Order)
    ensures Ingest.Complete(order) <==> row.rec.phone != ""
    ensures order.ipAddress == Some(row.rec.ipAddress) && order.amount == Some(row.rec.amount)
  {
    Rules.Order(Some(row.rec.orderId), Some(row.rec.billingAddress), Some(row.rec.shippingAddress),
                Some(row.rec.email), Some(row.rec.phone), Some(row.rec.ipAddress),
                Some(row.rec.amount))
  }

  function IncomingQueue(df: seq<MockData.Row>): (queue: seq<Rules.Order>)
    ensures |queue| == |df|
  {
    seq(|df|, i requires 0 <= i < |df| => IncomingOrder(df[i]))
  }

  /** The session the dashboard starts with: the queue, nothing processed, no IP seen. */
  function InitialSession(df: seq<MockData.Row>): Ingest.SessionState {
    Ingest.SessionState(IncomingQueue(df), [], {})
  }

  lemma GeneratedRecord(n: nat, d: MockData.Draws, i: nat)
    requires MockData.ValidDraws(n, d) && i < n
    ensures MockData.MockFrame(n, d)[i].rec == MockData.MakeRecord(i, d.rows[i], MockData.FinalIps(n, d)[i])
  {
  }

  /** Every order of the queue is complete when every row has a phone number. */
  lemma QueueIsComplete(df: seq<MockData.Row>)
    requires forall i :: 0 <= i < |df| ==> df[i].rec.phone != ""
    ensures forall i :: 0 <= i < |df| ==> Ingest.Complete(IncomingQueue(df)[i])
  {
  }

  /** No generated order makes the step raise: all keys are present and the phone has ten digits. */
  lemma GeneratedOrdersAreComplete(n: nat, d: MockData.Draws)
    requires MockData.ValidDraws(n, d)
    ensures forall i :: 0 <= i < n ==> MockData.MockFrame(n, d)[i].rec.phone != ""
    ensures forall i :: 0 <= i < n ==> Ingest.Complete(IncomingQueue(MockData.MockFrame(n, d))[i])
  {
    forall i | 0 <= i < n
      ensures MockData.MockFrame(n, d)[i].rec.phone != ""
    {
      GeneratedRecord(n, d, i);
      MockData.RecordPhone(i, d.rows[i], MockData.FinalIps(n, d)[i]);
    }
    QueueIsComplete(MockData.MockFrame(n, d));
  }

  // ---------------------------------------------------------------- the four columns against the rules

  /** The generated `mismatch` column is what the address rule computes from the two strings. */
  lemma MismatchColumnMatchesRule(n: nat, d: MockData.Draws, i: nat)
    requires MockData.ValidDraws(n, d) && i < n
    ensures var rec := MockData.MockFrame(n, d)[i].rec;
            rec.mismatch == 1 <==> Rules.IsAddressMismatch(rec.billingAddress, rec.shippingAddress)
  {
    GeneratedRecord(n, d, i);
    MockData.RecordAddresses(i, d.rows[i], MockData.FinalIps(n, d)[i]);
  }

  /** Lower-case letters and dots only. */
  predicate IsPlainDomain(s: string) {
    forall k :: 0 <= k < |s| ==> 'a' <= s[k] <= 'z' || s[k] == '.'
  }

  lemma DomainListsArePlain()
    ensures forall k :: 0 <= k < |MockData.DisposableDomainList| ==> IsPlainDomain(MockData.DisposableDomainList[k])
    ensures forall k :: 0 <= k < |MockData.NormalDomainList| ==> IsPlainDomain(MockData.NormalDomainList[k])
  {
    assert IsPlainDomain("tempmail.com") && IsPlainDomain("fakeemail.com") && IsPlainDomain("disposable.com");
    assert IsPlainDomain("gmail.com") && IsPlainDomain("yahoo.com") && IsPlainDomain("outlook.com");
    assert IsPlainDomain("hotmail.com") && IsPlainDomain("example.com");
  }

  /** The generator's disposable list holds exactly the rule's disposable domains, and none of
      its normal domains is one of them. */
  lemma GeneratorDomainsMatchRules()
    ensures forall k :: 0 <= k < |MockData.DisposableDomainList| ==>
              MockData.DisposableDomainList[k] in Rules.DisposableDomains
    ensures forall domain :: domain in Rules.DisposableDomains ==> domain in MockData.DisposableDomainList
    ensures forall k :: 0 <= k < |MockData.NormalDomainList| ==>
              MockData.NormalDomainList[k] !in Rules.DisposableDomains
  {
  }

  /** The domain part of `user@domain` is `domain` when neither part holds an '@'. */
  lemma DomainPartOfAddress(user: string, domain: string)
    requires '@' !in user && '@' !in domain
    ensures Rules.DomainPart(user + "@" + domain) == Some(domain)
  {
    var email := user + "@" + domain;
    assert email[|user|] == '@';
    assert email[|user| + 1..] == domain;
  }

  /** The generated `suspicious_email` column is what the email rule computes from the address. */
  lemma EmailColumnMatchesRule(n: nat, d: MockData.Draws, i: nat)
    requires MockData.ValidDraws(n, d) && i < n
    ensures var rec := MockData.MockFrame(n, d)[i].rec;
            rec.suspiciousEmail == 1 <==> Rules.IsSuspiciousEmail(rec.email)
  {
    var row := d.rows[i];
    GeneratedRecord(n, d, i);
    MockData.RecordEmail(i, row, MockData.FinalIps(n, d)[i]);
    var domain := MockData.ChosenDomain(row);
    DomainListsArePlain();
    assert IsPlainDomain(domain);
    assert '@' !in row.emailUser by {
      assert forall k :: 0 <= k < |row.emailUser| ==> row.emailUser[k] != '@';
    }
    DomainPartOfAddress(row.emailUser, domain);
    Rules.SuspiciousEmailIffDisposableDomain(row.emailUser + "@" + domain);
    LowerOfLowercase(domain);
    assert domain in Rules.DisposableDomains <==> domain in MockData.DisposableDomainList;
  }

  /** The phone column and the phone rule differ: the column adds the random coin, the rule
      adds numbers made of one repeated digit. They agree on the fake prefixes and suffixes. */
  lemma PhoneColumnVersusRule(n: nat, d: MockData.Draws, i: nat)
    requires MockData.ValidDraws(n, d) && i < n
    ensures var rec := MockData.MockFrame(n, d)[i].rec;
            && (rec.suspiciousPhone == 1 <==> d.rows[i].phoneCoin || Rules.FakePhonePattern(rec.phone))
            && Rules.IsSuspiciousPhone(rec.phone)
               == Ok(Rules.AllSameChar(rec.phone) || Rules.FakePhonePattern(rec.phone))
            && (Rules.FakePhonePattern(rec.phone) ==>
                  rec.suspiciousPhone == 1 && Rules.IsSuspiciousPhone(rec.phone) == Ok(true))
  {
    GeneratedRecord(n, d, i);
    MockData.RecordPhone(i, d.rows[i], MockData.FinalIps(n, d)[i]);
  }

  /** A row drawn with ten 2s and without the coin: the column says 0, the rule says
      suspicious. */
  lemma RepeatedDigitPhoneDisagrees(i: nat, d: MockData.RowDraw, ip: string)
    requires MockData.ValidRowDraw(d)
    requires d.phoneDigits == [2, 2, 2, 2, 2, 2, 2, 2, 2, 2] && !d.phoneCoin
    ensures MockData.MakeRecord(i, d, ip).suspiciousPhone == 0
    ensures Rules.IsSuspiciousPhone(MockData.MakeRecord(i, d, ip).phone) == Ok(true)
  {
    MockData.RecordPhone(i, d, ip);
    var phone := MockData.DigitString(d.phoneDigits);
    assert forall k :: 0 <= k < |phone| ==> phone[k] == '2';
    assert !Rules.FakePhonePattern(phone) by {
      assert phone[..3][0] == '2' && phone[6..][0] == '2';
    }
    Rules.RepeatedDigitPhoneIsFlagged(phone);
  }

  /** A row drawn with the digits 1234567890 and the coin: the column says 1, the rule says
      not suspicious. */
  lemma CoinPhoneDisagrees(i: nat, d: MockData.RowDraw, ip: string)
    requires MockData.ValidRowDraw(d)
    requires d.phoneDigits == [1, 2, 3, 4, 5, 6, 7, 8, 9, 0] && d.phoneCoin
    ensures MockData.MakeRecord(i, d, ip).suspiciousPhone == 1
    ensures Rules.IsSuspiciousPhone(MockData.MakeRecord(i, d, ip).phone) == Ok(false)
  {
    MockData.RecordPhone(i, d, ip);
    var phone := MockData.DigitString(d.phoneDigits);
    assert phone == "1234567890";
    assert !Rules.AllSameChar(phone) by {
      assert phone[1] != phone[0];
    }
    assert !Rules.FakePhonePattern(phone) by {
      assert phone[..3][0] == '1' && phone[6..][0] == '7';
    }
  }

  // ---------------------------------------------------------------- features

  /** When the served flags agree with a row's rule columns, the inference vector is that
      row's training vector: same columns, same order, same amount scaling. */
  lemma TrainServeFeaturesAgree(df: seq<MockData.Row>, i: nat, flags: Rules.Flags)
    requires i < |df|
    requires df[i].rec.mismatch == Ingest.BoolToInt(flags.mismatch)
    requires df[i].rec.suspiciousEmail == Ingest.BoolToInt(flags.suspiciousEmail)
    requires df[i].rec.suspiciousPhone == Ingest.BoolToInt(flags.suspiciousPhone)
    requires df[i].repeatedIp == Ingest.BoolToInt(flags.repeatedIp)
    ensures Ingest.InferenceFeatures(flags, df[i].rec.amount) == MockData.TrainingFeatures(df)[i]
  {
    MockData.TrainingFeatureOrder(df, i);
  }

  /** Serving a generated order, whatever IPs were seen, reproduces its training features for
      the address, the email and the amount; the phone and IP features may differ. */
  lemma ServedFeaturesOfGeneratedOrder(n: nat, d: MockData.Draws, i: nat, seenIps: set<string>)
    requires MockData.ValidDraws(n, d) && i < n
    ensures var df := MockData.MockFrame(n, d);
            var checked := Rules.ApplyRules(IncomingOrder(df[i]), seenIps);
            && checked.Ok?
            && var served := Ingest.InferenceFeatures(checked.value, df[i].rec.amount);
               var trained := MockData.TrainingFeatures(df)[i];
               && |served| == |trained| == 5
               && served[0] == trained[0] && served[1] == trained[1] && served[4] == trained[4]
  {
    var df := MockData.MockFrame(n, d);
    GeneratedOrdersAreComplete(n, d);
    assert Ingest.Complete(IncomingQueue(df)[i]);
    MismatchColumnMatchesRule(n, d, i);
    EmailColumnMatchesRule(n, d, i);
    MockData.TrainingFeatureOrder(df, i);
    GeneratedRecord(n, d, i);
    MockData.RecordAddresses(i, d.rows[i], MockData.FinalIps(n, d)[i]);
    MockData.RecordEmail(i, d.rows[i], MockData.FinalIps(n, d)[i]);
  }

  // ---------------------------------------------------------------- the repeated-IP feature

  /** Serving a queue of complete orders from a fresh session, press i judging with the
      classifier trained for it, the k-th entry is the verdict of the k-th press's classifier
      on the k-th order against exactly the IPs of the orders ahead of it. */
  lemma ServedEntry(df: seq<MockData.Row>, classifiers: seq<seq<real> -> real>, k: nat)
    requires forall i :: 0 <= i < |df| ==> df[i].rec.phone != ""
    requires k < |classifiers| <= |df|
    ensures var queue := IncomingQueue(df);
            var t := Ingest.Run(InitialSession(df), Ingest.Judges(classifiers));
            && |t.processedOrders| == |classifiers|
            && t.processedOrders[k] == Ingest.Verdict(queue[k], Ingest.IpsOf(queue[..k]), classifiers[k]).value
  {
    var queue := IncomingQueue(df);
    QueueIsComplete(df);
    Ingest.JudgesAcceptComplete(classifiers);
    Ingest.RunJudgesAgainstEarlierIps(InitialSession(df), Ingest.Judges(classifiers), k);
    assert {} + Ingest.IpsOf(queue[..k]) == Ingest.IpsOf(queue[..k]);
  }

  /** Judged against the IPs of the orders ahead of it, the k-th order gets `repeated_ip`
      exactly when one of those orders had its IP. */
  lemma ServedRepeatedIp(df: seq<MockData.Row>, k: nat)
    requires k < |df| && df[k].rec.phone != ""
    ensures var queue := IncomingQueue(df);
            var checked := Rules.ApplyRules(queue[k], Ingest.IpsOf(queue[..k]));
            && checked.Ok?
            && (checked.value.repeatedIp <==>
                  exists j :: 0 <= j < k && df[j].rec.ipAddress == df[k].rec.ipAddress)
  {
    var queue := IncomingQueue(df);
    var ip := df[k].rec.ipAddress;
    if ip in Ingest.IpsOf(queue[..k]) {
      var j :| 0 <= j < k && queue[..k][j].ipAddress.Some? && queue[..k][j].ipAddress.value == ip;
      assert df[j].rec.ipAddress == ip;
    }
    if exists j :: 0 <= j < k && df[j].rec.ipAddress == ip {
      var j :| 0 <= j < k && df[j].rec.ipAddress == ip;
      assert queue[..k][j].ipAddress.value == ip;
    }
  }

  /** The first position of `ip` in the IP column. */
  lemma FirstOccurrence(df: seq<MockData.Row>, ip: string, bound: nat) returns (f: nat)
    requires bound <= |df| && exists j :: 0 <= j < bound && df[j].rec.ipAddress == ip
    ensures f < bound && df[f].rec.ipAddress == ip
    ensures forall j :: 0 <= j < f ==> df[j].rec.ipAddress != ip
    decreases bound
  {
    if exists j :: 0 <= j < bound - 1 && df[j].rec.ipAddress == ip {
      f := FirstOccurrence(df, ip, bound - 1);
    } else {
      f := bound - 1;
    }
  }

  /** Training and serving disagree on `repeated_ip`: with two or more orders, some generated
      order carries `repeated_ip` = 1 in the training data yet is served with the flag false,
      because the training column counts later rows and the served flag only earlier ones. */
  lemma FirstSharedIpServedAsFresh(n: nat, d: MockData.Draws) returns (k: nat)
    requires MockData.ValidDraws(n, d) && n >= 2
    ensures var df := MockData.MockFrame(n, d);
            var queue := IncomingQueue(df);
            && k < n
            && df[k].repeatedIp == 1
            && !Rules.ApplyRules(queue[k], Ingest.IpsOf(queue[..k])).value.repeatedIp
  {
    var df := MockData.MockFrame(n, d);
    var a, b := MockData.FinalIpsShareAnIp(n, d);
    GeneratedRecord(n, d, a);
    GeneratedRecord(n, d, b);
    MockData.RecordIdentity(a, d.rows[a], MockData.FinalIps(n, d)[a]);
    MockData.RecordIdentity(b, d.rows[b], MockData.FinalIps(n, d)[b]);
    var ip := df[a].rec.ipAddress;
    assert df[b].rec.ipAddress == ip;
    k := FirstOccurrence(df, ip, n);
    GeneratedOrdersAreComplete(n, d);
    ServedRepeatedIp(df, k);
    var other := if k == a then b else a;
    MockData.RepeatedIpMeansShared(MockData.Records(MockData.FinalIps(n, d), d.rows), k);
    assert df[other].rec.ipAddress == df[k].rec.ipAddress && other != k;
  }
}
