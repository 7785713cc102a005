/**
 * The "Ingest Next Order" step of the dashboard: take the head of the queue of
 * pending orders, evaluate the rules against the IPs seen so far, combine the
 * flags with the classifier's risk, record the verdict, then remember the IP.
 * The classifier is a parameter: `riskPercentOf` maps the feature vector to the
 * rounded risk percentage.
 */
module Ingest {
  import opened Results
  import opened Strings
  import opened Rules

  /** One row of the processed-orders table. */
  datatype ResultEntry = ResultEntry(
    orderId: int,
    email: string,
    phone: string,
    billingAddress: string,
    shippingAddress: string,
    amount: int,
    riskPercent: real,
    flagged: string,
    alerts: string)

  /** `name.replace('_', ' ').title()` */
  function DisplayName(key: string): string {
    Title(Replace(key, '_', ' '))
  }

  /** The display names of the four flag keys. */
  lemma DisplayNames()
    ensures DisplayName("mismatch") == "Mismatch"
    ensures DisplayName("suspicious_email") == "Suspicious Email"
    ensures DisplayName("suspicious_phone") == "Suspicious Phone"
    ensures DisplayName("repeated_ip") == "Repeated Ip"
  {
    KeyWords();
    CapitalisedWords();
    OneWordName("mismatch");
    TwoWordName("suspicious", "email");
    TwoWordName("suspicious", "phone");
    TwoWordName("repeated", "ip");
  }

  /** How the flag keys are spelled. */
  lemma KeyWords()
    ensures "suspicious_email" == "suspicious" + "_" + "email"
    ensures "suspicious_phone" == "suspicious" + "_" + "phone"
    ensures "repeated_ip" == "repeated" + "_" + "ip"
    ensures IsLowerWord("mismatch") && IsLowerWord("suspicious") && IsLowerWord("email")
    ensures IsLowerWord("phone") && IsLowerWord("repeated") && IsLowerWord("ip")
  {
  }

  /** The words of the flag keys with their first letter capitalised. */
  lemma CapitalisedWords()
    ensures [UpperChar('m')] + "mismatch"[1..] == "Mismatch"
    ensures [UpperChar('s')] + "suspicious"[1..] + " " + [UpperChar('e')] + "email"[1..] == "Suspicious Email"
    ensures [UpperChar('s')] + "suspicious"[1..] + " " + [UpperChar('p')] + "phone"[1..] == "Suspicious Phone"
    ensures [UpperChar('r')] + "repeated"[1..] + " " + [UpperChar('i')] + "ip"[1..] == "Repeated Ip"
  {
    assert UpperChar('m') == 'M' && UpperChar('s') == 'S' && UpperChar('e') == 'E';
    assert UpperChar('p') == 'P' && UpperChar('r') == 'R' && UpperChar('i') == 'I';
  }

  lemma OneWordName(w: string)
    requires w != [] && IsLowerWord(w)
    ensures DisplayName(w) == [UpperChar(w[0])] + w[1..]
  {
    assert Replace(w, '_', ' ') == w;
    TitleOfWord(w);
  }

  /** `first_second` is displayed as `First Second`. */
  lemma TwoWordName(first: string, second: string)
    requires first != [] && IsLowerWord(first) && second != [] && IsLowerWord(second)
    ensures DisplayName(first + "_" + second)
            == [UpperChar(first[0])] + first[1..] + " " + [UpperChar(second[0])] + second[1..]
  {
    assert Replace(first + "_" + second, '_', ' ') == first + (" " + second);
    TitleAfterConcat(first, " " + second, false);
    TitleOfWord(first);
    TitleOfWord(second);
  }

  /** The display names of the true entries, in entry order. */
  function TriggeredRules(items: seq<(string, bool)>): (names: seq<string>)
    ensures |names| <= |items|
    ensures names == [] <==> forall k :: 0 <= k < |items| ==> !items[k].1
  {
    if items == [] then []
    else (if items[0].1 then [DisplayName(items[0].0)] else []) + TriggeredRules(items[1..])
  }

  /** The triggered names follow the flag-map order: mismatch, email, phone, IP. */
  lemma TriggeredRulesInFlagOrder(flags: Flags)
    ensures TriggeredRules(flags.Items()) ==
              (if flags.mismatch then ["Mismatch"] else [])
              + (if flags.suspiciousEmail then ["Suspicious Email"] else [])
              + (if flags.suspiciousPhone then ["Suspicious Phone"] else [])
              + (if flags.repeatedIp then ["Repeated Ip"] else [])
  {
    DisplayNames();
    var items := flags.Items();
    var m := if flags.mismatch then ["Mismatch"] else [];
    var e := if flags.suspiciousEmail then ["Suspicious Email"] else [];
    var p := if flags.suspiciousPhone then ["Suspicious Phone"] else [];
    var i := if flags.repeatedIp then ["Repeated Ip"] else [];
    assert items[3..][1..] == [];
    assert TriggeredRules(items[3..]) == i;
    assert items[2..][1..] == items[3..];
    assert TriggeredRules(items[2..]) == p + i;
    assert items[1..][1..] == items[2..];
    assert TriggeredRules(items[1..]) == e + (p + i);
    assert items[0..] == items;
    assert TriggeredRules(items) == m + (e + (p + i));
  }

  /** `any(values)` */
  function AnyTrue(values: seq<bool>): (r: bool)
    ensures r <==> exists k :: 0 <= k < |values| && values[k]
  {
    if values == [] then false
    else values[0] || AnyTrue(values[1..])
  }

  /** The flagging threshold on the risk percentage. */
  const Threshold: real := 50.0

  /** Flag when the model's risk reaches 50% or when any rule fired. */
  function IsFlagged(riskPercent: real, flags: Flags): (r: bool)
    ensures r <==> riskPercent >= 50.0 || flags.mismatch || flags.suspiciousEmail
                   || flags.suspiciousPhone || flags.repeatedIp
  {
    var values := flags.Values();
    assert values[0] == flags.mismatch && values[1] == flags.suspiciousEmail;
    assert values[2] == flags.suspiciousPhone && values[3] == flags.repeatedIp;
    riskPercent >= Threshold || AnyTrue(values)
  }

  function BoolToInt(b: bool): int {
    if b then 1 else 0
  }

  /** The inference-time feature vector. */
  function InferenceFeatures(flags: Flags, amount: int): (features: seq<real>)
    ensures |features| == 5
    ensures forall k :: 0 <= k < 4 ==> features[k] == 0.0 || features[k] == 1.0
    ensures features[4] * 1000.0 == amount as real
  {
    [BoolToInt(flags.mismatch) as real,
     BoolToInt(flags.suspiciousEmail) as real,
     BoolToInt(flags.suspiciousPhone) as real,
     BoolToInt(flags.repeatedIp) as real,
     amount as real / 1000.0]
  }

  /** Lines 33-65 for one order: the verdict entry, or the exception raised on the way.
      `next_order[key]` raises KeyError for a missing key, in the order app.py reads them. */
  function Verdict(order: Order, seenIps: set<string>, riskPercentOf: seq<real> -> real): Result<ResultEntry> {
    var flags :- ApplyRules(order, seenIps);
    var amount :- Lookup(order.amount, "amount");
    var riskPercent := riskPercentOf(InferenceFeatures(flags, amount));
    var flagged := IsFlagged(riskPercent, flags);
    var orderId :- Lookup(order.orderId, "order_id");
    var email :- Lookup(order.email, "email");
    var phone :- Lookup(order.phone, "phone");
    var billingAddress :- Lookup(order.billingAddress, "billing_address");
    var shippingAddress :- Lookup(order.shippingAddress, "shipping_address");
    var triggered := TriggeredRules(flags.Items());
    var alerts := if triggered != [] then Join(triggered, ", ") else "";
    Ok(ResultEntry(orderId, email, phone, billingAddress, shippingAddress, amount,
                   riskPercent, if flagged then "Yes" else "No", alerts))
  }

  /** Every key the step reads is present and the phone is not empty. */
  predicate Complete(order: Order) {
    && order.orderId.Some? && order.billingAddress.Some? && order.shippingAddress.Some?
    && order.email.Some? && order.phone.Some? && order.phone.value != ""
    && order.ipAddress.Some? && order.amount.Some?
  }

  /** The keys line 40 and lines 51-55 read with `next_order[key]`, in reading order. */
  const ReadOrder: seq<string> := ["amount", "order_id", "email", "phone", "billing_address", "shipping_address"]

  /** The order has no value under `key`. */
  predicate Missing(order: Order, key: string) {
    if key == "amount" then order.amount.None?
    else if key == "order_id" then order.orderId.None?
    else if key == "email" then order.email.None?
    else if key == "phone" then order.phone.None?
    else if key == "billing_address" then order.billingAddress.None?
    else if key == "shipping_address" then order.shippingAddress.None?
    else false
  }

  /** The verdict of a complete order: it echoes the order, its risk is the classifier's on
      the feature vector, it is flagged iff the risk reaches 50 or a rule fired, and its
      alerts name the fired rules in flag order. An incomplete order raises: IndexError for
      an empty or missing phone, otherwise KeyError naming the first missing key app.py reads. */
  lemma VerdictOfOrder(order: Order, seenIps: set<string>, riskPercentOf: seq<real> -> real)
    ensures Verdict(order, seenIps, riskPercentOf).Raise? <==>
              !(Complete(order.(ipAddress := Some(""))))
    ensures order.phone.GetOr("") == "" ==> Verdict(order, seenIps, riskPercentOf) == Raise(IndexError)
    ensures Verdict(order, seenIps, riskPercentOf).Raise? && order.phone.GetOr("") != "" ==>
              Verdict(order, seenIps, riskPercentOf).exc.KeyError?
    ensures Verdict(order, seenIps, riskPercentOf).Raise? && order.phone.GetOr("") != "" ==>
              exists i :: 0 <= i < |ReadOrder| && Verdict(order, seenIps, riskPercentOf).exc == KeyError(ReadOrder[i])
                          && Missing(order, ReadOrder[i]) && forall j :: 0 <= j < i ==> !Missing(order, ReadOrder[j])
    ensures Verdict(order, seenIps, riskPercentOf).Ok? ==>
              var flags := ApplyRules(order, seenIps).value;
              var e := Verdict(order, seenIps, riskPercentOf).value;
              && e.orderId == order.orderId.value && e.email == order.email.value
              && e.phone == order.phone.value && e.billingAddress == order.billingAddress.value
              && e.shippingAddress == order.shippingAddress.value && e.amount == order.amount.value
              && e.riskPercent == riskPercentOf(InferenceFeatures(flags, order.amount.value))
              && (e.flagged == "Yes" <==> e.riskPercent >= 50.0 || flags.mismatch || flags.suspiciousEmail
                                          || flags.suspiciousPhone || flags.repeatedIp)
              && (e.flagged == "Yes" || e.flagged == "No")
              && e.alerts == Join(TriggeredRules(flags.Items()), ", ")
  {
    var v := Verdict(order, seenIps, riskPercentOf);
    if v.Raise? && order.phone.GetOr("") != "" {
      if order.amount.None? {
        assert Missing(order, ReadOrder[0]);
      } else if order.orderId.None? {
        assert Missing(order, ReadOrder[1]) && !Missing(order, ReadOrder[0]);
      } else if order.email.None? {
        assert Missing(order, ReadOrder[2]) && !Missing(order, ReadOrder[1]);
      } else if order.billingAddress.None? {
        assert Missing(order, ReadOrder[4]) && !Missing(order, ReadOrder[3]);
      } else {
        assert Missing(order, ReadOrder[5]) && !Missing(order, ReadOrder[4]);
      }
    }
  }

  /** The alerts are empty exactly when no rule fired; otherwise they are the display names of
      the fired rules joined by ", ", in flag order. */
  lemma AlertsOfFlags(flags: Flags)
    ensures var alerts := Join(TriggeredRules(flags.Items()), ", ");
            && (alerts == "" <==> !(flags.mismatch || flags.suspiciousEmail || flags.suspiciousPhone || flags.repeatedIp))
            && (flags.repeatedIp ==> EndsWith(alerts, "Repeated Ip"))
            && (flags.mismatch ==> StartsWith(alerts, "Mismatch"))
  {
    TriggeredRulesInFlagOrder(flags);
  }

  // ---------------------------------------------------------------- the session

  /** The session state the step works on. */
  datatype SessionState = SessionState(
    newOrders: seq<Order>,
    processedOrders: seq<ResultEntry>,
    seenIps: set<string>)

  /** What one press of "Ingest Next Order" ends with. `NoMoreOrders` is the warning. */
  datatype StepOutcome = NoMoreOrders | Ingested | Raised(exc: Exception)

  /** How one order is judged against the IPs seen so far: its entry, or what it raises. */
  type Judge = (Order, set<string>) -> Result<ResultEntry>

  /** The dashboard's judge: the verdict with the given classifier. */
  function Judging(riskPercentOf: seq<real> -> real): Judge {
    (order, seenIps) => Verdict(order, seenIps, riskPercentOf)
  }

  /** The mechanics of one step under a judge: pop the head, judge it against the seen IPs as
      they were, append its entry, and only then add its IP. An exception stops the step where
      it is raised. */
  function StepWith(s: SessionState, judge: Judge): (SessionState, StepOutcome) {
    if s.newOrders == [] then (s, NoMoreOrders)
    else
      var next := s.newOrders[0];
      var popped := s.(newOrders := s.newOrders[1..]);
      match judge(next, s.seenIps)
      case Raise(e) => (popped, Raised(e))
      case Ok(entry) =>
        var appended := popped.(processedOrders := s.processedOrders + [entry]);
        match next.ipAddress
        case None => (appended, Raised(KeyError("ip_address")))
        case Some(ip) => (appended.(seenIps := s.seenIps + {ip}), Ingested)
  }

  /** One press of "Ingest Next Order". An empty queue changes nothing; otherwise exactly the
      head leaves the queue, at most its one entry is appended and at most its IP is added. */
  function Step(s: SessionState, riskPercentOf: seq<real> -> real): (r: (SessionState, StepOutcome))
    ensures s.newOrders == [] ==> r == (s, NoMoreOrders)
    ensures s.newOrders != [] ==> r.0.newOrders == s.newOrders[1..] && r.1 != NoMoreOrders
    ensures r.0.processedOrders == s.processedOrders
            || (&& s.newOrders != []
                && Verdict(s.newOrders[0], s.seenIps, riskPercentOf).Ok?
                && r.0.processedOrders
                   == s.processedOrders + [Verdict(s.newOrders[0], s.seenIps, riskPercentOf).value])
    ensures r.0.seenIps == s.seenIps
            || (&& s.newOrders != [] && s.newOrders[0].ipAddress.Some?
                && r.0.seenIps == s.seenIps + {s.newOrders[0].ipAddress.value})
    ensures r.1 == Ingested <==> s.newOrders != [] && Complete(s.newOrders[0])
    ensures r.1 == Ingested ==>
              && r.0.processedOrders
                 == s.processedOrders + [Verdict(s.newOrders[0], s.seenIps, riskPercentOf).value]
              && r.0.seenIps == s.seenIps + {s.newOrders[0].ipAddress.value}
    ensures r.1.Raised? ==> r.0.seenIps == s.seenIps
    ensures r.1.Raised? && r.1.exc != KeyError("ip_address") ==> r.0.processedOrders == s.processedOrders
    ensures r.1.Raised? && r.1.exc != KeyError("ip_address") ==>
              Verdict(s.newOrders[0], s.seenIps, riskPercentOf) == Raise(r.1.exc)
    ensures r.1 == Raised(KeyError("ip_address")) ==>
              && s.newOrders[0].ipAddress.None?
              && Verdict(s.newOrders[0], s.seenIps, riskPercentOf).Ok?
              && r.0.processedOrders
                 == s.processedOrders + [Verdict(s.newOrders[0], s.seenIps, riskPercentOf).value]
  {
    StepWith(s, Judging(riskPercentOf))
  }

  /** Two successive orders carrying the same new IP: the first is evaluated with
      `repeated_ip` false, the second with it true, so the second is flagged and its
      alerts end with "Repeated Ip", whichever classifiers the two presses trained. */
  lemma SameIpTwice(s: SessionState, firstRiskPercentOf: seq<real> -> real, secondRiskPercentOf: seq<real> -> real)
    requires |s.newOrders| >= 2
    requires Complete(s.newOrders[0]) && Complete(s.newOrders[1])
    requires s.newOrders[0].ipAddress == s.newOrders[1].ipAddress
    requires s.newOrders[0].ipAddress.value !in s.seenIps
    ensures var (s1, out1) := Step(s, firstRiskPercentOf);
            var (s2, out2) := Step(s1, secondRiskPercentOf);
            && out1 == Ingested && out2 == Ingested
            && !ApplyRules(s.newOrders[0], s.seenIps).value.repeatedIp
            && ApplyRules(s.newOrders[1], s1.seenIps).value.repeatedIp
            && s2.newOrders == s.newOrders[2..]
            && |s2.processedOrders| == |s.processedOrders| + 2
            && s2.processedOrders[|s2.processedOrders| - 1].flagged == "Yes"
            && EndsWith(s2.processedOrders[|s2.processedOrders| - 1].alerts, "Repeated Ip")
  {
    var (s1, out1) := Step(s, firstRiskPercentOf);
    var second := s.newOrders[1];
    assert s1.newOrders[0] == second;
    var flags := ApplyRules(second, s1.seenIps).value;
    VerdictOfOrder(second, s1.seenIps, secondRiskPercentOf);
    AlertsOfFlags(flags);
  }

  /** Successive presses of the button, press i judged by `judges[i]`. The script runs again
      on every press and trains its classifier afresh, so each press may judge differently. */
  function Run(s: SessionState, judges: seq<Judge>): SessionState
    decreases |judges|
  {
    if judges == [] then s else Run(StepWith(s, judges[0]).0, judges[1..])
  }

  /** The IP addresses the given orders carry. */
  function IpsOf(orders: seq<Order>): set<string> {
    set j | 0 <= j < |orders| && orders[j].ipAddress.Some? :: orders[j].ipAddress.value
  }

  /** The judge accepts every complete order, whatever IPs were seen. */
  ghost predicate AcceptsComplete(judge: Judge) {
    forall order, seenIps :: Complete(order) ==> judge(order, seenIps).Ok?
  }

  ghost predicate AllAcceptComplete(judges: seq<Judge>) {
    forall i :: 0 <= i < |judges| ==> AcceptsComplete(judges[i])
  }

  /** The dashboard's judge raises on no complete order, whatever the classifier. */
  lemma JudgingAcceptsComplete(riskPercentOf: seq<real> -> real)
    ensures AcceptsComplete(Judging(riskPercentOf))
  {
    forall order, seenIps | Complete(order)
      ensures Judging(riskPercentOf)(order, seenIps).Ok?
    {
      VerdictOfOrder(order, seenIps, riskPercentOf);
    }
  }

  /** The judges of successive presses, one classifier trained per press. */
  function Judges(classifiers: seq<seq<real> -> real>): (judges: seq<Judge>)
    ensures |judges| == |classifiers|
  {
    seq(|classifiers|, i requires 0 <= i < |classifiers| => Judging(classifiers[i]))
  }

  lemma JudgesAcceptComplete(classifiers: seq<seq<real> -> real>)
    ensures AllAcceptComplete(Judges(classifiers))
  {
    forall i | 0 <= i < |classifiers|
      ensures AcceptsComplete(Judges(classifiers)[i])
    {
      JudgingAcceptsComplete(classifiers[i]);
    }
  }

  /** A step on a complete head order ingests it. */
  lemma StepOfComplete(s: SessionState, judge: Judge)
    requires AcceptsComplete(judge)
    requires s.newOrders != [] && Complete(s.newOrders[0])
    ensures StepWith(s, judge)
            == (SessionState(s.newOrders[1..],
                             s.processedOrders + [judge(s.newOrders[0], s.seenIps).value],
                             s.seenIps + {s.newOrders[0].ipAddress.value}),
                Ingested)
  {
  }

  /** Ingesting the first |judges| orders of the queue, all of them complete, consumes exactly
      them, appends one entry per order and adds exactly their IPs to the seen set. */
  lemma {:induction false} RunOfCompleteOrders(s: SessionState, judges: seq<Judge>)
    requires AllAcceptComplete(judges)
    requires |judges| <= |s.newOrders| && forall j :: 0 <= j < |judges| ==> Complete(s.newOrders[j])
    ensures var k := |judges|;
            var t := Run(s, judges);
            && t.newOrders == s.newOrders[k..]
            && |t.processedOrders| == |s.processedOrders| + k
            && t.processedOrders[..|s.processedOrders|] == s.processedOrders
            && t.seenIps == s.seenIps + IpsOf(s.newOrders[..k])
    decreases |judges|
  {
    var k := |judges|;
    if k > 0 {
      var s1 := RunAfterHead(s, judges);
      var rest := judges[1..];
      forall i | 0 <= i < k - 1
        ensures AcceptsComplete(rest[i]) && Complete(s1.newOrders[i])
      {
        assert rest[i] == judges[i + 1] && s1.newOrders[i] == s.newOrders[i + 1];
      }
      RunOfCompleteOrders(s1, rest);
      var t := Run(s1, rest);
      assert t.processedOrders[..|s.processedOrders|] == t.processedOrders[..|s1.processedOrders|][..|s.processedOrders|];
      IpsOfCons(s.newOrders[..k]);
      assert s.newOrders[..k][1..] == s1.newOrders[..k - 1];
    }
  }

  /** In such a run the j-th order's entry is its judgement, by the j-th press's judge,
      against the IPs seen before the run plus those of the orders ahead of it in the queue. */
  lemma RunJudgesAgainstEarlierIps(s: SessionState, judges: seq<Judge>, j: nat)
    requires AllAcceptComplete(judges)
    requires |judges| <= |s.newOrders| && forall i :: 0 <= i < |judges| ==> Complete(s.newOrders[i])
    requires j < |judges|
    ensures |Run(s, judges).processedOrders| == |s.processedOrders| + |judges|
    ensures Run(s, judges).processedOrders[|s.processedOrders| + j]
            == judges[j](s.newOrders[j], s.seenIps + IpsOf(s.newOrders[..j])).value
  {
    var m := RunPrefix(s, judges, j);
    var after := judges[j..];
    forall i | 0 <= i < |after|
      ensures AcceptsComplete(after[i]) && Complete(m.newOrders[i])
    {
      assert after[i] == judges[j + i] && m.newOrders[i] == s.newOrders[j + i];
    }
    RunFirstEntry(m, after);
  }

  /** The state after the first j presses of a run over complete orders, from which the other
      presses continue. */
  lemma RunPrefix(s: SessionState, judges: seq<Judge>, j: nat) returns (m: SessionState)
    requires AllAcceptComplete(judges)
    requires |judges| <= |s.newOrders| && forall i :: 0 <= i < |judges| ==> Complete(s.newOrders[i])
    requires j <= |judges|
    ensures m.newOrders == s.newOrders[j..]
    ensures |m.processedOrders| == |s.processedOrders| + j
    ensures m.seenIps == s.seenIps + IpsOf(s.newOrders[..j])
    ensures Run(s, judges) == Run(m, judges[j..])
  {
    var before := judges[..j];
    assert forall i :: 0 <= i < j ==> before[i] == judges[i];
    RunOfCompleteOrders(s, before);
    m := Run(s, before);
    RunSplit(s, before, judges[j..]);
    assert before + judges[j..] == judges;
  }

  /** Running the presses of a and then those of b is running the presses of a + b. */
  lemma {:induction false} RunSplit(s: SessionState, a: seq<Judge>, b: seq<Judge>)
    ensures Run(s, a + b) == Run(Run(s, a), b)
    decreases |a|
  {
    if a != [] {
      assert (a + b)[0] == a[0];
      assert (a + b)[1..] == a[1..] + b;
      RunSplit(StepWith(s, a[0]).0, a[1..], b);
    } else {
      assert a + b == b;
    }
  }

  /** The first entry of such a run is the head's judgement against the IPs seen before. */
  lemma RunFirstEntry(s: SessionState, judges: seq<Judge>)
    requires AllAcceptComplete(judges)
    requires 0 < |judges| <= |s.newOrders| && forall i :: 0 <= i < |judges| ==> Complete(s.newOrders[i])
    ensures |Run(s, judges).processedOrders| == |s.processedOrders| + |judges|
    ensures Run(s, judges).processedOrders[|s.processedOrders|] == judges[0](s.newOrders[0], s.seenIps).value
  {
    var s1 := RunAfterHead(s, judges);
    var rest := judges[1..];
    assert forall i :: 0 <= i < |rest| ==> rest[i] == judges[i + 1];
    assert forall i :: 0 <= i < |rest| ==> Complete(s1.newOrders[i]);
    RunOfCompleteOrders(s1, rest);
    var t := Run(s1, rest);
    calc {
      t.processedOrders[|s.processedOrders|];
      t.processedOrders[..|s1.processedOrders|][|s.processedOrders|];
      s1.processedOrders[|s.processedOrders|];
    }
  }

  /** The first press on a complete head order ingests it; the other presses run from there. */
  lemma RunAfterHead(s: SessionState, judges: seq<Judge>) returns (s1: SessionState)
    requires 0 < |judges| && AcceptsComplete(judges[0])
    requires s.newOrders != [] && Complete(s.newOrders[0])
    ensures s1 == SessionState(s.newOrders[1..],
                               s.processedOrders + [judges[0](s.newOrders[0], s.seenIps).value],
                               s.seenIps + {s.newOrders[0].ipAddress.value})
    ensures Run(s, judges) == Run(s1, judges[1..])
  {
    StepOfComplete(s, judges[0]);
    s1 := StepWith(s, judges[0]).0;
  }

  /** The IPs of a non-empty run of orders: the head's and those of the rest. */
  lemma IpsOfCons(orders: seq<Order>)
    requires orders != [] && orders[0].ipAddress.Some?
    ensures IpsOf(orders) == {orders[0].ipAddress.value} + IpsOf(orders[1..])
  {
    var rest := orders[1..];
    forall ip | ip in IpsOf(orders) ensures ip in {orders[0].ipAddress.value} + IpsOf(rest) {
      var j :| 0 <= j < |orders| && orders[j].ipAddress.Some? && orders[j].ipAddress.value == ip;
      if j > 0 {
        assert rest[j - 1] == orders[j];
      }
    }
    forall ip | ip in IpsOf(rest) ensures ip in IpsOf(orders) {
      var j :| 0 <= j < |rest| && rest[j].ipAddress.Some? && rest[j].ipAddress.value == ip;
      assert orders[j + 1] == rest[j];
    }
  }

  /** The dashboard's session state, updated in place by the ingest button. */
  class Session {
    var newOrders: seq<Order>
    var processedOrders: seq<ResultEntry>
    var seenIps: set<string>

    /** A fresh session over the incoming orders: nothing processed, no IP seen. */
    constructor (incoming: seq<Order>)
      ensures newOrders == incoming && processedOrders == [] && seenIps == {}
    {
      newOrders := incoming;
      processedOrders := [];
      seenIps := {};
    }

    function State(): SessionState
      reads this
    {
      SessionState(newOrders, processedOrders, seenIps)
    }

    /** The button handler. */
    method IngestNextOrder(riskPercentOf: seq<real> -> real) returns (outcome: StepOutcome)
      modifies this
      ensures (State(), outcome) == Step(old(State()), riskPercentOf)
    {
      if newOrders == [] {
        outcome := NoMoreOrders;  // st.warning
        return;
      }
      var next := newOrders[0];
      newOrders := newOrders[1..];
      var checked := ApplyRules(next, seenIps);
      if checked.Raise? {
        outcome := Raised(checked.exc);
        return;
      }
      var flags := checked.value;
      if next.amount.None? {
        outcome := Raised(KeyError("amount"));
        return;
      }
      var features := InferenceFeatures(flags, next.amount.value);
      var riskPercent := riskPercentOf(features);
      var flagged := riskPercent >= Threshold || AnyTrue(flags.Values());
      var missing := if next.orderId.None? then Some("order_id")
                     else if next.email.None? then Some("email")
                     else if next.phone.None? then Some("phone")
                     else if next.billingAddress.None? then Some("billing_address")
                     else if next.shippingAddress.None? then Some("shipping_address")
                     else None;
      if missing.Some? {
        outcome := Raised(KeyError(missing.value));
        return;
      }
      var entry := ResultEntry(next.orderId.value, next.email.value, next.phone.value,
                               next.billingAddress.value, next.shippingAddress.value,
                               next.amount.value, riskPercent,
                               if flagged then "Yes" else "No", "");
      var triggered := TriggeredRules(flags.Items());
      if triggered != [] {
        entry := entry.(alerts := Join(triggered, ", "));
      }
      processedOrders := processedOrders + [entry];
      if next.ipAddress.None? {
        outcome := Raised(KeyError("ip_address"));
        return;
      }
      seenIps := seenIps + {next.ipAddress.value};
      outcome := Ingested;
    }
  }
}
