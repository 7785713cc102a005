/**
 * The synthetic training-data generator and the classifier's feature
 * extraction, with every random draw supplied as a parameter.
 */
module MockData {
  import opened Results
  import opened Strings
  import Rules

  const DisposableDomainList: seq<string> := ["tempmail.com", "fakeemail.com", "disposable.com"]
  const NormalDomainList: seq<string> := ["gmail.com", "yahoo.com", "outlook.com", "hotmail.com", "example.com"]

  /** The four `random.randint` results behind one IP address. */
  datatype IpDraw = IpDraw(a: nat, b: nat, c: nat, d: nat)

  predicate ValidIpDraw(q: IpDraw) {
    1 <= q.a <= 255 && q.b <= 255 && q.c <= 255 && 1 <= q.d <= 255
  }

  /** `random_ip()`: the dotted quad of the four draws. */
  function RandomIp(q: IpDraw): string {
    NatToString(q.a) + "." + NatToString(q.b) + "." + NatToString(q.c) + "." + NatToString(q.d)
  }

  /** The random draws for one row. The three coins are the outcomes of
      `random.random() < 0.8`, `< 0.1` (email) and `< 0.1` (phone). */
  datatype RowDraw = RowDraw(
    pinCode: nat,
    sameShipping: bool,
    otherPin: nat,
    disposable: bool,
    domainIndex: nat,
    emailUser: string,
    phoneDigits: seq<nat>,
    phoneCoin: bool,
    amount: nat)

  /** What the random module can return for one row. */
  predicate ValidRowDraw(d: RowDraw) {
    && 100000 <= d.pinCode <= 999999
    && 100000 <= d.otherPin <= 999999
    && d.domainIndex < (if d.disposable then |DisposableDomainList| else |NormalDomainList|)
    && |d.emailUser| == 5 && (forall k :: 0 <= k < 5 ==> 'a' <= d.emailUser[k] <= 'z')
    && |d.phoneDigits| == 10 && (forall k :: 0 <= k < 10 ==> d.phoneDigits[k] <= 9)
    && 100 <= d.amount <= 5000
  }

  /** `random.sample(range(n), k)`: k distinct positions below n. */
  predicate IsSample(picks: seq<nat>, n: nat, k: nat) {
    && |picks| == k
    && (forall j :: 0 <= j < k ==> picks[j] < n)
    && (forall i, j :: 0 <= i < j < k ==> picks[i] != picks[j])
  }

  function Min(a: nat, b: nat): nat {
    if a < b then a else b
  }

  /** All random draws of one `generate_mock_data(n)` call. */
  datatype Draws = Draws(
    ips: seq<IpDraw>,
    repeatPicks: seq<nat>,
    repeatTargets: seq<seq<nat>>,
    rows: seq<RowDraw>)

  predicate ValidDraws(n: nat, d: Draws) {
    && |d.ips| == n && (forall i :: 0 <= i < n ==> ValidIpDraw(d.ips[i]))
    && IsSample(d.repeatPicks, n, Min(3, n))
    && |d.repeatTargets| == |d.repeatPicks|
    && (forall j :: 0 <= j < |d.repeatTargets| ==> IsSample(d.repeatTargets[j], n, Min(3, n)))
    && |d.rows| == n && (forall i :: 0 <= i < n ==> ValidRowDraw(d.rows[i]))
  }

  // ---------------------------------------------------------------- IP list

  predicate InRange(idxs: seq<nat>, n: nat) {
    forall t :: 0 <= t < |idxs| ==> idxs[t] < n
  }

  predicate AllInRange(targets: seq<seq<nat>>, n: nat) {
    forall j :: 0 <= j < |targets| ==> InRange(targets[j], n)
  }

  /** The IPs at the sampled positions, read before any is overwritten. */
  function PickIps(ips: seq<string>, picks: seq<nat>): (picked: seq<string>)
    requires InRange(picks, |ips|)
    ensures |picked| == |picks| && forall j :: 0 <= j < |picked| ==> picked[j] in ips
  {
    seq(|picks|, j requires 0 <= j < |picks| => ips[picks[j]])
  }

  /** Writing `ip` at each listed position in turn. */
  function Overwrite(ips: seq<string>, ip: string, idxs: seq<nat>): (r: seq<string>)
    requires InRange(idxs, |ips|)
    ensures |r| == |ips|
    decreases idxs
  {
    if idxs == [] then ips else Overwrite(ips[idxs[0] := ip], ip, idxs[1..])
  }

  /** The nested repeat loop: for each repeat IP in turn, overwrite its target positions. */
  function RepeatPass(ips: seq<string>, repeatIps: seq<string>, targets: seq<seq<nat>>): (r: seq<string>)
    requires |targets| == |repeatIps| && AllInRange(targets, |ips|)
    ensures |r| == |ips|
    decreases repeatIps
  {
    if repeatIps == [] then ips
    else RepeatPass(Overwrite(ips, repeatIps[0], targets[0]), repeatIps[1..], targets[1..])
  }

  lemma {:induction false} OverwriteWrites(ips: seq<string>, ip: string, idxs: seq<nat>)
    requires InRange(idxs, |ips|)
    ensures forall i :: 0 <= i < |ips| ==> Overwrite(ips, ip, idxs)[i] in {ips[i], ip}
    ensures forall t :: 0 <= t < |idxs| ==> Overwrite(ips, ip, idxs)[idxs[t]] == ip
    ensures forall i :: 0 <= i < |ips| && i !in idxs ==> Overwrite(ips, ip, idxs)[i] == ips[i]
    decreases idxs
  {
    if idxs != [] {
      OverwriteWrites(ips[idxs[0] := ip], ip, idxs[1..]);
    }
  }

  /** Position i is in none of the target lists. */
  predicate Untargeted(i: nat, targets: seq<seq<nat>>) {
    forall j :: 0 <= j < |targets| ==> i !in targets[j]
  }

  /** The repeat pass leaves every position outside all target lists as it was. */
  lemma {:induction false} RepeatPassKeepsUntargeted(ips: seq<string>, repeatIps: seq<string>, targets: seq<seq<nat>>)
    requires |targets| == |repeatIps| && AllInRange(targets, |ips|)
    ensures forall i: nat :: i < |ips| && Untargeted(i, targets) ==> RepeatPass(ips, repeatIps, targets)[i] == ips[i]
    decreases repeatIps
  {
    if repeatIps != [] {
      OverwriteWrites(ips, repeatIps[0], targets[0]);
      RepeatPassKeepsUntargeted(Overwrite(ips, repeatIps[0], targets[0]), repeatIps[1..], targets[1..]);
      forall i: nat | i < |ips| && Untargeted(i, targets)
        ensures Untargeted(i, targets[1..])
      {
        forall j | 0 <= j < |targets| - 1
          ensures i !in targets[1..][j]
        {
          assert targets[1..][j] == targets[j + 1];
        }
      }
    }
  }

  /** The repeat pass only ever writes one of the repeat IPs. */
  lemma {:induction false} RepeatPassOnlyCopies(ips: seq<string>, repeatIps: seq<string>, targets: seq<seq<nat>>)
    requires |targets| == |repeatIps| && AllInRange(targets, |ips|)
    ensures forall i :: 0 <= i < |ips| ==>
              RepeatPass(ips, repeatIps, targets)[i] == ips[i] || RepeatPass(ips, repeatIps, targets)[i] in repeatIps
    decreases repeatIps
  {
    if repeatIps != [] {
      OverwriteWrites(ips, repeatIps[0], targets[0]);
      RepeatPassOnlyCopies(Overwrite(ips, repeatIps[0], targets[0]), repeatIps[1..], targets[1..]);
    }
  }

  /** The last repeat IP is left at every one of its target positions. */
  lemma {:induction false} LastRepeatStays(ips: seq<string>, repeatIps: seq<string>, targets: seq<seq<nat>>, t: nat)
    requires |targets| == |repeatIps| > 0 && AllInRange(targets, |ips|)
    requires t < |targets[|targets| - 1]|
    ensures RepeatPass(ips, repeatIps, targets)[targets[|targets| - 1][t]] == repeatIps[|repeatIps| - 1]
    decreases repeatIps
  {
    var next := Overwrite(ips, repeatIps[0], targets[0]);
    if |repeatIps| == 1 {
      OverwriteWrites(ips, repeatIps[0], targets[0]);
      assert RepeatPass(ips, repeatIps, targets) == next;
    } else {
      assert AllInRange(targets[1..], |next|);
      LastRepeatStays(next, repeatIps[1..], targets[1..], t);
    }
  }

  /** The in-place repeat pass over the IP list. */
  method ApplyRepeats(ipList: array<string>, repeatIps: seq<string>, targets: seq<seq<nat>>)
    requires |targets| == |repeatIps| && AllInRange(targets, ipList.Length)
    modifies ipList
    ensures ipList[..] == RepeatPass(old(ipList[..]), repeatIps, targets)
  {
    for j := 0 to |repeatIps|
      invariant AllInRange(targets[j..], ipList.Length)
      invariant RepeatPass(ipList[..], repeatIps[j..], targets[j..]) == RepeatPass(old(ipList[..]), repeatIps, targets)
    {
      var ip := repeatIps[j];
      ghost var before := ipList[..];
      assert InRange(targets[j], ipList.Length) by { assert targets[j] == targets[j..][0]; }
      for t := 0 to |targets[j]|
        invariant InRange(targets[j][t..], ipList.Length)
        invariant Overwrite(ipList[..], ip, targets[j][t..]) == Overwrite(before, ip, targets[j])
      {
        assert targets[j][t..][1..] == targets[j][t + 1..];
        ipList[targets[j][t]] := ip;
      }
      assert repeatIps[j..][1..] == repeatIps[j + 1..];
      assert targets[j..][1..] == targets[j + 1..];
    }
  }

  // ---------------------------------------------------------------- rows

  /** One generated order, as the dictionary appended in the row loop. */
  datatype Record = Record(
    orderId: int,
    billingAddress: string,
    shippingAddress: string,
    billingPin: nat,
    shippingPin: nat,
    email: string,
    phone: string,
    ipAddress: string,
    mismatch: int,
    suspiciousEmail: int,
    suspiciousPhone: int,
    amount: nat)

  /** A data-frame row: the record plus the two columns computed afterwards. */
  datatype Row = Row(rec: Record, repeatedIp: int, fraudLabel: int)

  function GreenStreet(i: nat, pin: nat): string {
    NatToString(i) + " Green Street, CityX, " + NatToString(pin)
  }

  function HighStreet(i: nat, pin: nat): string {
    NatToString(i) + " High Street, CityY, " + NatToString(pin)
  }

  /** The two address formats never coincide, whatever the pins. */
  lemma StreetsDiffer(i: nat, billingPin: nat, shippingPin: nat)
    ensures GreenStreet(i, billingPin) != HighStreet(i, shippingPin)
  {
    var k := |NatToString(i)| + 1;
    assert GreenStreet(i, billingPin)[k] == 'G';
    assert HighStreet(i, shippingPin)[k] == 'H';
  }

  function ChosenDomain(d: RowDraw): (domain: string)
    requires ValidRowDraw(d)
    ensures domain in DisposableDomainList <==> d.disposable
  {
    if d.disposable then DisposableDomainList[d.domainIndex] else NormalDomainList[d.domainIndex]
  }

  /** `''.join(str(digit) for ...)` */
  function DigitString(digits: seq<nat>): (s: string)
    requires forall k :: 0 <= k < |digits| ==> digits[k] <= 9
    ensures |s| == |digits| && forall k :: 0 <= k < |s| ==> IsDigit(s[k])
  {
    seq(|digits|, k requires 0 <= k < |digits| => DigitChar(digits[k]))
  }

  /** The body of the row loop for row `i`, given that row's draws and its IP. */
  function MakeRecord(i: nat, d: RowDraw, ip: string): Record
    requires ValidRowDraw(d)
  {
    var shipPin := if d.sameShipping then d.pinCode else d.otherPin;
    var mismatch := if shipPin != d.pinCode then 1 else 0;
    var billing := GreenStreet(i, d.pinCode);
    var shipping := if mismatch == 0 then billing else HighStreet(i, shipPin);
    var domain := ChosenDomain(d);
    var phone := DigitString(d.phoneDigits);
    var suspiciousPhone :=
      if d.phoneCoin || StartsWith(phone, "000") || StartsWith(phone, "999")
         || EndsWith(phone, "0000") || EndsWith(phone, "1111")
      then 1 else 0;
    Record(i + 1, billing, shipping, d.pinCode, shipPin,
           d.emailUser + "@" + domain, phone, ip,
           mismatch, if domain in DisposableDomainList then 1 else 0, suspiciousPhone,
           d.amount)
  }

  /** Row `i` has order id i + 1, the given IP, and its amount and pins in range. */
  lemma RecordIdentity(i: nat, d: RowDraw, ip: string)
    requires ValidRowDraw(d)
    ensures var r := MakeRecord(i, d, ip);
      && r.orderId == i + 1 && r.ipAddress == ip && r.amount == d.amount
      && 100 <= r.amount <= 5000
      && 100000 <= r.billingPin <= 999999 && 100000 <= r.shippingPin <= 999999
  {
  }

  /** `mismatch` is 1 exactly when the pins differ; the address strings are equal when it is 0
      and different when it is 1. */
  lemma RecordAddresses(i: nat, d: RowDraw, ip: string)
    requires ValidRowDraw(d)
    ensures var r := MakeRecord(i, d, ip);
      && r.mismatch in {0, 1}
      && (r.mismatch == 1 <==> r.shippingPin != r.billingPin)
      && (r.mismatch == 0 ==> r.shippingAddress == r.billingAddress)
      && (r.mismatch == 1 ==> r.shippingAddress != r.billingAddress)
  {
    var shipPin := if d.sameShipping then d.pinCode else d.otherPin;
    StreetsDiffer(i, d.pinCode, shipPin);
  }

  /** The email is the five-letter user, '@' and the chosen domain; `suspicious_email` is 1
      exactly when that domain is a disposable one, that is, when the disposable coin came up. */
  lemma RecordEmail(i: nat, d: RowDraw, ip: string)
    requires ValidRowDraw(d)
    ensures var r := MakeRecord(i, d, ip);
      && r.email == d.emailUser + "@" + ChosenDomain(d)
      && r.suspiciousEmail in {0, 1}
      && (r.suspiciousEmail == 1 <==> ChosenDomain(d) in DisposableDomainList)
      && (r.suspiciousEmail == 1 <==> d.disposable)
  {
  }

  /** The phone is the ten drawn digits; `suspicious_phone` is 1 exactly when the coin came up
      or the number has a fake-looking prefix or suffix, so such a number is marked whatever
      the coin. */
  lemma RecordPhone(i: nat, d: RowDraw, ip: string)
    requires ValidRowDraw(d)
    ensures var r := MakeRecord(i, d, ip);
      && r.phone == DigitString(d.phoneDigits)
      && |r.phone| == 10 && (forall k :: 0 <= k < 10 ==> IsDigit(r.phone[k]))
      && r.suspiciousPhone in {0, 1}
      && (r.suspiciousPhone == 1 <==> d.phoneCoin || Rules.FakePhonePattern(r.phone))
      && (Rules.FakePhonePattern(r.phone) ==> r.suspiciousPhone == 1)
  {
  }

  /** The records of the row loop, row `i` taking the i-th IP of the list. */
  function Records(ips: seq<string>, rows: seq<RowDraw>): (recs: seq<Record>)
    requires |ips| == |rows| && forall i :: 0 <= i < |rows| ==> ValidRowDraw(rows[i])
    ensures |recs| == |rows|
    ensures forall i :: 0 <= i < |recs| ==> recs[i].orderId == i + 1 && recs[i].ipAddress == ips[i]
  {
    seq(|rows|, i requires 0 <= i < |rows| => MakeRecord(i, rows[i], ips[i]))
  }

  // ---------------------------------------------------------------- derived columns

  /** `value_counts()[ip]`: how many entries of the column equal `ip`. */
  function Occurrences(column: seq<string>, ip: string): (c: nat)
    ensures c <= |column|
  {
    if column == [] then 0
    else (if column[0] == ip then 1 else 0) + Occurrences(column[1..], ip)
  }

  lemma {:induction false} OccursIffIn(column: seq<string>, ip: string)
    ensures Occurrences(column, ip) > 0 <==> ip in column
  {
    if column != [] {
      OccursIffIn(column[1..], ip);
      assert column == [column[0]] + column[1..];
    }
  }

  /** An IP is counted more than once exactly when some other position holds it too. */
  lemma {:induction false} OccursTwiceIff(column: seq<string>, k: nat)
    requires k < |column|
    ensures Occurrences(column, column[k]) > 1 <==>
              exists j :: 0 <= j < |column| && j != k && column[j] == column[k]
  {
    var ip := column[k];
    var tail := column[1..];
    OccursIffIn(tail, ip);
    if k == 0 {
      if ip in tail {
        var j :| 0 <= j < |tail| && tail[j] == ip;
        assert column[j + 1] == ip;
      }
      if exists j :: 0 <= j < |column| && j != k && column[j] == ip {
        var j :| 0 <= j < |column| && j != k && column[j] == ip;
        assert tail[j - 1] == ip;
      }
    } else {
      OccursTwiceIff(tail, k - 1);
      assert tail[k - 1] == ip;
      if exists j :: 0 <= j < |tail| && j != k - 1 && tail[j] == ip {
        var j :| 0 <= j < |tail| && j != k - 1 && tail[j] == ip;
        assert column[j + 1] == ip;
      }
      if exists j :: 0 <= j < |column| && j != k && column[j] == ip {
        var j :| 0 <= j < |column| && j != k && column[j] == ip;
        if j > 0 {
          assert tail[j - 1] == ip;
        }
      }
    }
  }

  function IpColumn(recs: seq<Record>): (column: seq<string>)
    ensures |column| == |recs|
  {
    seq(|recs|, k requires 0 <= k < |recs| => recs[k].ipAddress)
  }

  /** The weighted score the label is drawn from. */
  function LinearScore(rec: Record, repeatedIp: int): real {
    rec.mismatch as real * 1.0
    + rec.suspiciousEmail as real * 1.2
    + rec.suspiciousPhone as real * 0.8
    + repeatedIp as real * 1.0
    + rec.amount as real * 0.0005
    + -2.4
  }

  /** `sigmoid(score) > 0.5` holds exactly when `score > 0`; on the exact score the label
      is the integer threshold 2000·mismatch + 2400·email + 1600·phone + 2000·repeated + amount > 4800. */
  function FraudLabel(rec: Record, repeatedIp: int): (y: int)
    ensures y in {0, 1}
    ensures y == 1 <==>
              2000 * rec.mismatch + 2400 * rec.suspiciousEmail + 1600 * rec.suspiciousPhone
              + 2000 * repeatedIp + rec.amount > 4800
  {
    if LinearScore(rec, repeatedIp) > 0.0 then 1 else 0
  }

  /** The data frame: each record with its `repeated_ip` and `fraud_label` columns. */
  function AddDerivedColumns(recs: seq<Record>): (df: seq<Row>)
    ensures |df| == |recs|
    ensures forall k :: 0 <= k < |df| ==>
              && df[k].rec == recs[k] && df[k].repeatedIp in {0, 1} && df[k].fraudLabel in {0, 1}
              && df[k].fraudLabel == FraudLabel(recs[k], df[k].repeatedIp)
  {
    var ips := IpColumn(recs);
    seq(|recs|, k requires 0 <= k < |recs| =>
      var repeated := if Occurrences(ips, ips[k]) > 1 then 1 else 0;
      Row(recs[k], repeated, FraudLabel(recs[k], repeated)))
  }

  /** `repeated_ip` is 1 exactly for the rows whose IP appears in another row too,
      the first occurrence included. */
  lemma RepeatedIpMeansShared(recs: seq<Record>, k: nat)
    requires k < |recs|
    ensures AddDerivedColumns(recs)[k].repeatedIp == 1 <==>
              exists j :: 0 <= j < |recs| && j != k && recs[j].ipAddress == recs[k].ipAddress
  {
    var ips := IpColumn(recs);
    OccursTwiceIff(ips, k);
    if exists j :: 0 <= j < |recs| && j != k && recs[j].ipAddress == recs[k].ipAddress {
      var j :| 0 <= j < |recs| && j != k && recs[j].ipAddress == recs[k].ipAddress;
      assert ips[j] == ips[k];
    }
  }

  // ---------------------------------------------------------------- the generator

  /** The IP column after the repeat pass. */
  function FinalIps(n: nat, d: Draws): (ips: seq<string>)
    requires ValidDraws(n, d)
    ensures |ips| == n
  {
    var initial := seq(n, i requires 0 <= i < n => RandomIp(d.ips[i]));
    RepeatPass(initial, PickIps(initial, d.repeatPicks), d.repeatTargets)
  }

  /** The data frame of the rows generated for the given draws. */
  function MockFrame(n: nat, d: Draws): (df: seq<Row>)
    requires ValidDraws(n, d)
    ensures |df| == n
  {
    AddDerivedColumns(Records(FinalIps(n, d), d.rows))
  }

  /** `df['ip_address']` on the frame built from the records: a frame built from no records
      has no columns at all, so reading the column raises KeyError. */
  function IpAddressColumn(recs: seq<Record>): (r: Result<seq<string>>)
    ensures r.Ok? <==> recs != []
    ensures r.Ok? ==> |r.value| == |recs| && forall k :: 0 <= k < |recs| ==> r.value[k] == recs[k].ipAddress
    ensures r.Raise? ==> r.exc == KeyError("ip_address")
  {
    if recs == [] then Raise(KeyError("ip_address")) else Ok(IpColumn(recs))
  }

  /** What `generate_mock_data(n)` returns for the given draws: the frame with its derived
      columns, or, for n = 0, the KeyError raised when the `ip_address` column is read. */
  function MockData(n: nat, d: Draws): (r: Result<seq<Row>>)
    requires ValidDraws(n, d)
    ensures r.Raise? <==> n == 0
    ensures r.Raise? ==> r.exc == KeyError("ip_address")
    ensures r.Ok? ==> |r.value| == n && forall i :: 0 <= i < n ==> r.value[i] == MockFrame(n, d)[i]
  {
    var recs := Records(FinalIps(n, d), d.rows);
    var _ :- IpAddressColumn(recs);
    Ok(AddDerivedColumns(recs))
  }

  /** `[random_ip() for _ in range(n)]`, as a fresh list. */
  method DrawIpList(n: nat, ipDraws: seq<IpDraw>) returns (ipList: array<string>)
    requires |ipDraws| == n
    ensures fresh(ipList)
    ensures ipList[..] == seq(n, i requires 0 <= i < n => RandomIp(ipDraws[i]))
  {
    ipList := new string[n];
    for i := 0 to n
      invariant forall k :: 0 <= k < i ==> ipList[k] == RandomIp(ipDraws[k])
    {
      ipList[i] := RandomIp(ipDraws[i]);
    }
  }

  /** The row loop: one record appended per row, in row order. */
  method BuildRecords(ipList: array<string>, rows: seq<RowDraw>) returns (data: seq<Record>)
    requires ipList.Length == |rows| && forall i :: 0 <= i < |rows| ==> ValidRowDraw(rows[i])
    ensures data == Records(ipList[..], rows)
  {
    data := [];
    for i := 0 to |rows|
      invariant |data| == i
      invariant forall k :: 0 <= k < i ==> data[k] == MakeRecord(k, rows[k], ipList[k])
    {
      data := data + [MakeRecord(i, rows[i], ipList[i])];
    }
  }

  lemma TargetsInRange(n: nat, d: Draws)
    requires ValidDraws(n, d)
    ensures AllInRange(d.repeatTargets, n) && InRange(d.repeatPicks, n)
  {
    forall j | 0 <= j < |d.repeatTargets|
      ensures InRange(d.repeatTargets[j], n)
    {
      assert IsSample(d.repeatTargets[j], n, Min(3, n));
    }
  }

  /** `generate_mock_data(n)`: the IP list, the in-place repeat pass, the row loop and the
      derived columns. */
  method GenerateMockData(n: nat, draws: Draws) returns (df: Result<seq<Row>>)
    requires ValidDraws(n, draws)
    ensures df == MockData(n, draws)
  {
    TargetsInRange(n, draws);
    var ipList := DrawIpList(n, draws.ips);
    var repeatIps := PickIps(ipList[..], draws.repeatPicks);
    ApplyRepeats(ipList, repeatIps, draws.repeatTargets);
    assert ipList[..] == FinalIps(n, draws);
    var data := BuildRecords(ipList, draws.rows);
    var ips := IpAddressColumn(data);
    if ips.Raise? {
      return Raise(ips.exc);
    }
    df := Ok(AddDerivedColumns(data));
  }

  /** Row i carries order id i + 1, so the ids are exactly 1..n. */
  lemma OrderIdsAreOneToN(n: nat, d: Draws)
    requires ValidDraws(n, d)
    ensures forall i :: 0 <= i < n ==> MockFrame(n, d)[i].rec.orderId == i + 1
    ensures forall i, j :: 0 <= i < j < n ==> MockFrame(n, d)[i].rec.orderId != MockFrame(n, d)[j].rec.orderId
  {
  }

  /** Every generated IP is one of the IPs first drawn: the repeat pass only copies
      IPs already in the list. */
  lemma GeneratedIpsWereDrawn(n: nat, d: Draws)
    requires ValidDraws(n, d)
    ensures forall i :: 0 <= i < n ==>
              exists j :: 0 <= j < n && FinalIps(n, d)[i] == RandomIp(d.ips[j])
  {
    TargetsInRange(n, d);
    var initial := seq(n, i requires 0 <= i < n => RandomIp(d.ips[i]));
    var picked := PickIps(initial, d.repeatPicks);
    var final := FinalIps(n, d);
    assert final == RepeatPass(initial, picked, d.repeatTargets);
    RepeatPassOnlyCopies(initial, picked, d.repeatTargets);
    forall i | 0 <= i < n
      ensures exists j :: 0 <= j < n && final[i] == RandomIp(d.ips[j])
    {
      if final[i] == initial[i] {
        assert final[i] == RandomIp(d.ips[i]);
      } else {
        assert final[i] in picked;
        var p :| 0 <= p < |picked| && picked[p] == final[i];
        var j := d.repeatPicks[p];
        assert j < n && picked[p] == initial[j];
        assert final[i] == RandomIp(d.ips[j]);
      }
    }
  }

  /** With two or more rows, the last repeat IP sits at two distinct positions. */
  lemma FinalIpsShareAnIp(n: nat, d: Draws) returns (a: nat, b: nat)
    requires ValidDraws(n, d) && n >= 2
    ensures a < n && b < n && a != b && FinalIps(n, d)[a] == FinalIps(n, d)[b]
  {
    TargetsInRange(n, d);
    var initial := seq(n, i requires 0 <= i < n => RandomIp(d.ips[i]));
    var picked := PickIps(initial, d.repeatPicks);
    var last := d.repeatTargets[|d.repeatTargets| - 1];
    assert IsSample(last, n, Min(3, n));
    LastRepeatStays(initial, picked, d.repeatTargets, 0);
    LastRepeatStays(initial, picked, d.repeatTargets, 1);
    a, b := last[0], last[1];
  }

  /** Two rows with the same final IP both get `repeated_ip` = 1. */
  lemma SharedIpIsRepeated(n: nat, d: Draws, a: nat, b: nat)
    requires ValidDraws(n, d) && a < n && b < n && a != b && FinalIps(n, d)[a] == FinalIps(n, d)[b]
    ensures MockFrame(n, d)[a].repeatedIp == 1
  {
    var ips := FinalIps(n, d);
    var recs := Records(ips, d.rows);
    RecordIdentity(a, d.rows[a], ips[a]);
    RecordIdentity(b, d.rows[b], ips[b]);
    RepeatedIpMeansShared(recs, a);
    assert recs[b].ipAddress == recs[a].ipAddress;
  }

  /** With two or more rows the repeat pass guarantees at least one row with `repeated_ip` = 1. */
  lemma RepeatedIpGuaranteed(n: nat, d: Draws)
    requires ValidDraws(n, d) && n >= 2
    ensures exists k :: 0 <= k < n && MockFrame(n, d)[k].repeatedIp == 1
  {
    var a, b := FinalIpsShareAnIp(n, d);
    SharedIpIsRepeated(n, d, a, b);
  }

  // ---------------------------------------------------------------- training features

  /** The feature columns, in the order the classifier is trained on. */
  const FeatureColumns: seq<string> := ["mismatch", "suspicious_email", "suspicious_phone", "repeated_ip", "amount"]

  const NumericColumns: set<string> :=
    {"order_id", "billing_pin", "shipping_pin", "mismatch", "suspicious_email",
     "suspicious_phone", "amount", "repeated_ip", "fraud_label"}

  /** `row[name]` for a numeric column of the data frame. */
  function Column(row: Row, name: string): int
    requires name in NumericColumns
  {
    if name == "order_id" then row.rec.orderId
    else if name == "billing_pin" then row.rec.billingPin
    else if name == "shipping_pin" then row.rec.shippingPin
    else if name == "mismatch" then row.rec.mismatch
    else if name == "suspicious_email" then row.rec.suspiciousEmail
    else if name == "suspicious_phone" then row.rec.suspiciousPhone
    else if name == "amount" then row.rec.amount
    else if name == "repeated_ip" then row.repeatedIp
    else row.fraudLabel
  }

  /** One row of `X`: the feature columns selected by name, the amount column divided by 1000. */
  function FeatureRow(row: Row): (x: seq<real>)
    ensures |x| == |FeatureColumns|
    ensures x[4] * 1000.0 == row.rec.amount as real
  {
    seq(|FeatureColumns|, j requires 0 <= j < |FeatureColumns| =>
      var v := Column(row, FeatureColumns[j]) as real;
      if FeatureColumns[j] == "amount" then v / 1000.0 else v)
  }

  /** `X` of `train_model`. */
  function TrainingFeatures(df: seq<Row>): (x: seq<seq<real>>)
    ensures |x| == |df| && forall i :: 0 <= i < |x| ==> |x[i]| == |FeatureColumns|
  {
    seq(|df|, i requires 0 <= i < |df| => FeatureRow(df[i]))
  }

  /** `y` of `train_model`. */
  function TrainingLabels(df: seq<Row>): (y: seq<int>)
    ensures |y| == |df|
  {
    seq(|df|, i requires 0 <= i < |df| => df[i].fraudLabel)
  }

  /** Selecting by name gives the vector [mismatch, email, phone, repeated, amount / 1000]. */
  lemma TrainingFeatureOrder(df: seq<Row>, i: nat)
    requires i < |df|
    ensures TrainingFeatures(df)[i] ==
              [df[i].rec.mismatch as real, df[i].rec.suspiciousEmail as real,
               df[i].rec.suspiciousPhone as real, df[i].repeatedIp as real,
               df[i].rec.amount as real / 1000.0]
    ensures |TrainingLabels(df)| == |df| && TrainingLabels(df)[i] == df[i].fraudLabel
  {
  }
}
