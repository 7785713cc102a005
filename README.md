# Fraud detection prototype, modelled in Dafny

This project models the deterministic core of a small cash-on-delivery fraud dashboard:

- **Rule evaluator** (`rules.py`, module `Rules`). It computes four flags from one incoming order and the set of IP addresses seen so far:
  - billing and shipping addresses differ;
  - the email's domain is a known throw-away one;
  - the phone number looks fake;
  - the IP was seen before.
- **Ingest step** (`app.py`, module `Ingest`). One press of "Ingest Next Order":
  - pops the head of the pending queue;
  - evaluates the rules against the seen IPs as they were;
  - builds the classifier's feature vector;
  - flags the order when the risk reaches 50% or any rule fired;
  - lists the fired rules as alerts;
  - appends the result and only then records the order's IP.

  The session is a class (`Ingest.Session`) whose method `IngestNextOrder` changes its queue, result list and seen-IP set in place. The method is proved equal to the pure step `Ingest.Step`.

  The dashboard script runs from the top on every press, so it generates fresh training data and trains a new classifier each time; only the queue, the results and the seen IPs persist in the session. A run of several presses (`Ingest.Run`) therefore takes one judge per press, and the lemmas about runs hold whichever classifier each press trained.
- **Mock-data generator and feature extraction** (`model.py`, module `MockData`). Every random draw is a parameter. The model covers:
  - the in-place repeat pass over the IP list (an `array`, nested loops);
  - the row loop;
  - the `KeyError` that `generate_mock_data(0)` raises when it reads the `ip_address` column of an empty frame;
  - the `repeated_ip` column ("occurs more than once in the column");
  - the fraud label;
  - the training feature matrix.
- **Training against serving** (module `Consistency`). This relates the generated rows to the dashboard's judgement of the same rows:
  - the address and email columns agree with the rules;
  - the phone column and the phone rule differ in both directions;
  - the feature vectors have the same order and scaling;
  - `repeated_ip` is computed differently. Training marks every row whose IP occurs more than once, including the first occurrence. Serving marks only orders whose IP came earlier.

Supporting modules:

- `Results` holds Python's missing dictionary keys and raised exceptions as values:
  - `d.get(k, "")` becomes `Option.GetOr`;
  - `d[k]` becomes `Lookup`, which raises `KeyError`;
  - an empty phone makes `phone[0]` raise `IndexError`.
- `Strings` holds the few `str` operations used: `split`, `lower`, `count`, `startswith`, `endswith`, `replace`, `title`, `join` and `str(int)`.

Three behaviours of the code are worth knowing. The model follows the code each time:

- **Phone length guard.** The guard at `rules.py:28` tests `len < 9 and len > 11`, which no length satisfies. Its comments speak of Indian numbers only and of numbers too short to be real, which suggests lengths outside 9 to 11 were meant. As written, a short number such as "12345" is not flagged for its length (`Rules.ShortPhoneIsNotFlagged`).
- **Missing keys.** The rules read missing keys as `""`, while the step indexes the order with `next_order[key]` and raises `KeyError`.
- **Empty phone.** An empty or missing phone raises `IndexError` inside the rules, after the order has already left the queue.

## Model

The constants are stated by the rows of the members that use them: `Rules.DisposableDomains` (rules.py:4) by `Rules.SuspiciousEmailIffDisposableDomain` and `Consistency.GeneratorDomainsMatchRules`; `MockData.DisposableDomainList` and `MockData.NormalDomainList` (model.py:30-31) by `Consistency.GeneratorDomainsMatchRules` and `MockData.ChosenDomain`; `MockData.FeatureColumns` (model.py:118) by `MockData.TrainingFeatureOrder`; `Ingest.Threshold` (app.py:47) by `Ingest.IsFlagged`.

| member | source | states |
|---|---|---|
| Results.Lookup | app.py:51-56 | `order[key]` gives the value when the key is present and raises `KeyError(key)` exactly when it is missing |
| Strings.CountChar | rules.py:31 | the count is at most the length, and equals the length exactly when every character is the given one |
| Strings.Find | rules.py:18 | the first index of the character, with nothing equal before it; -1 exactly when it does not occur |
| Strings.Split | rules.py:18 | splitting always yields at least one piece |
| Strings.SplitAtFirst | rules.py:18 | without a separator the split is the whole string; otherwise it is the text before the first separator followed by the split of the rest |
| Strings.Join | app.py:65 | the joined text starts with the first name and ends with the last; joining nothing gives "" |
| Strings.LowerOfLowercase | rules.py:18 | `lower()` leaves text without capitals unchanged |
| Strings.Replace | app.py:62 | replacing one character by another keeps the length |
| Strings.TitleAfterConcat | app.py:62 | title-casing a concatenation title-cases the second part according to whether the first part ends in a cased letter |
| Strings.TitleKeepsLowerWord | app.py:62 | a lower-case word after a letter is left unchanged |
| Strings.TitleOfWord | app.py:62 | a lower-case word at the start or after a space gets its first letter capitalised and the rest kept |
| Strings.StartsWith | rules.py:33 | no contract of its own: the prefix test, used by `Rules.FakePhonePattern` and characterised through `Strings.Join` and `MockData.RecordPhone` |
| Strings.EndsWith | rules.py:35 | no contract of its own: the suffix test, used by `Rules.FakePhonePattern` and characterised through `Strings.Join` and `MockData.RecordPhone` |
| Strings.Lower | rules.py:18 | `lower()` keeps the length and leaves no ASCII capital and no Kelvin sign; `Strings.LowerOfLowercase` makes it the identity on text without them |
| Strings.Title | app.py:62 | `title()` keeps the length; `Strings.TitleOfWord` and `Strings.TitleAfterConcat` give its letters |
| Strings.NatToString | model.py:18 | `str(n)` is a non-empty string of decimal digits |
| Rules.IsAddressMismatch | rules.py:6-11 | mismatch is false exactly when the two strings agree character by character: no trimming, no case folding |
| Rules.SuspiciousEmailIffDisposableDomain | rules.py:13-21 | an email is suspicious exactly when it has an '@' and the lower-cased text between the first '@' and the next '@' (or the end) is one of the three disposable domains |
| Rules.IsSuspiciousEmail | rules.py:13-21 | no contract of its own: `Rules.SuspiciousEmailIffDisposableDomain` and `Rules.EmailWithoutAtIsNotSuspicious` characterise it |
| Rules.EmailWithoutAtIsNotSuspicious | rules.py:17-20 | an email without '@' is never suspicious |
| Rules.IsSuspiciousPhone | rules.py:23-37 | raises `IndexError` exactly for the empty phone; otherwise the number is suspicious exactly when all characters equal the first, or it starts with "000"/"999", or it ends with "0000"/"1111" |
| Rules.ShortPhoneIsNotFlagged | rules.py:28-29 | the length guard never fires: "12345" is not flagged |
| Rules.RepeatedDigitPhoneIsFlagged | rules.py:31-32 | any non-empty run of one repeated character is flagged, whatever its length |
| Rules.ApplyRules | rules.py:39-52 | raises exactly when the phone is missing or empty; otherwise each flag is its rule applied to the field (missing fields read as ""), and `repeated_ip` is membership in the seen set as given |
| Rules.Flags.Items | rules.py:44-52 | the flag map has four entries; `Rules.FlagKeysInOrder` gives their keys in insertion order |
| Rules.Flags.Values | app.py:48 | `flags.values()` has four values, and some value is true exactly when one of the four flags is set |
| Rules.FlagKeysInOrder | rules.py:44-52 | the flag map's keys are mismatch, suspicious_email, suspicious_phone, repeated_ip, in that order |
| MockData.OverwriteWrites | model.py:25-26 | writing an IP at a list of positions leaves it at every listed position, and every position not listed keeps its old IP |
| MockData.RepeatPassKeepsUntargeted | model.py:22-26 | a position in none of the target lists keeps its initially drawn IP through the repeat pass |
| MockData.RepeatPassOnlyCopies | model.py:22-26 | after the repeat pass every entry is either the original one or one of the picked repeat IPs |
| MockData.RandomIp | model.py:17-18 | no contract of its own: the dotted quad of the four draws, each printed as `str(n)` (`Strings.NatToString`) |
| MockData.PickIps | model.py:22 | the repeat IPs are as many as the sampled positions, and each is an IP of the list |
| MockData.Overwrite | model.py:25-26 | writing one IP at a list of positions keeps the list's length; `MockData.OverwriteWrites` gives its contents |
| MockData.RepeatPass | model.py:23-26 | the repeat pass keeps the list's length; `MockData.RepeatPassOnlyCopies`, `MockData.LastRepeatStays` and `MockData.RepeatPassKeepsUntargeted` give its contents |
| MockData.LastRepeatStays | model.py:23-26 | the last repeat IP is present at all of its target positions after the pass |
| MockData.ApplyRepeats | model.py:23-26 | the nested in-place loops leave the IP array equal to the repeat pass applied to its old contents |
| MockData.GreenStreet | model.py:44 | no contract of its own: the billing address format; `MockData.StreetsDiffer` separates it from the shipping format |
| MockData.HighStreet | model.py:48 | no contract of its own: the changed shipping address format; `MockData.StreetsDiffer` separates it from the billing format |
| MockData.StreetsDiffer | model.py:43-48 | a Green Street address never equals a High Street address, whatever the pins |
| MockData.RecordIdentity | model.py:70-84 | row i has order id i + 1, the i-th IP, the drawn amount in [100, 5000] and both pins in [100000, 999999] |
| MockData.RecordAddresses | model.py:34-48 | `mismatch` is 1 exactly when the pins differ; the address strings are equal when it is 0 and different when it is 1 |
| MockData.ChosenDomain | model.py:50-54 | the chosen domain is one of the disposable ones exactly when the 10% coin came up |
| MockData.RecordEmail | model.py:50-57 | the email is user + "@" + chosen domain, and `suspicious_email` is 1 exactly when that domain is a disposable one |
| MockData.DigitString | model.py:60 | the phone has one character per drawn digit, each a decimal digit |
| MockData.MakeRecord | model.py:32-84 | no contract of its own: `MockData.RecordIdentity`, `MockData.RecordAddresses`, `MockData.RecordEmail` and `MockData.RecordPhone` characterise the record |
| MockData.Records | model.py:32-84 | one record per row, record i carrying order id i + 1 and the i-th IP of the list |
| MockData.RecordPhone | model.py:59-65 | the phone is the ten drawn digits; `suspicious_phone` is 1 exactly when the coin came up or a fake prefix/suffix is present |
| MockData.Occurrences | model.py:87 | the count of an IP never exceeds the column length |
| MockData.OccursIffIn | model.py:87 | an IP is counted at least once exactly when it is in the column |
| MockData.OccursTwiceIff | model.py:87-88 | a row's IP is counted more than once exactly when another row holds the same IP |
| MockData.LinearScore | model.py:93-107 | no contract of its own: the weighted score; `MockData.FraudLabel` gives the label it decides |
| MockData.AddDerivedColumns | model.py:85-109 | one frame row per record, keeping the record, with `repeated_ip` and `fraud_label` each 0 or 1, and `fraud_label` the label `MockData.FraudLabel` decides from the record and its `repeated_ip` (score > 0); `MockData.RepeatedIpMeansShared` gives `repeated_ip` |
| MockData.FraudLabel | model.py:93-109 | the label is 0 or 1, and 1 exactly when 2000·mismatch + 2400·email + 1600·phone + 2000·repeated + amount > 4800, the exact form of score > 0 |
| MockData.RepeatedIpMeansShared | model.py:86-88 | `repeated_ip` is 1 exactly for the rows whose IP appears in another row too, the first occurrence included |
| MockData.MockFrame | model.py:85-109 | the frame has one row per drawn row |
| MockData.IpColumn | model.py:87 | the IP column has one entry per record; `MockData.IpAddressColumn` gives its entries |
| MockData.IpAddressColumn | model.py:85-87 | reading `ip_address` raises `KeyError('ip_address')` exactly when the frame was built from no records; otherwise it lists each record's IP in order |
| MockData.MockData | model.py:11-111 | `generate_mock_data(n)` raises `KeyError('ip_address')` exactly when n = 0; otherwise it returns n rows, row i being the frame's row i |
| MockData.FinalIps | model.py:20-26 | the IP list keeps length n through the repeat pass |
| MockData.DrawIpList | model.py:20 | a fresh list holding the n drawn IPs in order |
| MockData.BuildRecords | model.py:32-84 | the row loop appends row i's record for each i, in order |
| MockData.GenerateMockData | model.py:11-111 | the generator returns exactly `MockData` of the draws: the frame for n ≥ 1 and `KeyError('ip_address')` for n = 0 |
| MockData.OrderIdsAreOneToN | model.py:71 | the generated order ids are 1..n and pairwise distinct |
| MockData.GeneratedIpsWereDrawn | model.py:20-26 | every final IP is one of the IPs first drawn |
| MockData.FinalIpsShareAnIp | model.py:22-26 | with n ≥ 2 two distinct rows end up with the same IP |
| MockData.SharedIpIsRepeated | model.py:87-88 | two rows with the same final IP get `repeated_ip` = 1 |
| MockData.RepeatedIpGuaranteed | model.py:20-26 | with n ≥ 2 some generated row has `repeated_ip` = 1 |
| MockData.FeatureRow | model.py:118-121 | a training row has the five feature columns, the last one the amount in thousands |
| MockData.TrainingFeatures | model.py:118-121 | `X` has one five-feature row per frame row |
| MockData.TrainingLabels | model.py:122 | `y` has one label per frame row |
| MockData.TrainingFeatureOrder | model.py:118-122 | a training row is [mismatch, email, phone, repeated_ip, amount / 1000] and its label is `fraud_label` |
| Ingest.DisplayNames | app.py:62-63 | the four keys display as "Mismatch", "Suspicious Email", "Suspicious Phone", "Repeated Ip" |
| Ingest.OneWordName | app.py:62 | a one-word key is shown with its first letter capitalised |
| Ingest.TwoWordName | app.py:62 | `first_second` is shown as `First Second` |
| Ingest.TriggeredRulesInFlagOrder | app.py:62-63 | the triggered names are exactly the display names of the true flags, in flag-map order |
| Ingest.DisplayName | app.py:62 | no contract of its own: `Ingest.DisplayNames`, `Ingest.OneWordName` and `Ingest.TwoWordName` give the names it produces |
| Ingest.TriggeredRules | app.py:62-63 | at most one name per flag entry, and no name exactly when no flag is true |
| Ingest.AnyTrue | app.py:48 | `any` is true exactly when some value is true |
| Ingest.IsFlagged | app.py:47-48 | flagged exactly when the risk is at least 50 or any of the four flags is true |
| Ingest.InferenceFeatures | app.py:35-41 | five features, the first four 0 or 1 and the last the amount in thousands |
| Ingest.Verdict | app.py:33-65 | no contract of its own: `Ingest.VerdictOfOrder` characterises the entry and the exceptions |
| Ingest.VerdictOfOrder | app.py:33-65 | a complete order's entry echoes its id, email, phone, addresses and amount, carries the classifier's risk on the feature vector, is "Yes" exactly when risk ≥ 50 or a flag is set, and lists the fired rules; an empty or missing phone raises `IndexError`; otherwise a missing key raises `KeyError` naming the first missing key in reading order (`amount` at app.py:40, then `order_id`, `email`, `phone`, `billing_address`, `shipping_address` at app.py:51-55) |
| Ingest.AlertsOfFlags | app.py:59-65 | the alerts are "" exactly when no flag is set, start with "Mismatch" when it is set and end with "Repeated Ip" when that is set |
| Ingest.Step | app.py:28-71 | on an empty queue nothing changes; otherwise exactly the head leaves the queue, at most its entry is appended and at most its IP is added, and it is ingested exactly when complete; a raising press reports the exception the verdict raised (`IndexError` or the first missing key, per `Ingest.VerdictOfOrder`) unless only `ip_address` is missing; it never adds the IP, and it appends the entry only when the missing key is `ip_address` |
| Ingest.StepWith | app.py:29-71 | no contract of its own: `Ingest.Step` and `Ingest.StepOfComplete` characterise one press |
| Ingest.SameIpTwice | app.py:11-69 | two successive orders with the same fresh IP, whichever classifiers the two presses trained: the first gets `repeated_ip` false, the second true, so the second is flagged and its alerts end with "Repeated Ip" |
| Ingest.JudgingAcceptsComplete | app.py:33-65 | the dashboard's verdict raises on no complete order |
| Ingest.StepOfComplete | app.py:31-69 | a complete head order is popped, its verdict appended and its IP added |
| Ingest.Judges | app.py:11-13 | one judge per press, each judging with the classifier that press trained; `Ingest.JudgesAcceptComplete` shows none of them raises on a complete order |
| Ingest.Run | app.py:11-71 | no contract of its own: `Ingest.RunOfCompleteOrders` and `Ingest.RunJudgesAgainstEarlierIps` characterise a run of presses |
| Ingest.RunOfCompleteOrders | app.py:11-71 | k presses on complete orders, each press with its own judge, consume exactly the first k orders, append k entries after the old ones and add exactly their IPs |
| Ingest.RunJudgesAgainstEarlierIps | app.py:11-69 | in such a run the j-th entry is the j-th press's judgement of the j-th order against the IPs seen before plus those of the orders ahead of it |
| Ingest.Session.constructor | app.py:23-25 | the session starts with the incoming queue, no results and no seen IP |
| Ingest.Session.IngestNextOrder | app.py:28-71 | the in-place handler leaves the session in exactly the state, and with the outcome, of `Step` |
| Consistency.InitialSession | app.py:23-25 | no contract of its own: the queue, no results and no seen IP; `Consistency.ServedEntry` runs the presses from it |
| Consistency.IncomingOrder | app.py:19-23 | a queued order is complete exactly when its row has a phone, and it carries the row's IP and amount |
| Consistency.IncomingQueue | app.py:19-23 | the queue has one order per generated row |
| Consistency.QueueIsComplete | app.py:21-23 | when every row has a phone, every queued order has all the keys the step reads |
| Consistency.GeneratedOrdersAreComplete | model.py:60 | every generated phone is non-empty, so no generated order makes the step raise |
| Consistency.MismatchColumnMatchesRule | model.py:41-48 | the generated `mismatch` column is what the address rule computes from the two strings |
| Consistency.GeneratorDomainsMatchRules | model.py:30-31 | the generator's disposable list holds exactly the rule's disposable domains of rules.py:4, and no normal domain is one of them |
| Consistency.DomainListsArePlain | model.py:30-31 | every generated domain is lower-case letters and dots, so `lower()` leaves it unchanged |
| Consistency.DomainPartOfAddress | model.py:56 | the domain part of `user@domain` is the domain when neither part holds an '@' |
| Consistency.EmailColumnMatchesRule | model.py:50-57 | the generated `suspicious_email` column is what the email rule computes from the address |
| Consistency.PhoneColumnVersusRule | model.py:59-65 | the column is the coin or the fake pattern; the rule is the repeated digit or the fake pattern; both mark a fake pattern |
| Consistency.RepeatedDigitPhoneDisagrees | model.py:61-65 | ten 2s without the coin: the column is 0 but the rule flags the phone |
| Consistency.CoinPhoneDisagrees | model.py:61-65 | 1234567890 with the coin: the column is 1 but the rule does not flag the phone |
| Consistency.TrainServeFeaturesAgree | app.py:35-41 | when the served flags agree with a row's columns, the inference vector equals that row's training vector |
| Consistency.ServedFeaturesOfGeneratedOrder | app.py:35-41 | serving a generated order reproduces its training mismatch, email and amount features |
| Consistency.ServedEntry | app.py:11-71 | serving the generated queue, press i with the classifier trained for it, the k-th entry is the k-th classifier's verdict on the k-th order against the IPs of the orders ahead of it |
| Consistency.ServedRepeatedIp | rules.py:50 | the served `repeated_ip` of the k-th order is true exactly when an earlier order had its IP |
| Consistency.FirstSharedIpServedAsFresh | model.py:87-88 | with n ≥ 2 some generated order has `repeated_ip` = 1 in training yet is served with the flag false |

## Left out

- Streamlit rendering is not modelled: the title, spinner, success message, tables and charts. The "No more new orders" warning is the outcome `NoMoreOrders`, with no state change.
- The classifiers trained on successive presses are independent parameters (`Ingest.Judges`). That each one is trained on freshly drawn data is not modelled.
- The logistic regression is not modelled. Its fitting and `predict_proba`, and the rounding of the risk to two decimals, are the parameter `riskPercentOf`: a function from the feature vector to the risk percentage.
- Training on a degenerate data set (one label only) makes the library raise. That is library behaviour and is not modelled.
- The random draws are parameters (`MockData.Draws`), constrained to the ranges the generator asks for. The module-level seeding and the generator's distribution are not modelled.
- pandas mechanics are not modelled. A data frame is a sequence of rows, and `value_counts` is an occurrence count.
- The queue's orders carry only the keys the rules and the step read. The generated `billing_pin` and `shipping_pin` columns are not part of `Rules.Order`.
- MockData.FraudLabel: the label is the exact sign test `score > 0` on rational coefficients, which is what `sigmoid(score) > 0.5` means. Floating-point rounding of the score and of `exp` is not modelled, and it could only matter at a score that is exactly zero in rational arithmetic. There the floating-point score can come out slightly positive: mismatch alone with amount 2800 gives about 4.4e-16 and label 1, where the model gives 0.
- Strings.Lower: only ASCII capitals and U+212A KELVIN SIGN are lower-cased. These are the only characters whose lower-case form is plain ASCII, the alphabet of the domain list. Other non-ASCII characters are kept, which can change the lowered text but never the domain lookup.
- Strings.Title: title-casing covers ASCII letters only. It is applied only to the four fixed flag keys.
- The comment about a caller-ID service at the end of `rules.py` has no code.
