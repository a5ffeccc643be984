/** `POST /broadcasts`: which recipients a request names, and which of them are the same customer
    (apps/gateway/src/broadcasts.ts, packages/core/src/bsuid.ts). */
module BroadcastRequest {
  import opened Core

  const MAX_BROADCAST_RECIPIENTS: nat := 10_000
  const MAX_REPORTED: nat := 100

  // ---- Recipient ids ------------------------------------------------------------------------

  predicate Digit(c: char) { '0' <= c <= '9' }
  predicate Upper(c: char) { 'A' <= c <= 'Z' }
  predicate Alphanumeric(c: char) { Digit(c) || Upper(c) || 'a' <= c <= 'z' }

  predicate AllOf(s: string, p: char -> bool) { forall i :: 0 <= i < |s| ==> p(s[i]) }

  /** Two capitals, a dot, an optional `ENT.`, then 1 to 128 letters or digits. */
  predicate IsBsuid(id: string) {
    && |id| > 3 && Upper(id[0]) && Upper(id[1]) && id[2] == '.'
    && var rest := if "ENT." <= id[3..] then id[7..] else id[3..];
       1 <= |rest| <= 128 && AllOf(rest, Alphanumeric)
  }

  function Digits(s: string): (d: string)
    ensures AllOf(d, Digit)
    ensures |d| <= |s|
  {
    if s == "" then "" else (if Digit(s[0]) then [s[0]] else "") + Digits(s[1..])
  }

  predicate PhoneSeparator(c: char) { c in " ().-" }

  predicate IsRecipient(to: string) {
    || IsBsuid(to)
    || (var body := if "+" <= to then to[1..] else to;
        && |body| > 0 && Digit(body[0]) && AllOf(body[1..], c => Digit(c) || PhoneSeparator(c))
        && 5 <= |Digits(to)| <= 15)
  }

  /** The same customer written two ways is one recipient. */
  function RecipientKey(to: string): string {
    if IsBsuid(to) then to else Digits(to)
  }

  lemma {:induction false} DigitsOfDigits(s: string)
    requires AllOf(s, Digit)
    ensures Digits(s) == s
  {
    if s != "" {
      assert AllOf(s[1..], Digit);
      DigitsOfDigits(s[1..]);
    }
  }

  /** A key names its customer whichever way the customer was written: taking the key again changes nothing. */
  lemma KeyOfKey(to: string)
    ensures RecipientKey(RecipientKey(to)) == RecipientKey(to)
  {
    if !IsBsuid(to) {
      var d := Digits(to);
      DigitsOfDigits(d);
      assert |d| > 3 ==> Digit(d[0]);
    }
  }

  /** Digits are kept in their order, and everything else is dropped. */
  lemma {:induction false} DigitsByParts(a: string, b: string)
    ensures Digits(a + b) == Digits(a) + Digits(b)
  {
    if a == "" {
      assert a + b == b;
    } else {
      DigitsByParts(a[1..], b);
      DigitsFromFirst(a[0], a[1..]);
      DigitsFromFirst(a[0], a[1..] + b);
      assert [a[0]] + a[1..] == a && [a[0]] + (a[1..] + b) == a + b;
    }
  }

  lemma DigitsFromFirst(c: char, rest: string)
    ensures Digits([c] + rest) == (if Digit(c) then [c] else "") + Digits(rest)
  {
    assert ([c] + rest)[1..] == rest;
  }

  lemma DigitsOfOne(c: char)
    ensures Digits([c]) == if '0' <= c <= '9' then [c] else ""
  {
    assert [c][1..] == "";
  }

  /** Two phones have one key exactly when their digits agree, a BSUID is its own, and none is a phone's. */
  lemma KeysTellCustomersApart(a: string, b: string)
    ensures !IsBsuid(a) && !IsBsuid(b) ==> (RecipientKey(a) == RecipientKey(b) <==> Digits(a) == Digits(b))
    ensures IsBsuid(a) ==> RecipientKey(a) == a && (RecipientKey(a) == RecipientKey(b) <==> a == b)
  {
    assert !Digit('A') && forall c :: Upper(c) ==> !Digit(c);
  }

  /** A number of 5 to 15 digits is a recipient however its digits are grouped, and nothing else is but a BSUID. */
  lemma WhoIsARecipient(to: string)
    ensures IsRecipient(to) && !IsBsuid(to) ==>
              && 5 <= |RecipientKey(to)| <= 15
              && forall i :: 0 <= i < |to| ==> '0' <= to[i] <= '9' || to[i] in " ().-" || (i == 0 && to[i] == '+')
    ensures !IsBsuid(to) && |to| > 0 && AllOf(to, Digit) ==> (IsRecipient(to) <==> 5 <= |to| <= 15) && (IsRecipient("+" + to) <==> 5 <= |to| <= 15)
    ensures IsBsuid(to) ==> IsRecipient(to)
  {
    var body := if "+" <= to then to[1..] else to;
    assert |body| > 0 ==> body == [body[0]] + body[1..];
    if |to| > 0 && AllOf(to, Digit) {
      assert ("+" + to)[1..] == to && !IsBsuid("+" + to) && !("+" <= to);
      DigitsOfDigits(to);
      DigitsByParts("+", to);
    }
  }

  /** Two capitals and a dot before 1 to 128 letters or digits, with `ENT.` between or not. */
  lemma WhatIsABsuid(a: char, b: char, rest: string)
    requires 'A' <= a <= 'Z' && 'A' <= b <= 'Z' && AllOf(rest, Alphanumeric)
    ensures IsBsuid([a, b, '.'] + rest) <==> 1 <= |rest| <= 128
    ensures IsBsuid([a, b, '.'] + "ENT." + rest) <==> 1 <= |rest| <= 128
  {
    var plain, linked := [a, b, '.'] + rest, [a, b, '.'] + "ENT." + rest;
    assert plain[3..] == rest && linked[3..] == "ENT." + rest && linked[7..] == rest;
    assert !("ENT." <= rest) by {
      assert "ENT."[3] == '.' && !Alphanumeric('.');
    }
  }

  // ---- The request --------------------------------------------------------------------------

  datatype Components = Absent | NotAnArray | TooLarge | Values(json: string)

  /** One element of `recipients`; `to` is trimmed. */
  datatype Entry = NotAnObject | Entry(to: string, components: Components)

  datatype Problem = BadRecipient | ComponentsNotArray | ComponentsTooLarge

  datatype Recipient = Recipient(to: string, own: Option<string>)

  datatype Parsed =
    | Accepted(recipients: seq<Recipient>, duplicates: nat)
    | NoRecipients
    | TooManyRecipients
    | Invalid(reported: seq<(nat, Problem)>)

  function ProblemOf(e: Entry): Option<Problem> {
    if e.NotAnObject? || !IsRecipient(e.to) then Some(BadRecipient)
    else if e.components.NotAnArray? then Some(ComponentsNotArray)
    else if e.components.TooLarge? then Some(ComponentsTooLarge)
    else None
  }

  predicate Good(e: Entry) { ProblemOf(e).None? }

  function ToRecipient(e: Entry): Recipient
    requires Good(e)
  {
    Recipient(e.to, if e.components.Values? then Some(e.components.json) else None)
  }

  /** Positions below `n` whose entry is bad, in order. */
  ghost function BadBelow(entries: seq<Entry>, n: nat): seq<(nat, Problem)>
    requires n <= |entries|
  {
    if n == 0 then []
    else if Good(entries[n - 1]) then BadBelow(entries, n - 1)
    else BadBelow(entries, n - 1) + [(n - 1, ProblemOf(entries[n - 1]).value)]
  }

  /** The customers named by good entries before position `n`. */
  ghost function KeysBelow(entries: seq<Entry>, n: nat): set<string>
    requires n <= |entries|
  {
    if n == 0 then {}
    else if Good(entries[n - 1]) then KeysBelow(entries, n - 1) + {RecipientKey(entries[n - 1].to)}
    else KeysBelow(entries, n - 1)
  }

  /** The good entries before position `n` that are the first to name their customer, in order. */
  ghost function FirstsBelow(entries: seq<Entry>, n: nat): seq<Recipient>
    requires n <= |entries|
  {
    if n == 0 then []
    else if Good(entries[n - 1]) && RecipientKey(entries[n - 1].to) !in KeysBelow(entries, n - 1)
    then FirstsBelow(entries, n - 1) + [ToRecipient(entries[n - 1])]
    else FirstsBelow(entries, n - 1)
  }

  // ---- What a parsed request says, entry by entry --------------------------------------------

  /** An entry a request may hold. */
  predicate Fine(e: Entry) { e.Entry? && IsRecipient(e.to) && (e.components.Absent? || e.components.Values?) }

  /** What is wrong with an entry, its recipient before its values. */
  predicate Describes(problem: Problem, e: Entry) {
    match problem
    case BadRecipient => e.NotAnObject? || !IsRecipient(e.to)
    case ComponentsNotArray => e.Entry? && IsRecipient(e.to) && e.components.NotAnArray?
    case ComponentsTooLarge => e.Entry? && IsRecipient(e.to) && e.components.TooLarge?
  }

  /** The recipient is written as in the entry and has the entry's own values, if it brought any. */
  predicate Asks(e: Entry, r: Recipient) {
    && e.Entry? && r.to == e.to
    && (e.components.Values? ==> r.own == Some(e.components.json)) && (e.components.Absent? ==> r.own.None?)
  }

  /** Whom each entry names, by key. */
  ghost function KeysOf(entries: seq<Entry>): (keys: seq<string>)
    ensures |keys| == |entries|
  {
    seq(|entries|, i requires 0 <= i < |entries| => if entries[i].Entry? then RecipientKey(entries[i].to) else "")
  }

  /** `ps` are the positions below `n` where a key comes for the first time, in order. */
  ghost predicate FirstPositions(keys: seq<string>, n: nat, ps: seq<nat>)
    requires n <= |keys|
  {
    && (forall k, l :: 0 <= k < l < |ps| ==> ps[k] < ps[l])
    && (forall i: nat :: i in ps <==> i < n && keys[i] !in keys[..i])
  }

  ghost predicate AsksAt(entries: seq<Entry>, ps: seq<nat>, recipients: seq<Recipient>) {
    |ps| == |recipients| && forall k :: 0 <= k < |ps| ==> ps[k] < |entries| && Asks(entries[ps[k]], recipients[k])
  }

  /** One recipient for every customer named, as the first entry that names it asks, in the order of the entries. */
  ghost predicate KeptFirsts(entries: seq<Entry>, n: nat, recipients: seq<Recipient>)
    requires n <= |entries|
  {
    exists ps: seq<nat> :: FirstPositions(KeysOf(entries), n, ps) && AsksAt(entries, ps, recipients)
  }

  lemma OneFirstMore(keys: seq<string>, n: nat, ps: seq<nat>)
    requires 0 < n <= |keys| && FirstPositions(keys, n - 1, ps)
    ensures FirstPositions(keys, n, if keys[n - 1] in keys[..n - 1] then ps else ps + [n - 1])
  {
    if keys[n - 1] !in keys[..n - 1] {
      var more := ps + [n - 1];
      forall i: nat ensures i in more <==> i < n && keys[i] !in keys[..i] {
        assert i in more <==> i in ps || i == n - 1;
      }
      forall k, l | 0 <= k < l < |more| ensures more[k] < more[l] {
        assert ps[k] in ps;
      }
    }
  }

  lemma OneAskMore(entries: seq<Entry>, ps: seq<nat>, recipients: seq<Recipient>, n: nat, last: Recipient)
    requires n < |entries| && AsksAt(entries, ps, recipients) && Asks(entries[n], last)
    ensures AsksAt(entries, ps + [n], recipients + [last])
  {
  }

  lemma OneKeyOf(keys: seq<string>, n: nat)
    requires 0 < n <= |keys|
    ensures forall key :: key in keys[..n] <==> key in keys[..n - 1] || key == keys[n - 1]
  {
    assert keys[..n] == keys[..n - 1] + [keys[n - 1]];
  }

  lemma KeyOfEntry(entries: seq<Entry>, i: nat)
    requires i < |entries| && entries[i].Entry?
    ensures KeysOf(entries)[i] == RecipientKey(entries[i].to)
  {
  }

  lemma {:induction false} KeysNamed(entries: seq<Entry>, n: nat)
    requires n <= |entries| && BadBelow(entries, n) == []
    ensures forall key :: key in KeysBelow(entries, n) <==> key in KeysOf(entries)[..n]
  {
    if n > 0 {
      KeysNamed(entries, n - 1);
      KeyOfEntry(entries, n - 1);
      OneKeyOf(KeysOf(entries), n);
    }
  }

  lemma {:induction false} FirstsAreKept(entries: seq<Entry>, n: nat) returns (ps: seq<nat>)
    requires n <= |entries| && BadBelow(entries, n) == []
    ensures FirstPositions(KeysOf(entries), n, ps) && AsksAt(entries, ps, FirstsBelow(entries, n))
  {
    if n == 0 {
      ps := [];
    } else {
      ps := FirstsAreKept(entries, n - 1);
      KeysNamed(entries, n - 1);
      KeyOfEntry(entries, n - 1);
      OneFirstMore(KeysOf(entries), n, ps);
      if KeysOf(entries)[n - 1] !in KeysOf(entries)[..n - 1] {
        OneAskMore(entries, ps, FirstsBelow(entries, n - 1), n - 1, ToRecipient(entries[n - 1]));
        ps := ps + [n - 1];
      }
    }
  }

  lemma FineIsGood(e: Entry)
    ensures Fine(e) <==> Good(e)
    ensures !Good(e) ==> Describes(ProblemOf(e).value, e)
  {
  }

  ghost predicate AllFine(entries: seq<Entry>) { forall e :: e in entries ==> Fine(e) }

  /** What is reported is wrong, entry by entry. */
  ghost predicate ReportFits(entries: seq<Entry>, reported: seq<(nat, Problem)>) {
    forall b :: b in reported ==> b.0 < |entries| && Describes(b.1, entries[b.0])
  }

  lemma GoodThroughout(entries: seq<Entry>)
    ensures BadBelow(entries, |entries|) == [] <==> AllFine(entries)
    ensures ReportFits(entries, BadBelow(entries, |entries|))
  {
    ReportNamesBadEntries(entries, |entries|);
    forall i | 0 <= i < |entries| ensures Fine(entries[i]) <==> Good(entries[i]) {
      FineIsGood(entries[i]);
    }
    forall b | b in BadBelow(entries, |entries|) ensures b.0 < |entries| && Describes(b.1, entries[b.0]) {
      FineIsGood(entries[b.0]);
    }
  }

  /** Every recipient must be valid or the whole request is refused, naming up to 100 positions. Repeated
      recipients are dropped, keeping the first. */
  method ParseRecipients(entries: seq<Entry>) returns (p: Parsed)
    ensures p.NoRecipients? <==> entries == []
    ensures p.TooManyRecipients? <==> |entries| > 10_000
    ensures p.Accepted? <==> 0 < |entries| <= 10_000 && AllFine(entries)
    ensures p.Accepted? ==> KeptFirsts(entries, |entries|, p.recipients) && |p.recipients| + p.duplicates == |entries|
    ensures p.Invalid? ==> 0 < |p.reported| <= 100 && ReportFits(entries, p.reported)
    ensures p.Accepted? ==> p.recipients == FirstsBelow(entries, |entries|)
    ensures p.Invalid? ==> var bad := BadBelow(entries, |entries|);
                           p.reported == if |bad| <= MAX_REPORTED then bad else bad[..MAX_REPORTED]
  {
    if |entries| == 0 {
      return NoRecipients;
    }
    if |entries| > MAX_BROADCAST_RECIPIENTS {
      return TooManyRecipients;
    }
    p := ReadEntries(entries);
    GoodThroughout(entries);
    if p.Accepted? {
      ghost var ps := FirstsAreKept(entries, |entries|);
    }
  }

  /** One pass over the entries. */
  method ReadEntries(entries: seq<Entry>) returns (p: Parsed)
    ensures var bad := BadBelow(entries, |entries|);
            if bad != [] then p == Invalid(if |bad| <= MAX_REPORTED then bad else bad[..MAX_REPORTED])
            else p.Accepted? && p.recipients == FirstsBelow(entries, |entries|)
                 && |p.recipients| + p.duplicates == |entries|
  {
    var invalid: seq<(nat, Problem)> := [];
    var seen: set<string> := {};
    var recipients: seq<Recipient> := [];
    var duplicates := 0;
    for i := 0 to |entries|
      invariant invalid == BadBelow(entries, i)
      invariant seen == KeysBelow(entries, i)
      invariant recipients == FirstsBelow(entries, i)
      invariant |recipients| + duplicates + |invalid| == i
    {
      var problem := ProblemOf(entries[i]);
      if problem.Some? {
        invalid := invalid + [(i, problem.value)];
      } else {
        var key := RecipientKey(entries[i].to);
        if key in seen {
          duplicates := duplicates + 1;
        } else {
          seen := seen + {key};
          recipients := recipients + [ToRecipient(entries[i])];
        }
      }
    }
    if |invalid| > 0 {
      return Invalid(if |invalid| <= MAX_REPORTED then invalid else invalid[..MAX_REPORTED]);
    }
    return Accepted(recipients, duplicates);
  }

  /** A request is refused for its entries exactly when one of them is bad, and the report names bad
      positions only. */
  lemma {:induction false} ReportNamesBadEntries(entries: seq<Entry>, n: nat)
    requires n <= |entries|
    ensures BadBelow(entries, n) == [] <==> forall i :: 0 <= i < n ==> Good(entries[i])
    ensures forall b :: b in BadBelow(entries, n) ==> b.0 < n && ProblemOf(entries[b.0]) == Some(b.1)
  {
    if n > 0 {
      ReportNamesBadEntries(entries, n - 1);
    }
  }

  lemma {:induction false} KeysAreOfGoodEntries(entries: seq<Entry>, n: nat, j: nat)
    requires j < n <= |entries| && Good(entries[j])
    ensures RecipientKey(entries[j].to) in KeysBelow(entries, n)
  {
    if j < n - 1 {
      KeysAreOfGoodEntries(entries, n - 1, j);
    }
  }

  /** No two recipients of an accepted request are the same customer. */
  ghost predicate Distinct(recipients: seq<Recipient>) {
    forall a, b :: 0 <= a < b < |recipients| ==> RecipientKey(recipients[a].to) != RecipientKey(recipients[b].to)
  }

  function KeySet(recipients: seq<Recipient>): set<string> { set r | r in recipients :: RecipientKey(r.to) }

  lemma OneKeyMore(recipients: seq<Recipient>, last: Recipient)
    ensures KeySet(recipients + [last]) == KeySet(recipients) + {RecipientKey(last.to)}
  {
    assert forall r :: r in recipients + [last] <==> r in recipients || r == last;
    assert last in recipients + [last];
  }

  lemma OneMoreDistinct(recipients: seq<Recipient>, last: Recipient)
    requires Distinct(recipients) && RecipientKey(last.to) !in KeySet(recipients)
    ensures Distinct(recipients + [last])
  {
    forall a | 0 <= a < |recipients| ensures RecipientKey(recipients[a].to) != RecipientKey(last.to) {
      assert recipients[a] in recipients;
    }
  }

  lemma FirstsGrow(entries: seq<Entry>, n: nat)
    requires 0 < n <= |entries|
    ensures FirstsBelow(entries, n - 1) <= FirstsBelow(entries, n)
    ensures Good(entries[n - 1]) && RecipientKey(entries[n - 1].to) !in KeysBelow(entries, n - 1) ==>
              FirstsBelow(entries, n) == FirstsBelow(entries, n - 1) + [ToRecipient(entries[n - 1])]
  {
  }

  /** The recipients are exactly the customers named. */
  lemma {:induction false} RecipientsAreTheCustomers(entries: seq<Entry>, n: nat)
    requires n <= |entries|
    ensures KeySet(FirstsBelow(entries, n)) == KeysBelow(entries, n)
  {
    if n > 0 {
      RecipientsAreTheCustomers(entries, n - 1);
      FirstsGrow(entries, n);
      if Good(entries[n - 1]) && RecipientKey(entries[n - 1].to) !in KeysBelow(entries, n - 1) {
        OneKeyMore(FirstsBelow(entries, n - 1), ToRecipient(entries[n - 1]));
      }
    }
  }

  /** And each customer is one recipient, however often and in whatever writing the request names it. */
  lemma {:induction false} RecipientsAreDistinct(entries: seq<Entry>, n: nat)
    requires n <= |entries|
    ensures Distinct(FirstsBelow(entries, n))
  {
    if n > 0 {
      RecipientsAreDistinct(entries, n - 1);
      FirstsGrow(entries, n);
      if Good(entries[n - 1]) && RecipientKey(entries[n - 1].to) !in KeysBelow(entries, n - 1) {
        RecipientsAreTheCustomers(entries, n - 1);
        OneMoreDistinct(FirstsBelow(entries, n - 1), ToRecipient(entries[n - 1]));
      }
    }
  }

  lemma InLonger(r: Recipient, a: seq<Recipient>, b: seq<Recipient>)
    requires r in a && a <= b
    ensures r in b
  {
    assert b == a + b[|a|..];
  }

  /** The recipient kept for a customer is as the customer was first written. */
  lemma {:induction false} FirstWritingWins(entries: seq<Entry>, n: nat, i: nat)
    requires i < n <= |entries| && Good(entries[i])
    requires RecipientKey(entries[i].to) !in KeysBelow(entries, i)
    ensures ToRecipient(entries[i]) in FirstsBelow(entries, n)
  {
    FirstsGrow(entries, n);
    if i < n - 1 {
      FirstWritingWins(entries, n - 1, i);
      InLonger(ToRecipient(entries[i]), FirstsBelow(entries, n - 1), FirstsBelow(entries, n));
    }
  }
}
