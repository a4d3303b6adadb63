/**
 * The in-memory email store: a fixed, ordered list of records that the
 * application never mutates, and the first-match lookup the summary handler
 * performs over it.
 */
module EmailStore {
  import opened Wrappers

  /** One email record. The timestamp is display text and is never parsed. */
  datatype Email = Email(id: int, sender: string, subject: string, body: string, timestamp: string)

  /** The index `i` holds the first record of `store` whose id is `id`. */
  predicate IsFirstMatch(store: seq<Email>, id: int, i: int)
  {
    && 0 <= i < |store|
    && store[i].id == id
    && forall j :: 0 <= j < i ==> store[j].id != id
  }

  /** No record of `store` carries `id`. */
  predicate Absent(store: seq<Email>, id: int)
  {
    forall i :: 0 <= i < |store| ==> store[i].id != id
  }

  /** Every id occurs at most once in `store`. */
  predicate UniqueIds(store: seq<Email>)
  {
    forall i, j :: 0 <= i < j < |store| ==> store[i].id != store[j].id
  }

  /**
   * Linear first-match search, the generator expression passed to `next` with
   * a `None` default: `None` exactly when no record has the id, otherwise the
   * first record that has it.
   */
  function Lookup(store: seq<Email>, id: int): (r: Option<Email>)
    ensures r.None? <==> Absent(store, id)
    ensures r.Some? ==> exists i :: IsFirstMatch(store, id, i) && store[i] == r.value
  {
    if |store| == 0 then None
    else if store[0].id == id then
      assert IsFirstMatch(store, id, 0);
      Some(store[0])
    else
      var rest := Lookup(store[1..], id);
      if rest.Some? then
        var k :| IsFirstMatch(store[1..], id, k) && store[1..][k] == rest.value;
        assert IsFirstMatch(store, id, k + 1);
        rest
      else
        assert forall i :: 1 <= i < |store| ==> store[i] == store[1..][i - 1];
        rest
  }

  /** The record found always carries the requested id. */
  lemma LookupHasId(store: seq<Email>, id: int)
    requires Lookup(store, id).Some?
    ensures Lookup(store, id).value.id == id
  {
    var i :| IsFirstMatch(store, id, i) && store[i] == Lookup(store, id).value;
  }

  /**
   * With unique ids the first match is the only match, so any record that
   * carries the id is the one the lookup returns.
   */
  lemma {:induction false} LookupUnique(store: seq<Email>, id: int, i: int)
    requires UniqueIds(store)
    requires 0 <= i < |store| && store[i].id == id
    ensures Lookup(store, id) == Some(store[i])
  {
    assert !Absent(store, id);
    assert exists k :: IsFirstMatch(store, id, k) && store[k] == Lookup(store, id).value;
    var k :| IsFirstMatch(store, id, k) && store[k] == Lookup(store, id).value;
    assert k == i;
  }

  /** The application's fixed email list, in display order. */
  const Emails: seq<Email> := [
    Email(1, "john.doe@company.com", "Website Login Issues",
      "Hi, I'm having trouble logging into my account. The password reset isn't working and I keep getting error messages. This is urgent as I need to access my project files for a client presentation tomorrow. Can someone please help me resolve this quickly?",
      "2025-09-16 09:15:00"),
    Email(2, "billing@stripe.com", "Payment Confirmation - Order #12345",
      "Thank you for your payment of $99.99 for your Pro subscription. Your payment has been successfully processed and your account has been upgraded. Transaction ID: txn_abc123. Your next billing date is October 16, 2025.",
      "2025-09-16 08:30:00"),
    Email(3, "sarah.wilson@marketing.com", "Collaboration Opportunity",
      "Hi there! I hope this email finds you well. I'm reaching out regarding a potential partnership between our companies. We've been following your work and think there could be great synergy. Would you be interested in scheduling a call next week to discuss this further?",
      "2025-09-16 07:45:00"),
    Email(4, "security@bank.com", "Security Alert: Unusual Activity Detected",
      "We've detected unusual login activity on your account from an unrecognized device. If this was you, please ignore this message. If not, please immediately change your password and contact our security team. Location: New York, NY. Time: 2025-09-16 06:30:00 UTC.",
      "2025-09-16 06:35:00"),
    Email(5, "newsletter@techblog.com", "Weekly Tech Roundup - AI Advances",
      "This week in tech: Major breakthroughs in AI safety research, new framework releases from top companies, and insights into the future of machine learning. Click here to read about the latest developments in artificial intelligence and how they might impact your projects.",
      "2025-09-16 06:00:00")
  ]

  /** The fixed store holds ids 1 to 5, in that order, each once. */
  lemma EmailsWellFormed()
    ensures |Emails| == 5
    ensures forall i :: 0 <= i < |Emails| ==> Emails[i].id == i + 1
    ensures UniqueIds(Emails)
  {
  }

  /**
   * Against the fixed store, the lookup succeeds exactly for ids 1 to 5 and
   * then returns the record at position id - 1; the answer depends on the id
   * alone, so every request for the same id sees the same record.
   */
  lemma EmailsLookup(id: int)
    ensures Lookup(Emails, id).Some? <==> 1 <= id <= 5
    ensures 1 <= id <= 5 ==> Lookup(Emails, id) == Some(Emails[id - 1])
  {
    EmailsWellFormed();
    if 1 <= id <= 5 {
      LookupUnique(Emails, id, id - 1);
    } else {
      assert Absent(Emails, id);
    }
  }
}
