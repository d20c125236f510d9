/** The email dispatcher (src/lib/actions/emails.ts): resolve one address per
    user (their first one), then ask the transactional-email service for one
    batched send, or for a single send to a task's assignee. Nothing is sent
    without an API key, and no failure reaches the caller.

    The identity provider's answer is a parameter (None when the lookup
    throws); the rendered template and the sender address are parameters
    too. The result describes the request made to the email service. */
module Emails {
  import opened Common
  import opened Store

  datatype Template = Template(subject: string, html: string)

  datatype Mail = Mail(from: string, to: string, subject: string, html: string)

  /** What was asked of the email service: nothing, one batch, or one message. */
  datatype EmailOutcome = NoSend | BatchSend(messages: seq<Mail>) | SingleSend(message: Mail)

  /** `u.emailAddresses[0]?.emailAddress`, kept only when truthy. */
  function FirstAddress(u: IdentityUser): Option<string> {
    if |u.emails| > 0 && u.emails[0] != "" then Some(u.emails[0]) else None
  }

  /** `.map(first address).filter(Boolean)`, in lookup order. */
  function Addresses(users: seq<IdentityUser>): seq<string> {
    if users == [] then []
    else (if FirstAddress(users[0]).Some? then [FirstAddress(users[0]).value] else []) + Addresses(users[1..])
  }

  /** Each looked-up user contributes exactly their first address when it is
      non-empty and nothing otherwise; no address comes from anywhere else. */
  lemma {:induction false} AddressesExact(users: seq<IdentityUser>)
    ensures |Addresses(users)| <= |users|
    ensures forall i | 0 <= i < |users| :: FirstAddress(users[i]).Some? ==> users[i].emails[0] in Addresses(users)
    ensures forall a | a in Addresses(users) :: a != "" && exists i | 0 <= i < |users| :: FirstAddress(users[i]) == Some(a)
  {
    if users != [] {
      var tail := users[1..];
      AddressesExact(tail);
      forall a | a in Addresses(users) ensures a != "" && exists i | 0 <= i < |users| :: FirstAddress(users[i]) == Some(a) {
        if a in Addresses(tail) {
          var i :| 0 <= i < |tail| && FirstAddress(tail[i]) == Some(a);
          assert users[i + 1] == tail[i];
        } else {
          assert FirstAddress(users[0]) == Some(a);
        }
      }
      forall i | 0 <= i < |users| && FirstAddress(users[i]).Some? ensures users[i].emails[0] in Addresses(users) {
        if i > 0 { assert users[i] == tail[i - 1]; }
      }
    }
  }

  /** The common shape of `sendEventInviteEmails` and `sendReminderEmails`:
      one message per resolved address, all with the same sender, subject and
      body; no request without a key, after a failed lookup, or with no address. */
  function SendBatch(apiKey: Option<string>, lookup: Option<seq<IdentityUser>>, template: Template, from: string)
    : (r: EmailOutcome)
    ensures !Truthy(apiKey) || lookup.None? ==> r == NoSend
    ensures r.SingleSend? == false
    ensures r.BatchSend? ==>
      && lookup.Some? && |r.messages| == |Addresses(lookup.value)| > 0
      && forall i | 0 <= i < |r.messages| ::
           r.messages[i] == Mail(from, Addresses(lookup.value)[i], template.subject, template.html)
    ensures Truthy(apiKey) && lookup.Some? && Addresses(lookup.value) != [] ==> r.BatchSend?
  {
    if !Truthy(apiKey) then NoSend
    else if lookup.None? then NoSend
    else
      var emails := Addresses(lookup.value);
      if |emails| == 0 then NoSend
      else BatchSend(seq(|emails|, i requires 0 <= i < |emails| => Mail(from, emails[i], template.subject, template.html)))
  }

  /** `sendEventInviteEmails`, with the rendered invite template. */
  function SendEventInviteEmails(apiKey: Option<string>, lookup: Option<seq<IdentityUser>>, invite: Template, from: string)
    : EmailOutcome
  {
    SendBatch(apiKey, lookup, invite, from)
  }

  /** `sendReminderEmails`, with the rendered reminder template. */
  function SendReminderEmails(apiKey: Option<string>, lookup: Option<seq<IdentityUser>>, reminder: Template, from: string)
    : EmailOutcome
  {
    SendBatch(apiKey, lookup, reminder, from)
  }

  /** Every address of a batch is the first address of some looked-up user,
      and a batch has no more messages than users were looked up. */
  lemma BatchGoesToLookedUpUsers(apiKey: Option<string>, lookup: Option<seq<IdentityUser>>, template: Template, from: string)
    requires SendBatch(apiKey, lookup, template, from).BatchSend?
    ensures var r := SendBatch(apiKey, lookup, template, from);
      && |r.messages| <= |lookup.value|
      && forall i | 0 <= i < |r.messages| ::
           exists k | 0 <= k < |lookup.value| :: FirstAddress(lookup.value[k]) == Some(r.messages[i].to)
  {
    AddressesExact(lookup.value);
    var r := SendBatch(apiKey, lookup, template, from);
    forall i | 0 <= i < |r.messages|
      ensures exists k | 0 <= k < |lookup.value| :: FirstAddress(lookup.value[k]) == Some(r.messages[i].to)
    {
      assert r.messages[i].to in Addresses(lookup.value);
    }
  }

  /** `sendTaskAssignedEmail`: at most one message, to the first address of the
      first user the lookup returns. */
  function SendTaskAssignedEmail(apiKey: Option<string>, lookup: Option<seq<IdentityUser>>, template: Template, from: string)
    : (r: EmailOutcome)
    ensures r.BatchSend? == false
    ensures r.SingleSend? <==>
      Truthy(apiKey) && lookup.Some? && |lookup.value| > 0 && FirstAddress(lookup.value[0]).Some?
    ensures r.SingleSend? ==>
      r.message == Mail(from, lookup.value[0].emails[0], template.subject, template.html)
  {
    if !Truthy(apiKey) then NoSend
    else if lookup.None? || |lookup.value| == 0 then NoSend
    else
      match FirstAddress(lookup.value[0])
      case None => NoSend
      case Some(email) => SingleSend(Mail(from, email, template.subject, template.html))
  }
}
