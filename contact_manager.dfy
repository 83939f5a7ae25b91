/** frontend/pages/admin/ContactManager.tsx: contact details and the inbox of the admin console. */
module ContactManager {
  import opened Js
  import opened Admin
  import opened SiteContent

  const SiteContentUrl := ContentApi + "/site-content"
  const SubmissionsUrl := ContentApi + "/contact/submissions"
  const RepliesUrl := ContentApi + "/contact/replies"
  const ReplyUrl := ContentApi + "/contact/reply"

  /** The contact details the page starts from, every one empty. */
  const Defaults: seq<Entry> := [
    Entry("email", ""), Entry("phone", ""), Entry("address", ""),
    Entry("social_instagram", ""), Entry("social_linkedin", ""), Entry("social_whatsapp", "")
  ]

  /** `Object.entries(contactInfo).map(…)`: one `{ key, value }` write per field, in key order. */
  function SaveRequests(info: seq<Entry>): (rs: seq<Request>)
    ensures |rs| == |info|
    ensures forall i :: 0 <= i < |rs| ==>
      rs[i] == Request(Post, SiteContentUrl, KeyValue(info[i].key, info[i].value))
  {
    seq(|info|, i requires 0 <= i < |info| => Request(Post, SiteContentUrl, KeyValue(info[i].key, info[i].value)))
  }

  /** `Promise.all` rejects when any of the fetches rejects. */
  predicate AnyRejected(replies: seq<Reply>) {
    exists i :: 0 <= i < |replies| && replies[i].Rejected?
  }

  /** The verdict of the response loop: the first response that is not ok decides. */
  function FirstFailure(replies: seq<Reply>): (o: Outcome)
    requires !AnyRejected(replies)
    ensures o == Done <==> forall i :: 0 <= i < |replies| ==> Ok(replies[i].code)
    ensures o != Done ==>
      exists i :: 0 <= i < |replies| && !Ok(replies[i].code)
        && (forall j :: 0 <= j < i ==> Ok(replies[j].code)) && o == Classify(replies[i].code)
  {
    if |replies| == 0 then Done
    else if !Ok(replies[0].code) then Classify(replies[0].code)
    else
      assert !AnyRejected(replies[1..]) by {
        forall i | 0 <= i < |replies[1..]| ensures !replies[1..][i].Rejected? {
          assert replies[1..][i] == replies[i + 1];
        }
      }
      var o := FirstFailure(replies[1..]);
      assert forall i :: 0 <= i < |replies[1..]| ==> replies[1..][i] == replies[i + 1];
      o
  }

  /** The message `handleSave` leaves, or `None` when it redirects to the login page instead. */
  function SaveMessage(replies: seq<Reply>): (m: Option<string>)
    ensures AnyRejected(replies) ==> m == Some("Failed to save changes.")
    ensures !AnyRejected(replies) && FirstFailure(replies) == Done ==> m == Some("Contact information updated successfully!")
    ensures !AnyRejected(replies) && FirstFailure(replies) == SessionExpired ==> m.None?
    ensures !AnyRejected(replies) && FirstFailure(replies) == Failed ==> m == Some("Failed to save changes.")
  {
    if AnyRejected(replies) then Some("Failed to save changes.")
    else match FirstFailure(replies)
      case Done => Some("Contact information updated successfully!")
      case SessionExpired => None
      case Failed => Some("Failed to save changes.")
  }

  /** An inbound message as the inbox lists it. */
  datatype Submission = Submission(
    id: nat, name: string, email: string, phone: string, website: string,
    services: string, message: string, createdAt: string, status: Option<string>)

  /** What `JSON.parse(sub.services)` gives: a list, or a syntax error. */
  datatype Parsed = Valid(list: seq<string>) | Invalid

  /** `services`: the parsed list, or the raw text as a one-element list when it is not JSON. */
  function ServicesOf(raw: string, parsed: Parsed): (r: seq<string>)
    ensures parsed.Valid? ==> r == parsed.list
    ensures parsed.Invalid? ==> r == [raw]
  {
    if parsed.Valid? then parsed.list else [raw]
  }

  /** The status badge: green exactly for 'replied'; an empty or missing status reads 'New'. */
  function Badge(status: Option<string>): (r: (bool, string))
    ensures r.0 <==> status == Some("replied")
    ensures Truthy(status) ==> r.1 == status.value
    ensures !Truthy(status) ==> r.1 == "New"
  {
    (status == Some("replied"), Or(status, "New"))
  }

  function ReplySubject(name: string): string {
    "Re: Inquiry from " + name
  }

  function ReplyGreeting(name: string): string {
    "Dear " + name + ",\n\nThank you for contacting Gradevo.\n\n"
  }

  /** The body of a reply: the selected submission's id and address with the typed text. */
  function ReplyBody(sub: Submission, subject: string, message: string): (b: Body)
    ensures b.Json? && |b.members| == 4
    ensures b.members[0] == Member("submission_id", JNum(sub.id)) && b.members[3] == Member("to_email", JStr(sub.email))
  {
    Json([Member("submission_id", JNum(sub.id)), Member("subject", JStr(subject)),
          Member("message", JStr(message)), Member("to_email", JStr(sub.email))])
  }

  class Page {
    var contactInfo: seq<Entry>
    var message: string
    var replyModalOpen: bool
    var selected: Option<Submission>
    var replySubject: string
    var replyMessage: string
    var sendingReply: bool

    constructor()
      ensures contactInfo == Defaults && message == ""
      ensures !replyModalOpen && selected == None && replySubject == "" && replyMessage == "" && !sendingReply
    {
      contactInfo := Defaults;
      message := "";
      replyModalOpen := false;
      selected := None;
      replySubject := "";
      replyMessage := "";
      sendingReply := false;
    }

    /** `fetchContactInfo`, answered with the site content, or `None` when the fetch fails. */
    method FetchContactInfo(data: Option<seq<Entry>>)
      modifies this
      ensures data.Some? ==> contactInfo == Merge(old(contactInfo), data.value)
      ensures data.None? ==> contactInfo == old(contactInfo)
      ensures message == old(message) && replyModalOpen == old(replyModalOpen) && selected == old(selected)
      ensures replySubject == old(replySubject) && replyMessage == old(replyMessage) && sendingReply == old(sendingReply)
    {
      if data.Some? {
        var info := BuildContentMap(data.value);
        var merged := contactInfo;
        for i := 0 to |info|
          invariant merged == AssignAll(contactInfo, info[..i])
        {
          assert info[..i + 1][..i] == info[..i];
          merged := Assign(merged, info[i].key, info[i].value);
        }
        assert info[..|info|] == info;
        contactInfo := merged;
      }
    }

    /** `handleChange`: `{ ...contactInfo, [name]: value }`. */
    method HandleChange(name: string, value: string)
      modifies this
      ensures contactInfo == Assign(old(contactInfo), name, value)
      ensures message == old(message) && replyModalOpen == old(replyModalOpen) && selected == old(selected)
      ensures replySubject == old(replySubject) && replyMessage == old(replyMessage) && sendingReply == old(sendingReply)
    {
      contactInfo := Assign(contactInfo, name, value);
    }

    /** `handleSave`: one write per field, settled in order as `replies`. */
    method HandleSave(replies: seq<Reply>) returns (sent: seq<Request>, effects: seq<Effect>)
      requires |replies| == |contactInfo|
      modifies this
      ensures sent == SaveRequests(contactInfo)
      ensures SaveMessage(replies).Some? ==> message == SaveMessage(replies).value && effects == []
      ensures SaveMessage(replies).None? ==> message == "" && effects == [Alert(SessionExpiredText), Navigate(LoginPage)]
      ensures contactInfo == old(contactInfo) && replyModalOpen == old(replyModalOpen) && selected == old(selected)
      ensures replySubject == old(replySubject) && replyMessage == old(replyMessage) && sendingReply == old(sendingReply)
    {
      message := "";
      effects := [];
      sent := SaveRequests(contactInfo);
      if AnyRejected(replies) {
        message := "Failed to save changes.";
        return;
      }
      var i := 0;
      while i < |replies|
        invariant 0 <= i <= |replies|
        invariant forall j :: 0 <= j < i ==> Ok(replies[j].code)
        invariant message == "" && effects == []
      {
        var code := replies[i].code;
        if !Ok(code) {
          if code == 401 || code == 403 {
            effects := [Alert(SessionExpiredText), Navigate(LoginPage)];
            FirstFailureAt(replies, i);
            return;
          }
          message := "Failed to save changes.";
          FirstFailureAt(replies, i);
          return;
        }
        i := i + 1;
      }
      message := "Contact information updated successfully!";
    }

    /** `openReplyModal(sub)` */
    method OpenReply(sub: Submission)
      modifies this
      ensures replyModalOpen && selected == Some(sub)
      ensures replySubject == ReplySubject(sub.name) && replyMessage == ReplyGreeting(sub.name)
      ensures contactInfo == old(contactInfo) && message == old(message) && sendingReply == old(sendingReply)
    {
      selected := Some(sub);
      replySubject := "Re: Inquiry from " + sub.name;
      replyMessage := "Dear " + sub.name + ",\n\nThank you for contacting Gradevo.\n\n";
      replyModalOpen := true;
    }

    /** `closeReplyModal()` */
    method CloseReply()
      modifies this
      ensures !replyModalOpen && selected == None && replySubject == "" && replyMessage == ""
      ensures contactInfo == old(contactInfo) && message == old(message) && sendingReply == old(sendingReply)
    {
      replyModalOpen := false;
      selected := None;
      replySubject := "";
      replyMessage := "";
    }

    /** `handleSendReply`, whose fetch settles as `reply`. */
    method SendReply(reply: Reply) returns (req: Option<Request>, effects: seq<Effect>)
      modifies this
      ensures old(selected).None? ==>
        (req.None? && effects == []
         && replyModalOpen == old(replyModalOpen) && selected == old(selected)
         && replySubject == old(replySubject) && replyMessage == old(replyMessage) && sendingReply == old(sendingReply))
      ensures old(selected).Some? ==>
        req == Some(Request(Post, ReplyUrl, ReplyBody(old(selected).value, old(replySubject), old(replyMessage))))
        && !sendingReply
      ensures old(selected).Some? && reply.Status? && Ok(reply.code) ==>
        effects == [Alert("Reply sent successfully!"), Refetch(SubmissionsUrl), Refetch(RepliesUrl)]
        && !replyModalOpen && selected == None && replySubject == "" && replyMessage == ""
      ensures old(selected).Some? && !(reply.Status? && Ok(reply.code)) ==>
        effects == [Alert("Failed to send reply")]
        && replyModalOpen == old(replyModalOpen) && selected == old(selected)
        && replySubject == old(replySubject) && replyMessage == old(replyMessage)
      ensures contactInfo == old(contactInfo) && message == old(message)
    {
      if selected.None? {
        return None, [];
      }
      sendingReply := true;
      req := Some(Request(Post, ReplyUrl, ReplyBody(selected.value, replySubject, replyMessage)));
      if reply.Status? && Ok(reply.code) {
        effects := [Alert("Reply sent successfully!")];
        CloseReply();
        effects := effects + [Refetch(SubmissionsUrl), Refetch(RepliesUrl)];
      } else {
        effects := [Alert("Failed to send reply")];
      }
      sendingReply := false;
    }
  }

  /** The loop's early exit at `i` agrees with `FirstFailure`. */
  lemma {:induction false} FirstFailureAt(replies: seq<Reply>, i: nat)
    requires !AnyRejected(replies) && i < |replies| && !Ok(replies[i].code)
    requires forall j :: 0 <= j < i ==> Ok(replies[j].code)
    ensures FirstFailure(replies) == Classify(replies[i].code)
  {
    if i > 0 {
      assert !AnyRejected(replies[1..]) by {
        forall k | 0 <= k < |replies[1..]| ensures !replies[1..][k].Rejected? {
          assert replies[1..][k] == replies[k + 1];
        }
      }
      FirstFailureAt(replies[1..], i - 1);
    }
  }
}
