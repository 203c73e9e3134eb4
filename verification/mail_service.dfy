/**
 * `MailService` and `OtpCode`: the single reusable message the service
 * mutates on every call, the OTP rows it creates and consumes, and the
 * expiry test. Template rendering is a function parameter; the transport
 * is a trace of the messages handed to it, with a flag saying whether it
 * raised.
 */
module Mail {
  import opened Wrappers
  import opened Text
  import opened Domain

  /** Seconds in the ten minutes an OTP stays valid. */
  const OtpLifetime: int := 600

  // ------------------------------------------------------------------- OTPs

  /** The `content_type` half of an OTP's owner. */
  datatype OwnerKind = UserKind | OtherKind(model: string)

  /** The generic owner reference (`content_type`, `object_id`). */
  datatype Owner = Owner(kind: OwnerKind, objectId: Id)

  /** A stored `OtpCode`; `expiresAt` is in seconds. */
  datatype OtpCode = OtpCode(id: Id, owner: Owner, code: string, useFor: string, expiresAt: int)

  /** `has_expired`: strictly past its expiry time. */
  predicate HasExpired(otp: OtpCode, now: int) {
    otp.expiresAt < now
  }

  /** A code is still valid at the very instant it expires, and expired one second later. */
  lemma ExpiryBoundary(otp: OtpCode)
    ensures !HasExpired(otp, otp.expiresAt)
    ensures HasExpired(otp, otp.expiresAt + 1)
  {
  }

  /** The owner an OTP created through `user.otp_codes` gets. */
  function UserOwner(u: User): Owner {
    Owner(UserKind, u.id)
  }

  /** The same id under two owner kinds names two different owners. */
  lemma OwnerKindsDiffer(id: Id, model: string)
    ensures Owner(UserKind, id) != Owner(OtherKind(model), id)
  {
  }

  /** `reciever.otp_codes.filter(otp_code=code)` as a row test. */
  function ForReceiver(receiver: User, code: string): OtpCode -> bool {
    (o: OtpCode) => o.owner == UserOwner(receiver) && o.code == code
  }

  /** The position of the first row, in table order, matching the predicate; `|codes|` when none does. */
  function FirstIndex(codes: seq<OtpCode>, matches: OtpCode -> bool): (k: nat)
    ensures k <= |codes|
    ensures k < |codes| ==> matches(codes[k])
    ensures forall j :: 0 <= j < k ==> !matches(codes[j])
    decreases |codes|
  {
    if codes == [] then 0
    else if matches(codes[0]) then 0
    else 1 + FirstIndex(codes[1..], matches)
  }

  /** `filter(...).first()` */
  function FirstOtp(codes: seq<OtpCode>, matches: OtpCode -> bool): Option<OtpCode> {
    var k := FirstIndex(codes, matches);
    if k < |codes| then Some(codes[k]) else None
  }

  /** `otp.delete()`: every row with that primary key goes. */
  function DeleteOtp(codes: seq<OtpCode>, id: Id): (r: seq<OtpCode>)
    ensures forall o :: o in r <==> o in codes && o.id != id
    ensures |r| <= |codes|
    decreases |codes|
  {
    if codes == [] then []
    else (if codes[0].id == id then [] else [codes[0]]) + DeleteOtp(codes[1..], id)
  }

  /** The `otp_codes` table, with the next primary key to hand out. */
  class OtpTable {
    var codes: seq<OtpCode>
    var nextId: Id

    predicate Valid()
      reads this
    {
      forall i :: 0 <= i < |codes| ==> codes[i].id < nextId
    }

    constructor ()
      ensures codes == [] && Valid()
    {
      codes := [];
      nextId := 0;
    }

    /** `objects.create(...)`: a new row under a fresh key. */
    method Create(owner: Owner, code: string, expiresAt: int) returns (otp: OtpCode)
      requires Valid()
      modifies this
      ensures Valid()
      ensures otp == OtpCode(old(nextId), owner, code, "email", expiresAt)
      ensures codes == old(codes) + [otp]
      ensures forall i :: 0 <= i < |old(codes)| ==> old(codes)[i].id != otp.id
    {
      otp := OtpCode(nextId, owner, code, "email", expiresAt);
      codes := codes + [otp];
      nextId := nextId + 1;
    }

    /** `otp.delete()` */
    method Delete(id: Id)
      requires Valid()
      modifies this
      ensures Valid()
      ensures codes == DeleteOtp(old(codes), id) && nextId == old(nextId)
    {
      codes := DeleteOtp(codes, id);
    }
  }

  // ------------------------------------------------------------------- mail

  /** A context for `render_to_string`. */
  type Context = map<string, string>

  /** `render_to_string(template_name, context)` */
  type Render = (string, Context) -> string

  /** An attachment handed to `attach`. */
  datatype Attachment = Attachment(name: string, content: string, contentType: string)

  /** What the message looks like when `send()` is called. */
  datatype Outgoing = Outgoing(fromEmail: string, subject: string, body: string, subtype: string,
                               to: seq<string>, attachments: seq<Attachment>)

  /** `MailService`: one `EmailMessage` reused by every call. */
  class MailService {
    const fromEmail: string
    var subject: string
    var body: string
    var subtype: string
    var to: seq<string>
    var attachments: seq<Attachment>
    /** Every message handed to the transport, in order. */
    var sent: seq<Outgoing>

    /** `__init__`: the given sender when truthy, else the configured default. */
    constructor (fromEmail: string, defaultFromEmail: string)
      ensures this.fromEmail == (if fromEmail != "" then fromEmail else defaultFromEmail)
      ensures subject == "" && body == "" && subtype == "plain" && to == [] && attachments == [] && sent == []
    {
      this.fromEmail := if fromEmail != "" then fromEmail else defaultFromEmail;
      subject := "";
      body := "";
      subtype := "plain";
      to := [];
      attachments := [];
      sent := [];
    }

    function Message(): Outgoing
      reads this
    {
      Outgoing(fromEmail, subject, body, subtype, to, attachments)
    }

    /**
     * `send_mail`: a message naming an `.html` file is a template rendered
     * as HTML; any other message is the body itself. `transportRaises`
     * says whether `send()` raised (the error reaches the caller).
     */
    method SendMail(subject: string, message: string, to: seq<string>, attachment: Option<Attachment>,
                    context: Context, render: Render, transportRaises: bool) returns (ok: bool)
      modifies this
      ensures this.subject == subject && this.to == to
      ensures EndsWith(message, ".html") ==> body == render(message, context) && subtype == "html"
      ensures !EndsWith(message, ".html") ==> body == message && subtype == old(subtype)
      ensures attachments == old(attachments) + (if attachment.Some? then [attachment.value] else [])
      ensures ok == !transportRaises
      ensures sent == old(sent) + (if ok then [Message()] else [])
    {
      this.subject := subject;
      if EndsWith(message, ".html") {
        body := render(message, context);
        subtype := "html";
      } else {
        body := message;
      }
      this.to := to;
      if attachment.Some? {
        attachments := attachments + [attachment.value];
      }
      ok := Transmit(transportRaises);
    }

    /** `self.mail.send()` */
    method Transmit(transportRaises: bool) returns (ok: bool)
      modifies this
      ensures ok == !transportRaises
      ensures subject == old(subject) && body == old(body) && subtype == old(subtype)
      ensures to == old(to) && attachments == old(attachments)
      ensures sent == old(sent) + (if ok then [Message()] else [])
    {
      if transportRaises {
        return false;
      }
      sent := sent + [Message()];
      return true;
    }

    /**
     * `send_otp`: the code row (owned by the receiver, valid ten minutes)
     * is stored before the message is sent, so it stays when the send
     * raises. `code` is what `generate_otp()` returned.
     */
    method SendOtp(receiver: User, code: string, now: int, table: OtpTable, render: Render, transportRaises: bool)
      returns (ok: bool)
      requires table.Valid()
      modifies this, table
      ensures table.Valid()
      ensures table.codes == old(table.codes) + [OtpCode(old(table.nextId), UserOwner(receiver), code, "email", now + OtpLifetime)]
      ensures subject == "OTP Code" && subtype == "html" && to == [receiver.email] && attachments == old(attachments)
      ensures body == render("mails/otp.html", map["otp" := code])
      ensures ok == !transportRaises
      ensures sent == old(sent) + (if ok then [Message()] else [])
    {
      subject := "OTP Code";
      var otp := table.Create(UserOwner(receiver), code, now + OtpLifetime);
      body := render("mails/otp.html", map["otp" := code]);
      subtype := "html";
      to := [receiver.email];
      ok := Transmit(transportRaises);
    }

    /** `verify_otp`: the receiver's first row with that code; consumed when still valid. */
    method VerifyOtp(receiver: User, code: string, now: int, table: OtpTable) returns (valid: bool)
      requires table.Valid()
      modifies table
      ensures table.Valid()
      ensures var found := FirstOtp(old(table.codes), ForReceiver(receiver, code));
        && (valid <==> found.Some? && !HasExpired(found.value, now))
        && (valid ==> table.codes == DeleteOtp(old(table.codes), found.value.id))
        && (!valid ==> table.codes == old(table.codes))
    ensures (valid, table.codes) == Verify(old(table.codes), receiver, code, now)
    {
      var found := FirstOtp(table.codes, ForReceiver(receiver, code));
      if found.None? || HasExpired(found.value, now) {
        return false;
      }
      table.Delete(found.value.id);
      return true;
    }
  }

  /** The outcome `verify_otp` computes over a table, and the table it leaves. */
  function Verify(codes: seq<OtpCode>, receiver: User, code: string, now: int): (r: (bool, seq<OtpCode>))
    ensures r.0 ==> exists o :: o in codes && o.owner == UserOwner(receiver) && o.code == code && !HasExpired(o, now)
    ensures !r.0 ==> r.1 == codes
    ensures forall x :: x in r.1 ==> x in codes
  {
    var found := FirstOtp(codes, ForReceiver(receiver, code));
    if found.None? || HasExpired(found.value, now) then (false, codes)
    else (true, DeleteOtp(codes, found.value.id))
  }

  /** Primary keys are unique in the table. */
  predicate UniqueIds(codes: seq<OtpCode>) {
    forall i, j :: 0 <= i < j < |codes| ==> codes[i].id != codes[j].id
  }

  /**
   * A code is single use: once a verification succeeds, verifying the same
   * code again fails, provided the receiver held that code only once.
   */
  lemma {:induction false} OtpSingleUse(codes: seq<OtpCode>, receiver: User, code: string, now: int, later: int)
    requires UniqueIds(codes)
    requires forall i, j :: 0 <= i < j < |codes| && codes[i].owner == UserOwner(receiver) && codes[i].code == code ==>
      !(codes[j].owner == UserOwner(receiver) && codes[j].code == code)
    requires Verify(codes, receiver, code, now).0
    ensures !Verify(Verify(codes, receiver, code, now).1, receiver, code, later).0
  {
    var matches := ForReceiver(receiver, code);
    var k := FirstIndex(codes, matches);
    var found := FirstOtp(codes, matches);
    var rest := DeleteOtp(codes, found.value.id);
    forall o | o in rest ensures !matches(o) {
      var j :| 0 <= j < |codes| && codes[j] == o;
      if matches(o) {
        if j < k {
          assert false;
        } else if j > k {
          assert false;
        }
      }
    }
  }

  /**
   * A code just issued to a receiver verifies until its expiry time,
   * provided the receiver held no earlier row with the same code.
   */
  lemma IssuedCodeVerifies(codes: seq<OtpCode>, receiver: User, id: Id, code: string, now: int, at: int)
    requires forall i :: 0 <= i < |codes| ==> !(codes[i].owner == UserOwner(receiver) && codes[i].code == code)
    requires at <= now + OtpLifetime
    ensures var issued := OtpCode(id, UserOwner(receiver), code, "email", now + OtpLifetime);
      Verify(codes + [issued], receiver, code, at) == (true, DeleteOtp(codes + [issued], id))
  {
    var issued := OtpCode(id, UserOwner(receiver), code, "email", now + OtpLifetime);
    var all := codes + [issued];
    var k := FirstIndex(all, ForReceiver(receiver, code));
    assert all[|codes|] == issued;
  }

  /** A failed verification leaves the table as it was; a successful one removes exactly one code's row. */
  lemma VerifyOnlyConsumesOnSuccess(codes: seq<OtpCode>, receiver: User, code: string, now: int)
    ensures !Verify(codes, receiver, code, now).0 ==> Verify(codes, receiver, code, now).1 == codes
    ensures Verify(codes, receiver, code, now).0 ==>
      exists o :: o in codes && o.owner == UserOwner(receiver) && o.code == code && !HasExpired(o, now)
        && (forall x :: x in Verify(codes, receiver, code, now).1 <==> x in codes && x.id != o.id)
  {
    var found := FirstOtp(codes, ForReceiver(receiver, code));
    if Verify(codes, receiver, code, now).0 {
      assert found.value in codes;
    }
  }
}
