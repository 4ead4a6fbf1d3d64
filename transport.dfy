/**
  The mail transport behind `sendEmail` (server.js:31-80), seen from the
  handlers: a call that either delivers a message or throws. The Mailjet
  REST exchange itself is not modelled. A call to an absent or `null`
  address always throws (server.js:48); for any other call the environment
  chooses the outcome. Every call is recorded in the outbox.
 */
module Transport {
  import opened Values

  /** `to` argument of `sendEmail`: a caller-supplied address, or the
      quality team's address taken from the environment. */
  datatype Recipient = Address(address: Field) | QualityTeam

  datatype Mail = Mail(to: Recipient, subject: string, text: string)

  /** A mail to an absent or `null` address: `sendEmail` throws on
      `to.split('@')` before it reaches Mailjet. */
  predicate Unaddressed(m: Mail) {
    m.to.Address? && !m.to.address.Str?
  }

  /** One call of `sendEmail` and whether it resolved (true) or threw. */
  datatype Attempt = Attempt(mail: Mail, delivered: bool)

  /** How a mail route answers: 200 `{success: true}`, 400 for missing
      fields, 500 `{success: false}` when the transport threw. `Crashed`
      stands for a handler that threw before its `try` block; what the
      client then receives depends on the Express and Node versions and is
      not modelled. */
  datatype Reply = Sent | MissingFields | SendFailed | Crashed

  function StatusCode(r: Reply): (code: nat)
    requires !r.Crashed?
    ensures r.Sent? <==> code == 200
    ensures r.MissingFields? <==> code == 400
    ensures r.SendFailed? <==> code == 500
  {
    match r
    case Sent => 200
    case MissingFields => 400
    case SendFailed => 500
  }

  /** One more call of `sendEmail` with `m`, answered 200 when it resolved
      and 500 when it threw. */
  ghost predicate Dispatched(before: seq<Attempt>, after: seq<Attempt>, m: Mail, reply: Reply) {
    && |after| == |before| + 1
    && after[..|before|] == before
    && after[|before|].mail == m
    && reply == (if after[|before|].delivered then Sent else SendFailed)
  }

  class Mailer {
    /** Every call of `sendEmail` made so far, oldest first. */
    var outbox: seq<Attempt>

    constructor ()
      ensures outbox == []
    {
      outbox := [];
    }

    /** `await sendEmail(to, subject, text)`: it throws for an absent or
        `null` address; otherwise the outcome is not under the model's
        control. Either way it is recorded with the message. */
    method Send(m: Mail) returns (delivered: bool)
      modifies this
      ensures outbox == old(outbox) + [Attempt(m, delivered)]
      ensures Unaddressed(m) ==> !delivered
    {
      if Unaddressed(m) {
        delivered := false;
      } else {
        delivered := *;
      }
      outbox := outbox + [Attempt(m, delivered)];
    }

    /** The `try { await sendEmail(...); res.json({success: true}) } catch
        { res.status(500)... }` shape shared by the single-send routes. */
    method Dispatch(m: Mail) returns (reply: Reply)
      modifies this
      ensures Dispatched(old(outbox), outbox, m, reply)
      ensures Unaddressed(m) ==> reply == SendFailed
    {
      var delivered := Send(m);
      reply := if delivered then Sent else SendFailed;
    }
  }
}
