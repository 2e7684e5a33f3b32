/** The handler of outbox events, which mails verification links, and the processor that drives
    it (internal/handler/event/dispatcher.go, internal/outbox/processor.go). */
module Dispatch {
  import opened Core
  import opened Codec
  import opened Crypto
  import opened OutboxTable
  import opened Backoff
  import opened Workers
  import Verifications

  const EMAIL_VERIFICATION_REQUESTED_TYPE := "email.verification.requested"

  datatype Message = Message(recipient: string, url: string)

  // ---------------------------------------------------------------------------------------
  // The link
  // ---------------------------------------------------------------------------------------

  function TrimRight(s: string, c: char): string {
    if s != "" && s[|s| - 1] == c then TrimRight(s[..|s| - 1], c) else s
  }

  const LINK_PATH := "/auth/verify-email"

  function Link(baseURL: string, raw: string): string
    requires ByteText(raw)
  {
    baseURL + LINK_PATH + "?token=" + QueryEscape(raw)
  }

  lemma LinkIs(baseURL: string, raw: string)
    requires ByteText(raw)
    ensures Link(baseURL, raw) == baseURL + "/auth/verify-email?token=" + QueryEscape(raw)
  {
    assert LINK_PATH + "?token=" == "/auth/verify-email?token=";
  }

  const LINK_KEY := LINK_PATH + "?token"

  lemma LinkParts(baseURL: string, raw: string)
    requires ByteText(raw)
    ensures Link(baseURL, raw) == baseURL + WithValue(LINK_KEY, raw)
    ensures Link(baseURL, raw) == baseURL + LINK_PATH + "?" + WithValue("token", raw)
    ensures '?' !in LINK_PATH && '#' !in LINK_PATH
    ensures |LINK_KEY| > 15 && '=' !in LINK_KEY && '&' !in LINK_KEY && '#' !in LINK_KEY
  {
    assert "?token=" == "?token" + "=" && "?token=" == "?" + "token" + "=";
  }

  /** The query parameter `token` of a mailed link is the raw token again, whatever it is. */
  lemma LinkCarriesToken(baseURL: string, raw: string)
    requires ByteText(raw) && '?' !in baseURL && '#' !in baseURL
    ensures QueryParameter(Link(baseURL, raw), "token") == Some(raw)
  {
    LinkParts(baseURL, raw);
    QueryRoundTrip(baseURL + LINK_PATH, "token", raw);
  }

  /** Links work for any two tokens exactly when the base URL holds neither '?' nor '#'; with one
      of them, at most a single token would ever survive. */
  lemma LinksWorkExactlyFor(baseURL: string, raw: string, other: string)
    requires ByteText(raw) && ByteText(other) && raw != other
    ensures (&& QueryParameter(Link(baseURL, raw), "token") == Some(raw)
             && QueryParameter(Link(baseURL, other), "token") == Some(other))
       <==> '?' !in baseURL && '#' !in baseURL
  {
    if '?' !in baseURL && '#' !in baseURL {
      LinkCarriesToken(baseURL, raw);
      LinkCarriesToken(baseURL, other);
    } else if QueryParameter(Link(baseURL, raw), "token") == Some(raw) {
      LinkParts(baseURL, raw);
      LinkParts(baseURL, other);
      BuriedParameter(baseURL, LINK_KEY, "token", raw, other);
    }
  }

  // ---------------------------------------------------------------------------------------
  // Handling as two steps: read, then send
  // ---------------------------------------------------------------------------------------

  datatype Reading = Stop(result: Result) | Loaded(recipient: string, id: Uuid, ciphertext: Bytes, expiresAt: Time)

  /** Decode the payload and read the verification. */
  function ReadStep(
      verifications: map<Uuid, Verifications.VerificationRow>, event: Event, readFails: bool): Reading
  {
    if event.eventType != EMAIL_VERIFICATION_REQUESTED_TYPE then Stop(NonRetryable("unsupported event type"))
    else if event.payload.Malformed? then Stop(NonRetryable("malformed payload"))
    else if event.payload.verificationId == NIL_UUID then Stop(NonRetryable("verification ID is empty"))
    else if event.payload.recipient == "" then Stop(NonRetryable("verification recipient is empty"))
    else
      match Verifications.GetForDelivery(verifications, event.payload.verificationId, readFails)
      case DeliveryInactive => Stop(Succeeded)
      case Deliver(id, ciphertext, expiresAt) => Loaded(event.payload.recipient, id, ciphertext, expiresAt)
      case _ => Stop(Retryable("failed to get verification delivery data"))
  }

  /** What becomes of a message that is handed to the sender. */
  datatype Fate = Delivered | Lost | DeliveredUnacked

  /** Check the expiry, open the token and send; the answer and the message that left, if any. */
  function SendStep(aead: Aead, baseURL: string, reading: Reading, now: Time, fate: Fate): (Result, Option<Message>)
    requires reading.Loaded?
  {
    if now >= reading.expiresAt then (Succeeded, None)
    else
      match Decrypted(aead, reading.ciphertext, reading.id)
      case Plain(token) =>
        var message := Message(reading.recipient, Link(baseURL, BytesText(token)));
        (match fate
         case Delivered => (Succeeded, Some(message))
         case Lost => (Retryable("failed to send verification email"), None)
         case DeliveredUnacked => (Retryable("failed to send verification email"), Some(message)))
      case _ => (Retryable("failed to decrypt verification token"), None)
  }

  function HandleStep(
      verifications: map<Uuid, Verifications.VerificationRow>, aead: Aead, baseURL: string,
      event: Event, readFails: bool, now: Time, fate: Fate)
      : (Result, Option<Message>)
  {
    var reading := ReadStep(verifications, event, readFails);
    if reading.Stop? then (reading.result, None) else SendStep(aead, baseURL, reading, now, fate)
  }

  /** What `Handle` answers, case by case: what it does not understand it refuses for good; a missing
      row and a failed read are worth another try; a settled, expired or erased row is a success
      without a mail; otherwise the answer is the sender's, if the token opens. */
  lemma HandleAnswers(
      verifications: map<Uuid, Verifications.VerificationRow>, aead: Aead, baseURL: string,
      event: Event, readFails: bool, now: Time, fate: Fate)
    ensures var (result, message) := HandleStep(verifications, aead, baseURL, event, readFails, now, fate);
            var readable := && event.eventType == "email.verification.requested" && event.payload.Object?
                            && event.payload.verificationId != NIL_UUID && event.payload.recipient != "";
            if !readable then result.NonRetryable? && message == None
            else
              var id := event.payload.verificationId;
              if readFails || id !in verifications then result.Retryable? && message == None
              else
                var v := verifications[id];
                if v.usedAt.Some? || v.revokedAt.Some? || v.ciphertext == None || v.ciphertext == Some([])
                   || v.expiresAt <= now
                then result == Succeeded && message == None
                else
                  match Decrypted(aead, v.ciphertext.value, id)
                  case Plain(token) =>
                    && (if fate == Delivered then result == Succeeded else result.Retryable?)
                    && message == if fate == Lost then None
                                  else Some(Message(event.payload.recipient, Link(baseURL, BytesText(token))))
                  case _ => result.Retryable? && message == None
  {
  }

  /** The text without the characters `c` at its end. */
  lemma {:induction false} TrimRightIs(s: string, c: char) returns (cut: string)
    ensures s == TrimRight(s, c) + cut && (forall i :: 0 <= i < |cut| ==> cut[i] == c)
    ensures TrimRight(s, c) != "" ==> TrimRight(s, c)[|TrimRight(s, c)| - 1] != c
  {
    if s != "" && s[|s| - 1] == c {
      var rest := TrimRightIs(s[..|s| - 1], c);
      cut := rest + [c];
    } else {
      cut := "";
    }
  }

  // ---------------------------------------------------------------------------------------
  // The dispatcher
  // ---------------------------------------------------------------------------------------

  class Sender {
    var outgoing: seq<Message>

    constructor ()
      ensures outgoing == []
    {
      outgoing := [];
    }

    method SendVerification(message: Message, fate: Fate) returns (ok: bool)
      modifies this
      ensures ok <==> fate == Delivered
      ensures outgoing == if fate == Lost then old(outgoing) else old(outgoing) + [message]
    {
      if fate != Lost {
        outgoing := outgoing + [message];
      }
      return fate == Delivered;
    }
  }

  class Dispatcher {
    const emailSender: Sender
    const deliveryRepository: Verifications.AuthRepository
    const tokenCipher: Cipher
    const baseURL: string

    constructor (emailSender: Sender, deliveryRepository: Verifications.AuthRepository, tokenCipher: Cipher,
                 baseURL: string)
      ensures this.emailSender == emailSender && this.deliveryRepository == deliveryRepository
      ensures this.tokenCipher == tokenCipher && this.baseURL == TrimRight(baseURL, '/')
    {
      this.emailSender, this.deliveryRepository, this.tokenCipher := emailSender, deliveryRepository, tokenCipher;
      this.baseURL := TrimRight(baseURL, '/');
    }

    method Handle(event: Event, readFails: bool, now: Time, fate: Fate) returns (result: Result)
      modifies emailSender
      ensures var (r, message) := HandleStep(
                deliveryRepository.verifications, tokenCipher.aead, baseURL, event, readFails, now, fate);
              && result == r
              && emailSender.outgoing ==
                   old(emailSender.outgoing) + if message.Some? then [message.value] else []
    {
      if event.eventType != EMAIL_VERIFICATION_REQUESTED_TYPE {
        return NonRetryable("unsupported event type");
      }
      if event.payload.Malformed? {
        return NonRetryable("malformed payload");
      }
      if event.payload.verificationId == NIL_UUID {
        return NonRetryable("verification ID is empty");
      }
      if event.payload.recipient == "" {
        return NonRetryable("verification recipient is empty");
      }
      var data := deliveryRepository.ReadForDelivery(event.payload.verificationId, readFails);
      if data.DeliveryInactive? {
        return Succeeded;
      }
      if !data.Deliver? {
        return Retryable("failed to get verification delivery data");
      }
      if !(now < data.expiresAt) {
        return Succeeded;
      }
      var rawToken := tokenCipher.Decrypt(data.ciphertext, data.id);
      if !rawToken.Plain? {
        return Retryable("failed to decrypt verification token");
      }
      var url := Link(baseURL, BytesText(rawToken.bytes));
      var ok := emailSender.SendVerification(Message(event.payload.recipient, url), fate);
      return if ok then Succeeded else Retryable("failed to send verification email");
    }
  }

  // ---------------------------------------------------------------------------------------
  // The processor
  // ---------------------------------------------------------------------------------------

  /** The rows after a worker claimed `id` at `now` and made its mark. */
  function Worked(
      rows: Rows, id: Uuid, lockId: Uuid, now: Time, result: Result, markedAt: Time, draw: Draw): Rows
    requires id in rows
  {
    Marked(rows[id := Claimed(rows[id], lockId, now)], id, lockId,
           MarkFor(result, rows[id].attempts + 1, markedAt, draw))
  }

  /** One claim by `ProcessOne`: which event, what the handler did with it, and the mark. */
  ghost predicate WorkedOn(
      rows: Rows, after: Rows, id: Uuid, lockId: Uuid, now: Time, skipped: set<Uuid>,
      result: Result, markedAt: Time, draw: Draw, markFault: Fault)
  {
    && Candidate(rows, now, now - LOCK_LEASE, skipped, id)
    && after == if markFault.FailsAt? then rows[id := Claimed(rows[id], lockId, now)]
                else Worked(rows, id, lockId, now, result, markedAt, draw)
  }

  /** How `ProcessOne` ends: nothing to do, a claim that gave no event, or an event and what became
      of its mark. */
  datatype WorkReply = NothingToDo | ClaimError | WorkDone(event: Event, mark: MarkReply)

  class Processor {
    const repository: OutboxRepository
    const handler: Dispatcher

    constructor (repository: OutboxRepository, handler: Dispatcher)
      ensures this.repository == repository && this.handler == handler
    {
      this.repository, this.handler := repository, handler;
    }

    /** What the handler makes of an event. */
    ghost function Handled(event: Event, readFails: bool, handledAt: Time, fate: Fate): (Result, Option<Message>)
      reads handler.deliveryRepository
    {
      HandleStep(handler.deliveryRepository.verifications, handler.tokenCipher.aead, handler.baseURL,
                 event, readFails, handledAt, fate)
    }

    method MarkResult(event: Event, lockId: Uuid, result: Result, markedAt: Time, draw: Draw, fault: Fault)
      returns (reply: MarkReply)
      modifies repository
      ensures var mark := MarkFor(result, event.attempts, markedAt, draw);
              && reply == MarkAnswer(old(repository.rows), event.id, lockId, mark, fault)
              && repository.rows == if fault.FailsAt? then old(repository.rows)
                                    else Marked(old(repository.rows), event.id, lockId, mark)
      ensures reply.Done? && old(repository.rows)[event.id].attempts == event.attempts
              && old(repository.rows)[event.id].failedAt.None? ==>
                && event.id in repository.rows
                && Concluded(repository.rows[event.id], result, event.attempts, markedAt)
    {
      DelayBounds(event.attempts, draw);
      match result {
        case Succeeded =>
          reply := repository.MarkProcessed(event.id, lockId, markedAt, fault);
        case NonRetryable(error) =>
          reply := repository.MarkAsFailed(event.id, lockId, markedAt, error, fault);
        case Retryable(error) =>
          if event.attempts >= MAX_ATTEMPTS {
            reply := repository.MarkAsFailed(event.id, lockId, markedAt, error, fault);
          } else {
            var retryAt := markedAt + RetryDelay(event.attempts, draw);
            reply := repository.ScheduleRetry(event.id, lockId, retryAt, error, fault);
          }
      }
    }

    method HandleAndMark(event: Event, lockId: Uuid, readFails: bool, handledAt: Time, fate: Fate,
                         markedAt: Time, draw: Draw, fault: Fault)
      returns (reply: MarkReply)
      modifies repository, handler.emailSender
      ensures var (result, message) := Handled(event, readFails, handledAt, fate);
              var mark := MarkFor(result, event.attempts, markedAt, draw);
              && reply == MarkAnswer(old(repository.rows), event.id, lockId, mark, fault)
              && repository.rows ==
                   (if fault.FailsAt? then old(repository.rows)
                    else Marked(old(repository.rows), event.id, lockId, mark))
              && handler.emailSender.outgoing ==
                   old(handler.emailSender.outgoing) + if message.Some? then [message.value] else []
    {
      var result := handler.Handle(event, readFails, handledAt, fate);
      reply := MarkResult(event, lockId, result, markedAt, draw, fault);
    }

    /** One claim, one handling, one mark.  The clock is read three times. */
    method ProcessOne(lockId: Uuid, now: Time, skipped: set<Uuid>, claimFault: Fault,
                      readFails: bool, handledAt: Time, fate: Fate,
                      markedAt: Time, draw: Draw, markFault: Fault)
      returns (reply: WorkReply)
      modifies repository, handler.emailSender
      ensures !reply.WorkDone? ==> handler.emailSender.outgoing == old(handler.emailSender.outgoing)
      ensures reply.NothingToDo? ==>
                && repository.rows == old(repository.rows)
                && NothingClaimable(old(repository.rows), now, now - LOCK_LEASE, skipped)
      ensures reply.ClaimError? ==>
                if claimFault.FailsAt? then repository.rows == old(repository.rows)
                else
                  && claimFault.CommitUnacked?
                  && TookSome(old(repository.rows), lockId, now, now - LOCK_LEASE, skipped, repository.rows)
      ensures reply.WorkDone? ==>
                var event := reply.event;
                var (result, message) := Handled(event, readFails, handledAt, fate);
                && event.id in old(repository.rows)
                && event == EventOf(event.id, Claimed(old(repository.rows)[event.id], lockId, now))
                && WorkedOn(old(repository.rows), repository.rows, event.id, lockId, now, skipped,
                            result, markedAt, draw, markFault)
                && reply.mark == (if markFault.Healthy? then Done else MarkFailed)
                && repository.rows.Keys == old(repository.rows).Keys
                && (forall id :: id in repository.rows && id != event.id ==>
                      repository.rows[id] == old(repository.rows)[id])
                && (!markFault.FailsAt? ==>
                      Concluded(repository.rows[event.id], result, old(repository.rows)[event.id].attempts + 1, markedAt))
                && handler.emailSender.outgoing ==
                     old(handler.emailSender.outgoing) + if message.Some? then [message.value] else []
    {
      var claim := repository.ClaimNext(lockId, now, now - LOCK_LEASE, skipped, claimFault);
      if !claim.Got? {
        return if claim.NoEvents? then NothingToDo else ClaimError;
      }
      var mark := HandleAndMark(claim.event, lockId, readFails, handledAt, fate, markedAt, draw, markFault);
      DelayBounds(claim.event.attempts, draw);
      return WorkDone(claim.event, mark);
    }
  }
}
