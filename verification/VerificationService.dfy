/** Preparing, resending and confirming email verifications
    (internal/service/auth/service.go).  Addresses arrive normalised and validated. */
module VerificationService {
  import opened Core
  import opened Codec
  import opened Crypto
  import opened OutboxTable
  import opened Verifications
  import opened Dispatch

  /** What the random sources deliver for one verification. */
  datatype Draws = Draws(id: Uuid, random: Bytes, nonce: Bytes, eventId: Uuid)

  /** The same when a source may fail. */
  datatype Sources = Sources(id: Uuid, random: Option<Bytes>, nonce: Option<Bytes>, eventId: Uuid)

  function DrawsOf(sources: Sources): Option<Draws> {
    if sources.random.Some? && sources.nonce.Some?
    then Some(Draws(sources.id, sources.random.value, sources.nonce.value, sources.eventId))
    else None
  }

  function RawToken(draws: Draws): (raw: string)
    ensures ByteText(raw)
  {
    Base64(draws.random)
  }

  /** The row to insert: only the hash and the encrypted token leave the service. */
  function VerificationOf(hash: string -> Hash, aead: Aead, draws: Draws, now: Time, lifetime: Time): VerificationInput {
    VerificationInput(
      draws.id, hash(RawToken(draws)),
      Encrypted(aead, draws.nonce, TextBytes(RawToken(draws)), draws.id), now + lifetime)
  }

  /** The event that goes with it. */
  function EventFor(draws: Draws, email: string, now: Time): EventInput {
    EventInput(draws.eventId, EMAIL_VERIFICATION_REQUESTED_TYPE, Object(draws.id, email), now, now)
  }

  class Service {
    const repository: AuthRepository
    const tokenGenerator: Generator
    const tokenCipher: Cipher
    const lifetime: Time

    constructor (repository: AuthRepository, tokenGenerator: Generator, tokenCipher: Cipher, lifetime: Time)
      ensures this.repository == repository && this.tokenGenerator == tokenGenerator
      ensures this.tokenCipher == tokenCipher && this.lifetime == lifetime
    {
      this.repository, this.tokenGenerator, this.tokenCipher := repository, tokenGenerator, tokenCipher;
      this.lifetime := lifetime;
    }

    /** What a preparation makes of its draws; None when a random source failed. */
    ghost function Prepared(email: string, now: Time, sources: Sources): Option<(VerificationInput, EventInput)> {
      match DrawsOf(sources)
      case None => None
      case Some(draws) =>
        Some((VerificationOf(tokenGenerator.hash, tokenCipher.aead, draws, now, lifetime), EventFor(draws, email, now)))
    }

    ghost predicate Fits(sources: Sources) {
      && (sources.random.Some? ==> |sources.random.value| == TOKEN_SIZE)
      && (sources.nonce.Some? ==> |sources.nonce.value| == tokenCipher.aead.nonceSize)
    }

    method PrepareEmailVerification(email: string, now: Time, sources: Sources)
      returns (prepared: Option<(VerificationInput, EventInput)>)
      requires Fits(sources)
      ensures prepared == Prepared(email, now, sources)
      ensures prepared.Some? <==> sources.random.Some? && sources.nonce.Some?
      ensures prepared.Some? ==>
                var (v, e) := prepared.value;
                && v.id == sources.id && v.expiresAt == now + lifetime
                && v.tokenHash == tokenGenerator.hash(Base64(sources.random.value))
                && v.ciphertext == sources.nonce.value + tokenCipher.aead.seal(
                     sources.nonce.value, TextBytes(Base64(sources.random.value)), sources.id)
                && e == EventInput(sources.eventId, "email.verification.requested", Object(sources.id, email), now, now)
    {
      var token := tokenGenerator.Generate(sources.random);
      if token.None? {
        return None;
      }
      var raw, hash := token.value.0, token.value.1;
      var ciphertext := tokenCipher.Encrypt(TextBytes(raw), sources.id, sources.nonce);
      if ciphertext.None? {
        return None;
      }
      assert raw == RawToken(DrawsOf(sources).value);
      var verification := VerificationInput(sources.id, hash, ciphertext.value, now + lifetime);
      var event := EventInput(
        sources.eventId, EMAIL_VERIFICATION_REQUESTED_TYPE, Object(sources.id, email), now, now);
      return Some((verification, event));
    }

    method Register(userId: Uuid, email: string, now: Time, sources: Sources, fault: Fault)
      returns (reply: CreateReply)
      requires Fits(sources)
      modifies repository
      ensures (repository.Db(), reply) ==
                match Prepared(email, now, sources)
                case None => (old(repository.Db()), CreateFailed)
                case Some((verification, event)) =>
                  CreateAttempt(old(repository.Db()), CreateUserInput(userId, email, now, verification, event), fault)
    {
      var prepared := PrepareEmailVerification(email, now, sources);
      if prepared.None? {
        return CreateFailed;
      }
      var (verification, event) := prepared.value;
      reply := repository.CreateUser(CreateUserInput(userId, email, now, verification, event), fault);
    }

    method ResendVerification(email: string, now: Time, sources: Sources, fault: Fault) returns (reply: ResendReply)
      requires Fits(sources)
      modifies repository
      ensures (repository.Db(), reply) ==
                match Prepared(email, now, sources)
                case None => (old(repository.Db()), ResendFailed)
                case Some((verification, event)) =>
                  ResendAttempt(old(repository.Db()), ResendInput(email, now, verification, event), fault)
    {
      var prepared := PrepareEmailVerification(email, now, sources);
      if prepared.None? {
        return ResendFailed;
      }
      var (verification, event) := prepared.value;
      reply := repository.ResendVerification(ResendInput(email, now, verification, event), fault);
    }

    method ConfirmEmail(rawToken: string, now: Time, fault: Fault) returns (reply: ConfirmReply)
      modifies repository
      ensures (repository.Db(), reply) ==
                if rawToken == "" then (old(repository.Db()), InvalidToken)
                else ConfirmAttempt(old(repository.Db()), tokenGenerator.hash(rawToken), now, fault)
    {
      if rawToken == "" {
        return InvalidToken;
      }
      reply := repository.ConfirmEmail(tokenGenerator.hash(rawToken), now, fault);
    }
  }

  /** The token of a row opens again under the row's own id, and under no other. */
  lemma TokenOpensForItsRow(hash: string -> Hash, aead: Aead, draws: Draws, now: Time, lifetime: Time, id: Uuid)
    requires Sound(aead) && |draws.nonce| == aead.nonceSize
    ensures var v := VerificationOf(hash, aead, draws, now, lifetime);
            && Decrypted(aead, v.ciphertext, v.id) == Plain(TextBytes(RawToken(draws)))
            && v.ciphertext != []
            && (id != v.id ==> Decrypted(aead, v.ciphertext, id) == NotAuthentic)
  {
  }
}
