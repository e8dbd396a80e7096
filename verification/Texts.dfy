// What the text of a command means, field by field.
module Texts {
  import opened Base
  import opened MoneyModel
  import opened Wagering
  import opened Process
  import MoneyText

  // The name by which a provider calls each kind.
  function KindName(k: Kind): string {
    match k
    case Bet => "BET"
    case Win => "WIN"
    case Loss => "LOSS"
    case Refund => "REFUND"
    case Rollback => "ROLLBACK"
    case Opening => "OPENING"
  }

  // Each external kind is written by its own name and by no other text, and no text opens a wallet.
  lemma KindParsesItsName(raw: string, k: Kind)
    ensures ParseExternalKind(raw) == Ok(k) <==> k != Opening && raw == KindName(k)
    ensures ParseExternalKind(raw).Ok? <==> raw in {"BET", "WIN", "LOSS", "REFUND", "ROLLBACK"}
  {
  }

  // The pairs of a reversal and what it may undo.
  lemma EligibleExactly(reversal: Kind, referenced: Kind)
    requires reversal in {Refund, Rollback}
    ensures EligibleForReversal(reversal, referenced) <==>
            (reversal, referenced) in {(Refund, Bet), (Rollback, Bet), (Rollback, Win), (Rollback, Refund)}
  {
  }

  predicate ThreeCapitals(s: string) {
    |s| == 3 && 'A' <= s[0] <= 'Z' && 'A' <= s[1] <= 'Z' && 'A' <= s[2] <= 'Z'
  }

  // What each kind demands of its amount and reference.
  predicate FieldsSuit(kind: string, minor: int64, refExternal: string) {
    || (kind == "BET" && minor > 0 && refExternal == "")
    || (kind == "WIN" && minor > 0)
    || (kind == "LOSS" && minor == 0 && refExternal == "")
    || (kind in {"REFUND", "ROLLBACK"} && minor > 0 && refExternal != "")
  }

  // A command whose text denotes this request.
  predicate Denotes(codec: Codec, c: Command, req: Request) {
    && req.cmd == c && c.key != "" && c.provider != "" && c.externalId != ""
    && req.kind != Opening && c.kind == KindName(req.kind)
    && (codec.parseId)(c.walletId) == Some(req.walletId) && req.walletId != 0
    && (codec.parseId)(c.playerId) == Some(req.playerId) && req.playerId != 0
    && req.amount.minor != MIN_INT64 && c.amount == MoneyText.Format(req.amount.minor)
    && req.amount.currency == c.currency && ThreeCapitals(c.currency)
    && FieldsSuit(c.kind, req.amount.minor, c.refExternal)
    && req.hash == (codec.digest)(Fields(c.provider, c.externalId, c.playerId, c.walletId, c.round, c.game, c.kind, c.amount,
                                         c.currency, c.refExternal))
  }

  lemma AmountText(raw: string, v: int64)
    ensures MoneyText.ParseAmount(raw) == Ok(v) <==> v != MIN_INT64 && raw == MoneyText.Format(v)
  {
    MoneyText.ParseAfterFormat(v);
    if MoneyText.ParseAmount(raw) == Ok(v) {
      MoneyText.FormatAfterParse(raw);
    }
  }

  lemma DenotedParses(codec: Codec, c: Command, req: Request)
    requires Denotes(codec, c, req)
    ensures Parse(codec, c) == Ok(req)
  {
    KindParsesItsName(c.kind, req.kind);
    AmountText(c.amount, req.amount.minor);
    assert MoneyText.ParseMoney(c.amount, c.currency) == Ok(req.amount);
  }

  lemma ParsedIsDenoted(codec: Codec, c: Command)
    requires Parse(codec, c).Ok?
    ensures Denotes(codec, c, Parse(codec, c).value)
  {
    var req := Parse(codec, c).value;
    KindParsesItsName(c.kind, req.kind);
    AmountText(c.amount, req.amount.minor);
  }

  // A command parses to a request exactly when its text denotes it.
  lemma ParsesExactly(codec: Codec, c: Command, req: Request)
    ensures Parse(codec, c) == Ok(req) <==> Denotes(codec, c, req)
  {
    if Parse(codec, c) == Ok(req) {
      ParsedIsDenoted(codec, c);
    }
    if Denotes(codec, c, req) {
      DenotedParses(codec, c, req);
    }
  }

  // Two commands hash alike exactly when each of the ten business fields agrees, if the digest
  // tells different fields apart.
  lemma HashesAgreeExactly(codec: Codec, a: Command, b: Command)
    requires forall f: Fields, g: Fields :: (codec.digest)(f) == (codec.digest)(g) ==> f == g
    ensures PayloadHash(codec, a) == PayloadHash(codec, b) <==>
            && a.provider == b.provider && a.externalId == b.externalId && a.playerId == b.playerId && a.walletId == b.walletId
            && a.round == b.round && a.game == b.game && a.kind == b.kind && a.amount == b.amount && a.currency == b.currency
            && a.refExternal == b.refExternal
  {
  }

  // A denoted request becomes a new transaction exactly when the rest of its origin is there.
  lemma AcceptedExactly(codec: Codec, c: Command, req: Request, id: Id, now: Instant)
    requires Denotes(codec, c, req)
    ensures NewExternal(InfoFor(req, id, now)).Ok? <==>
            id != 0 && now != 0 && req.hash != "" && c.round != "" && c.game != ""
  {
  }
}
