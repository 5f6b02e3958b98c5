/**
 * Delivery (`/api/send-email?id=...`, admin only): send the owner a link to
 * the results page and mark the insigne delivered once the mail provider
 * accepted the message. The provider is an oracle.
 */
module SendEmail {
  import opened Wrappers
  import opened Db
  import opened Http

  const Subject: string := "Your Insigne has been forged"

  /** The message handed to the provider; the HTML template is reduced to the link it embeds. */
  datatype Email = Email(from: Option<string>, to: string, subject: string, link: string)

  /** `r.ok`, the provider's response text, or a `fetch` that rejected. */
  datatype SendResult = Sent | NotSent(text: string) | Unreachable

  /** `${PUBLIC_RESULTS_URL_BASE}?token=${access_token}`. */
  function ResultsLink(base: Option<string>, token: string): (link: string)
    ensures |link| == |Interpolate(base)| + 7 + |token|
    ensures link[..|Interpolate(base)|] == Interpolate(base)
    ensures link[|Interpolate(base)|..|Interpolate(base)| + 7] == "?token="
    ensures link[|Interpolate(base)| + 7..] == token
  {
    Interpolate(base) + "?token=" + token
  }

  /** A record the handler can deliver: it exists and has a non-empty client email and access token. */
  predicate Deliverable(r: Option<Insigne>) {
    && r.Some?
    && r.value.clientEmail.Some? && r.value.clientEmail.value != ""
    && r.value.accessToken.Some? && r.value.accessToken.value != ""
  }

  /** The message for a deliverable record: to its client email, linking its access token. */
  function MessageFor(env: Env, r: Insigne): (m: Email)
    requires Deliverable(Some(r))
    ensures m.to == r.clientEmail.value && m.from == env.fromEmail && m.subject == Subject
    ensures m.link == Interpolate(env.publicResultsUrlBase) + "?token=" + r.accessToken.value
  {
    Email(env.fromEmail, r.clientEmail.value, Subject, ResultsLink(env.publicResultsUrlBase, r.accessToken.value))
  }

  /**
   * The handler. `readFailed` is a failed read of the record (its error is
   * ignored, so the record counts as missing); `sent` is the message handed to
   * the provider, `None` when nothing was sent.
   */
  method Handle(db: Store, env: Env, req: Request, readFailed: bool, send: Email -> SendResult)
    returns (resp: Response, sent: Option<Email>)
    requires db.Valid()
    modifies db
    ensures db.Valid()
    ensures !AdminAuthorized(env, req) ==>
      resp == Reply(401, Refused) && sent == None && db.Snapshot() == old(db.Snapshot())
    ensures AdminAuthorized(env, req) && Param(req, "id") == "" ==>
      resp == Reply(400, Error("Missing id")) && sent == None && db.Snapshot() == old(db.Snapshot())
    ensures AdminAuthorized(env, req) && Param(req, "id") != ""
            && (readFailed || !Deliverable(FindById(old(db.insignes), Param(req, "id")))) ==>
      resp == Reply(400, Error("Missing email/token")) && sent == None && db.Snapshot() == old(db.Snapshot())
    ensures AdminAuthorized(env, req) && Param(req, "id") != ""
            && !readFailed && Deliverable(FindById(old(db.insignes), Param(req, "id"))) ==>
      var id := Param(req, "id");
      var m := MessageFor(env, FindById(old(db.insignes), id).value);
      && sent == Some(m)
      && match send(m)
         case NotSent(text) => resp == Reply(500, Error(text)) && db.Snapshot() == old(db.Snapshot())
         case Unreachable => resp == Thrown(NetworkError) && db.Snapshot() == old(db.Snapshot())
         case Sent =>
           resp == Reply(200, Ok)
           && db.Snapshot() == old(db.Snapshot()).(insignes := WithStatus(old(db.insignes), id, Delivered))
  {
    sent := None;
    if !AdminAuthorized(env, req) {
      return Reply(401, Refused), sent;
    }
    var id := Param(req, "id");
    if id == "" {
      return Reply(400, Error("Missing id")), sent;
    }
    var record := if readFailed then None else FindById(db.insignes, id);
    if !Deliverable(record) {
      return Reply(400, Error("Missing email/token")), sent;
    }
    var m := MessageFor(env, record.value);
    sent := Some(m);
    var outcome := send(m);
    if outcome.Unreachable? {
      return Thrown(NetworkError), sent;
    }
    if outcome.NotSent? {
      return Reply(500, Error(outcome.text)), sent;
    }
    db.SetStatus(id, Delivered);
    resp := Reply(200, Ok);
  }

  /** After a successful delivery the record reads back as delivered, whatever its status was. */
  lemma DeliveredAfterSend(rows: seq<Insigne>, id: string)
    requires Deliverable(FindById(rows, id))
    ensures FindById(WithStatus(rows, id, Delivered), id) == Some(FindById(rows, id).value.(status := Delivered))
  {
    FindAfterWithStatus(rows, id, Delivered);
  }
}
